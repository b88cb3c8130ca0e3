/** What makes a continuation valid, said of its messages and steps without walking them. */
module LoopValidation {
  import opened Text
  import opened Folding
  import opened Messages
  import opened TokenUsage
  import opened LoopTypes
  import opened LoopContinuation

  // ---- the transcript ----

  predicate Caller(m: Message) {
    m.role == Assistant && m.toolCalls != []
  }

  /** Named calls with distinct ids, each without an operation or in its own slot of some turn. */
  predicate GoodCalls(calls: seq<ToolCall>) {
    && (forall k :: 0 <= k < |calls| ==> GoodCall(calls, k))
    && (forall j, k :: 0 <= j < k < |calls| ==> calls[j].id != calls[k].id)
  }

  predicate GoodCall(calls: seq<ToolCall>, k: int)
    requires 0 <= k < |calls|
  {
    && calls[k].id != "" && calls[k].name != ""
    && (calls[k].operation.NoOperation?
        || (calls[k].operation.Slot? && calls[k].operation.turn >= 0 && calls[k].operation.call == k))
  }

  predicate Answered(m: Message, call: ToolCall) {
    m.role == ToolRole && m.toolResult.Some? && m.toolResult.value.callId == call.id
  }

  /** The caller at `k` is followed by the answers to its calls, in order, as far as there are messages. */
  ghost predicate Followed(messages: seq<Message>, k: int)
    requires 0 <= k < |messages|
  {
    && GoodCalls(messages[k].toolCalls)
    && forall j :: 0 <= j < |messages[k].toolCalls| && k + 1 + j < |messages| ==>
         Answered(messages[k + 1 + j], messages[k].toolCalls[j])
  }

  /** The message at `i` is among the answers the caller at `k` is due. */
  predicate Due(messages: seq<Message>, k: int, i: int)
    requires 0 <= k < |messages|
  {
    Caller(messages[k]) && k < i <= k + |messages[k].toolCalls|
  }

  /** Every caller is followed by its answers, and every tool message is due to some caller. */
  ghost predicate Paired(messages: seq<Message>) {
    && (forall k :: 0 <= k < |messages| && Caller(messages[k]) ==> Followed(messages, k))
    && (forall i :: 0 <= i < |messages| && messages[i].role == ToolRole ==>
          exists k :: 0 <= k < |messages| && Due(messages, k, i))
  }

  /** The caller at `k` still waits for answers at the end. */
  predicate Waits(messages: seq<Message>, k: int)
    requires 0 <= k < |messages|
  {
    Due(messages, k, |messages|)
  }

  ghost predicate OpenEnded(messages: seq<Message>) {
    exists k :: 0 <= k < |messages| && Waits(messages, k)
  }

  /** Where the assistant messages are, in order. */
  ghost predicate Places(messages: seq<Message>, at: seq<nat>) {
    && (forall i, j :: 0 <= i < j < |at| ==> at[i] < at[j])
    && (forall i :: 0 <= i < |at| ==> at[i] < |messages| && messages[at[i]].role == Assistant)
    && (forall n: nat :: n < |messages| && messages[n].role == Assistant ==> n in at)
  }

  predicate CallsBelow(calls: seq<ToolCall>, bound: int) {
    forall k :: 0 <= k < |calls| && calls[k].operation.Slot? ==> calls[k].operation.turn < bound
  }

  /** Every turn a call names is below this bound. */
  ghost predicate TurnsBelow(messages: seq<Message>, bound: int) {
    forall i :: 0 <= i < |messages| && Caller(messages[i]) ==> CallsBelow(messages[i].toolCalls, bound)
  }

  // ---- the analysis finds exactly this ----

  lemma {:induction false} CallsOkIff(calls: seq<ToolCall>, k: nat)
    requires k <= |calls|
    ensures CallsOk(calls, k) <==>
            forall i :: k <= i < |calls| ==> GoodCall(calls, i) && forall j :: 0 <= j < i ==> calls[j].id != calls[i].id
    decreases |calls| - k
  {
    if k < |calls| {
      CallsOkIff(calls, k + 1);
    }
  }

  lemma GoodCallsIff(calls: seq<ToolCall>)
    ensures CallsOk(calls, 0) <==> GoodCalls(calls)
  {
    hide CallsOk, GoodCall;
    CallsOkIff(calls, 0);
  }

  lemma {:induction false} MaxTurnBelow(calls: seq<ToolCall>, least: int, bound: int)
    ensures MaxTurn(calls, least) < bound <==>
            least < bound && CallsBelow(calls, bound)
  {
    if calls != [] {
      MaxTurnBelow(calls[..|calls| - 1], least, bound);
    }
  }

  lemma AfterCaller(messages: seq<Message>, k: int, l: int)
    requires Paired(messages) && 0 <= k < l < |messages| && Due(messages, k, l)
    ensures messages[l].role == ToolRole
  {
    hide GoodCalls;
    assert Followed(messages, k);
    assert Answered(messages[k + 1 + (l - k - 1)], messages[k].toolCalls[l - k - 1]);
  }

  /** Only one caller can be waiting. */
  lemma OneWaits(messages: seq<Message>, k: int, l: int)
    requires Paired(messages) && 0 <= k < |messages| && 0 <= l < |messages| && Waits(messages, k) && Waits(messages, l)
    ensures k == l
  {
    hide Paired;
    if k < l {
      AfterCaller(messages, k, l);
    } else if l < k {
      AfterCaller(messages, l, k);
    }
  }

  lemma PairedBefore(messages: seq<Message>, m: Message)
    requires Paired(messages + [m])
    ensures Paired(messages)
  {
    hide GoodCalls, Answered;
    var all := messages + [m];
    forall k | 0 <= k < |messages| && Caller(messages[k]) ensures Followed(messages, k) {
      assert all[k] == messages[k] && Followed(all, k);
      forall j | 0 <= j < |messages[k].toolCalls| && k + 1 + j < |messages|
        ensures Answered(messages[k + 1 + j], messages[k].toolCalls[j])
      {
        assert all[k + 1 + j] == messages[k + 1 + j];
      }
    }
    forall i | 0 <= i < |messages| && messages[i].role == ToolRole ensures exists k :: 0 <= k < |messages| && Due(messages, k, i) {
      assert all[i] == messages[i];
      var k :| 0 <= k < |all| && Due(all, k, i);
      assert all[k] == messages[k] && Due(messages, k, i);
    }
  }

  /** One more message keeps the pairing exactly when it answers the waiting caller or, when none
      waits, is no tool message and calls well. */
  lemma PairedNext(messages: seq<Message>, m: Message)
    requires Paired(messages)
    ensures forall k :: 0 <= k < |messages| && Waits(messages, k) ==>
              (Paired(messages + [m]) <==> Answered(m, messages[k].toolCalls[|messages| - 1 - k]))
    ensures !OpenEnded(messages) ==>
              (Paired(messages + [m]) <==> m.role != ToolRole && (Caller(m) ==> GoodCalls(m.toolCalls)))
  {
    hide GoodCalls, Answered;
    forall k | 0 <= k < |messages| && Waits(messages, k)
      ensures Paired(messages + [m]) <==> Answered(m, messages[k].toolCalls[|messages| - 1 - k])
    {
      PairedAnswer(messages, m, k);
    }
    if !OpenEnded(messages) {
      PairedFresh(messages, m);
    }
  }

  lemma PairedAnswer(messages: seq<Message>, m: Message, k: int)
    requires Paired(messages) && 0 <= k < |messages| && Waits(messages, k)
    ensures Paired(messages + [m]) <==> Answered(m, messages[k].toolCalls[|messages| - 1 - k])
  {
    hide GoodCalls;
    var all, n := messages + [m], |messages|;
    assert all[k] == messages[k] && all[n] == m;
    if Paired(all) {
      assert Followed(all, k);
      assert Answered(all[k + 1 + (n - 1 - k)], all[k].toolCalls[n - 1 - k]);
    }
    if Answered(m, messages[k].toolCalls[n - 1 - k]) {
      forall l | 0 <= l < |all| && Caller(all[l]) ensures Followed(all, l) {
        assert Followed(messages, l);
        if l + |messages[l].toolCalls| >= n {
          OneWaits(messages, k, l);
        }
        FollowedNext(messages, m, l);
      }
      DueNext(messages, m);
      assert Due(all, k, n);
    }
  }

  lemma FollowedNext(messages: seq<Message>, m: Message, k: int)
    requires 0 <= k < |messages| && Followed(messages, k)
    requires k + |messages[k].toolCalls| >= |messages| ==> Answered(m, messages[k].toolCalls[|messages| - 1 - k])
    ensures Followed(messages + [m], k)
  {
    hide GoodCalls, Answered;
    var all := messages + [m];
    assert all[k] == messages[k];
    forall j | 0 <= j < |all[k].toolCalls| && k + 1 + j < |all| ensures Answered(all[k + 1 + j], all[k].toolCalls[j]) {
      if k + 1 + j < |messages| {
        assert all[k + 1 + j] == messages[k + 1 + j];
      }
    }
  }

  lemma DueNext(messages: seq<Message>, m: Message)
    requires Paired(messages)
    ensures forall i :: 0 <= i < |messages| && messages[i].role == ToolRole ==>
              exists k :: 0 <= k < |messages + [m]| && Due(messages + [m], k, i)
  {
    hide Followed;
    forall i | 0 <= i < |messages| && messages[i].role == ToolRole
      ensures exists k :: 0 <= k < |messages + [m]| && Due(messages + [m], k, i)
    {
      var k :| 0 <= k < |messages| && Due(messages, k, i);
      assert Due(messages + [m], k, i);
    }
  }

  lemma PairedFresh(messages: seq<Message>, m: Message)
    requires Paired(messages) && !OpenEnded(messages)
    ensures Paired(messages + [m]) <==> m.role != ToolRole && (Caller(m) ==> GoodCalls(m.toolCalls))
  {
    hide GoodCalls;
    var all, n := messages + [m], |messages|;
    assert all[n] == m;
    forall k | 0 <= k < n && Caller(messages[k]) ensures k + |messages[k].toolCalls| < n {
      assert !Waits(messages, k);
    }
    if Paired(all) {
      if Caller(m) {
        assert Followed(all, n);
      }
      forall k | 0 <= k < |all| ensures !Due(all, k, n) {
        assert k < n ==> all[k] == messages[k];
      }
    }
    if m.role != ToolRole && (Caller(m) ==> GoodCalls(m.toolCalls)) {
      forall k | 0 <= k < |all| && Caller(all[k]) ensures Followed(all, k) {
        if k < n {
          assert Followed(messages, k);
          FollowedNext(messages, m, k);
        }
      }
      DueNext(messages, m);
    }
  }

  /** The highest turn a call names, or -1. */
  ghost predicate Top(messages: seq<Message>, top: int) {
    forall bound {:trigger TopBelow(messages, top, bound)} :: TopBelow(messages, top, bound)
  }

  ghost predicate TopBelow(messages: seq<Message>, top: int, bound: int) {
    top < bound <==> -1 < bound && TurnsBelow(messages, bound)
  }

  lemma TopNext(messages: seq<Message>, m: Message, top: int)
    requires Top(messages, top)
    ensures Top(messages + [m], if Caller(m) then MaxTurn(m.toolCalls, top) else top)
  {
    hide TopBelow, MaxTurn, Caller;
    var all, next := messages + [m], if Caller(m) then MaxTurn(m.toolCalls, top) else top;
    forall bound ensures TopBelow(all, next, bound) {
      assert TopBelow(messages, top, bound);
      TopBelowNext(messages, m, top, bound);
    }
  }

  lemma TopBelowNext(messages: seq<Message>, m: Message, top: int, bound: int)
    requires TopBelow(messages, top, bound)
    ensures TopBelow(messages + [m], if Caller(m) then MaxTurn(m.toolCalls, top) else top, bound)
  {
    hide TurnsBelow, CallsBelow, MaxTurn, Caller;
    TurnsNext(messages, m, bound);
    MaxTurnBelow(m.toolCalls, top, bound);
  }

  /** What the analysis of an accepted transcript says about it. */
  ghost predicate Fits(messages: seq<Message>, a: Analysis) {
    && (a.pending != [] <==> OpenEnded(messages))
    && (forall k :: 0 <= k < |messages| && Waits(messages, k) ==>
          a.pending == messages[k].toolCalls && a.answered == |messages| - 1 - k)
    && (a.endsWithToolResults <==> messages != [] && messages[|messages| - 1].role == ToolRole)
    && Places(messages, a.assistants)
    && Top(messages, a.maxOperationTurn)
  }

  lemma PlacesNext(messages: seq<Message>, m: Message, at: seq<nat>)
    requires Places(messages, at)
    ensures Places(messages + [m], if m.role == Assistant then at + [|messages|] else at)
  {
    var all := messages + [m];
    var at' := if m.role == Assistant then at + [|messages|] else at;
    forall i | 0 <= i < |at'| ensures at'[i] < |all| && all[at'[i]].role == Assistant {
      if i < |at| {
        assert all[at[i]] == messages[at[i]];
      }
    }
    forall n: nat | n < |all| && all[n].role == Assistant ensures n in at' {
      if n < |messages| {
        assert all[n] == messages[n];
      } else {
        assert at'[|at|] == n;
      }
    }
  }

  lemma TurnsNext(messages: seq<Message>, m: Message, bound: int)
    ensures TurnsBelow(messages + [m], bound) <==> TurnsBelow(messages, bound) && (Caller(m) ==> CallsBelow(m.toolCalls, bound))
  {
    var all := messages + [m];
    assert all[|messages|] == m;
    forall i | 0 <= i < |messages| ensures all[i] == messages[i] {
    }
  }

  /** Which caller waits after one more message. */
  lemma WaitsNext(messages: seq<Message>, m: Message)
    ensures forall k :: 0 <= k < |messages| ==>
              (Waits(messages + [m], k) <==> Waits(messages, k) && |messages| < k + |messages[k].toolCalls|)
    ensures Waits(messages + [m], |messages|) <==> Caller(m)
  {
    var all := messages + [m];
    assert all[|messages|] == m;
    forall k | 0 <= k < |messages| ensures all[k] == messages[k] {
    }
  }

  /** After an answer the same caller waits, or nobody does. */
  lemma AnswerWaits(messages: seq<Message>, m: Message, k: int)
    requires Paired(messages) && 0 <= k < |messages| && Waits(messages, k) && !Caller(m)
    ensures var all := messages + [m];
            && all[k] == messages[k]
            && (forall l :: 0 <= l < |all| && Waits(all, l) ==> l == k)
            && (Waits(all, k) <==> |messages| < k + |messages[k].toolCalls|)
            && (OpenEnded(all) <==> |messages| < k + |messages[k].toolCalls|)
  {
    hide Paired, Waits, Caller;
    WaitsNext(messages, m);
    var all := messages + [m];
    forall l | 0 <= l < |all| && Waits(all, l) ensures l == k {
      if l < |messages| {
        OneWaits(messages, k, l);
      }
    }
  }

  lemma FitsAnswer(messages: seq<Message>, m: Message, a: Analysis, k: int)
    requires Paired(messages) && Fits(messages, a) && a.ok && 0 <= k < |messages| && Waits(messages, k)
    requires Answered(m, messages[k].toolCalls[|messages| - 1 - k])
    ensures AnalyzeNext(a, |messages|, m).ok && Fits(messages + [m], AnalyzeNext(a, |messages|, m))
  {
    var all, b := messages + [m], AnalyzeNext(a, |messages|, m);
    WaitsCalls(messages, k);
    hide Paired, GoodCalls, Places, Top, CallsOk, MaxTurn, Waits, OpenEnded;
    AnswerWaits(messages, m, k);
    PlacesNext(messages, m, a.assistants);
    TopNext(messages, m, a.maxOperationTurn);
    assert all[|all| - 1] == m && !Caller(m);
  }

  lemma WaitsCalls(messages: seq<Message>, k: int)
    requires 0 <= k < |messages| && Waits(messages, k)
    ensures messages[k].toolCalls != [] && k < |messages| <= k + |messages[k].toolCalls| && OpenEnded(messages)
  {
  }

  lemma FitsFresh(messages: seq<Message>, m: Message, a: Analysis)
    requires Fits(messages, a) && a.ok && !OpenEnded(messages)
    requires m.role != ToolRole && (Caller(m) ==> GoodCalls(m.toolCalls))
    ensures AnalyzeNext(a, |messages|, m).ok && Fits(messages + [m], AnalyzeNext(a, |messages|, m))
  {
    hide Paired, GoodCalls, Places, Top, CallsOk, MaxTurn;
    var all, b := messages + [m], AnalyzeNext(a, |messages|, m);
    GoodCallsIff(m.toolCalls);
    WaitsNext(messages, m);
    PlacesNext(messages, m, a.assistants);
    TopNext(messages, m, a.maxOperationTurn);
    assert all[|all| - 1] == m;
    forall k | 0 <= k < |messages| ensures all[k] == messages[k] && !Waits(messages, k) {
    }
  }

  lemma FitsStart()
    ensures Paired([]) && Fits([], START)
  {
  }

  /** The analysis accepts exactly the transcripts that pair calls and answers, and reports of them
      the calls still waiting, where the assistants are, and the highest turn named. */
  lemma {:induction false} AnalyzeIff(messages: seq<Message>)
    ensures Analyze(messages).ok <==> Paired(messages)
    ensures Paired(messages) ==> Fits(messages, Analyze(messages))
  {
    hide Paired, Fits, Answered, GoodCalls;
    if messages == [] {
      FitsStart();
    } else {
      var n := |messages| - 1;
      var before, m := messages[..n], messages[n];
      assert messages == before + [m];
      AnalyzeIff(before);
      if Paired(before) {
        PairedNext(before, m);
        AnalyzeFollows(before, m, Analyze(before));
      } else if Paired(messages) {
        PairedBefore(before, m);
      }
    }
  }

  lemma AnalyzeFollows(messages: seq<Message>, m: Message, a: Analysis)
    requires Paired(messages) && a.ok && Fits(messages, a)
    ensures AnalyzeNext(a, |messages|, m).ok <==> Paired(messages + [m])
    ensures Paired(messages + [m]) ==> Fits(messages + [m], AnalyzeNext(a, |messages|, m))
  {
    hide Paired, GoodCalls, Places, TurnsBelow, CallsOk, MaxTurn;
    PairedNext(messages, m);
    GoodCallsIff(m.toolCalls);
    if OpenEnded(messages) {
      var k :| 0 <= k < |messages| && Waits(messages, k);
      if Answered(m, messages[k].toolCalls[|messages| - 1 - k]) {
        FitsAnswer(messages, m, a, k);
      }
    } else if m.role != ToolRole && (Caller(m) ==> GoodCalls(m.toolCalls)) {
      FitsFresh(messages, m, a);
    }
  }

  // ---- the steps ----

  /** The calls of the assistant message that belongs to step `i`: the steps are the last assistants'. */
  function CallsAt(c: Continuation, at: seq<nat>, i: nat): seq<ToolCall>
    requires i < |c.steps| <= |at| && Places(c.messages, at)
  {
    c.messages[at[|at| - |c.steps| + i]].toolCalls
  }

  function ReportedUsage(step: Step): Usage {
    if step.modelCall.Some? then step.modelCall.value.usage else ZERO
  }

  /** What the provider reported in the first `n` steps. */
  function Reported(steps: seq<Step>, n: nat): seq<Usage>
    requires n <= |steps|
  {
    seq(n, i requires 0 <= i < n => ReportedUsage(steps[i]))
  }

  function SpentBefore(steps: seq<Step>, i: nat): Spent
    requires i <= |steps|
  {
    if i == 0 then Spent(0, 0) else steps[i - 1].spent
  }

  /** The tokens step `i` must at least have on record: all that was reported so far, and what the
      step before had with what this one reported. */
  function LeastTokens(steps: seq<Step>, i: nat): int
    requires i < |steps|
  {
    var all := Total(Reported(steps, i + 1)).totalTokens;
    if i == 0 then all else Max(all, Wrap(steps[i - 1].spent.tokens + ReportedUsage(steps[i]).totalTokens))
  }

  /** Step `i` is in order, has consistent usage, and goes on unless it is the last; its calls carry
      its turn's slots; it traces exactly its calls, or nothing while they are open; and its record
      counts its traced calls and, exactly where it could not have had children, its tokens. */
  ghost predicate StepFits(c: Continuation, at: seq<nat>, i: nat)
    requires i < |c.steps| <= |at| && Places(c.messages, at)
  {
    var step, calls := c.steps[i], CallsAt(c, at, i);
    var open := c.phase == ModelComplete && i == |c.steps| - 1;
    && step.index == i && step.modelCall.Some? && ConsistentCounts(ReportedUsage(step))
    && (i < |c.steps| - 1 || open ==> step.decision == Continue)
    && (forall k :: 0 <= k < |calls| ==> calls[k].operation == Slot(c.nextOperationTurn - |c.steps| + i, k))
    && (if open then step.toolCalls == [] else TracesMatch(step.toolCalls, calls))
    && step.spent.toolCalls == SpentBefore(c.steps, i).toolCalls + |step.toolCalls|
    && 0 <= step.spent.tokens && LeastTokens(c.steps, i) <= step.spent.tokens
    && (open || calls == [] ==> step.spent.tokens == LeastTokens(c.steps, i))
  }

  ghost predicate StepsFit(c: Continuation, at: seq<nat>, n: nat)
    requires n <= |c.steps| <= |at| && Places(c.messages, at)
  {
    forall i :: 0 <= i < n ==> StepFits(c, at, i)
  }

  /** The running totals are what the steps have on record. */
  ghost predicate TotalsFit(c: Continuation, n: nat, totals: Totals)
    requires n <= |c.steps|
  {
    && totals.completed == SpentBefore(c.steps, n).toolCalls && totals.completed >= 0
    && totals.usage == Total(Reported(c.steps, n))
  }

  lemma ReportedNext(steps: seq<Step>, n: nat)
    requires n < |steps|
    ensures Total(Reported(steps, n + 1)) == Add(Total(Reported(steps, n)), ReportedUsage(steps[n]))
  {
    var l := Reported(steps, n + 1);
    assert l[..|l| - 1] == Reported(steps, n);
  }

  lemma StepIff(c: Continuation, a: Analysis, i: nat, before: Totals)
    requires i < |c.steps| <= |a.assistants| && Places(c.messages, a.assistants) && TotalsFit(c, i, before)
    ensures var isLast := i == |c.steps| - 1;
            var pendingStep := c.phase == ModelComplete && isLast;
            var calls := StepCalls(c, a, i);
            && (StepOk(c.steps[i], i, isLast, pendingStep, calls, c.nextOperationTurn - |c.steps| + i,
                       if i > 0 then Some(c.steps[i - 1].spent.tokens) else None, before)
                <==> StepFits(c, a.assistants, i))
            && (StepFits(c, a.assistants, i) ==> TotalsFit(c, i + 1, StepTotals(c.steps[i], pendingStep, calls, before)))
  {
    hide Add, ConsistentCounts, Total, Places, Reported;
    ReportedNext(c.steps, i);
    AtPlaces(c.messages, a.assistants, |a.assistants| - |c.steps| + i);
    assert StepCalls(c, a, i) == CallsAt(c, a.assistants, i);
  }

  lemma AtPlaces(messages: seq<Message>, at: seq<nat>, i: nat)
    requires Places(messages, at) && i < |at|
    ensures at[i] < |messages|
  {
  }

  lemma {:induction false} TotalsIff(c: Continuation, a: Analysis, n: nat)
    requires n <= |c.steps| <= |a.assistants| && Places(c.messages, a.assistants)
    ensures TotalsAfter(c, a, n).ok <==> StepsFit(c, a.assistants, n)
    ensures StepsFit(c, a.assistants, n) ==> TotalsFit(c, n, TotalsAfter(c, a, n))
  {
    hide StepFits, StepOk, Places, StepCalls;
    if n > 0 {
      TotalsIff(c, a, n - 1);
      if StepsFit(c, a.assistants, n - 1) {
        StepIff(c, a, n - 1, TotalsAfter(c, a, n - 1));
      }
    } else {
      assert Reported(c.steps, 0) == [];
    }
  }

  // ---- the whole check ----

  /** The phase fits how the transcript ends and what the last step decided. */
  ghost predicate PhaseFits(c: Continuation) {
    var waiting := OpenEnded(c.messages);
    var decided := if c.steps == [] then NoDecision else c.steps[|c.steps| - 1].decision;
    match c.phase
    case Ready => !waiting && (c.steps != [] ==> decided == Continue)
    case ModelComplete => waiting && c.steps != []
    case ToolsComplete =>
      && !waiting && c.messages != [] && c.messages[|c.messages| - 1].role == ToolRole
      && c.steps != [] && c.steps[|c.steps| - 1].toolCalls != [] && decided != NoDecision
    case ValidatingOutput =>
      && !waiting && c.messages != [] && c.messages[|c.messages| - 1].role == Assistant
      && c.messages[|c.messages| - 1].toolCalls == [] && decided == Finish
  }

  /** What a valid continuation is. */
  ghost predicate WellFormed(c: Continuation, at: seq<nat>)
    requires Places(c.messages, at)
  {
    && c.toolCallsUsed >= 0 && c.repairCount >= 0 && c.nextOperationTurn >= 0 && ConsistentCounts(c.usage)
    && Paired(c.messages) && TurnsBelow(c.messages, c.nextOperationTurn)
    && |c.steps| <= c.nextOperationTurn && |c.steps| <= |at| && StepsFit(c, at, |c.steps|)
    && c.toolCallsUsed == SpentBefore(c.steps, |c.steps|).toolCalls
    && c.usage.totalTokens == SpentBefore(c.steps, |c.steps|).tokens
    && UsageContains(c.usage, Total(Reported(c.steps, |c.steps|)))
    && PhaseFits(c)
  }

  lemma NoPlaces()
    ensures Places([], [])
  {
  }

  lemma {:induction false} AssistantsAt(messages: seq<Message>) returns (at: seq<nat>)
    ensures Places(messages, at)
  {
    hide Places;
    if messages == [] {
      at := [];
      NoPlaces();
    } else {
      var n := |messages| - 1;
      at := AssistantsAt(messages[..n]);
      PlacesNext(messages[..n], messages[n], at);
      assert messages == messages[..n] + [messages[n]];
      at := if messages[n].role == Assistant then at + [n] else at;
    }
  }

  lemma PlacesUnique(messages: seq<Message>, a: seq<nat>, b: seq<nat>)
    requires Places(messages, a) && Places(messages, b)
    ensures a == b
  {
    hide Places;
    SameUpTo(messages, a, b, |a|);
    SameUpTo(messages, b, a, |b|);
  }

  /** Two increasing listings of one set agree from the start on. */
  lemma {:induction false} SameUpTo(messages: seq<Message>, a: seq<nat>, b: seq<nat>, n: nat)
    requires Places(messages, a) && Places(messages, b) && n <= |a|
    ensures n <= |b| && forall i :: 0 <= i < n ==> a[i] == b[i]
    decreases n
  {
    if n > 0 {
      SameUpTo(messages, a, b, n - 1);
      assert a[n - 1] in b;
      forall j | 0 <= j < n - 1 ensures b[j] != a[n - 1] {
        assert a[j] == b[j];
      }
      assert b[n - 1] in a;
      forall l | 0 <= l < n - 1 ensures a[l] != b[n - 1] {
        assert a[l] == b[l];
      }
    }
  }

  /** Validation accepts exactly the well-formed continuations. */
  lemma ValidIff(c: Continuation, at: seq<nat>)
    requires Places(c.messages, at)
    ensures ValidateContinuation(c) <==> WellFormed(c, at)
  {
    hide Analyze, TotalsAfter, Paired, Places, StepsFit, Total, Reported, ConsistentCounts, UsageContains, TurnsBelow, OpenEnded;
    var a := Analyze(c.messages);
    AnalyzeIff(c.messages);
    if Paired(c.messages) {
      FitsGives(c, a);
      PlacesUnique(c.messages, a.assistants, at);
      if |c.steps| <= |at| {
        TotalsIff(c, a, |c.steps|);
      }
    }
  }

  lemma FitsGives(c: Continuation, a: Analysis)
    requires Fits(c.messages, a)
    ensures a.pending != [] <==> OpenEnded(c.messages)
    ensures a.endsWithToolResults <==> c.messages != [] && c.messages[|c.messages| - 1].role == ToolRole
    ensures Places(c.messages, a.assistants)
    ensures c.nextOperationTurn >= 0 ==>
              (a.maxOperationTurn < c.nextOperationTurn <==> TurnsBelow(c.messages, c.nextOperationTurn))
  {
    hide Places, TurnsBelow, OpenEnded;
    assert TopBelow(c.messages, a.maxOperationTurn, c.nextOperationTurn);
  }
}
