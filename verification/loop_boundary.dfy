/** Every continuation the loop builds passes its own validation. */
module LoopBoundary {
  import opened Text
  import opened Messages
  import opened TokenUsage
  import opened LoopTypes
  import opened LoopContinuation
  import opened LoopSpec

  // ---- the hypotheses ----

  /** Consistent counts that the program's integers can hold, sums included. */
  predicate Sound(u: Usage) {
    && Fits(u) && ConsistentCounts(u)
    && u.inputTokens + u.outputTokens <= u.totalTokens
  }

  /** The calls of one reply are named and their ids are pairwise distinct. */
  predicate NamedCalls(calls: seq<ToolCall>) {
    && (forall i :: 0 <= i < |calls| ==> calls[i].id != "" && calls[i].name != "")
    && (forall i, j :: 0 <= i < j < |calls| ==> calls[i].id != calls[j].id)
  }

  predicate RegularReply(r: Reply) {
    Sound(r.usage) && NamedCalls(r.toolCalls) && (r.toolCalls == [] ==> r.text != "" || r.thinking != "")
  }

  /** One result for each call, keeping its id, and sound child usage. */
  predicate RegularBatch(calls: seq<ToolCall>, b: Batch) {
    && Sound(b.childUsage)
    && |b.results| == |calls|
    && forall i :: 0 <= i < |calls| ==> b.results[i].callId == calls[i].id
  }

  /** Messages that neither answer nor end an exchange. */
  predicate Asides(messages: seq<Message>) {
    forall i :: 0 <= i < |messages| ==> messages[i].role != Assistant && messages[i].role != ToolRole
  }

  /** A retry keeps the rejected answer and adds asides only. */
  predicate RegularRetry(r: GuardrailResult) {
    r.RetryWith? ==> r.includeRejected && Asides(r.replacementContext) && Asides(r.retryMessages)
  }

  ghost predicate Regular(e: Engine) {
    && (forall h, t :: !e.model(h, t).failed ==> RegularReply(e.model(h, t)))
    && (forall calls, budget, spent :: !e.dispatch(calls, budget, spent).failed ==>
          RegularBatch(calls, e.dispatch(calls, budget, spent)))
    && (forall k, input :: 0 <= k < |e.guardrails| && e.guardrails[k](input).Some? ==>
          RegularRetry(e.guardrails[k](input).value))
  }

  /** Between two turns: the state would be accepted as a ready continuation. */
  predicate ReadyState(limits: Limits, s: LoopState) {
    Sound(s.usage) && ValidateContinuation(ContinuationOf(limits, s, Ready))
  }

  /** A fresh run over a transcript without an open exchange starts in such a state. */
  lemma FreshReady(limits: Limits, messages: seq<Message>, operationTurn: int)
    requires Analyze(messages).ok && !Analyze(messages).Open()
    requires Analyze(messages).maxOperationTurn < operationTurn && 0 <= operationTurn
    ensures ReadyState(limits, LoopState(messages, ZERO, [], 0, operationTurn))
  {
  }

  // ---- usage ----

  lemma AddMonotone(total: Usage, least: Usage, u: Usage)
    requires UsageContains(total, least)
    ensures UsageContains(Add(total, u), Add(least, u))
  {
  }

  lemma AddGrows(total: Usage, u: Usage)
    requires Sound(total) && Sound(u)
    ensures UsageContains(Add(total, u), total)
    ensures Sound(Add(total, u)) || Add(total, u).totalTokens == MAX_INT
    ensures Add(total, u).totalTokens == Min(MAX_INT, total.totalTokens + u.totalTokens)
  {
  }

  // ---- transcripts ----

  lemma AnalyzePush(messages: seq<Message>, m: Message)
    ensures Analyze(messages + [m]) == AnalyzeNext(Analyze(messages), |messages|, m)
  {
    assert (messages + [m])[..|messages|] == messages;
  }

  lemma {:induction false} AssistantsInside(messages: seq<Message>)
    ensures forall i :: 0 <= i < |Analyze(messages).assistants| ==> Analyze(messages).assistants[i] < |messages|
  {
    if messages != [] {
      AssistantsInside(messages[..|messages| - 1]);
    }
  }

  lemma {:induction false} AnalyzeAsides(messages: seq<Message>, asides: seq<Message>)
    requires Analyze(messages).ok && !Analyze(messages).Open() && Asides(asides)
    ensures Analyze(messages + asides) == Analyze(messages) ||
            Analyze(messages + asides) == Analyze(messages).(endsWithToolResults := false)
  {
    hide Analyze, CallsOk, MaxTurn;
    if asides == [] {
      assert messages + asides == messages;
    } else {
      var n := |asides| - 1;
      AnalyzeAsides(messages, asides[..n]);
      AnalyzePush(messages + asides[..n], asides[n]);
      assert messages + asides == (messages + asides[..n]) + [asides[n]];
    }
  }

  lemma {:induction false} NamedCallsOk(calls: seq<ToolCall>, turn: int, k: nat)
    requires NamedCalls(calls) && turn >= 0 && k <= |calls|
    requires forall i :: 0 <= i < |calls| ==> calls[i].operation == Slot(turn, i)
    ensures CallsOk(calls, k)
    decreases |calls| - k
  {
    if k < |calls| {
      NamedCallsOk(calls, turn, k + 1);
    }
  }

  lemma {:induction false} NamedMaxTurn(calls: seq<ToolCall>, turn: int, least: int)
    requires least <= turn && forall i :: 0 <= i < |calls| ==> calls[i].operation == Slot(turn, i)
    ensures MaxTurn(calls, least) == if calls == [] then least else turn
  {
    if calls != [] {
      NamedMaxTurn(calls[..|calls| - 1], turn, least);
    }
  }

  /** An assistant message with named calls opens an exchange. */
  lemma AnalyzeOpens(messages: seq<Message>, reply: Message, turn: int)
    requires Analyze(messages).ok && !Analyze(messages).Open() && Analyze(messages).maxOperationTurn < turn
    requires reply.role == Assistant && reply.toolCalls != [] && NamedCalls(reply.toolCalls) && turn >= 0
    ensures var a, calls := Analyze(messages), Named(reply, turn).toolCalls;
            Analyze(messages + [Named(reply, turn)]) ==
              Analysis(true, calls, 0, false, a.assistants + [|messages|], turn)
  {
    hide Analyze, CallsOk, MaxTurn;
    var calls := Named(reply, turn).toolCalls;
    NamedCallsOk(calls, turn, 0);
    NamedMaxTurn(calls, turn, Analyze(messages).maxOperationTurn);
    AnalyzePush(messages, Named(reply, turn));
  }

  /** The results so far answer the first calls of the open exchange; the last one closes it. */
  lemma {:induction false} AnalyzeResults(messages: seq<Message>, calls: seq<ToolCall>, results: seq<ToolResult>)
    requires Analyze(messages).ok && Analyze(messages).pending == calls && Analyze(messages).answered == 0
    requires 0 < |results| <= |calls|
    requires forall i :: 0 <= i < |results| ==> results[i].callId == calls[i].id
    ensures Analyze(messages + ResultMessages(results)) ==
              Analyze(messages).(endsWithToolResults := true,
                                 pending := if |results| == |calls| then [] else calls,
                                 answered := if |results| == |calls| then 0 else |results|)
    decreases |results|
  {
    var n := |results| - 1;
    var before := ResultMessages(results[..n]);
    assert messages + ResultMessages(results) == (messages + before) + [ResultMessage(results[n])];
    AnalyzePush(messages + before, ResultMessage(results[n]));
    if n == 0 {
      assert messages + before == messages;
    } else {
      AnalyzeResults(messages, calls, results[..n]);
    }
  }

  // ---- totals ----

  /** The first `n` steps of two continuations are checked against the same facts. */
  ghost predicate SameSteps(c: Continuation, a: Analysis, d: Continuation, b: Analysis, n: nat)
  {
    && n <= |c.steps| <= |a.assistants| && n <= |d.steps| <= |b.assistants|
    && c.nextOperationTurn - |c.steps| == d.nextOperationTurn - |d.steps|
    && (c.phase == ModelComplete ==> n < |c.steps|) && (d.phase == ModelComplete ==> n < |d.steps|)
    && (forall i :: 0 <= i < n ==> c.steps[i] == d.steps[i] && c.steps[i].decision == Continue)
    && (forall i :: 0 <= i < n ==> StepCalls(c, a, i) == StepCalls(d, b, i))
  }

  /** Being last only matters to a step that does not continue. */
  lemma LastContinues(step: Step, index: nat, pendingStep: bool, calls: seq<ToolCall>, turn: int,
                      previous: Option<int>, before: Totals)
    requires step.decision == Continue
    ensures StepOk(step, index, true, pendingStep, calls, turn, previous, before)
            == StepOk(step, index, false, pendingStep, calls, turn, previous, before)
  {
    hide Add, ConsistentCounts, TracesMatch;
  }

  lemma {:induction false} SameTotals(c: Continuation, a: Analysis, d: Continuation, b: Analysis, n: nat)
    requires SameSteps(c, a, d, b, n)
    ensures TotalsAfter(c, a, n) == TotalsAfter(d, b, n)
  {
    hide StepOk, StepCalls;
    if n > 0 {
      var i := n - 1;
      SameTotals(c, a, d, b, i);
      LastContinues(c.steps[i], i, false, StepCalls(c, a, i), c.nextOperationTurn - |c.steps| + i,
                    if i > 0 then Some(c.steps[i - 1].spent.tokens) else None, TotalsAfter(c, a, i));
    }
  }

  lemma {:induction false} AllContinue(c: Continuation, a: Analysis, n: nat, i: nat)
    requires i < n <= |c.steps| <= |a.assistants| && TotalsAfter(c, a, n).ok && i < |c.steps| - 1
    ensures c.steps[i].decision == Continue
    decreases n
  {
    hide Add, ConsistentCounts, TracesMatch, StepCalls;
    if i < n - 1 {
      AllContinue(c, a, n - 1, i);
    }
  }

  /** `c` takes up one more model turn after the ready continuation `r`. */
  ghost predicate Extends(r: Continuation, c: Continuation) {
    && r.phase == Ready
    && c.nextOperationTurn == r.nextOperationTurn + 1
    && |c.steps| == |r.steps| + 1 && c.steps[..|r.steps|] == r.steps
    && |r.messages| < |c.messages| && c.messages[..|r.messages|] == r.messages
    && Analyze(c.messages).assistants == Analyze(r.messages).assistants + [|r.messages|]
  }

  /** The steps before the new one are accepted with the same totals as before. */
  lemma EarlierTotals(r: Continuation, c: Continuation)
    requires ValidateContinuation(r) && Extends(r, c)
    ensures |c.steps| <= |Analyze(c.messages).assistants|
    ensures var n := |r.steps|;
            TotalsAfter(c, Analyze(c.messages), n) == TotalsAfter(r, Analyze(r.messages), n)
    ensures StepCalls(c, Analyze(c.messages), |r.steps|) == c.messages[|r.messages|].toolCalls
  {
    hide Analyze, StepOk;
    var a, b, n := Analyze(r.messages), Analyze(c.messages), |r.steps|;
    AssistantsInside(r.messages);
    forall i | 0 <= i < n
      ensures r.steps[i] == c.steps[i] && r.steps[i].decision == Continue
      ensures StepCalls(r, a, i) == StepCalls(c, b, i)
    {
      assert c.steps[i] == c.steps[..n][i];
      if i < n - 1 {
        AllContinue(r, a, n, i);
      }
      var at := a.assistants[|a.assistants| - n + i];
      assert c.messages[at] == c.messages[..|r.messages|][at];
    }
    SameTotals(r, a, c, b, n);
  }

  /** The new step's snapshots agree with the run so far. */
  ghost predicate FitsRun(r: Continuation, c: Continuation, used: Usage)
    requires |r.messages| < |c.messages| && |r.steps| < |c.steps|
  {
    var calls := c.messages[|r.messages|].toolCalls;
    var step := c.steps[|r.steps|];
    && step.index == |r.steps| && step.modelCall.Some? && step.modelCall.value.usage == used
    && (forall i :: 0 <= i < |calls| ==> calls[i].operation == Slot(r.nextOperationTurn, i))
    && step.spent.tokens == c.usage.totalTokens && step.spent.toolCalls == c.toolCallsUsed
    && (if c.phase == ModelComplete
        then step.toolCalls == [] && step.decision == Continue && c.toolCallsUsed == r.toolCallsUsed
        else TracesMatch(step.toolCalls, calls) && c.toolCallsUsed == r.toolCallsUsed + |calls|)
    && UsageContains(c.usage, Add(r.usage, used))
    && (c.phase == ModelComplete || calls == [] ==> c.usage.totalTokens == Add(r.usage, used).totalTokens)
  }

  lemma TotalsStart(c: Continuation, a: Analysis)
    requires 0 <= |c.steps| <= |a.assistants|
    ensures TotalsAfter(c, a, 0) == Totals(true, 0, ZERO)
  {
  }

  lemma TotalsNext(c: Continuation, a: Analysis, n: nat)
    requires n < |c.steps| <= |a.assistants|
    ensures var before := TotalsAfter(c, a, n);
            var isLast := n == |c.steps| - 1;
            var pendingStep := c.phase == ModelComplete && isLast;
            var calls := StepCalls(c, a, n);
            before.ok && StepOk(c.steps[n], n, isLast, pendingStep, calls, c.nextOperationTurn - |c.steps| + n,
                                if n > 0 then Some(c.steps[n - 1].spent.tokens) else None, before) ==>
              TotalsAfter(c, a, n + 1) == StepTotals(c.steps[n], pendingStep, calls, before)
  {
    hide StepOk;
  }

  lemma ContainsTransitive(a: Usage, b: Usage, c: Usage)
    requires UsageContains(a, b) && UsageContains(b, c)
    ensures UsageContains(a, c)
  {
  }

  /** Then the new continuation's steps and totals are accepted. */
  lemma NewStepAccepted(r: Continuation, c: Continuation, used: Usage)
    requires ValidateContinuation(r) && Sound(r.usage) && Sound(used)
    requires Extends(r, c) && FitsRun(r, c, used)
    requires Add(r.usage, used).totalTokens < MAX_INT
    ensures var a := Analyze(c.messages);
            && |c.steps| <= c.nextOperationTurn && |c.steps| <= |a.assistants|
            && var totals := TotalsAfter(c, a, |c.steps|);
            && totals.ok && c.toolCallsUsed == totals.completed && UsageContains(c.usage, totals.usage)
  {
    hide Analyze, StepCalls, StepOk, Add, UsageContains, TotalsAfter;
    var a, n := Analyze(c.messages), |r.steps|;
    EarlierTotals(r, c);
    var before := TotalsAfter(r, Analyze(r.messages), n);
    TotalsStart(r, Analyze(r.messages));
    NewStepOk(r, c, used, before);
    assert n > 0 ==> c.steps[n - 1] == c.steps[..n][n - 1];
    TotalsNext(c, a, n);
    AddMonotone(r.usage, before.usage, used);
    ContainsTransitive(c.usage, Add(r.usage, used), Add(before.usage, used));
  }

  lemma NewStepOk(r: Continuation, c: Continuation, used: Usage, before: Totals)
    requires Sound(r.usage) && Sound(used) && Add(r.usage, used).totalTokens < MAX_INT
    requires |c.messages| > |r.messages| && |c.steps| == |r.steps| + 1 && FitsRun(r, c, used)
    requires before.completed == r.toolCallsUsed && r.toolCallsUsed >= 0 && UsageContains(r.usage, before.usage)
    requires r.usage.totalTokens == if r.steps == [] then 0 else r.steps[|r.steps| - 1].spent.tokens
    requires r.steps == [] ==> before.usage == ZERO
    ensures var n := |r.steps|;
            StepOk(c.steps[n], n, true, c.phase == ModelComplete, c.messages[|r.messages|].toolCalls, r.nextOperationTurn,
                   if n > 0 then Some(r.steps[n - 1].spent.tokens) else None, before)
  {
    hide Add, TracesMatch;
    AddGrows(r.usage, used);
    AddGrows(ZERO, used);
    AddMonotone(r.usage, before.usage, used);
  }

  /** All that is left to check is what the phase asks for. */
  lemma NewStepValid(r: Continuation, c: Continuation, used: Usage)
    requires ValidateContinuation(r) && Sound(r.usage) && Sound(used)
    requires Extends(r, c) && FitsRun(r, c, used)
    requires Add(r.usage, used).totalTokens < MAX_INT
    requires c.repairCount >= 0 && ConsistentCounts(c.usage)
    requires var a := Analyze(c.messages);
             a.ok && PhaseFitsTranscript(c, a) && a.maxOperationTurn < c.nextOperationTurn && PhaseFitsSteps(c, a)
    ensures ValidateContinuation(c)
  {
    hide Analyze, TotalsAfter, Add;
    NewStepAccepted(r, c, used);
  }

  // ---- the transitions of a turn ----

  /** The state after the provider answered a turn that started in `s`. */
  function Charged(s: LoopState, used: Usage): LoopState {
    s.(operationTurn := s.operationTurn + 1, usage := Add(s.usage, used))
  }

  lemma ChargedSound(s: LoopState, used: Usage)
    requires Sound(s.usage) && Sound(used) && Charged(s, used).usage.totalTokens < MAX_INT
    ensures Sound(Charged(s, used).usage) && UsageContains(Add(s.usage, used), Add(s.usage, used))
  {
    AddGrows(s.usage, used);
  }

  /** The reply's tool calls are recorded: model_complete. */
  lemma OpenValid(limits: Limits, s: LoopState, reply: Message, call: ModelCall)
    requires ReadyState(limits, s) && Sound(call.usage) && Charged(s, call.usage).usage.totalTokens < MAX_INT
    requires reply.role == Assistant && reply.toolCalls != [] && NamedCalls(reply.toolCalls)
    ensures var o := OpenStep(Charged(s, call.usage), Named(reply, s.operationTurn), call, |s.steps|);
            ValidateContinuation(ContinuationOf(limits, o, ModelComplete))
  {
    hide Analyze, TotalsAfter, Add, UsageContains;
    var assistant := Named(reply, s.operationTurn);
    var o := OpenStep(Charged(s, call.usage), assistant, call, |s.steps|);
    var r, c := ContinuationOf(limits, s, Ready), ContinuationOf(limits, o, ModelComplete);
    ChargedSound(s, call.usage);
    AnalyzeOpens(s.messages, reply, s.operationTurn);
    assert c.messages[|r.messages|] == assistant;
    assert Extends(r, c);
    NewStepValid(r, c, call.usage);
  }

  /** The batch has run and the step is final: tools_complete, and ready when the loop goes on. */
  lemma ToolsValid(limits: Limits, s: LoopState, reply: Message, call: ModelCall, batch: Batch, step: Step)
    requires ReadyState(limits, s) && Sound(call.usage) && Charged(s, call.usage).usage.totalTokens < MAX_INT
    requires reply.role == Assistant && reply.toolCalls != [] && NamedCalls(reply.toolCalls)
    requires var assistant := Named(reply, s.operationTurn);
             var o := OpenStep(Charged(s, call.usage), assistant, call, |s.steps|);
             var d := AfterDispatch(o, assistant.toolCalls, batch);
             && RegularBatch(assistant.toolCalls, batch)
             && step == Last(d.steps).(toolCalls := Traces(assistant.toolCalls, batch.results), spent := SpentNow(d),
                                       decision := step.decision)
             && step.decision != NoDecision
    ensures var assistant := Named(reply, s.operationTurn);
            var o := OpenStep(Charged(s, call.usage), assistant, call, |s.steps|);
            var d := AfterDispatch(o, assistant.toolCalls, batch);
            var f := d.(steps := SetLast(d.steps, step));
            && (f.usage.totalTokens < MAX_INT ==> ValidateContinuation(ContinuationOf(limits, f, ToolsComplete)))
            && (f.usage.totalTokens < MAX_INT && step.decision == Continue ==> ReadyState(limits, f))
  {
    hide Analyze, TotalsAfter, Add, UsageContains, ValidateContinuation;
    var assistant := Named(reply, s.operationTurn);
    var calls := assistant.toolCalls;
    var o := OpenStep(Charged(s, call.usage), assistant, call, |s.steps|);
    var d := AfterDispatch(o, calls, batch);
    var f := d.(steps := SetLast(d.steps, step));
    if f.usage.totalTokens < MAX_INT {
      ToolsAnalyzed(limits, s, reply, batch);
      ToolsUsage(s, call.usage, batch.childUsage);
      var r := ContinuationOf(limits, s, Ready);
      var c := ContinuationOf(limits, f, ToolsComplete);
      ToolsExtend(limits, s, reply, call, batch, step);
      ReadyFacts(limits, s);
      NewStepValid(r, c, call.usage);
      if step.decision == Continue {
        var c' := ContinuationOf(limits, f, Ready);
        NewStepValid(r, c', call.usage);
      }
    }
  }

  lemma ReadyFacts(limits: Limits, s: LoopState)
    requires ReadyState(limits, s)
    ensures var a := Analyze(s.messages);
            && a.ok && !a.Open() && a.maxOperationTurn < s.operationTurn && 0 <= s.operationTurn && 0 <= s.toolCallsUsed
            && s.usage.totalTokens >= 0
  {
    hide Analyze, TotalsAfter, UsageContains;
  }

  lemma ToolsAnalyzed(limits: Limits, s: LoopState, reply: Message, batch: Batch)
    requires ReadyState(limits, s)
    requires reply.role == Assistant && reply.toolCalls != [] && NamedCalls(reply.toolCalls)
    requires RegularBatch(Named(reply, s.operationTurn).toolCalls, batch)
    ensures Analyze(s.messages + [Named(reply, s.operationTurn)] + ResultMessages(batch.results)) ==
            Analysis(true, [], 0, true, Analyze(s.messages).assistants + [|s.messages|], s.operationTurn)
  {
    hide Analyze, ValidateContinuation;
    ReadyFacts(limits, s);
    AnalyzeOpens(s.messages, reply, s.operationTurn);
    AnalyzeResults(s.messages + [Named(reply, s.operationTurn)], Named(reply, s.operationTurn).toolCalls, batch.results);
  }

  lemma ToolsUsage(s: LoopState, used: Usage, child: Usage)
    requires Sound(s.usage) && Sound(used) && Sound(child)
    requires Add(Add(s.usage, used), child).totalTokens < MAX_INT
    ensures Add(s.usage, used).totalTokens < MAX_INT
    ensures Sound(Add(Add(s.usage, used), child))
    ensures UsageContains(Add(Add(s.usage, used), child), Add(s.usage, used))
  {
    hide Add, UsageContains;
    AddGrows(s.usage, used);
    AddBelow(s.usage, used, child);
    AddGrows(Add(s.usage, used), child);
  }

  lemma AddBelow(total: Usage, used: Usage, child: Usage)
    requires Sound(total) && Sound(used) && Sound(child)
    requires Add(Add(total, used), child).totalTokens < MAX_INT
    ensures Add(total, used).totalTokens < MAX_INT
  {
  }

  lemma ToolsExtend(limits: Limits, s: LoopState, reply: Message, call: ModelCall, batch: Batch, step: Step)
    requires reply.role == Assistant && reply.toolCalls != []
    requires var assistant := Named(reply, s.operationTurn);
             Analyze(s.messages + [assistant] + ResultMessages(batch.results)).assistants ==
               Analyze(s.messages).assistants + [|s.messages|]
    requires var assistant := Named(reply, s.operationTurn);
             var o := OpenStep(Charged(s, call.usage), assistant, call, |s.steps|);
             var d := AfterDispatch(o, assistant.toolCalls, batch);
             && step == Last(d.steps).(toolCalls := Traces(assistant.toolCalls, batch.results), spent := SpentNow(d),
                                       decision := step.decision)
             && UsageContains(d.usage, Add(s.usage, call.usage))
    ensures var assistant := Named(reply, s.operationTurn);
            var o := OpenStep(Charged(s, call.usage), assistant, call, |s.steps|);
            var d := AfterDispatch(o, assistant.toolCalls, batch);
            var f := d.(steps := SetLast(d.steps, step));
            forall phase | phase != ModelComplete ::
              var r, c := ContinuationOf(limits, s, Ready), ContinuationOf(limits, f, phase);
              && Extends(r, c) && FitsRun(r, c, call.usage) && c.steps[|c.steps| - 1] == step
  {
    hide Analyze, Add, UsageContains;
    var assistant := Named(reply, s.operationTurn);
    var calls := assistant.toolCalls;
    var o := OpenStep(Charged(s, call.usage), assistant, call, |s.steps|);
    var d := AfterDispatch(o, calls, batch);
    var f := d.(steps := SetLast(d.steps, step));
    assert f.messages[|s.messages|] == assistant;
    assert f.messages[..|s.messages|] == s.messages;
    assert f.steps == s.steps + [step];
    assert TracesMatch(step.toolCalls, calls);
  }

  /** The answer is appended: validating_output, and ready when it is rejected and kept. */
  lemma AnswerValid(limits: Limits, s: LoopState, assistant: Message, call: ModelCall, asides: seq<Message>, decision: Decision,
                    phase: Phase)
    requires ReadyState(limits, s) && Sound(call.usage) && Charged(s, call.usage).usage.totalTokens < MAX_INT
    requires assistant.role == Assistant && assistant.toolCalls == [] && Asides(asides)
    requires (phase == ValidatingOutput && decision == Finish && asides == []) || (phase == Ready && decision == Continue)
    ensures var s1 := Charged(s, call.usage);
            var f := s1.(messages := s.messages + [assistant] + asides,
                         steps := s.steps + [Step(|s.steps|, Some(call), [], decision, SpentNow(s1))]);
            ValidateContinuation(ContinuationOf(limits, f, phase)) && Sound(f.usage)
  {
    hide Analyze, TotalsAfter, Add, UsageContains, ValidateContinuation;
    var s1 := Charged(s, call.usage);
    var f := s1.(messages := s.messages + [assistant] + asides,
                 steps := s.steps + [Step(|s.steps|, Some(call), [], decision, SpentNow(s1))]);
    var r, c := ContinuationOf(limits, s, Ready), ContinuationOf(limits, f, phase);
    ReadyFacts(limits, s);
    ChargedSound(s, call.usage);
    AnalyzePush(s.messages, assistant);
    AnalyzeAsides(s.messages + [assistant], asides);
    assert c.messages[|r.messages|] == assistant;
    assert c.messages[..|r.messages|] == r.messages;
    assert Extends(r, c);
    NewStepValid(r, c, call.usage);
  }

  // ---- whole turns and whole runs ----

  /** No continuation's token total has saturated. */
  ghost predicate Unsaturated(events: seq<Event>) {
    forall c :: Built(c) in events ==> c.usage.totalTokens < MAX_INT
  }

  ghost predicate AllValid(events: seq<Event>) {
    forall c :: Built(c) in events ==> ValidateContinuation(c)
  }

  lemma ToolStepValid(e: Engine, limits: Limits, s: LoopState, reply: Message, call: ModelCall)
    requires Regular(e) && e.observesBoundaries && ReadyState(limits, s) && Sound(call.usage)
    requires reply.role == Assistant && reply.toolCalls != [] && NamedCalls(reply.toolCalls)
    requires Unsaturated(ToolStep(e, limits, Charged(s, call.usage), reply, call, |s.steps|, s.operationTurn).events)
    ensures var t := ToolStep(e, limits, Charged(s, call.usage), reply, call, |s.steps|, s.operationTurn);
            AllValid(t.events) && (t.next.Proceed? ==> ReadyState(limits, t.next.state))
  {
    hide ValidateContinuation, ReadyState, Sound, Add, DispatchBlocked, FinalizeTools, RegularBatch;
    var assistant := Named(reply, s.operationTurn);
    var calls := assistant.toolCalls;
    var s1 := Charged(s, call.usage);
    var o := OpenStep(s1, assistant, call, |s.steps|);
    var t := ToolStep(e, limits, s1, reply, call, |s.steps|, s.operationTurn);
    assert Built(ContinuationOf(limits, o, ModelComplete)) in t.events;
    OpenValid(limits, s, reply, call);
    var batch := e.dispatch(calls, limits.maxTokens, o.usage);
    if e.prepare(calls).Some? && !batch.failed {
      FinalizeValid(e, limits, s, reply, call, batch, e.prepare(calls).value);
    }
  }

  lemma FinalizeValid(e: Engine, limits: Limits, s: LoopState, reply: Message, call: ModelCall, batch: Batch, terminal: bool)
    requires ReadyState(limits, s) && Sound(call.usage) && Charged(s, call.usage).usage.totalTokens < MAX_INT
    requires e.observesBoundaries && reply.role == Assistant && reply.toolCalls != [] && NamedCalls(reply.toolCalls)
    requires RegularBatch(Named(reply, s.operationTurn).toolCalls, batch)
    ensures var assistant := Named(reply, s.operationTurn);
            var o := OpenStep(Charged(s, call.usage), assistant, call, |s.steps|);
            var d := AfterDispatch(o, assistant.toolCalls, batch);
            var t := FinalizeTools(e, limits, d, assistant, batch.results, terminal, |s.steps|);
            Unsaturated(t.events) ==> AllValid(t.events) && (t.next.Proceed? ==> ReadyState(limits, t.next.state))
  {
    hide ValidateContinuation, ReadyState, Sound, Add, RegularBatch;
    var assistant := Named(reply, s.operationTurn);
    var o := OpenStep(Charged(s, call.usage), assistant, call, |s.steps|);
    var d := AfterDispatch(o, assistant.toolCalls, batch);
    var step := FinalStep(e, d, assistant.toolCalls, batch.results, terminal);
    ToolsValid(limits, s, reply, call, batch, step);
    var f := d.(steps := SetLast(d.steps, step));
    var t := FinalizeTools(e, limits, d, assistant, batch.results, terminal, |s.steps|);
    if t.events != [] {
      assert t.events == [Built(ContinuationOf(limits, f, ToolsComplete))];
      assert Built(ContinuationOf(limits, f, ToolsComplete)) in t.events;
    }
  }

  lemma {:induction false} GuardRegular(e: Engine, limits: Limits, messages: seq<Message>, candidate: Message, k: nat,
                                        iteration: int, usage: Usage, stop: StopReason)
    requires Regular(e) && k <= |e.guardrails|
    ensures var g := Guard(e, limits, messages, candidate, k, iteration, usage, stop);
            g.Retried? ==> RegularRetry(g.retry)
    decreases |e.guardrails| - k
  {
    hide RegularReply, RegularBatch, RegularRetry;
    if k < |e.guardrails| {
      var result := e.guardrails[k](GuardrailInput(messages, candidate, iteration, limits.maxIterations,
                                                   limits.unlimitedIterations, usage, stop));
      if result.Some? && result.value.Allow? {
        GuardRegular(e, limits, messages, candidate, k + 1, iteration, usage, stop);
      } else if result.Some? && result.value.Replace? {
        var m := result.value.replacement;
        GuardRegular(e, limits, messages, if m.role == Unset then m.(role := Assistant) else m, k + 1,
                     iteration, usage, stop);
      }
    }
  }

  lemma AnswerStepValid(e: Engine, limits: Limits, s: LoopState, assistant: Message, call: ModelCall, stop: StopReason)
    requires Regular(e) && e.observesBoundaries && ReadyState(limits, s) && Sound(call.usage)
    requires assistant.role == Assistant && assistant.toolCalls == [] && (assistant.text != "" || assistant.thinking != "")
    requires Unsaturated(AnswerStep(e, limits, Charged(s, call.usage), assistant, call, stop, |s.steps|).events)
    ensures var t := AnswerStep(e, limits, Charged(s, call.usage), assistant, call, stop, |s.steps|);
            AllValid(t.events) && (t.next.Proceed? ==> ReadyState(limits, t.next.state))
  {
    hide ValidateContinuation, Sound, Add, Guard, Asides;
    var s1 := Charged(s, call.usage);
    var t := AnswerStep(e, limits, s1, assistant, call, stop, |s.steps|);
    var f := s1.(messages := s.messages + [assistant],
                 steps := s.steps + [Step(|s.steps|, Some(call), [], Finish, SpentNow(s1))]);
    assert t.events == [Built(ContinuationOf(limits, f, ValidatingOutput))];
    assert Built(ContinuationOf(limits, f, ValidatingOutput)) in t.events;
    assert s.messages + [assistant] + [] == s.messages + [assistant];
    NoAsides();
    AnswerValid(limits, s, assistant, call, [], Finish, ValidatingOutput);
    if t.next.Proceed? {
      GuardRegular(e, limits, s.messages, assistant, 0, |s.steps| + 1, s1.usage, stop);
      var retry := Guard(e, limits, s.messages, assistant, 0, |s.steps| + 1, s1.usage, stop).retry;
      var asides := retry.replacementContext + retry.retryMessages;
      JoinAsides(retry.replacementContext, retry.retryMessages);
      assert t.next.state.messages == s.messages + [assistant] + asides;
      AnswerValid(limits, s, assistant, call, asides, Continue, Ready);
    }
  }

  lemma NoAsides()
    ensures Asides([])
  {
  }

  lemma JoinAsides(a: seq<Message>, b: seq<Message>)
    requires Asides(a) && Asides(b)
    ensures Asides(a + b)
  {
  }

  lemma TurnValid(e: Engine, limits: Limits, s: LoopState)
    requires Regular(e) && e.observesBoundaries && ReadyState(limits, s) && Unsaturated(Turn(e, limits, s).events)
    ensures AllValid(Turn(e, limits, s).events)
    ensures Turn(e, limits, s).next.Proceed? ==> ReadyState(limits, Turn(e, limits, s).next.state)
  {
    hide ValidateContinuation, Sound, Add, ToolStep, AnswerStep, NamedCalls, RegularBatch, RegularRetry, FailedTurn;
    var t := Turn(e, limits, s);
    var reply := e.model(s.messages, s.operationTurn);
    if t.events != [] && !reply.failed {
      var call := ModelCall(reply.model, reply.usage, reply.stopReason);
      var s1 := Charged(s, call.usage);
      if BoundaryAccepted(e, limits, s, Ready) {
        if reply.toolCalls == [] {
          var rest := AnswerStep(e, limits, s1, AssistantOf(reply), call, reply.stopReason, |s.steps|);
          assert forall c :: Built(c) in rest.events ==> Built(c) in t.events;
          AnswerStepValid(e, limits, s, AssistantOf(reply), call, reply.stopReason);
        } else {
          var rest := ToolStep(e, limits, s1, AssistantOf(reply), call, |s.steps|, s.operationTurn);
          assert forall c :: Built(c) in rest.events ==> Built(c) in t.events;
          ToolStepValid(e, limits, s, AssistantOf(reply), call);
        }
      }
    }
  }

  /** Boundary validity is inductive: from a ready state, every continuation a run
      builds, in each of the four phases, passes the loop's own validation. */
  lemma {:induction false} BoundariesValid(e: Engine, limits: Limits, s: LoopState, n: nat)
    requires Regular(e) && e.observesBoundaries && ReadyState(limits, s) && Unsaturated(Run(e, limits, s, n).events)
    ensures AllValid(Run(e, limits, s, n).events)
    decreases n
  {
    hide Turn, ReadyState, ValidateContinuation, Regular;
    if n > 0 {
      var t := Turn(e, limits, s);
      assert forall c :: Built(c) in t.events ==> Built(c) in Run(e, limits, s, n).events;
      TurnValid(e, limits, s);
      if t.next.Proceed? {
        var rest := Run(e, limits, t.next.state, n - 1);
        assert forall c :: Built(c) in rest.events ==> Built(c) in Run(e, limits, s, n).events;
        BoundariesValid(e, limits, t.next.state, n - 1);
      }
    }
  }

  // ---- a run from the beginning ----

  lemma {:induction false} NamedBelow(calls: seq<ToolCall>, least: int)
    ensures MaxTurn(calls, least) < if CallsNextTurn(calls) > least then CallsNextTurn(calls) else least + 1
  {
    if calls != [] {
      NamedBelow(calls[..|calls| - 1], least);
    }
  }

  lemma {:induction false} TranscriptBelow(messages: seq<Message>)
    ensures Analyze(messages).maxOperationTurn < NextTurn(messages)
  {
    hide CallsOk, MaxTurn, CallsNextTurn;
    if messages != [] {
      var n := |messages| - 1;
      TranscriptBelow(messages[..n]);
      NamedBelow(messages[n].toolCalls, Analyze(messages[..n]).maxOperationTurn);
    }
  }

  /** A run over any transcript without an open exchange hands out only valid continuations. */
  lemma FreshBoundariesValid(e: Engine, limits: Limits, messages: seq<Message>, operationTurn: int, n: nat)
    requires Regular(e) && e.observesBoundaries && Analyze(messages).ok && !Analyze(messages).Open()
    requires Unsaturated(RunMessages(e, limits, LoopState(messages, ZERO, [], 0, operationTurn), n).events)
    ensures AllValid(RunMessages(e, limits, LoopState(messages, ZERO, [], 0, operationTurn), n).events)
  {
    hide Run, Analyze, NextTurn, ValidateContinuation, Regular;
    TranscriptBelow(messages);
    var s := Enter(messages, ZERO, [], 0, operationTurn);
    FreshReady(Normalize(limits), messages, s.operationTurn);
    BoundariesValid(e, Normalize(limits), s, n);
  }

  // ---- where the hypotheses are needed ----

  /** A retry that drops the rejected answer leaves one step more than the transcript
      has assistant messages, when each of them came from a step. */
  lemma DroppedAnswerRejected(limits: Limits, s: LoopState, assistant: Message, retry: GuardrailResult, again: Step, phase: Phase)
    requires |Analyze(s.messages).assistants| == |s.steps| && Analyze(s.messages).ok && !Analyze(s.messages).Open()
    requires retry.RetryWith? && !retry.includeRejected && Asides(retry.replacementContext) && Asides(retry.retryMessages)
    ensures var s' := s.(messages := AppendRetry(s.messages, assistant, retry), steps := s.steps + [again]);
            !ValidateContinuation(ContinuationOf(limits, s', phase))
  {
    hide Analyze;
    JoinAsides(retry.replacementContext, retry.retryMessages);
    AnalyzeAsides(s.messages, retry.replacementContext + retry.retryMessages);
    assert AppendRetry(s.messages, assistant, retry) == s.messages + (retry.replacementContext + retry.retryMessages);
  }
}
