/** What a run adds to its history: every token reported once, every operation named once,
    and nothing that was there before changed. */
module LoopLedger {
  import opened Text
  import opened Messages
  import opened Folding
  import opened TokenUsage
  import opened LoopTypes
  import opened LoopContinuation
  import opened LoopSpec
  import opened LoopResume

  // ---- reports ----

  /** What the model calls of these steps reported. */
  function StepReports(steps: seq<Step>): seq<Usage> {
    if steps == [] then [] else Report(steps[0]) + StepReports(steps[1..])
  }

  function Report(step: Step): seq<Usage> {
    if step.modelCall.Some? then [step.modelCall.value.usage] else []
  }

  /** What the child agents of these batches reported. */
  function ChildReports(events: seq<Event>): seq<Usage> {
    if events == [] then []
    else
      var last := events[|events| - 1];
      ChildReports(events[..|events| - 1]) + (if last.Dispatched? then [last.childUsage] else [])
  }

  lemma {:induction false} ChildReportsJoin(a: seq<Event>, b: seq<Event>)
    ensures ChildReports(a + b) == ChildReports(a) + ChildReports(b)
    decreases |b|
  {
    if b == [] {
      assert a + b == a;
    } else {
      var n := |b| - 1;
      ChildReportsJoin(a, b[..n]);
      assert (a + b)[..|a + b| - 1] == a + b[..n];
    }
  }

  ghost predicate AllFit(reports: seq<Usage>) {
    forall r :: r in reports ==> Fits(r)
  }

  lemma {:induction false} TotalConsistent(reports: seq<Usage>)
    requires AllFit(reports)
    ensures Fits(Total(reports)) && Consistent(Total(reports))
  {
    hide Add, Normalized;
    if reports != [] {
      var n := |reports| - 1;
      TotalConsistent(reports[..n]);
      AddConsistent(Total(reports[..n]), reports[n]);
    }
  }

  lemma {:induction false} TotalJoin(a: seq<Usage>, b: seq<Usage>)
    requires AllFit(a) && AllFit(b)
    ensures Total(a + b) == Add(Total(a), Total(b))
    decreases |b|
  {
    hide Add, Fits, Consistent, Normalized;
    TotalConsistent(a);
    if b == [] {
      assert a + b == a;
      ZeroIdentity(Total(a));
    } else {
      var n := |b| - 1;
      TotalJoin(a, b[..n]);
      TotalConsistent(b[..n]);
      assert (a + b)[..|a + b| - 1] == a + b[..n];
      AddAssociates(Total(a), Total(b[..n]), b[n]);
    }
  }

  /** Every usage that reaches the loop fits the program's integers. */
  ghost predicate ReportsFit(e: Engine) {
    && (forall h, t :: Fits(e.model(h, t).usage))
    && (forall calls, budget, spent :: Fits(e.dispatch(calls, budget, spent).childUsage))
  }

  // ---- one turn ----

  function MessagesOf(next: Next): seq<Message> {
    match next
    case Proceed(s) => s.messages
    case Done(o) => o.messages
    case Failed(o) => o.messages
  }

  function StepsOf(next: Next): seq<Step> {
    match next
    case Proceed(s) => s.steps
    case Done(o) => o.steps
    case Failed(o) => o.steps
  }

  function UsageOf(next: Next): Usage {
    match next
    case Proceed(s) => s.usage
    case Done(o) => o.usage
    case Failed(o) => o.usage
  }

  /** One step was added, for this model call. */
  ghost predicate AddsStep(before: seq<Step>, after: seq<Step>, call: ModelCall) {
    |after| == |before| + 1 && after[..|before|] == before && after[|before|].modelCall == Some(call)
  }

  lemma NoChildren(e: Engine, limits: Limits, s: LoopState, phase: Phase)
    ensures ChildReports(BoundaryEvents(e, limits, s, phase)) == []
  {
    hide ValidateContinuation;
    if e.observesBoundaries {
      assert [Built(ContinuationOf(limits, s, phase))][..0] == [];
    }
  }

  lemma FinalizeLedger(e: Engine, limits: Limits, s: LoopState, assistant: Message, results: seq<ToolResult>,
                       terminal: bool, iteration: int)
    requires s.steps != []
    ensures var t := FinalizeTools(e, limits, s, assistant, results, terminal, iteration);
            && MessagesOf(t.next) == s.messages && UsageOf(t.next) == s.usage && ChildReports(t.events) == []
            && |StepsOf(t.next)| == |s.steps| && StepsOf(t.next)[..|s.steps| - 1] == s.steps[..|s.steps| - 1]
            && Last(StepsOf(t.next)).modelCall == Last(s.steps).modelCall
  {
    hide ValidateContinuation, Traces, BoundaryEvents, BoundaryAccepted;
    var step := FinalStep(e, s, assistant.toolCalls, results, terminal);
    NoChildren(e, limits, s.(steps := SetLast(s.steps, step)), ToolsComplete);
  }

  /** A tool step that goes on or finishes adds the named reply, its results and the children's usage. */
  lemma ToolStepLedger(e: Engine, limits: Limits, s: LoopState, reply: Message, call: ModelCall, iteration: int, turn: int)
    requires !ToolStep(e, limits, s, reply, call, iteration, turn).next.Failed?
    ensures var t := ToolStep(e, limits, s, reply, call, iteration, turn);
            var batch := e.dispatch(Named(reply, turn).toolCalls, limits.maxTokens, s.usage);
            && MessagesOf(t.next) == s.messages + [Named(reply, turn)] + ResultMessages(batch.results)
            && UsageOf(t.next) == Add(s.usage, batch.childUsage)
            && ChildReports(t.events) == [batch.childUsage]
            && AddsStep(s.steps, StepsOf(t.next), call)
  {
    hide ValidateContinuation, DispatchBlocked, FinalizeTools, BoundaryEvents, BoundaryAccepted, Named, ResultMessages, Add,
         MessagesOf, StepsOf, UsageOf, ChildReports;
    var assistant := Named(reply, turn);
    var calls := assistant.toolCalls;
    var s1 := OpenStep(s, assistant, call, iteration);
    var batch := e.dispatch(calls, limits.maxTokens, s1.usage);
    var s2 := AfterDispatch(s1, calls, batch);
    var terminal := e.prepare(calls).value;
    var f := FinalizeTools(e, limits, s2, assistant, batch.results, terminal, iteration);
    FinalizeLedger(e, limits, s2, assistant, batch.results, terminal, iteration);
    var events, dispatched := BoundaryEvents(e, limits, s1, ModelComplete), [Dispatched(calls, s1.usage.totalTokens, batch.childUsage)];
    NoChildren(e, limits, s1, ModelComplete);
    OneChild(calls, s1.usage.totalTokens, batch.childUsage);
    ChildReportsJoin(events, dispatched);
    ChildReportsJoin(events + dispatched, f.events);
    assert s2.steps[..|s.steps|] == s.steps;
  }

  lemma OneChild(calls: seq<ToolCall>, spent: int, child: Usage)
    ensures ChildReports([Dispatched(calls, spent, child)]) == [child]
  {
    assert [Dispatched(calls, spent, child)][..0] == [];
  }

  /** An answer that is accepted or retried adds to the history, and charges nothing more. */
  lemma AnswerStepLedger(e: Engine, limits: Limits, s: LoopState, assistant: Message, call: ModelCall,
                         stop: StopReason, iteration: int)
    requires !AnswerStep(e, limits, s, assistant, call, stop, iteration).next.Failed?
    ensures var t := AnswerStep(e, limits, s, assistant, call, stop, iteration);
            && s.messages <= MessagesOf(t.next) && UsageOf(t.next) == s.usage
            && ChildReports(t.events) == [] && AddsStep(s.steps, StepsOf(t.next), call)
  {
    hide ValidateContinuation, Guard, BoundaryEvents, BoundaryAccepted, ChildReports;
    var step := Step(iteration, Some(call), [], Finish, SpentNow(s));
    NoChildren(e, limits, s.(messages := AppendFinal(s.messages, assistant), steps := s.steps + [step]), ValidatingOutput);
  }

  // ---- conservation ----

  /** Nothing was changed, only added, and the usage grew by exactly what the new model
      calls and the children reported. */
  ghost predicate Extended(s: LoopState, next: Next, events: seq<Event>) {
    && s.messages <= MessagesOf(next) && s.steps <= StepsOf(next)
    && var reports := StepReports(StepsOf(next)[|s.steps|..]) + ChildReports(events);
    AllFit(reports) && UsageOf(next) == Add(s.usage, Total(reports))
  }

  lemma OneReport(before: seq<Step>, after: seq<Step>, call: ModelCall)
    requires AddsStep(before, after, call)
    ensures before <= after && StepReports(after[|before|..]) == [call.usage]
  {
    assert after[|before|..] == [after[|before|]];
    assert StepReports([after[|before|]]) == [call.usage] by {
      assert [after[|before|]][1..] == [];
    }
  }

  lemma TotalOne(u: Usage)
    requires Fits(u)
    ensures Total([u]) == Normalized(u)
  {
    assert [u][..|[u]| - 1] == [];
    assert Total([u]) == Add(Total([]), u);
    ZeroIdentity(u);
  }

  /** A usage plus two reports, one after the other or together. */
  lemma ChargeTwo(start: Usage, used: Usage, child: Usage)
    requires Fits(start) && Fits(used) && Fits(child)
    ensures Add(Add(start, used), child) == Add(start, Total([used] + [child]))
  {
    hide Add;
    TotalJoin([used], [child]);
    TotalOne(used);
    TotalOne(child);
    NormalizedTwice(used, child);
    AddAssociates(start, used, child);
  }

  lemma NormalizedTwice(a: Usage, b: Usage)
    requires Fits(a) && Fits(b)
    ensures Add(Normalized(a), Normalized(b)) == Add(a, b)
  {
    AddNormalizes(a, b);
  }

  lemma ChargeOne(start: Usage, used: Usage)
    requires Fits(start) && Fits(used)
    ensures Add(start, used) == Add(start, Total([used] + []))
  {
    hide Add;
    TotalOne(used);
    AddNormalizes(start, used);
    assert [used] + [] == [used];
  }

  lemma NothingReported(steps: seq<Step>)
    ensures StepReports(steps[|steps|..]) + ChildReports([]) == [] && Total([]) == ZERO
  {
  }

  lemma StoppedExtends(e: Engine, limits: Limits, s: LoopState)
    requires Consistent(s.usage) && !IterationAllowed(limits, |s.steps|)
    ensures Extended(s, Turn(e, limits, s).next, Turn(e, limits, s).events)
    ensures Consistent(UsageOf(Turn(e, limits, s).next))
  {
    hide Add, Total, StepReports, ChildReports;
    NothingReported(s.steps);
    ConsistentFits(s.usage);
    ZeroIdentity(s.usage);
  }

  /** The second half of a turn, charged in one go. */
  lemma AnsweredExtends(e: Engine, limits: Limits, s: LoopState, reply: Reply)
    requires ReportsFit(e) && Consistent(s.usage) && Fits(reply.usage) && !Answered(e, limits, s, reply).next.Failed?
    ensures var t := Answered(e, limits, s, reply);
            Extended(s, t.next, t.events) && Consistent(UsageOf(t.next))
  {
    hide ValidateContinuation, AnswerStep, ToolStep, Add, Consistent, Fits, MessagesOf, StepsOf, UsageOf, ChildReports, StepReports,
         Total, Named, ResultMessages;
    var s1 := s.(operationTurn := s.operationTurn + 1, usage := Add(s.usage, reply.usage));
    var call := ModelCall(reply.model, reply.usage, reply.stopReason);
    var t := Answered(e, limits, s, reply);
    ConsistentFits(s.usage);
    AddConsistent(s.usage, reply.usage);
    if reply.toolCalls == [] {
      AnswerStepLedger(e, limits, s1, AssistantOf(reply), call, reply.stopReason, |s.steps|);
      OneReport(s.steps, StepsOf(t.next), call);
      ChargeOne(s.usage, reply.usage);
    } else {
      ToolStepLedger(e, limits, s1, AssistantOf(reply), call, |s.steps|, s.operationTurn);
      OneReport(s.steps, StepsOf(t.next), call);
      var child := e.dispatch(Named(AssistantOf(reply), s.operationTurn).toolCalls, limits.maxTokens, s1.usage).childUsage;
      AddConsistent(s1.usage, child);
      ChargeTwo(s.usage, reply.usage, child);
    }
  }

  lemma TurnExtends(e: Engine, limits: Limits, s: LoopState)
    requires ReportsFit(e) && Consistent(s.usage) && !Turn(e, limits, s).next.Failed?
    ensures Extended(s, Turn(e, limits, s).next, Turn(e, limits, s).events)
    ensures Consistent(UsageOf(Turn(e, limits, s).next))
  {
    hide Turn, Answered, Consistent, Add, Total, StepReports, ChildReports, UsageOf, MessagesOf, StepsOf;
    if !IterationAllowed(limits, |s.steps|) {
      StoppedExtends(e, limits, s);
    } else {
      var reply := e.model(s.messages, s.operationTurn);
      SameView(Turn(e, limits, s), reply, s, e, limits);
      AnsweredExtends(e, limits, s, reply);
      NoChildren(e, limits, s, Ready);
      var rest := Answered(e, limits, s, reply).events;
      ChildReportsJoin(BoundaryEvents(e, limits, s, Ready), rest);
      assert [] + ChildReports(rest) == ChildReports(rest);
    }
  }

  lemma ConsistentFits(u: Usage)
    requires Consistent(u)
    ensures Fits(u)
  {
  }

  lemma SameView(t: TurnResult, reply: Reply, s: LoopState, e: Engine, limits: Limits)
    requires t == Turn(e, limits, s) && !t.next.Failed? && IterationAllowed(limits, |s.steps|)
    requires reply == e.model(s.messages, s.operationTurn)
    ensures var rest := Answered(e, limits, s, reply);
            t.next == rest.next && t.events == BoundaryEvents(e, limits, s, Ready) + rest.events
  {
    hide AnswerStep, ToolStep, ValidateContinuation, FailedTurn;
  }

  lemma {:induction false} StepReportsJoin(a: seq<Step>, b: seq<Step>)
    ensures StepReports(a + b) == StepReports(a) + StepReports(b)
  {
    if a == [] {
      assert a + b == b;
    } else {
      hide Report;
      StepReportsJoin(a[1..], b);
      assert (a + b)[1..] == a[1..] + b && (a + b)[0] == a[0];
      var head, tail, rest := Report(a[0]), StepReports(a[1..]), StepReports(b);
      assert head + (tail + rest) == head + tail + rest;
    }
  }

  lemma SameReports(s1: seq<Usage>, c1: seq<Usage>, s2: seq<Usage>, c2: seq<Usage>)
    requires AllFit(s1 + c1) && AllFit(s2 + c2)
    ensures AllFit(s1 + s2 + (c1 + c2)) && Total(s1 + s2 + (c1 + c2)) == Add(Total(s1 + c1), Total(s2 + c2))
  {
    hide Add, Total, Fits;
    assert multiset(s1 + s2 + (c1 + c2)) == multiset(s1 + c1 + (s2 + c2));
    TotalOrderIndependent(s1 + s2 + (c1 + c2), s1 + c1 + (s2 + c2));
    TotalJoin(s1 + c1, s2 + c2);
  }

  lemma ExtendedJoin(s: LoopState, mid: LoopState, next: Next, first: seq<Event>, rest: seq<Event>)
    requires Consistent(s.usage) && Extended(s, Proceed(mid), first) && Extended(mid, next, rest)
    ensures Extended(s, next, first + rest)
  {
    hide Add, Total, Consistent, StepReports, ChildReports, AllFit;
    var added, more := mid.steps[|s.steps|..], StepsOf(next)[|mid.steps|..];
    assert StepsOf(next)[|s.steps|..] == added + more;
    StepReportsJoin(added, more);
    ChildReportsJoin(first, rest);
    SameReports(StepReports(added), ChildReports(first), StepReports(more), ChildReports(rest));
    TotalConsistent(StepReports(added) + ChildReports(first));
    TotalConsistent(StepReports(more) + ChildReports(rest));
    ConsistentFits(s.usage);
    AddAssociates(s.usage, Total(StepReports(added) + ChildReports(first)), Total(StepReports(more) + ChildReports(rest)));
  }

  /** Over a run that ends well nothing in the history or the steps is changed, only added,
      and every token the model calls and the child agents reported is charged exactly once. */
  lemma {:induction false} UsageConserved(e: Engine, limits: Limits, s: LoopState, n: nat)
    requires ReportsFit(e) && Consistent(s.usage) && Run(e, limits, s, n).end.Ended?
    ensures Extended(s, Done(Run(e, limits, s, n).end.output), Run(e, limits, s, n).events)
    decreases n
  {
    hide Turn, Run, Extended, Consistent, ReportsFit;
    SomeTurn(e, limits, s, n);
    RunUnfolds(e, limits, s, n);
    TurnExtends(e, limits, s);
    var t := Turn(e, limits, s);
    if t.next.Proceed? {
      UsageConserved(e, limits, t.next.state, n - 1);
      ExtendedJoin(s, t.next.state, Done(Run(e, limits, s, n).end.output), t.events, Run(e, limits, t.next.state, n - 1).events);
    }
  }

  lemma SomeTurn(e: Engine, limits: Limits, s: LoopState, n: nat)
    requires Run(e, limits, s, n).end.Ended?
    ensures n > 0 && !Turn(e, limits, s).next.Failed?
  {
    hide Turn;
  }

  // ---- operation identities ----

  /** Two calls of a history name the same slot only if they are the same call. */
  ghost predicate UniqueSlots(messages: seq<Message>) {
    forall i, k, j, l ::
      && 0 <= i < |messages| && 0 <= k < |messages[i].toolCalls| && 0 <= j < |messages| && 0 <= l < |messages[j].toolCalls|
      && NamesSlot(messages[i].toolCalls[k]) && messages[i].toolCalls[k].operation == messages[j].toolCalls[l].operation
      ==> i == j && k == l
  }

  predicate NamesSlot(c: ToolCall) {
    c.operation.Slot? && c.operation.turn >= 0
  }

  lemma {:induction false} CallBelow(calls: seq<ToolCall>, k: nat)
    requires k < |calls| && NamesSlot(calls[k])
    ensures calls[k].operation.turn < CallsNextTurn(calls)
  {
    if k < |calls| - 1 {
      CallBelow(calls[..|calls| - 1], k);
    }
  }

  /** Every slot a history names lies below the next turn. */
  lemma {:induction false} SlotBelow(messages: seq<Message>, i: nat, k: nat)
    requires i < |messages| && k < |messages[i].toolCalls| && NamesSlot(messages[i].toolCalls[k])
    ensures messages[i].toolCalls[k].operation.turn < NextTurn(messages)
  {
    hide CallsNextTurn;
    var n := |messages| - 1;
    if i < n {
      SlotBelow(messages[..n], i, k);
    } else {
      CallBelow(messages[n].toolCalls, k);
    }
  }

  /** Messages whose slots all lie at or above the history's next turn, and are unique among themselves. */
  lemma UniqueJoin(a: seq<Message>, b: seq<Message>)
    requires UniqueSlots(a) && UniqueSlots(b)
    requires forall j, l :: 0 <= j < |b| && 0 <= l < |b[j].toolCalls| && NamesSlot(b[j].toolCalls[l]) ==>
               NextTurn(a) <= b[j].toolCalls[l].operation.turn
    ensures UniqueSlots(a + b)
  {
    hide NextTurn;
    var all := a + b;
    forall i, k, j, l
      | && 0 <= i < |all| && 0 <= k < |all[i].toolCalls| && 0 <= j < |all| && 0 <= l < |all[j].toolCalls|
        && NamesSlot(all[i].toolCalls[k]) && all[i].toolCalls[k].operation == all[j].toolCalls[l].operation
      ensures i == j && k == l
    {
      if i < |a| {
        SlotBelow(a, i, k);
      }
      if j < |a| {
        SlotBelow(a, j, l);
      }
    }
  }

  ghost predicate NamesNothing(messages: seq<Message>) {
    forall j, l :: 0 <= j < |messages| && 0 <= l < |messages[j].toolCalls| ==> !NamesSlot(messages[j].toolCalls[l])
  }

  lemma PlainJoin(a: seq<Message>, b: seq<Message>)
    requires UniqueSlots(a) && NamesNothing(b)
    ensures UniqueSlots(a + b)
  {
    UniqueJoin(a, b);
  }

  lemma NoTurnNamesNothing(messages: seq<Message>)
    requires NextTurn(messages) == 0
    ensures NamesNothing(messages)
  {
    hide NextTurn;
    forall j, l | 0 <= j < |messages| && 0 <= l < |messages[j].toolCalls| ensures !NamesSlot(messages[j].toolCalls[l]) {
      if NamesSlot(messages[j].toolCalls[l]) {
        SlotBelow(messages, j, l);
      }
    }
  }

  lemma ExchangeUnique(messages: seq<Message>, reply: Message, results: seq<ToolResult>, turn: int)
    requires UniqueSlots(messages) && NextTurn(messages) <= turn
    ensures UniqueSlots(messages + [Named(reply, turn)] + ResultMessages(results))
  {
    hide NextTurn;
    var b := [Named(reply, turn)] + ResultMessages(results);
    assert UniqueSlots(b);
    UniqueJoin(messages, b);
    assert messages + [Named(reply, turn)] + ResultMessages(results) == messages + b;
  }

  /** An accepted answer calls no tools. */
  lemma {:induction false} GuardPlain(e: Engine, limits: Limits, messages: seq<Message>, candidate: Message, k: nat,
                                      iteration: int, usage: Usage, stop: StopReason)
    requires k <= |e.guardrails| && candidate.toolCalls == []
    ensures var g := Guard(e, limits, messages, candidate, k, iteration, usage, stop);
            g.Accepted? ==> g.output.toolCalls == []
    decreases |e.guardrails| - k
  {
    if k < |e.guardrails| {
      var result := e.guardrails[k](GuardrailInput(messages, candidate, iteration, limits.maxIterations,
                                                   limits.unlimitedIterations, usage, stop));
      if result.Some? && result.value.Allow? {
        GuardPlain(e, limits, messages, candidate, k + 1, iteration, usage, stop);
      } else if result.Some? && result.value.Replace? && result.value.replacement.toolCalls == [] {
        var m := result.value.replacement;
        GuardPlain(e, limits, messages, if m.role == Unset then m.(role := Assistant) else m, k + 1, iteration, usage, stop);
      }
    }
  }

  /** What an answer that is accepted or retried adds to the history. */
  lemma AnswerAdds(e: Engine, limits: Limits, s: LoopState, assistant: Message, call: ModelCall, stop: StopReason, iteration: int)
    requires !AnswerStep(e, limits, s, assistant, call, stop, iteration).next.Failed?
    ensures var t := AnswerStep(e, limits, s, assistant, call, stop, iteration);
            var g := Guard(e, limits, s.messages, assistant, 0, iteration + 1, s.usage, stop);
            && (g.Accepted? ==> MessagesOf(t.next) == AppendFinal(s.messages, g.output))
            && (g.Retried? ==> MessagesOf(t.next) == AppendRetry(s.messages, assistant, g.retry))
            && !g.Refused?
  {
    hide ValidateContinuation, Guard, BoundaryEvents, BoundaryAccepted, AppendFinal, AppendRetry;
  }

  lemma AnswerUnique(e: Engine, limits: Limits, s: LoopState, assistant: Message, call: ModelCall, stop: StopReason, iteration: int)
    requires UniqueSlots(s.messages) && assistant.toolCalls == [] && RetriesNameNothing(e)
    requires !AnswerStep(e, limits, s, assistant, call, stop, iteration).next.Failed?
    ensures UniqueSlots(MessagesOf(AnswerStep(e, limits, s, assistant, call, stop, iteration).next))
  {
    hide AnswerStep, Guard, UniqueSlots, MessagesOf, RetriesNameNothing, NextTurn;
    AnswerAdds(e, limits, s, assistant, call, stop, iteration);
    GuardPlain(e, limits, s.messages, assistant, 0, iteration + 1, s.usage, stop);
    RetryNamesNothing(e, limits, s.messages, assistant, 0, iteration + 1, s.usage, stop);
    var g := Guard(e, limits, s.messages, assistant, 0, iteration + 1, s.usage, stop);
    if g.Accepted? {
      PlainJoin(s.messages, [g.output]);
    } else {
      var added := g.retry.replacementContext + g.retry.retryMessages;
      PlainJoin(s.messages, [assistant]);
      NoTurnNamesNothing(added);
      PlainJoin(s.messages + [assistant], added);
      PlainJoin(s.messages, added);
      assert s.messages + g.retry.replacementContext + g.retry.retryMessages == s.messages + added;
      assert s.messages + [assistant] + g.retry.replacementContext + g.retry.retryMessages == s.messages + [assistant] + added;
    }
  }

  lemma TurnUnique(e: Engine, limits: Limits, s: LoopState)
    requires TurnsPassed(s) && UniqueSlots(s.messages) && RetriesNameNothing(e) && !Turn(e, limits, s).next.Failed?
    ensures UniqueSlots(MessagesOf(Turn(e, limits, s).next))
  {
    hide AnswerStep, ToolStep, UniqueSlots, RetriesNameNothing, ValidateContinuation, NextTurn, Named, ResultMessages, Add;
    var reply := e.model(s.messages, s.operationTurn);
    var s1 := s.(operationTurn := s.operationTurn + 1, usage := Add(s.usage, reply.usage));
    var call := ModelCall(reply.model, reply.usage, reply.stopReason);
    if IterationAllowed(limits, |s.steps|) {
      if reply.toolCalls == [] {
        AnswerUnique(e, limits, s1, AssistantOf(reply), call, reply.stopReason, |s.steps|);
      } else {
        ToolStepLedger(e, limits, s1, AssistantOf(reply), call, |s.steps|, s.operationTurn);
        var batch := e.dispatch(Named(AssistantOf(reply), s.operationTurn).toolCalls, limits.maxTokens, s1.usage);
        ExchangeUnique(s.messages, AssistantOf(reply), batch.results, s.operationTurn);
      }
    }
  }

  /** Operation identity over whole runs: no two tool calls in the history of a run that ends
      well name the same operation slot, so an effect's identity is never reused. */
  lemma {:induction false} OperationsUnique(e: Engine, limits: Limits, s: LoopState, n: nat)
    requires TurnsPassed(s) && UniqueSlots(s.messages) && RetriesNameNothing(e) && Run(e, limits, s, n).end.Ended?
    ensures UniqueSlots(Run(e, limits, s, n).end.output.messages)
    decreases n
  {
    hide Turn, Run, UniqueSlots, RetriesNameNothing, TurnsPassed;
    SomeTurn(e, limits, s, n);
    RunUnfolds(e, limits, s, n);
    TurnUnique(e, limits, s);
    TurnPasses(e, limits, s);
    if Turn(e, limits, s).next.Proceed? {
      OperationsUnique(e, limits, Turn(e, limits, s).next.state, n - 1);
    }
  }

  // ---- guardrails ----

  /** A guardrail passes a candidate on, as it is or replaced. */
  ghost predicate PassesOn(e: Engine, limits: Limits, messages: seq<Message>, k: nat, iteration: int, usage: Usage, stop: StopReason,
                           candidate: Message, passed: Message)
    requires k < |e.guardrails|
  {
    var result := e.guardrails[k](GuardrailInput(messages, candidate, iteration, limits.maxIterations,
                                                 limits.unlimitedIterations, usage, stop));
    && result.Some?
    && match result.value
       case Allow => passed == candidate
       case Replace(m) => m.toolCalls == [] && m.toolResult.None? && passed == (if m.role == Unset then m.(role := Assistant) else m)
       case _ => false
  }

  /** The candidates that the guardrails from `k` on were shown, and the last one's result. */
  ghost predicate Chain(e: Engine, limits: Limits, messages: seq<Message>, k: nat, iteration: int, usage: Usage, stop: StopReason,
                        shown: seq<Message>)
    requires k <= |e.guardrails|
  {
    && |shown| == |e.guardrails| - k + 1
    && forall i :: 0 <= i < |e.guardrails| - k ==>
         PassesOn(e, limits, messages, k + i, iteration, usage, stop, shown[i], shown[i + 1])
  }

  /** An answer is accepted exactly when every guardrail in turn passes on what the one before it passed on. */
  lemma {:induction false} AcceptedIff(e: Engine, limits: Limits, messages: seq<Message>, candidate: Message, k: nat,
                                       iteration: int, usage: Usage, stop: StopReason, output: Message)
    requires k <= |e.guardrails|
    ensures Guard(e, limits, messages, candidate, k, iteration, usage, stop) == Accepted(output) <==>
            exists shown :: Chain(e, limits, messages, k, iteration, usage, stop, shown)
                            && shown[0] == candidate && shown[|shown| - 1] == output
    decreases |e.guardrails| - k
  {
    if k == |e.guardrails| {
      assert Chain(e, limits, messages, k, iteration, usage, stop, [candidate]);
      if output == candidate {
        assert [candidate][0] == candidate;
      }
    } else {
      var result := e.guardrails[k](GuardrailInput(messages, candidate, iteration, limits.maxIterations,
                                                   limits.unlimitedIterations, usage, stop));
      if result.Some? && (result.value.Allow? || (result.value.Replace? && result.value.replacement.toolCalls == []
                                                   && result.value.replacement.toolResult.None?)) {
        var passed := if result.value.Allow? then candidate
                      else if result.value.replacement.role == Unset then result.value.replacement.(role := Assistant)
                      else result.value.replacement;
        AcceptedIff(e, limits, messages, passed, k + 1, iteration, usage, stop, output);
        ChainStep(e, limits, messages, candidate, passed, k, iteration, usage, stop, output);
      } else {
        ChainBlocked(e, limits, messages, candidate, k, iteration, usage, stop);
      }
    }
  }

  lemma ChainBlocked(e: Engine, limits: Limits, messages: seq<Message>, candidate: Message, k: nat,
                     iteration: int, usage: Usage, stop: StopReason)
    requires k < |e.guardrails| && forall passed :: !PassesOn(e, limits, messages, k, iteration, usage, stop, candidate, passed)
    ensures !exists shown :: Chain(e, limits, messages, k, iteration, usage, stop, shown) && shown[0] == candidate
  {
    hide PassesOn;
    forall shown | Chain(e, limits, messages, k, iteration, usage, stop, shown) ensures shown[0] != candidate {
      assert PassesOn(e, limits, messages, k + 0, iteration, usage, stop, shown[0], shown[0 + 1]);
    }
  }

  lemma ChainStep(e: Engine, limits: Limits, messages: seq<Message>, candidate: Message, passed: Message, k: nat,
                  iteration: int, usage: Usage, stop: StopReason, output: Message)
    requires k < |e.guardrails|
    requires forall m :: PassesOn(e, limits, messages, k, iteration, usage, stop, candidate, m) <==> m == passed
    ensures (exists shown :: Chain(e, limits, messages, k, iteration, usage, stop, shown)
                             && shown[0] == candidate && shown[|shown| - 1] == output)
            <==>
            (exists shown :: Chain(e, limits, messages, k + 1, iteration, usage, stop, shown)
                             && shown[0] == passed && shown[|shown| - 1] == output)
  {
    hide PassesOn;
    forall shown | Chain(e, limits, messages, k, iteration, usage, stop, shown) && shown[0] == candidate
      ensures Chain(e, limits, messages, k + 1, iteration, usage, stop, shown[1..]) && shown[1] == passed
    {
      assert PassesOn(e, limits, messages, k + 0, iteration, usage, stop, shown[0], shown[0 + 1]);
      var rest := shown[1..];
      forall i | 0 <= i < |e.guardrails| - (k + 1)
        ensures PassesOn(e, limits, messages, k + 1 + i, iteration, usage, stop, rest[i], rest[i + 1])
      {
        assert PassesOn(e, limits, messages, k + (i + 1), iteration, usage, stop, shown[i + 1], shown[(i + 1) + 1]);
      }
    }
    forall shown | Chain(e, limits, messages, k + 1, iteration, usage, stop, shown) && shown[0] == passed
      ensures Chain(e, limits, messages, k, iteration, usage, stop, [candidate] + shown)
    {
      var all := [candidate] + shown;
      forall i | 0 <= i < |e.guardrails| - k
        ensures PassesOn(e, limits, messages, k + i, iteration, usage, stop, all[i], all[i + 1])
      {
        if i > 0 {
          assert PassesOn(e, limits, messages, k + 1 + (i - 1), iteration, usage, stop, shown[i - 1], shown[(i - 1) + 1]);
        }
      }
    }
  }
}
