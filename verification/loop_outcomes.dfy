/** How a turn ends, told from what the provider, the tools, the decider and the guardrails
    say, when no observer objects. */
module LoopOutcomes {
  import opened Text
  import opened Messages
  import opened TokenUsage
  import opened LoopTypes
  import opened LoopContinuation
  import opened LoopSpec
  import opened LoopLedger
  import opened LoopBudget
  import LoopValidation

  /** No observer objects to anything it is shown in this turn. */
  ghost predicate Unopposed(e: Engine, limits: Limits, s: LoopState) {
    && (forall step :: e.observeStep(step))
    && forall c :: Built(c) in Turn(e, limits, s).events ==> ValidateContinuation(c) && e.observeBoundary(c)
  }

  /** The iteration limit and, after the first turn, the budgets let another turn begin. */
  predicate MayBegin(limits: Limits, s: LoopState) {
    && (limits.unlimitedIterations || |s.steps| < limits.maxIterations)
    && (s.steps != [] ==> !Exhausted(limits, s.usage.totalTokens, s.toolCallsUsed, |s.steps|))
  }

  /** Some budget has nothing left. */
  predicate Exhausted(limits: Limits, tokens: int, toolCalls: int, steps: int) {
    || (0 < limits.maxTokens <= tokens)
    || (0 < limits.maxToolCalls <= toolCalls)
    || (0 < limits.maxSteps <= steps)
  }

  /** The calls of a reply, each named after this turn and its own position. */
  function CallsOf(reply: Reply, turn: int): seq<ToolCall> {
    seq(|reply.toolCalls|, i requires 0 <= i < |reply.toolCalls| =>
          ToolCall(reply.toolCalls[i].id, reply.toolCalls[i].name, reply.toolCalls[i].arguments, Slot(turn, i)))
  }

  function SaidBy(reply: Reply, calls: seq<ToolCall>): Message {
    Message(Assistant, reply.text, reply.thinking, calls, None, false, reply.rest)
  }

  /** One trace for each call: the call's own data, its result's structured output, and the
      result's content as the error exactly when the result is one. */
  ghost predicate Traced(calls: seq<ToolCall>, results: seq<ToolResult>, traces: seq<Trace>) {
    && |traces| == |calls|
    && forall i :: 0 <= i < |calls| ==>
         && traces[i].id == calls[i].id && traces[i].name == calls[i].name && traces[i].arguments == calls[i].arguments
         && traces[i].output == (if i < |results| then results[i].structured else "")
         && traces[i].error == (if i < |results| && results[i].isError then results[i].content else "")
  }

  /** One message for each result, carrying it. */
  ghost predicate Carries(messages: seq<Message>, results: seq<ToolResult>) {
    && |messages| == |results|
    && forall i :: 0 <= i < |results| ==>
         messages[i] == Message(ToolRole, "", "", [], Some(results[i]), false, results[i].name)
  }

  // ---- a turn that does not begin ----

  /** Past the iteration limit the run ends well, as it stands, as having run out of turns. */
  lemma OutOfTurns(e: Engine, limits: Limits, s: LoopState)
    requires !limits.unlimitedIterations && limits.maxIterations <= |s.steps|
    ensures Turn(e, limits, s) ==
            TurnResult([], Done(LoopOutput(s.messages, s.usage, MaxTurns, limits.maxIterations, "", s.steps, s.toolCallsUsed,
                                           limits.repairCount, s.operationTurn)))
  {
  }

  /** A limit left unset is a limit of twelve turns. */
  lemma DefaultTurns(e: Engine, limits: Limits, s: LoopState, n: nat)
    requires !limits.unlimitedIterations && limits.maxIterations <= 0 && n > 0
    ensures var entered := Enter(s.messages, s.usage, s.steps, s.toolCallsUsed, s.operationTurn);
            if |s.steps| < 12 then
              RunMessages(e, limits, s, n) == Run(e, limits.(maxIterations := 12), entered, n)
              && (s.steps == [] ==> MayBegin(limits.(maxIterations := 12), entered))
            else
              RunMessages(e, limits, s, n)
              == RunResult([], Ended(EndedWith(limits, entered, MaxTurns, 12, "")))
  {
    hide ToolStep, AnswerStep, FailedTurn, BoundaryAccepted, BoundaryEvents, NextTurn;
  }

  /** Out of budget the run is aborted, as it stands, before anything is asked. */
  lemma OutOfBudget(e: Engine, limits: Limits, s: LoopState)
    requires limits.unlimitedIterations || |s.steps| < limits.maxIterations
    requires s.steps != [] && Exhausted(limits, s.usage.totalTokens, s.toolCallsUsed, |s.steps|)
    ensures Turn(e, limits, s) ==
            TurnResult([], Failed(LoopOutput(s.messages, s.usage, Aborted, |s.steps|, "", s.steps, s.toolCallsUsed,
                                             limits.repairCount, s.operationTurn)))
  {
  }

  // ---- a turn whose provider failed ----

  /** The run breaks; what the provider said and charged before it failed is kept, with a
      failed step if a stream had been opened. */
  lemma ProviderFailed(e: Engine, limits: Limits, s: LoopState, reply: Reply)
    requires MayBegin(limits, s) && Unopposed(e, limits, s)
    requires reply == e.model(s.messages, s.operationTurn) && reply.failed
    ensures Turn(e, limits, s).next.Failed?
    ensures var o := Turn(e, limits, s).next.output;
            var silent := reply.text == "" && reply.thinking == "" && reply.redactedThinking == "" && reply.toolCalls == []
                          && reply.usage == ZERO;
            && o.stopReason == Errored && o.toolCallsUsed == s.toolCallsUsed && o.nextOperationTurn == s.operationTurn
            && o.messages == (if silent then s.messages else s.messages + [SaidBy(reply, reply.toolCalls)])
            && o.usage == (if silent then s.usage else Add(s.usage, reply.usage))
            && o.steps == (if reply.streamed
                           then s.steps + [Step(|s.steps|, Some(ModelCall(reply.model, reply.usage, reply.stopReason)), [], Fail,
                                                Spent(o.usage.totalTokens, s.toolCallsUsed))]
                           else s.steps)
            && o.iterations == (if silent && !reply.streamed then |s.steps| else |s.steps| + 1)
  {
    hide ValidateContinuation, Add;
  }

  // ---- a turn that calls tools ----

  /** The provider answered with tool calls. */
  ghost predicate CallsTools(e: Engine, limits: Limits, s: LoopState, reply: Reply) {
    && MayBegin(limits, s) && Unopposed(e, limits, s)
    && reply == e.model(s.messages, s.operationTurn) && !reply.failed && reply.toolCalls != []
  }

  function CallFor(reply: Reply): ModelCall {
    ModelCall(reply.model, reply.usage, reply.stopReason)
  }

  /** The limits keep the batch from being dispatched: tokens are limited and the reply reported
      none, a budget is exhausted, this turn's step included, or the batch is too large. */
  predicate Withheld(limits: Limits, s: LoopState, reply: Reply) {
    || (limits.maxTokens > 0 && reply.usage.totalTokens == 0)
    || Exhausted(limits, Add(s.usage, reply.usage).totalTokens, s.toolCallsUsed, |s.steps| + 1)
    || (limits.maxToolCalls > 0 && limits.maxToolCalls < s.toolCallsUsed + |reply.toolCalls|)
  }

  ghost predicate Dispatches(events: seq<Event>) {
    exists event :: event in events && event.Dispatched?
  }

  /** What the loop has recorded when the reply's calls are about to be dispatched. */
  function Opened(s: LoopState, reply: Reply, decision: Decision): LoopState {
    var usage := Add(s.usage, reply.usage);
    LoopState(s.messages + [SaidBy(reply, CallsOf(reply, s.operationTurn))], usage,
              s.steps + [Step(|s.steps|, Some(CallFor(reply)), [], decision, Spent(usage.totalTokens, s.toolCallsUsed))],
              s.toolCallsUsed, s.operationTurn + 1)
  }

  function EndedWith(limits: Limits, s: LoopState, stop: StopReason, iterations: int, thinking: string): LoopOutput {
    LoopOutput(s.messages, s.usage, stop, iterations, thinking, s.steps, s.toolCallsUsed, limits.repairCount, s.operationTurn)
  }

  lemma SameCalls(reply: Reply, turn: int)
    ensures Named(AssistantOf(reply), turn) == SaidBy(reply, CallsOf(reply, turn))
  {
    assert Named(AssistantOf(reply), turn).toolCalls == CallsOf(reply, turn);
  }

  /** A turn that calls tools, after its provider answered. */
  lemma ToolTurn(e: Engine, limits: Limits, s: LoopState, reply: Reply)
    requires CallsTools(e, limits, s, reply)
    ensures var s1 := s.(operationTurn := s.operationTurn + 1, usage := Add(s.usage, reply.usage));
            var rest := ToolStep(e, limits, s1, AssistantOf(reply), CallFor(reply), |s.steps|, s.operationTurn);
            && Turn(e, limits, s).next == rest.next
            && Turn(e, limits, s).events == BoundaryEvents(e, limits, s, Ready) + rest.events
            && OpenStep(s1, Named(AssistantOf(reply), s.operationTurn), CallFor(reply), |s.steps|) == Opened(s, reply, Continue)
  {
    hide ValidateContinuation, Add, ToolStep, AnswerStep, FailedTurn, Named;
    SameCalls(reply, s.operationTurn);
    ReadyShown(e, limits, s);
  }

  /** The ready continuation is shown first, and accepted. */
  lemma ReadyShown(e: Engine, limits: Limits, s: LoopState)
    requires MayBegin(limits, s) && Unopposed(e, limits, s)
    ensures BoundaryAccepted(e, limits, s, Ready)
  {
    hide ValidateContinuation, Add, ToolStep, AnswerStep, FailedTurn;
    assert e.observesBoundaries ==> Built(ContinuationOf(limits, s, Ready)) in Turn(e, limits, s).events;
  }

  lemma OpenedShown(e: Engine, limits: Limits, s: LoopState, reply: Reply)
    requires CallsTools(e, limits, s, reply)
    ensures BoundaryAccepted(e, limits, Opened(s, reply, Continue), ModelComplete)
  {
    hide ValidateContinuation, Add, FinalizeTools, DispatchBlocked, Named, Turn, OpenStep, Opened;
    ToolTurn(e, limits, s, reply);
    assert e.observesBoundaries ==> Built(ContinuationOf(limits, Opened(s, reply, Continue), ModelComplete)) in Turn(e, limits, s).events;
  }

  /** A withheld batch aborts the run: nothing is dispatched, and the step is marked failed. */
  lemma ToolTurnWithheld(e: Engine, limits: Limits, s: LoopState, reply: Reply)
    requires CallsTools(e, limits, s, reply) && Withheld(limits, s, reply)
    ensures Turn(e, limits, s).next == Failed(EndedWith(limits, Opened(s, reply, Fail), Aborted, |s.steps| + 1, ""))
    ensures !Dispatches(Turn(e, limits, s).events)
  {
    hide ValidateContinuation, Add, FinalizeTools, Named, Turn, OpenStep;
    ToolTurn(e, limits, s, reply);
    OpenedShown(e, limits, s, reply);
    assert FailLast(Opened(s, reply, Continue)) == Opened(s, reply, Fail);
    SameCalls(reply, s.operationTurn);
  }

  /** Any other batch is dispatched, unless its tools cannot be prepared. */
  lemma ToolTurnUnprepared(e: Engine, limits: Limits, s: LoopState, reply: Reply)
    requires CallsTools(e, limits, s, reply) && !Withheld(limits, s, reply)
    requires e.prepare(CallsOf(reply, s.operationTurn)).None?
    ensures Turn(e, limits, s).next == Failed(EndedWith(limits, Opened(s, reply, Continue), Errored, |s.steps| + 1, ""))
    ensures !Dispatches(Turn(e, limits, s).events)
  {
    hide ValidateContinuation, Add, FinalizeTools, Named, Turn, OpenStep, Opened;
    ToolTurn(e, limits, s, reply);
    OpenedShown(e, limits, s, reply);
    OpenedCounts(s, reply);
    SameCalls(reply, s.operationTurn);
  }

  lemma OpenedCounts(s: LoopState, reply: Reply)
    ensures var o := Opened(s, reply, Continue);
            |o.steps| == |s.steps| + 1 && o.toolCallsUsed == s.toolCallsUsed && o.usage == Add(s.usage, reply.usage)
            && o.steps != [] && o.operationTurn == s.operationTurn + 1
  {
  }

  /** The batch was dispatched: its calls, the tokens spent so far, and what children spent. */
  ghost predicate Ran(e: Engine, limits: Limits, s: LoopState, reply: Reply, batch: Batch) {
    && CallsTools(e, limits, s, reply) && !Withheld(limits, s, reply)
    && e.prepare(CallsOf(reply, s.operationTurn)).Some?
    && batch == e.dispatch(CallsOf(reply, s.operationTurn), limits.maxTokens, Add(s.usage, reply.usage))
  }

  /** The state after a batch, with these results as messages and this last step. */
  function Closed(s: LoopState, reply: Reply, batch: Batch, carried: seq<Message>, traces: seq<Trace>, decision: Decision): LoopState {
    var usage := Add(Add(s.usage, reply.usage), batch.childUsage);
    var used := s.toolCallsUsed + |reply.toolCalls|;
    LoopState(s.messages + [SaidBy(reply, CallsOf(reply, s.operationTurn))] + carried, usage,
              s.steps + [Step(|s.steps|, Some(CallFor(reply)), traces, decision, Spent(usage.totalTokens, used))],
              used, s.operationTurn + 1)
  }

  lemma ResultsCarried(results: seq<ToolResult>)
    ensures Carries(ResultMessages(results), results)
  {
  }

  lemma CallsTraced(calls: seq<ToolCall>, results: seq<ToolResult>)
    ensures Traced(calls, results, Traces(calls, results))
  {
  }

  lemma RanDispatched(e: Engine, limits: Limits, s: LoopState, reply: Reply, batch: Batch) returns (f: TurnResult)
    requires Ran(e, limits, s, reply, batch)
    ensures var calls := CallsOf(reply, s.operationTurn);
            var closed := Closed(s, reply, batch, ResultMessages(batch.results), [], Continue);
            var before := BoundaryEvents(e, limits, s, Ready) + BoundaryEvents(e, limits, Opened(s, reply, Continue), ModelComplete)
                          + [Dispatched(calls, Add(s.usage, reply.usage).totalTokens, batch.childUsage)];
            && (batch.failed ==> Turn(e, limits, s).events == before)
            && (batch.failed ==> Turn(e, limits, s).next == Failed(EndedWith(limits, closed, Errored, |s.steps| + 1, "")))
            && (!batch.failed ==>
                  && f == FinalizeTools(e, limits, closed, SaidBy(reply, calls), batch.results, e.prepare(calls).value, |s.steps|)
                  && Turn(e, limits, s).next == f.next && Turn(e, limits, s).events == before + f.events)
  {
    hide ValidateContinuation, Add, FinalizeTools, Named, Turn, OpenStep, ResultMessages, BoundaryEvents;
    ToolTurn(e, limits, s, reply);
    OpenedShown(e, limits, s, reply);
    SameCalls(reply, s.operationTurn);
    var calls := CallsOf(reply, s.operationTurn);
    var o := Opened(s, reply, Continue);
    var closed := Closed(s, reply, batch, ResultMessages(batch.results), [], Continue);
    assert AfterDispatch(o, calls, batch) == closed;
    f := FinalizeTools(e, limits, closed, SaidBy(reply, calls), batch.results, e.prepare(calls).value, |s.steps|);
    var ready, open := BoundaryEvents(e, limits, s, Ready), BoundaryEvents(e, limits, o, ModelComplete);
    var dispatched := [Dispatched(calls, Add(s.usage, reply.usage).totalTokens, batch.childUsage)];
    assert ready + (open + dispatched) == ready + open + dispatched;
    assert ready + (open + dispatched + f.events) == ready + open + dispatched + f.events;
  }

  /** A batch that failed breaks the run, with its results kept. */
  lemma BatchFailed(e: Engine, limits: Limits, s: LoopState, reply: Reply, batch: Batch) returns (carried: seq<Message>)
    requires Ran(e, limits, s, reply, batch) && batch.failed
    ensures Carries(carried, batch.results)
    ensures Turn(e, limits, s).next ==
            Failed(EndedWith(limits, Closed(s, reply, batch, carried, [], Continue), Errored, |s.steps| + 1, ""))
  {
    hide Ran, Turn, Closed;
    carried := ResultMessages(batch.results);
    ResultsCarried(batch.results);
    var _ := RanDispatched(e, limits, s, reply, batch);
  }

  /** The trichotomy of a tool turn whose batch succeeded: it ends the run well exactly when the
      tools are terminal or the decider says finish; it breaks the run exactly when they are not
      and the decider says fail; otherwise the loop goes on. The last step carries that decision. */
  lemma ToolTurnDecided(e: Engine, limits: Limits, s: LoopState, reply: Reply, batch: Batch)
    returns (carried: seq<Message>, traces: seq<Trace>)
    requires Ran(e, limits, s, reply, batch) && !batch.failed
    ensures Carries(carried, batch.results) && Traced(CallsOf(reply, s.operationTurn), batch.results, traces)
    ensures var next := Turn(e, limits, s).next;
            var terminal := e.prepare(CallsOf(reply, s.operationTurn)).value;
            var verdict := e.decide(Closed(s, reply, batch, carried, traces, Continue).steps);
            var n := |s.steps| + 1;
            && (next.Done? <==> terminal || verdict == DecideFinish)
            && (next.Failed? <==> !terminal && verdict == DecideFail)
            && (next.Proceed? <==> !terminal && verdict == NoOverride)
            && (next.Done? ==>
                  next.output == EndedWith(limits, Closed(s, reply, batch, carried, traces, Finish), Complete, n, reply.thinking))
            && (next.Failed? ==>
                  next.output == EndedWith(limits, Closed(s, reply, batch, carried, traces, Fail), Errored, n, ""))
            && (next.Proceed? ==> next.state == Closed(s, reply, batch, carried, traces, Continue))
  {
    hide ValidateContinuation, Add, Ran, Turn, ResultMessages, Traces;
    var calls := CallsOf(reply, s.operationTurn);
    carried, traces := ResultMessages(batch.results), Traces(calls, batch.results);
    RanUnopposed(e, limits, s, reply, batch);
    ResultsCarried(batch.results);
    CallsTraced(calls, batch.results);
    var f := RanDispatched(e, limits, s, reply, batch);
    var closed := Closed(s, reply, batch, carried, [], Continue);
    ClosedTraced(s, reply, batch, carried, traces);
    FinalShown(e, limits, closed, SaidBy(reply, calls), batch.results, e.prepare(calls).value, |s.steps|);
    assert SpentNow(closed) == Last(closed.steps).spent;
  }

  lemma ClosedTraced(s: LoopState, reply: Reply, batch: Batch, carried: seq<Message>, traces: seq<Trace>)
    ensures var closed := Closed(s, reply, batch, carried, [], Continue);
            forall decision :: Closed(s, reply, batch, carried, traces, decision)
                               == closed.(steps := SetLast(closed.steps, Last(closed.steps).(toolCalls := traces, decision := decision)))
  {
    hide Add;
  }

  /** What such a turn shows an observer and hands to the tools, in order: the ready boundary, the
      open step, the batch with the tokens spent before it, and the step with its traces and decision. */
  lemma ToolTurnShows(e: Engine, limits: Limits, s: LoopState, reply: Reply, batch: Batch)
    returns (carried: seq<Message>, traces: seq<Trace>)
    requires Ran(e, limits, s, reply, batch) && !batch.failed && e.observesBoundaries
    ensures Carries(carried, batch.results) && Traced(CallsOf(reply, s.operationTurn), batch.results, traces)
    ensures var calls := CallsOf(reply, s.operationTurn);
            var verdict := e.decide(Closed(s, reply, batch, carried, traces, Continue).steps);
            var decision := if e.prepare(calls).value || verdict == DecideFinish then Finish
                            else if verdict == DecideFail then Fail else Continue;
            Turn(e, limits, s).events ==
            [Built(ContinuationOf(limits, s, Ready)),
             Built(ContinuationOf(limits, Opened(s, reply, Continue), ModelComplete)),
             Dispatched(calls, Add(s.usage, reply.usage).totalTokens, batch.childUsage),
             Built(ContinuationOf(limits, Closed(s, reply, batch, carried, traces, decision), ToolsComplete))]
  {
    hide ValidateContinuation, Add, Ran, Turn, ResultMessages, Traces;
    var calls := CallsOf(reply, s.operationTurn);
    carried, traces := ResultMessages(batch.results), Traces(calls, batch.results);
    RanUnopposed(e, limits, s, reply, batch);
    ResultsCarried(batch.results);
    CallsTraced(calls, batch.results);
    var f := RanDispatched(e, limits, s, reply, batch);
    var closed := Closed(s, reply, batch, carried, [], Continue);
    ClosedTraced(s, reply, batch, carried, traces);
    assert SpentNow(closed) == Last(closed.steps).spent;
  }

  lemma RanUnopposed(e: Engine, limits: Limits, s: LoopState, reply: Reply, batch: Batch)
    requires Ran(e, limits, s, reply, batch)
    ensures Unopposed(e, limits, s) && e.prepare(CallsOf(reply, s.operationTurn)).Some?
  {
  }

  /** The boundary after the tools is among the events. */
  lemma FinalShown(e: Engine, limits: Limits, s: LoopState, assistant: Message, results: seq<ToolResult>, terminal: bool, iteration: int)
    requires s.steps != [] && forall step :: e.observeStep(step)
    ensures var step := FinalStep(e, s, assistant.toolCalls, results, terminal);
            var c := ContinuationOf(limits, s.(steps := SetLast(s.steps, step)), ToolsComplete);
            e.observesBoundaries ==> Built(c) in FinalizeTools(e, limits, s, assistant, results, terminal, iteration).events
  {
    hide ValidateContinuation, FinalStep;
  }

  // ---- a turn that answers ----

  /** The guardrails from `k` up to `j` passed on, one to the next, these candidates. */
  ghost predicate PassedTo(e: Engine, limits: Limits, messages: seq<Message>, k: nat, j: nat, iteration: int, usage: Usage,
                           stop: StopReason, shown: seq<Message>)
    requires k <= j <= |e.guardrails|
  {
    && |shown| == j - k + 1
    && forall i :: 0 <= i < j - k ==> PassesOn(e, limits, messages, k + i, iteration, usage, stop, shown[i], shown[i + 1])
  }

  /** This guardrail asks for a retry of the candidate, with something to say and turns left. */
  ghost predicate AsksRetry(e: Engine, limits: Limits, messages: seq<Message>, j: nat, iteration: int, usage: Usage,
                            stop: StopReason, candidate: Message, retry: GuardrailResult)
    requires j < |e.guardrails|
  {
    && e.guardrails[j](GuardrailInput(messages, candidate, iteration, limits.maxIterations, limits.unlimitedIterations,
                                      usage, stop)) == Some(retry)
    && retry.RetryWith? && retry.retryMessages != [] && (limits.unlimitedIterations || iteration < limits.maxIterations)
  }

  /** The guardrails from `k` on reject the candidate with this retry: one of them asks for it,
      and those before it passed on. */
  ghost predicate RejectedWith(e: Engine, limits: Limits, messages: seq<Message>, candidate: Message, k: nat, iteration: int,
                               usage: Usage, stop: StopReason, retry: GuardrailResult)
  {
    exists j: nat, shown ::
      && k <= j < |e.guardrails| && PassedTo(e, limits, messages, k, j, iteration, usage, stop, shown)
      && shown[0] == candidate && AsksRetry(e, limits, messages, j, iteration, usage, stop, shown[j - k], retry)
  }

  lemma RejectedHere(e: Engine, limits: Limits, messages: seq<Message>, candidate: Message, k: nat, iteration: int,
                     usage: Usage, stop: StopReason, retry: GuardrailResult)
    requires k < |e.guardrails| && forall m :: !PassesOn(e, limits, messages, k, iteration, usage, stop, candidate, m)
    ensures RejectedWith(e, limits, messages, candidate, k, iteration, usage, stop, retry)
            <==> AsksRetry(e, limits, messages, k, iteration, usage, stop, candidate, retry)
  {
    hide PassesOn, AsksRetry;
    if AsksRetry(e, limits, messages, k, iteration, usage, stop, candidate, retry) {
      assert PassedTo(e, limits, messages, k, k, iteration, usage, stop, [candidate]);
      assert [candidate][k - k] == candidate;
    }
    if RejectedWith(e, limits, messages, candidate, k, iteration, usage, stop, retry) {
      var j: nat, shown :|
        && k <= j < |e.guardrails| && PassedTo(e, limits, messages, k, j, iteration, usage, stop, shown)
        && shown[0] == candidate && AsksRetry(e, limits, messages, j, iteration, usage, stop, shown[j - k], retry);
      if j > k {
        assert PassesOn(e, limits, messages, k + 0, iteration, usage, stop, shown[0], shown[0 + 1]);
      }
    }
  }

  lemma RejectedNext(e: Engine, limits: Limits, messages: seq<Message>, candidate: Message, passed: Message, k: nat, iteration: int,
                     usage: Usage, stop: StopReason, retry: GuardrailResult)
    requires k < |e.guardrails| && forall m :: PassesOn(e, limits, messages, k, iteration, usage, stop, candidate, m) <==> m == passed
    requires !AsksRetry(e, limits, messages, k, iteration, usage, stop, candidate, retry)
    ensures RejectedWith(e, limits, messages, candidate, k, iteration, usage, stop, retry)
            <==> RejectedWith(e, limits, messages, passed, k + 1, iteration, usage, stop, retry)
  {
    hide PassesOn, AsksRetry;
    if RejectedWith(e, limits, messages, candidate, k, iteration, usage, stop, retry) {
      var j: nat, shown :|
        && k <= j < |e.guardrails| && PassedTo(e, limits, messages, k, j, iteration, usage, stop, shown)
        && shown[0] == candidate && AsksRetry(e, limits, messages, j, iteration, usage, stop, shown[j - k], retry);
      assert j > k;
      assert PassesOn(e, limits, messages, k + 0, iteration, usage, stop, shown[0], shown[0 + 1]);
      var rest := shown[1..];
      forall i | 0 <= i < j - (k + 1)
        ensures PassesOn(e, limits, messages, k + 1 + i, iteration, usage, stop, rest[i], rest[i + 1])
      {
        assert PassesOn(e, limits, messages, k + (i + 1), iteration, usage, stop, shown[i + 1], shown[(i + 1) + 1]);
      }
      assert PassedTo(e, limits, messages, k + 1, j, iteration, usage, stop, rest);
    }
    if RejectedWith(e, limits, messages, passed, k + 1, iteration, usage, stop, retry) {
      var j: nat, shown :|
        && k + 1 <= j < |e.guardrails| && PassedTo(e, limits, messages, k + 1, j, iteration, usage, stop, shown)
        && shown[0] == passed && AsksRetry(e, limits, messages, j, iteration, usage, stop, shown[j - (k + 1)], retry);
      var all := [candidate] + shown;
      forall i | 0 <= i < j - k
        ensures PassesOn(e, limits, messages, k + i, iteration, usage, stop, all[i], all[i + 1])
      {
        if i > 0 {
          assert PassesOn(e, limits, messages, k + 1 + (i - 1), iteration, usage, stop, shown[i - 1], shown[(i - 1) + 1]);
        }
      }
      assert PassedTo(e, limits, messages, k, j, iteration, usage, stop, all);
    }
  }

  /** An answer is sent back exactly when a guardrail asks for a retry of what those before it passed on. */
  lemma {:induction false} RetriedIff(e: Engine, limits: Limits, messages: seq<Message>, candidate: Message, k: nat, iteration: int,
                                      usage: Usage, stop: StopReason, retry: GuardrailResult)
    requires k <= |e.guardrails|
    ensures Guard(e, limits, messages, candidate, k, iteration, usage, stop) == Retried(retry)
            <==> RejectedWith(e, limits, messages, candidate, k, iteration, usage, stop, retry)
    decreases |e.guardrails| - k
  {
    if k < |e.guardrails| {
      var result := e.guardrails[k](GuardrailInput(messages, candidate, iteration, limits.maxIterations,
                                                   limits.unlimitedIterations, usage, stop));
      if result.Some? && (result.value.Allow? || (result.value.Replace? && result.value.replacement.toolCalls == []
                                                   && result.value.replacement.toolResult.None?)) {
        var passed := if result.value.Allow? then candidate
                      else if result.value.replacement.role == Unset then result.value.replacement.(role := Assistant)
                      else result.value.replacement;
        RetriedIff(e, limits, messages, passed, k + 1, iteration, usage, stop, retry);
        hide RejectedWith, Guard;
        RejectedNext(e, limits, messages, candidate, passed, k, iteration, usage, stop, retry);
      } else {
        RejectedHere(e, limits, messages, candidate, k, iteration, usage, stop, retry);
        hide RejectedWith;
      }
    }
  }

  /** The provider answered without tool calls. */
  ghost predicate Answers(e: Engine, limits: Limits, s: LoopState, reply: Reply) {
    && MayBegin(limits, s) && Unopposed(e, limits, s)
    && reply == e.model(s.messages, s.operationTurn) && !reply.failed && reply.toolCalls == []
  }

  /** The message itself, unless it says nothing. */
  function Shown(m: Message): seq<Message> {
    if m.text == "" && m.thinking == "" then [] else [m]
  }

  /** The state after an answering turn, with these messages added and this decision. */
  function Concluded(s: LoopState, reply: Reply, added: seq<Message>, decision: Decision): LoopState {
    var usage := Add(s.usage, reply.usage);
    LoopState(s.messages + added, usage,
              s.steps + [Step(|s.steps|, Some(CallFor(reply)), [], decision, Spent(usage.totalTokens, s.toolCallsUsed))],
              s.toolCallsUsed, s.operationTurn + 1)
  }

  lemma AnswerTurn(e: Engine, limits: Limits, s: LoopState, reply: Reply)
    requires Answers(e, limits, s, reply)
    ensures var s1 := s.(operationTurn := s.operationTurn + 1, usage := Add(s.usage, reply.usage));
            var rest := AnswerStep(e, limits, s1, SaidBy(reply, []), CallFor(reply), reply.stopReason, |s.steps|);
            && Turn(e, limits, s).next == rest.next
            && Turn(e, limits, s).events == BoundaryEvents(e, limits, s, Ready) + rest.events
  {
    hide ValidateContinuation, Add, ToolStep, AnswerStep, FailedTurn;
    ReadyShown(e, limits, s);
  }

  lemma AppendShown(messages: seq<Message>, m: Message)
    ensures AppendFinal(messages, m) == messages + Shown(m)
  {
    assert messages + [] == messages;
  }

  /** What such a turn shows an observer: the ready boundary, and the answer before it is judged. */
  lemma AnswerTurnShows(e: Engine, limits: Limits, s: LoopState, reply: Reply)
    requires Answers(e, limits, s, reply) && e.observesBoundaries
    ensures Turn(e, limits, s).events ==
            [Built(ContinuationOf(limits, s, Ready)),
             Built(ContinuationOf(limits, Concluded(s, reply, Shown(SaidBy(reply, [])), Finish), ValidatingOutput))]
  {
    hide ValidateContinuation, Add, Turn, Guard, Judged, AppendFinal, Shown;
    AnswerTurn(e, limits, s, reply);
    AppendShown(s.messages, SaidBy(reply, []));
  }

  lemma AnswerShown(e: Engine, limits: Limits, s: LoopState, reply: Reply)
    requires Answers(e, limits, s, reply)
    ensures BoundaryAccepted(e, limits, Concluded(s, reply, Shown(SaidBy(reply, [])), Finish), ValidatingOutput)
  {
    hide ValidateContinuation, Add, Turn, Guard, Judged, AppendFinal, Shown;
    AnswerTurn(e, limits, s, reply);
    AppendShown(s.messages, SaidBy(reply, []));
    assert e.observesBoundaries ==>
        Built(ContinuationOf(limits, Concluded(s, reply, Shown(SaidBy(reply, [])), Finish), ValidatingOutput)) in Turn(e, limits, s).events;
  }

  /** With tokens limited, an answer that reports none aborts the run. */
  lemma AnswerUnmetered(e: Engine, limits: Limits, s: LoopState, reply: Reply)
    requires Answers(e, limits, s, reply) && limits.maxTokens > 0 && reply.usage.totalTokens == 0
    ensures Turn(e, limits, s).next ==
            Failed(EndedWith(limits, Concluded(s, reply, Shown(SaidBy(reply, [])), Fail), Aborted, |s.steps| + 1, ""))
  {
    hide ValidateContinuation, Add, Turn, Guard, AppendFinal, Shown;
    AnswerTurn(e, limits, s, reply);
    AppendShown(s.messages, SaidBy(reply, []));
    AnswerShown(e, limits, s, reply);
  }

  /** The guardrails in turn pass on, one to the next, candidates that lead from the answer to `output`. */
  ghost predicate AcceptedAs(e: Engine, limits: Limits, messages: seq<Message>, answer: Message, iteration: int, usage: Usage,
                             stop: StopReason, output: Message)
  {
    exists shown :: && Chain(e, limits, messages, 0, iteration, usage, stop, shown) && shown != []
                    && shown[0] == answer && shown[|shown| - 1] == output
  }

  /** An answer that the guardrails all pass on ends the run with what the last one passed on
      and the provider's stop reason; one they send back leaves the run going on, with the
      retry's messages behind the context it gives and, if it says so, the rejected answer;
      any other breaks the run. The last step carries that decision. */
  lemma AnswerTurnJudged(e: Engine, limits: Limits, s: LoopState, reply: Reply)
    requires Answers(e, limits, s, reply) && !(limits.maxTokens > 0 && reply.usage.totalTokens == 0)
    ensures var next := Turn(e, limits, s).next;
            var answer, usage, n := SaidBy(reply, []), Add(s.usage, reply.usage), |s.steps| + 1;
            && (next.Done? <==> exists output :: AcceptedAs(e, limits, s.messages, answer, n, usage, reply.stopReason, output))
            && (forall output :: AcceptedAs(e, limits, s.messages, answer, n, usage, reply.stopReason, output) ==>
                  next == Done(EndedWith(limits, Concluded(s, reply, Shown(output), Finish), reply.stopReason, n, output.thinking)))
            && (next.Proceed? <==>
                  exists retry :: RejectedWith(e, limits, s.messages, answer, 0, n, usage, reply.stopReason, retry))
            && (forall retry :: RejectedWith(e, limits, s.messages, answer, 0, n, usage, reply.stopReason, retry) ==>
                  && retry.RetryWith?
                  && next == Proceed(Concluded(s, reply, (if retry.includeRejected then Shown(answer) else [])
                                                         + retry.replacementContext + retry.retryMessages, Continue)))
            && (next.Failed? ==>
                  next == Failed(EndedWith(limits, Concluded(s, reply, Shown(answer), Fail), Errored, n, "")))
  {
    hide ValidateContinuation, Add, Turn, Guard, AppendFinal, Shown, AcceptedAs, RejectedWith, AppendRetry, Answers, Concluded;
    var answer, usage, n := SaidBy(reply, []), Add(s.usage, reply.usage), |s.steps| + 1;
    var stop := reply.stopReason;
    var g := Guard(e, limits, s.messages, answer, 0, n, usage, stop);
    JudgedTurn(e, limits, s, reply, g);
    forall output ensures g == Accepted(output) <==> AcceptedAs(e, limits, s.messages, answer, n, usage, stop, output) {
      AcceptedAsIff(e, limits, s.messages, answer, n, usage, stop, output);
    }
    forall retry ensures g == Retried(retry) <==> RejectedWith(e, limits, s.messages, answer, 0, n, usage, stop, retry) {
      RetriedIff(e, limits, s.messages, answer, 0, n, usage, stop, retry);
    }
  }

  lemma AcceptedAsIff(e: Engine, limits: Limits, messages: seq<Message>, answer: Message, iteration: int, usage: Usage,
                      stop: StopReason, output: Message)
    ensures Guard(e, limits, messages, answer, 0, iteration, usage, stop) == Accepted(output)
            <==> AcceptedAs(e, limits, messages, answer, iteration, usage, stop, output)
  {
    hide Guard, Chain;
    ChainNonempty(e, limits, messages, iteration, usage, stop);
    AcceptedIff(e, limits, messages, answer, 0, iteration, usage, stop, output);
  }

  lemma ChainNonempty(e: Engine, limits: Limits, messages: seq<Message>, n: int, usage: Usage, stop: StopReason)
    ensures forall shown :: Chain(e, limits, messages, 0, n, usage, stop, shown) ==> shown != []
  {
    hide PassesOn;
  }

  /** The three outcomes of the guardrails, as they show in the turn. */
  lemma JudgedTurn(e: Engine, limits: Limits, s: LoopState, reply: Reply, g: GuardOutcome)
    requires Answers(e, limits, s, reply) && !(limits.maxTokens > 0 && reply.usage.totalTokens == 0)
    requires g == Guard(e, limits, s.messages, SaidBy(reply, []), 0, |s.steps| + 1, Add(s.usage, reply.usage), reply.stopReason)
    ensures g.Retried? ==> g.retry.RetryWith?
    ensures var next := Turn(e, limits, s).next;
            var answer, n := SaidBy(reply, []), |s.steps| + 1;
            match g
            case Accepted(output) =>
              next == Done(EndedWith(limits, Concluded(s, reply, Shown(output), Finish), reply.stopReason, n, output.thinking))
            case Retried(retry) =>
              next == Proceed(Concluded(s, reply, (if retry.includeRejected then Shown(answer) else [])
                                                  + retry.replacementContext + retry.retryMessages, Continue))
            case Refused =>
              next == Failed(EndedWith(limits, Concluded(s, reply, Shown(answer), Fail), Errored, n, ""))
  {
    hide ValidateContinuation, Add, Turn, Guard, AppendFinal, Shown, AppendRetry;
    var answer := SaidBy(reply, []);
    AnswerTurn(e, limits, s, reply);
    AnswerShown(e, limits, s, reply);
    AppendShown(s.messages, answer);
    if g.Accepted? {
      AppendShown(s.messages, g.output);
    } else if g.Retried? {
      RetryShown(s.messages, answer, g.retry);
    }
  }

  lemma RetryShown(messages: seq<Message>, answer: Message, retry: GuardrailResult)
    requires retry.RetryWith?
    ensures AppendRetry(messages, answer, retry)
            == messages + ((if retry.includeRejected then Shown(answer) else []) + retry.replacementContext + retry.retryMessages)
  {
    var kept := if retry.includeRejected then Shown(answer) else [];
    assert messages + (kept + retry.replacementContext + retry.retryMessages)
        == messages + kept + retry.replacementContext + retry.retryMessages;
    assert messages + [] == messages;
  }

  // ---- observers ----

  /** The continuation validates and its observer agrees. */
  ghost predicate Agreed(e: Engine, c: Continuation) {
    ValidateContinuation(c) && e.observeBoundary(c)
  }

  /** Every boundary shown was agreed to, save perhaps the last thing shown; one that is not
      agreed to breaks the run as that boundary holds it. */
  ghost predicate Heeded(e: Engine, limits: Limits, t: TurnResult) {
    && (forall i :: 0 <= i < |t.events| && t.events[i].Built? ==>
          Agreed(e, t.events[i].continuation) || (i == |t.events| - 1 && BrokenAt(limits, t.next, t.events[i].continuation)))
    && (!e.observesBoundaries ==> forall i :: 0 <= i < |t.events| ==> t.events[i].Dispatched?)
  }

  ghost predicate BrokenAt(limits: Limits, next: Next, c: Continuation) {
    && next.Failed? && next.output.stopReason == Errored
    && next.output.messages == c.messages && next.output.usage == c.usage && next.output.steps == c.steps
    && next.output.toolCallsUsed == c.toolCallsUsed && next.output.nextOperationTurn == c.nextOperationTurn
    && next.output.repairCount == c.repairCount == limits.repairCount && next.output.iterations == |c.steps|
  }

  /** A turn that goes on or ends well has shown its last step to the step observer, which agreed;
      so has one that a budget broke after its step. */
  ghost predicate StepAgreed(e: Engine, next: Next) {
    && (next.Proceed? ==> next.state.steps != [] && e.observeStep(Last(next.state.steps)))
    && (next.Done? || (next.Failed? && next.output.stopReason == Aborted) ==>
          next.output.steps != [] && e.observeStep(Last(next.output.steps)))
  }

  lemma BoundaryHeeded(e: Engine, limits: Limits, s: LoopState, phase: Phase)
    ensures BoundaryAccepted(e, limits, s, phase) <==>
            forall event :: event in BoundaryEvents(e, limits, s, phase) ==> Agreed(e, event.continuation)
    ensures !BoundaryAccepted(e, limits, s, phase) ==>
              Heeded(e, limits, TurnResult(BoundaryEvents(e, limits, s, phase), Error(limits, s, |s.steps|)))
  {
    hide ValidateContinuation;
    if !BoundaryAccepted(e, limits, s, phase) {
      var event := BoundaryEvents(e, limits, s, phase)[0];
      assert event in BoundaryEvents(e, limits, s, phase);
    } else if e.observesBoundaries {
      forall event | event in BoundaryEvents(e, limits, s, phase) ensures Agreed(e, event.continuation) {
      }
    }
  }

  /** What is shown before, and agreed to, changes nothing. */
  lemma HeededAfter(e: Engine, limits: Limits, before: seq<Event>, t: TurnResult)
    requires Heeded(e, limits, t)
    requires forall event :: event in before ==> (event.Built? ==> e.observesBoundaries && Agreed(e, event.continuation))
    ensures Heeded(e, limits, TurnResult(before + t.events, t.next))
  {
    hide Agreed, BrokenAt;
    var all := before + t.events;
    forall i | 0 <= i < |all| && all[i].Built?
      ensures Agreed(e, all[i].continuation) || (i == |all| - 1 && BrokenAt(limits, t.next, all[i].continuation))
    {
      if i < |before| {
        assert all[i] in before;
      } else {
        assert all[i] == t.events[i - |before|];
      }
    }
    forall i | 0 <= i < |all| && !e.observesBoundaries ensures all[i].Dispatched? {
      if i < |before| {
        assert all[i] in before;
      } else {
        assert all[i] == t.events[i - |before|];
      }
    }
  }

  lemma JudgedObserved(e: Engine, limits: Limits, s: LoopState, assistant: Message, step: Step, stop: StopReason, g: GuardOutcome)
    requires g.Retried? ==> g.retry.RetryWith?
    ensures StepAgreed(e, Judged(e, limits, s, assistant, step, stop, |s.steps|, g))
  {
    hide AppendFinal, AppendRetry;
  }

  lemma AnswerObserved(e: Engine, limits: Limits, s: LoopState, assistant: Message, call: ModelCall, stop: StopReason)
    ensures var t := AnswerStep(e, limits, s, assistant, call, stop, |s.steps|);
            Heeded(e, limits, t) && StepAgreed(e, t.next)
  {
    hide ValidateContinuation, Guard, AppendFinal, Judged, Heeded, BoundaryEvents, BoundaryAccepted;
    var step := Step(|s.steps|, Some(call), [], Finish, SpentNow(s));
    var s1 := s.(messages := AppendFinal(s.messages, assistant), steps := s.steps + [step]);
    var events := BoundaryEvents(e, limits, s1, ValidatingOutput);
    BoundaryHeeded(e, limits, s1, ValidatingOutput);
    ShownWhenObserving(e, limits, s1, ValidatingOutput);
    if BoundaryAccepted(e, limits, s1, ValidatingOutput) {
      var t := AnswerStep(e, limits, s, assistant, call, stop, |s.steps|);
      JudgedObserved(e, limits, s, assistant, step, stop,
                     Guard(e, limits, s.messages, assistant, 0, |s.steps| + 1, s.usage, stop));
      NothingShown(e, limits, t.next);
      HeededAfter(e, limits, events, TurnResult([], t.next));
      assert events + [] == events;
    }
  }

  lemma FinalObserved(e: Engine, limits: Limits, s: LoopState, assistant: Message, results: seq<ToolResult>, terminal: bool)
    requires s.steps != []
    ensures var t := FinalizeTools(e, limits, s, assistant, results, terminal, |s.steps| - 1);
            Heeded(e, limits, t) && StepAgreed(e, t.next)
  {
    hide ValidateContinuation, FinalStep;
    var s' := s.(steps := SetLast(s.steps, FinalStep(e, s, assistant.toolCalls, results, terminal)));
    BoundaryHeeded(e, limits, s', ToolsComplete);
  }

  lemma ToolObserved(e: Engine, limits: Limits, s: LoopState, reply: Message, call: ModelCall, turn: int)
    ensures var t := ToolStep(e, limits, s, reply, call, |s.steps|, turn);
            Heeded(e, limits, t) && StepAgreed(e, t.next)
  {
    hide ValidateContinuation, FinalizeTools, Named, DispatchBlocked, Heeded, BoundaryEvents, BoundaryAccepted;
    var assistant := Named(reply, turn);
    var s1 := OpenStep(s, assistant, call, |s.steps|);
    var events := BoundaryEvents(e, limits, s1, ModelComplete);
    BoundaryHeeded(e, limits, s1, ModelComplete);
    ShownWhenObserving(e, limits, s1, ModelComplete);
    if BoundaryAccepted(e, limits, s1, ModelComplete) {
      var t := ToolStep(e, limits, s, reply, call, |s.steps|, turn);
      NothingShown(e, limits, t.next);
      HeededAfter(e, limits, events, TurnResult([], t.next));
      if e.prepare(assistant.toolCalls).Some? {
        var batch := e.dispatch(assistant.toolCalls, limits.maxTokens, s1.usage);
        var s2 := AfterDispatch(s1, assistant.toolCalls, batch);
        var dispatched := [Dispatched(assistant.toolCalls, s1.usage.totalTokens, batch.childUsage)];
        HeededAfter(e, limits, events + dispatched, TurnResult([], t.next));
        assert events + dispatched + [] == events + dispatched && events + [] == events;
        FinalObserved(e, limits, s2, assistant, batch.results, e.prepare(assistant.toolCalls).value);
        HeededAfter(e, limits, events + dispatched,
                    FinalizeTools(e, limits, s2, assistant, batch.results, e.prepare(assistant.toolCalls).value, |s.steps|));
      }
      assert events + [] == events;
    }
  }

  lemma NothingShown(e: Engine, limits: Limits, next: Next)
    ensures Heeded(e, limits, TurnResult([], next))
  {
  }

  lemma ShownWhenObserving(e: Engine, limits: Limits, s: LoopState, phase: Phase)
    ensures forall event :: event in BoundaryEvents(e, limits, s, phase) ==> event.Built? && e.observesBoundaries
    ensures BoundaryEvents(e, limits, s, phase) == if e.observesBoundaries then [Built(ContinuationOf(limits, s, phase))] else []
  {
  }

  /** Observers are heeded: a turn first shows the ready boundary; whatever boundary is not agreed
      to, or does not validate, is the last thing shown and breaks the run as it stands there; and
      the turn goes on or ends well only if the step observer agreed to its last step. */
  lemma ObserversHeeded(e: Engine, limits: Limits, s: LoopState)
    requires MayBegin(limits, s)
    ensures var t := Turn(e, limits, s);
            && Heeded(e, limits, t) && StepAgreed(e, t.next)
            && (e.observesBoundaries ==> t.events != [] && t.events[0] == Built(ContinuationOf(limits, s, Ready)))
  {
    hide ValidateContinuation, Add, ToolStep, AnswerStep, FailedTurn, Heeded, BoundaryEvents, BoundaryAccepted;
    var events := BoundaryEvents(e, limits, s, Ready);
    BoundaryHeeded(e, limits, s, Ready);
    ShownWhenObserving(e, limits, s, Ready);
    if BoundaryAccepted(e, limits, s, Ready) {
      var reply := e.model(s.messages, s.operationTurn);
      var s1 := s.(operationTurn := s.operationTurn + 1, usage := Add(s.usage, reply.usage));
      var call := ModelCall(reply.model, reply.usage, reply.stopReason);
      NothingShown(e, limits, Turn(e, limits, s).next);
      HeededAfter(e, limits, events, TurnResult([], Turn(e, limits, s).next));
      AnswerObserved(e, limits, s1, AssistantOf(reply), call, reply.stopReason);
      HeededAfter(e, limits, events, AnswerStep(e, limits, s1, AssistantOf(reply), call, reply.stopReason, |s.steps|));
      ToolObserved(e, limits, s1, AssistantOf(reply), call, s.operationTurn);
      HeededAfter(e, limits, events, ToolStep(e, limits, s1, AssistantOf(reply), call, |s.steps|, s.operationTurn));
      assert events + [] == events;
    }
  }

  // ---- what a history tells a resumed run ----

  /** Every turn these calls, or these messages, name is below the bound. */
  ghost predicate CallsNameBelow(calls: seq<ToolCall>, bound: int) {
    forall k :: 0 <= k < |calls| && ScannedTurn(calls[k].operation).Some? ==> ScannedTurn(calls[k].operation).value < bound
  }

  ghost predicate NameBelow(messages: seq<Message>, bound: int) {
    forall i :: 0 <= i < |messages| ==> CallsNameBelow(messages[i].toolCalls, bound)
  }

  lemma {:induction false} CallsNextTurnLeast(calls: seq<ToolCall>, bound: nat)
    ensures CallsNextTurn(calls) <= bound <==> CallsNameBelow(calls, bound)
  {
    if calls != [] {
      CallsNextTurnLeast(calls[..|calls| - 1], bound);
    }
  }

  /** The next turn is the least number above every turn that the history names. */
  lemma {:induction false} NextTurnLeast(messages: seq<Message>, bound: nat)
    ensures NextTurn(messages) <= bound <==> NameBelow(messages, bound)
  {
    hide CallsNextTurn, CallsNameBelow;
    if messages != [] {
      NextTurnLeast(messages[..|messages| - 1], bound);
      CallsNextTurnLeast(messages[|messages| - 1].toolCalls, bound);
    }
  }

  /** The thinking carried on is that of the last assistant message, if there is one. */
  lemma {:induction false} LastThinkingTold(messages: seq<Message>)
    ensures (forall i :: 0 <= i < |messages| ==> messages[i].role != Assistant) ==> LastThinking(messages) == ""
    ensures forall i :: 0 <= i < |messages| && messages[i].role == Assistant
                        && (forall j :: i < j < |messages| ==> messages[j].role != Assistant) ==>
              LastThinking(messages) == messages[i].thinking
  {
    if messages != [] && messages[|messages| - 1].role != Assistant {
      LastThinkingTold(messages[..|messages| - 1]);
    }
  }

  // ---- resuming what is over, or not valid ----

  /** A continuation that is not well formed is refused: nothing is shown or dispatched, and what
      it holds is handed back. */
  lemma MalformedRefused(e: Engine, limits: Limits, c: Continuation, at: seq<nat>, n: nat)
    requires LoopValidation.Places(c.messages, at) && !LoopValidation.WellFormed(c, at)
    ensures var r := Resume(e, limits, c, n);
            && r.events == [] && r.end.Broke?
            && var o := r.end.output;
            && o.messages == c.messages && o.usage == c.usage && o.steps == c.steps && o.toolCallsUsed == c.toolCallsUsed
            && o.repairCount == c.repairCount && o.nextOperationTurn == c.nextOperationTurn && o.iterations == |c.steps|
  {
    hide LoopValidation.WellFormed, LoopValidation.Places, ValidateContinuation;
    LoopValidation.ValidIff(c, at);
  }

  /** A step that the decider failed stays failed: resuming from the boundary behind it breaks the
      same way, with the same output but for the thinking, and does nothing more. */
  lemma FailedStepStays(e: Engine, limits: Limits, s: LoopState, reply: Reply, batch: Batch, n: nat) returns (c: Continuation)
    requires Ran(e, limits, s, reply, batch) && !batch.failed && e.observesBoundaries && Turn(e, limits, s).next.Failed?
    ensures c.phase == ToolsComplete && Built(c) in Turn(e, limits, s).events
    ensures Resume(e, limits, c, n)
            == RunResult([], Broke(Turn(e, limits, s).next.output.(thinking := LastThinking(c.messages))))
  {
    hide ValidateContinuation, Turn, Ran, Closed, LastThinking;
    var carried, traces := ToolTurnShows(e, limits, s, reply, batch);
    RanUnopposed(e, limits, s, reply, batch);
    var calls := CallsOf(reply, s.operationTurn);
    var closed := Closed(s, reply, batch, carried, traces, Fail);
    c := ContinuationOf(limits, closed, ToolsComplete);
    FailedStepShown(e, limits, s, reply, batch, c, carried, traces);
    ClosedLast(s, reply, batch, carried, traces, Fail);
  }

  lemma ClosedLast(s: LoopState, reply: Reply, batch: Batch, carried: seq<Message>, traces: seq<Trace>, decision: Decision)
    ensures var closed := Closed(s, reply, batch, carried, traces, decision);
            |closed.steps| == |s.steps| + 1 && closed.steps != [] && Last(closed.steps).decision == decision
  {
    hide Add;
  }

  lemma FailedStepShown(e: Engine, limits: Limits, s: LoopState, reply: Reply, batch: Batch, c: Continuation,
                        carried: seq<Message>, traces: seq<Trace>)
    requires Ran(e, limits, s, reply, batch) && !batch.failed && e.observesBoundaries && Turn(e, limits, s).next.Failed?
    requires Carries(carried, batch.results) && Traced(CallsOf(reply, s.operationTurn), batch.results, traces)
    requires c == ContinuationOf(limits, Closed(s, reply, batch, carried, traces, Fail), ToolsComplete)
    ensures Built(c) in Turn(e, limits, s).events && ValidateContinuation(c)
    ensures Turn(e, limits, s).next == Failed(EndedWith(limits, Closed(s, reply, batch, carried, traces, Fail), Errored, |s.steps| + 1, ""))
  {
    hide ValidateContinuation, Turn, Ran, Closed;
    var carried', traces' := ToolTurnDecided(e, limits, s, reply, batch);
    SameCarried(carried, carried', batch.results);
    SameTraced(CallsOf(reply, s.operationTurn), batch.results, traces, traces');
    var carried2, traces2 := ToolTurnShows(e, limits, s, reply, batch);
    SameCarried(carried, carried2, batch.results);
    SameTraced(CallsOf(reply, s.operationTurn), batch.results, traces, traces2);
    assert Turn(e, limits, s).events[3] == Built(c);
    RanUnopposed(e, limits, s, reply, batch);
  }

  /** The results leave one list of messages, and one of traces. */
  lemma SameCarried(a: seq<Message>, b: seq<Message>, results: seq<ToolResult>)
    requires Carries(a, results) && Carries(b, results)
    ensures a == b
  {
  }

  lemma SameTraced(calls: seq<ToolCall>, results: seq<ToolResult>, a: seq<Trace>, b: seq<Trace>)
    requires Traced(calls, results, a) && Traced(calls, results, b)
    ensures a == b
  {
    forall i | 0 <= i < |a| ensures a[i] == b[i] {
    }
  }

  // ---- repairs, attempt by attempt ----

  /** The run of one repair attempt: it goes on from an invalid output, with its complaint as one
      more message and everything spent so far. */
  function Attempted(e: Engine, limits: Limits, before: LoopOutput, complaint: Message, attempt: nat, n: nat): End {
    RunMessages(e, limits.(repairCount := attempt),
                LoopState(before.messages + [complaint], before.usage, before.steps, before.toolCallsUsed, before.nextOperationTurn),
                n).end
  }

  /** The output is invalid, and there is budget left to repair it. */
  predicate Repairable(limits: Limits, check: seq<Message> -> Option<Message>, o: LoopOutput) {
    check(o.messages).Some? && !Exhausted(limits, o.usage.totalTokens, o.toolCallsUsed, |o.steps|)
  }

  /** Every output but the last was invalid and repairable, and its repair ended with the next one. */
  ghost predicate Repairs(e: Engine, limits: Limits, check: seq<Message> -> Option<Message>, from: nat, max: nat, n: nat,
                          outputs: seq<LoopOutput>)
  {
    && outputs != [] && (|outputs| > 1 ==> from + |outputs| - 2 <= max)
    && forall i :: 0 <= i < |outputs| - 1 ==> RepairedBy(e, limits, check, from + i, n, outputs[i], outputs[i + 1])
  }

  ghost predicate RepairedBy(e: Engine, limits: Limits, check: seq<Message> -> Option<Message>, attempt: nat, n: nat,
                             before: LoopOutput, after: LoopOutput)
  {
    Repairable(limits, check, before) && Attempted(e, limits, before, check(before.messages).value, attempt, n) == Ended(after)
  }

  /** Why no further repair ended well after this output, with `attempt` next. */
  ghost predicate RepairsEnd(e: Engine, limits: Limits, check: seq<Message> -> Option<Message>, attempt: nat, max: nat, n: nat,
                             last: LoopOutput, r: RepairEnd, output: LoopOutput)
  {
    match r
    case Valid => check(last.messages).None? && output == last
    case Exhausted =>
      && check(last.messages).Some? && attempt <= max && output == last
      && Exhausted(limits, last.usage.totalTokens, last.toolCallsUsed, |last.steps|)
    case GaveUp => check(last.messages).Some? && max < attempt && output == last
    case LoopFailed =>
      && Repairable(limits, check, last) && attempt <= max
      && Attempted(e, limits, last, check(last.messages).value, attempt, n) == Broke(output)
    case StillRunning =>
      && Repairable(limits, check, last) && attempt <= max
      && var end := Attempted(e, limits, last, check(last.messages).value, attempt, n); !end.Broke? && !end.Ended?
  }

  lemma {:induction false} RepairTold(e: Engine, limits: Limits, check: seq<Message> -> Option<Message>, output: LoopOutput,
                                      complaint: Message, attempt: nat, max: nat, n: nat) returns (outputs: seq<LoopOutput>)
    requires check(output.messages) == Some(complaint)
    ensures Repairs(e, limits, check, attempt, max, n, outputs) && outputs[0] == output
    ensures var r := Repair(e, limits, check, output, complaint, attempt, max, n);
            RepairsEnd(e, limits, check, attempt + |outputs| - 1, max, n, outputs[|outputs| - 1], r.end, r.output)
    decreases max + 1 - attempt
  {
    hide RunMessages;
    outputs := [output];
    if attempt <= max && !Exhausted(limits, output.usage.totalTokens, output.toolCallsUsed, |output.steps|) {
      var end := Attempted(e, limits, output, complaint, attempt, n);
      if end.Ended? {
        if check(end.output.messages).Some? {
          var rest := RepairTold(e, limits, check, end.output, check(end.output.messages).value, attempt + 1, max, n);
          outputs := [output] + rest;
          forall i | 0 <= i < |outputs| - 1
            ensures RepairedBy(e, limits, check, attempt + i, n, outputs[i], outputs[i + 1])
          {
            if i > 0 {
              assert RepairedBy(e, limits, check, attempt + 1 + (i - 1), n, rest[i - 1], rest[i - 1 + 1]);
            }
          }
        } else {
          outputs := [output, end.output];
        }
      }
    }
  }

  lemma TurnCounts(e: Engine, limits: Limits, s: LoopState)
    ensures var next := Turn(e, limits, s).next; next.Done? ==> next.output.repairCount == limits.repairCount
  {
    hide ValidateContinuation, Add, Guard, AppendFinal, FinalStep, DispatchBlocked, Named;
  }

  lemma {:induction false} RunCounts(e: Engine, limits: Limits, s: LoopState, n: nat)
    ensures var end := Run(e, limits, s, n).end; end.Ended? ==> end.output.repairCount == limits.repairCount
    decreases n
  {
    hide Turn;
    if n > 0 {
      TurnCounts(e, limits, s);
      if Turn(e, limits, s).next.Proceed? {
        RunCounts(e, limits, Turn(e, limits, s).next.state, n - 1);
      }
    }
  }

  lemma EntryCounts(e: Engine, limits: Limits, s: LoopState, n: nat)
    ensures var end := RunMessages(e, limits, s, n).end; end.Ended? ==> end.output.repairCount == limits.repairCount
  {
    hide Run, NextTurn;
    RunCounts(e, Normalize(limits), Enter(s.messages, s.usage, s.steps, s.toolCallsUsed, s.operationTurn), n);
  }

  /** A structured answer is repaired until it is valid, the budget is exhausted, a run breaks, or
      the attempts are used up, and for no other reason: what comes out valid has passed the check. */
  lemma ExecutionTold(e: Engine, limits: Limits, check: seq<Message> -> Option<Message>, max: nat, s: LoopState, n: nat)
    returns (outputs: seq<LoopOutput>)
    requires RunMessages(e, limits, s, n).end.Ended?
    ensures Repairs(e, limits, check, limits.repairCount + 1, max, n, outputs)
    ensures outputs[0] == RunMessages(e, limits, s, n).end.output
    ensures var r := Execute(e, limits, check, max, s, n);
            RepairsEnd(e, limits, check, limits.repairCount + |outputs|, max, n, outputs[|outputs| - 1], r.end, r.output)
  {
    hide RunMessages, Repair;
    EntryCounts(e, limits, s, n);
    var o := RunMessages(e, limits, s, n).end.output;
    outputs := [o];
    if check(o.messages).Some? && o.repairCount < max {
      outputs := RepairTold(e, limits, check, o, check(o.messages).value, limits.repairCount + 1, max, n);
    }
  }
}
