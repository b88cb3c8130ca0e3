/** The loop as the program runs it, step by step, against its specification. */
module LoopEngine {
  import opened Text
  import opened Messages
  import opened TokenUsage
  import opened LoopTypes
  import opened LoopContinuation
  import opened LoopSpec
  import opened LoopBudget

  // ---- reading a continuation ----

  /** Checks the calls of one assistant message and finds the greatest turn they name. */
  method CheckCalls(calls: seq<ToolCall>, least: int) returns (ok: bool, greatest: int)
    ensures ok == CallsOk(calls, 0)
    ensures ok ==> greatest == MaxTurn(calls, least)
  {
    var seen: set<string> := {};
    var k := 0;
    ok, greatest := true, least;
    while k < |calls|
      invariant 0 <= k <= |calls|
      invariant seen == set j | 0 <= j < k :: calls[j].id
      invariant CallsOk(calls, 0) == CallsOk(calls, k)
      invariant greatest == MaxTurn(calls[..k], least)
    {
      var call := calls[k];
      assert call.id in seen <==> exists j :: 0 <= j < k && calls[j].id == call.id;
      if call.id == "" || call.name == "" || call.id in seen {
        return false, greatest;
      }
      seen := seen + {call.id};
      assert calls[..k + 1][..k] == calls[..k];
      if !call.operation.NoOperation? {
        if !call.operation.Slot? || call.operation.turn < 0 || call.operation.call != k {
          return false, greatest;
        }
        greatest := Max(greatest, call.operation.turn);
      } else {
        LeastTurn(calls[..k], least);
      }
      k := k + 1;
    }
    assert calls[..k] == calls;
  }

  lemma {:induction false} LeastTurn(calls: seq<ToolCall>, least: int)
    ensures least <= MaxTurn(calls, least)
  {
    if calls != [] {
      LeastTurn(calls[..|calls| - 1], least);
    }
  }

  /** One pass over the transcript, following the open exchange. */
  method AnalyzeTranscript(messages: seq<Message>) returns (a: Analysis)
    ensures a.ok == Analyze(messages).ok
    ensures a.ok ==> a == Analyze(messages)
  {
    a := START;
    var index := 0;
    while index < |messages|
      invariant 0 <= index <= |messages|
      invariant a == Analyze(messages[..index]) && a.ok
      invariant a.answered < |a.pending| || (a.pending == [] && a.answered == 0)
    {
      var current := messages[index];
      assert messages[..index + 1][..index] == messages[..index];
      if a.pending != [] {
        if current.role != ToolRole || current.toolResult.None?
           || current.toolResult.value.callId != a.pending[a.answered].id {
          AnalyzeStuck(messages, index + 1);
          return a.(ok := false);
        }
        if a.answered + 1 == |a.pending| {
          a := a.(pending := [], answered := 0, endsWithToolResults := true);
        } else {
          a := a.(answered := a.answered + 1, endsWithToolResults := true);
        }
      } else {
        if current.role == ToolRole {
          AnalyzeStuck(messages, index + 1);
          return a.(ok := false);
        }
        a := a.(endsWithToolResults := false);
        if current.role == Assistant {
          a := a.(assistants := a.assistants + [index]);
          if current.toolCalls != [] {
            var ok, greatest := CheckCalls(current.toolCalls, a.maxOperationTurn);
            if !ok {
              AnalyzeStuck(messages, index + 1);
              return a.(ok := false);
            }
            a := a.(maxOperationTurn := greatest, pending := current.toolCalls, answered := 0);
          }
        }
      }
      index := index + 1;
    }
    assert messages[..index] == messages;
  }

  /** Once a prefix is rejected, so is the transcript. */
  lemma {:induction false} AnalyzeStuck(messages: seq<Message>, k: nat)
    requires k <= |messages| && !Analyze(messages[..k]).ok
    ensures !Analyze(messages).ok
    decreases |messages| - k
  {
    if k == |messages| {
      assert messages[..k] == messages;
    } else {
      assert messages[..k + 1][..k] == messages[..k];
      AnalyzeStuck(messages, k + 1);
    }
  }

  /** One pass over the steps, carrying the totals. */
  method ValidateSteps(c: Continuation, a: Analysis) returns (totals: Totals)
    requires |c.steps| <= |a.assistants|
    ensures totals.ok == TotalsAfter(c, a, |c.steps|).ok
    ensures totals.ok ==> totals == TotalsAfter(c, a, |c.steps|)
  {
    hide StepOk;
    totals := Totals(true, 0, ZERO);
    var first := c.nextOperationTurn - |c.steps|;
    var i := 0;
    while i < |c.steps|
      invariant 0 <= i <= |c.steps|
      invariant totals.ok && totals == TotalsAfter(c, a, i)
    {
      var isLast := i == |c.steps| - 1;
      var pendingStep := c.phase == ModelComplete && isLast;
      var calls := StepCalls(c, a, i);
      if !StepOk(c.steps[i], i, isLast, pendingStep, calls, first + i,
                 if i > 0 then Some(c.steps[i - 1].spent.tokens) else None, totals) {
        TotalsStuck(c, a, i + 1);
        return totals.(ok := false);
      }
      totals := StepTotals(c.steps[i], pendingStep, calls, totals);
      i := i + 1;
    }
  }

  lemma {:induction false} TotalsStuck(c: Continuation, a: Analysis, n: nat)
    requires n <= |c.steps| <= |a.assistants| && !TotalsAfter(c, a, n).ok
    ensures !TotalsAfter(c, a, |c.steps|).ok
    decreases |c.steps| - n
  {
    hide StepOk;
    if n < |c.steps| {
      TotalsStuck(c, a, n + 1);
    }
  }

  method Validate(c: Continuation) returns (ok: bool)
    ensures ok == ValidateContinuation(c)
  {
    hide Analyze, TotalsAfter;
    if c.toolCallsUsed < 0 || c.repairCount < 0 || c.nextOperationTurn < 0 || !ConsistentCounts(c.usage) {
      return false;
    }
    var a := AnalyzeTranscript(c.messages);
    if !a.ok || !PhaseFitsTranscript(c, a) || c.nextOperationTurn < |c.steps| || |a.assistants| < |c.steps| {
      return false;
    }
    var totals := ValidateSteps(c, a);
    if !totals.ok || c.toolCallsUsed != totals.completed {
      return false;
    }
    var expected := if c.steps == [] then 0 else c.steps[|c.steps| - 1].spent.tokens;
    if c.usage.totalTokens != expected || !UsageContains(c.usage, totals.usage)
       || a.maxOperationTurn >= c.nextOperationTurn {
      return false;
    }
    return PhaseFitsSteps(c, a);
  }

  /** Scans every call of every message for the turn it names. */
  method NextOperationTurn(messages: seq<Message>) returns (next: nat)
    ensures next == NextTurn(messages)
  {
    next := 0;
    var i := 0;
    while i < |messages|
      invariant 0 <= i <= |messages|
      invariant next == NextTurn(messages[..i])
    {
      var calls := messages[i].toolCalls;
      ghost var before := next;
      var j := 0;
      while j < |calls|
        invariant 0 <= j <= |calls|
        invariant next == if CallsNextTurn(calls[..j]) > before then CallsNextTurn(calls[..j]) else before
      {
        assert calls[..j + 1][..j] == calls[..j];
        var scanned := ScannedTurn(calls[j].operation);
        if scanned.Some? && scanned.value >= next {
          next := scanned.value + 1;
        }
        j := j + 1;
      }
      assert calls[..j] == calls;
      assert messages[..i + 1][..i] == messages[..i];
      i := i + 1;
    }
    assert messages[..i] == messages;
  }

  /** The thinking of the last assistant message, searched from the end. */
  method ContinuationThinking(messages: seq<Message>) returns (thinking: string)
    ensures thinking == LastThinking(messages)
  {
    var index := |messages|;
    assert messages[..index] == messages;
    while index > 0
      invariant 0 <= index <= |messages|
      invariant LastThinking(messages) == LastThinking(messages[..index])
    {
      if messages[index - 1].role == Assistant {
        return messages[index - 1].thinking;
      }
      assert messages[..index][..index - 1] == messages[..index - 1];
      index := index - 1;
    }
    return "";
  }

  /** Names each call after its turn and position. */
  method NameCalls(reply: Message, turn: int) returns (named: Message)
    ensures named == Named(reply, turn)
  {
    var calls := reply.toolCalls;
    var index := 0;
    while index < |calls|
      invariant 0 <= index <= |calls| == |reply.toolCalls|
      invariant forall i :: 0 <= i < index ==> calls[i] == reply.toolCalls[i].(operation := Slot(turn, i))
      invariant forall i :: index <= i < |calls| ==> calls[i] == reply.toolCalls[i]
    {
      calls := calls[index := calls[index].(operation := Slot(turn, index))];
      index := index + 1;
    }
    assert calls == Named(reply, turn).toolCalls;
    return reply.(toolCalls := calls);
  }

  method ToolCallTraces(calls: seq<ToolCall>, results: seq<ToolResult>) returns (traces: seq<Trace>)
    ensures traces == Traces(calls, results)
  {
    traces := [];
    var i := 0;
    while i < |calls|
      invariant 0 <= i <= |calls| && |traces| == i
      invariant forall k :: 0 <= k < i ==> traces[k] == TraceOf(calls[k], results, k)
    {
      var trace := Trace(calls[i].id, calls[i].name, calls[i].arguments, "", "");
      if i < |results| {
        trace := trace.(output := results[i].structured);
        if results[i].isError {
          trace := trace.(error := results[i].content);
        }
      }
      traces := traces + [trace];
      i := i + 1;
    }
  }

  // ---- the loop ----

  datatype Outcome = GoOn | Finished(output: LoopOutput) | Broken(output: LoopOutput) | Crashed

  /** The variables of one run, and what an outside reader has seen of it. */
  class AgentLoop {
    var messages: seq<Message>
    var usage: Usage
    var steps: seq<Step>
    var toolCallsUsed: int
    var operationTurn: int
    ghost var events: seq<Event>

    ghost function State(): LoopState
      reads this
    {
      LoopState(messages, usage, steps, toolCallsUsed, operationTurn)
    }

    constructor (s: LoopState)
      ensures State() == s && events == []
    {
      messages, usage, steps, toolCallsUsed, operationTurn := s.messages, s.usage, s.steps, s.toolCallsUsed, s.operationTurn;
      events := [];
    }

    /** The program is where the specification says it is after this turn. */
    ghost predicate At(next: Next, outcome: Outcome)
      reads this
    {
      match next
      case Proceed(s) => outcome == GoOn && State() == s
      case Done(o) => outcome == Finished(o)
      case Failed(o) => outcome == Broken(o)
    }

    method Output(limits: Limits, stop: StopReason, iterations: int, thinking: string) returns (o: LoopOutput)
      ensures o == OutputOf(limits, State(), stop, iterations, thinking)
    {
      return LoopOutput(messages, usage, stop, iterations, thinking, steps, toolCallsUsed, limits.repairCount, operationTurn);
    }

    method ObserveBoundary(e: Engine, limits: Limits, phase: Phase) returns (ok: bool)
      modifies this`events
      ensures ok == BoundaryAccepted(e, limits, State(), phase)
      ensures events == old(events) + BoundaryEvents(e, limits, State(), phase)
    {
      hide ValidateContinuation;
      if !e.observesBoundaries {
        return true;
      }
      var c := Continuation(messages, usage, steps, toolCallsUsed, limits.repairCount, operationTurn, phase);
      events := events + [Built(c)];
      var valid := Validate(c);
      return valid && e.observeBoundary(c);
    }

    method FailBudget(e: Engine, limits: Limits, iterations: int) returns (outcome: Outcome)
      requires steps != []
      modifies this`steps
      ensures At(BudgetStop(e, limits, FailLast(old(State())), iterations), outcome)
    {
      var last := |steps| - 1;
      steps := steps[last := steps[last].(decision := Fail)];
      var o := Output(limits, if e.observeStep(steps[last]) then Aborted else Errored, iterations, "");
      return Broken(o);
    }

    /** Records traces and decision, shows the step and the boundary, and decides whether to go on. */
    method FinalizeToolStep(e: Engine, limits: Limits, assistant: Message, results: seq<ToolResult>, terminal: bool,
                            iteration: int) returns (outcome: Outcome)
      requires steps != []
      modifies this`steps, this`events
      ensures var t := FinalizeTools(e, limits, old(State()), assistant, results, terminal, iteration);
              At(t.next, outcome) && events == old(events) + t.events
    {
      hide ValidateContinuation, BoundaryAccepted, BoundaryEvents;
      var last := |steps| - 1;
      var traces := ToolCallTraces(assistant.toolCalls, results);
      steps := steps[last := steps[last].(toolCalls := traces, spent := Spent(usage.totalTokens, toolCallsUsed),
                                          decision := if terminal then Finish else Continue)];
      var policyFailed := false;
      if !terminal {
        match e.decide(steps) {
          case NoOverride =>
          case DecideFinish => steps := steps[last := steps[last].(decision := Finish)];
          case DecideFail => steps, policyFailed := steps[last := steps[last].(decision := Fail)], true;
        }
      }
      ghost var step := FinalStep(e, old(State()), assistant.toolCalls, results, terminal);
      assert steps == SetLast(old(steps), step);
      var observed := e.observeStep(steps[last]);
      var accepted := true;
      if observed {
        accepted := ObserveBoundary(e, limits, ToolsComplete);
      }
      if policyFailed || !observed || !accepted {
        var o := Output(limits, Errored, iteration + 1, "");
        return Broken(o);
      }
      if steps[last].decision == Finish {
        var o := Output(limits, Complete, iteration + 1, assistant.thinking);
        return Finished(o);
      }
      return GoOn;
    }

    method AppendToolResults(results: seq<ToolResult>)
      modifies this`messages
      ensures messages == old(messages) + ResultMessages(results)
    {
      var i := 0;
      while i < |results|
        invariant 0 <= i <= |results|
        invariant messages == old(messages) + ResultMessages(results[..i])
      {
        assert ResultMessages(results[..i + 1]) == ResultMessages(results[..i]) + [ResultMessage(results[i])];
        messages := messages + [ResultMessage(results[i])];
        i := i + 1;
      }
      assert results[..i] == results;
    }

    /** Dispatches one reply's tool calls, within the budgets. */
    method RunToolStep(e: Engine, limits: Limits, reply: Message, call: ModelCall, iteration: int, turn: int)
      returns (outcome: Outcome)
      modifies this
      ensures var t := ToolStep(e, limits, old(State()), reply, call, iteration, turn);
              At(t.next, outcome) && events == old(events) + t.events
    {
      hide ValidateContinuation, BoundaryAccepted, BoundaryEvents, FinalizeTools, DispatchBlocked, Add, BudgetStop, Named, ResultMessages;
      var assistant := NameCalls(reply, turn);
      var calls := assistant.toolCalls;
      messages := messages + [assistant];
      steps := steps + [Step(iteration, Some(call), [], Continue, Spent(usage.totalTokens, toolCallsUsed))];
      ghost var s1 := OpenStep(old(State()), assistant, call, iteration);
      assert State() == s1;
      var accepted := ObserveBoundary(e, limits, ModelComplete);
      if !accepted {
        var o := Output(limits, Errored, iteration + 1, "");
        return Broken(o);
      }
      if limits.maxTokens > 0 && call.usage.totalTokens == 0 {
        outcome := FailBudget(e, limits, iteration + 1);
        return;
      }
      if DispatchBlocked(limits, LoopState(messages, usage, steps, toolCallsUsed, operationTurn), |calls|) {
        outcome := FailBudget(e, limits, iteration + 1);
        return;
      }
      var prepared := e.prepare(calls);
      if prepared.None? {
        var o := Output(limits, Errored, iteration + 1, "");
        return Broken(o);
      }
      toolCallsUsed := toolCallsUsed + |calls|;
      var batch := e.dispatch(calls, limits.maxTokens, usage);
      events := events + [Dispatched(calls, usage.totalTokens, batch.childUsage)];
      usage := Add(usage, batch.childUsage);
      steps := steps[|steps| - 1 := steps[|steps| - 1].(spent := Spent(usage.totalTokens, toolCallsUsed))];
      AppendToolResults(batch.results);
      assert State() == AfterDispatch(s1, calls, batch);
      if batch.failed {
        var o := Output(limits, Errored, iteration + 1, "");
        return Broken(o);
      }
      outcome := FinalizeToolStep(e, limits, assistant, batch.results, prepared.value, iteration);
    }

    /** Runs the guardrails in order over the candidate answer. */
    method ApplyOutputGuardrails(e: Engine, limits: Limits, context: seq<Message>, assistant: Message, iteration: int,
                                 stop: StopReason) returns (outcome: GuardOutcome)
      ensures outcome == Guard(e, limits, context, assistant, 0, iteration, usage, stop)
    {
      var candidate := assistant;
      var k := 0;
      while k < |e.guardrails|
        invariant 0 <= k <= |e.guardrails|
        invariant Guard(e, limits, context, assistant, 0, iteration, usage, stop)
                  == Guard(e, limits, context, candidate, k, iteration, usage, stop)
      {
        var result := e.guardrails[k](GuardrailInput(context, candidate, iteration, limits.maxIterations,
                                                     limits.unlimitedIterations, usage, stop));
        if result.None? || result.value.Block? {
          return Refused;
        }
        if result.value.Replace? {
          var m := result.value.replacement;
          if m.toolCalls != [] || m.toolResult.Some? {
            return Refused;
          }
          candidate := if m.role == Unset then m.(role := Assistant) else m;
        } else if result.value.RetryWith? {
          if result.value.retryMessages == [] || (!limits.unlimitedIterations && iteration >= limits.maxIterations) {
            return Refused;
          }
          return Retried(result.value);
        }
        k := k + 1;
      }
      return Accepted(candidate);
    }

    /** Checks an answer: accept, replace, retry or refuse. */
    method FinalizeNoToolStep(e: Engine, limits: Limits, assistant: Message, call: ModelCall, stop: StopReason, iteration: int)
      returns (outcome: Outcome)
      modifies this
      ensures var t := AnswerStep(e, limits, old(State()), assistant, call, stop, iteration);
              At(t.next, outcome) && events == old(events) + t.events
    {
      hide ValidateContinuation, BoundaryAccepted, BoundaryEvents, Guard, BudgetStop, AppendFinal, Judged;
      var base := messages;
      messages := AppendFinal(messages, assistant);
      steps := steps + [Step(iteration, Some(call), [], Finish, Spent(usage.totalTokens, toolCallsUsed))];
      var accepted := ObserveBoundary(e, limits, ValidatingOutput);
      if !accepted {
        var o := Output(limits, Errored, iteration + 1, "");
        return Broken(o);
      }
      if limits.maxTokens > 0 && call.usage.totalTokens == 0 {
        outcome := FailBudget(e, limits, iteration + 1);
        return;
      }
      var guarded := ApplyOutputGuardrails(e, limits, base, assistant, iteration + 1, stop);
      outcome := Conclude(e, limits, base, old(State()), assistant, guarded, stop, iteration);
    }

    /** The last step and the history follow the guardrails' outcome. */
    method Conclude(e: Engine, limits: Limits, base: seq<Message>, ghost s: LoopState, assistant: Message,
                    guarded: GuardOutcome, stop: StopReason, iteration: int) returns (outcome: Outcome)
      requires steps != [] && s.steps == steps[..|steps| - 1] && s.messages == base
      requires State() == s.(messages := AppendFinal(base, assistant), steps := steps)
      requires guarded.Retried? ==> guarded.retry.RetryWith?
      modifies this`messages, this`steps
      ensures At(Judged(e, limits, s, assistant, old(Last(steps)), stop, iteration, guarded), outcome)
    {
      hide AppendFinal, AppendRetry;
      var last := |steps| - 1;
      assert steps == s.steps + [steps[last]];
      match guarded {
        case Refused =>
          steps := steps[last := steps[last].(decision := Fail)];
          var o := Output(limits, Errored, iteration + 1, "");
          return Broken(o);
        case Retried(retry) =>
          steps := steps[last := steps[last].(decision := Continue)];
          messages := AppendRetry(base, assistant, retry);
          if !e.observeStep(steps[last]) {
            var o := Output(limits, Errored, iteration + 1, "");
            return Broken(o);
          }
          return GoOn;
        case Accepted(final) =>
          messages := AppendFinal(base, final);
          if !e.observeStep(steps[last]) {
            var o := Output(limits, Errored, iteration + 1, "");
            return Broken(o);
          }
          var o := Output(limits, stop, iteration + 1, final.thinking);
          return Finished(o);
      }
    }

    /** Keeps the trace of a turn whose provider call failed. */
    method HandleTurnFailure(limits: Limits, reply: Reply, iteration: int) returns (o: LoopOutput)
      requires iteration == |steps|
      modifies this`messages, this`usage, this`steps
      ensures var s := FailedTurn(old(State()), reply, iteration);
              o == OutputOf(limits, s, Errored, if s == old(State()) then iteration else iteration + 1, "")
    {
      hide Add;
      var turnsRun := iteration;
      if reply.text != "" || reply.thinking != "" || reply.redactedThinking != "" || reply.toolCalls != [] || reply.usage != ZERO {
        messages := messages + [AssistantOf(reply)];
        usage := Add(usage, reply.usage);
        turnsRun := iteration + 1;
      }
      if reply.streamed {
        turnsRun := iteration + 1;
        steps := steps + [Step(iteration, Some(ModelCall(reply.model, reply.usage, reply.stopReason)), [], Fail,
                               Spent(usage.totalTokens, toolCallsUsed))];
      }
      o := Output(limits, Errored, turnsRun, "");
      assert |messages| != |old(messages)| || |steps| != |old(steps)| || State() == old(State());
    }

    /** One pass of the loop body, or the return after it. */
    method RunTurn(e: Engine, limits: Limits) returns (outcome: Outcome)
      modifies this
      ensures var t := Turn(e, limits, old(State()));
              At(t.next, outcome) && events == old(events) + t.events
    {
      hide ValidateContinuation, BoundaryAccepted, BoundaryEvents, AnswerStep, ToolStep, Add, FailedTurn;
      var iteration := |steps|;
      if !IterationAllowed(limits, iteration) {
        var o := Output(limits, MaxTurns, limits.maxIterations, "");
        return Finished(o);
      }
      if iteration > 0 && BudgetExhausted(limits, usage, toolCallsUsed, iteration) {
        var o := Output(limits, Aborted, iteration, "");
        return Broken(o);
      }
      var accepted := ObserveBoundary(e, limits, Ready);
      if !accepted {
        var o := Output(limits, Errored, iteration, "");
        return Broken(o);
      }
      var reply := e.model(messages, operationTurn);
      if reply.failed {
        var o := HandleTurnFailure(limits, reply, iteration);
        return Broken(o);
      }
      var turn := operationTurn;
      operationTurn := operationTurn + 1;
      usage := Add(usage, reply.usage);
      var call := ModelCall(reply.model, reply.usage, reply.stopReason);
      if reply.toolCalls == [] {
        outcome := FinalizeNoToolStep(e, limits, AssistantOf(reply), call, reply.stopReason, iteration);
      } else {
        outcome := RunToolStep(e, limits, AssistantOf(reply), call, iteration, turn);
      }
    }

    /** The loop, for at most `n` turns; it answers `GoOn` when it has not ended by then. */
    method Loop(e: Engine, limits: Limits, n: nat) returns (outcome: Outcome)
      modifies this
      ensures var r := Run(e, limits, old(State()), n);
              events == old(events) + r.events && outcome == OutcomeOf(r.end)
    {
      hide Turn;
      var k := 0;
      assert events == old(events) + [];
      while k < n
        invariant 0 <= k <= n
        invariant var r, rest := Run(e, limits, old(State()), n), Run(e, limits, State(), n - k);
                  old(events) + r.events == events + rest.events && r.end == rest.end
      {
        ghost var before, seen := State(), events;
        outcome := RunTurn(e, limits);
        ghost var t := Turn(e, limits, before);
        RunUnfolds(e, limits, before, n - k);
        if outcome != GoOn {
          assert old(events) + Run(e, limits, old(State()), n).events == events;
          return;
        }
        assert seen + (t.events + Run(e, limits, State(), n - k - 1).events)
            == events + Run(e, limits, State(), n - k - 1).events;
        k := k + 1;
      }
      return GoOn;
    }

    /** The low-level entry: default limit, turn number past the history, then the loop. */
    method RunAll(e: Engine, limits: Limits, n: nat) returns (outcome: Outcome)
      modifies this
      ensures var r := RunMessages(e, limits, old(State()), n);
              events == old(events) + r.events && outcome == OutcomeOf(r.end)
    {
      hide Run, NextTurn;
      var next := NextOperationTurn(messages);
      operationTurn := Max(operationTurn, next);
      outcome := Loop(e, if limits.unlimitedIterations || limits.maxIterations > 0 then limits
                         else limits.(maxIterations := 12), n);
    }
  }

  function OutcomeOf(end: End): Outcome {
    match end
    case Ended(o) => Finished(o)
    case Broke(o) => Broken(o)
    case Unfinished => GoOn
    case Panicked => Crashed
  }

  // ---- resuming ----

  /** The output a continuation already amounts to. */
  method ContinuedOutput(c: Continuation) returns (o: LoopOutput)
    ensures o == ContinuationOutput(c)
  {
    hide LastThinking;
    var thinking := ContinuationThinking(c.messages);
    return LoopOutput(c.messages, c.usage, ContinuationStop(c), |c.steps|, thinking, c.steps, c.toolCallsUsed,
                      c.repairCount, c.nextOperationTurn);
  }

  /** What resuming at model_complete does: the tool step again, then the loop. */
  function AfterTools(e: Engine, limits: Limits, c: Continuation, n: nat): RunResult
    requires c.messages != [] && c.steps != [] && Last(c.steps).modelCall.Some?
    requires c.messages[|c.messages| - 1].toolCalls != []
  {
    var assistant := c.messages[|c.messages| - 1];
    Resumed(e, limits, ToolStep(e, limits, Popped(c), assistant, Last(c.steps).modelCall.value, Last(c.steps).index,
                                FirstTurn(assistant.toolCalls)), n)
  }

  /** What resuming at validating_output does: the answer judged again, then the loop. */
  function AfterAnswer(e: Engine, limits: Limits, c: Continuation, n: nat): RunResult
    requires c.messages != [] && c.steps != [] && Last(c.steps).modelCall.Some?
  {
    var call := Last(c.steps).modelCall.value;
    Resumed(e, limits, AnswerStep(e, limits, Popped(c), c.messages[|c.messages| - 1], call, call.stopReason,
                                  Last(c.steps).index), n)
  }

  method ResumeModelComplete(e: Engine, limits: Limits, c: Continuation, n: nat) returns (outcome: Outcome, ghost seen: seq<Event>)
    requires c.messages != [] && c.steps != [] && Last(c.steps).modelCall.Some?
    requires c.messages[|c.messages| - 1].toolCalls != []
    ensures outcome == OutcomeOf(AfterTools(e, limits, c, n).end)
    ensures seen == AfterTools(e, limits, c, n).events
  {
    hide ToolStep, RunMessages;
    var last := |c.steps| - 1;
    var assistant := c.messages[|c.messages| - 1];
    var loop := new AgentLoop(LoopState(c.messages[..|c.messages| - 1], c.usage, c.steps[..last], c.toolCallsUsed,
                                        c.nextOperationTurn));
    assert loop.State() == Popped(c);
    outcome := loop.RunToolStep(e, limits, assistant, c.steps[last].modelCall.value, c.steps[last].index,
                                FirstTurn(assistant.toolCalls));
    if outcome == GoOn {
      outcome := loop.RunAll(e, limits, n);
    }
    seen := loop.events;
  }

  method ResumeValidatingOutput(e: Engine, limits: Limits, c: Continuation, n: nat) returns (outcome: Outcome, ghost seen: seq<Event>)
    requires c.messages != [] && c.steps != [] && Last(c.steps).modelCall.Some?
    ensures outcome == OutcomeOf(AfterAnswer(e, limits, c, n).end)
    ensures seen == AfterAnswer(e, limits, c, n).events
  {
    hide AnswerStep, RunMessages;
    var last := |c.steps| - 1;
    var call := c.steps[last].modelCall.value;
    var loop := new AgentLoop(LoopState(c.messages[..|c.messages| - 1], c.usage, c.steps[..last], c.toolCallsUsed,
                                        c.nextOperationTurn));
    assert loop.State() == Popped(c);
    outcome := loop.FinalizeNoToolStep(e, limits, c.messages[|c.messages| - 1], call, call.stopReason, c.steps[last].index);
    if outcome == GoOn {
      outcome := loop.RunAll(e, limits, n);
    }
    seen := loop.events;
  }

  method ResumeLoop(e: Engine, configured: Limits, c: Continuation, n: nat) returns (outcome: Outcome, ghost seen: seq<Event>)
    ensures outcome == OutcomeOf(Resume(e, configured, c, n).end)
    ensures seen == Resume(e, configured, c, n).events
  {
    hide ValidateContinuation, ToolStep, AnswerStep, RunMessages, Resumed, ContinuationOutput;
    var valid := Validate(c);
    if !valid {
      var o := ContinuedOutput(c);
      return Broken(o), [];
    }
    ValidCount(c);
    var limits := configured.(repairCount := c.repairCount);
    if c.phase == Ready || (c.phase == ToolsComplete && c.steps != []
                            && (Last(c.steps).decision == Continue || Last(c.steps).decision == NoDecision)) {
      var loop := new AgentLoop(StateOf(c));
      outcome := loop.RunAll(e, limits, n);
      seen := loop.events;
      return;
    }
    if c.steps == [] || (c.phase != ToolsComplete && (c.messages == [] || Last(c.steps).modelCall.None?)) {
      return Crashed, [];
    }
    match c.phase {
      case ToolsComplete =>
        var o := ContinuedOutput(c);
        return if Last(c.steps).decision == Finish then Finished(o) else Broken(o), [];
      case ModelComplete =>
        if c.messages[|c.messages| - 1].toolCalls == [] {
          return Crashed, [];
        }
        outcome, seen := ResumeModelComplete(e, limits, c, n);
      case ValidatingOutput =>
        outcome, seen := ResumeValidatingOutput(e, limits, c, n);
    }
  }

  // ---- repairing ----

  /** Repairs an invalid answer, checking the budget before each attempt. */
  method RepairStructuredOutput(e: Engine, limits: Limits, check: seq<Message> -> Option<Message>, first: LoopOutput,
                                complaint: Message, from: nat, max: nat, n: nat)
    returns (output: LoopOutput, end: RepairEnd, ghost seen: seq<Event>)
    ensures output == Repair(e, limits, check, first, complaint, from, max, n).output
    ensures end == Repair(e, limits, check, first, complaint, from, max, n).end
    ensures seen == Repair(e, limits, check, first, complaint, from, max, n).events
  {
    hide RunMessages;
    output, seen := first, [];
    var instruction, attempt := complaint, from;
    while attempt <= max
      invariant var whole, rest := Repair(e, limits, check, first, complaint, from, max, n),
                                   Repair(e, limits, check, output, instruction, attempt, max, n);
                whole == Repaired(seen + rest.events, rest.output, rest.end)
      decreases max + 1 - attempt
    {
      if BudgetExhausted(limits, output.usage, output.toolCallsUsed, |output.steps|) {
        end := Exhausted;
        return;
      }
      var loop := new AgentLoop(RepairState(output, instruction));
      var outcome := loop.RunAll(e, limits.(repairCount := attempt), n);
      assert loop.events == RunMessages(e, limits.(repairCount := attempt), RepairState(output, instruction), n).events;
      seen := seen + loop.events;
      match outcome {
        case Broken(o) =>
          output, end := o, LoopFailed;
          return;
        case Finished(o) =>
          output := o;
          var complaint' := check(o.messages);
          if complaint'.None? {
            end := Valid;
            return;
          }
          instruction := complaint'.value;
        case _ =>
          end := StillRunning;
          return;
      }
      attempt := attempt + 1;
    }
    end := GaveUp;
  }
}
