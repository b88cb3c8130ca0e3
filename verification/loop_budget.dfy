/** Budgets hold over a run and all its repairs. */
module LoopBudget {
  import opened Text
  import opened Messages
  import opened TokenUsage
  import opened LoopTypes
  import opened LoopContinuation
  import opened LoopSpec

  // ---- what stays within the limits ----

  /** A finite limit, or none when it is zero. */
  predicate Bounded(limit: int, count: int) {
    limit > 0 ==> count <= limit
  }

  predicate Within(limits: Limits, steps: int, toolCallsUsed: int) {
    && Bounded(limits.maxToolCalls, toolCallsUsed)
    && Bounded(limits.maxSteps, steps)
    && (limits.unlimitedIterations || steps <= limits.maxIterations)
  }

  /** The tool calls dispatched in these events. */
  function Calls(events: seq<Event>): nat {
    if events == [] then 0
    else
      var last := events[|events| - 1];
      Calls(events[..|events| - 1]) + (if last.Dispatched? then |last.calls| else 0)
  }

  /** No batch was dispatched once the tokens were spent. */
  ghost predicate Affordable(limits: Limits, events: seq<Event>) {
    forall calls, spent, child :: Dispatched(calls, spent, child) in events && limits.maxTokens > 0 ==> spent < limits.maxTokens
  }

  /** What these events did, starting from `before` tool calls, to reach `after`. */
  ghost predicate Conserves(limits: Limits, events: seq<Event>, before: int, after: int) {
    Affordable(limits, events) && before + Calls(events) == after
  }

  lemma {:induction false} CallsJoin(a: seq<Event>, b: seq<Event>)
    ensures Calls(a + b) == Calls(a) + Calls(b)
    decreases |b|
  {
    if b == [] {
      assert a + b == a;
    } else {
      CallsJoin(a, b[..|b| - 1]);
      assert (a + b)[..|a + b| - 1] == a + b[..|b| - 1];
    }
  }

  lemma CallsNone(e: Engine, limits: Limits, s: LoopState, phase: Phase)
    ensures Calls(BoundaryEvents(e, limits, s, phase)) == 0 && Affordable(limits, BoundaryEvents(e, limits, s, phase))
  {
    hide ValidateContinuation;
    if e.observesBoundaries {
      assert [Built(ContinuationOf(limits, s, phase))][..0] == [];
    }
  }

  lemma CallsOne(limits: Limits, calls: seq<ToolCall>, spent: int, child: Usage)
    requires limits.maxTokens > 0 ==> spent < limits.maxTokens
    ensures Calls([Dispatched(calls, spent, child)]) == |calls| && Affordable(limits, [Dispatched(calls, spent, child)])
  {
    assert [Dispatched(calls, spent, child)][..0] == [];
  }

  // ---- one turn ----

  function StepsOf(next: Next): int {
    match next
    case Proceed(s) => |s.steps|
    case Done(o) => |o.steps|
    case Failed(o) => |o.steps|
  }

  function UsedOf(next: Next): int {
    match next
    case Proceed(s) => s.toolCallsUsed
    case Done(o) => o.toolCallsUsed
    case Failed(o) => o.toolCallsUsed
  }

  lemma FinalizeCounts(e: Engine, limits: Limits, s: LoopState, assistant: Message, results: seq<ToolResult>,
                       terminal: bool, iteration: int)
    requires s.steps != []
    ensures var t := FinalizeTools(e, limits, s, assistant, results, terminal, iteration);
            && StepsOf(t.next) == |s.steps| && UsedOf(t.next) == s.toolCallsUsed
            && Calls(t.events) == 0 && Affordable(limits, t.events)
  {
    hide ValidateContinuation, FinalStep, Traces;
    var step := FinalStep(e, s, assistant.toolCalls, results, terminal);
    CallsNone(e, limits, s.(steps := SetLast(s.steps, step)), ToolsComplete);
  }

  /** A batch is dispatched only within the budgets, and what it dispatches is counted. */
  lemma ToolStepWithin(e: Engine, limits: Limits, s: LoopState, reply: Message, call: ModelCall, iteration: int, turn: int)
    requires Bounded(limits.maxToolCalls, s.toolCallsUsed)
    ensures var t := ToolStep(e, limits, s, reply, call, iteration, turn);
            && StepsOf(t.next) == |s.steps| + 1
            && Bounded(limits.maxToolCalls, UsedOf(t.next))
            && Conserves(limits, t.events, s.toolCallsUsed, UsedOf(t.next))
  {
    hide ValidateContinuation, FinalizeTools, BoundaryEvents, BoundaryAccepted, Traces, Add, ResultMessages, Calls;
    var assistant := Named(reply, turn);
    var calls := assistant.toolCalls;
    var s1 := OpenStep(s, assistant, call, iteration);
    var events := BoundaryEvents(e, limits, s1, ModelComplete);
    CallsNone(e, limits, s1, ModelComplete);
    if !DispatchBlocked(limits, s1, |calls|) && e.prepare(calls).Some? {
      var batch := e.dispatch(calls, limits.maxTokens, s1.usage);
      var s2 := AfterDispatch(s1, calls, batch);
      var dispatched := [Dispatched(calls, s1.usage.totalTokens, batch.childUsage)];
      var final := FinalizeTools(e, limits, s2, assistant, batch.results, e.prepare(calls).value, iteration);
      CallsOne(limits, calls, s1.usage.totalTokens, batch.childUsage);
      CallsJoin(events, dispatched);
      FinalizeCounts(e, limits, s2, assistant, batch.results, e.prepare(calls).value, iteration);
      CallsJoin(events + dispatched, final.events);
    }
  }

  lemma AnswerStepWithin(e: Engine, limits: Limits, s: LoopState, assistant: Message, call: ModelCall,
                         stop: StopReason, iteration: int)
    ensures var t := AnswerStep(e, limits, s, assistant, call, stop, iteration);
            && StepsOf(t.next) == |s.steps| + 1 && UsedOf(t.next) == s.toolCallsUsed
            && Conserves(limits, t.events, s.toolCallsUsed, UsedOf(t.next))
  {
    hide ValidateContinuation, Guard, AppendFinal, AppendRetry, BoundaryEvents, BoundaryAccepted, Calls;
    var step := Step(iteration, Some(call), [], Finish, SpentNow(s));
    CallsNone(e, limits, s.(messages := AppendFinal(s.messages, assistant), steps := s.steps + [step]), ValidatingOutput);
  }

  lemma TurnWithin(e: Engine, limits: Limits, s: LoopState)
    requires Within(limits, |s.steps|, s.toolCallsUsed)
    ensures var t := Turn(e, limits, s);
            Within(limits, StepsOf(t.next), UsedOf(t.next)) && Conserves(limits, t.events, s.toolCallsUsed, UsedOf(t.next))
  {
    hide ValidateContinuation, AnswerStep, ToolStep, BoundaryEvents, BoundaryAccepted, Add;
    CallsNone(e, limits, s, Ready);
    var reply := e.model(s.messages, s.operationTurn);
    var s1 := s.(operationTurn := s.operationTurn + 1, usage := Add(s.usage, reply.usage));
    var call := ModelCall(reply.model, reply.usage, reply.stopReason);
    var events := BoundaryEvents(e, limits, s, Ready);
    assert Calls([]) == 0;
    if !reply.failed {
      if reply.toolCalls == [] {
        AnswerStepWithin(e, limits, s1, AssistantOf(reply), call, reply.stopReason, |s.steps|);
        CallsJoin(events, AnswerStep(e, limits, s1, AssistantOf(reply), call, reply.stopReason, |s.steps|).events);
      } else {
        ToolStepWithin(e, limits, s1, AssistantOf(reply), call, |s.steps|, s.operationTurn);
        CallsJoin(events, ToolStep(e, limits, s1, AssistantOf(reply), call, |s.steps|, s.operationTurn).events);
      }
    }
  }

  // ---- a run ----

  /** A run keeps every limit, and its tool-call count is what it dispatched. */
  ghost predicate KeepsBudget(limits: Limits, before: int, r: RunResult) {
    && Affordable(limits, r.events) && Bounded(limits.maxToolCalls, before + Calls(r.events))
    && (r.end.Ended? || r.end.Broke? ==>
          && Within(limits, |r.end.output.steps|, r.end.output.toolCallsUsed)
          && before + Calls(r.events) == r.end.output.toolCallsUsed)
  }

  lemma {:induction false} RunWithin(e: Engine, limits: Limits, s: LoopState, n: nat)
    requires Within(limits, |s.steps|, s.toolCallsUsed)
    ensures KeepsBudget(limits, s.toolCallsUsed, Run(e, limits, s, n))
    decreases n
  {
    hide Turn;
    assert Calls([]) == 0;
    if n > 0 {
      TurnWithin(e, limits, s);
      var t := Turn(e, limits, s);
      if t.next.Proceed? {
        RunWithin(e, limits, t.next.state, n - 1);
        CallsJoin(t.events, Run(e, limits, t.next.state, n - 1).events);
      }
    }
  }

  // ---- repairs of a structured answer ----

  datatype RepairEnd = Valid | Exhausted | GaveUp | LoopFailed | StillRunning

  datatype Repaired = Repaired(events: seq<Event>, output: LoopOutput, end: RepairEnd)

  /** The run that repair attempt `attempt` starts with. */
  function RepairState(output: LoopOutput, instruction: Message): LoopState {
    LoopState(output.messages + [instruction], output.usage, output.steps, output.toolCallsUsed, output.nextOperationTurn)
  }

  /** Repair attempts from `attempt` to `max`; `check` gives the instruction for an invalid
      answer, and each attempt is observed for at most `n` turns. */
  function Repair(e: Engine, limits: Limits, check: seq<Message> -> Option<Message>, output: LoopOutput,
                  instruction: Message, attempt: nat, max: nat, n: nat): Repaired
    decreases max + 1 - attempt
  {
    if attempt > max then Repaired([], output, GaveUp)
    else if BudgetExhausted(limits, output.usage, output.toolCallsUsed, |output.steps|) then Repaired([], output, Exhausted)
    else
      var run := RunMessages(e, limits.(repairCount := attempt), RepairState(output, instruction), n);
      match run.end
      case Broke(o) => Repaired(run.events, o, LoopFailed)
      case Ended(o) =>
        if check(o.messages).None? then Repaired(run.events, o, Valid)
        else
          var rest := Repair(e, limits, check, o, check(o.messages).value, attempt + 1, max, n);
          Repaired(run.events + rest.events, rest.output, rest.end)
      case _ => Repaired(run.events, output, StillRunning)
  }

  /** A whole execution: the run, and if its answer is invalid the repairs. */
  function Execute(e: Engine, limits: Limits, check: seq<Message> -> Option<Message>, max: nat, s: LoopState, n: nat): Repaired {
    var run := RunMessages(e, limits, s, n);
    match run.end
    case Broke(o) => Repaired(run.events, o, LoopFailed)
    case Ended(o) =>
      if check(o.messages).None? then Repaired(run.events, o, Valid)
      else if o.repairCount >= max then Repaired(run.events, o, GaveUp)
      else
        var rest := Repair(e, limits, check, o, check(o.messages).value, limits.repairCount + 1, max, n);
        Repaired(run.events + rest.events, rest.output, rest.end)
    case _ => Repaired(run.events, OutputOf(limits, s, NoStop, 0, ""), StillRunning)
  }

  /** An execution keeps every limit, and its tool-call count is what it dispatched. */
  ghost predicate RepairKeepsBudget(limits: Limits, before: int, r: Repaired) {
    && Affordable(limits, r.events) && Bounded(limits.maxToolCalls, before + Calls(r.events))
    && (!r.end.StillRunning? ==>
          && Within(limits, |r.output.steps|, r.output.toolCallsUsed)
          && before + Calls(r.events) == r.output.toolCallsUsed)
  }

  lemma {:induction false} RepairWithin(e: Engine, limits: Limits, check: seq<Message> -> Option<Message>, output: LoopOutput,
                                        instruction: Message, attempt: nat, max: nat, n: nat)
    requires Within(Normalize(limits), |output.steps|, output.toolCallsUsed)
    ensures RepairKeepsBudget(Normalize(limits), output.toolCallsUsed,
                              Repair(e, limits, check, output, instruction, attempt, max, n))
    decreases max + 1 - attempt
  {
    hide Run, NextTurn, Add;
    var l := Normalize(limits);
    assert Calls([]) == 0;
    if attempt <= max && !BudgetExhausted(limits, output.usage, output.toolCallsUsed, |output.steps|) {
      var s := RepairState(output, instruction);
      var entered := Enter(s.messages, s.usage, s.steps, s.toolCallsUsed, s.operationTurn);
      RunWithin(e, Normalize(limits.(repairCount := attempt)), entered, n);
      var run := RunMessages(e, limits.(repairCount := attempt), s, n);
      if run.end.Ended? && check(run.end.output.messages).Some? {
        var next := check(run.end.output.messages).value;
        RepairWithin(e, limits, check, run.end.output, next, attempt + 1, max, n);
        CallsJoin(run.events, Repair(e, limits, check, run.end.output, next, attempt + 1, max, n).events);
      }
    }
  }

  /** Budget safety over a run and all its repairs. */
  lemma ExecutionWithin(e: Engine, limits: Limits, check: seq<Message> -> Option<Message>, max: nat, s: LoopState, n: nat)
    requires Within(Normalize(limits), |s.steps|, s.toolCallsUsed)
    ensures RepairKeepsBudget(Normalize(limits), s.toolCallsUsed, Execute(e, limits, check, max, s, n))
  {
    hide Run, Repair, NextTurn;
    var entered := Enter(s.messages, s.usage, s.steps, s.toolCallsUsed, s.operationTurn);
    RunWithin(e, Normalize(limits), entered, n);
    var run := RunMessages(e, limits, s, n);
    if run.end.Ended? && check(run.end.output.messages).Some? {
      var o, next := run.end.output, check(run.end.output.messages).value;
      RepairWithin(e, limits, check, o, next, limits.repairCount + 1, max, n);
      CallsJoin(run.events, Repair(e, limits, check, o, next, limits.repairCount + 1, max, n).events);
    }
  }

  // ---- repairs under a boundary observer ----

  lemma ToolsFinish(e: Engine, limits: Limits, s: LoopState, reply: Message, call: ModelCall, iteration: int, turn: int)
    requires ToolStep(e, limits, s, reply, call, iteration, turn).next.Done?
    ensures var o := ToolStep(e, limits, s, reply, call, iteration, turn).next.output;
            o.steps != [] && Last(o.steps).decision == Finish
  {
    hide ValidateContinuation, DispatchBlocked, FinalStep, Traces;
  }

  lemma AnswerFinishes(e: Engine, limits: Limits, s: LoopState, assistant: Message, call: ModelCall, stop: StopReason, iteration: int)
    requires AnswerStep(e, limits, s, assistant, call, stop, iteration).next.Done?
    ensures var o := AnswerStep(e, limits, s, assistant, call, stop, iteration).next.output;
            o.steps != [] && Last(o.steps).decision == Finish
  {
    hide ValidateContinuation, Guard, AppendFinal;
  }

  /** A run that ends well ends on a finish decision, or at its iteration limit. */
  lemma TurnFinishes(e: Engine, limits: Limits, s: LoopState)
    requires Turn(e, limits, s).next.Done?
    ensures var o := Turn(e, limits, s).next.output;
            !IterationAllowed(limits, |o.steps|) || (o.steps != [] && Last(o.steps).decision == Finish)
  {
    hide ValidateContinuation, ToolStep, AnswerStep, Add;
    var reply := e.model(s.messages, s.operationTurn);
    var s1 := s.(operationTurn := s.operationTurn + 1, usage := Add(s.usage, reply.usage));
    var call := ModelCall(reply.model, reply.usage, reply.stopReason);
    if IterationAllowed(limits, |s.steps|) {
      if reply.toolCalls == [] {
        AnswerFinishes(e, limits, s1, AssistantOf(reply), call, reply.stopReason, |s.steps|);
      } else {
        ToolsFinish(e, limits, s1, AssistantOf(reply), call, |s.steps|, s.operationTurn);
      }
    }
  }

  lemma {:induction false} RunFinishes(e: Engine, limits: Limits, s: LoopState, n: nat)
    requires Run(e, limits, s, n).end.Ended?
    ensures var o := Run(e, limits, s, n).end.output;
            !IterationAllowed(limits, |o.steps|) || (o.steps != [] && Last(o.steps).decision == Finish)
    decreases n
  {
    hide Turn;
    if Turn(e, limits, s).next.Done? {
      TurnFinishes(e, limits, s);
    } else {
      RunFinishes(e, limits, Turn(e, limits, s).next.state, n - 1);
    }
  }

  /** With a boundary observer installed no repair reaches the provider: the transcript it
      starts from follows a finish decision, which no ready continuation may, so the attempt
      fails at its first boundary; or the iteration limit is reached and nothing happens. All
      that is seen of it is that boundary, and whatever provider is put in, it ends the same. */
  lemma ObservedRepairStops(e: Engine, limits: Limits, s: LoopState, n: nat, instruction: Message, attempt: nat, m: nat,
                            provider: (seq<Message>, int) -> Reply)
    requires e.observesBoundaries && Run(e, Normalize(limits), s, n).end.Ended? && m > 0
    ensures var o := Run(e, Normalize(limits), s, n).end.output;
            var l := limits.(repairCount := attempt);
            var r := RunMessages(e, l, RepairState(o, instruction), m);
            && r == RunMessages(e.(model := provider), l, RepairState(o, instruction), m)
            && r.events == (if IterationAllowed(Normalize(limits), |o.steps|)
                               && (o.steps == [] || !BudgetExhausted(limits, o.usage, o.toolCallsUsed, |o.steps|))
                            then [Built(ContinuationOf(l, Entered(RepairState(o, instruction)), Ready))] else [])
            && Calls(r.events) == 0
            && (r.end.Ended? || r.end.Broke?)
            && r.end.output.messages == o.messages + [instruction]
            && r.end.output.usage == o.usage && r.end.output.steps == o.steps
            && (r.end.Ended? <==> !IterationAllowed(Normalize(limits), |o.steps|))
  {
    hide Run, NextTurn, Analyze, TotalsAfter;
    var l := Normalize(limits.(repairCount := attempt));
    var o := Run(e, Normalize(limits), s, n).end.output;
    RunFinishes(e, Normalize(limits), s, n);
    var entered := Entered(RepairState(o, instruction));
    RunUnfolds(e, l, entered, m);
    RunUnfolds(e.(model := provider), l, entered, m);
    CallsNone(e, l, entered, Ready);
    assert Calls([]) == 0;
    if IterationAllowed(l, |o.steps|) {
      assert !ValidateContinuation(ContinuationOf(l, entered, Ready));
    }
  }

  /** The state a run begins in. */
  function Entered(s: LoopState): LoopState {
    Enter(s.messages, s.usage, s.steps, s.toolCallsUsed, s.operationTurn)
  }
}
