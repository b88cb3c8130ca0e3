/** What one turn of the loop does, what a run does, and what resuming does. */
module LoopSpec {
  import opened Text
  import opened Messages
  import opened TokenUsage
  import opened LoopTypes
  import opened LoopContinuation

  // ---- small pieces ----

  /** The iteration limit after its default is filled in. */
  function Normalize(limits: Limits): Limits {
    if limits.unlimitedIterations || limits.maxIterations > 0 then limits else limits.(maxIterations := 12)
  }

  predicate IterationAllowed(limits: Limits, iteration: int) {
    limits.unlimitedIterations || iteration < limits.maxIterations
  }

  predicate BudgetExhausted(limits: Limits, usage: Usage, toolCallsUsed: int, steps: int) {
    || (limits.maxTokens > 0 && limits.maxTokens - usage.totalTokens <= 0)
    || (limits.maxToolCalls > 0 && limits.maxToolCalls - toolCallsUsed <= 0)
    || (limits.maxSteps > 0 && limits.maxSteps - steps <= 0)
  }

  /** The step count is taken after this turn's step has been appended. */
  predicate DispatchBlocked(limits: Limits, s: LoopState, batch: int) {
    || BudgetExhausted(limits, s.usage, s.toolCallsUsed, |s.steps|)
    || (limits.maxToolCalls > 0 && s.toolCallsUsed + batch > limits.maxToolCalls)
  }

  function ScannedTurn(op: Operation): Option<int> {
    match op
    case NoOperation => None
    case Slot(turn, _) => Some(turn)
    case Foreign(_, scanned) => scanned
  }

  function CallsNextTurn(calls: seq<ToolCall>): nat {
    if calls == [] then 0
    else
      var scanned := ScannedTurn(calls[|calls| - 1].operation);
      var rest := CallsNextTurn(calls[..|calls| - 1]);
      if scanned.Some? && scanned.value >= rest then scanned.value + 1 else rest
  }

  /** The first turn number above every one already named in the messages. */
  function NextTurn(messages: seq<Message>): nat {
    if messages == [] then 0
    else
      var rest := NextTurn(messages[..|messages| - 1]);
      var last := CallsNextTurn(messages[|messages| - 1].toolCalls);
      if last > rest then last else rest
  }

  function AssistantOf(reply: Reply): Message {
    Message(Assistant, reply.text, reply.thinking, reply.toolCalls, None, false, reply.rest)
  }

  function Named(m: Message, turn: int): Message {
    m.(toolCalls := seq(|m.toolCalls|, i requires 0 <= i < |m.toolCalls| => m.toolCalls[i].(operation := Slot(turn, i))))
  }

  function ResultMessage(r: ToolResult): Message {
    Message(ToolRole, "", "", [], Some(r), false, r.name)
  }

  function ResultMessages(results: seq<ToolResult>): seq<Message> {
    seq(|results|, i requires 0 <= i < |results| => ResultMessage(results[i]))
  }

  function TraceOf(call: ToolCall, results: seq<ToolResult>, i: nat): Trace {
    if i < |results| then
      Trace(call.id, call.name, call.arguments, results[i].structured, if results[i].isError then results[i].content else "")
    else Trace(call.id, call.name, call.arguments, "", "")
  }

  function Traces(calls: seq<ToolCall>, results: seq<ToolResult>): seq<Trace> {
    seq(|calls|, i requires 0 <= i < |calls| => TraceOf(calls[i], results, i))
  }

  function ContinuationOf(limits: Limits, s: LoopState, phase: Phase): Continuation {
    Continuation(s.messages, s.usage, s.steps, s.toolCallsUsed, limits.repairCount, s.operationTurn, phase)
  }

  function OutputOf(limits: Limits, s: LoopState, stop: StopReason, iterations: int, thinking: string): LoopOutput {
    LoopOutput(s.messages, s.usage, stop, iterations, thinking, s.steps, s.toolCallsUsed,
               limits.repairCount, s.operationTurn)
  }

  function Error(limits: Limits, s: LoopState, iterations: int): Next {
    Failed(OutputOf(limits, s, Errored, iterations, ""))
  }

  function Abort(limits: Limits, s: LoopState, iterations: int): Next {
    Failed(OutputOf(limits, s, Aborted, iterations, ""))
  }

  /** A budget failure is shown to the step observer first. */
  function BudgetStop(e: Engine, limits: Limits, s: LoopState, iterations: int): Next
    requires s.steps != []
  {
    if e.observeStep(Last(s.steps)) then Abort(limits, s, iterations) else Error(limits, s, iterations)
  }

  function SetLast(steps: seq<Step>, step: Step): seq<Step>
    requires steps != []
  {
    steps[|steps| - 1 := step]
  }

  function Last(steps: seq<Step>): Step
    requires steps != []
  {
    steps[|steps| - 1]
  }

  function SpentNow(s: LoopState): Spent {
    Spent(s.usage.totalTokens, s.toolCallsUsed)
  }

  // ---- boundaries ----

  function BoundaryEvents(e: Engine, limits: Limits, s: LoopState, phase: Phase): seq<Event> {
    if e.observesBoundaries then [Built(ContinuationOf(limits, s, phase))] else []
  }

  predicate BoundaryAccepted(e: Engine, limits: Limits, s: LoopState, phase: Phase) {
    var c := ContinuationOf(limits, s, phase);
    e.observesBoundaries ==> ValidateContinuation(c) && e.observeBoundary(c)
  }

  // ---- a turn that calls tools ----

  /** The assistant message and its step are recorded before anything is dispatched. */
  function OpenStep(s: LoopState, assistant: Message, call: ModelCall, iteration: int): LoopState {
    s.(messages := s.messages + [assistant],
       steps := s.steps + [Step(iteration, Some(call), [], Continue, SpentNow(s))])
  }

  function FailLast(s: LoopState): LoopState
    requires s.steps != []
  {
    s.(steps := SetLast(s.steps, Last(s.steps).(decision := Fail)))
  }

  /** The batch has run: its calls are charged, child usage is added, results are appended. */
  function AfterDispatch(s: LoopState, calls: seq<ToolCall>, batch: Batch): (s': LoopState)
    requires s.steps != []
    ensures |s'.steps| == |s.steps|
  {
    var charged := s.(toolCallsUsed := s.toolCallsUsed + |calls|, usage := Add(s.usage, batch.childUsage),
                      messages := s.messages + ResultMessages(batch.results));
    charged.(steps := SetLast(s.steps, Last(s.steps).(spent := SpentNow(charged))))
  }

  /** The step with its traces, and the decision the tools or the decider made. */
  function FinalStep(e: Engine, s: LoopState, calls: seq<ToolCall>, results: seq<ToolResult>, terminal: bool): Step
    requires s.steps != []
  {
    var step := Last(s.steps).(toolCalls := Traces(calls, results), spent := SpentNow(s), decision := Continue);
    if terminal then step.(decision := Finish)
    else
      match e.decide(SetLast(s.steps, step))
      case NoOverride => step
      case DecideFinish => step.(decision := Finish)
      case DecideFail => step.(decision := Fail)
  }

  function FinalizeTools(e: Engine, limits: Limits, s: LoopState, assistant: Message, results: seq<ToolResult>,
                         terminal: bool, iteration: int): TurnResult
    requires s.steps != []
  {
    var step := FinalStep(e, s, assistant.toolCalls, results, terminal);
    var s' := s.(steps := SetLast(s.steps, step));
    if !e.observeStep(step) then TurnResult([], Error(limits, s', iteration + 1))
    else
      var events := BoundaryEvents(e, limits, s', ToolsComplete);
      if step.decision == Fail || !BoundaryAccepted(e, limits, s', ToolsComplete) then
        TurnResult(events, Error(limits, s', iteration + 1))
      else if step.decision == Finish then
        TurnResult(events, Done(OutputOf(limits, s', Complete, iteration + 1, assistant.thinking)))
      else TurnResult(events, Proceed(s'))
  }

  function ToolStep(e: Engine, limits: Limits, s: LoopState, reply: Message, call: ModelCall,
                    iteration: int, turn: int): TurnResult
  {
    var assistant := Named(reply, turn);
    var calls := assistant.toolCalls;
    var s1 := OpenStep(s, assistant, call, iteration);
    var events := BoundaryEvents(e, limits, s1, ModelComplete);
    if !BoundaryAccepted(e, limits, s1, ModelComplete) then TurnResult(events, Error(limits, s1, iteration + 1))
    else if limits.maxTokens > 0 && call.usage.totalTokens == 0 then
      TurnResult(events, BudgetStop(e, limits, FailLast(s1), iteration + 1))
    else if DispatchBlocked(limits, s1, |calls|) then
      TurnResult(events, BudgetStop(e, limits, FailLast(s1), iteration + 1))
    else if e.prepare(calls).None? then TurnResult(events, Error(limits, s1, iteration + 1))
    else
      var batch := e.dispatch(calls, limits.maxTokens, s1.usage);
      var s2 := AfterDispatch(s1, calls, batch);
      var dispatched := [Dispatched(calls, s1.usage.totalTokens, batch.childUsage)];
      if batch.failed then TurnResult(events + dispatched, Error(limits, s2, iteration + 1))
      else
        var final := FinalizeTools(e, limits, s2, assistant, batch.results, e.prepare(calls).value, iteration);
        TurnResult(events + dispatched + final.events, final.next)
  }

  // ---- a turn that answers ----

  function AppendFinal(messages: seq<Message>, output: Message): seq<Message> {
    if output.text != "" || output.thinking != "" then messages + [output] else messages
  }

  function AppendRetry(messages: seq<Message>, assistant: Message, retry: GuardrailResult): seq<Message>
    requires retry.RetryWith?
  {
    (if retry.includeRejected && (assistant.text != "" || assistant.thinking != "") then messages + [assistant] else messages)
    + retry.replacementContext + retry.retryMessages
  }

  datatype GuardOutcome = Accepted(output: Message) | Retried(retry: GuardrailResult) | Refused

  /** The guardrails from `k` on, in order, over the candidate output. */
  function Guard(e: Engine, limits: Limits, messages: seq<Message>, candidate: Message, k: nat, iteration: int,
                 usage: Usage, stop: StopReason): (g: GuardOutcome)
    requires k <= |e.guardrails|
    ensures g.Retried? ==> g.retry.RetryWith? && g.retry.retryMessages != []
    decreases |e.guardrails| - k
  {
    if k == |e.guardrails| then Accepted(candidate)
    else
      var result := e.guardrails[k](GuardrailInput(messages, candidate, iteration, limits.maxIterations,
                                                   limits.unlimitedIterations, usage, stop));
      if result.None? then Refused
      else
        match result.value
        case Allow => Guard(e, limits, messages, candidate, k + 1, iteration, usage, stop)
        case Replace(m) =>
          if m.toolCalls != [] || m.toolResult.Some? then Refused
          else
            var replacement := if m.role == Unset then m.(role := Assistant) else m;
            Guard(e, limits, messages, replacement, k + 1, iteration, usage, stop)
        case RetryWith(retryMessages, _, _) =>
          if retryMessages == [] then Refused
          else if !limits.unlimitedIterations && iteration >= limits.maxIterations then Refused
          else Retried(result.value)
        case Block => Refused
  }

  /** What the guardrails' outcome does to the answer of the turn that started in `s`. */
  function Judged(e: Engine, limits: Limits, s: LoopState, assistant: Message, step: Step, stop: StopReason,
                  iteration: int, guarded: GuardOutcome): Next
    requires guarded.Retried? ==> guarded.retry.RetryWith?
  {
    match guarded
    case Refused =>
      Error(limits, FailLast(s.(messages := AppendFinal(s.messages, assistant), steps := s.steps + [step])), iteration + 1)
    case Retried(retry) =>
      var again := step.(decision := Continue);
      var s' := s.(messages := AppendRetry(s.messages, assistant, retry), steps := s.steps + [again]);
      if !e.observeStep(again) then Error(limits, s', iteration + 1) else Proceed(s')
    case Accepted(output) =>
      var s' := s.(messages := AppendFinal(s.messages, output), steps := s.steps + [step]);
      if !e.observeStep(step) then Error(limits, s', iteration + 1)
      else Done(OutputOf(limits, s', stop, iteration + 1, output.thinking))
  }

  function AnswerStep(e: Engine, limits: Limits, s: LoopState, assistant: Message, call: ModelCall,
                      stop: StopReason, iteration: int): TurnResult
  {
    var step := Step(iteration, Some(call), [], Finish, SpentNow(s));
    var s1 := s.(messages := AppendFinal(s.messages, assistant), steps := s.steps + [step]);
    var events := BoundaryEvents(e, limits, s1, ValidatingOutput);
    if !BoundaryAccepted(e, limits, s1, ValidatingOutput) then TurnResult(events, Error(limits, s1, iteration + 1))
    else if limits.maxTokens > 0 && call.usage.totalTokens == 0 then
      TurnResult(events, BudgetStop(e, limits, FailLast(s1), iteration + 1))
    else
      TurnResult(events, Judged(e, limits, s, assistant, step, stop, iteration,
                                Guard(e, limits, s.messages, assistant, 0, iteration + 1, s.usage, stop)))
  }

  // ---- one turn, and a run ----

  /** The trace of a turn whose provider call failed. */
  function FailedTurn(s: LoopState, reply: Reply, iteration: int): LoopState {
    var blank := reply.text == "" && reply.thinking == "" && reply.redactedThinking == ""
                 && reply.toolCalls == [] && reply.usage == ZERO;
    var s1 := if blank then s
              else s.(messages := s.messages + [AssistantOf(reply)], usage := Add(s.usage, reply.usage));
    if !reply.streamed then s1
    else s1.(steps := s1.steps + [Step(iteration, Some(ModelCall(reply.model, reply.usage, reply.stopReason)), [],
                                       Fail, SpentNow(s1))])
  }

  function Turn(e: Engine, limits: Limits, s: LoopState): TurnResult {
    var iteration := |s.steps|;
    if !IterationAllowed(limits, iteration) then
      TurnResult([], Done(OutputOf(limits, s, MaxTurns, limits.maxIterations, "")))
    else if iteration > 0 && BudgetExhausted(limits, s.usage, s.toolCallsUsed, iteration) then
      TurnResult([], Abort(limits, s, iteration))
    else
      var events := BoundaryEvents(e, limits, s, Ready);
      if !BoundaryAccepted(e, limits, s, Ready) then TurnResult(events, Error(limits, s, iteration))
      else
        var reply := e.model(s.messages, s.operationTurn);
        if reply.failed then
          var s1 := FailedTurn(s, reply, iteration);
          TurnResult(events, Error(limits, s1, if s1 == s then iteration else iteration + 1))
        else
          var s1 := s.(operationTurn := s.operationTurn + 1, usage := Add(s.usage, reply.usage));
          var call := ModelCall(reply.model, reply.usage, reply.stopReason);
          var rest :=
            if reply.toolCalls == []
            then AnswerStep(e, limits, s1, AssistantOf(reply), call, reply.stopReason, iteration)
            else ToolStep(e, limits, s1, AssistantOf(reply), call, iteration, s.operationTurn);
          TurnResult(events + rest.events, rest.next)
  }

  /** `Panicked` is an index into an empty list. */
  datatype End = Ended(output: LoopOutput) | Broke(output: LoopOutput) | Unfinished | Panicked
  datatype RunResult = RunResult(events: seq<Event>, end: End)

  /** The loop, observed for at most `n` turns. */
  function Run(e: Engine, limits: Limits, s: LoopState, n: nat): RunResult
    decreases n
  {
    if n == 0 then RunResult([], Unfinished)
    else
      var t := Turn(e, limits, s);
      match t.next
      case Done(output) => RunResult(t.events, Ended(output))
      case Failed(output) => RunResult(t.events, Broke(output))
      case Proceed(s') =>
        var rest := Run(e, limits, s', n - 1);
        RunResult(t.events + rest.events, rest.end)
  }

  lemma RunUnfolds(e: Engine, limits: Limits, s: LoopState, n: nat)
    requires n > 0
    ensures var t, r := Turn(e, limits, s), Run(e, limits, s, n);
            && (t.next.Done? ==> r == RunResult(t.events, Ended(t.next.output)))
            && (t.next.Failed? ==> r == RunResult(t.events, Broke(t.next.output)))
            && (t.next.Proceed? ==>
                  var rest := Run(e, limits, t.next.state, n - 1); r == RunResult(t.events + rest.events, rest.end))
  {
    hide Turn;
  }

  /** Entering the loop: the turn number moves past every turn the history already names. */
  function Enter(messages: seq<Message>, usage: Usage, steps: seq<Step>, toolCallsUsed: int, operationTurn: int): LoopState {
    LoopState(messages, usage, steps, toolCallsUsed, Max(operationTurn, NextTurn(messages)))
  }

  /** The low-level entry point: fill in the default limit, then loop. */
  function RunMessages(e: Engine, limits: Limits, s: LoopState, n: nat): RunResult {
    Run(e, Normalize(limits), Enter(s.messages, s.usage, s.steps, s.toolCallsUsed, s.operationTurn), n)
  }

  // ---- resuming ----

  function LastThinking(messages: seq<Message>): string {
    if messages == [] then ""
    else if messages[|messages| - 1].role == Assistant then messages[|messages| - 1].thinking
    else LastThinking(messages[..|messages| - 1])
  }

  function ContinuationStop(c: Continuation): StopReason {
    if c.steps == [] then NoStop
    else if c.phase == ToolsComplete && Last(c.steps).decision == Finish then Complete
    else if c.phase == ToolsComplete && Last(c.steps).decision == Fail then Errored
    else if Last(c.steps).modelCall.None? then NoStop
    else Last(c.steps).modelCall.value.stopReason
  }

  function ContinuationOutput(c: Continuation): LoopOutput {
    LoopOutput(c.messages, c.usage, ContinuationStop(c), |c.steps|, LastThinking(c.messages), c.steps,
               c.toolCallsUsed, c.repairCount, c.nextOperationTurn)
  }

  function Popped(c: Continuation): LoopState
    requires c.messages != [] && c.steps != []
  {
    LoopState(c.messages[..|c.messages| - 1], c.usage, c.steps[..|c.steps| - 1], c.toolCallsUsed, c.nextOperationTurn)
  }

  function StateOf(c: Continuation): LoopState {
    LoopState(c.messages, c.usage, c.steps, c.toolCallsUsed, c.nextOperationTurn)
  }

  /** After the resumed half-turn the loop is entered again. */
  function Resumed(e: Engine, limits: Limits, t: TurnResult, n: nat): RunResult {
    match t.next
    case Done(output) => RunResult(t.events, Ended(output))
    case Failed(output) => RunResult(t.events, Broke(output))
    case Proceed(s) =>
      var rest := RunMessages(e, limits, s, n);
      RunResult(t.events + rest.events, rest.end)
  }

  /** The turn the first of these calls names. */
  function FirstTurn(calls: seq<ToolCall>): int
    requires calls != []
  {
    var scanned := ScannedTurn(calls[0].operation);
    if scanned.Some? then scanned.value else 0
  }

  lemma ValidCount(c: Continuation)
    ensures ValidateContinuation(c) ==> c.repairCount >= 0
  {
    hide Analyze, TotalsAfter, ConsistentCounts;
  }

  /** Resuming, with the limits as the engine was configured, the continuation's own count of
      repairs, and at most `n` further turns. */
  function Resume(e: Engine, configured: Limits, c: Continuation, n: nat): RunResult {
    if !ValidateContinuation(c) then RunResult([], Broke(ContinuationOutput(c)))
    else
      var limits := configured.(repairCount := c.repairCount);
      match c.phase
      case Ready => RunMessages(e, limits, StateOf(c), n)
      case ModelComplete =>
        if c.messages == [] || c.steps == [] || Last(c.steps).modelCall.None?
           || c.messages[|c.messages| - 1].toolCalls == [] then RunResult([], Panicked)
        else
          var assistant := c.messages[|c.messages| - 1];
          Resumed(e, limits,
                  ToolStep(e, limits, Popped(c), assistant, Last(c.steps).modelCall.value, Last(c.steps).index,
                           FirstTurn(assistant.toolCalls)), n)
      case ToolsComplete =>
        if c.steps == [] then RunResult([], Panicked)
        else if Last(c.steps).decision == Continue || Last(c.steps).decision == NoDecision then
          RunMessages(e, limits, StateOf(c), n)
        else if Last(c.steps).decision == Finish then
          RunResult([], Ended(ContinuationOutput(c)))
        else RunResult([], Broke(ContinuationOutput(c)))
      case ValidatingOutput =>
        if c.messages == [] || c.steps == [] || Last(c.steps).modelCall.None? then RunResult([], Panicked)
        else
          var call := Last(c.steps).modelCall.value;
          Resumed(e, limits,
                  AnswerStep(e, limits, Popped(c), c.messages[|c.messages| - 1], call, call.stopReason,
                             Last(c.steps).index), n)
  }
}
