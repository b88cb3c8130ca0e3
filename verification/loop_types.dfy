/** The values the agent loop works on, and the extension points it drives, each a
    fixed function of what it is shown. */
module LoopTypes {
  import opened Text
  import opened Messages
  import opened TokenUsage

  datatype StopReason = Complete | ToolUse | Length | OtherStop(text: string) | MaxTurns | Aborted | Errored | NoStop
  datatype Decision = Continue | Finish | Fail | NoDecision

  datatype ModelCall = ModelCall(model: string, usage: Usage, stopReason: StopReason)
  datatype Trace = Trace(id: string, name: string, arguments: string, output: string, error: string)
  datatype Spent = Spent(tokens: int, toolCalls: int)
  datatype Step = Step(index: int, modelCall: Option<ModelCall>, toolCalls: seq<Trace>, decision: Decision, spent: Spent)

  datatype Phase = Ready | ModelComplete | ToolsComplete | ValidatingOutput

  /** The resumable state handed out at a boundary. Request and policy are carried along unread. */
  datatype Continuation = Continuation(
    messages: seq<Message>,
    usage: Usage,
    steps: seq<Step>,
    toolCallsUsed: int,
    repairCount: int,
    nextOperationTurn: int,
    phase: Phase)

  datatype LoopOutput = LoopOutput(
    messages: seq<Message>,
    usage: Usage,
    stopReason: StopReason,
    iterations: int,
    thinking: string,
    steps: seq<Step>,
    toolCallsUsed: int,
    repairCount: int,
    nextOperationTurn: int)

  /** The limits of one run. Zero leaves a budget unbounded. */
  datatype Limits = Limits(
    maxIterations: int,
    unlimitedIterations: bool,
    maxTokens: int,
    maxToolCalls: int,
    maxSteps: int,
    repairCount: nat)

  /** The loop's own variables between two turns. */
  datatype LoopState = LoopState(
    messages: seq<Message>,
    usage: Usage,
    steps: seq<Step>,
    toolCallsUsed: int,
    operationTurn: int)

  /** One provider turn; `rest` also carries the redacted reasoning. `streamed` says whether a stream was opened before a failure. */
  datatype Reply = Reply(
    text: string, thinking: string, redactedThinking: string, rest: string, toolCalls: seq<ToolCall>,
    usage: Usage, stopReason: StopReason, model: string, streamed: bool, failed: bool)

  /** One dispatched batch: its results in call order, what child agents spent, and whether it failed. */
  datatype Batch = Batch(results: seq<ToolResult>, childUsage: Usage, failed: bool)

  datatype Verdict = NoOverride | DecideFinish | DecideFail

  datatype GuardrailInput = GuardrailInput(
    messages: seq<Message>, output: Message, iteration: int, maxIterations: int, unlimitedIterations: bool,
    usage: Usage, stopReason: StopReason)

  datatype GuardrailResult =
    | Allow
    | Replace(replacement: Message)
    | RetryWith(retryMessages: seq<Message>, includeRejected: bool, replacementContext: seq<Message>)
    | Block

  datatype Engine = Engine(
    model: (seq<Message>, int) -> Reply,
    prepare: seq<ToolCall> -> Option<bool>,
    dispatch: (seq<ToolCall>, int, Usage) -> Batch,
    decide: seq<Step> -> Verdict,
    guardrails: seq<GuardrailInput -> Option<GuardrailResult>>,
    observeStep: Step -> bool,
    observesBoundaries: bool,
    observeBoundary: Continuation -> bool)

  /** What happened during a turn that an outside reader can see. */
  datatype Event =
    | Built(continuation: Continuation)
    | Dispatched(calls: seq<ToolCall>, tokensSpent: int, childUsage: Usage)

  datatype Next = Proceed(state: LoopState) | Done(output: LoopOutput) | Failed(output: LoopOutput)
  datatype TurnResult = TurnResult(events: seq<Event>, next: Next)
}
