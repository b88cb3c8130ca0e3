/** Which continuations can be resumed without guessing or repairing history. */
module LoopContinuation {
  import opened Text
  import opened Messages
  import opened TokenUsage
  import opened LoopTypes

  // ---- the transcript ----

  /** The analysis of a transcript so far; `pending` are the calls of the open exchange,
      the first `answered` of which have their results. */
  datatype Analysis = Analysis(
    ok: bool,
    pending: seq<ToolCall>,
    answered: nat,
    endsWithToolResults: bool,
    assistants: seq<nat>,
    maxOperationTurn: int)
  {
    predicate Open() { pending != [] }
  }

  const START := Analysis(true, [], 0, false, [], -1)

  /** The calls of one assistant message from `k` on: named, with distinct ids, in their own slots. */
  predicate CallsOk(calls: seq<ToolCall>, k: nat)
    requires k <= |calls|
    decreases |calls| - k
  {
    k == |calls| ||
    (&& calls[k].id != "" && calls[k].name != ""
     && (forall j :: 0 <= j < k ==> calls[j].id != calls[k].id)
     && (calls[k].operation.NoOperation?
         || (calls[k].operation.Slot? && calls[k].operation.turn >= 0 && calls[k].operation.call == k))
     && CallsOk(calls, k + 1))
  }

  function MaxTurn(calls: seq<ToolCall>, least: int): int {
    if calls == [] then least
    else
      var last := calls[|calls| - 1].operation;
      Max(MaxTurn(calls[..|calls| - 1], least), if last.Slot? then last.turn else least)
  }

  function AnalyzeNext(a: Analysis, index: nat, m: Message): Analysis {
    if !a.ok then a
    else if a.pending != [] then
      if m.role != ToolRole || m.toolResult.None? || a.answered >= |a.pending|
         || m.toolResult.value.callId != a.pending[a.answered].id then a.(ok := false)
      else if a.answered + 1 == |a.pending| then a.(pending := [], answered := 0, endsWithToolResults := true)
      else a.(answered := a.answered + 1, endsWithToolResults := true)
    else if m.role == ToolRole then a.(ok := false)
    else if m.role != Assistant then a.(endsWithToolResults := false)
    else if m.toolCalls == [] then a.(endsWithToolResults := false, assistants := a.assistants + [index])
    else if !CallsOk(m.toolCalls, 0) then a.(ok := false)
    else a.(endsWithToolResults := false, assistants := a.assistants + [index],
            maxOperationTurn := MaxTurn(m.toolCalls, a.maxOperationTurn),
            pending := m.toolCalls, answered := 0)
  }

  function Analyze(messages: seq<Message>): Analysis {
    if messages == [] then START
    else
      var n := |messages| - 1;
      AnalyzeNext(Analyze(messages[..n]), n, messages[n])
  }

  // ---- the steps ----

  /** A sum of two counts in the program's 64-bit integer. */
  function Wrap(sum: int): int {
    if sum > MAX_INT then sum - 2 * (MAX_INT + 1) else sum
  }

  predicate ConsistentCounts(u: Usage) {
    && 0 <= u.inputTokens && 0 <= u.cachedInputTokens && 0 <= u.cacheWriteInputTokens
    && 0 <= u.outputTokens && 0 <= u.reasoningTokens && 0 <= u.totalTokens
    && u.cachedInputTokens <= u.inputTokens && u.cacheWriteInputTokens <= u.inputTokens
    && u.reasoningTokens <= u.outputTokens && Wrap(u.inputTokens + u.outputTokens) <= u.totalTokens
  }

  predicate TracesMatch(traces: seq<Trace>, calls: seq<ToolCall>) {
    && |traces| == |calls|
    && forall i :: 0 <= i < |calls| ==>
         traces[i].id == calls[i].id && traces[i].name == calls[i].name && traces[i].arguments == calls[i].arguments
  }

  /** Running totals over the steps: calls completed and model tokens spent. */
  datatype Totals = Totals(ok: bool, completed: int, usage: Usage)

  predicate StepOk(step: Step, index: nat, isLast: bool, pendingStep: bool, calls: seq<ToolCall>, turn: int,
                   previousTokens: Option<int>, before: Totals)
  {
    && step.index == index
    && step.spent.tokens >= 0 && step.spent.toolCalls >= 0
    && step.modelCall.Some? && ConsistentCounts(step.modelCall.value.usage)
    && (isLast || step.decision == Continue)
    && (forall i :: 0 <= i < |calls| ==> calls[i].operation == Slot(turn, i))
    && (if pendingStep then step.toolCalls == [] && step.decision == Continue else TracesMatch(step.toolCalls, calls))
    && var completed := if pendingStep then before.completed else before.completed + |calls|;
    && step.spent.toolCalls == completed
    && var used := step.modelCall.value.usage;
    && var cumulative := Add(before.usage, used);
    && var least := if previousTokens.Some? then Max(cumulative.totalTokens, Wrap(previousTokens.value + used.totalTokens))
                    else cumulative.totalTokens;
    if pendingStep || calls == [] then step.spent.tokens == least else least <= step.spent.tokens
  }

  function StepTotals(step: Step, pendingStep: bool, calls: seq<ToolCall>, before: Totals): Totals {
    Totals(true,
           if pendingStep then before.completed else before.completed + |calls|,
           if step.modelCall.Some? then Add(before.usage, step.modelCall.value.usage) else before.usage)
  }

  /** The calls of the assistant message that belongs to step `i`. */
  function StepCalls(c: Continuation, a: Analysis, i: nat): seq<ToolCall>
    requires i < |c.steps| <= |a.assistants|
  {
    var at := a.assistants[|a.assistants| - |c.steps| + i];
    if at < |c.messages| then c.messages[at].toolCalls else []
  }

  /** The totals after the first `n` steps. */
  function TotalsAfter(c: Continuation, a: Analysis, n: nat): Totals
    requires n <= |c.steps| <= |a.assistants|
  {
    if n == 0 then Totals(true, 0, ZERO)
    else
      var before := TotalsAfter(c, a, n - 1);
      var i := n - 1;
      var isLast := i == |c.steps| - 1;
      var pendingStep := c.phase == ModelComplete && isLast;
      var calls := StepCalls(c, a, i);
      if before.ok && StepOk(c.steps[i], i, isLast, pendingStep, calls, c.nextOperationTurn - |c.steps| + i,
                             if i > 0 then Some(c.steps[i - 1].spent.tokens) else None, before)
      then StepTotals(c.steps[i], pendingStep, calls, before)
      else before.(ok := false)
  }

  // ---- the whole check ----

  predicate PhaseFitsTranscript(c: Continuation, a: Analysis) {
    match c.phase
    case Ready => !a.Open()
    case ModelComplete => a.Open()
    case ToolsComplete => !a.Open() && a.endsWithToolResults
    case ValidatingOutput =>
      && !a.Open() && c.messages != []
      && var last := c.messages[|c.messages| - 1];
      last.role == Assistant && last.toolCalls == []
  }

  predicate UsageContains(total: Usage, least: Usage) {
    && least.inputTokens <= total.inputTokens
    && least.cachedInputTokens <= total.cachedInputTokens
    && (least.cachedInputTokensReported ==> total.cachedInputTokensReported)
    && least.cacheWriteInputTokens <= total.cacheWriteInputTokens
    && (least.cacheWriteInputTokensReported ==> total.cacheWriteInputTokensReported)
    && least.outputTokens <= total.outputTokens
    && least.reasoningTokens <= total.reasoningTokens
    && least.totalTokens <= total.totalTokens
  }

  predicate PhaseFitsSteps(c: Continuation, a: Analysis) {
    match c.phase
    case Ready => c.steps != [] ==> c.steps[|c.steps| - 1].decision == Continue
    case ModelComplete => c.steps != [] && a.pending != []
    case ToolsComplete =>
      && c.steps != [] && c.steps[|c.steps| - 1].toolCalls != []
      && c.steps[|c.steps| - 1].decision != NoDecision
    case ValidatingOutput => c.steps != [] && c.steps[|c.steps| - 1].decision == Finish
  }

  predicate ValidateContinuation(c: Continuation) {
    && c.toolCallsUsed >= 0 && c.repairCount >= 0 && c.nextOperationTurn >= 0
    && ConsistentCounts(c.usage)
    && var a := Analyze(c.messages);
    && a.ok
    && PhaseFitsTranscript(c, a)
    && |c.steps| <= c.nextOperationTurn && |c.steps| <= |a.assistants|
    && var totals := TotalsAfter(c, a, |c.steps|);
    && totals.ok
    && c.toolCallsUsed == totals.completed
    && c.usage.totalTokens == (if c.steps == [] then 0 else c.steps[|c.steps| - 1].spent.tokens)
    && UsageContains(c.usage, totals.usage)
    && a.maxOperationTurn < c.nextOperationTurn
    && PhaseFitsSteps(c, a)
  }
}
