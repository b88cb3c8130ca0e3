/** In histories where only assistants call tools, validation alone keeps the turn counter
    ahead of every operation, so resuming needs no assumption about what retries name. */
module LoopTranscripts {
  import opened Text
  import opened Messages
  import opened TokenUsage
  import opened LoopTypes
  import opened LoopContinuation
  import opened LoopSpec
  import opened LoopResume
  import opened LoopCrashes
  import opened LoopBoundary

  /** Only assistant messages carry tool calls. */
  ghost predicate OnlyAssistantsCall(messages: seq<Message>) {
    forall i :: 0 <= i < |messages| && messages[i].toolCalls != [] ==> messages[i].role == Assistant
  }

  /** The same for what guardrails feed back. */
  ghost predicate RetriesWellFormed(e: Engine) {
    forall k, input :: 0 <= k < |e.guardrails| ==>
      var r := e.guardrails[k](input);
      r.Some? && r.value.RetryWith? ==> OnlyAssistantsCall(r.value.replacementContext + r.value.retryMessages)
  }

  // ---- validated turn numbers ----

  lemma {:induction false} CallsOkFrom(calls: seq<ToolCall>, k: nat, i: nat)
    requires k <= i < |calls| && CallsOk(calls, k)
    ensures calls[i].operation.NoOperation? || (calls[i].operation.Slot? && calls[i].operation.turn >= 0)
    decreases i - k
  {
    if k < i {
      CallsOkFrom(calls, k + 1, i);
    }
  }

  lemma {:induction false} CallsTop(calls: seq<ToolCall>, least: int)
    requires least >= -1
    requires forall i :: 0 <= i < |calls| ==> calls[i].operation.NoOperation? || calls[i].operation.Slot?
    ensures CallsNextTurn(calls) <= MaxTurn(calls, least) + 1 && least <= MaxTurn(calls, least)
  {
    if calls != [] {
      CallsTop(calls[..|calls| - 1], least);
    }
  }

  /** An accepted transcript names no turn above the one its analysis reports. */
  lemma {:induction false} AnalyzedTop(messages: seq<Message>)
    requires Analyze(messages).ok && OnlyAssistantsCall(messages)
    ensures NextTurn(messages) <= Analyze(messages).maxOperationTurn + 1
    ensures Analyze(messages).maxOperationTurn >= -1
  {
    hide CallsOk, MaxTurn, CallsNextTurn;
    if messages != [] {
      var n := |messages| - 1;
      AnalyzedTop(messages[..n]);
      var calls, least := messages[n].toolCalls, Analyze(messages[..n]).maxOperationTurn;
      if calls == [] {
        NoCallsNextTurn();
      } else {
        forall i | 0 <= i < |calls| ensures calls[i].operation.NoOperation? || calls[i].operation.Slot? {
          CallsOkFrom(calls, 0, i);
        }
        CallsTop(calls, least);
      }
    }
  }

  /** So a validated continuation over such a history is ahead of every turn it names. */
  lemma ValidatedPasses(limits: Limits, s: LoopState, phase: Phase)
    requires ValidateContinuation(ContinuationOf(limits, s, phase)) && OnlyAssistantsCall(s.messages)
    ensures TurnsPassed(s)
  {
    hide Analyze, TotalsAfter, NextTurn;
    AnalyzedTop(s.messages);
  }

  /** A history in which a later turn is named by an assistant is rejected at every boundary. */
  lemma NamedAheadRejected(limits: Limits, s: LoopState, phase: Phase)
    requires OnlyAssistantsCall(s.messages) && !TurnsPassed(s)
    ensures !ValidateContinuation(ContinuationOf(limits, s, phase))
  {
    hide ValidateContinuation, NextTurn;
    if ValidateContinuation(ContinuationOf(limits, s, phase)) {
      ValidatedPasses(limits, s, phase);
    }
  }

  /** One that a user message names is not. */
  lemma NamedAheadAccepted(limits: Limits) returns (s: LoopState)
    ensures ReadyState(limits, s) && !TurnsPassed(s) && !OnlyAssistantsCall(s.messages)
  {
    var call := ToolCall("x", "x", "", Slot(5, 0));
    var m := Message(User, "", "", [call], None, false, "");
    s := LoopState([m], ZERO, [], 0, 0);
    assert [m][..0] == [] && [call][..0] == [];
    assert Analyze([m]) == START;
    assert CallsNextTurn([call]) == 6;
    FreshReady(limits, [m], 0);
  }

  // ---- runs ----

  lemma {:induction false} RetryWellFormed(e: Engine, limits: Limits, messages: seq<Message>, candidate: Message, k: nat,
                                           iteration: int, usage: Usage, stop: StopReason)
    requires k <= |e.guardrails| && RetriesWellFormed(e)
    ensures var g := Guard(e, limits, messages, candidate, k, iteration, usage, stop);
            g.Retried? ==>
              && OnlyAssistantsCall(g.retry.replacementContext + g.retry.retryMessages)
              && (limits.unlimitedIterations || iteration < limits.maxIterations)
    decreases |e.guardrails| - k
  {
    hide OnlyAssistantsCall;
    if k < |e.guardrails| {
      var result := e.guardrails[k](GuardrailInput(messages, candidate, iteration, limits.maxIterations,
                                                   limits.unlimitedIterations, usage, stop));
      if result.Some? && result.value.Allow? {
        RetryWellFormed(e, limits, messages, candidate, k + 1, iteration, usage, stop);
      } else if result.Some? && result.value.Replace? {
        var m := result.value.replacement;
        RetryWellFormed(e, limits, messages, if m.role == Unset then m.(role := Assistant) else m, k + 1,
                        iteration, usage, stop);
      }
    }
  }

  lemma WellFormedJoin(a: seq<Message>, b: seq<Message>)
    requires OnlyAssistantsCall(a) && OnlyAssistantsCall(b)
    ensures OnlyAssistantsCall(a + b)
  {
  }

  lemma WellFormedRetry(messages: seq<Message>, assistant: Message, retry: GuardrailResult)
    requires retry.RetryWith? && OnlyAssistantsCall(messages) && assistant.role == Assistant
    requires OnlyAssistantsCall(retry.replacementContext + retry.retryMessages)
    ensures OnlyAssistantsCall(AppendRetry(messages, assistant, retry))
  {
    hide OnlyAssistantsCall;
    var added := retry.replacementContext + retry.retryMessages;
    OneWellFormed(assistant);
    WellFormedJoin(messages, [assistant]);
    WellFormedJoin(messages + [assistant], added);
    WellFormedJoin(messages, added);
    assert messages + retry.replacementContext + retry.retryMessages == messages + added;
    assert messages + [assistant] + retry.replacementContext + retry.retryMessages == messages + [assistant] + added;
  }

  lemma OneWellFormed(m: Message)
    requires m.role == Assistant
    ensures OnlyAssistantsCall([m])
  {
  }

  lemma ExchangeWellFormed(messages: seq<Message>, reply: Message, results: seq<ToolResult>, turn: int)
    requires OnlyAssistantsCall(messages) && reply.role == Assistant
    ensures OnlyAssistantsCall(messages + [Named(reply, turn)] + ResultMessages(results))
  {
  }

  /** A turn that goes on leaves such a history, and either the turn counter is ahead of it
      or another turn is allowed. */
  lemma TurnWellFormed(e: Engine, limits: Limits, s: LoopState)
    requires RetriesWellFormed(e) && TurnsPassed(s) && OnlyAssistantsCall(s.messages) && Turn(e, limits, s).next.Proceed?
    ensures var s' := Turn(e, limits, s).next.state;
            OnlyAssistantsCall(s'.messages) && (TurnsPassed(s') || IterationAllowed(limits, |s'.steps|))
  {
    hide AnswerStep, ToolStep, ValidateContinuation, NextTurn, Add, OnlyAssistantsCall, RetriesWellFormed, Guard;
    var reply := e.model(s.messages, s.operationTurn);
    var s1 := s.(operationTurn := s.operationTurn + 1, usage := Add(s.usage, reply.usage));
    var call := ModelCall(reply.model, reply.usage, reply.stopReason);
    if reply.toolCalls == [] {
      AnswerStepHistory(e, limits, s1, AssistantOf(reply), call, reply.stopReason, |s.steps|);
      AnswerStepCounts(e, limits, s1, AssistantOf(reply), call, reply.stopReason, |s.steps|);
      RetryWellFormed(e, limits, s.messages, AssistantOf(reply), 0, |s.steps| + 1, s1.usage, reply.stopReason);
      var g := Guard(e, limits, s.messages, AssistantOf(reply), 0, |s.steps| + 1, s1.usage, reply.stopReason);
      WellFormedRetry(s.messages, AssistantOf(reply), g.retry);
    } else {
      ToolStepHistory(e, limits, s1, AssistantOf(reply), call, |s.steps|, s.operationTurn);
      ToolStepPasses(e, limits, s1, AssistantOf(reply), call, |s.steps|, s.operationTurn);
      var s' := Turn(e, limits, s).next.state;
      var results :| s'.messages == s.messages + [Named(AssistantOf(reply), s.operationTurn)] + ResultMessages(results);
      ExchangeWellFormed(s.messages, AssistantOf(reply), results, s.operationTurn);
    }
  }

  lemma AnswerStepCounts(e: Engine, limits: Limits, s: LoopState, assistant: Message, call: ModelCall,
                         stop: StopReason, iteration: int)
    ensures var next := AnswerStep(e, limits, s, assistant, call, stop, iteration).next;
            next.Proceed? ==> |next.state.steps| == |s.steps| + 1
  {
    hide ValidateContinuation, Guard;
  }

  /** A turn that does not fail has passed its ready boundary. */
  lemma TurnValidated(e: Engine, limits: Limits, s: LoopState)
    requires e.observesBoundaries && IterationAllowed(limits, |s.steps|) && !Turn(e, limits, s).next.Failed?
    ensures ValidateContinuation(ContinuationOf(limits, s, Ready))
  {
    hide AnswerStep, ToolStep, FailedTurn, ValidateContinuation;
  }

  /** Under an observer a run that ends well passes every turn it names. */
  lemma {:induction false} WellFormedPasses(e: Engine, limits: Limits, s: LoopState, n: nat)
    requires e.observesBoundaries && RetriesWellFormed(e) && OnlyAssistantsCall(s.messages)
    requires TurnsPassed(s) || IterationAllowed(limits, |s.steps|)
    requires Run(e, limits, s, n).end.Ended?
    ensures Passing(e, limits, s, n)
    decreases n
  {
    hide Turn, ValidateContinuation, OnlyAssistantsCall, RetriesWellFormed, TurnsPassed;
    assert n > 0 && !Turn(e, limits, s).next.Failed?;
    if IterationAllowed(limits, |s.steps|) {
      TurnValidated(e, limits, s);
      ValidatedPasses(limits, s, Ready);
    }
    if Turn(e, limits, s).next.Proceed? {
      TurnWellFormed(e, limits, s);
      WellFormedPasses(e, limits, Turn(e, limits, s).next.state, n - 1);
    }
  }

  /** A run that builds a continuation was allowed its first turn. */
  lemma BuildsAllowed(e: Engine, limits: Limits, s: LoopState, n: nat, c: Continuation)
    requires Built(c) in Run(e, limits, s, n).events
    ensures IterationAllowed(limits, |s.steps|)
  {
    hide AnswerStep, ToolStep, FailedTurn, ValidateContinuation, BoundaryEvents;
  }

  /** Resume equivalence for every history and retry in which only assistants call tools. */
  lemma WellFormedResumes(e: Engine, limits: Limits, s: LoopState, n: nat, out: LoopOutput, c: Continuation) returns (m: nat)
    requires ExplicitLimit(limits) && e.observesBoundaries && Speaks(e, limits, s, n, c)
    requires RetriesWellFormed(e) && OnlyAssistantsCall(s.messages)
    requires Run(e, limits, s, n).end == Ended(out) && Built(c) in Run(e, limits, s, n).events
    ensures Resume(e, limits, c, m).end == Ended(out)
  {
    hide Run, Resume, Passing, Speaks, RetriesWellFormed, OnlyAssistantsCall;
    BuildsAllowed(e, limits, s, n, c);
    WellFormedPasses(e, limits, s, n);
    m := PassingResumes(e, limits, s, n, out, c);
  }

  /** And any number of crashes. */
  lemma WellFormedCrashes(e: Engine, limits: Limits, s: LoopState, n: nat, out: LoopOutput,
                          c: Continuation, later: seq<Continuation>) returns (m: nat)
    requires ExplicitLimit(limits) && e.observesBoundaries && AllSpeak(e, limits, s, n, c, later)
    requires RetriesWellFormed(e) && OnlyAssistantsCall(s.messages)
    requires Run(e, limits, s, n).end == Ended(out) && Built(c) in Run(e, limits, s, n).events
    requires CrashHistory(e, limits, c, later)
    ensures Resume(e, limits, if later == [] then c else later[|later| - 1], m).end == Ended(out)
  {
    hide Run, Resume, Passing, AllSpeak, RetriesWellFormed, OnlyAssistantsCall, CrashHistory;
    BuildsAllowed(e, limits, s, n, c);
    WellFormedPasses(e, limits, s, n);
    m := PassingCrashes(e, limits, s, n, out, c, later);
  }
}
