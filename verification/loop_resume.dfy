/** Resuming from any continuation that a run handed out ends as the run ended. */
module LoopResume {
  import opened Text
  import opened Messages
  import opened TokenUsage
  import opened LoopTypes
  import opened LoopContinuation
  import opened LoopSpec

  // ---- the hypotheses ----

  /** The iteration limit is explicit or switched off, so filling in the default changes nothing. */
  predicate ExplicitLimit(limits: Limits) {
    limits.unlimitedIterations || limits.maxIterations > 0
  }

  /** A provider answer without tool calls says something. */
  ghost predicate AnswersSpeak(e: Engine) {
    forall h, t :: var r := e.model(h, t);
      !r.failed && r.toolCalls == [] ==> r.text != "" || r.thinking != ""
  }

  /** Messages that a guardrail feeds back name no operation. */
  ghost predicate RetriesNameNothing(e: Engine) {
    forall k, input :: 0 <= k < |e.guardrails| ==>
      var r := e.guardrails[k](input);
      r.Some? && r.value.RetryWith? ==> NextTurn(r.value.replacementContext + r.value.retryMessages) == 0
  }

  /** A reply that calls tools, or whose answer is appended to the history. */
  predicate Says(reply: Reply) {
    reply.toolCalls != [] || reply.text != "" || reply.thinking != ""
  }

  /** The turn of this run whose answer the continuation holds for checking said something.
      Nothing is asked of continuations of the other three phases. */
  ghost predicate Speaks(e: Engine, limits: Limits, s: LoopState, n: nat, c: Continuation)
    decreases n
  {
    c.phase == ValidatingOutput && n > 0 ==>
      && (Built(c) in Turn(e, limits, s).events ==> Says(e.model(s.messages, s.operationTurn)))
      && (Turn(e, limits, s).next.Proceed? ==> Speaks(e, limits, Turn(e, limits, s).next.state, n - 1, c))
  }

  /** Every turn named in the history has passed. */
  predicate TurnsPassed(s: LoopState) {
    NextTurn(s.messages) <= s.operationTurn
  }

  /** An engine that never answers silently always does. */
  lemma {:induction false} AlwaysSpeaks(e: Engine, limits: Limits, s: LoopState, n: nat, c: Continuation)
    requires AnswersSpeak(e)
    ensures Speaks(e, limits, s, n, c)
    decreases n
  {
    hide Turn;
    if n > 0 {
      if c.phase == ValidatingOutput && Built(c) in Turn(e, limits, s).events {
        BuiltReplies(e, limits, s, c);
      }
      if Turn(e, limits, s).next.Proceed? {
        AlwaysSpeaks(e, limits, Turn(e, limits, s).next.state, n - 1, c);
      }
    }
  }

  lemma BuiltReplies(e: Engine, limits: Limits, s: LoopState, c: Continuation)
    requires Built(c) in Turn(e, limits, s).events && c.phase != Ready
    ensures !e.model(s.messages, s.operationTurn).failed
  {
    hide AnswerStep, ToolStep, FailedTurn, ValidateContinuation;
  }

  // ---- turn numbers ----

  lemma {:induction false} NextTurnJoin(a: seq<Message>, b: seq<Message>)
    ensures NextTurn(a + b) == if NextTurn(a) >= NextTurn(b) then NextTurn(a) else NextTurn(b)
    decreases |b|
  {
    if b == [] {
      assert a + b == a;
    } else {
      var n := |b| - 1;
      NextTurnJoin(a, b[..n]);
      assert (a + b)[..|a + b| - 1] == a + b[..n];
    }
  }

  lemma {:induction false} NamedNextTurn(calls: seq<ToolCall>, turn: int)
    requires turn >= 0
    requires forall i :: 0 <= i < |calls| ==> calls[i].operation == Slot(turn, i)
    ensures CallsNextTurn(calls) == if calls == [] then 0 else turn + 1
  {
    if calls != [] {
      NamedNextTurn(calls[..|calls| - 1], turn);
    }
  }

  lemma NoCallsNextTurn()
    ensures CallsNextTurn([]) == 0
  {
  }

  lemma OneMessageNextTurn(m: Message)
    ensures NextTurn([m]) == CallsNextTurn(m.toolCalls)
  {
    assert [m][..0] == [];
  }

  lemma {:induction false} ResultsNextTurn(results: seq<ToolResult>)
    ensures NextTurn(ResultMessages(results)) == 0
  {
    if results != [] {
      var n := |results| - 1;
      ResultsNextTurn(results[..n]);
      assert ResultMessages(results)[..n] == ResultMessages(results[..n]);
    }
  }

  lemma {:induction false} RetryNamesNothing(e: Engine, limits: Limits, messages: seq<Message>, candidate: Message, k: nat,
                                             iteration: int, usage: Usage, stop: StopReason)
    requires k <= |e.guardrails| && RetriesNameNothing(e)
    ensures var g := Guard(e, limits, messages, candidate, k, iteration, usage, stop);
            g.Retried? ==> NextTurn(g.retry.replacementContext + g.retry.retryMessages) == 0
    decreases |e.guardrails| - k
  {
    if k < |e.guardrails| {
      var result := e.guardrails[k](GuardrailInput(messages, candidate, iteration, limits.maxIterations,
                                                   limits.unlimitedIterations, usage, stop));
      if result.Some? && result.value.Allow? {
        RetryNamesNothing(e, limits, messages, candidate, k + 1, iteration, usage, stop);
      } else if result.Some? && result.value.Replace? {
        var m := result.value.replacement;
        RetryNamesNothing(e, limits, messages, if m.role == Unset then m.(role := Assistant) else m, k + 1,
                          iteration, usage, stop);
      }
    }
  }

  /** The history a tool step leaves behind when the loop goes on. */
  lemma ToolStepHistory(e: Engine, limits: Limits, s: LoopState, reply: Message, call: ModelCall, iteration: int, turn: int)
    ensures var next := ToolStep(e, limits, s, reply, call, iteration, turn).next;
            next.Proceed? ==>
              && next.state.operationTurn == s.operationTurn
              && exists results :: next.state.messages == s.messages + [Named(reply, turn)] + ResultMessages(results)
  {
    hide ValidateContinuation, DispatchBlocked, FinalStep;
    var calls := Named(reply, turn).toolCalls;
    var results := e.dispatch(calls, limits.maxTokens, s.usage).results;
    var next := ToolStep(e, limits, s, reply, call, iteration, turn).next;
    if next.Proceed? {
      assert next.state.messages == s.messages + [Named(reply, turn)] + ResultMessages(results);
    }
  }

  lemma ToolHistoryPasses(messages: seq<Message>, reply: Message, results: seq<ToolResult>, turn: int)
    requires turn >= 0
    ensures var after := NextTurn(messages + [Named(reply, turn)] + ResultMessages(results));
            after == NextTurn(messages) || after == turn + 1
  {
    var assistant := Named(reply, turn);
    NextTurnJoin(messages, [assistant]);
    OneMessageNextTurn(assistant);
    NamedNextTurn(assistant.toolCalls, turn);
    NextTurnJoin(messages + [assistant], ResultMessages(results));
    ResultsNextTurn(results);
  }

  lemma ToolStepPasses(e: Engine, limits: Limits, s: LoopState, reply: Message, call: ModelCall, iteration: int, turn: int)
    requires TurnsPassed(s) && 0 <= turn < s.operationTurn
    ensures var next := ToolStep(e, limits, s, reply, call, iteration, turn).next;
            next.Proceed? ==> TurnsPassed(next.state)
  {
    hide ToolStep, NextTurn;
    ToolStepHistory(e, limits, s, reply, call, iteration, turn);
    var next := ToolStep(e, limits, s, reply, call, iteration, turn).next;
    if next.Proceed? {
      var results :| next.state.messages == s.messages + [Named(reply, turn)] + ResultMessages(results);
      ToolHistoryPasses(s.messages, reply, results, turn);
    }
  }

  /** The history a rejected answer leaves behind when the loop goes on. */
  lemma AnswerStepHistory(e: Engine, limits: Limits, s: LoopState, assistant: Message, call: ModelCall,
                          stop: StopReason, iteration: int)
    ensures var next := AnswerStep(e, limits, s, assistant, call, stop, iteration).next;
            next.Proceed? ==>
              && var g := Guard(e, limits, s.messages, assistant, 0, iteration + 1, s.usage, stop);
              && g.Retried? && next.state.operationTurn == s.operationTurn
              && next.state.messages == AppendRetry(s.messages, assistant, g.retry)
  {
    hide ValidateContinuation;
  }

  lemma RetryHistoryPasses(messages: seq<Message>, assistant: Message, retry: GuardrailResult)
    requires retry.RetryWith? && assistant.toolCalls == []
    requires NextTurn(retry.replacementContext + retry.retryMessages) == 0
    ensures NextTurn(AppendRetry(messages, assistant, retry)) == NextTurn(messages)
  {
    var added := retry.replacementContext + retry.retryMessages;
    var kept := if retry.includeRejected && (assistant.text != "" || assistant.thinking != "")
                then messages + [assistant] else messages;
    NextTurnJoin(messages, [assistant]);
    OneMessageNextTurn(assistant);
    NextTurnJoin(kept, added);
    assert AppendRetry(messages, assistant, retry) == kept + added;
  }

  lemma AnswerStepPasses(e: Engine, limits: Limits, s: LoopState, assistant: Message, call: ModelCall,
                         stop: StopReason, iteration: int)
    requires TurnsPassed(s) && assistant.toolCalls == [] && RetriesNameNothing(e)
    ensures var next := AnswerStep(e, limits, s, assistant, call, stop, iteration).next;
            next.Proceed? ==> TurnsPassed(next.state)
  {
    hide AnswerStep, NextTurn;
    AnswerStepHistory(e, limits, s, assistant, call, stop, iteration);
    RetryNamesNothing(e, limits, s.messages, assistant, 0, iteration + 1, s.usage, stop);
    var g := Guard(e, limits, s.messages, assistant, 0, iteration + 1, s.usage, stop);
    if g.Retried? {
      RetryHistoryPasses(s.messages, assistant, g.retry);
    }
  }

  lemma TurnPasses(e: Engine, limits: Limits, s: LoopState)
    requires TurnsPassed(s) && RetriesNameNothing(e)
    ensures var next := Turn(e, limits, s).next;
            next.Proceed? ==> TurnsPassed(next.state)
  {
    hide AnswerStep, ToolStep, NextTurn;
    var reply := e.model(s.messages, s.operationTurn);
    if !reply.failed {
      var s1 := s.(operationTurn := s.operationTurn + 1, usage := Add(s.usage, reply.usage));
      var call := ModelCall(reply.model, reply.usage, reply.stopReason);
      if reply.toolCalls == [] {
        AnswerStepPasses(e, limits, s1, AssistantOf(reply), call, reply.stopReason, |s.steps|);
      } else {
        ToolStepPasses(e, limits, s1, AssistantOf(reply), call, |s.steps|, s.operationTurn);
      }
    }
  }

  // ---- one half-turn, interrupted ----

  /** The half-turn `t`, continued by at most `n` turns of the loop, ends with `out`. */
  ghost predicate Ends(e: Engine, limits: Limits, t: TurnResult, n: nat, out: LoopOutput) {
    match t.next
    case Done(output) => output == out
    case Failed(_) => false
    case Proceed(s) => TurnsPassed(s) && Run(e, limits, s, n).end == Ended(out)
  }

  lemma EnterAgain(s: LoopState)
    requires TurnsPassed(s)
    ensures Enter(s.messages, s.usage, s.steps, s.toolCallsUsed, s.operationTurn) == s
  {
  }

  lemma ResumedEnds(e: Engine, limits: Limits, t: TurnResult, n: nat, out: LoopOutput)
    requires ExplicitLimit(limits) && Ends(e, limits, t, n, out)
    ensures Resumed(e, limits, t, n).end == Ended(out)
  {
    if t.next.Proceed? {
      EnterAgain(t.next.state);
    }
  }

  lemma NamedTwice(m: Message, turn: int)
    ensures Named(Named(m, turn), turn) == Named(m, turn)
  {
    var calls := Named(m, turn).toolCalls;
    assert Named(Named(m, turn), turn).toolCalls == calls;
  }

  /** Resuming at model_complete runs the same tool step again. */
  lemma ResumeModelComplete(e: Engine, limits: Limits, s: LoopState, reply: Message, call: ModelCall,
                            iteration: int, turn: int, n: nat, out: LoopOutput)
    requires ExplicitLimit(limits) && reply.toolCalls != []
    requires var s1 := OpenStep(s, Named(reply, turn), call, iteration);
             ValidateContinuation(ContinuationOf(limits, s1, ModelComplete))
    requires Ends(e, limits, ToolStep(e, limits, s, reply, call, iteration, turn), n, out)
    ensures var s1 := OpenStep(s, Named(reply, turn), call, iteration);
            Resume(e, limits, ContinuationOf(limits, s1, ModelComplete), n).end == Ended(out)
  {
    var s1 := OpenStep(s, Named(reply, turn), call, iteration);
    var c := ContinuationOf(limits, s1, ModelComplete);
    assert Popped(c) == s;
    NamedTwice(reply, turn);
    var t := ToolStep(e, limits, s, reply, call, iteration, turn);
    assert ToolStep(e, limits, s, Named(reply, turn), call, iteration, turn) == t;
    ResumedEnds(e, limits, t, n, out);
  }

  lemma {:induction false} ThinkingSurvivesResults(messages: seq<Message>, assistant: Message, results: seq<ToolResult>)
    requires assistant.role == Assistant
    ensures LastThinking(messages + [assistant] + ResultMessages(results)) == assistant.thinking
    decreases |results|
  {
    var all := messages + [assistant] + ResultMessages(results);
    if results == [] {
      assert all == messages + [assistant];
    } else {
      var n := |results| - 1;
      ThinkingSurvivesResults(messages, assistant, results[..n]);
      assert all[..|all| - 1] == messages + [assistant] + ResultMessages(results[..n]);
    }
  }

  /** Resuming at tools_complete enters the next turn, or repeats the final output. */
  lemma ResumeToolsComplete(e: Engine, limits: Limits, s: LoopState, assistant: Message, results: seq<ToolResult>,
                            terminal: bool, n: nat, out: LoopOutput)
    requires ExplicitLimit(limits) && s.steps != []
    requires LastThinking(s.messages) == assistant.thinking
    requires var step := FinalStep(e, s, assistant.toolCalls, results, terminal);
             ValidateContinuation(ContinuationOf(limits, s.(steps := SetLast(s.steps, step)), ToolsComplete))
    requires Ends(e, limits, FinalizeTools(e, limits, s, assistant, results, terminal, |s.steps| - 1), n, out)
    ensures var step := FinalStep(e, s, assistant.toolCalls, results, terminal);
            Resume(e, limits, ContinuationOf(limits, s.(steps := SetLast(s.steps, step)), ToolsComplete), n).end == Ended(out)
  {
    hide ValidateContinuation, FinalStep, Run, NextTurn;
    var step := FinalStep(e, s, assistant.toolCalls, results, terminal);
    var s' := s.(steps := SetLast(s.steps, step));
    var c := ContinuationOf(limits, s', ToolsComplete);
    assert Last(c.steps) == step;
    if step.decision == Continue {
      assert StateOf(c) == s';
      EnterAgain(s');
    }
  }

  /** Resuming at validating_output checks the same answer again. */
  lemma ResumeValidatingOutput(e: Engine, limits: Limits, s: LoopState, assistant: Message, call: ModelCall,
                               iteration: int, n: nat, out: LoopOutput)
    requires ExplicitLimit(limits) && (assistant.text != "" || assistant.thinking != "")
    requires var s1 := s.(messages := s.messages + [assistant],
                          steps := s.steps + [Step(iteration, Some(call), [], Finish, SpentNow(s))]);
             ValidateContinuation(ContinuationOf(limits, s1, ValidatingOutput))
    requires Ends(e, limits, AnswerStep(e, limits, s, assistant, call, call.stopReason, iteration), n, out)
    ensures var s1 := s.(messages := s.messages + [assistant],
                         steps := s.steps + [Step(iteration, Some(call), [], Finish, SpentNow(s))]);
            Resume(e, limits, ContinuationOf(limits, s1, ValidatingOutput), n).end == Ended(out)
  {
    var s1 := s.(messages := s.messages + [assistant],
                 steps := s.steps + [Step(iteration, Some(call), [], Finish, SpentNow(s))]);
    var c := ContinuationOf(limits, s1, ValidatingOutput);
    assert Popped(c) == s;
    ResumedEnds(e, limits, AnswerStep(e, limits, s, assistant, call, call.stopReason, iteration), n, out);
  }

  // ---- any continuation of a half-turn ----

  lemma ToolStepResumes(e: Engine, limits: Limits, s: LoopState, reply: Message, call: ModelCall,
                        turn: int, n: nat, out: LoopOutput, c: Continuation)
    requires ExplicitLimit(limits) && reply.role == Assistant && reply.toolCalls != []
    requires var t := ToolStep(e, limits, s, reply, call, |s.steps|, turn);
             Ends(e, limits, t, n, out) && Built(c) in t.events
    ensures Resume(e, limits, c, n).end == Ended(out)
  {
    hide Resume, Run, ValidateContinuation, DispatchBlocked, FinalStep, Add, BudgetStop, LastThinking, NextTurn;
    var assistant := Named(reply, turn);
    var s1 := OpenStep(s, assistant, call, |s.steps|);
    if c == ContinuationOf(limits, s1, ModelComplete) {
      ResumeModelComplete(e, limits, s, reply, call, |s.steps|, turn, n, out);
    } else {
      var batch := e.dispatch(assistant.toolCalls, limits.maxTokens, s1.usage);
      var s2 := AfterDispatch(s1, assistant.toolCalls, batch);
      var terminal := e.prepare(assistant.toolCalls).value;
      assert Built(c) in FinalizeTools(e, limits, s2, assistant, batch.results, terminal, |s.steps|).events;
      ThinkingSurvivesResults(s.messages, assistant, batch.results);
      ResumeToolsComplete(e, limits, s2, assistant, batch.results, terminal, n, out);
    }
  }

  lemma AnswerStepResumes(e: Engine, limits: Limits, s: LoopState, assistant: Message, call: ModelCall,
                          iteration: int, n: nat, out: LoopOutput, c: Continuation)
    requires ExplicitLimit(limits) && (c.phase == ValidatingOutput ==> assistant.text != "" || assistant.thinking != "")
    requires var t := AnswerStep(e, limits, s, assistant, call, call.stopReason, iteration);
             Ends(e, limits, t, n, out) && Built(c) in t.events
    ensures Resume(e, limits, c, n).end == Ended(out)
  {
    hide Resume, Run, ValidateContinuation, Guard;
    ResumeValidatingOutput(e, limits, s, assistant, call, iteration, n, out);
  }

  /** Before every turn of the run, each turn named in the history has passed. */
  ghost predicate Passing(e: Engine, limits: Limits, s: LoopState, n: nat)
    decreases n
  {
    && TurnsPassed(s)
    && (n > 0 && Turn(e, limits, s).next.Proceed? ==> Passing(e, limits, Turn(e, limits, s).next.state, n - 1))
  }

  lemma {:induction false} NothingNamedPasses(e: Engine, limits: Limits, s: LoopState, n: nat)
    requires TurnsPassed(s) && RetriesNameNothing(e)
    ensures Passing(e, limits, s, n)
    decreases n
  {
    hide Turn, TurnsPassed;
    if n > 0 {
      TurnPasses(e, limits, s);
      if Turn(e, limits, s).next.Proceed? {
        NothingNamedPasses(e, limits, Turn(e, limits, s).next.state, n - 1);
      }
    }
  }

  /** What a run that ends well says about its first turn. */
  lemma RunSplits(e: Engine, limits: Limits, s: LoopState, n: nat, out: LoopOutput)
    requires Run(e, limits, s, n).end == Ended(out) && Passing(e, limits, s, n)
    ensures n > 0 && Ends(e, limits, Turn(e, limits, s), n - 1, out)
    ensures Turn(e, limits, s).next.Proceed? ==> Passing(e, limits, Turn(e, limits, s).next.state, n - 1)
    ensures forall event :: event in Run(e, limits, s, n).events ==>
              || event in Turn(e, limits, s).events
              || (&& Turn(e, limits, s).next.Proceed?
                  && event in Run(e, limits, Turn(e, limits, s).next.state, n - 1).events)
  {
    hide Turn, ValidateContinuation;
  }

  lemma ReadyResumes(e: Engine, limits: Limits, s: LoopState, n: nat, out: LoopOutput)
    requires ExplicitLimit(limits) && TurnsPassed(s) && Run(e, limits, s, n).end == Ended(out)
    requires ValidateContinuation(ContinuationOf(limits, s, Ready))
    ensures Resume(e, limits, ContinuationOf(limits, s, Ready), n).end == Ended(out)
  {
    assert StateOf(ContinuationOf(limits, s, Ready)) == s;
    EnterAgain(s);
  }

  /** The second half of a turn: everything after the provider answered. */
  function Answered(e: Engine, limits: Limits, s: LoopState, reply: Reply): TurnResult {
    var s1 := s.(operationTurn := s.operationTurn + 1, usage := Add(s.usage, reply.usage));
    var call := ModelCall(reply.model, reply.usage, reply.stopReason);
    if reply.toolCalls == []
    then AnswerStep(e, limits, s1, AssistantOf(reply), call, reply.stopReason, |s.steps|)
    else ToolStep(e, limits, s1, AssistantOf(reply), call, |s.steps|, s.operationTurn)
  }

  lemma TurnHalves(e: Engine, limits: Limits, s: LoopState, event: Event)
    requires !Turn(e, limits, s).next.Failed? && event in Turn(e, limits, s).events
    ensures var reply := e.model(s.messages, s.operationTurn);
            && !reply.failed
            && BoundaryAccepted(e, limits, s, Ready)
            && Turn(e, limits, s).next == Answered(e, limits, s, reply).next
            && (event in BoundaryEvents(e, limits, s, Ready) || event in Answered(e, limits, s, reply).events)
  {
    hide AnswerStep, ToolStep, ValidateContinuation, FailedTurn;
  }

  lemma AnsweredResumes(e: Engine, limits: Limits, s: LoopState, reply: Reply, n: nat, out: LoopOutput, c: Continuation)
    requires ExplicitLimit(limits) && (c.phase == ValidatingOutput ==> Says(reply))
    requires Ends(e, limits, Answered(e, limits, s, reply), n, out)
    requires Built(c) in Answered(e, limits, s, reply).events
    ensures Resume(e, limits, c, n).end == Ended(out)
  {
    hide AnswerStep, ToolStep, Resume, Run, ValidateContinuation;
    var s1 := s.(operationTurn := s.operationTurn + 1, usage := Add(s.usage, reply.usage));
    var call := ModelCall(reply.model, reply.usage, reply.stopReason);
    if reply.toolCalls == [] {
      AnswerStepResumes(e, limits, s1, AssistantOf(reply), call, |s.steps|, n, out, c);
    } else {
      ToolStepResumes(e, limits, s1, AssistantOf(reply), call, s.operationTurn, n, out, c);
    }
  }

  lemma TurnResumes(e: Engine, limits: Limits, s: LoopState, n: nat, out: LoopOutput, c: Continuation) returns (m: nat)
    requires ExplicitLimit(limits) && Passing(e, limits, s, n) && Speaks(e, limits, s, n, c)
    requires Run(e, limits, s, n).end == Ended(out)
    requires Built(c) in Turn(e, limits, s).events
    ensures Resume(e, limits, c, m).end == Ended(out)
  {
    hide Turn, Resume, Run, Answered, ValidateContinuation;
    RunSplits(e, limits, s, n, out);
    TurnHalves(e, limits, s, Built(c));
    if Built(c) in BoundaryEvents(e, limits, s, Ready) {
      m := n;
      ReadyResumes(e, limits, s, n, out);
    } else {
      m := n - 1;
      AnsweredResumes(e, limits, s, e.model(s.messages, s.operationTurn), n - 1, out, c);
    }
  }

  /** Resume equivalence as long as every named turn has passed: whatever continuation a run
      handed out, resuming from it ends with the output of the uninterrupted run. */
  lemma {:induction false} PassingResumes(
    e: Engine, limits: Limits, s: LoopState, n: nat, out: LoopOutput, c: Continuation) returns (m: nat)
    requires ExplicitLimit(limits) && Passing(e, limits, s, n) && Speaks(e, limits, s, n, c)
    requires Run(e, limits, s, n).end == Ended(out)
    requires Built(c) in Run(e, limits, s, n).events
    ensures Resume(e, limits, c, m).end == Ended(out)
    decreases n
  {
    hide Turn, Resume, Run, Passing, Says;
    RunSplits(e, limits, s, n, out);
    if Built(c) in Turn(e, limits, s).events {
      m := TurnResumes(e, limits, s, n, out, c);
    } else {
      m := PassingResumes(e, limits, Turn(e, limits, s).next.state, n - 1, out, c);
    }
  }

  /** Resume equivalence: whatever continuation a run handed out, in whichever of the
      four phases, resuming from it ends with the output of the uninterrupted run. */
  lemma ResumeEquivalence(e: Engine, limits: Limits, s: LoopState, n: nat, out: LoopOutput, c: Continuation) returns (m: nat)
    requires ExplicitLimit(limits) && RetriesNameNothing(e) && TurnsPassed(s) && Speaks(e, limits, s, n, c)
    requires Run(e, limits, s, n).end == Ended(out)
    requires Built(c) in Run(e, limits, s, n).events
    ensures Resume(e, limits, c, m).end == Ended(out)
  {
    hide Turn, Resume, Run, Passing;
    NothingNamedPasses(e, limits, s, n);
    m := PassingResumes(e, limits, s, n, out, c);
  }
}
