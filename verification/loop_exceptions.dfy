/** Where resuming does not repeat the run, and exactly when it does. */
module LoopExceptions {
  import opened Text
  import opened Messages
  import opened TokenUsage
  import opened LoopTypes
  import opened LoopContinuation
  import opened LoopSpec
  import opened LoopResume
  import opened LoopBoundary

  // ---- the default iteration limit ----

  /** The default limit cannot be seen while resuming: it is not used, or nobody is shown it. */
  predicate DefaultUnseen(limits: Limits, phase: Phase, guardrails: nat) {
    ExplicitLimit(limits) || phase != ValidatingOutput || guardrails == 0
  }

  /** What the two runs build and return is spelled with the same fields. */
  lemma ShapesIgnoreDefault(e: Engine, limits: Limits, s: LoopState, phase: Phase)
    ensures var l := Normalize(limits);
            && BoundaryEvents(e, limits, s, phase) == BoundaryEvents(e, l, s, phase)
            && BoundaryAccepted(e, limits, s, phase) == BoundaryAccepted(e, l, s, phase)
    ensures forall i :: Error(limits, s, i) == Error(Normalize(limits), s, i)
    ensures s.steps != [] ==> forall i :: BudgetStop(e, limits, s, i) == BudgetStop(e, Normalize(limits), s, i)
    ensures forall batch :: DispatchBlocked(limits, s, batch) == DispatchBlocked(Normalize(limits), s, batch)
  {
    hide ValidateContinuation;
  }

  lemma FinalizeIgnoresDefault(e: Engine, limits: Limits, s: LoopState, assistant: Message, results: seq<ToolResult>,
                               terminal: bool, iteration: int)
    requires s.steps != []
    ensures FinalizeTools(e, limits, s, assistant, results, terminal, iteration)
            == FinalizeTools(e, Normalize(limits), s, assistant, results, terminal, iteration)
  {
    hide ValidateContinuation, FinalStep;
  }

  lemma ToolStepIgnoresDefault(e: Engine, limits: Limits, s: LoopState, reply: Message, call: ModelCall, iteration: int, turn: int)
    ensures ToolStep(e, limits, s, reply, call, iteration, turn) == ToolStep(e, Normalize(limits), s, reply, call, iteration, turn)
  {
    hide ValidateContinuation, BoundaryEvents, BoundaryAccepted, Error, BudgetStop, DispatchBlocked, FinalizeTools, AfterDispatch;
    var assistant := Named(reply, turn);
    var s1 := OpenStep(s, assistant, call, iteration);
    ShapesIgnoreDefault(e, limits, s1, ModelComplete);
    ShapesIgnoreDefault(e, limits, FailLast(s1), ModelComplete);
    var batch := e.dispatch(assistant.toolCalls, limits.maxTokens, s1.usage);
    var s2 := AfterDispatch(s1, assistant.toolCalls, batch);
    ShapesIgnoreDefault(e, limits, s2, ModelComplete);
    if e.prepare(assistant.toolCalls).Some? {
      FinalizeIgnoresDefault(e, limits, s2, assistant, batch.results, e.prepare(assistant.toolCalls).value, iteration);
    }
  }

  lemma AnswerStepIgnoresDefault(e: Engine, limits: Limits, s: LoopState, assistant: Message, call: ModelCall,
                                 stop: StopReason, iteration: int)
    requires e.guardrails == []
    ensures AnswerStep(e, limits, s, assistant, call, stop, iteration)
            == AnswerStep(e, Normalize(limits), s, assistant, call, stop, iteration)
  {
    hide ValidateContinuation;
  }

  lemma ResumeIgnoresDefault(e: Engine, limits: Limits, c: Continuation, n: nat)
    requires DefaultUnseen(limits, c.phase, |e.guardrails|)
    ensures Resume(e, limits, c, n) == Resume(e, Normalize(limits), c, n)
  {
    hide ValidateContinuation, ToolStep, AnswerStep, Run, NextTurn, LastThinking;
    ValidCount(c);
    if ValidateContinuation(c) && !ExplicitLimit(limits) && c.messages != [] && c.steps != [] && Last(c.steps).modelCall.Some? {
      var l := limits.(repairCount := c.repairCount);
      assert Normalize(limits).(repairCount := c.repairCount) == Normalize(l);
      var assistant, call := c.messages[|c.messages| - 1], Last(c.steps).modelCall.value;
      if assistant.toolCalls != [] {
        ToolStepIgnoresDefault(e, l, Popped(c), assistant, call, Last(c.steps).index, FirstTurn(assistant.toolCalls));
      }
      if e.guardrails == [] {
        AnswerStepIgnoresDefault(e, l, Popped(c), assistant, call, call.stopReason, Last(c.steps).index);
      }
    }
  }

  /** Every run under these limits that passes the turns it names resumes to its own output
      from every continuation of this phase that holds no empty answer, whatever its
      `guardrails` many guardrails say. */
  ghost predicate Faithful(limits: Limits, phase: Phase, guardrails: nat) {
    forall e: Engine, s: LoopState, n: nat, out: LoopOutput, c: Continuation ::
      && |e.guardrails| == guardrails && c.phase == phase
      && Passing(e, Normalize(limits), s, n) && Speaks(e, Normalize(limits), s, n, c)
      && Run(e, Normalize(limits), s, n).end == Ended(out) && Built(c) in Run(e, Normalize(limits), s, n).events
      ==> exists m: nat :: Resume(e, limits, c, m).end == Ended(out)
  }

  /** Lets an answer pass only when told the default limit. */
  function LimitSeeker(input: GuardrailInput): Option<GuardrailResult> {
    Some(if input.maxIterations == 12 then Allow else Block)
  }

  const ONE := Usage(1, 0, false, 0, false, 0, 0, 1)
  const SPEECH := Reply("a", "", "", "", [], ONE, Complete, "", true, false)

  /** An engine that gives one answer. */
  function Speaker(guardrails: seq<GuardrailInput -> Option<GuardrailResult>>): Engine {
    Answering(SPEECH, guardrails)
  }

  function Answering(reply: Reply, guardrails: seq<GuardrailInput -> Option<GuardrailResult>>): Engine {
    Engine((h, t) => reply, calls => None, (calls, budget, spent) => Batch([], ZERO, true), steps => NoOverride,
           guardrails, step => true, true, c => true)
  }

  lemma SpeakerRegular(guardrails: seq<GuardrailInput -> Option<GuardrailResult>>)
    requires forall k, input :: 0 <= k < |guardrails| && guardrails[k](input).Some? ==> !guardrails[k](input).value.RetryWith?
    ensures Regular(Speaker(guardrails)) && AnswersSpeak(Speaker(guardrails)) && RetriesNameNothing(Speaker(guardrails))
  {
  }

  lemma {:induction false} SeekersDecide(e: Engine, limits: Limits, messages: seq<Message>, candidate: Message, k: nat,
                                         iteration: int, usage: Usage, stop: StopReason)
    requires k <= |e.guardrails| && forall i :: 0 <= i < |e.guardrails| ==> e.guardrails[i] == LimitSeeker
    ensures Guard(e, limits, messages, candidate, k, iteration, usage, stop) ==
            if k < |e.guardrails| && limits.maxIterations != 12 then Refused else Accepted(candidate)
    decreases |e.guardrails| - k
  {
    if k < |e.guardrails| {
      SeekersDecide(e, limits, messages, candidate, k + 1, iteration, usage, stop);
    }
  }

  const ANSWER := AssistantOf(SPEECH)
  const CALL := ModelCall("", ONE, Complete)

  /** The state in which the speaker's answer to `s` is checked. */
  function Spoken(s: LoopState): LoopState {
    var s1 := Charged(s, ONE);
    s1.(messages := s.messages + [ANSWER], steps := s.steps + [Step(|s.steps|, Some(CALL), [], Finish, SpentNow(s1))])
  }

  /** The next turn may start. */
  predicate MayGoOn(limits: Limits, s: LoopState) {
    && IterationAllowed(limits, |s.steps|) && s.usage.totalTokens < MAX_INT - 1
    && (s.steps == [] || !BudgetExhausted(limits, s.usage, s.toolCallsUsed, |s.steps|))
  }

  lemma SpokenValid(limits: Limits, s: LoopState)
    requires ReadyState(limits, s) && s.usage.totalTokens < MAX_INT - 1
    ensures ValidateContinuation(ContinuationOf(limits, Spoken(s), ValidatingOutput))
  {
    hide ValidateContinuation, Add;
    AddGrows(s.usage, ONE);
    assert s.messages + [ANSWER] + [] == s.messages + [ANSWER];
    AnswerValid(limits, s, ANSWER, CALL, [], Finish, ValidatingOutput);
  }

  lemma SpeakerTurn(e: Engine, limits: Limits, s: LoopState)
    requires e == Speaker(e.guardrails) && ReadyState(limits, s) && MayGoOn(limits, s)
    requires Guard(e, limits, s.messages, ANSWER, 0, |s.steps| + 1, Charged(s, ONE).usage, Complete) == Accepted(ANSWER)
    ensures Turn(e, limits, s) ==
            TurnResult([Built(ContinuationOf(limits, s, Ready)), Built(ContinuationOf(limits, Spoken(s), ValidatingOutput))],
                       Done(OutputOf(limits, Spoken(s), Complete, |s.steps| + 1, "")))
  {
    hide ValidateContinuation, Guard, Sound, Add;
    SpokenValid(limits, s);
    var t := AnswerStep(e, limits, Charged(s, ONE), ANSWER, CALL, Complete, |s.steps|);
    assert t == TurnResult([Built(ContinuationOf(limits, Spoken(s), ValidatingOutput))],
                           Done(OutputOf(limits, Spoken(s), Complete, |s.steps| + 1, "")));
  }

  /** Without an explicit limit, and with a guardrail to be shown it, an answer the run
      accepted is refused when resumed. */
  lemma DefaultSeen(limits: Limits, guardrails: nat) returns (e: Engine, s: LoopState, out: LoopOutput, c: Continuation)
    requires !ExplicitLimit(limits) && guardrails > 0
    ensures |e.guardrails| == guardrails && c.phase == ValidatingOutput
    ensures Passing(e, Normalize(limits), s, 1) && Speaks(e, Normalize(limits), s, 1, c)
    ensures Run(e, Normalize(limits), s, 1).end == Ended(out) && Built(c) in Run(e, Normalize(limits), s, 1).events
    ensures forall m: nat :: Resume(e, limits, c, m).end.Broke?
  {
    hide ValidateContinuation, Turn, Guard, Sound, Add, Passing, Speaks, Regular, AnswersSpeak, RetriesNameNothing, Run, Resume;
    var l := Normalize(limits);
    e := Speaker(seq(guardrails, i => LimitSeeker));
    SpeakerRegular(e.guardrails);
    s := LoopState([], ZERO, [], 0, 0);
    FreshReady(l, [], 0);
    SeekersDecide(e, l, [], ANSWER, 0, 1, Charged(s, ONE).usage, Complete);
    SpeakerTurn(e, l, s);
    out := OutputOf(l, Spoken(s), Complete, 1, "");
    c := ContinuationOf(l, Spoken(s), ValidatingOutput);
    RunUnfolds(e, l, s, 1);
    NothingNamedPasses(e, l, s, 1);
    AlwaysSpeaks(e, l, s, 1, c);
    SeekersDecide(e, limits, [], ANSWER, 0, 1, Charged(s, ONE).usage, Complete);
    SpokenRefused(e, limits, s);
    assert c == ContinuationOf(limits, Spoken(s), ValidatingOutput);
  }

  lemma SpokenRefused(e: Engine, limits: Limits, s: LoopState)
    requires e == Speaker(e.guardrails)
    requires Guard(e, limits, s.messages, ANSWER, 0, |s.steps| + 1, Charged(s, ONE).usage, Complete) == Refused
    ensures forall m: nat :: Resume(e, limits, ContinuationOf(limits, Spoken(s), ValidatingOutput), m).end.Broke?
  {
    hide ValidateContinuation, Guard, Sound, Add, Run, NextTurn, LastThinking;
    var c := ContinuationOf(limits, Spoken(s), ValidatingOutput);
    assert Popped(c) == Charged(s, ONE);
  }

  /** Resuming repeats the run for all engines exactly when the default limit cannot be seen. */
  lemma FaithfulIff(limits: Limits, phase: Phase, guardrails: nat)
    ensures Faithful(limits, phase, guardrails) <==> DefaultUnseen(limits, phase, guardrails)
  {
    hide Run, Resume, Passing, Speaks;
    if DefaultUnseen(limits, phase, guardrails) {
      forall e: Engine, s: LoopState, n: nat, out: LoopOutput, c: Continuation
        | && |e.guardrails| == guardrails && c.phase == phase
          && Passing(e, Normalize(limits), s, n) && Speaks(e, Normalize(limits), s, n, c)
          && Run(e, Normalize(limits), s, n).end == Ended(out) && Built(c) in Run(e, Normalize(limits), s, n).events
        ensures exists m: nat :: Resume(e, limits, c, m).end == Ended(out)
      {
        var m := PassingResumes(e, Normalize(limits), s, n, out, c);
        ResumeIgnoresDefault(e, limits, c, m);
        assert Resume(e, limits, c, m).end == Ended(out);
      }
    } else {
      var e, s, out, c := DefaultSeen(limits, guardrails);
    }
  }

  /** A run as it is called, with the limits as they are configured: from every continuation
      it hands out, resuming with the same configuration ends with the same output. */
  lemma ConfiguredRunResumes(e: Engine, limits: Limits, s: LoopState, n: nat, out: LoopOutput, c: Continuation) returns (m: nat)
    requires RetriesNameNothing(e) && DefaultUnseen(limits, c.phase, |e.guardrails|)
    requires Speaks(e, Normalize(limits), Enter(s.messages, s.usage, s.steps, s.toolCallsUsed, s.operationTurn), n, c)
    requires RunMessages(e, limits, s, n).end == Ended(out) && Built(c) in RunMessages(e, limits, s, n).events
    ensures Resume(e, limits, c, m).end == Ended(out)
  {
    hide Run, Resume, RetriesNameNothing, NextTurn, Speaks;
    var entered := Enter(s.messages, s.usage, s.steps, s.toolCallsUsed, s.operationTurn);
    m := ResumeEquivalence(e, Normalize(limits), entered, n, out, c);
    ResumeIgnoresDefault(e, limits, c, m);
  }

  // ---- an answer that says nothing ----

  /** An empty answer is not appended, so resuming takes the message before it for the
      answer. Under an observer that message is a plain assistant message; without guardrails
      the output is the same exactly when it has text and no thinking. */
  lemma EmptyAnswerResumes(e: Engine, limits: Limits, s: LoopState, assistant: Message, call: ModelCall, iteration: int,
                           out: LoopOutput, m: nat)
    requires e.observesBoundaries && e.guardrails == [] && assistant.text == "" && assistant.thinking == ""
    requires AnswerStep(e, limits, s, assistant, call, call.stopReason, iteration).next == Done(out)
    ensures s.messages != []
    ensures var last := s.messages[|s.messages| - 1]; last.role == Assistant && last.toolCalls == []
    ensures var s1 := s.(steps := s.steps + [Step(iteration, Some(call), [], Finish, SpentNow(s))]);
            var last := s.messages[|s.messages| - 1];
            (Resume(e, limits, ContinuationOf(limits, s1, ValidatingOutput), m).end == Ended(out))
            <==> (last.text != "" && last.thinking == "")
  {
    hide Run, NextTurn, LastThinking, Analyze, TotalsAfter;
    var s1 := s.(steps := s.steps + [Step(iteration, Some(call), [], Finish, SpentNow(s))]);
    var c := ContinuationOf(limits, s1, ValidatingOutput);
    assert s.messages != [];
    var last := s.messages[|s.messages| - 1];
    var p := Popped(c);
    assert p == s.(messages := s.messages[..|s.messages| - 1]);
    assert p.messages + [last] == s.messages;
    if last.text != "" || last.thinking != "" {
      assert AppendFinal(p.messages, last) == s.messages;
    }
  }

  predicate Silent(reply: Reply) {
    !reply.failed && reply.toolCalls == [] && reply.text == "" && reply.thinking == ""
  }

  function CallOfReply(reply: Reply): ModelCall {
    ModelCall(reply.model, reply.usage, reply.stopReason)
  }

  /** The state in which a silent reply to `s` is checked: nothing was appended. */
  function Silenced(s: LoopState, reply: Reply): LoopState {
    var s1 := Charged(s, reply.usage);
    s1.(steps := s.steps + [Step(|s.steps|, Some(CallOfReply(reply)), [], Finish, SpentNow(s1))])
  }

  /** A silent reply reaches the output check in this state: both boundaries are valid, and
      limits and budget let the turn through. */
  predicate ReachesCheck(limits: Limits, s: LoopState, reply: Reply) {
    && IterationAllowed(limits, |s.steps|)
    && (s.steps == [] || !BudgetExhausted(limits, s.usage, s.toolCallsUsed, |s.steps|))
    && !(limits.maxTokens > 0 && reply.usage.totalTokens == 0)
    && ValidateContinuation(ContinuationOf(limits, s, Ready))
    && ValidateContinuation(ContinuationOf(limits, Silenced(s, reply), ValidatingOutput))
  }

  /** Resuming from the check of this reply repeats the run, for all engines with so many
      guardrails whose retries name nothing. */
  ghost predicate EmptyFaithful(limits: Limits, s: LoopState, reply: Reply, guardrails: nat) {
    forall e: Engine, n: nat, out: LoopOutput, c: Continuation ::
      && RetriesNameNothing(e) && |e.guardrails| == guardrails && e.model(s.messages, s.operationTurn) == reply
      && c.phase == ValidatingOutput
      && Run(e, Normalize(limits), s, n).end == Ended(out) && Built(c) in Turn(e, Normalize(limits), s).events
      ==> exists m: nat :: Resume(e, limits, c, m).end == Ended(out)
  }

  /** Lets an answer pass only behind this history. */
  function Teller(history: seq<Message>): GuardrailInput -> Option<GuardrailResult> {
    (input: GuardrailInput) => Some(if input.messages == history then Allow else Block)
  }

  lemma {:induction false} TellersDecide(e: Engine, limits: Limits, history: seq<Message>, messages: seq<Message>,
                                         candidate: Message, k: nat, iteration: int, usage: Usage, stop: StopReason)
    requires k <= |e.guardrails| && forall i :: 0 <= i < |e.guardrails| ==> e.guardrails[i] == Teller(history)
    ensures Guard(e, limits, messages, candidate, k, iteration, usage, stop) ==
            if k < |e.guardrails| && messages != history then Refused else Accepted(candidate)
    decreases |e.guardrails| - k
  {
    if k < |e.guardrails| {
      TellersDecide(e, limits, history, messages, candidate, k + 1, iteration, usage, stop);
    }
  }

  lemma SilentTurn(e: Engine, limits: Limits, s: LoopState, reply: Reply)
    requires e == Answering(reply, e.guardrails) && Silent(reply) && ReachesCheck(limits, s, reply)
    requires Guard(e, limits, s.messages, AssistantOf(reply), 0, |s.steps| + 1, Charged(s, reply.usage).usage, reply.stopReason)
             == Accepted(AssistantOf(reply))
    ensures Turn(e, limits, s) ==
            TurnResult([Built(ContinuationOf(limits, s, Ready)), Built(ContinuationOf(limits, Silenced(s, reply), ValidatingOutput))],
                       Done(OutputOf(limits, Silenced(s, reply), reply.stopReason, |s.steps| + 1, "")))
    ensures AnswerStep(e, limits, Charged(s, reply.usage), AssistantOf(reply), CallOfReply(reply), reply.stopReason, |s.steps|).next
            == Done(OutputOf(limits, Silenced(s, reply), reply.stopReason, |s.steps| + 1, ""))
  {
    hide ValidateContinuation, Guard, Add;
    var t := AnswerStep(e, limits, Charged(s, reply.usage), AssistantOf(reply), CallOfReply(reply), reply.stopReason, |s.steps|);
    assert t == TurnResult([Built(ContinuationOf(limits, Silenced(s, reply), ValidatingOutput))],
                           Done(OutputOf(limits, Silenced(s, reply), reply.stopReason, |s.steps| + 1, "")));
  }

  /** When a guardrail can tell the histories apart, the resumed check is refused. */
  lemma SilentRefused(e: Engine, limits: Limits, s: LoopState, reply: Reply, m: nat)
    requires s.messages != [] && e.guardrails != []
    requires forall i :: 0 <= i < |e.guardrails| ==> e.guardrails[i] == Teller(s.messages)
    ensures Resume(e, limits, ContinuationOf(limits, Silenced(s, reply), ValidatingOutput), m).end.Broke?
  {
    hide ValidateContinuation, Guard, Add, Run, NextTurn, LastThinking;
    var c := ContinuationOf(limits, Silenced(s, reply), ValidatingOutput);
    var last := s.messages[|s.messages| - 1];
    TellersDecide(e, limits, s.messages, Popped(c).messages, last, 0, |s.steps| + 1, Charged(s, reply.usage).usage, reply.stopReason);
  }

  /** An empty answer resumes to the run's own output, for all engines with so many
      guardrails, exactly when there is no guardrail and the message before it has text and
      no thinking. */
  lemma EmptyAnswerIff(limits: Limits, s: LoopState, reply: Reply, guardrails: nat)
    requires Silent(reply) && ReachesCheck(Normalize(limits), s, reply)
    ensures s.messages != []
    ensures var last := s.messages[|s.messages| - 1];
            && last.role == Assistant && last.toolCalls == []
            && (EmptyFaithful(limits, s, reply, guardrails) <==> guardrails == 0 && last.text != "" && last.thinking == "")
  {
    hide Run, Resume, Turn, RetriesNameNothing, Guard, ReachesCheck, Silent, Add;
    CheckNeedsAssistant(Normalize(limits), s, reply);
    var last := s.messages[|s.messages| - 1];
    if guardrails == 0 && last.text != "" && last.thinking == "" {
      forall e: Engine, n: nat, out: LoopOutput, c: Continuation
        | && RetriesNameNothing(e) && |e.guardrails| == 0 && e.model(s.messages, s.operationTurn) == reply
          && c.phase == ValidatingOutput
          && Run(e, Normalize(limits), s, n).end == Ended(out) && Built(c) in Turn(e, Normalize(limits), s).events
        ensures exists m: nat :: Resume(e, limits, c, m).end == Ended(out)
      {
        SilentResumes(e, limits, s, reply, n, out, c);
        assert Resume(e, limits, c, 0).end == Ended(out);
      }
    } else {
      var e, out, c := SilentDiffers(limits, s, reply, guardrails);
      assert Run(e, Normalize(limits), s, 1).end == Ended(out);
    }
  }

  lemma CheckNeedsAssistant(limits: Limits, s: LoopState, reply: Reply)
    requires ReachesCheck(limits, s, reply)
    ensures s.messages != []
    ensures var last := s.messages[|s.messages| - 1]; last.role == Assistant && last.toolCalls == []
  {
    hide Analyze, TotalsAfter, Add;
  }

  lemma SilentResumes(e: Engine, limits: Limits, s: LoopState, reply: Reply, n: nat, out: LoopOutput, c: Continuation)
    requires Silent(reply) && e.guardrails == [] && e.model(s.messages, s.operationTurn) == reply && c.phase == ValidatingOutput
    requires s.messages != [] && s.messages[|s.messages| - 1].text != "" && s.messages[|s.messages| - 1].thinking == ""
    requires Run(e, Normalize(limits), s, n).end == Ended(out) && Built(c) in Turn(e, Normalize(limits), s).events
    ensures Resume(e, limits, c, 0).end == Ended(out)
  {
    hide Run, Resume, Turn, Guard, Add, ValidateContinuation, AnswerStep;
    var l := Normalize(limits);
    RunStarts(e, l, s, n);
    RunUnfolds(e, l, s, n);
    TurnHalves(e, l, s, Built(c));
    var s1 := Charged(s, reply.usage);
    AnswerOnce(e, l, s1, AssistantOf(reply), CallOfReply(reply), reply.stopReason, |s.steps|, c);
    EmptyAnswerResumes(e, l, s1, AssistantOf(reply), CallOfReply(reply), |s.steps|, out, 0);
    ResumeIgnoresDefault(e, limits, c, 0);
  }

  lemma RunStarts(e: Engine, limits: Limits, s: LoopState, n: nat)
    requires Run(e, limits, s, n).end.Ended?
    ensures n > 0 && !Turn(e, limits, s).next.Failed?
  {
    hide Turn;
  }

  /** Without guardrails an answer ends the run at once. */
  lemma AnswerOnce(e: Engine, limits: Limits, s: LoopState, assistant: Message, call: ModelCall, stop: StopReason,
                   iteration: int, c: Continuation)
    requires e.guardrails == [] && assistant.text == "" && assistant.thinking == ""
    requires var t := AnswerStep(e, limits, s, assistant, call, stop, iteration); !t.next.Failed? && Built(c) in t.events
    ensures AnswerStep(e, limits, s, assistant, call, stop, iteration).next.Done? && e.observesBoundaries
    ensures c == ContinuationOf(limits, s.(steps := s.steps + [Step(iteration, Some(call), [], Finish, SpentNow(s))]),
                                ValidatingOutput)
  {
    hide ValidateContinuation;
  }

  lemma SilentDiffers(limits: Limits, s: LoopState, reply: Reply, guardrails: nat)
    returns (e: Engine, out: LoopOutput, c: Continuation)
    requires Silent(reply) && ReachesCheck(Normalize(limits), s, reply) && s.messages != []
    requires var last := s.messages[|s.messages| - 1]; guardrails > 0 || last.text == "" || last.thinking != ""
    ensures RetriesNameNothing(e) && |e.guardrails| == guardrails && e.model(s.messages, s.operationTurn) == reply
    ensures c.phase == ValidatingOutput
    ensures Run(e, Normalize(limits), s, 1).end == Ended(out) && Built(c) in Turn(e, Normalize(limits), s).events
    ensures forall m: nat :: Resume(e, limits, c, m).end != Ended(out)
  {
    hide Turn, Resume, Guard, Add, ValidateContinuation, AnswerStep, ReachesCheck;
    var l := Normalize(limits);
    e := Answering(reply, seq(guardrails, i => Teller(s.messages)));
    var stop := reply.stopReason;
    TellersDecide(e, l, s.messages, s.messages, AssistantOf(reply), 0, |s.steps| + 1, Charged(s, reply.usage).usage, stop);
    SilentTurn(e, l, s, reply);
    out := OutputOf(l, Silenced(s, reply), stop, |s.steps| + 1, "");
    c := ContinuationOf(l, Silenced(s, reply), ValidatingOutput);
    forall m: nat ensures Resume(e, limits, c, m).end != Ended(out) {
      if guardrails > 0 {
        SilentRefused(e, limits, s, reply, m);
      } else {
        EmptyAnswerResumes(e, l, Charged(s, reply.usage), AssistantOf(reply), CallOfReply(reply), |s.steps|, out, m);
        ResumeIgnoresDefault(e, limits, c, m);
      }
    }
  }

  /** In a fresh run any sound silent reply behind a plain assistant message gets there. */
  lemma FreshReachesCheck(limits: Limits, s: LoopState, reply: Reply)
    requires ReadyState(limits, s) && s.steps == [] && Sound(reply.usage) && IterationAllowed(limits, 0)
    requires 0 < reply.usage.totalTokens && Charged(s, reply.usage).usage.totalTokens < MAX_INT
    requires s.messages != []
    requires var last := s.messages[|s.messages| - 1]; last.role == Assistant && last.toolCalls == []
    ensures ReachesCheck(limits, s, reply)
  {
    hide Add;
    var n := |s.messages| - 1;
    var a := Analyze(s.messages);
    assert a.assistants[|a.assistants| - 1] == n;
    AddGrows(s.usage, reply.usage);
    AddGrows(ZERO, reply.usage);
    AddMonotone(s.usage, ZERO, reply.usage);
    var c := ContinuationOf(limits, Silenced(s, reply), ValidatingOutput);
    assert TotalsAfter(c, a, 0) == Totals(true, 0, ZERO);
    assert StepCalls(c, a, 0) == [];
  }

  const SILENCE := Reply("", "", "", "", [], ONE, Complete, "", true, false)

  /** A run whose resumption differs: an empty answer behind a message with text and thinking. */
  lemma EmptyAnswerDiffers(limits: Limits) returns (e: Engine, s: LoopState, out: LoopOutput, c: Continuation)
    ensures s == LoopState([Message(Assistant, "text", "thought", [], None, false, "")], ZERO, [], 0, 0)
    ensures e.guardrails == [] && Run(e, Normalize(limits), s, 1).end == Ended(out)
    ensures Built(c) in Run(e, Normalize(limits), s, 1).events && c.phase == ValidatingOutput
    ensures forall m: nat :: Resume(e, limits, c, m).end != Ended(out)
  {
    hide Turn, Resume, ValidateContinuation, ReachesCheck;
    var last := Message(Assistant, "text", "thought", [], None, false, "");
    s := LoopState([last], ZERO, [], 0, 0);
    AnalyzePush([], last);
    assert [] + [last] == [last];
    FreshReady(Normalize(limits), [last], 0);
    FreshReachesCheck(Normalize(limits), s, SILENCE);
    e, out, c := SilentDiffers(limits, s, SILENCE, 0);
    RunUnfolds(e, Normalize(limits), s, 1);
  }

  // ---- turns that a retry names ----

  /** Resuming from the ready continuation of `s` repeats every well-behaved run from `s`. */
  ghost predicate ReadyFaithful(limits: Limits, s: LoopState) {
    forall e: Engine, n: nat, out: LoopOutput ::
      && RetriesNameNothing(e) && Run(e, limits, s, n).end == Ended(out)
      && Built(ContinuationOf(limits, s, Ready)) in Run(e, limits, s, n).events
      ==> Resume(e, limits, ContinuationOf(limits, s, Ready), n).end == Ended(out)
  }

  /** It does so exactly when the history names no turn that is still to come. */
  lemma ReadyFaithfulIff(limits: Limits, s: LoopState)
    requires ExplicitLimit(limits) && ReadyState(limits, s) && MayGoOn(limits, s)
    ensures ReadyFaithful(limits, s) <==> TurnsPassed(s)
  {
    hide Run, Resume, RetriesNameNothing, ReadyState, MayGoOn, TurnsPassed;
    if TurnsPassed(s) {
      forall e: Engine, n: nat, out: LoopOutput
        | && RetriesNameNothing(e) && Run(e, limits, s, n).end == Ended(out)
          && Built(ContinuationOf(limits, s, Ready)) in Run(e, limits, s, n).events
        ensures Resume(e, limits, ContinuationOf(limits, s, Ready), n).end == Ended(out)
      {
        ReadyValidates(limits, s);
        ReadyResumes(e, limits, s, n, out);
      }
    } else {
      var e, out := TurnNumbersShow(limits, s);
    }
  }

  lemma ReadyValidates(limits: Limits, s: LoopState)
    requires ReadyState(limits, s)
    ensures ValidateContinuation(ContinuationOf(limits, s, Ready))
  {
  }

  lemma TurnNumbersShow(limits: Limits, s: LoopState) returns (e: Engine, out: LoopOutput)
    requires ExplicitLimit(limits) && ReadyState(limits, s) && MayGoOn(limits, s) && !TurnsPassed(s)
    ensures RetriesNameNothing(e) && Run(e, limits, s, 1).end == Ended(out)
    ensures Built(ContinuationOf(limits, s, Ready)) in Run(e, limits, s, 1).events
    ensures Resume(e, limits, ContinuationOf(limits, s, Ready), 1).end != Ended(out)
  {
    hide ValidateContinuation, Turn, NextTurn, Sound, Add;
    e := Speaker([]);
    SpeakerRegular([]);
    SpeakerTurn(e, limits, s);
    out := OutputOf(limits, Spoken(s), Complete, |s.steps| + 1, "");
    var entered := Enter(s.messages, s.usage, s.steps, s.toolCallsUsed, s.operationTurn);
    assert StateOf(ContinuationOf(limits, s, Ready)) == s;
    SpeakerCounts(e, limits, entered);
  }

  lemma SpeakerCounts(e: Engine, limits: Limits, s: LoopState)
    requires e == Speaker(e.guardrails) && MayGoOn(limits, s)
    requires !Guard(e, limits, s.messages, ANSWER, 0, |s.steps| + 1, Charged(s, ONE).usage, Complete).Retried?
    ensures Turn(e, limits, s).next.Done? ==> Turn(e, limits, s).next.output.nextOperationTurn == s.operationTurn + 1
    ensures !Turn(e, limits, s).next.Proceed?
  {
    hide ValidateContinuation, Sound, Add, Guard;
  }

  /** A retry leaves such a history exactly when its messages name no turn still to come. */
  lemma RetryTurnsPassed(e: Engine, limits: Limits, s: LoopState, assistant: Message, call: ModelCall,
                         stop: StopReason, iteration: int)
    requires TurnsPassed(s) && assistant.toolCalls == []
    requires AnswerStep(e, limits, s, assistant, call, stop, iteration).next.Proceed?
    ensures var g := Guard(e, limits, s.messages, assistant, 0, iteration + 1, s.usage, stop);
            && g.Retried?
            && (TurnsPassed(AnswerStep(e, limits, s, assistant, call, stop, iteration).next.state)
                <==> NextTurn(g.retry.replacementContext + g.retry.retryMessages) <= s.operationTurn)
  {
    hide AnswerStep, NextTurn;
    AnswerStepHistory(e, limits, s, assistant, call, stop, iteration);
    var retry := Guard(e, limits, s.messages, assistant, 0, iteration + 1, s.usage, stop).retry;
    var added := retry.replacementContext + retry.retryMessages;
    var kept := if retry.includeRejected && (assistant.text != "" || assistant.thinking != "")
                then s.messages + [assistant] else s.messages;
    NextTurnJoin(s.messages, [assistant]);
    OneMessageNextTurn(assistant);
    NoCallsNextTurn();
    NextTurnJoin(kept, added);
    assert AppendRetry(s.messages, assistant, retry) == kept + added;
  }

  /** A user message that carries a tool call of turn five. */
  const PUSH := Message(User, "", "", [ToolCall("x", "x", "", Slot(5, 0))], None, false, "")

  /** Rejects the first answer with that message. */
  function Pusher(input: GuardrailInput): Option<GuardrailResult> {
    Some(if input.iteration == 1 then RetryWith([PUSH], true, []) else Allow)
  }

  const UNBOUNDED := Limits(0, true, 0, 0, 0, 0)

  /** The state after that retry. */
  function Pushed(): LoopState {
    LoopState([ANSWER, PUSH], ONE, [Step(0, Some(CALL), [], Continue, Spent(1, 0))], 0, 1)
  }

  /** A speaker whose answer is rejected goes on with what the retry feeds back. */
  lemma SpeakerRetries(e: Engine, limits: Limits, s: LoopState, retry: GuardrailResult)
    requires e == Speaker(e.guardrails) && ReadyState(limits, s) && MayGoOn(limits, s) && retry.RetryWith?
    requires Guard(e, limits, s.messages, ANSWER, 0, |s.steps| + 1, Charged(s, ONE).usage, Complete) == Retried(retry)
    ensures var s1 := Charged(s, ONE);
            Turn(e, limits, s).next ==
              Proceed(s1.(messages := AppendRetry(s.messages, ANSWER, retry),
                          steps := s.steps + [Step(|s.steps|, Some(CALL), [], Continue, SpentNow(s1))]))
  {
    hide ValidateContinuation, Guard, Sound, Add, AppendRetry;
    SpokenValid(limits, s);
    var s1 := Charged(s, ONE);
    var next := AnswerStep(e, limits, s1, ANSWER, CALL, Complete, |s.steps|).next;
    assert next == Judged(e, limits, s1, ANSWER, Step(|s.steps|, Some(CALL), [], Finish, SpentNow(s1)), Complete, |s.steps|,
                          Retried(retry));
  }

  lemma PushedTurn(e: Engine)
    requires e == Speaker([Pusher])
    ensures Turn(e, UNBOUNDED, LoopState([], ZERO, [], 0, 0)).next == Proceed(Pushed())
    ensures ReadyState(UNBOUNDED, Pushed()) && MayGoOn(UNBOUNDED, Pushed())
  {
    hide ValidateContinuation, Guard, Turn;
    var s := LoopState([], ZERO, [], 0, 0);
    FreshReady(UNBOUNDED, [], 0);
    PusherDecides(e, UNBOUNDED, [], 1, Charged(s, ONE).usage);
    SpeakerRetries(e, UNBOUNDED, s, RetryWith([PUSH], true, []));
    assert [] + [ANSWER] + [] + [PUSH] == [ANSWER, PUSH];
    assert [] + [ANSWER] + [PUSH] == [ANSWER, PUSH];
    assert AppendRetry([], ANSWER, RetryWith([PUSH], true, [])) == [ANSWER, PUSH];
    assert Charged(s, ONE).usage == ONE;
    AnswerValid(UNBOUNDED, s, ANSWER, CALL, [PUSH], Continue, Ready);
  }

  lemma PushedNames()
    ensures NextTurn(Pushed().messages) == 6
  {
    var call := ToolCall("x", "x", "", Slot(5, 0));
    assert [call][..0] == [];
    assert CallsNextTurn([call]) == 6;
    assert [ANSWER, PUSH][..1] == [ANSWER] && [ANSWER][..0] == [];
  }

  lemma PusherDecides(e: Engine, limits: Limits, messages: seq<Message>, iteration: int, usage: Usage)
    requires e.guardrails == [Pusher] && limits.unlimitedIterations
    ensures Guard(e, limits, messages, ANSWER, 0, iteration, usage, Complete) ==
            if iteration == 1 then Retried(RetryWith([PUSH], true, [])) else Accepted(ANSWER)
  {
    assert Guard(e, limits, messages, ANSWER, 1, iteration, usage, Complete) == Accepted(ANSWER);
  }

  /** A run in which a retry does so, and the ready continuation that resumes differently. */
  lemma RetryNamesAhead() returns (e: Engine, s: LoopState, out: LoopOutput, c: Continuation)
    ensures AnswersSpeak(e) && TurnsPassed(s) && Run(e, UNBOUNDED, s, 2).end == Ended(out)
    ensures Built(c) in Run(e, UNBOUNDED, s, 2).events
    ensures forall m: nat :: Resume(e, UNBOUNDED, c, m).end != Ended(out)
  {
    hide Turn, ValidateContinuation, Guard, Sound, Add;
    e := Speaker([Pusher]);
    s := LoopState([], ZERO, [], 0, 0);
    PushedTurn(e);
    var s2 := Pushed();
    PusherDecides(e, UNBOUNDED, s2.messages, 2, Charged(s2, ONE).usage);
    SpeakerTurn(e, UNBOUNDED, s2);
    out := OutputOf(UNBOUNDED, Spoken(s2), Complete, 2, "");
    c := ContinuationOf(UNBOUNDED, s2, Ready);
    RunUnfolds(e, UNBOUNDED, s, 2);
    RunUnfolds(e, UNBOUNDED, s2, 1);
    forall m: nat ensures Resume(e, UNBOUNDED, c, m).end != Ended(out) {
      PushedResumes(e, m, out);
    }
  }

  lemma PushedResumes(e: Engine, m: nat, out: LoopOutput)
    requires e == Speaker([Pusher]) && out.nextOperationTurn == 2
    ensures Resume(e, UNBOUNDED, ContinuationOf(UNBOUNDED, Pushed(), Ready), m).end != Ended(out)
  {
    hide Turn, ValidateContinuation, Guard, Sound, Add, NextTurn;
    PushedNames();
    var entered := Pushed().(operationTurn := 6);
    assert StateOf(ContinuationOf(UNBOUNDED, Pushed(), Ready)) == Pushed();
    PusherDecides(e, UNBOUNDED, entered.messages, 2, Charged(entered, ONE).usage);
    PushedGoesOn(entered);
    SpeakerCounts(e, UNBOUNDED, entered);
    if m > 0 {
      RunUnfolds(e, UNBOUNDED, entered, m);
    }
  }

  lemma PushedGoesOn(s: LoopState)
    requires s == Pushed().(operationTurn := 6)
    ensures MayGoOn(UNBOUNDED, s)
  {
  }

  // ---- continuations that validate but cannot be resumed ----

  lemma {:induction false} StepChecked(c: Continuation, a: Analysis, n: nat, i: nat)
    requires i < n <= |c.steps| <= |a.assistants| && TotalsAfter(c, a, n).ok
    ensures c.steps[i].index == i && c.steps[i].modelCall.Some?
    decreases n
  {
    hide Add, ConsistentCounts, TracesMatch, StepCalls;
    if i < n - 1 {
      StepChecked(c, a, n - 1, i);
    }
  }

  /** Resuming a validated continuation panics in one case only: at model_complete, when the
      transcript does not end with the assistant's calls. */
  lemma PanicsIff(e: Engine, limits: Limits, c: Continuation, n: nat)
    ensures Resume(e, limits, c, n).end.Panicked? <==>
            && ValidateContinuation(c) && c.phase == ModelComplete
            && c.messages != [] && c.messages[|c.messages| - 1].toolCalls == []
  {
    hide Run, ToolStep, AnswerStep, NextTurn, LastThinking, TotalsAfter;
    if ValidateContinuation(c) {
      if c.steps != [] {
        StepChecked(c, Analyze(c.messages), |c.steps|, |c.steps| - 1);
      }
      ValidCount(c);
      NoPanic(e, limits.(repairCount := c.repairCount), c, n);
    }
  }

  lemma NoPanic(e: Engine, limits: Limits, c: Continuation, n: nat)
    ensures forall s :: !RunMessages(e, limits, s, n).end.Panicked?
    ensures forall t :: !Resumed(e, limits, t, n).end.Panicked?
  {
    hide Run, NextTurn;
    forall s: LoopState ensures !Run(e, Normalize(limits), s, n).end.Panicked? {
      RunDoesNotPanic(e, Normalize(limits), s, n);
    }
  }

  lemma {:induction false} RunDoesNotPanic(e: Engine, limits: Limits, s: LoopState, n: nat)
    ensures !Run(e, limits, s, n).end.Panicked?
    decreases n
  {
    hide Turn;
    if n > 0 && Turn(e, limits, s).next.Proceed? {
      RunDoesNotPanic(e, limits, Turn(e, limits, s).next.state, n - 1);
    }
  }

  lemma {:induction false} TotalsIgnoreRest(c: Continuation, a: Analysis, d: Continuation, b: Analysis, n: nat)
    requires n <= |c.steps| <= |a.assistants| && d.steps == c.steps && b.assistants == a.assistants
    requires d.phase == c.phase && d.nextOperationTurn == c.nextOperationTurn
    requires forall i :: 0 <= i < |c.steps| ==> StepCalls(c, a, i) == StepCalls(d, b, i)
    ensures TotalsAfter(c, a, n) == TotalsAfter(d, b, n)
  {
    hide StepOk, StepCalls;
    if n > 0 {
      TotalsIgnoreRest(c, a, d, b, n - 1);
    }
  }

  /** The first result of two or more is enough: the continuation still validates, and cannot be resumed. */
  lemma HalfAnsweredPanics(e: Engine, limits: Limits, c: Continuation, result: ToolResult, n: nat)
    requires ValidateContinuation(c) && c.phase == ModelComplete
    requires var a := Analyze(c.messages);
             a.answered == 0 && |a.pending| >= 2 && result.callId == a.pending[0].id
    ensures var half := c.(messages := c.messages + [ResultMessage(result)]);
            ValidateContinuation(half) && Resume(e, limits, half, n).end.Panicked?
  {
    hide Analyze, TotalsAfter, Resume;
    var half := c.(messages := c.messages + [ResultMessage(result)]);
    var a, b := Analyze(c.messages), Analyze(half.messages);
    AnalyzePush(c.messages, ResultMessage(result));
    AssistantsInside(c.messages);
    TotalsIgnoreRest(c, a, half, b, |c.steps|);
    PanicsIff(e, limits, half, n);
  }

  const FIRST := ToolCall("a", "f", "", Slot(0, 0))
  const SECOND := ToolCall("b", "f", "", Slot(0, 1))
  const CALLS := Message(Assistant, "", "", [FIRST, SECOND], None, false, "")
  const RESULT := ToolResult("a", "f", "", "", false)

  /** Two calls, one result: the continuation of a run that was interrupted between them. */
  const HALF := Continuation([CALLS, ResultMessage(RESULT)], ONE, [Step(0, Some(CALL), [], Continue, Spent(1, 0))], 0, 0, 1,
                             ModelComplete)

  lemma CallsFacts()
    ensures Analyze([]) == START && NamedCalls(CALLS.toolCalls) && Sound(ONE)
    ensures Charged(LoopState([], ZERO, [], 0, 0), ONE) == LoopState([], ONE, [], 0, 1)
  {
  }

  /** A validated continuation that panics when resumed. */
  lemma HalfPanics(e: Engine, limits: Limits, n: nat)
    ensures ValidateContinuation(HALF) && Resume(e, limits, HALF, n).end.Panicked?
  {
    hide ValidateContinuation, Resume, Analyze, TotalsAfter, Sound, NamedCalls, Add;
    CallsFacts();
    var s := LoopState([], ZERO, [], 0, 0);
    FreshReady(UNBOUNDED, [], 0);
    NamedAlready(CALLS);
    OpenValid(UNBOUNDED, s, CALLS, CALL);
    var o := OpenStep(Charged(s, ONE), Named(CALLS, 0), CALL, 0);
    assert [] + [CALLS] == [CALLS];
    assert o == LoopState([CALLS], ONE, [Step(0, Some(CALL), [], Continue, Spent(1, 0))], 0, 1);
    AnalyzeOpens([], CALLS, 0);
    var c := ContinuationOf(UNBOUNDED, o, ModelComplete);
    assert [CALLS] + [ResultMessage(RESULT)] == [CALLS, ResultMessage(RESULT)];
    assert c.(messages := c.messages + [ResultMessage(RESULT)]) == HALF;
    HalfAnsweredPanics(e, limits, c, RESULT, n);
  }

  lemma NamedAlready(m: Message)
    requires m == CALLS
    ensures Named(m, 0) == m
  {
    assert Named(m, 0).toolCalls == [FIRST, SECOND];
  }
}
