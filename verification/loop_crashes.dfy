/** Any number of crashes and resumptions: what resumed runs do, and how the last one ends. */
module LoopCrashes {
  import opened Text
  import opened Messages
  import opened TokenUsage
  import opened LoopTypes
  import opened LoopContinuation
  import opened LoopSpec
  import opened LoopResume

  // ---- more turns show more of the same run ----

  lemma {:induction false} RunGrows(e: Engine, limits: Limits, s: LoopState, n: nat, m: nat)
    requires n <= m
    ensures forall event :: event in Run(e, limits, s, n).events ==> event in Run(e, limits, s, m).events
    ensures !Run(e, limits, s, n).end.Unfinished? ==> Run(e, limits, s, m) == Run(e, limits, s, n)
    decreases n
  {
    hide Turn;
    if n > 0 {
      var t := Turn(e, limits, s);
      if t.next.Proceed? {
        RunGrows(e, limits, t.next.state, n - 1, m - 1);
      }
    }
  }

  // ---- a continuation handed out by a resumed run ----

  /** A resumed run only does what the original run does from there on: it builds the same
      continuations and dispatches the same batches. */
  lemma {:induction false} ResumeRetraces(
    e: Engine, limits: Limits, s: LoopState, n: nat, out: LoopOutput, c: Continuation, k: nat, event: Event)
    requires ExplicitLimit(limits) && Passing(e, limits, s, n) && Speaks(e, limits, s, n, c)
    requires Run(e, limits, s, n).end == Ended(out) && Built(c) in Run(e, limits, s, n).events
    requires event in Resume(e, limits, c, k).events
    ensures event in Run(e, limits, s, n).events
    decreases n
  {
    hide Turn, Resume, NextTurn, Passing;
    RunSplits(e, limits, s, n, out);
    if Built(c) in Turn(e, limits, s).events {
      TurnRetraces(e, limits, s, n, out, c, k, event);
    } else {
      ResumeRetraces(e, limits, Turn(e, limits, s).next.state, n - 1, out, c, k, event);
    }
  }

  lemma TurnRetraces(e: Engine, limits: Limits, s: LoopState, n: nat, out: LoopOutput, c: Continuation, k: nat, event: Event)
    requires ExplicitLimit(limits) && Passing(e, limits, s, n) && Speaks(e, limits, s, n, c)
    requires n > 0 && Run(e, limits, s, n).end == Ended(out) && Built(c) in Turn(e, limits, s).events
    requires event in Resume(e, limits, c, k).events
    ensures event in Run(e, limits, s, n).events
  {
    hide Turn, Resume, NextTurn, Answered;
    RunSplits(e, limits, s, n, out);
    TurnHalves(e, limits, s, Built(c));
    var reply := e.model(s.messages, s.operationTurn);
    if Built(c) in BoundaryEvents(e, limits, s, Ready) {
      ReadyRetraces(e, limits, s, n, k);
    } else {
      AnsweredRetraces(e, limits, s, reply, n, out, c, k, event);
      TurnIncludes(e, limits, s);
    }
  }

  lemma TurnIncludes(e: Engine, limits: Limits, s: LoopState)
    requires !Turn(e, limits, s).next.Failed? && Turn(e, limits, s).events != []
    ensures var reply := e.model(s.messages, s.operationTurn);
            forall event :: event in Answered(e, limits, s, reply).events ==> event in Turn(e, limits, s).events
  {
    hide AnswerStep, ToolStep, ValidateContinuation, FailedTurn;
  }

  lemma ReadyRetraces(e: Engine, limits: Limits, s: LoopState, n: nat, k: nat)
    requires ExplicitLimit(limits) && TurnsPassed(s) && Run(e, limits, s, n).end.Ended?
    ensures forall event :: event in Resume(e, limits, ContinuationOf(limits, s, Ready), k).events ==>
              event in Run(e, limits, s, n).events
  {
    hide Run, ValidateContinuation;
    assert StateOf(ContinuationOf(limits, s, Ready)) == s;
    EnterAgain(s);
    if k <= n {
      RunGrows(e, limits, s, k, n);
    } else {
      RunGrows(e, limits, s, n, k);
    }
  }

  /** What a resumed half-turn and the loop after it build. */
  lemma ResumedRetraces(e: Engine, limits: Limits, t: TurnResult, n: nat, out: LoopOutput, k: nat, event: Event)
    requires ExplicitLimit(limits) && Ends(e, limits, t, n, out)
    requires event in Resumed(e, limits, t, k).events
    ensures event in t.events || (t.next.Proceed? && event in Run(e, limits, t.next.state, n).events)
  {
    hide Run;
    if t.next.Proceed? {
      EnterAgain(t.next.state);
      if k <= n {
        RunGrows(e, limits, t.next.state, k, n);
      } else {
        RunGrows(e, limits, t.next.state, n, k);
      }
    }
  }

  lemma AnsweredRetraces(e: Engine, limits: Limits, s: LoopState, reply: Reply, n: nat, out: LoopOutput,
                         c: Continuation, k: nat, event: Event)
    requires ExplicitLimit(limits) && (c.phase == ValidatingOutput ==> Says(reply))
    requires n > 0 && Ends(e, limits, Answered(e, limits, s, reply), n - 1, out)
    requires Built(c) in Answered(e, limits, s, reply).events
    requires event in Resume(e, limits, c, k).events
    ensures var t := Answered(e, limits, s, reply);
            event in t.events || (t.next.Proceed? && event in Run(e, limits, t.next.state, n - 1).events)
  {
    hide AnswerStep, ToolStep, Resume, Run, ValidateContinuation;
    var s1 := s.(operationTurn := s.operationTurn + 1, usage := Add(s.usage, reply.usage));
    var call := ModelCall(reply.model, reply.usage, reply.stopReason);
    if reply.toolCalls == [] {
      AnswerRetraces(e, limits, s1, AssistantOf(reply), call, |s.steps|, n - 1, out, c, k, event);
    } else {
      ToolsRetrace(e, limits, s1, AssistantOf(reply), call, s.operationTurn, n - 1, out, c, k, event);
    }
  }

  lemma AnswerRetraces(e: Engine, limits: Limits, s: LoopState, assistant: Message, call: ModelCall,
                       iteration: int, n: nat, out: LoopOutput, c: Continuation, k: nat, event: Event)
    requires ExplicitLimit(limits) && (c.phase == ValidatingOutput ==> assistant.text != "" || assistant.thinking != "")
    requires var t := AnswerStep(e, limits, s, assistant, call, call.stopReason, iteration);
             Ends(e, limits, t, n, out) && Built(c) in t.events
    requires event in Resume(e, limits, c, k).events
    ensures var t := AnswerStep(e, limits, s, assistant, call, call.stopReason, iteration);
            event in t.events || (t.next.Proceed? && event in Run(e, limits, t.next.state, n).events)
  {
    hide Run, ValidateContinuation, Guard, Resumed;
    var t := AnswerStep(e, limits, s, assistant, call, call.stopReason, iteration);
    assert Popped(c) == s;
    assert event in Resumed(e, limits, t, k).events;
    ResumedRetraces(e, limits, t, n, out, k, event);
  }

  lemma ToolsRetrace(e: Engine, limits: Limits, s: LoopState, reply: Message, call: ModelCall,
                     turn: int, n: nat, out: LoopOutput, c: Continuation, k: nat, event: Event)
    requires ExplicitLimit(limits) && reply.role == Assistant && reply.toolCalls != []
    requires var t := ToolStep(e, limits, s, reply, call, |s.steps|, turn);
             Ends(e, limits, t, n, out) && Built(c) in t.events
    requires event in Resume(e, limits, c, k).events
    ensures var t := ToolStep(e, limits, s, reply, call, |s.steps|, turn);
            event in t.events || (t.next.Proceed? && event in Run(e, limits, t.next.state, n).events)
  {
    hide Run, ValidateContinuation, Resumed, DispatchBlocked, FinalizeTools, AfterDispatch;
    var assistant := Named(reply, turn);
    var s1 := OpenStep(s, assistant, call, |s.steps|);
    var t := ToolStep(e, limits, s, reply, call, |s.steps|, turn);
    if c == ContinuationOf(limits, s1, ModelComplete) {
      assert Popped(c) == s;
      NamedTwice(reply, turn);
      assert event in Resumed(e, limits, t, k).events;
      ResumedRetraces(e, limits, t, n, out, k, event);
    } else {
      var batch := e.dispatch(assistant.toolCalls, limits.maxTokens, s1.usage);
      var s2 := AfterDispatch(s1, assistant.toolCalls, batch);
      var terminal := e.prepare(assistant.toolCalls).value;
      var f := FinalizeTools(e, limits, s2, assistant, batch.results, terminal, |s.steps|);
      assert Built(c) in f.events && t.next == f.next;
      ToolsCompleteRetraces(e, limits, s2, assistant, batch.results, terminal, n, out, c, k, event);
    }
  }

  lemma ToolsCompleteRetraces(e: Engine, limits: Limits, s: LoopState, assistant: Message, results: seq<ToolResult>,
                              terminal: bool, n: nat, out: LoopOutput, c: Continuation, k: nat, event: Event)
    requires ExplicitLimit(limits) && s.steps != []
    requires var f := FinalizeTools(e, limits, s, assistant, results, terminal, |s.steps| - 1);
             Ends(e, limits, f, n, out) && Built(c) in f.events
    requires event in Resume(e, limits, c, k).events
    ensures var f := FinalizeTools(e, limits, s, assistant, results, terminal, |s.steps| - 1);
            f.next.Proceed? && event in Run(e, limits, f.next.state, n).events
  {
    hide Run, ValidateContinuation;
    var step := FinalStep(e, s, assistant.toolCalls, results, terminal);
    var s' := s.(steps := SetLast(s.steps, step));
    assert Last(c.steps) == step && StateOf(c) == s';
    if step.decision == Continue {
      EnterAgain(s');
      if k <= n {
        RunGrows(e, limits, s', k, n);
      } else {
        RunGrows(e, limits, s', n, k);
      }
    }
  }

  /** A history of crashes: each continuation was handed out after resuming from the one before it. */
  ghost predicate CrashHistory(e: Engine, limits: Limits, c: Continuation, later: seq<Continuation>)
    decreases later
  {
    later == [] ||
    (&& (exists k: nat :: Built(later[0]) in Resume(e, limits, c, k).events)
     && CrashHistory(e, limits, later[0], later[1..]))
  }

  /** No continuation that the history of crashes resumes from holds an empty answer. */
  ghost predicate AllSpeak(e: Engine, limits: Limits, s: LoopState, n: nat, c: Continuation, later: seq<Continuation>) {
    Speaks(e, limits, s, n, c) && forall i :: 0 <= i < |later| ==> Speaks(e, limits, s, n, later[i])
  }

  /** However often the run crashes and is resumed, the last resumption ends as the
      uninterrupted run would have. */
  lemma {:induction false} PassingCrashes(e: Engine, limits: Limits, s: LoopState, n: nat, out: LoopOutput,
                                          c: Continuation, later: seq<Continuation>) returns (m: nat)
    requires ExplicitLimit(limits) && Passing(e, limits, s, n) && AllSpeak(e, limits, s, n, c, later)
    requires Run(e, limits, s, n).end == Ended(out) && Built(c) in Run(e, limits, s, n).events
    requires CrashHistory(e, limits, c, later)
    ensures Resume(e, limits, if later == [] then c else later[|later| - 1], m).end == Ended(out)
    decreases later
  {
    hide Run, Resume, NextTurn, Passing, Speaks;
    if later == [] {
      m := PassingResumes(e, limits, s, n, out, c);
    } else {
      var k: nat :| Built(later[0]) in Resume(e, limits, c, k).events;
      ResumeRetraces(e, limits, s, n, out, c, k, Built(later[0]));
      m := PassingCrashes(e, limits, s, n, out, later[0], later[1..]);
    }
  }

  lemma CrashesAreHarmless(e: Engine, limits: Limits, s: LoopState, n: nat, out: LoopOutput,
                           c: Continuation, later: seq<Continuation>) returns (m: nat)
    requires ExplicitLimit(limits) && RetriesNameNothing(e) && TurnsPassed(s) && AllSpeak(e, limits, s, n, c, later)
    requires Run(e, limits, s, n).end == Ended(out) && Built(c) in Run(e, limits, s, n).events
    requires CrashHistory(e, limits, c, later)
    ensures Resume(e, limits, if later == [] then c else later[|later| - 1], m).end == Ended(out)
  {
    hide Run, Resume, NextTurn, Passing, Speaks;
    NothingNamedPasses(e, limits, s, n);
    m := PassingCrashes(e, limits, s, n, out, c, later);
  }

  /** Whatever any resumption of a crash history does, the uninterrupted run does too. */
  lemma {:induction false} CrashesRetrace(e: Engine, limits: Limits, s: LoopState, n: nat, out: LoopOutput,
                                          c: Continuation, later: seq<Continuation>, i: nat, k: nat, event: Event)
    requires ExplicitLimit(limits) && Passing(e, limits, s, n) && AllSpeak(e, limits, s, n, c, later)
    requires Run(e, limits, s, n).end == Ended(out) && Built(c) in Run(e, limits, s, n).events
    requires CrashHistory(e, limits, c, later) && i <= |later|
    requires event in Resume(e, limits, ([c] + later)[i], k).events
    ensures event in Run(e, limits, s, n).events
    decreases later
  {
    hide Run, Resume, NextTurn, Passing, Speaks;
    if i == 0 {
      ResumeRetraces(e, limits, s, n, out, c, k, event);
    } else {
      var k': nat :| Built(later[0]) in Resume(e, limits, c, k').events;
      ResumeRetraces(e, limits, s, n, out, c, k', Built(later[0]));
      assert ([later[0]] + later[1..])[i - 1] == ([c] + later)[i];
      CrashesRetrace(e, limits, s, n, out, later[0], later[1..], i - 1, k, event);
    }
  }
}
