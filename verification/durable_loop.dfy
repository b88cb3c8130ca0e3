/** The loop on a durable backend: every tool call that the loop dispatches, before and after
    its crashes, goes through the record as an effect of the operation it names. */
module DurableLoop {
  import opened Text
  import opened Messages
  import opened TokenUsage
  import opened LoopTypes
  import opened LoopContinuation
  import opened LoopSpec
  import opened LoopResume
  import opened LoopCrashes
  import opened LoopLedger
  import D = DurableTypes
  import S = DurableSpec
  import I = DurableInvariant
  import R = DurableRuns
  import P = DurableReplays
  import F = DurableEffects

  // ---- what a run dispatches is in its history ----

  lemma TurnKeepsMessages(e: Engine, limits: Limits, s: LoopState)
    requires !Turn(e, limits, s).next.Failed?
    ensures s.messages <= MessagesOf(Turn(e, limits, s).next)
  {
    hide Turn, AnswerStep, ToolStep, Named, ResultMessages;
    if IterationAllowed(limits, |s.steps|) {
      var reply := e.model(s.messages, s.operationTurn);
      SameView(Turn(e, limits, s), reply, s, e, limits);
      AnsweredKeepsMessages(e, limits, s, reply);
    } else {
      StoppedKeepsMessages(e, limits, s);
    }
  }

  lemma StoppedKeepsMessages(e: Engine, limits: Limits, s: LoopState)
    requires !IterationAllowed(limits, |s.steps|)
    ensures MessagesOf(Turn(e, limits, s).next) == s.messages
  {
  }

  lemma AnsweredKeepsMessages(e: Engine, limits: Limits, s: LoopState, reply: Reply)
    requires !Answered(e, limits, s, reply).next.Failed?
    ensures s.messages <= MessagesOf(Answered(e, limits, s, reply).next)
  {
    hide AnswerStep, ToolStep, Named, ResultMessages, MessagesOf;
    var s1 := s.(operationTurn := s.operationTurn + 1, usage := Add(s.usage, reply.usage));
    var call := ModelCall(reply.model, reply.usage, reply.stopReason);
    if reply.toolCalls == [] {
      AnswerStepLedger(e, limits, s1, AssistantOf(reply), call, reply.stopReason, |s.steps|);
    } else {
      ToolStepLedger(e, limits, s1, AssistantOf(reply), call, |s.steps|, s.operationTurn);
    }
  }

  lemma {:induction false} RunKeepsMessages(e: Engine, limits: Limits, s: LoopState, n: nat)
    requires Run(e, limits, s, n).end.Ended?
    ensures s.messages <= Run(e, limits, s, n).end.output.messages
    decreases n
  {
    hide Turn, Run;
    SomeTurn(e, limits, s, n);
    RunUnfolds(e, limits, s, n);
    TurnKeepsMessages(e, limits, s);
    if Turn(e, limits, s).next.Proceed? {
      RunKeepsMessages(e, limits, Turn(e, limits, s).next.state, n - 1);
    }
  }

  /** The call is in the history, and names its own slot. */
  ghost predicate InHistory(messages: seq<Message>, x: ToolCall) {
    && NamesSlot(x) && x.operation.call >= 0
    && exists i, k :: 0 <= i < |messages| && 0 <= k < |messages[i].toolCalls| && messages[i].toolCalls[k] == x
  }

  ghost predicate Dispatches(event: Event, x: ToolCall) {
    event.Dispatched? && x in event.calls
  }

  lemma HistoryGrows(before: seq<Message>, after: seq<Message>, x: ToolCall)
    requires InHistory(before, x) && before <= after
    ensures InHistory(after, x)
  {
    var i, k :| 0 <= i < |before| && 0 <= k < |before[i].toolCalls| && before[i].toolCalls[k] == x;
    assert after[i] == before[i];
    assert after[i].toolCalls[k] == x;
  }

  lemma NamedInHistory(messages: seq<Message>, reply: Message, turn: int, rest: seq<Message>, x: ToolCall)
    requires turn >= 0 && x in Named(reply, turn).toolCalls
    ensures InHistory(messages + [Named(reply, turn)] + rest, x)
  {
    var all := messages + [Named(reply, turn)] + rest;
    var k :| 0 <= k < |Named(reply, turn).toolCalls| && Named(reply, turn).toolCalls[k] == x;
    assert all[|messages|] == Named(reply, turn);
    assert all[|messages|].toolCalls[k] == x;
  }

  lemma ToolStepDispatches(e: Engine, limits: Limits, s: LoopState, reply: Message, call: ModelCall, iteration: int, turn: int,
                           event: Event, x: ToolCall)
    requires event in ToolStep(e, limits, s, reply, call, iteration, turn).events && Dispatches(event, x)
    ensures x in Named(reply, turn).toolCalls
  {
    hide ValidateContinuation, DispatchBlocked, FinalStep, Named;
  }

  lemma AnswerStepDispatches(e: Engine, limits: Limits, s: LoopState, assistant: Message, call: ModelCall,
                             stop: StopReason, iteration: int, event: Event)
    requires event in AnswerStep(e, limits, s, assistant, call, stop, iteration).events
    ensures event.Built?
  {
    hide ValidateContinuation, Guard;
  }

  lemma TurnDispatches(e: Engine, limits: Limits, s: LoopState, event: Event, x: ToolCall)
    requires TurnsPassed(s) && !Turn(e, limits, s).next.Failed?
    requires event in Turn(e, limits, s).events && Dispatches(event, x)
    ensures InHistory(MessagesOf(Turn(e, limits, s).next), x)
  {
    hide Turn, AnswerStep, ToolStep, Named, ResultMessages, InHistory, Add;
    TurnHalves(e, limits, s, event);
    var reply := e.model(s.messages, s.operationTurn);
    var s1 := s.(operationTurn := s.operationTurn + 1, usage := Add(s.usage, reply.usage));
    var call := ModelCall(reply.model, reply.usage, reply.stopReason);
    if reply.toolCalls == [] {
      if event in AnswerStep(e, limits, s1, AssistantOf(reply), call, reply.stopReason, |s.steps|).events {
        AnswerStepDispatches(e, limits, s1, AssistantOf(reply), call, reply.stopReason, |s.steps|, event);
      }
    } else {
      ToolStepLedger(e, limits, s1, AssistantOf(reply), call, |s.steps|, s.operationTurn);
      ToolStepDispatches(e, limits, s1, AssistantOf(reply), call, |s.steps|, s.operationTurn, event, x);
      var batch := e.dispatch(Named(AssistantOf(reply), s.operationTurn).toolCalls, limits.maxTokens, s1.usage);
      NamedInHistory(s.messages, AssistantOf(reply), s.operationTurn, ResultMessages(batch.results), x);
    }
  }

  /** Every call that a run dispatches is in the history it ends with. */
  lemma {:induction false} DispatchedInHistory(e: Engine, limits: Limits, s: LoopState, n: nat, out: LoopOutput,
                                               event: Event, x: ToolCall)
    requires Passing(e, limits, s, n) && Run(e, limits, s, n).end == Ended(out)
    requires event in Run(e, limits, s, n).events && Dispatches(event, x)
    ensures InHistory(out.messages, x)
    decreases n
  {
    hide Turn, InHistory, TurnsPassed;
    RunSplits(e, limits, s, n, out);
    SomeTurn(e, limits, s, n);
    if event in Turn(e, limits, s).events {
      TurnDispatches(e, limits, s, event, x);
      if Turn(e, limits, s).next.Proceed? {
        RunKeepsMessages(e, limits, Turn(e, limits, s).next.state, n - 1);
        HistoryGrows(Turn(e, limits, s).next.state.messages, out.messages, x);
      }
    } else {
      DispatchedInHistory(e, limits, Turn(e, limits, s).next.state, n - 1, out, event, x);
    }
  }

  // ---- crashes ----

  /** The call was dispatched in the run or after one of the resumptions that followed its crashes. */
  ghost predicate Issued(e: Engine, limits: Limits, s: LoopState, n: nat, c: Continuation, later: seq<Continuation>, x: ToolCall) {
    || (exists event :: event in Run(e, limits, s, n).events && Dispatches(event, x))
    || (exists i: nat, k: nat, event ::
          i <= |later| && event in Resume(e, limits, ([c] + later)[i], k).events && Dispatches(event, x))
  }

  /** Whatever crashes it took, each dispatched call is one of the uninterrupted run's history. */
  lemma IssuedInHistory(e: Engine, limits: Limits, s: LoopState, n: nat, out: LoopOutput, c: Continuation,
                        later: seq<Continuation>, x: ToolCall)
    requires ExplicitLimit(limits) && RetriesNameNothing(e) && TurnsPassed(s) && AllSpeak(e, limits, s, n, c, later)
    requires Run(e, limits, s, n).end == Ended(out) && Built(c) in Run(e, limits, s, n).events
    requires CrashHistory(e, limits, c, later) && Issued(e, limits, s, n, c, later, x)
    ensures InHistory(out.messages, x)
  {
    hide Run, Resume, Passing, InHistory, TurnsPassed, CrashHistory, Dispatches, AllSpeak, RetriesNameNothing;
    NothingNamedPasses(e, limits, s, n);
    if event :| event in Run(e, limits, s, n).events && Dispatches(event, x) {
      DispatchedInHistory(e, limits, s, n, out, event, x);
    } else {
      var i: nat, k: nat, event :|
        i <= |later| && event in Resume(e, limits, ([c] + later)[i], k).events && Dispatches(event, x);
      CrashesRetrace(e, limits, s, n, out, c, later, i, k, event);
      DispatchedInHistory(e, limits, s, n, out, event, x);
    }
  }

  lemma SameSlotSameCall(messages: seq<Message>, x: ToolCall, y: ToolCall)
    requires UniqueSlots(messages) && InHistory(messages, x) && InHistory(messages, y)
    requires F.OperationText(x.operation) == F.OperationText(y.operation)
    ensures x == y
  {
    F.NamesDiffer(x.operation.turn, x.operation.call, y.operation.turn, y.operation.call);
    var i, k :| 0 <= i < |messages| && 0 <= k < |messages[i].toolCalls| && messages[i].toolCalls[k] == x;
    var j, l :| 0 <= j < |messages| && 0 <= l < |messages[j].toolCalls| && messages[j].toolCalls[l] == y;
    assert messages[i].toolCalls[k].operation == messages[j].toolCalls[l].operation;
  }

  /** Through all crashes and resumptions an operation name stands for one tool call: the same
      id, name and arguments. */
  lemma OneCallPerOperation(e: Engine, limits: Limits, s: LoopState, n: nat, out: LoopOutput, c: Continuation,
                            later: seq<Continuation>, x: ToolCall, y: ToolCall)
    requires ExplicitLimit(limits) && RetriesNameNothing(e) && TurnsPassed(s) && UniqueSlots(s.messages)
    requires AllSpeak(e, limits, s, n, c, later)
    requires Run(e, limits, s, n).end == Ended(out) && Built(c) in Run(e, limits, s, n).events
    requires CrashHistory(e, limits, c, later)
    requires Issued(e, limits, s, n, c, later, x) && Issued(e, limits, s, n, c, later, y)
    requires F.OperationText(x.operation) == F.OperationText(y.operation)
    ensures x == y
  {
    hide Run, UniqueSlots, InHistory, Issued, CrashHistory, TurnsPassed, AllSpeak, RetriesNameNothing;
    OperationsUnique(e, limits, s, n);
    IssuedInHistory(e, limits, s, n, out, c, later, x);
    IssuedInHistory(e, limits, s, n, out, c, later, y);
    SameSlotSameCall(out.messages, x, y);
  }

  // ---- the loop's effects on the record ----

  /** The loop as far as its effects go: a run that would end well, interrupted by crashes and
      resumed from continuations that hold no empty answer. */
  ghost predicate Crashed(e: Engine, limits: Limits, s: LoopState, n: nat, c: Continuation, later: seq<Continuation>) {
    && ExplicitLimit(limits) && RetriesNameNothing(e) && TurnsPassed(s) && UniqueSlots(s.messages)
    && Run(e, limits, s, n).end.Ended? && Built(c) in Run(e, limits, s, n).events
    && CrashHistory(e, limits, c, later) && AllSpeak(e, limits, s, n, c, later)
  }

  /** The start of a model call. */
  ghost predicate StartsModel(command: D.Command) {
    && command.StartAttempt? && command.attempt.kind == D.Model
    && exists turn: nat :: command.attempt.operationId == F.ModelName(turn)
  }

  /** The operations started on the record are the loop's: each start is that of a model call,
      or of one of these effects, and the effects are of calls that the loop issued. */
  ghost predicate LoopEffects(e: Engine, limits: Limits, s: LoopState, n: nat, c: Continuation, later: seq<Continuation>,
                              ec: F.EffectCodec, id: D.ExecutionId, calls: seq<R.Call>, effects: seq<F.Effect>)
  {
    && (forall i :: 0 <= i < |effects| ==> F.IsEffect(ec, id, calls, effects[i]) && Issued(e, limits, s, n, c, later, effects[i].x))
    && (forall k :: 0 <= k < |calls| && calls[k].command.StartAttempt? && calls[k].command.attempt.id == id ==>
          StartsModel(calls[k].command) || exists i :: 0 <= i < |effects| && effects[i].start == k)
  }

  /** Effects of one operation are effects of one call. */
  lemma SameEffectCall(e: Engine, limits: Limits, s: LoopState, n: nat, c: Continuation, later: seq<Continuation>,
                       ec: F.EffectCodec, id: D.ExecutionId, calls: seq<R.Call>, effects: seq<F.Effect>, i: nat, j: nat)
    requires Crashed(e, limits, s, n, c, later) && LoopEffects(e, limits, s, n, c, later, ec, id, calls, effects)
    requires i < |effects| && j < |effects|
    ensures F.OperationText(effects[i].x.operation) == F.OperationText(effects[j].x.operation) <==> effects[i].x == effects[j].x
  {
    hide Run, UniqueSlots, Issued, CrashHistory, TurnsPassed, AllSpeak, RetriesNameNothing;
    if F.OperationText(effects[i].x.operation) == F.OperationText(effects[j].x.operation) {
      OneCallPerOperation(e, limits, s, n, Run(e, limits, s, n).end.output, c, later, effects[i].x, effects[j].x);
    }
  }

  /** A tool call's operation is named like a tool call's. */
  lemma IssuedName(e: Engine, limits: Limits, s: LoopState, n: nat, c: Continuation, later: seq<Continuation>, x: ToolCall, turn: nat)
    requires Crashed(e, limits, s, n, c, later) && Issued(e, limits, s, n, c, later, x)
    ensures F.OperationText(x.operation) != F.ModelName(turn)
  {
    hide Run, UniqueSlots, Issued, CrashHistory, TurnsPassed, AllSpeak, RetriesNameNothing;
    IssuedInHistory(e, limits, s, n, Run(e, limits, s, n).end.output, c, later, x);
    F.NamesDiffer(x.operation.turn, x.operation.call, turn, 0);
  }

  /** The record never refuses one of the loop's effects because its input differs from an
      earlier one of its operation: through all crashes the operation is asked for with one
      name, one set of arguments and so one hash. */
  lemma NoInputConflict(e: Engine, limits: Limits, s: LoopState, n: nat, c: Continuation, later: seq<Continuation>,
                        ec: F.EffectCodec, codec: D.Codec, id: D.ExecutionId, stores: seq<S.Store>, calls: seq<R.Call>,
                        effects: seq<F.Effect>, i: nat)
    requires Crashed(e, limits, s, n, c, later) && LoopEffects(e, limits, s, n, c, later, ec, id, calls, effects)
    requires R.IsRun(codec, stores, calls) && i < |effects|
    ensures effects[i].start < |calls|
    ensures var answer := calls[effects[i].start].answer;
            answer.Rejected? ==> answer.error.kind != D.Conflict
  {
    hide Crashed, LoopEffects, F.OperationText, F.IsEffect, Issued, R.IsRun;
    EffectsAre(e, limits, s, n, c, later, ec, id, calls, effects, i);
    var f := effects[i];
    StartOf(ec, id, calls, f);
    var op := F.OperationText(f.x.operation);
    if calls[f.start].answer.Rejected? && calls[f.start].answer.error.kind == D.Conflict {
      var m := ConflictShows(codec, stores, calls, f.start);
      var k := P.AttemptOrigin(codec, stores, calls, f.start, id, op, m);
      OriginInput(e, limits, s, n, c, later, ec, id, calls, effects, i, k);
    }
  }

  lemma StartOf(ec: F.EffectCodec, id: D.ExecutionId, calls: seq<R.Call>, f: F.Effect)
    requires F.IsEffect(ec, id, calls, f)
    ensures f.start < |calls| && calls[f.start].command.StartAttempt? && calls[f.start].command.attempt.id == id
    ensures calls[f.start].command.attempt.operationId == F.OperationText(f.x.operation)
  {
  }

  lemma EffectsAre(e: Engine, limits: Limits, s: LoopState, n: nat, c: Continuation, later: seq<Continuation>,
                   ec: F.EffectCodec, id: D.ExecutionId, calls: seq<R.Call>, effects: seq<F.Effect>, i: nat)
    requires LoopEffects(e, limits, s, n, c, later, ec, id, calls, effects) && i < |effects|
    ensures F.IsEffect(ec, id, calls, effects[i]) && Issued(e, limits, s, n, c, later, effects[i].x)
  {
    hide Issued;
  }

  /** The record refuses a start for its input only if the last attempt has another one. */
  lemma ConflictShows(codec: D.Codec, stores: seq<S.Store>, calls: seq<R.Call>, i: nat) returns (m: nat)
    requires R.IsRun(codec, stores, calls) && i < |calls|
    requires calls[i].command.StartAttempt? && calls[i].answer.Rejected? && calls[i].answer.error.kind == D.Conflict
    ensures i < |stores|
    ensures var r := calls[i].command.attempt;
            && R.HasAttempt(stores[i], r.id, r.operationId, m)
            && var a := R.AttemptAt(stores[i], r.id, r.operationId, m);
            a.kind != r.kind || a.inputHash != r.inputHash
  {
    assert R.Links(codec, stores, calls, i);
    var r := calls[i].command.attempt;
    m := |stores[i][r.id].attempts[r.operationId]| - 1;
  }

  /** An earlier start of the same operation had the same kind and hash. */
  lemma OriginInput(e: Engine, limits: Limits, s: LoopState, n: nat, c: Continuation, later: seq<Continuation>,
                    ec: F.EffectCodec, id: D.ExecutionId, calls: seq<R.Call>, effects: seq<F.Effect>, i: nat, k: nat)
    requires Crashed(e, limits, s, n, c, later) && LoopEffects(e, limits, s, n, c, later, ec, id, calls, effects)
    requires i < |effects| && k < |calls| && calls[k].command.StartAttempt? && calls[k].command.attempt.id == id
    requires calls[k].command.attempt.operationId == F.OperationText(effects[i].x.operation)
    ensures effects[i].start < |calls| && calls[effects[i].start].command.StartAttempt?
    ensures calls[k].command.attempt.kind == calls[effects[i].start].command.attempt.kind
    ensures calls[k].command.attempt.inputHash == calls[effects[i].start].command.attempt.inputHash
  {
    hide Crashed, F.OperationText, F.ModelName, Issued;
    if StartsModel(calls[k].command) {
      var turn: nat :| calls[k].command.attempt.operationId == F.ModelName(turn);
      IssuedName(e, limits, s, n, c, later, effects[i].x, turn);
    } else {
      var j :| 0 <= j < |effects| && effects[j].start == k;
      SameEffectCall(e, limits, s, n, c, later, ec, id, calls, effects, i, j);
    }
  }

  /** The loop on a durable record. Through all crashes of the loop, and over all commands,
      expiries and claims on the record, two executions of an operation's driver are for the
      same call; under different tokens a retry of the first attempt was accepted between
      them; and the second was started before the first had recorded a final outcome. */
  lemma EffectsExecuteOnce(e: Engine, limits: Limits, s: LoopState, n: nat, c: Continuation, later: seq<Continuation>,
                           ec: F.EffectCodec, codec: D.Codec, id: D.ExecutionId, stores: seq<S.Store>, calls: seq<R.Call>,
                           effects: seq<F.Effect>, i: nat, j: nat) returns (k: nat)
    requires Crashed(e, limits, s, n, c, later) && LoopEffects(e, limits, s, n, c, later, ec, id, calls, effects)
    requires F.RoundTrips(ec) && R.IsRun(codec, stores, calls) && i < |effects| && j < |effects|
    requires F.MayExecute(ec, calls, effects[i]) && F.MayExecute(ec, calls, effects[j]) && effects[i].start < effects[j].start
    requires F.OperationText(effects[i].x.operation) == F.OperationText(effects[j].x.operation)
    ensures effects[i].x == effects[j].x
    ensures effects[i].lease.token != effects[j].lease.token ==>
              && effects[i].start < k < effects[j].start
              && R.DecidesRetry(stores[k], calls[k], id, F.OperationText(effects[i].x.operation),
                                F.React(ec, calls[effects[i].start].answer).attempt.number)
    ensures F.Finished(ec, calls, effects[i]) ==> effects[j].start < effects[i].settle.value
  {
    hide Crashed, LoopEffects, Issued, R.IsRun, R.DecidesRetry, F.OperationText, F.RoundTrips, F.IsEffect, F.MayExecute, F.Finished;
    EffectsAre(e, limits, s, n, c, later, ec, id, calls, effects, i);
    EffectsAre(e, limits, s, n, c, later, ec, id, calls, effects, j);
    SameEffectCall(e, limits, s, n, c, later, ec, id, calls, effects, i, j);
    var f, g := effects[i], effects[j];
    k := 0;
    if f.lease.token != g.lease.token {
      k := F.RetryBetween(codec, stores, calls, ec, id, f, g);
    }
    if F.Finished(ec, calls, f) {
      F.ExecutedBefore(codec, stores, calls, ec, id, f, g);
    }
  }

  /** These effects carried out the calls of one batch, call by call. */
  ghost predicate CarriesOut(effects: seq<F.Effect>, batch: seq<ToolCall>, who: seq<nat>) {
    |who| == |batch| && forall i :: 0 <= i < |who| ==> who[i] < |effects| && effects[who[i]].x == batch[i]
  }

  /** A resumed loop sees the batch that was recorded: once the effects of a batch have
      finished, dispatching its calls again, under whatever token, runs no driver and returns
      for each call the outcome of its first execution. */
  lemma BatchReplays(e: Engine, limits: Limits, s: LoopState, n: nat, c: Continuation, later: seq<Continuation>,
                     ec: F.EffectCodec, codec: D.Codec, id: D.ExecutionId, stores: seq<S.Store>, calls: seq<R.Call>,
                     effects: seq<F.Effect>, batch: seq<ToolCall>, first: seq<nat>, again: seq<nat>)
    requires LoopEffects(e, limits, s, n, c, later, ec, id, calls, effects)
    requires F.RoundTrips(ec) && R.IsRun(codec, stores, calls)
    requires CarriesOut(effects, batch, first) && CarriesOut(effects, batch, again)
    requires forall i :: 0 <= i < |batch| ==> F.After(ec, calls, effects[first[i]], effects[again[i]])
    ensures forall i :: 0 <= i < |batch| ==> F.GivesAgain(ec, calls, effects[first[i]], effects[again[i]])
  {
    hide LoopEffects, F.OperationText, R.IsRun, F.RoundTrips, F.After, F.GivesAgain, F.IsEffect, Issued;
    forall i | 0 <= i < |batch| ensures F.GivesAgain(ec, calls, effects[first[i]], effects[again[i]]) {
      EffectsAre(e, limits, s, n, c, later, ec, id, calls, effects, first[i]);
      EffectsAre(e, limits, s, n, c, later, ec, id, calls, effects, again[i]);
      F.FinishedReplays(codec, stores, calls, ec, id, effects[first[i]], effects[again[i]]);
    }
  }
}
