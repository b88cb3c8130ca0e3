/** How long starts and checkpoints are answered the same, over whole runs, and where the
    attempts of a record come from. */
module DurableReplays {
  import opened Text
  import opened DurableTypes
  import opened DurableSpec
  import opened DurableInvariant
  import opened DurableLaws
  import opened DurableRuns

  // ---- starting attempts ----

  /** The decision that an attempt's status calls for. */
  function DecisionFor(status: AttemptStatus): Decision {
    match status
    case Running => Execute
    case Unknown => Reconcile
    case _ => Replay
  }

  /** The attempt is the last one of its operation, for this kind of input. */
  ghost predicate Latest(rec: Record, r: StartAttemptRequest, a: Attempt) {
    && r.operationId in rec.attempts && rec.attempts[r.operationId] != []
    && var log := rec.attempts[r.operationId];
    && log[|log| - 1] == a && a.number == |log| && a.kind == r.kind && a.inputHash == r.inputHash
  }

  /** An accepted start answers with the last attempt, which is not abandoned, and decides by its status. */
  lemma StartAnswers(rec: Record, r: StartAttemptRequest, now: Time)
    requires Inv(r.id, rec) && StartAttemptOn(rec, r, now).1.Ok?
    ensures var (rec', out) := StartAttemptOn(rec, r, now);
            && Latest(rec', r, out.value.attempt)
            && out.value.attempt.status != Abandoned
            && out.value.decision == DecisionFor(out.value.attempt.status)
            && (out.value.attempt.status == Running ==> out.value.attempt.lease == Some(r.lease))
  {
    if r.operationId in rec.attempts {
      assert LogShape(r.id, r.operationId, rec.attempts[r.operationId], rec.execution.lease);
      NoStaleOwner(rec, r, now);
    }
  }

  /** Whoever holds the lease is answered with the last attempt of the same input, as it is,
      unless it was abandoned. */
  lemma LatestAnswers(rec: Record, r: StartAttemptRequest, now: Time, a: Attempt)
    requires HoldsLease(rec.execution, r.lease, now) && Latest(rec, r, a) && a.status != Abandoned
    requires a.status == Running ==> a.lease == Some(r.lease)
    ensures StartAttemptOn(rec, r, now) == (rec, Ok(AttemptStart(a, DecisionFor(a.status))))
  {
  }

  lemma StartRecordedAt(codec: Codec, stores: seq<Store>, calls: seq<Call>, i: nat)
    requires IsRun(codec, stores, calls) && i < |calls|
    requires calls[i].command.StartAttempt? && !calls[i].answer.Rejected?
    ensures ArgumentError(codec, calls[i].command).None?
    ensures var r := calls[i].command.attempt;
            && calls[i].answer.Decided? && r.id in stores[i + 1]
            && var a := calls[i].answer.attemptStart.attempt;
            && Latest(stores[i + 1][r.id], r, a) && a.status != Abandoned
            && calls[i].answer == Decided(AttemptStart(a, DecisionFor(a.status)))
            && (a.status == Running ==> a.lease == Some(r.lease))
            && a.number >= 1 && HasAttempt(stores[i + 1], r.id, r.operationId, a.number - 1)
            && AttemptAt(stores[i + 1], r.id, r.operationId, a.number - 1) == a
  {
    hide Inv, StartAttemptOn;
    assert Links(codec, stores, calls, i);
    RunKeeps(codec, stores, calls, i);
    StartAnswers(stores[i][calls[i].command.attempt.id], calls[i].command.attempt, calls[i].now);
  }

  /** An attempt that is not abandoned is the last of its operation. */
  lemma LiveIsLast(rec: Record, id: ExecutionId, op: OperationId, n: nat)
    requires Inv(id, rec) && op in rec.attempts && n < |rec.attempts[op]| && rec.attempts[op][n].status != Abandoned
    ensures n == |rec.attempts[op]| - 1 && rec.attempts[op][n].number == n + 1
  {
    assert LogShape(id, op, rec.attempts[op], rec.execution.lease);
  }

  /** An accepted start is answered the same for exactly as long as its caller holds the
      lease and the attempt it named stays as it was. */
  lemma StartAttemptRepeats(codec: Codec, stores: seq<Store>, calls: seq<Call>, i: nat, j: nat, now: Time)
    requires IsRun(codec, stores, calls) && i < |calls| && i < j < |stores|
    requires calls[i].command.StartAttempt? && !calls[i].answer.Rejected?
    ensures calls[i].answer.Decided?
    ensures var r, a := calls[i].command.attempt, calls[i].answer.attemptStart.attempt;
            && a.number >= 1 && HasAttempt(stores[j], r.id, r.operationId, a.number - 1)
            && (RepeatsAt(codec, stores[j], calls[i].command, now, calls[i].answer) <==>
                  && HoldsLease(stores[j][r.id].execution, r.lease, now)
                  && AttemptAt(stores[j], r.id, r.operationId, a.number - 1) == a)
  {
    hide IsRun, Inv, StartAttemptOn, HoldsLease;
    StartRecordedAt(codec, stores, calls, i);
    var r, a := calls[i].command.attempt, calls[i].answer.attemptStart.attempt;
    AttemptPersists(codec, stores, calls, i + 1, j, r.id, r.operationId, a.number - 1);
    RunKeeps(codec, stores, calls, j);
    var rec := stores[j][r.id];
    if HoldsLease(rec.execution, r.lease, now) && AttemptAt(stores[j], r.id, r.operationId, a.number - 1) == a {
      LiveIsLast(rec, r.id, r.operationId, a.number - 1);
      LatestAnswers(rec, r, now, a);
      RecordRepeats(codec, stores[j], calls[i].command, now, calls[i].answer);
    } else if RepeatsAt(codec, stores[j], calls[i].command, now, calls[i].answer) {
      StoreUnchanged(stores[j], r.id, StartAttemptOn(rec, r, now).0);
      StartHolds(rec, r, now);
      StartAnswers(rec, r, now);
    }
  }

  lemma StoreUnchanged(store: Store, id: ExecutionId, rec: Record)
    requires id in store && store[id := rec] == store
    ensures rec == store[id]
  {
    assert store[id := rec][id] == rec;
  }

  lemma StartHolds(rec: Record, r: StartAttemptRequest, now: Time)
    requires StartAttemptOn(rec, r, now).1.Ok?
    ensures HoldsLease(rec.execution, r.lease, now)
  {
  }

  /** Once an attempt is settled, its operation is replayed for ever: every later accepted
      start of it, under any token, answers with exactly that attempt, and every start by the
      holder of the lease with the same input is accepted. */
  lemma SettledReplays(codec: Codec, stores: seq<Store>, calls: seq<Call>, i: nat, j: nat,
                       id: ExecutionId, op: OperationId, n: nat)
    requires IsRun(codec, stores, calls) && i <= j < |calls| && HasAttempt(stores[i], id, op, n)
    requires AttemptAt(stores[i], id, op, n).status == Succeeded || AttemptAt(stores[i], id, op, n).status == Failed
    requires calls[j].command.StartAttempt? && calls[j].command.attempt.id == id && calls[j].command.attempt.operationId == op
    ensures var a, r := AttemptAt(stores[i], id, op, n), calls[j].command.attempt;
            && (!calls[j].answer.Rejected? ==> calls[j].answer == Decided(AttemptStart(a, Replay)))
            && (!calls[j].answer.Rejected? <==>
                  && ArgumentError(codec, calls[j].command).None? && id in stores[j]
                  && HoldsLease(stores[j][id].execution, r.lease, calls[j].now)
                  && a.kind == r.kind && a.inputHash == r.inputHash)
  {
    hide Inv, StartAttemptOn, HoldsLease, ArgumentError;
    var a, r := AttemptAt(stores[i], id, op, n), calls[j].command.attempt;
    AttemptPersists(codec, stores, calls, i, j, id, op, n);
    assert Links(codec, stores, calls, j);
    RunKeeps(codec, stores, calls, j);
    var rec := stores[j][id];
    LiveIsLast(rec, id, op, n);
    if HoldsLease(rec.execution, r.lease, calls[j].now) && a.kind == r.kind && a.inputHash == r.inputHash {
      LatestAnswers(rec, r, calls[j].now, a);
    } else {
      OtherInputRefused(rec, r, calls[j].now);
    }
  }

  lemma OtherInputRefused(rec: Record, r: StartAttemptRequest, now: Time)
    requires r.operationId in rec.attempts && rec.attempts[r.operationId] != []
    requires var latest := rec.attempts[r.operationId][|rec.attempts[r.operationId]| - 1];
             !HoldsLease(rec.execution, r.lease, now) || latest.kind != r.kind || latest.inputHash != r.inputHash
    ensures StartAttemptOn(rec, r, now).1.Err?
  {
  }

  // ---- where attempts come from ----

  /** There is an `n`-th attempt of the operation. */
  ghost predicate Has(log: map<OperationId, seq<Attempt>>, op: OperationId, n: nat) {
    op in log && n < |log[op]|
  }

  lemma StartAdds(rec: Record, r: StartAttemptRequest, now: Time, op: OperationId, n: nat)
    requires Has(StartAttemptOn(rec, r, now).0.attempts, op, n) && !Has(rec.attempts, op, n)
    ensures r.operationId == op && StartAttemptOn(rec, r, now).1.Ok?
    ensures var a := StartAttemptOn(rec, r, now).0.attempts[op][n]; a.kind == r.kind && a.inputHash == r.inputHash
  {
  }

  lemma SettleAddsNothing(rec: Record, r: SettleAttemptRequest, now: Time, op: OperationId, n: nat)
    ensures Has(FinishAttemptOn(rec, r, now).0.attempts, op, n) == Has(rec.attempts, op, n)
    ensures Has(MarkUnknownOn(rec, r, now).0.attempts, op, n) == Has(rec.attempts, op, n)
  {
    hide HoldsLease;
  }

  lemma ReconcileAddsNothing(rec: Record, r: ReconcileAttemptRequest, now: Time, op: OperationId, n: nat)
    ensures Has(ReconcileOn(rec, r, now).0.attempts, op, n) == Has(rec.attempts, op, n)
  {
    hide LeaseActive, ReconcileExact, Resolve;
  }

  lemma LapseAddsNothing(log: map<OperationId, seq<Attempt>>, token: nat, op: OperationId, n: nat)
    ensures Has(LapseAll(log, token), op, n) == Has(log, op, n)
  {
  }

  /** Only a start adds an attempt, and with its own kind and input. */
  lemma AddedByStart(rec: Record, command: Command, now: Time, op: OperationId, n: nat)
    requires Has(On(rec, command, now).0.attempts, op, n) && !Has(rec.attempts, op, n)
    ensures command.StartAttempt? && command.attempt.operationId == op && !On(rec, command, now).1.Rejected?
    ensures var a := On(rec, command, now).0.attempts[op][n]; a.kind == command.attempt.kind && a.inputHash == command.attempt.inputHash
  {
    if command.StartAttempt? || command.FinishAttempt? || command.MarkAttemptUnknown? || command.ReconcileAttempt? {
      hide StartAttemptOn, FinishAttemptOn, MarkUnknownOn, ReconcileOn;
      match command
      case StartAttempt(r) => StartAdds(rec, r, now, op, n);
      case FinishAttempt(r) => SettleAddsNothing(rec, r, now, op, n);
      case MarkAttemptUnknown(r) => SettleAddsNothing(rec, r, now, op, n);
      case ReconcileAttempt(r) => ReconcileAddsNothing(rec, r, now, op, n);
    } else {
      hide On, LapseAll;
      var token := LifecycleAttempts(rec, command, now);
      if token.Some? {
        LapseAddsNothing(rec.attempts, token.value, op, n);
      }
    }
  }

  /** Every attempt in the record was added by an accepted start of its operation in the run. */
  lemma {:induction false} AttemptOrigin(codec: Codec, stores: seq<Store>, calls: seq<Call>, j: nat,
                                         id: ExecutionId, op: OperationId, n: nat) returns (i: nat)
    requires IsRun(codec, stores, calls) && j < |stores| && HasAttempt(stores[j], id, op, n)
    ensures i < j && calls[i].command.StartAttempt? && !calls[i].answer.Rejected?
    ensures calls[i].command.attempt.id == id && calls[i].command.attempt.operationId == op
    ensures AttemptAt(stores[j], id, op, n).kind == calls[i].command.attempt.kind
    ensures AttemptAt(stores[j], id, op, n).inputHash == calls[i].command.attempt.inputHash
    decreases j
  {
    hide Inv, On, ArgumentError;
    assert j > 0;
    i := j - 1;
    assert Links(codec, stores, calls, i);
    RunKeeps(codec, stores, calls, i);
    if HasAttempt(stores[i], id, op, n) {
      AttemptAdvances(codec, stores, calls, i, id, op, n);
      i := AttemptOrigin(codec, stores, calls, i, id, op, n);
    } else {
      FreshAttempt(codec, stores[i], calls[i].command, calls[i].now, id, op, n);
    }
  }

  lemma FreshAttempt(codec: Codec, store: Store, command: Command, now: Time, id: ExecutionId, op: OperationId, n: nat)
    requires StoreInv(store) && !HasAttempt(store, id, op, n) && HasAttempt(Step(codec, store, command, now).0, id, op, n)
    ensures command.StartAttempt? && command.attempt.id == id && command.attempt.operationId == op
    ensures !Step(codec, store, command, now).1.Rejected?
    ensures var a := AttemptAt(Step(codec, store, command, now).0, id, op, n);
            a.kind == command.attempt.kind && a.inputHash == command.attempt.inputHash
  {
    hide Inv, On, ArgumentError;
    if id in store {
      RecordStep(codec, store, command, now, id);
      AddedByStart(store[id], command, now, op, n);
    }
  }

  // ---- one token for each execution ----

  /** The backend told a holder of this token to execute the operation. */
  ghost predicate ExecutedUnder(calls: seq<Call>, id: ExecutionId, op: OperationId, token: nat) {
    exists i: int, lease: LeaseRef, m: int ::
      0 <= i < |calls| && lease.token == token && TellsToExecute(calls[i], id, op, lease, m)
  }

  /** An accepted reconciliation decided to retry an attempt of the operation. */
  ghost predicate RetryAccepted(stores: seq<Store>, calls: seq<Call>, id: ExecutionId, op: OperationId)
    requires |stores| == |calls| + 1
  {
    exists i: int, m: int :: 0 <= i < |calls| && DecidesRetry(stores[i], calls[i], id, op, m)
  }

  /** No operation is executed under two tokens unless a retry of it was accepted. */
  lemma OneTokenUnlessRetried(codec: Codec, stores: seq<Store>, calls: seq<Call>, id: ExecutionId, op: OperationId,
                              first: nat, second: nat)
    requires IsRun(codec, stores, calls)
    requires ExecutedUnder(calls, id, op, first) && ExecutedUnder(calls, id, op, second)
    ensures first == second || RetryAccepted(stores, calls, id, op)
  {
    hide TellsToExecute, DecidesRetry;
    var i: int, a: LeaseRef, m: int :| 0 <= i < |calls| && a.token == first && TellsToExecute(calls[i], id, op, a, m);
    var j: int, b: LeaseRef, n: int :| 0 <= j < |calls| && b.token == second && TellsToExecute(calls[j], id, op, b, n);
    if first != second {
      if i == j {
        OneLease(calls[i], id, op, a, b, m, n);
      } else if i < j {
        var k := NoSilentReexecution(codec, stores, calls, i, j, id, op, a, b, m, n);
        assert DecidesRetry(stores[k], calls[k], id, op, m);
      } else {
        var k := NoSilentReexecution(codec, stores, calls, j, i, id, op, b, a, n, m);
        assert DecidesRetry(stores[k], calls[k], id, op, n);
      }
    }
  }

  lemma OneLease(call: Call, id: ExecutionId, op: OperationId, a: LeaseRef, b: LeaseRef, m: int, n: int)
    requires TellsToExecute(call, id, op, a, m) && TellsToExecute(call, id, op, b, n)
    ensures a == b
  {
  }

  // ---- saving checkpoints ----

  /** What stays of an execution while one holder keeps its lease: everything but the expiry,
      the checkpoint and the version, and the last two change only together. */
  ghost predicate SameTenure(e: Execution, e': Execution) {
    && e.lease.Some? && e'.lease.Some?
    && e'.lease.value == e.lease.value.(expiresAt := e'.lease.value.expiresAt)
    && e' == e.(lease := e'.lease, checkpoint := e'.checkpoint, version := e'.version)
    && (e.checkpoint.Some? ==>
          && e'.checkpoint.Some?
          && (|| (e'.checkpoint == e.checkpoint && e'.version == e.version)
              || e.checkpoint.value.sequence < e'.checkpoint.value.sequence))
  }

  /** A record that still has the lease of an earlier one is in the same tenure. */
  ghost predicate Tenure(rec: Record, rec': Record) {
    && rec.nextToken <= rec'.nextToken
    && (rec'.nextToken == rec.nextToken && rec'.execution.lease.Some? ==> SameTenure(rec.execution, rec'.execution))
  }

  lemma LifecycleTenure(rec: Record, command: Command, now: Time)
    requires !command.StartAttempt? && !command.FinishAttempt? && !command.MarkAttemptUnknown? && !command.ReconcileAttempt?
    requires !command.StartExecution? && !command.ResumeExecution?
    ensures Tenure(rec, On(rec, command, now).0)
  {
    hide StartOn, ResumeOn, StartAttemptOn, FinishAttemptOn, MarkUnknownOn, ReconcileOn, LapseAll, Lapsed;
  }

  lemma ClaimTenure(rec: Record, command: Command, now: Time)
    requires command.StartExecution? || command.ResumeExecution?
    ensures Tenure(rec, On(rec, command, now).0)
  {
    hide LapseAll, Lapsed, AllUnknown;
    var rec' := On(rec, command, now).0;
    assert rec' == rec || rec'.nextToken == rec.nextToken + 1;
  }

  lemma OnTenure(rec: Record, command: Command, now: Time)
    ensures Tenure(rec, On(rec, command, now).0)
  {
    if command.StartExecution? || command.ResumeExecution? {
      ClaimTenure(rec, command, now);
    } else if command.StartAttempt? || command.FinishAttempt? || command.MarkAttemptUnknown? || command.ReconcileAttempt? {
      AttemptCommandsOnly(rec, command, now);
    } else {
      LifecycleTenure(rec, command, now);
    }
  }

  lemma {:induction false} RunTenure(codec: Codec, stores: seq<Store>, calls: seq<Call>, i: nat, j: nat, id: ExecutionId)
    requires IsRun(codec, stores, calls) && i <= j < |stores| && id in stores[i]
    ensures id in stores[j] && Tenure(stores[i][id], stores[j][id])
    decreases j
  {
    hide On;
    if i < j {
      RunTenure(codec, stores, calls, i, j - 1, id);
      assert Links(codec, stores, calls, j - 1);
      RecordStep(codec, stores[j - 1], calls[j - 1].command, calls[j - 1].now, id);
      OnTenure(stores[j - 1][id], calls[j - 1].command, calls[j - 1].now);
    }
  }

  /** An accepted save leaves its checkpoint stored, and answers with the execution. */
  lemma SaveStores(rec: Record, r: SaveCheckpointRequest, now: Time)
    requires SaveOn(rec, r, now).1.Ok?
    ensures var (rec', out) := SaveOn(rec, r, now);
            && rec'.execution == out.value && out.value.lease.Some? && HoldsLease(rec.execution, r.lease, now)
            && out.value.lease.value.token == r.lease.token
            && out.value.checkpoint.Some? && out.value.checkpoint.value.sequence == r.checkpoint.sequence
            && out.value.checkpoint.value.hash == r.checkpoint.hash
  {
  }

  lemma SaveRecorded(codec: Codec, stores: seq<Store>, calls: seq<Call>, i: nat)
    requires IsRun(codec, stores, calls) && i < |calls|
    requires calls[i].command.SaveCheckpoint? && !calls[i].answer.Rejected?
    ensures ArgumentError(codec, calls[i].command).None?
    ensures var r := calls[i].command.save;
            && r.id in stores[i + 1] && calls[i].answer == Stored(stores[i + 1][r.id].execution)
            && var e := stores[i + 1][r.id].execution;
            && e.lease.Some? && e.lease.value.token == r.lease.token
            && e.checkpoint.Some? && e.checkpoint.value.sequence == r.checkpoint.sequence && e.checkpoint.value.hash == r.checkpoint.hash
  {
    hide SaveOn;
    assert Links(codec, stores, calls, i);
    SaveStores(stores[i][calls[i].command.save.id], calls[i].command.save, calls[i].now);
  }

  /** As long as its caller holds the lease an accepted checkpoint stays accepted, with the
      same version and checkpoint in the answer, until a later one is stored; the answer is
      the very same exactly while the lease has not been renewed either. */
  lemma SaveRepeats(codec: Codec, stores: seq<Store>, calls: seq<Call>, i: nat, j: nat, now: Time)
    requires IsRun(codec, stores, calls) && i < |calls| && i < j < |stores|
    requires calls[i].command.SaveCheckpoint? && !calls[i].answer.Rejected? && calls[i].command.save.id in stores[j]
    requires HoldsLease(stores[j][calls[i].command.save.id].execution, calls[i].command.save.lease, now)
    ensures calls[i].answer.Stored?
    ensures var r, first := calls[i].command.save, calls[i].answer.execution;
            var e, answer := stores[j][r.id].execution, Step(codec, stores[j], calls[i].command, now).1;
            && e.checkpoint.Some? && r.checkpoint.sequence <= e.checkpoint.value.sequence
            && (!answer.Rejected? <==> e.checkpoint.value.sequence == r.checkpoint.sequence)
            && (!answer.Rejected? ==>
                  answer == Stored(first.(lease := e.lease)) && Step(codec, stores[j], calls[i].command, now).0 == stores[j])
            && (RepeatsAt(codec, stores[j], calls[i].command, now, calls[i].answer) <==> e == first)
  {
    hide IsRun, Inv, On, ArgumentError;
    SaveRecorded(codec, stores, calls, i);
    var r := calls[i].command.save;
    RunTenure(codec, stores, calls, i + 1, j, r.id);
    RunKeeps(codec, stores, calls, i + 1);
    RunKeeps(codec, stores, calls, j);
    TokenHeld(r.id, stores[i + 1][r.id], stores[j][r.id], r.lease, now);
    SaveAnswers(codec, stores[j], r, now, calls[i].answer.execution);
  }

  lemma TokenHeld(id: ExecutionId, rec: Record, rec': Record, lease: LeaseRef, now: Time)
    requires Inv(id, rec) && Inv(id, rec') && rec.execution.lease.Some? && rec.execution.lease.value.token == lease.token
    requires HoldsLease(rec'.execution, lease, now) && Tenure(rec, rec')
    ensures SameTenure(rec.execution, rec'.execution)
  {
  }

  lemma SaveAnswers(codec: Codec, store: Store, r: SaveCheckpointRequest, now: Time, first: Execution)
    requires ArgumentError(codec, SaveCheckpoint(r)).None? && r.id in store
    requires HoldsLease(store[r.id].execution, r.lease, now) && SameTenure(first, store[r.id].execution)
    requires first.checkpoint.Some? && first.checkpoint.value.sequence == r.checkpoint.sequence
             && first.checkpoint.value.hash == r.checkpoint.hash
    ensures var e, (store', answer) := store[r.id].execution, Step(codec, store, SaveCheckpoint(r), now);
            && e.checkpoint.Some? && r.checkpoint.sequence <= e.checkpoint.value.sequence
            && (!answer.Rejected? <==> e.checkpoint.value.sequence == r.checkpoint.sequence)
            && (!answer.Rejected? ==> answer == Stored(first.(lease := e.lease)) && store' == store)
            && (RepeatsAt(codec, store, SaveCheckpoint(r), now, Stored(first)) <==> e == first)
  {
    assert store[r.id := store[r.id]] == store;
  }
}
