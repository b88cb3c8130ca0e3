/** Whole runs of the backend: any sequence of calls from any clients, with any
    clock readings. A crash is a client that stops calling; a lost response is a
    call whose answer nobody uses. */
module DurableRuns {
  import opened Text
  import opened DurableTypes
  import opened DurableSpec
  import opened DurableInvariant
  import opened DurableLaws

  /** One call as it happened: what was asked, when, and what was answered. */
  datatype Call = Call(command: Command, now: Time, answer: Response)

  /** Call `i` takes the store from its `i`-th to its next state. */
  ghost predicate Links(codec: Codec, stores: seq<Store>, calls: seq<Call>, i: nat)
    requires |stores| == |calls| + 1 && i < |calls|
  {
    Step(codec, stores[i], calls[i].command, calls[i].now) == (stores[i + 1], calls[i].answer)
  }

  ghost predicate IsRun(codec: Codec, stores: seq<Store>, calls: seq<Call>) {
    && |stores| == |calls| + 1
    && stores[0] == map[]
    && forall i :: 0 <= i < |calls| ==> Links(codec, stores, calls, i)
  }

  ghost predicate StoreInv(store: Store) {
    forall id :: id in store ==> Inv(id, store[id])
  }

  lemma StepKeeps(codec: Codec, store: Store, command: Command, now: Time)
    requires StoreInv(store)
    ensures StoreInv(Step(codec, store, command, now).0)
  {
    if ArgumentError(codec, command).None? {
      if command.Id() in store {
        OnKeeps(codec, store[command.Id()], command, now);
      } else if command.StartExecution? {
        CreatedInv(command.start, now);
      }
    }
  }

  /** The invariant holds of every record after every call of every run. */
  lemma {:induction false} RunKeeps(codec: Codec, stores: seq<Store>, calls: seq<Call>, i: nat)
    requires IsRun(codec, stores, calls) && i < |stores|
    ensures StoreInv(stores[i])
  {
    if i > 0 {
      assert Links(codec, stores, calls, i - 1);
      RunKeeps(codec, stores, calls, i - 1);
      StepKeeps(codec, stores[i - 1], calls[i - 1].command, calls[i - 1].now);
    }
  }

  // ---- what one call does to one record ----

  /** A call leaves every other record alone and moves its own one command on. */
  lemma RecordStep(codec: Codec, store: Store, command: Command, now: Time, id: ExecutionId)
    requires id in store
    ensures var store' := Step(codec, store, command, now).0;
            && id in store'
            && (store'[id] == store[id]
                || (id == command.Id() && ArgumentError(codec, command).None?
                    && store'[id] == On(store[id], command, now).0
                    && Step(codec, store, command, now).1 == On(store[id], command, now).1))
  {
  }

  function Rank(status: AttemptStatus): nat {
    match status
    case Running => 0
    case Unknown => 1
    case Succeeded => 2
    case Failed => 2
    case Abandoned => 2
  }

  ghost predicate HasAttempt(store: Store, id: ExecutionId, op: OperationId, n: nat) {
    id in store && op in store[id].attempts && n < |store[id].attempts[op]|
  }

  ghost function AttemptAt(store: Store, id: ExecutionId, op: OperationId, n: nat): Attempt
    requires HasAttempt(store, id, op, n)
  {
    store[id].attempts[op][n]
  }

  lemma AttemptStep(codec: Codec, store: Store, command: Command, now: Time, id: ExecutionId, op: OperationId, n: nat)
    requires StoreInv(store) && HasAttempt(store, id, op, n)
    ensures var (store', response) := Step(codec, store, command, now);
            && HasAttempt(store', id, op, n)
            && var a, b := AttemptAt(store, id, op, n), AttemptAt(store', id, op, n);
            && Moves(a, b, command, response)
            && (b != a ==> id == command.Id())
  {
    RecordStep(codec, store, command, now, id);
    var store' := Step(codec, store, command, now).0;
    if store'[id] != store[id] {
      AttemptsMove(codec, store[id], command, now);
    }
  }

  /** The attempt is the same one, unchanged or further along its status path. */
  ghost predicate Advances(store: Store, store': Store, id: ExecutionId, op: OperationId, n: nat) {
    && HasAttempt(store, id, op, n) && HasAttempt(store', id, op, n)
    && var a, b := AttemptAt(store, id, op, n), AttemptAt(store', id, op, n);
    SameIdentity(a, b) && (a == b || Rank(a.status) < Rank(b.status))
  }

  lemma AttemptAdvances(
    codec: Codec, stores: seq<Store>, calls: seq<Call>, i: nat, id: ExecutionId, op: OperationId, n: nat)
    requires IsRun(codec, stores, calls) && i < |calls| && HasAttempt(stores[i], id, op, n)
    ensures Advances(stores[i], stores[i + 1], id, op, n)
  {
    assert Links(codec, stores, calls, i);
    RunKeeps(codec, stores, calls, i);
    AttemptStep(codec, stores[i], calls[i].command, calls[i].now, id, op, n);
  }

  /** An attempt is never lost; it stays as it is or gets further along its
      status path. So a settled or abandoned attempt never changes, and a running
      attempt found running later is the same attempt under the same lease. */
  lemma {:induction false} AttemptPersists(
    codec: Codec, stores: seq<Store>, calls: seq<Call>, i: nat, j: nat, id: ExecutionId, op: OperationId, n: nat)
    requires IsRun(codec, stores, calls) && i <= j < |stores|
    requires HasAttempt(stores[i], id, op, n)
    ensures Advances(stores[i], stores[j], id, op, n)
    decreases j
  {
    if i < j {
      AttemptPersists(codec, stores, calls, i, j - 1, id, op, n);
      AttemptAdvances(codec, stores, calls, j - 1, id, op, n);
    }
  }

  /** The call is an accepted decision to retry attempt `number` of the operation,
      taken while that attempt's outcome was unknown. */
  ghost predicate DecidesRetry(store: Store, call: Call, id: ExecutionId, op: OperationId, number: int) {
    && call.command.ReconcileAttempt?
    && call.command.reconcile.id == id
    && call.command.reconcile.operationId == op
    && call.command.reconcile.number == number
    && call.command.reconcile.resolution == Retry
    && call.answer.Settled?
    && number >= 1 && HasAttempt(store, id, op, number - 1)
    && AttemptAt(store, id, op, number - 1).status == Unknown
  }

  lemma AbandonedInOneCall(codec: Codec, store: Store, call: Call, store': Store,
                           id: ExecutionId, op: OperationId, n: nat)
    requires StoreInv(store) && HasAttempt(store, id, op, n)
    requires AttemptAt(store, id, op, n).status != Abandoned
    requires Step(codec, store, call.command, call.now) == (store', call.answer)
    requires HasAttempt(store', id, op, n) && AttemptAt(store', id, op, n).status == Abandoned
    ensures DecidesRetry(store, call, id, op, n + 1)
  {
    AttemptStep(codec, store, call.command, call.now, id, op, n);
    assert LogShape(id, op, store[id].attempts[op], store[id].execution.lease);
  }

  /** An attempt only becomes abandoned through an accepted retry decision. */
  lemma {:induction false} AbandonedByRetry(
    codec: Codec, stores: seq<Store>, calls: seq<Call>, i: nat, j: nat, id: ExecutionId, op: OperationId, n: nat)
    returns (k: nat)
    requires IsRun(codec, stores, calls) && i <= j < |stores|
    requires HasAttempt(stores[i], id, op, n) && HasAttempt(stores[j], id, op, n)
    requires AttemptAt(stores[i], id, op, n).status != Abandoned
    requires AttemptAt(stores[j], id, op, n).status == Abandoned
    ensures i <= k < j && DecidesRetry(stores[k], calls[k], id, op, n + 1)
    decreases j
  {
    AttemptPersists(codec, stores, calls, i, j - 1, id, op, n);
    if AttemptAt(stores[j - 1], id, op, n).status == Abandoned {
      k := AbandonedByRetry(codec, stores, calls, i, j - 1, id, op, n);
    } else {
      k := j - 1;
      assert Links(codec, stores, calls, k);
      RunKeeps(codec, stores, calls, k);
      AbandonedInOneCall(codec, stores[k], calls[k], stores[j], id, op, n);
    }
  }

  /** The call told the holder of `lease` to execute attempt `number` of the operation. */
  ghost predicate TellsToExecute(call: Call, id: ExecutionId, op: OperationId, lease: LeaseRef, number: int) {
    && call.command.StartAttempt?
    && call.command.attempt.id == id && call.command.attempt.operationId == op && call.command.attempt.lease == lease
    && call.answer.Decided?
    && call.answer.attemptStart.decision == Execute && call.answer.attemptStart.attempt.number == number
  }

  ghost predicate RunsLast(store: Store, id: ExecutionId, op: OperationId, number: int, lease: LeaseRef) {
    && number >= 1 && HasAttempt(store, id, op, number - 1)
    && |store[id].attempts[op]| == number
    && AttemptAt(store, id, op, number - 1).status == Running
    && AttemptAt(store, id, op, number - 1).lease == Some(lease)
  }

  lemma ExecuteOn(rec: Record, r: StartAttemptRequest, now: Time)
    requires Inv(r.id, rec)
    requires var out := StartAttemptOn(rec, r, now).1; out.Ok? && out.value.decision == Execute
    ensures var (rec', out) := StartAttemptOn(rec, r, now);
            && r.operationId in rec'.attempts
            && var log := rec'.attempts[r.operationId];
            log != [] && log[|log| - 1] == out.value.attempt && out.value.attempt.number == |log|
            && out.value.attempt.status == Running && out.value.attempt.lease == Some(r.lease)
  {
    if r.operationId in rec.attempts {
      assert LogShape(r.id, r.operationId, rec.attempts[r.operationId], rec.execution.lease);
    }
  }

  /** Being told to execute leaves that attempt running, last in its log, under the caller's lease. */
  lemma ExecuteMeansRunning(codec: Codec, stores: seq<Store>, calls: seq<Call>, i: nat,
                            id: ExecutionId, op: OperationId, lease: LeaseRef, number: int)
    requires IsRun(codec, stores, calls) && i < |calls| && TellsToExecute(calls[i], id, op, lease, number)
    ensures RunsLast(stores[i + 1], id, op, number, lease)
  {
    assert Links(codec, stores, calls, i);
    RunKeeps(codec, stores, calls, i);
    ExecuteOn(stores[i][id], calls[i].command.attempt, calls[i].now);
  }

  /** An attempt running later under another token is a later attempt, and the earlier one was abandoned. */
  lemma Superseded(codec: Codec, stores: seq<Store>, calls: seq<Call>, i: nat, j: nat,
                   id: ExecutionId, op: OperationId, first: LeaseRef, second: LeaseRef, m: int, n: int)
    requires IsRun(codec, stores, calls) && i <= j < |stores|
    requires RunsLast(stores[i], id, op, m, first) && RunsLast(stores[j], id, op, n, second)
    requires first.token != second.token
    ensures m < n && AttemptAt(stores[j], id, op, m - 1).status == Abandoned
  {
    AttemptPersists(codec, stores, calls, i, j, id, op, m - 1);
    RunKeeps(codec, stores, calls, j);
    assert LogShape(id, op, stores[j][id].attempts[op], stores[j][id].execution.lease);
  }

  /** No effect is silently executed twice: if an operation is executed under two
      different lease tokens, then in between an accepted reconciliation decided to
      retry the very attempt that was executed first. */
  lemma NoSilentReexecution(codec: Codec, stores: seq<Store>, calls: seq<Call>, i: nat, j: nat,
                            id: ExecutionId, op: OperationId, first: LeaseRef, second: LeaseRef, m: int, n: int)
    returns (k: nat)
    requires IsRun(codec, stores, calls) && i < j < |calls|
    requires TellsToExecute(calls[i], id, op, first, m) && TellsToExecute(calls[j], id, op, second, n)
    requires first.token != second.token
    ensures m < n
    ensures i < k < j && DecidesRetry(stores[k], calls[k], id, op, m)
  {
    ExecuteMeansRunning(codec, stores, calls, i, id, op, first, m);
    ExecuteMeansRunning(codec, stores, calls, j, id, op, second, n);
    Superseded(codec, stores, calls, i + 1, j + 1, id, op, first, second, m, n);
    k := AbandonedByRetry(codec, stores, calls, i + 1, j + 1, id, op, m - 1);
  }

  // ---- terminal records and late repeats ----

  /** Once terminal, a record never changes again. */
  lemma {:induction false} TerminalForever(
    codec: Codec, stores: seq<Store>, calls: seq<Call>, i: nat, j: nat, id: ExecutionId)
    requires IsRun(codec, stores, calls) && i <= j < |stores|
    requires id in stores[i] && Terminal(stores[i][id].execution.status)
    ensures id in stores[j] && stores[j][id] == stores[i][id]
    decreases j
  {
    if i < j {
      assert Links(codec, stores, calls, j - 1);
      TerminalForever(codec, stores, calls, i, j - 1, id);
      RunKeeps(codec, stores, calls, j - 1);
      RecordStep(codec, stores[j - 1], calls[j - 1].command, calls[j - 1].now, id);
      if stores[j][id] != stores[j - 1][id] {
        TerminalAbsorbs(codec, stores[j - 1][id], calls[j - 1].command, calls[j - 1].now);
      }
    }
  }

  /** Repeating the call now gives the answer it gave before and changes nothing. */
  ghost predicate RepeatsAt(codec: Codec, store: Store, command: Command, now: Time, answer: Response) {
    Step(codec, store, command, now) == (store, answer)
  }

  lemma RecordRepeats(codec: Codec, store: Store, command: Command, now: Time, answer: Response)
    requires ArgumentError(codec, command).None? && command.Id() in store
    requires On(store[command.Id()], command, now) == (store[command.Id()], answer)
    ensures RepeatsAt(codec, store, command, now, answer)
  {
    var id := command.Id();
    assert store[id := store[id]] == store;
  }

  /** An accepted finish answers the same, at any later time, for ever. */
  lemma FinishRepeatsForever(codec: Codec, stores: seq<Store>, calls: seq<Call>, i: nat, j: nat, now: Time)
    requires IsRun(codec, stores, calls) && i < |calls| && i < j < |stores|
    requires calls[i].command.FinishExecution? && !calls[i].answer.Rejected?
    ensures RepeatsAt(codec, stores[j], calls[i].command, now, calls[i].answer)
  {
    assert Links(codec, stores, calls, i);
    var id := calls[i].command.Id();
    RunKeeps(codec, stores, calls, i);
    RunKeeps(codec, stores, calls, i + 1);
    TerminalForever(codec, stores, calls, i + 1, j, id);
    assert stores[j][id := stores[j][id]] == stores[j];
  }

  /** How a record may differ from an earlier state of itself: replay tables keep
      what they recorded, tokens only grow, and without a newer token there is no
      new claim and no other lease. */
  ghost predicate Follows(rec: Record, rec': Record) {
    && rec.nextToken <= rec'.nextToken
    && rec.execution.specHash == rec'.execution.specHash
    && (forall k :: k in rec.releases ==> k in rec'.releases && rec'.releases[k] == rec.releases[k])
    && (forall k :: k in rec.suspends ==> k in rec'.suspends && rec'.suspends[k] == rec.suspends[k])
    && (rec'.nextToken == rec.nextToken ==>
          && rec'.claims == rec.claims
          && (rec'.execution.lease.Some? ==>
                && rec.execution.lease.Some?
                && rec'.execution.lease.value.claimId == rec.execution.lease.value.claimId))
  }

  lemma ClaimCommandsFollow(rec: Record, command: Command, now: Time)
    requires command.StartExecution? || command.ResumeExecution?
    ensures Follows(rec, On(rec, command, now).0)
  {
    var rec' := On(rec, command, now).0;
    assert rec' == rec || rec'.nextToken == rec.nextToken + 1;
  }

  lemma SuspendFollows(rec: Record, r: SuspendExecutionRequest, now: Time)
    ensures Follows(rec, SuspendOn(rec, r, now).0)
  {
    hide LapseAll;
  }

  lemma ReleaseFollows(rec: Record, r: ReleaseExecutionRequest)
    ensures Follows(rec, ReleaseOn(rec, r).0)
  {
    hide LapseAll, Lapsed;
  }

  lemma HolderCommandsFollow(rec: Record, command: Command, now: Time)
    requires command.RenewExecution? || command.SaveCheckpoint? || command.FinishExecution?
             || command.SuspendExecution? || command.ReleaseExecution?
    ensures Follows(rec, On(rec, command, now).0)
  {
    hide SuspendOn, ReleaseOn, StartOn, ResumeOn, StartAttemptOn, FinishAttemptOn, MarkUnknownOn, ReconcileOn;
    match command
    case SuspendExecution(r) => SuspendFollows(rec, r, now);
    case ReleaseExecution(r) => ReleaseFollows(rec, r);
    case _ =>
  }

  lemma OnFollows(rec: Record, command: Command, now: Time)
    ensures Follows(rec, On(rec, command, now).0)
  {
    if command.StartExecution? || command.ResumeExecution? {
      ClaimCommandsFollow(rec, command, now);
    } else if command.StartAttempt? || command.FinishAttempt? || command.MarkAttemptUnknown? || command.ReconcileAttempt? {
      AttemptCommandsOnly(rec, command, now);
    } else {
      HolderCommandsFollow(rec, command, now);
    }
  }

  lemma StepFollows(codec: Codec, store: Store, command: Command, now: Time, id: ExecutionId)
    requires id in store
    ensures id in Step(codec, store, command, now).0
    ensures Follows(store[id], Step(codec, store, command, now).0[id])
  {
    RecordStep(codec, store, command, now, id);
    OnFollows(store[id], command, now);
  }

  lemma {:induction false} RunFollows(
    codec: Codec, stores: seq<Store>, calls: seq<Call>, i: nat, j: nat, id: ExecutionId)
    requires IsRun(codec, stores, calls) && i <= j < |stores| && id in stores[i]
    ensures id in stores[j] && Follows(stores[i][id], stores[j][id])
    decreases j
  {
    if i < j {
      assert Links(codec, stores, calls, j - 1);
      RunFollows(codec, stores, calls, i, j - 1, id);
      StepFollows(codec, stores[j - 1], calls[j - 1].command, calls[j - 1].now, id);
    }
  }

  /** An accepted release or suspension answers the same, whatever happened in
      between, until a newer token is issued. */
  lemma ReleaseAndSuspendRepeat(codec: Codec, stores: seq<Store>, calls: seq<Call>, i: nat, j: nat, now: Time)
    requires IsRun(codec, stores, calls) && i < |calls| && i < j < |stores|
    requires calls[i].command.ReleaseExecution? || calls[i].command.SuspendExecution?
    requires !calls[i].answer.Rejected?
    requires var id := calls[i].command.Id();
             id in stores[j] && stores[j][id].nextToken == calls[i].command.Fence().value.token
    ensures RepeatsAt(codec, stores[j], calls[i].command, now, calls[i].answer)
  {
    assert Links(codec, stores, calls, i);
    var id := calls[i].command.Id();
    RunFollows(codec, stores, calls, i + 1, j, id);
    assert stores[j][id := stores[j][id]] == stores[j];
  }

  ghost predicate SettledBy(a: Attempt, r: SettleAttemptRequest) {
    && (a.status == Succeeded || a.status == Failed)
    && a.version == r.expectedVersion + 1 && a.payload == r.payload && a.failure == r.failure
  }

  lemma FinishSettles(rec: Record, r: SettleAttemptRequest, now: Time)
    requires Inv(r.id, rec) && FinishAttemptOn(rec, r, now).1.Ok?
    ensures var (rec', out) := FinishAttemptOn(rec, r, now);
            && r.operationId in rec'.attempts && 1 <= r.number <= |rec'.attempts[r.operationId]|
            && rec'.attempts[r.operationId][r.number - 1] == out.value
            && SettledBy(out.value, r)
  {
    PositionIs(r.id, rec, r.operationId, r.number);
  }

  lemma SettledAnswers(rec: Record, r: SettleAttemptRequest, now: Time, a: Attempt)
    requires Inv(r.id, rec) && HoldsLease(rec.execution, r.lease, now)
    requires r.operationId in rec.attempts && 1 <= r.number <= |rec.attempts[r.operationId]|
    requires rec.attempts[r.operationId][r.number - 1] == a && SettledBy(a, r)
    ensures FinishAttemptOn(rec, r, now) == (rec, Ok(a))
  {
    PositionIs(r.id, rec, r.operationId, r.number);
  }

  lemma FinishRecorded(codec: Codec, stores: seq<Store>, calls: seq<Call>, i: nat)
    requires IsRun(codec, stores, calls) && i < |calls|
    requires calls[i].command.FinishAttempt? && !calls[i].answer.Rejected?
    ensures ArgumentError(codec, calls[i].command).None?
    ensures var r := calls[i].command.settle;
            && r.number >= 1 && HasAttempt(stores[i + 1], r.id, r.operationId, r.number - 1)
            && var a := AttemptAt(stores[i + 1], r.id, r.operationId, r.number - 1);
            SettledBy(a, r) && calls[i].answer == Settled(a)
  {
    hide Inv;
    assert Links(codec, stores, calls, i);
    RunKeeps(codec, stores, calls, i);
    var r := calls[i].command.settle;
    FinishSettles(stores[i][r.id], r, calls[i].now);
  }

  /** A settled attempt answers its settling call the same for as long as the
      caller's lease is active, whatever happened in between. */
  lemma FinishAttemptRepeats(codec: Codec, stores: seq<Store>, calls: seq<Call>, i: nat, j: nat, now: Time)
    requires IsRun(codec, stores, calls) && i < |calls| && i < j < |stores|
    requires calls[i].command.FinishAttempt? && !calls[i].answer.Rejected?
    requires var r := calls[i].command.settle;
             r.id in stores[j] && HoldsLease(stores[j][r.id].execution, r.lease, now)
    ensures RepeatsAt(codec, stores[j], calls[i].command, now, calls[i].answer)
  {
    hide Step, IsRun, Inv, FinishAttemptOn;
    var r := calls[i].command.settle;
    FinishRecorded(codec, stores, calls, i);
    AttemptPersists(codec, stores, calls, i + 1, j, r.id, r.operationId, r.number - 1);
    RunKeeps(codec, stores, calls, j);
    SettledAnswers(stores[j][r.id], r, now, calls[i].answer.attempt);
    RecordRepeats(codec, stores[j], calls[i].command, now, calls[i].answer);
  }

  ghost predicate MarkedBy(a: Attempt, r: SettleAttemptRequest) {
    a.status == Unknown && a.version == r.expectedVersion + 1 && a.payload == r.payload && a.failure == r.failure
  }

  /** The marked attempt has not been reconciled. */
  ghost predicate StillUnknown(store: Store, r: SettleAttemptRequest) {
    r.number >= 1 && HasAttempt(store, r.id, r.operationId, r.number - 1) ==>
      AttemptAt(store, r.id, r.operationId, r.number - 1).status == Unknown
  }

  lemma MarkMarks(rec: Record, r: SettleAttemptRequest, now: Time)
    requires Inv(r.id, rec) && MarkUnknownOn(rec, r, now).1.Ok?
    ensures var (rec', out) := MarkUnknownOn(rec, r, now);
            && r.operationId in rec'.attempts && 1 <= r.number <= |rec'.attempts[r.operationId]|
            && rec'.attempts[r.operationId][r.number - 1] == out.value
            && MarkedBy(out.value, r)
  {
    PositionIs(r.id, rec, r.operationId, r.number);
  }

  lemma MarkAnswers(rec: Record, r: SettleAttemptRequest, now: Time, a: Attempt)
    requires Inv(r.id, rec) && HoldsLease(rec.execution, r.lease, now)
    requires r.operationId in rec.attempts && 1 <= r.number <= |rec.attempts[r.operationId]|
    requires rec.attempts[r.operationId][r.number - 1] == a && MarkedBy(a, r)
    ensures MarkUnknownOn(rec, r, now) == (rec, Ok(a))
  {
    PositionIs(r.id, rec, r.operationId, r.number);
  }

  lemma MarkRecorded(codec: Codec, stores: seq<Store>, calls: seq<Call>, i: nat)
    requires IsRun(codec, stores, calls) && i < |calls|
    requires calls[i].command.MarkAttemptUnknown? && !calls[i].answer.Rejected?
    ensures ArgumentError(codec, calls[i].command).None?
    ensures var r := calls[i].command.mark;
            && r.number >= 1 && HasAttempt(stores[i + 1], r.id, r.operationId, r.number - 1)
            && var a := AttemptAt(stores[i + 1], r.id, r.operationId, r.number - 1);
            MarkedBy(a, r) && calls[i].answer == Settled(a)
  {
    hide Inv;
    assert Links(codec, stores, calls, i);
    RunKeeps(codec, stores, calls, i);
    var r := calls[i].command.mark;
    MarkMarks(stores[i][r.id], r, calls[i].now);
  }

  /** An accepted mark is answered the same for as long as the caller's lease is held and
      the attempt has not been reconciled, whatever else happened in between. */
  lemma MarkUnknownRepeats(codec: Codec, stores: seq<Store>, calls: seq<Call>, i: nat, j: nat, now: Time)
    requires IsRun(codec, stores, calls) && i < |calls| && i < j < |stores|
    requires calls[i].command.MarkAttemptUnknown? && !calls[i].answer.Rejected?
    requires var r := calls[i].command.mark;
             r.id in stores[j] && HoldsLease(stores[j][r.id].execution, r.lease, now) && StillUnknown(stores[j], r)
    ensures RepeatsAt(codec, stores[j], calls[i].command, now, calls[i].answer)
  {
    hide Step, IsRun, Inv, MarkUnknownOn;
    var r := calls[i].command.mark;
    MarkRecorded(codec, stores, calls, i);
    AttemptPersists(codec, stores, calls, i + 1, j, r.id, r.operationId, r.number - 1);
    RunKeeps(codec, stores, calls, j);
    MarkAnswers(stores[j][r.id], r, now, calls[i].answer.attempt);
    RecordRepeats(codec, stores[j], calls[i].command, now, calls[i].answer);
  }

  lemma ReconcileResolves(rec: Record, r: ReconcileAttemptRequest, now: Time)
    requires Inv(r.id, rec) && ValidReconcile(r) && ReconcileOn(rec, r, now).1.Ok?
    ensures var (rec', out) := ReconcileOn(rec, r, now);
            && r.operationId in rec'.attempts && 1 <= r.number <= |rec'.attempts[r.operationId]|
            && rec'.attempts[r.operationId][r.number - 1] == out.value
            && ReconcileExact(out.value, r) && Rank(out.value.status) == 2
  {
    PositionIs(r.id, rec, r.operationId, r.number);
  }

  lemma ReconcileAnswers(rec: Record, r: ReconcileAttemptRequest, now: Time, a: Attempt)
    requires Inv(r.id, rec) && !LeaseActive(rec.execution.lease, now)
    requires r.operationId in rec.attempts && 1 <= r.number <= |rec.attempts[r.operationId]|
    requires rec.attempts[r.operationId][r.number - 1] == a && ReconcileExact(a, r)
    ensures ReconcileOn(rec, r, now) == (rec, Ok(a))
  {
    PositionIs(r.id, rec, r.operationId, r.number);
  }

  lemma ReconcileRecorded(codec: Codec, stores: seq<Store>, calls: seq<Call>, i: nat)
    requires IsRun(codec, stores, calls) && i < |calls|
    requires calls[i].command.ReconcileAttempt? && !calls[i].answer.Rejected?
    ensures ArgumentError(codec, calls[i].command).None?
    ensures var r := calls[i].command.reconcile;
            && r.number >= 1 && HasAttempt(stores[i + 1], r.id, r.operationId, r.number - 1)
            && var a := AttemptAt(stores[i + 1], r.id, r.operationId, r.number - 1);
            ReconcileExact(a, r) && Rank(a.status) == 2 && calls[i].answer == Settled(a)
  {
    hide Inv, ReconcileExact;
    assert Links(codec, stores, calls, i);
    RunKeeps(codec, stores, calls, i);
    var r := calls[i].command.reconcile;
    ReconcileResolves(stores[i][r.id], r, calls[i].now);
  }

  /** An accepted reconciliation is answered the same for ever, whenever its guard admits
      the call: no lease is active. */
  lemma ReconcileRepeats(codec: Codec, stores: seq<Store>, calls: seq<Call>, i: nat, j: nat, now: Time)
    requires IsRun(codec, stores, calls) && i < |calls| && i < j < |stores|
    requires calls[i].command.ReconcileAttempt? && !calls[i].answer.Rejected?
    requires var id := calls[i].command.reconcile.id;
             id in stores[j] ==> !LeaseActive(stores[j][id].execution.lease, now)
    ensures RepeatsAt(codec, stores[j], calls[i].command, now, calls[i].answer)
  {
    hide Step, IsRun, Inv, ReconcileOn, ReconcileExact;
    var r := calls[i].command.reconcile;
    ReconcileRecorded(codec, stores, calls, i);
    AttemptPersists(codec, stores, calls, i + 1, j, r.id, r.operationId, r.number - 1);
    RunKeeps(codec, stores, calls, j);
    ReconcileAnswers(stores[j][r.id], r, now, calls[i].answer.attempt);
    RecordRepeats(codec, stores[j], calls[i].command, now, calls[i].answer);
  }

  ghost predicate ClaimedBy(rec: Record, command: Command, answer: Response) {
    match command
    case StartExecution(r) =>
      && r.claimId in rec.claims
      && rec.execution.lease.Some? && rec.execution.lease.value.claimId == r.claimId
      && rec.execution.specHash == r.specHash
      && var c := rec.claims[r.claimId];
      && !c.resuming && c.ownerId == r.ownerId && c.leaseTtl == r.leaseTtl && c.specHash == r.specHash
      && c.start.Some? && answer == Started(c.start.value)
    case ResumeExecution(r) =>
      && r.claimId in rec.claims
      && rec.execution.lease.Some? && rec.execution.lease.value.claimId == r.claimId
      && var c := rec.claims[r.claimId];
      && c.resuming && c.ownerId == r.ownerId && c.leaseTtl == r.leaseTtl
      && c.resume.Some? && answer == Resumed(c.resume.value)
    case _ => false
  }

  lemma ClaimRecorded(codec: Codec, store: Store, command: Command, now: Time)
    requires StoreInv(store)
    requires command.StartExecution? || command.ResumeExecution?
    requires !Step(codec, store, command, now).1.Rejected?
    ensures var (store', answer) := Step(codec, store, command, now);
            && command.Id() in store'
            && (|| Terminal(store'[command.Id()].execution.status)
                || ClaimedBy(store'[command.Id()], command, answer))
  {
    match command
    case StartExecution(r) => StartRecorded(codec, store, r, now);
    case ResumeExecution(r) => ResumeRecorded(codec, store, r, now);
  }

  lemma StartedBy(rec: Record, r: StartExecutionRequest, now: Time)
    requires Inv(r.id, rec) && StartOn(rec, r, now).1.Ok?
    ensures var (next, out) := StartOn(rec, r, now);
            Terminal(next.execution.status) || ClaimedBy(next, StartExecution(r), Started(out.value))
  {
    hide LapseAll, AllUnknown, LogShape;
  }

  lemma StartRecorded(codec: Codec, store: Store, r: StartExecutionRequest, now: Time)
    requires StoreInv(store)
    requires !Step(codec, store, StartExecution(r), now).1.Rejected?
    ensures var (store', answer) := Step(codec, store, StartExecution(r), now);
            && r.id in store'
            && (Terminal(store'[r.id].execution.status) || ClaimedBy(store'[r.id], StartExecution(r), answer))
  {
    hide StartOn, Inv;
    if r.id in store {
      StartedBy(store[r.id], r, now);
    }
  }

  lemma ResumeRecorded(codec: Codec, store: Store, r: ResumeExecutionRequest, now: Time)
    requires StoreInv(store)
    requires !Step(codec, store, ResumeExecution(r), now).1.Rejected?
    ensures var (store', answer) := Step(codec, store, ResumeExecution(r), now);
            && r.id in store'
            && (Terminal(store'[r.id].execution.status) || ClaimedBy(store'[r.id], ResumeExecution(r), answer))
  {
  }

  lemma ClaimAnswers(rec: Record, command: Command, now: Time, answer: Response)
    requires Inv(command.Id(), rec) && ClaimedBy(rec, command, answer)
    requires LeaseActive(rec.execution.lease, now)
    ensures On(rec, command, now) == (rec, answer)
  {
  }

  lemma ClaimKept(codec: Codec, stores: seq<Store>, calls: seq<Call>, i: nat, j: nat)
    requires IsRun(codec, stores, calls) && i < |calls| && i < j < |stores|
    requires calls[i].command.StartExecution? || calls[i].command.ResumeExecution?
    requires !calls[i].answer.Rejected?
    requires var id := calls[i].command.Id();
             && id in stores[i + 1] && id in stores[j] && stores[j][id].nextToken == stores[i + 1][id].nextToken
             && stores[j][id].execution.lease.Some?
    ensures ArgumentError(codec, calls[i].command).None?
    ensures ClaimedBy(stores[j][calls[i].command.Id()], calls[i].command, calls[i].answer)
  {
    var id := calls[i].command.Id();
    assert Links(codec, stores, calls, i);
    RunKeeps(codec, stores, calls, i);
    RunKeeps(codec, stores, calls, j);
    ClaimRecorded(codec, stores[i], calls[i].command, calls[i].now);
    if Terminal(stores[i + 1][id].execution.status) {
      TerminalForever(codec, stores, calls, i + 1, j, id);
      assert false;
    }
    RunFollows(codec, stores, calls, i + 1, j, id);
  }

  /** A claim answers the same for as long as its own lease is the active one,
      whatever happened in between, renewals included. */
  lemma ClaimRepeats(codec: Codec, stores: seq<Store>, calls: seq<Call>, i: nat, j: nat, now: Time)
    requires IsRun(codec, stores, calls) && i < |calls| && i < j < |stores|
    requires calls[i].command.StartExecution? || calls[i].command.ResumeExecution?
    requires !calls[i].answer.Rejected?
    requires var id := calls[i].command.Id();
             && id in stores[i + 1] && id in stores[j] && stores[j][id].nextToken == stores[i + 1][id].nextToken
             && LeaseActive(stores[j][id].execution.lease, now)
    ensures RepeatsAt(codec, stores[j], calls[i].command, now, calls[i].answer)
  {
    ClaimKept(codec, stores, calls, i, j);
    RunKeeps(codec, stores, calls, j);
    ClaimAnswers(stores[j][calls[i].command.Id()], calls[i].command, now, calls[i].answer);
    RecordRepeats(codec, stores[j], calls[i].command, now, calls[i].answer);
  }
}
