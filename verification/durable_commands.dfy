/** What each command promises a client: exactly when it is accepted, what it leaves in the
    record and what it answers, told from the record before and after alone. */
module DurableCommands {
  import opened Text
  import opened DurableTypes
  import opened DurableSpec
  import opened DurableInvariant
  import opened DurableLaws
  import opened DurableRuns

  /** Somebody's lease has not run out. */
  ghost predicate Live(e: Execution, now: Time) {
    e.lease.Some? && now < e.lease.value.expiresAt
  }

  /** The reference names the lease, and it has not run out. */
  ghost predicate Holds(e: Execution, reference: LeaseRef, now: Time) {
    Live(e, now) && e.lease.value.ownerId == reference.ownerId && e.lease.value.token == reference.token
  }

  ghost predicate Over(e: Execution) {
    e.status == Completed || e.status == Defeated
  }

  // ---- claiming a lease ----

  /** The claim id is new, or it is the latest claim, made by the same command. */
  ghost predicate NewestClaim(rec: Record, claimId: ClaimId, same: bool) {
    claimId !in rec.claims || (same && rec.claims[claimId].token == rec.nextToken)
  }

  ghost predicate SameStart(rec: Record, r: StartExecutionRequest) {
    r.claimId in rec.claims ==>
      var c := rec.claims[r.claimId];
      !c.resuming && c.ownerId == r.ownerId && c.leaseTtl == r.leaseTtl && c.specHash == r.specHash
  }

  ghost predicate SameResume(rec: Record, r: ResumeExecutionRequest) {
    r.claimId in rec.claims ==>
      var c := rec.claims[r.claimId];
      c.resuming && c.ownerId == r.ownerId && c.leaseTtl == r.leaseTtl
  }

  /** A running attempt has become uncertain; every other one is as it was. */
  ghost predicate Interrupted(a: Attempt, b: Attempt) {
    if a.status == Running then b == a.(status := Unknown, lease := None, version := a.version + 1) else b == a
  }

  ghost predicate AllInterrupted(log: map<OperationId, seq<Attempt>>, log': map<OperationId, seq<Attempt>>) {
    && log'.Keys == log.Keys
    && forall op :: op in log ==>
         |log'[op]| == |log[op]| && forall i :: 0 <= i < |log[op]| ==> Interrupted(log[op][i], log'[op][i])
  }

  /** The record after a fresh claim: the next token, the claimant's lease from now on, and
      nothing else of the execution changed. */
  ghost predicate FreshlyClaimed(rec: Record, rec': Record, ownerId: string, claimId: ClaimId, ttl: int, now: Time) {
    && rec'.nextToken == rec.nextToken + 1
    && rec'.execution.lease == Some(Lease(ownerId, claimId, rec.nextToken + 1, now + ttl))
    && rec'.execution.status == Active
    && rec'.execution.(lease := rec.execution.lease, status := rec.execution.status) == rec.execution
    && AllInterrupted(rec.attempts, rec'.attempts)
    && rec'.releases == rec.releases && rec'.suspends == rec.suspends && rec'.finishes == rec.finishes
    && rec'.claims.Keys == rec.claims.Keys + {claimId}
    && forall c :: c in rec.claims && c != claimId ==> rec'.claims[c] == rec.claims[c]
  }

  lemma ClaimInterrupts(id: ExecutionId, rec: Record)
    requires Inv(id, rec)
    ensures AllInterrupted(rec.attempts, LapseAll(rec.attempts, 0))
  {
    var log' := LapseAll(rec.attempts, 0);
    forall op, i | op in rec.attempts && 0 <= i < |rec.attempts[op]| ensures Interrupted(rec.attempts[op][i], log'[op][i]) {
      assert LogShape(id, op, rec.attempts[op], rec.execution.lease);
      assert StatusShape(rec.attempts[op][i], rec.execution.lease);
    }
  }

  lemma StartRaises(rec: Record, r: StartExecutionRequest, now: Time)
    requires Inv(r.id, rec)
    ensures var (rec', answer) := On(rec, StartExecution(r), now);
            && (rec'.nextToken != rec.nextToken <==>
                  && rec.execution.specHash == r.specHash && !Over(rec.execution) && !Live(rec.execution, now)
                  && NewestClaim(rec, r.claimId, SameStart(rec, r)))
            && (rec'.nextToken == rec.nextToken ==> rec' == rec)
  {
    assert r.claimId in rec.claims ==> rec.claims[r.claimId].token <= rec.nextToken;
    hide LapseAll, AllUnknown, Inv;
  }

  lemma StartTakes(rec: Record, r: StartExecutionRequest, now: Time)
    requires Inv(r.id, rec)
    ensures var (rec', answer) := On(rec, StartExecution(r), now);
            rec'.nextToken != rec.nextToken ==>
              && FreshlyClaimed(rec, rec', r.ownerId, r.claimId, r.leaseTtl, now)
              && answer.Started? && answer.startResult.execution == rec'.execution && !answer.startResult.created
  {
    ClaimInterrupts(r.id, rec);
    hide LapseAll, AllInterrupted, AllUnknown, Inv;
  }

  /** A start is a fresh claim exactly when the spec is the same, the execution is not over,
      nobody's lease is live, and the claim id is new or the latest claim repeated. */
  lemma StartClaims(rec: Record, r: StartExecutionRequest, now: Time)
    requires Inv(r.id, rec)
    ensures var (rec', answer) := On(rec, StartExecution(r), now);
            && (rec'.nextToken != rec.nextToken <==>
                  && rec.execution.specHash == r.specHash && !Over(rec.execution) && !Live(rec.execution, now)
                  && NewestClaim(rec, r.claimId, SameStart(rec, r)))
            && (rec'.nextToken != rec.nextToken ==>
                  && FreshlyClaimed(rec, rec', r.ownerId, r.claimId, r.leaseTtl, now)
                  && answer.Started? && answer.startResult.execution == rec'.execution && !answer.startResult.created)
            && (rec'.nextToken == rec.nextToken ==> rec' == rec)
  {
    hide On, FreshlyClaimed, NewestClaim, Inv;
    StartRaises(rec, r, now);
    StartTakes(rec, r, now);
  }

  lemma ResumeRaises(rec: Record, r: ResumeExecutionRequest, now: Time)
    requires Inv(r.id, rec)
    ensures var (rec', answer) := On(rec, ResumeExecution(r), now);
            && (rec'.nextToken != rec.nextToken <==>
                  && !Over(rec.execution) && !Live(rec.execution, now)
                  && NewestClaim(rec, r.claimId, SameResume(rec, r)))
            && (rec'.nextToken == rec.nextToken ==> rec' == rec)
  {
    assert r.claimId in rec.claims ==> rec.claims[r.claimId].token <= rec.nextToken;
    hide LapseAll, AllUnknown, Inv;
  }

  lemma ResumeTakes(rec: Record, r: ResumeExecutionRequest, now: Time)
    requires Inv(r.id, rec)
    ensures var (rec', answer) := On(rec, ResumeExecution(r), now);
            rec'.nextToken != rec.nextToken ==>
              && FreshlyClaimed(rec, rec', r.ownerId, r.claimId, r.leaseTtl, now)
              && answer.Resumed? && answer.resumeResult.execution == rec'.execution
  {
    ClaimInterrupts(r.id, rec);
    hide LapseAll, AllInterrupted, AllUnknown, Inv;
  }

  /** The same for a resumption, which names no spec. */
  lemma ResumeClaims(rec: Record, r: ResumeExecutionRequest, now: Time)
    requires Inv(r.id, rec)
    ensures var (rec', answer) := On(rec, ResumeExecution(r), now);
            && (rec'.nextToken != rec.nextToken <==>
                  && !Over(rec.execution) && !Live(rec.execution, now)
                  && NewestClaim(rec, r.claimId, SameResume(rec, r)))
            && (rec'.nextToken != rec.nextToken ==>
                  && FreshlyClaimed(rec, rec', r.ownerId, r.claimId, r.leaseTtl, now)
                  && answer.Resumed? && answer.resumeResult.execution == rec'.execution)
            && (rec'.nextToken == rec.nextToken ==> rec' == rec)
  {
    hide On, FreshlyClaimed, NewestClaim, Inv;
    ResumeRaises(rec, r, now);
    ResumeTakes(rec, r, now);
  }

  /** While a lease is live no claim changes anything: the holder's own claim is answered
      again, and every other is refused, as busy when its claim id is new. */
  lemma StartExcluded(rec: Record, r: StartExecutionRequest, now: Time)
    requires Inv(r.id, rec) && !Over(rec.execution) && Live(rec.execution, now)
    ensures var (rec', answer) := On(rec, StartExecution(r), now);
            && rec' == rec
            && (!answer.Rejected? ==>
                  && answer.Started?
                  && rec.execution.lease.value.claimId == r.claimId && rec.execution.lease.value.ownerId == r.ownerId
                  && r.claimId in rec.claims && rec.claims[r.claimId].start == Some(answer.startResult))
            && (r.claimId !in rec.claims ==>
                  answer == Rejected(ExecutionError(r.id, if rec.execution.specHash == r.specHash then Busy else Conflict)))
  {
    hide LapseAll, LogShape;
  }

  lemma ResumeExcluded(rec: Record, r: ResumeExecutionRequest, now: Time)
    requires Inv(r.id, rec) && !Over(rec.execution) && Live(rec.execution, now)
    ensures var (rec', answer) := On(rec, ResumeExecution(r), now);
            && rec' == rec
            && (!answer.Rejected? ==>
                  && answer.Resumed?
                  && rec.execution.lease.value.claimId == r.claimId && rec.execution.lease.value.ownerId == r.ownerId
                  && r.claimId in rec.claims && rec.claims[r.claimId].resume == Some(answer.resumeResult))
            && (r.claimId !in rec.claims ==> answer == Rejected(ExecutionError(r.id, Busy)))
  {
    hide LapseAll, LogShape;
  }

  /** A claim on an execution that is over is answered with it as it stands. */
  lemma OverAnswered(rec: Record, now: Time, start: StartExecutionRequest, resume: ResumeExecutionRequest)
    requires Over(rec.execution)
    ensures On(rec, ResumeExecution(resume), now) == (rec, Resumed(ResumeResult(rec.execution, [])))
    ensures On(rec, StartExecution(start), now) ==
            (rec, if rec.execution.specHash == start.specHash then Started(StartResult(rec.execution, false, []))
                  else Rejected(ExecutionError(start.id, Conflict)))
  {
  }

  /** The first start creates the execution as it was asked for, under the first token. */
  lemma CreatedAsAsked(codec: Codec, store: Store, r: StartExecutionRequest, now: Time)
    requires r.id !in store && ArgumentError(codec, StartExecution(r)).None?
    ensures var (store', answer) := Step(codec, store, StartExecution(r), now);
            && r.id in store' && store'.Keys == store.Keys + {r.id}
            && (forall id :: id in store ==> store'[id] == store[id])
            && var rec := store'[r.id];
            && rec.execution == Execution(r.id, r.spec, r.specHash, Active, 1,
                                          Some(Lease(r.ownerId, r.claimId, 1, now + r.leaseTtl)), None, None, 0)
            && rec.nextToken == 1 && rec.attempts == map[]
            && answer == Started(StartResult(rec.execution, true, []))
  {
  }

  // ---- what a lease holder may do ----

  /** Only the holder renews, from now on for the time it asks for, and nothing else changes. */
  lemma RenewExact(rec: Record, r: RenewExecutionRequest, now: Time)
    ensures var (rec', answer) := On(rec, RenewExecution(r), now);
            && (!answer.Rejected? <==> Holds(rec.execution, r.lease, now))
            && (answer.Rejected? ==> rec' == rec && answer == Rejected(ExecutionError(r.id, LeaseLost)))
            && (!answer.Rejected? ==>
                  && rec'.execution.lease.Some? && answer == Leased(rec'.execution.lease.value)
                  && rec'.execution.lease.value.expiresAt == now + r.leaseTtl
                  && rec'.execution.lease.value.(expiresAt := rec.execution.lease.value.expiresAt) == rec.execution.lease.value
                  && rec'.(execution := rec.execution) == rec
                  && rec'.execution.(lease := rec.execution.lease) == rec.execution)
  {
  }

  /** The request's checkpoint is the one already stored, by its sequence and hash. */
  ghost predicate AlreadySaved(e: Execution, c: Checkpoint) {
    e.checkpoint.Some? && e.checkpoint.value.sequence == c.sequence && e.checkpoint.value.hash == c.hash
  }

  ghost predicate Newer(e: Execution, c: Checkpoint) {
    e.checkpoint.Some? ==> e.checkpoint.value.sequence < c.sequence
  }

  /** Only the holder saves: a newer checkpoint under the expected version is stored just as it
      was sent and raises the version by one; the one already stored is answered again. */
  lemma SaveExact(rec: Record, r: SaveCheckpointRequest, now: Time)
    ensures var (rec', answer) := On(rec, SaveCheckpoint(r), now);
            var stores := Holds(rec.execution, r.lease, now) && Newer(rec.execution, r.checkpoint)
                          && rec.execution.version == r.expectedVersion;
            && (!answer.Rejected? <==> stores || (Holds(rec.execution, r.lease, now) && AlreadySaved(rec.execution, r.checkpoint)))
            && (!answer.Rejected? ==> answer == Stored(rec'.execution))
            && (!stores ==> rec' == rec)
            && (stores ==>
                  && rec'.execution.checkpoint == Some(r.checkpoint)
                  && rec'.execution.version == r.expectedVersion + 1
                  && rec'.(execution := rec.execution) == rec
                  && rec'.execution.(checkpoint := rec.execution.checkpoint, version := rec.execution.version) == rec.execution)
  {
  }

  /** The token is not older than the newest one. */
  ghost predicate Current(rec: Record, reference: LeaseRef) {
    rec.nextToken <= reference.token
  }

  /** The running attempts of this token have become uncertain. */
  ghost predicate TokenInterrupted(log: map<OperationId, seq<Attempt>>, log': map<OperationId, seq<Attempt>>, token: nat) {
    && log'.Keys == log.Keys
    && forall op :: op in log ==>
         && |log'[op]| == |log[op]|
         && forall i :: 0 <= i < |log[op]| ==>
              if log[op][i].lease.Some? && log[op][i].lease.value.token == token then Interrupted(log[op][i], log'[op][i])
              else log'[op][i] == log[op][i]
  }

  lemma TokenInterrupts(log: map<OperationId, seq<Attempt>>, token: nat)
    requires token != 0
    ensures TokenInterrupted(log, LapseAll(log, token), token)
  {
  }

  /** Suspending, for the holder under the expected version, ends the lease, marks the
      execution suspended, raises the version and interrupts the holder's attempts. */
  lemma SuspendExact(rec: Record, r: SuspendExecutionRequest, now: Time)
    requires r.lease.token != 0
    ensures var (rec', answer) := On(rec, SuspendExecution(r), now);
            var key := SuspendKey(r.lease, r.expectedVersion);
            var acts := Current(rec, r.lease) && key !in rec.suspends && Holds(rec.execution, r.lease, now)
                         && rec.execution.version == r.expectedVersion;
            && (!answer.Rejected? <==> acts || (Current(rec, r.lease) && key in rec.suspends))
            && (!acts ==> rec' == rec)
            && (!acts && !answer.Rejected? ==> answer == Stored(rec.suspends[key]))
            && (acts ==>
                  && rec'.execution.status == Suspended && rec'.execution.lease.None?
                  && rec'.execution.version == r.expectedVersion + 1
                  && rec'.execution.(status := rec.execution.status, lease := rec.execution.lease, version := rec.execution.version)
                     == rec.execution
                  && TokenInterrupted(rec.attempts, rec'.attempts, r.lease.token)
                  && answer == Stored(rec'.execution) && rec'.suspends == rec.suspends[key := rec'.execution]
                  && rec'.(execution := rec.execution, attempts := rec.attempts, suspends := rec.suspends) == rec)
  {
    TokenInterrupts(rec.attempts, r.lease.token);
    hide LapseAll, TokenInterrupted;
  }

  /** Releasing needs the lease, live or not, and ends it without touching status or version. */
  lemma ReleaseExact(rec: Record, r: ReleaseExecutionRequest, now: Time)
    requires r.lease.token != 0
    ensures var (rec', answer) := On(rec, ReleaseExecution(r), now);
            var acts := Current(rec, r.lease) && r.lease !in rec.releases && rec.execution.lease.Some?
                         && rec.execution.lease.value.ownerId == r.lease.ownerId && rec.execution.lease.value.token == r.lease.token;
            && (!answer.Rejected? <==> acts || (Current(rec, r.lease) && r.lease in rec.releases))
            && (!acts ==> rec' == rec)
            && (!acts && !answer.Rejected? ==> answer == Released(rec.releases[r.lease]))
            && (acts ==>
                  && rec'.execution.lease.None? && rec'.execution.(lease := rec.execution.lease) == rec.execution
                  && TokenInterrupted(rec.attempts, rec'.attempts, r.lease.token)
                  && answer.Released? && answer.releaseResult.execution == rec'.execution
                  && rec'.releases == rec.releases[r.lease := answer.releaseResult]
                  && rec'.(execution := rec.execution, attempts := rec.attempts, releases := rec.releases) == rec)
  {
    TokenInterrupts(rec.attempts, r.lease.token);
    hide LapseAll, Lapsed, TokenInterrupted;
  }

  /** Some attempt may still be running, or nobody knows how it ended. */
  ghost predicate Unsettled(log: map<OperationId, seq<Attempt>>) {
    exists op, i :: op in log && 0 <= i < |log[op]| && (log[op][i].status == Running || log[op][i].status == Unknown)
  }

  lemma UnsettledIff(log: map<OperationId, seq<Attempt>>)
    ensures Uncertain(log) <==> Unsettled(log)
  {
    if Unsettled(log) {
      var op, i :| op in log && 0 <= i < |log[op]| && (log[op][i].status == Running || log[op][i].status == Unknown);
      assert log[op][i] in Attempts(log);
    }
  }

  /** Finishing, for the holder under the expected version with every attempt settled, records
      the result that was sent, as defeated exactly when it says it failed, and ends the lease. */
  lemma FinishExact(rec: Record, r: FinishExecutionRequest, now: Time)
    ensures var (rec', answer) := On(rec, FinishExecution(r), now);
            var key := FinishKey(r.lease, r.expectedVersion, r.resultHash);
            var acts := Current(rec, r.lease) && key !in rec.finishes && !Over(rec.execution)
                         && Holds(rec.execution, r.lease, now) && rec.execution.version == r.expectedVersion
                         && !Unsettled(rec.attempts);
            && (!answer.Rejected? <==> acts || (Current(rec, r.lease) && key in rec.finishes))
            && (!acts ==> rec' == rec)
            && (!acts && !answer.Rejected? ==> answer == Stored(rec.finishes[key]))
            && (acts ==>
                  && rec'.execution.result == Some(r.result) && rec'.execution.resultHash == r.resultHash
                  && (rec'.execution.status == Defeated <==> r.result.failed)
                  && (rec'.execution.status == Completed <==> !r.result.failed)
                  && rec'.execution.lease.None? && rec'.execution.version == r.expectedVersion + 1
                  && rec'.execution.(result := rec.execution.result, resultHash := rec.execution.resultHash,
                                     status := rec.execution.status, lease := rec.execution.lease,
                                     version := rec.execution.version) == rec.execution
                  && answer == Stored(rec'.execution) && rec'.finishes == rec.finishes[key := rec'.execution]
                  && rec'.(execution := rec.execution, finishes := rec.finishes) == rec)
  {
    UnsettledIff(rec.attempts);
    hide Uncertain, Unsettled;
  }

  // ---- attempts ----

  function Log(rec: Record, op: OperationId): seq<Attempt> {
    if op in rec.attempts then rec.attempts[op] else []
  }

  /** What the last attempt of an operation calls for. */
  ghost predicate CalledFor(decision: Decision, status: AttemptStatus) {
    && (decision == Execute <==> status == Running)
    && (decision == Reconcile <==> status == Unknown)
    && (decision == Replay <==> status == Succeeded || status == Failed)
  }

  /** Only the holder starts attempts, with one input for each operation. The first attempt and
      the one after a decided retry are new and to be executed; any other start is answered with
      the last attempt as it stands. */
  lemma StartAttemptExact(rec: Record, r: StartAttemptRequest, now: Time)
    requires Inv(r.id, rec)
    ensures var (rec', answer) := On(rec, StartAttempt(r), now);
            var log := Log(rec, r.operationId);
            var accepted := Holds(rec.execution, r.lease, now)
                            && (log != [] ==> log[|log| - 1].kind == r.kind && log[|log| - 1].inputHash == r.inputHash);
            var starts := accepted && (log == [] || log[|log| - 1].status == Abandoned);
            && (!answer.Rejected? <==> accepted)
            && (answer.Rejected? ==> answer.error.kind == if Holds(rec.execution, r.lease, now) then Conflict else LeaseLost)
            && (!starts ==> rec' == rec)
            && (starts ==>
                  var a := Attempt(r.id, r.operationId, r.kind, |log| + 1, r.inputHash, Running, Some(r.lease), 1, "", None);
                  && rec' == rec.(attempts := rec.attempts[r.operationId := log + [a]])
                  && answer == Decided(AttemptStart(a, Execute)))
            && (accepted && !starts ==>
                  && answer.Decided? && answer.attemptStart.attempt == log[|log| - 1]
                  && CalledFor(answer.attemptStart.decision, log[|log| - 1].status))
  {
    assert [] + [NewAttempt(r, 1)] == [NewAttempt(r, 1)];
    if r.operationId in rec.attempts {
      assert LogShape(r.id, r.operationId, rec.attempts[r.operationId], rec.execution.lease);
      if HoldsLease(rec.execution, r.lease, now) {
        NoStaleOwner(rec, r, now);
      }
    }
  }

  /** The operation has an attempt of this number. */
  ghost predicate Exists(rec: Record, op: OperationId, number: int) {
    1 <= number <= |Log(rec, op)|
  }

  /** The caller's own running attempt, in the version it expects. */
  ghost predicate OwnRunning(rec: Record, r: SettleAttemptRequest) {
    Exists(rec, r.operationId, r.number) &&
    var a := Log(rec, r.operationId)[r.number - 1];
    a.status == Running && a.version == r.expectedVersion && a.lease == Some(r.lease)
  }

  /** The attempt already has what the request would give it. */
  ghost predicate SettledAs(rec: Record, r: SettleAttemptRequest, unknown: bool) {
    Exists(rec, r.operationId, r.number) &&
    var a := Log(rec, r.operationId)[r.number - 1];
    && (if unknown then a.status == Unknown else a.status == Succeeded || a.status == Failed)
    && a.version == r.expectedVersion + 1 && a.payload == r.payload && a.failure == r.failure
  }

  /** One attempt was replaced, and nothing else in the record. */
  ghost predicate Replaced(rec: Record, rec': Record, op: OperationId, number: int, a: Attempt) {
    && Exists(rec, op, number)
    && rec' == rec.(attempts := rec.attempts[op := Log(rec, op)[number - 1 := a]])
  }

  lemma Located(id: ExecutionId, rec: Record, op: OperationId, number: int)
    requires Inv(id, rec)
    ensures Position(rec.attempts, op, number) == if Exists(rec, op, number) then Some(number - 1) else None
  {
    PositionIs(id, rec, op, number);
  }

  /** Finishing settles the caller's own running attempt with the payload and failure it sent,
      as failed exactly when there is a failure. */
  lemma FinishAttemptExact(rec: Record, r: SettleAttemptRequest, now: Time)
    requires Inv(r.id, rec)
    ensures var (rec', answer) := On(rec, FinishAttempt(r), now);
            var acts := Holds(rec.execution, r.lease, now) && OwnRunning(rec, r);
            && (!answer.Rejected? <==> acts || (Holds(rec.execution, r.lease, now) && SettledAs(rec, r, false)))
            && (!acts ==> rec' == rec)
            && (!acts && !answer.Rejected? ==> answer == Settled(Log(rec, r.operationId)[r.number - 1]))
            && (acts ==>
                  var a := Log(rec, r.operationId)[r.number - 1];
                  var b := a.(status := if r.failure.None? then Succeeded else Failed, lease := None,
                              payload := r.payload, failure := r.failure, version := r.expectedVersion + 1);
                  Replaced(rec, rec', r.operationId, r.number, b) && answer == Settled(b))
  {
    Located(r.id, rec, r.operationId, r.number);
    hide Inv, Position;
  }

  /** Marking makes the caller's own running attempt unknown, with what the request says. */
  lemma MarkUnknownExact(rec: Record, r: SettleAttemptRequest, now: Time)
    requires Inv(r.id, rec)
    ensures var (rec', answer) := On(rec, MarkAttemptUnknown(r), now);
            var acts := Holds(rec.execution, r.lease, now) && OwnRunning(rec, r);
            && (!answer.Rejected? <==> acts || (Holds(rec.execution, r.lease, now) && SettledAs(rec, r, true)))
            && (!acts ==> rec' == rec)
            && (!acts && !answer.Rejected? ==> answer == Settled(Log(rec, r.operationId)[r.number - 1]))
            && (acts ==>
                  var a := Log(rec, r.operationId)[r.number - 1];
                  var b := a.(status := Unknown, lease := None,
                              payload := r.payload, failure := r.failure, version := r.expectedVersion + 1);
                  Replaced(rec, rec', r.operationId, r.number, b) && answer == Settled(b))
  {
    Located(r.id, rec, r.operationId, r.number);
    hide Inv, Position;
  }

  /** What a resolution makes of an attempt. */
  ghost predicate Resolved(a: Attempt, b: Attempt, r: ReconcileAttemptRequest) {
    && b.lease.None? && b.version == r.expectedVersion + 1
    && b.(status := a.status, payload := a.payload, failure := a.failure, lease := a.lease, version := a.version) == a
    && (r.resolution == Succeed ==> b.status == Succeeded && b.payload == r.payload && b.failure.None?)
    && (r.resolution == Fail ==> b.status == Failed && b.payload == r.payload && b.failure == r.failure)
    && (r.resolution == Retry ==> b.status == Abandoned && b.payload == "" && b.failure.None?)
  }

  /** An attempt is reconciled only while nobody's lease is live, only if it is unknown, and
      then as the request decides; the same decision is answered again. */
  lemma ReconcileExactly(rec: Record, r: ReconcileAttemptRequest, now: Time)
    requires Inv(r.id, rec) && ValidReconcile(r)
    ensures var (rec', answer) := On(rec, ReconcileAttempt(r), now);
            var there := !Live(rec.execution, now) && Exists(rec, r.operationId, r.number);
            && (Live(rec.execution, now) ==> answer.Rejected? && answer.error.kind == Busy)
            && (answer.Rejected? ==> rec' == rec)
            && (there ==>
                  var a := Log(rec, r.operationId)[r.number - 1];
                  var acts := a.status == Unknown && a.version == r.expectedVersion;
                  var again := a.status != Unknown && a.lease.None? && Resolved(a, a, r);
                  && (!answer.Rejected? <==> acts || again)
                  && (!acts ==> rec' == rec)
                  && (acts || again ==>
                        && answer.Settled? && Resolved(a, answer.attempt, r)
                        && Replaced(rec, rec', r.operationId, r.number, answer.attempt)))
            && (!there ==> answer.Rejected?)
  {
    Located(r.id, rec, r.operationId, r.number);
    if Exists(rec, r.operationId, r.number) {
      assert LogShape(r.id, r.operationId, rec.attempts[r.operationId], rec.execution.lease);
      assert StatusShape(rec.attempts[r.operationId][r.number - 1], rec.execution.lease);
      SameAgain(rec, r.operationId, r.number);
    }
    hide Inv, Position;
  }

  lemma SameAgain(rec: Record, op: OperationId, number: int)
    requires Exists(rec, op, number)
    ensures Replaced(rec, rec, op, number, Log(rec, op)[number - 1])
  {
    var log := Log(rec, op);
    assert log[number - 1 := log[number - 1]] == log;
    assert rec.attempts[op := log] == rec.attempts;
  }

  // ---- leases over whole runs ----

  ghost predicate ClaimsOn(command: Command, id: ExecutionId) {
    (command.StartExecution? || command.ResumeExecution?) && command.Id() == id
  }

  /** The lease a claim asks for, under a given token. */
  ghost function AskedLease(command: Command, token: nat, now: Time): Lease
    requires command.StartExecution? || command.ResumeExecution?
  {
    match command
    case StartExecution(r) => Lease(r.ownerId, r.claimId, token, now + r.leaseTtl)
    case ResumeExecution(r) => Lease(r.ownerId, r.claimId, token, now + r.leaseTtl)
  }

  /** This call claimed the record: it was a claim, made when nobody's lease was live, and its
      caller has the lease it asked for under the next token. */
  ghost predicate Claims(before: Record, after: Record, call: Call, id: ExecutionId) {
    && ClaimsOn(call.command, id) && !Live(before.execution, call.now) && !call.answer.Rejected?
    && after.nextToken == before.nextToken + 1
    && after.execution.lease == Some(AskedLease(call.command, after.nextToken, call.now))
  }

  lemma OnlyClaimsRaise(codec: Codec, rec: Record, command: Command, now: Time)
    requires Inv(command.Id(), rec) && !command.StartExecution? && !command.ResumeExecution?
    ensures On(rec, command, now).0.nextToken == rec.nextToken
  {
    hide LapseAll, Lapsed, StartOn, ResumeOn, Inv, Position;
  }

  lemma TokenStep(codec: Codec, stores: seq<Store>, calls: seq<Call>, k: nat, id: ExecutionId)
    requires IsRun(codec, stores, calls) && k < |calls| && id in stores[k]
    ensures id in stores[k + 1]
    ensures stores[k + 1][id].nextToken == stores[k][id].nextToken || Claims(stores[k][id], stores[k + 1][id], calls[k], id)
  {
    hide IsRun, On, Inv;
    InRun(codec, stores, calls);
    IsLinked(codec, stores, calls, k);
    RunKeeps(codec, stores, calls, k);
    RecordStep(codec, stores[k], calls[k].command, calls[k].now, id);
    if stores[k + 1][id] != stores[k][id] {
      match calls[k].command
      case StartExecution(r) => StartClaims(stores[k][id], r, calls[k].now);
      case ResumeExecution(r) => ResumeClaims(stores[k][id], r, calls[k].now);
      case _ => OnlyClaimsRaise(codec, stores[k][id], calls[k].command, calls[k].now);
    }
  }

  lemma IsLinked(codec: Codec, stores: seq<Store>, calls: seq<Call>, k: nat)
    requires IsRun(codec, stores, calls) && k < |calls|
    ensures Links(codec, stores, calls, k)
  {
  }

  /** Leases are exclusive: the token rises between two moments of a run only through a claim
      that was made, in between, when nobody's lease was live. */
  lemma {:induction false} LeasesExclusive(codec: Codec, stores: seq<Store>, calls: seq<Call>, i: nat, j: nat, id: ExecutionId)
    returns (k: nat)
    requires IsRun(codec, stores, calls) && i <= j < |stores| && id in stores[i]
    ensures id in stores[j] && stores[i][id].nextToken <= stores[j][id].nextToken
    ensures stores[i][id].nextToken != stores[j][id].nextToken ==>
              i <= k < j && id in stores[k] && id in stores[k + 1] && Claims(stores[k][id], stores[k + 1][id], calls[k], id)
    decreases j
  {
    hide IsRun, Claims;
    k := 0;
    if i < j {
      InRun(codec, stores, calls);
      k := LeasesExclusive(codec, stores, calls, i, j - 1, id);
      TokenStep(codec, stores, calls, j - 1, id);
      ClaimRaises(stores[j - 1][id], stores[j][id], calls[j - 1], id);
      if stores[j][id].nextToken != stores[j - 1][id].nextToken {
        k := j - 1;
      }
    }
  }

  lemma InRun(codec: Codec, stores: seq<Store>, calls: seq<Call>)
    requires IsRun(codec, stores, calls)
    ensures |stores| == |calls| + 1
  {
  }

  lemma ClaimRaises(before: Record, after: Record, call: Call, id: ExecutionId)
    ensures Claims(before, after, call, id) ==> before.nextToken < after.nextToken
  {
  }

  // ---- checkpoints over whole runs ----

  /** This call stored a checkpoint in the record. */
  ghost predicate Saves(stores: seq<Store>, calls: seq<Call>, k: nat, id: ExecutionId)
    requires k < |calls| && k + 1 < |stores|
  {
    && calls[k].command.SaveCheckpoint? && calls[k].command.save.id == id && !calls[k].answer.Rejected?
    && id in stores[k] && id in stores[k + 1]
    && stores[k + 1][id].execution.version == stores[k][id].execution.version + 1
  }

  lemma OthersKeepContents(rec: Record, command: Command, now: Time)
    requires !command.SaveCheckpoint? && !command.FinishExecution?
    ensures var e := On(rec, command, now).0.execution;
            && e.spec == rec.execution.spec && e.specHash == rec.execution.specHash && e.checkpoint == rec.execution.checkpoint
            && e.result == rec.execution.result && e.resultHash == rec.execution.resultHash
  {
    hide LapseAll, Lapsed, AllUnknown, Position, Uncertain;
  }

  lemma CheckpointStep(codec: Codec, stores: seq<Store>, calls: seq<Call>, k: nat, id: ExecutionId)
    requires IsRun(codec, stores, calls) && k < |calls| && id in stores[k]
    ensures |stores| == |calls| + 1 && id in stores[k + 1]
    ensures stores[k + 1][id].execution.checkpoint ==
            if Saves(stores, calls, k, id) then Some(calls[k].command.save.checkpoint) else stores[k][id].execution.checkpoint
  {
    hide On;
    assert Links(codec, stores, calls, k);
    RecordStep(codec, stores[k], calls[k].command, calls[k].now, id);
    if calls[k].command.SaveCheckpoint? {
      SaveExact(stores[k][id], calls[k].command.save, calls[k].now);
    } else {
      if calls[k].command.FinishExecution? {
        FinishExact(stores[k][id], calls[k].command.finish, calls[k].now);
      } else {
        OthersKeepContents(stores[k][id], calls[k].command, calls[k].now);
      }
    }
  }

  lemma CreatedBare(codec: Codec, stores: seq<Store>, calls: seq<Call>, k: nat, id: ExecutionId)
    requires IsRun(codec, stores, calls) && k < |calls| && id !in stores[k] && id in stores[k + 1]
    ensures stores[k + 1][id].execution.checkpoint.None? && !calls[k].command.SaveCheckpoint?
  {
    hide On;
    assert Links(codec, stores, calls, k);
  }

  /** The checkpoint of a record is exactly the one that the last save that stored any sent;
      without such a save there is none. */
  lemma {:induction false} CheckpointIsLastSaved(codec: Codec, stores: seq<Store>, calls: seq<Call>, j: nat, id: ExecutionId)
    returns (k: nat)
    requires IsRun(codec, stores, calls) && j < |stores| && id in stores[j]
    ensures |stores| == |calls| + 1
    ensures stores[j][id].execution.checkpoint.None? ==> forall m: nat :: m < j ==> !Saves(stores, calls, m, id)
    ensures stores[j][id].execution.checkpoint.Some? ==>
              && k < j && Saves(stores, calls, k, id)
              && stores[j][id].execution.checkpoint == Some(calls[k].command.save.checkpoint)
              && forall m: nat :: k < m < j ==> !Saves(stores, calls, m, id)
    decreases j
  {
    hide Saves, Step;
    k := 0;
    assert j > 0;
    if id in stores[j - 1] {
      k := CheckpointIsLastSaved(codec, stores, calls, j - 1, id);
      CheckpointStep(codec, stores, calls, j - 1, id);
      if Saves(stores, calls, j - 1, id) {
        k := j - 1;
      }
    } else {
      CreatedBare(codec, stores, calls, j - 1, id);
      NoSavesBefore(codec, stores, calls, j - 1, id);
      forall m: nat | m < j ensures !Saves(stores, calls, m, id) {
        if m == j - 1 {
          NotASave(stores, calls, m, id);
        }
      }
    }
  }

  lemma NotASave(stores: seq<Store>, calls: seq<Call>, k: nat, id: ExecutionId)
    requires k < |calls| && k + 1 < |stores| && !calls[k].command.SaveCheckpoint?
    ensures !Saves(stores, calls, k, id)
  {
  }

  /** A record that is not there was never saved to. */
  lemma NoSavesBefore(codec: Codec, stores: seq<Store>, calls: seq<Call>, j: nat, id: ExecutionId)
    requires IsRun(codec, stores, calls) && j < |stores| && id !in stores[j]
    ensures forall m: nat :: m < j ==> !Saves(stores, calls, m, id)
  {
    forall m: nat | m < j ensures !Saves(stores, calls, m, id) {
      if id in stores[m] {
        RecordsStay(codec, stores, calls, m, j, id);
      }
    }
  }

  lemma {:induction false} RecordsStay(codec: Codec, stores: seq<Store>, calls: seq<Call>, i: nat, j: nat, id: ExecutionId)
    requires IsRun(codec, stores, calls) && i <= j < |stores| && id in stores[i]
    ensures id in stores[j]
    decreases j
  {
    if i < j {
      RecordsStay(codec, stores, calls, i, j - 1, id);
      assert Links(codec, stores, calls, j - 1);
      RecordStep(codec, stores[j - 1], calls[j - 1].command, calls[j - 1].now, id);
    }
  }

  /** A claim hands its caller the checkpoint that was last saved: the answer's execution is the
      record's, with the checkpoint it had before the claim. */
  lemma ClaimCarriesCheckpoint(codec: Codec, stores: seq<Store>, calls: seq<Call>, k: nat, id: ExecutionId)
    requires IsRun(codec, stores, calls) && k < |calls| && id in stores[k] && ClaimsOn(calls[k].command, id)
    requires id in stores[k + 1] && stores[k + 1][id].nextToken != stores[k][id].nextToken
    ensures var e := if calls[k].answer.Started? then Some(calls[k].answer.startResult.execution)
                     else if calls[k].answer.Resumed? then Some(calls[k].answer.resumeResult.execution) else None;
            e == Some(stores[k + 1][id].execution) && e.value.checkpoint == stores[k][id].execution.checkpoint
  {
    hide On, Inv;
    assert Links(codec, stores, calls, k);
    RunKeeps(codec, stores, calls, k);
    RecordStep(codec, stores[k], calls[k].command, calls[k].now, id);
    match calls[k].command
    case StartExecution(r) => StartClaims(stores[k][id], r, calls[k].now);
    case ResumeExecution(r) => ResumeClaims(stores[k][id], r, calls[k].now);
  }

  // ---- what a record holds is what its hashes say ----

  /** The hashes on record are those of the spec, the checkpoint and the result they stand beside. */
  ghost predicate Authentic(codec: Codec, e: Execution) {
    && codec.spec(e.spec) == Some(e.specHash)
    && (e.checkpoint.Some? ==>
          e.checkpoint.value.sequence != 0
          && codec.continuation(e.checkpoint.value.continuation) == Some(e.checkpoint.value.hash))
    && (e.result.Some? ==> codec.result(e.result.value) == Some(e.resultHash))
  }

  lemma OnAuthentic(codec: Codec, rec: Record, command: Command, now: Time)
    requires Authentic(codec, rec.execution) && ArgumentError(codec, command).None?
    ensures Authentic(codec, On(rec, command, now).0.execution)
  {
    hide On;
    if command.SaveCheckpoint? {
      SaveExact(rec, command.save, now);
    } else if command.FinishExecution? {
      FinishExact(rec, command.finish, now);
    } else {
      OthersKeepContents(rec, command, now);
    }
  }

  /** Over every run: whatever a record holds has the hash it is stored under, so no corrupt spec,
      checkpoint or result is ever taken. */
  lemma {:induction false} RunAuthentic(codec: Codec, stores: seq<Store>, calls: seq<Call>, j: nat, id: ExecutionId)
    requires IsRun(codec, stores, calls) && j < |stores| && id in stores[j]
    ensures Authentic(codec, stores[j][id].execution)
    decreases j
  {
    hide On, Authentic;
    assert j > 0;
    assert Links(codec, stores, calls, j - 1);
    var call := calls[j - 1];
    if id in stores[j - 1] {
      RunAuthentic(codec, stores, calls, j - 1, id);
      if call.command.Id() == id && ArgumentError(codec, call.command).None? {
        OnAuthentic(codec, stores[j - 1][id], call.command, call.now);
      }
    } else {
      CreatedAuthentic(codec, call.command.start, call.now);
    }
  }

  lemma CreatedAuthentic(codec: Codec, r: StartExecutionRequest, now: Time)
    requires ArgumentError(codec, StartExecution(r)).None?
    ensures Authentic(codec, Created(r, now).execution)
  {
  }
}
