/** What every command keeps true of every record. */
module DurableInvariant {
  import opened Text
  import opened DurableTypes
  import opened Sorting
  import opened DurableSpec

  // ---- the invariant ----

  ghost predicate StatusShape(a: Attempt, lease: Option<Lease>) {
    match a.status
    case Running =>
      && a.version == 1 && a.payload == "" && a.failure.None?
      && lease.Some? && a.lease == Some(LeaseRef(lease.value.ownerId, lease.value.token))
    case Unknown => a.version == 2 && a.lease.None?
    case Succeeded => 2 <= a.version <= 3 && a.lease.None? && a.failure.None?
    case Failed => 2 <= a.version <= 3 && a.lease.None? && a.failure.Some?
    case Abandoned => a.version == 3 && a.lease.None? && a.payload == "" && a.failure.None?
  }

  /** Attempts of one operation: numbered from one, one kind and input, all but the last abandoned. */
  ghost predicate LogShape(id: ExecutionId, op: OperationId, log: seq<Attempt>, lease: Option<Lease>) {
    && log != []
    && forall i :: 0 <= i < |log| ==>
         && log[i].executionId == id && log[i].operationId == op && log[i].number == i + 1
         && log[i].kind == log[0].kind && log[i].inputHash == log[0].inputHash
         && (i < |log| - 1 ==> log[i].status == Abandoned)
         && StatusShape(log[i], lease)
  }

  ghost predicate Quiet(a: Attempt) {
    a.status != Running && a.status != Unknown
  }

  ghost predicate AllQuiet(log: map<OperationId, seq<Attempt>>) {
    forall op, i :: op in log && 0 <= i < |log[op]| ==> Quiet(log[op][i])
  }

  ghost predicate LeaseShape(rec: Record) {
    rec.execution.lease.Some? ==>
      var lease := rec.execution.lease.value;
      && lease.token == rec.nextToken
      && rec.execution.status == Active
      && lease.claimId in rec.claims
      && rec.claims[lease.claimId].token == rec.nextToken
      && rec.claims[lease.claimId].ownerId == lease.ownerId
      && LeaseRef(lease.ownerId, lease.token) !in rec.releases
      && forall v :: SuspendKey(LeaseRef(lease.ownerId, lease.token), v) !in rec.suspends
  }

  ghost predicate TablesShape(rec: Record) {
    && (forall c :: c in rec.claims ==>
          && rec.claims[c].token <= rec.nextToken
          && (if rec.claims[c].resuming then rec.claims[c].resume.Some? else rec.claims[c].start.Some?))
    && (forall k :: k in rec.releases ==> k.token <= rec.nextToken)
    && (forall k :: k in rec.suspends ==> k.lease.token <= rec.nextToken)
    && (forall k :: k in rec.finishes ==> k.lease.token == rec.nextToken && rec.finishes[k] == rec.execution)
  }

  ghost predicate StatusLinks(rec: Record) {
    && (Terminal(rec.execution.status) <==> rec.execution.result.Some?)
    && (Terminal(rec.execution.status) ==> AllQuiet(rec.attempts))
    && (rec.finishes != map[] ==> Terminal(rec.execution.status))
  }

  ghost predicate Inv(id: ExecutionId, rec: Record) {
    && rec.execution.id == id
    && rec.nextToken >= 1
    && rec.execution.version >= 1
    && LeaseShape(rec)
    && TablesShape(rec)
    && StatusLinks(rec)
    && forall op :: op in rec.attempts ==> LogShape(id, op, rec.attempts[op], rec.execution.lease)
  }

  lemma UncertainIff(log: map<OperationId, seq<Attempt>>)
    ensures Uncertain(log) <==> !AllQuiet(log)
  {
    if !AllQuiet(log) {
      var op, i :| op in log && 0 <= i < |log[op]| && !Quiet(log[op][i]);
      assert log[op][i] in Attempts(log);
    }
  }

  /** Under the invariant, searching by number is indexing. */
  lemma PositionIs(id: ExecutionId, rec: Record, op: OperationId, number: int)
    requires Inv(id, rec)
    ensures Position(rec.attempts, op, number) ==
            if op in rec.attempts && 1 <= number <= |rec.attempts[op]| then Some(number - 1) else None
  {
    if op in rec.attempts {
      var log := rec.attempts[op];
      assert LogShape(id, op, log, rec.execution.lease);
      if 1 <= number <= |log| {
        assert log[number - 1].number == number;
      }
    }
  }

  // ---- losing a lease ----

  lemma LapseKeepsShape(id: ExecutionId, rec: Record, token: nat)
    requires Inv(id, rec)
    requires token == 0 || (rec.execution.lease.Some? && token == rec.execution.lease.value.token)
    ensures var log' := LapseAll(rec.attempts, token);
            forall op, lease :: op in log' ==> LogShape(id, op, log'[op], lease)
  {
    var log' := LapseAll(rec.attempts, token);
    forall op, lease | op in log' ensures LogShape(id, op, log'[op], lease) {
      assert LogShape(id, op, rec.attempts[op], rec.execution.lease);
      forall i | 0 <= i < |log'[op]| ensures
        && log'[op][i] == Lapse(rec.attempts[op][i], token)
        && StatusShape(log'[op][i], lease)
      {
        assert StatusShape(rec.attempts[op][i], rec.execution.lease);
      }
    }
  }

  // ---- every command keeps the invariant ----

  lemma CreatedInv(r: StartExecutionRequest, now: Time)
    ensures Inv(r.id, Created(r, now))
  {
  }

  lemma ClaimKeeps(id: ExecutionId, rec: Record, ownerId: string, claimId: ClaimId, ttl: int, now: Time, claim: Claim)
    requires Inv(id, rec) && !Terminal(rec.execution.status)
    requires claim.token == rec.nextToken + 1 && claim.ownerId == ownerId
    requires if claim.resuming then claim.resume.Some? else claim.start.Some?
    ensures var next := Claimed(rec, ownerId, claimId, ttl, now);
            Inv(id, next.(claims := next.claims[claimId := claim]))
  {
    LapseKeepsShape(id, rec, 0);
  }

  lemma StartKeeps(id: ExecutionId, rec: Record, r: StartExecutionRequest, now: Time)
    requires Inv(id, rec)
    ensures Inv(id, StartOn(rec, r, now).0)
  {
    if StartOn(rec, r, now).0 != rec {
      var next := Claimed(rec, r.ownerId, r.claimId, r.leaseTtl, now);
      var result := StartResult(next.execution, false, AllUnknown(next.attempts));
      ClaimKeeps(id, rec, r.ownerId, r.claimId, r.leaseTtl, now,
                 Claim(false, r.ownerId, r.leaseTtl, r.specHash, next.nextToken, Some(result), None));
    }
  }

  lemma ResumeKeeps(id: ExecutionId, rec: Record, r: ResumeExecutionRequest, now: Time)
    requires Inv(id, rec)
    ensures Inv(id, ResumeOn(rec, r, now).0)
  {
    if ResumeOn(rec, r, now).0 != rec {
      var next := Claimed(rec, r.ownerId, r.claimId, r.leaseTtl, now);
      var result := ResumeResult(next.execution, AllUnknown(next.attempts));
      ClaimKeeps(id, rec, r.ownerId, r.claimId, r.leaseTtl, now,
                 Claim(true, r.ownerId, r.leaseTtl, 0, next.nextToken, None, Some(result)));
    }
  }

  lemma SuspendKeeps(id: ExecutionId, rec: Record, r: SuspendExecutionRequest, now: Time)
    requires Inv(id, rec) && r.lease.token != 0
    ensures Inv(id, SuspendOn(rec, r, now).0)
  {
    if SuspendOn(rec, r, now).0 != rec {
      LapseKeepsShape(id, rec, r.lease.token);
    }
  }

  lemma ReleaseKeeps(id: ExecutionId, rec: Record, r: ReleaseExecutionRequest)
    requires Inv(id, rec) && r.lease.token != 0
    ensures Inv(id, ReleaseOn(rec, r).0)
  {
    if ReleaseOn(rec, r).0 != rec {
      LapseKeepsShape(id, rec, r.lease.token);
    }
  }

  lemma FinishKeeps(id: ExecutionId, rec: Record, r: FinishExecutionRequest, now: Time)
    requires Inv(id, rec)
    ensures Inv(id, FinishOn(rec, r, now).0)
  {
    UncertainIff(rec.attempts);
    var rec' := FinishOn(rec, r, now).0;
    if rec' != rec {
      forall op | op in rec'.attempts ensures LogShape(id, op, rec'.attempts[op], None) {
        var log := rec.attempts[op];
        assert LogShape(id, op, log, rec.execution.lease);
        forall i | 0 <= i < |log| ensures StatusShape(log[i], None) {
          assert Quiet(log[i]);
          assert StatusShape(log[i], rec.execution.lease);
        }
      }
    }
  }

  lemma PutKeeps(id: ExecutionId, rec: Record, op: OperationId, at: nat, a: Attempt)
    requires Inv(id, rec)
    requires op in rec.attempts && at < |rec.attempts[op]|
    requires var b := rec.attempts[op][at];
             a.executionId == id && a.operationId == op && a.number == b.number && a.kind == b.kind
             && a.inputHash == b.inputHash && StatusShape(a, rec.execution.lease) && !Quiet(b)
    ensures Inv(id, Put(rec, op, at, a))
  {
    var rec' := Put(rec, op, at, a);
    var log := rec.attempts[op];
    assert LogShape(id, op, log, rec.execution.lease);
    assert LogShape(id, op, rec'.attempts[op], rec.execution.lease) by {
      assert log[at].status != Abandoned;
    }
    forall o | o in rec'.attempts ensures LogShape(id, o, rec'.attempts[o], rec'.execution.lease) {
      if o != op {
        assert LogShape(id, o, rec.attempts[o], rec.execution.lease);
      }
    }
    assert !Terminal(rec.execution.status);
  }

  lemma AppendKeeps(id: ExecutionId, rec: Record, op: OperationId, log: seq<Attempt>)
    requires Inv(id, rec) && rec.execution.status == Active
    requires LogShape(id, op, log, rec.execution.lease)
    ensures Inv(id, rec.(attempts := rec.attempts[op := log]))
  {
  }

  lemma StartAttemptKeeps(id: ExecutionId, rec: Record, r: StartAttemptRequest, now: Time)
    requires Inv(id, rec) && r.id == id
    ensures Inv(id, StartAttemptOn(rec, r, now).0)
  {
    var rec' := StartAttemptOn(rec, r, now).0;
    if rec' != rec {
      var lease := rec.execution.lease;
      assert StatusShape(NewAttempt(r, 1), lease);
      if r.operationId !in rec.attempts {
        AppendKeeps(id, rec, r.operationId, [NewAttempt(r, 1)]);
      } else {
        var log := rec.attempts[r.operationId];
        assert LogShape(id, r.operationId, log, lease);
        var latest := log[|log| - 1];
        assert latest.status == Abandoned;
        var a := NewAttempt(r, latest.number + 1);
        assert StatusShape(a, lease);
        AppendKeeps(id, rec, r.operationId, log + [a]);
      }
    }
  }

  lemma FinishAttemptKeeps(id: ExecutionId, rec: Record, r: SettleAttemptRequest, now: Time)
    requires Inv(id, rec)
    ensures Inv(id, FinishAttemptOn(rec, r, now).0)
  {
    var (rec', out) := FinishAttemptOn(rec, r, now);
    if rec' != rec {
      var p := Position(rec.attempts, r.operationId, r.number).value;
      assert LogShape(id, r.operationId, rec.attempts[r.operationId], rec.execution.lease);
      PutKeeps(id, rec, r.operationId, p, out.value);
    }
  }

  lemma MarkUnknownKeeps(id: ExecutionId, rec: Record, r: SettleAttemptRequest, now: Time)
    requires Inv(id, rec)
    ensures Inv(id, MarkUnknownOn(rec, r, now).0)
  {
    var (rec', out) := MarkUnknownOn(rec, r, now);
    if rec' != rec {
      var p := Position(rec.attempts, r.operationId, r.number).value;
      assert LogShape(id, r.operationId, rec.attempts[r.operationId], rec.execution.lease);
      PutKeeps(id, rec, r.operationId, p, out.value);
    }
  }

  lemma ReconcileKeeps(id: ExecutionId, rec: Record, r: ReconcileAttemptRequest, now: Time)
    requires Inv(id, rec) && ValidReconcile(r)
    ensures Inv(id, ReconcileOn(rec, r, now).0)
  {
    var (rec', out) := ReconcileOn(rec, r, now);
    if rec' != rec {
      var p := Position(rec.attempts, r.operationId, r.number).value;
      assert LogShape(id, r.operationId, rec.attempts[r.operationId], rec.execution.lease);
      PutKeeps(id, rec, r.operationId, p, out.value);
    }
  }

  /** Every command, accepted or not, keeps the invariant. */
  lemma OnKeeps(codec: Codec, rec: Record, command: Command, now: Time)
    requires Inv(command.Id(), rec) && ArgumentError(codec, command).None?
    ensures Inv(command.Id(), On(rec, command, now).0)
  {
    var id := command.Id();
    match command
    case StartExecution(r) => StartKeeps(id, rec, r, now);
    case ResumeExecution(r) => ResumeKeeps(id, rec, r, now);
    case RenewExecution(r) =>
    case SaveCheckpoint(r) =>
    case SuspendExecution(r) => SuspendKeeps(id, rec, r, now);
    case FinishExecution(r) => FinishKeeps(id, rec, r, now);
    case ReleaseExecution(r) => ReleaseKeeps(id, rec, r);
    case StartAttempt(r) => StartAttemptKeeps(id, rec, r, now);
    case FinishAttempt(r) => FinishAttemptKeeps(id, rec, r, now);
    case MarkAttemptUnknown(r) => MarkUnknownKeeps(id, rec, r, now);
    case ReconcileAttempt(r) => ReconcileKeeps(id, rec, r, now);
  }
}
