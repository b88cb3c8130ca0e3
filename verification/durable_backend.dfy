/** The backend as it runs: one mutable record per execution, every command
    updating its fields in place under the store's lock. Each method is proved to
    do exactly what the reference says. */
module DurableBackend {
  import opened Text
  import opened DurableTypes
  import opened Sorting
  import opened DurableSpec
  import opened DurableInvariant
  import opened DurableLaws

  type Log = map<OperationId, seq<Attempt>>

  /** The lapsed attempts of the operations in `done`. */
  ghost function LapsedIn(log: Log, token: nat, done: set<OperationId>): set<Attempt> {
    set op, i | op in log && op in done && 0 <= i < |log[op]| && Lapses(log[op][i], token) :: Lapse(log[op][i], token)
  }

  ghost function UnknownIn(log: Log, done: set<OperationId>): set<Attempt> {
    set op, i | op in log && op in done && 0 <= i < |log[op]| && log[op][i].status == Unknown :: log[op][i]
  }

  /** A gathered list names each operation and number at most once. */
  ghost predicate DistinctKeys(l: seq<Attempt>) {
    forall i, j :: 0 <= i < j < |l| ==> l[i].operationId != l[j].operationId || l[i].number != l[j].number
  }

  /** The list holds exactly these attempts, each once, from the operations done so far. */
  ghost predicate Gathered(l: seq<Attempt>, s: set<Attempt>, done: set<OperationId>) {
    && Elements(l) == s && DistinctKeys(l)
    && forall i :: 0 <= i < |l| ==> l[i].operationId in done
  }

  lemma GatherMore(l: seq<Attempt>, s: set<Attempt>, done: set<OperationId>, more: seq<Attempt>, op: OperationId)
    requires Gathered(l, s, done) && op !in done
    requires forall a :: a in Elements(more) ==> a.operationId == op
    requires forall i, j :: 0 <= i < j < |more| ==> more[i].number < more[j].number
    ensures Gathered(l + more, s + Elements(more), done + {op})
  {
    forall i | 0 <= i < |more| ensures more[i].operationId == op {
      assert more[i] in Elements(more);
    }
    assert Elements(l + more) == Elements(l) + Elements(more);
  }

  lemma ListArranges(l: seq<Attempt>, s: set<Attempt>)
    requires DistinctKeys(l) && Elements(l) == s
    ensures Sort(AttemptLess, l) == Arrange(AttemptLess, s)
  {
    AttemptOrder();
    forall a, b | a in s && b in s && a.operationId == b.operationId && a.number == b.number ensures a == b {
      assert a in l && b in l;
    }
    AttemptsComparable(s);
    SortArranges(AttemptLess, l, s);
  }

  lemma LapsedInAll(log: Log, token: nat)
    ensures Arrange(AttemptLess, LapsedIn(log, token, log.Keys)) == Lapsed(log, token)
  {
    var s := set a | a in Attempts(log) && Lapses(a, token) :: Lapse(a, token);
    forall b | b in LapsedIn(log, token, log.Keys) ensures b in s {
      var op, i :| op in log && 0 <= i < |log[op]| && Lapses(log[op][i], token) && Lapse(log[op][i], token) == b;
      assert log[op][i] in Attempts(log);
    }
    assert LapsedIn(log, token, log.Keys) == s;
  }

  lemma UnknownInAll(log: Log)
    ensures Arrange(AttemptLess, UnknownIn(log, log.Keys)) == AllUnknown(log)
  {
    var s := set a | a in Attempts(log) && a.status == Unknown;
    assert UnknownIn(log, log.Keys) == s;
  }

  lemma NothingGathered(log: Log, token: nat)
    ensures Gathered([], LapsedIn(log, token, {}), {}) && Gathered([], UnknownIn(log, {}), {})
  {
  }

  lemma GatheredArranges(l: seq<Attempt>, s: set<Attempt>, done: set<OperationId>)
    requires Gathered(l, s, done)
    ensures Sort(AttemptLess, l) == Arrange(AttemptLess, s)
  {
    ListArranges(l, s);
  }

  lemma LapsedMore(log: Log, token: nat, done: set<OperationId>, op: OperationId, l: seq<Attempt>, gone: seq<Attempt>)
    requires op in log && op !in done && Gathered(l, LapsedIn(log, token, done), done)
    requires Elements(gone) == set i | 0 <= i < |log[op]| && Lapses(log[op][i], token) :: Lapse(log[op][i], token)
    requires forall a :: a in Elements(gone) ==> a.operationId == op
    requires forall i, j :: 0 <= i < j < |gone| ==> gone[i].number < gone[j].number
    ensures Gathered(l + gone, LapsedIn(log, token, done + {op}), done + {op})
  {
    hide Gathered;
    LapsedInGrows(log, token, done, op);
    GatherMore(l, LapsedIn(log, token, done), done, gone, op);
  }

  lemma UnknownMore(log: Log, done: set<OperationId>, op: OperationId, l: seq<Attempt>, more: seq<Attempt>)
    requires op in log && op !in done && Gathered(l, UnknownIn(log, done), done)
    requires Elements(more) == set i | 0 <= i < |log[op]| && log[op][i].status == Unknown :: log[op][i]
    requires forall a :: a in Elements(more) ==> a.operationId == op
    requires forall i, j :: 0 <= i < j < |more| ==> more[i].number < more[j].number
    ensures Gathered(l + more, UnknownIn(log, done + {op}), done + {op})
  {
    hide Gathered;
    UnknownInGrows(log, done, op);
    GatherMore(l, UnknownIn(log, done), done, more, op);
  }

  ghost predicate LapsedSoFar(before: Log, current: Log, token: nat, done: set<OperationId>) {
    && current.Keys == before.Keys
    && forall op :: op in before ==> current[op] == if op in done then LapseAll(before, token)[op] else before[op]
  }

  lemma LapseOneMore(before: Log, current: Log, token: nat, done: set<OperationId>, op: OperationId, next: seq<Attempt>)
    requires LapsedSoFar(before, current, token, done) && op in before
    requires |next| == |before[op]| && forall i :: 0 <= i < |next| ==> next[i] == Lapse(before[op][i], token)
    ensures LapsedSoFar(before, current[op := next], token, done + {op})
  {
    assert next == LapseAll(before, token)[op];
  }

  lemma LapsedThroughout(before: Log, current: Log, token: nat)
    requires LapsedSoFar(before, current, token, before.Keys)
    ensures current == LapseAll(before, token)
  {
  }

  /** Lets every running attempt in one operation's log lapse and reports which did. */
  method LapseLog(log: seq<Attempt>, token: nat) returns (next: seq<Attempt>, gone: seq<Attempt>)
    requires forall i :: 0 <= i < |log| ==> log[i].number == i + 1
    ensures |next| == |log| && forall i :: 0 <= i < |log| ==> next[i] == Lapse(log[i], token)
    ensures Elements(gone) == set i | 0 <= i < |log| && Lapses(log[i], token) :: Lapse(log[i], token)
    ensures forall i, j :: 0 <= i < j < |gone| ==> gone[i].number < gone[j].number
  {
    next, gone := log, [];
    var index := 0;
    while index < |next|
      invariant 0 <= index <= |next| == |log|
      invariant forall i :: 0 <= i < index ==> next[i] == Lapse(log[i], token)
      invariant forall i :: index <= i < |log| ==> next[i] == log[i]
      invariant Elements(gone) == set i | 0 <= i < index && Lapses(log[i], token) :: Lapse(log[i], token)
      invariant forall i :: 0 <= i < |gone| ==> gone[i].number <= index
      invariant forall i, j :: 0 <= i < j < |gone| ==> gone[i].number < gone[j].number
    {
      var attempt := next[index];
      if attempt.status == Running && attempt.lease.Some? && (token == 0 || attempt.lease.value.token == token) {
        next := next[index := attempt.(status := Unknown, lease := None, version := attempt.version + 1)];
        assert Elements(gone + [next[index]]) == Elements(gone) + {next[index]};
        gone := gone + [next[index]];
      }
      index := index + 1;
    }
  }

  class ExecutionRecord {
    var execution: Execution
    var attempts: Log
    var claims: map<ClaimId, Claim>
    var releases: map<LeaseRef, ReleaseResult>
    var suspends: map<SuspendKey, Execution>
    var finishes: map<FinishKey, Execution>
    var nextToken: nat

    ghost function Snapshot(): Record
      reads this
    {
      Record(execution, attempts, claims, releases, suspends, finishes, nextToken)
    }

    ghost predicate Valid()
      reads this
    {
      Inv(execution.id, Snapshot())
    }

    /** The record that the first accepted StartExecution creates. */
    constructor (request: StartExecutionRequest, now: Time)
      ensures Valid() && Snapshot() == Created(request, now)
    {
      var started := Execution(request.id, request.spec, request.specHash, Active, 1,
                               Some(Lease(request.ownerId, request.claimId, 1, now + request.leaseTtl)), None, None, 0);
      execution := started;
      attempts, releases, suspends, finishes := map[], map[], map[], map[];
      nextToken := 1;
      claims := map[request.claimId := Claim(false, request.ownerId, request.leaseTtl, request.specHash, 1,
                                             Some(StartResult(started, true, [])), None)];
      new;
      CreatedInv(request, now);
    }

    /** The map may be walked in any order: the sorted report does not depend on it. */
    method ReconcileRunning(token: nat) returns (reconciled: seq<Attempt>)
      requires Numbered(attempts)
      modifies this`attempts
      ensures attempts == LapseAll(old(attempts), token)
      ensures reconciled == Lapsed(old(attempts), token)
    {
      hide Gathered, LapsedIn, Lapsed, LapseAll, Sort;
      ghost var before, done := attempts, {};
      NothingGathered(before, token);
      reconciled := [];
      var todo := attempts.Keys;
      while todo != {}
        invariant done <= before.Keys && todo == before.Keys - done
        invariant LapsedSoFar(before, attempts, token, done)
        invariant Gathered(reconciled, LapsedIn(before, token, done), done)
        decreases |todo|
      {
        var op :| op in todo;
        assert attempts[op] == before[op];
        var next, gone := LapseLog(attempts[op], token);
        LapsedMore(before, token, done, op, reconciled, gone);
        LapseOneMore(before, attempts, token, done, op, next);
        reconciled := reconciled + gone;
        attempts := attempts[op := next];
        todo, done := todo - {op}, done + {op};
      }
      assert done == before.Keys;
      LapsedThroughout(before, attempts, token);
      GatheredArranges(reconciled, LapsedIn(before, token, before.Keys), before.Keys);
      LapsedInAll(before, token);
      reconciled := Sort(AttemptLess, reconciled);
    }

    method ReconcileForClaim() returns (reconciled: seq<Attempt>)
      requires Numbered(attempts)
      modifies this`attempts
      ensures attempts == LapseAll(old(attempts), 0)
      ensures reconciled == AllUnknown(attempts)
    {
      hide Gathered, UnknownIn, AllUnknown, Sort;
      var _ := ReconcileRunning(0);
      ghost var done := {};
      NothingGathered(attempts, 0);
      reconciled := [];
      var todo := attempts.Keys;
      while todo != {}
        invariant attempts == LapseAll(old(attempts), 0)
        invariant done <= attempts.Keys && todo == attempts.Keys - done
        invariant Gathered(reconciled, UnknownIn(attempts, done), done)
        decreases |todo|
      {
        var op :| op in todo;
        var unknown := UnknownOf(attempts[op]);
        UnknownMore(attempts, done, op, reconciled, unknown);
        reconciled := reconciled + unknown;
        todo, done := todo - {op}, done + {op};
      }
      assert done == attempts.Keys;
      GatheredArranges(reconciled, UnknownIn(attempts, attempts.Keys), attempts.Keys);
      UnknownInAll(attempts);
      reconciled := Sort(AttemptLess, reconciled);
    }

    /** What every fresh claim does before it is recorded. */
    method IssueLease(ownerId: string, claimId: ClaimId, ttl: int, now: Time) returns (reconcile: seq<Attempt>)
      requires Numbered(attempts)
      modifies this`attempts, this`nextToken, this`execution
      ensures Snapshot() == Claimed(old(Snapshot()), ownerId, claimId, ttl, now)
      ensures reconcile == AllUnknown(attempts)
    {
      reconcile := ReconcileForClaim();
      nextToken := nextToken + 1;
      execution := execution.(status := Active, lease := Some(Lease(ownerId, claimId, nextToken, now + ttl)));
    }

    method HasUncertainAttempts() returns (uncertain: bool)
      ensures uncertain == Uncertain(attempts)
    {
      UncertainIff(attempts);
      var todo := attempts.Keys;
      while todo != {}
        invariant todo <= attempts.Keys
        invariant forall op, i :: op in attempts && op !in todo && 0 <= i < |attempts[op]| ==> Quiet(attempts[op][i])
        decreases |todo|
      {
        var op :| op in todo;
        var index := 0;
        while index < |attempts[op]|
          invariant 0 <= index <= |attempts[op]|
          invariant forall i :: 0 <= i < index ==> Quiet(attempts[op][i])
        {
          if attempts[op][index].status == Running || attempts[op][index].status == Unknown {
            return true;
          }
          index := index + 1;
        }
        todo := todo - {op};
      }
      return false;
    }

    method AttemptByNumber(op: OperationId, number: int) returns (at: Option<nat>)
      ensures at == Position(attempts, op, number)
    {
      if op !in attempts {
        return None;
      }
      var index := 0;
      while index < |attempts[op]|
        invariant 0 <= index <= |attempts[op]|
        invariant Position(attempts, op, number) == PositionFrom(attempts[op], number, index)
      {
        if attempts[op][index].number == number {
          return Some(index);
        }
        index := index + 1;
      }
      return None;
    }

    // ---- claims ----

    method Start(request: StartExecutionRequest, now: Time) returns (result: Outcome<StartResult>)
      requires Valid()
      modifies this
      ensures Valid()
      ensures (Snapshot(), result) == StartOn(old(Snapshot()), request, now)
    {
      ghost var before := Snapshot();
      StartKeeps(execution.id, before, request, now);
      InvNumbered(execution.id, before);
      if execution.specHash != request.specHash {
        return Err(ExecutionError(request.id, Conflict));
      }
      if Terminal(execution.status) {
        return Ok(StartResult(execution, false, []));
      }
      if request.claimId in claims {
        var prior := claims[request.claimId];
        if prior.resuming || prior.ownerId != request.ownerId || prior.leaseTtl != request.leaseTtl
           || prior.specHash != request.specHash {
          return Err(ExecutionError(request.id, Conflict));
        }
        if nextToken > prior.token {
          return Err(ExecutionError(request.id, LeaseLost));
        }
        if LeaseActive(execution.lease, now) && execution.lease.value.claimId == request.claimId && prior.start.Some? {
          return Ok(prior.start.value);
        }
      }
      if LeaseActive(execution.lease, now) {
        return Err(ExecutionError(request.id, Busy));
      }
      var reconcile := IssueLease(request.ownerId, request.claimId, request.leaseTtl, now);
      var started := StartResult(execution, false, reconcile);
      claims := claims[request.claimId := Claim(false, request.ownerId, request.leaseTtl, request.specHash,
                                                nextToken, Some(started), None)];
      return Ok(started);
    }

    method Resume(request: ResumeExecutionRequest, now: Time) returns (result: Outcome<ResumeResult>)
      requires Valid()
      modifies this
      ensures Valid()
      ensures (Snapshot(), result) == ResumeOn(old(Snapshot()), request, now)
    {
      ghost var before := Snapshot();
      ResumeKeeps(execution.id, before, request, now);
      InvNumbered(execution.id, before);
      if Terminal(execution.status) {
        return Ok(ResumeResult(execution, []));
      }
      if request.claimId in claims {
        var prior := claims[request.claimId];
        if !prior.resuming || prior.ownerId != request.ownerId || prior.leaseTtl != request.leaseTtl {
          return Err(ExecutionError(request.id, Conflict));
        }
        if nextToken > prior.token {
          return Err(ExecutionError(request.id, LeaseLost));
        }
        if LeaseActive(execution.lease, now) && execution.lease.value.claimId == request.claimId && prior.resume.Some? {
          return Ok(prior.resume.value);
        }
      }
      if LeaseActive(execution.lease, now) {
        return Err(ExecutionError(request.id, Busy));
      }
      var reconcile := IssueLease(request.ownerId, request.claimId, request.leaseTtl, now);
      var resumed := ResumeResult(execution, reconcile);
      claims := claims[request.claimId := Claim(true, request.ownerId, request.leaseTtl, 0,
                                                nextToken, None, Some(resumed))];
      return Ok(resumed);
    }

    // ---- lease holder commands ----

    method Renew(request: RenewExecutionRequest, now: Time) returns (result: Outcome<Lease>)
      requires Valid()
      modifies this`execution
      ensures Valid()
      ensures (Snapshot(), result) == RenewOn(old(Snapshot()), request, now)
    {
      if !HoldsLease(execution, request.lease, now) {
        return Err(ExecutionError(request.id, LeaseLost));
      }
      execution := execution.(lease := Some(execution.lease.value.(expiresAt := now + request.leaseTtl)));
      return Ok(execution.lease.value);
    }

    method Save(request: SaveCheckpointRequest, now: Time) returns (result: Outcome<Execution>)
      requires Valid()
      modifies this`execution
      ensures Valid()
      ensures (Snapshot(), result) == SaveOn(old(Snapshot()), request, now)
    {
      if !HoldsLease(execution, request.lease, now) {
        return Err(ExecutionError(request.id, LeaseLost));
      }
      if execution.checkpoint.Some? {
        var current := execution.checkpoint.value;
        if current.sequence == request.checkpoint.sequence {
          if current.hash != request.checkpoint.hash {
            return Err(ExecutionError(request.id, Conflict));
          }
          return Ok(execution);
        }
        if request.checkpoint.sequence < current.sequence {
          return Err(ExecutionError(request.id, Conflict));
        }
      }
      if execution.version != request.expectedVersion {
        return Err(ExecutionError(request.id, Conflict));
      }
      execution := execution.(checkpoint := Some(request.checkpoint), version := execution.version + 1);
      return Ok(execution);
    }

    method Suspend(request: SuspendExecutionRequest, now: Time) returns (result: Outcome<Execution>)
      requires Valid() && request.lease.token != 0
      modifies this
      ensures Valid()
      ensures (Snapshot(), result) == SuspendOn(old(Snapshot()), request, now)
    {
      SuspendKeeps(execution.id, Snapshot(), request, now);
      InvNumbered(execution.id, Snapshot());
      if nextToken > request.lease.token {
        return Err(ExecutionError(request.id, LeaseLost));
      }
      var key := SuspendKey(request.lease, request.expectedVersion);
      if key in suspends {
        return Ok(suspends[key]);
      }
      if !HoldsLease(execution, request.lease, now) {
        return Err(ExecutionError(request.id, LeaseLost));
      }
      if execution.version != request.expectedVersion {
        return Err(ExecutionError(request.id, Conflict));
      }
      var _ := ReconcileRunning(request.lease.token);
      execution := execution.(status := Suspended, lease := None, version := execution.version + 1);
      suspends := suspends[key := execution];
      return Ok(execution);
    }

    method Finish(request: FinishExecutionRequest, now: Time) returns (result: Outcome<Execution>)
      requires Valid()
      modifies this
      ensures Valid()
      ensures (Snapshot(), result) == FinishOn(old(Snapshot()), request, now)
    {
      FinishKeeps(execution.id, Snapshot(), request, now);
      if nextToken > request.lease.token {
        return Err(ExecutionError(request.id, LeaseLost));
      }
      var key := FinishKey(request.lease, request.expectedVersion, request.resultHash);
      if key in finishes {
        return Ok(finishes[key]);
      }
      if Terminal(execution.status) {
        return Err(ExecutionError(request.id, Conflict));
      }
      if !HoldsLease(execution, request.lease, now) {
        return Err(ExecutionError(request.id, LeaseLost));
      }
      if execution.version != request.expectedVersion {
        return Err(ExecutionError(request.id, Conflict));
      }
      var uncertain := HasUncertainAttempts();
      if uncertain {
        return Err(ExecutionError(request.id, ReconcileRequired));
      }
      execution := execution.(
        result := Some(request.result),
        resultHash := request.resultHash,
        status := if request.result.failed then Defeated else Completed,
        lease := None,
        version := execution.version + 1);
      finishes := finishes[key := execution];
      return Ok(execution);
    }

    method Release(request: ReleaseExecutionRequest) returns (result: Outcome<ReleaseResult>)
      requires Valid() && request.lease.token != 0
      modifies this
      ensures Valid()
      ensures (Snapshot(), result) == ReleaseOn(old(Snapshot()), request)
    {
      ReleaseKeeps(execution.id, Snapshot(), request);
      InvNumbered(execution.id, Snapshot());
      if nextToken > request.lease.token {
        return Err(ExecutionError(request.id, LeaseLost));
      }
      if request.lease in releases {
        return Ok(releases[request.lease]);
      }
      if !LeaseMatches(execution.lease, request.lease) {
        return Err(ExecutionError(request.id, LeaseLost));
      }
      var reconcile := ReconcileRunning(request.lease.token);
      execution := execution.(lease := None);
      var released := ReleaseResult(execution, reconcile);
      releases := releases[request.lease := released];
      return Ok(released);
    }

    // ---- attempts ----

    /** Proved without the invariant, which would make the branch that takes over
        another owner's attempt unreachable. */
    method StartAttempt(request: StartAttemptRequest, now: Time) returns (result: Outcome<AttemptStart>)
      requires request.id == execution.id
      modifies this`attempts
      ensures old(Valid()) ==> Valid()
      ensures (Snapshot(), result) == StartAttemptOn(old(Snapshot()), request, now)
    {
      if Valid() {
        StartAttemptKeeps(execution.id, Snapshot(), request, now);
      }
      if !HoldsLease(execution, request.lease, now) {
        return Err(AttemptError(request.id, request.operationId, 0, LeaseLost));
      }
      var log := if request.operationId in attempts then attempts[request.operationId] else [];
      if |log| == 0 {
        var attempt := NewAttempt(request, 1);
        attempts := attempts[request.operationId := [attempt]];
        return Ok(AttemptStart(attempt, Execute));
      }
      var latest := log[|log| - 1];
      if latest.kind != request.kind || latest.inputHash != request.inputHash {
        return Err(AttemptError(request.id, request.operationId, latest.number, Conflict));
      }
      match latest.status {
        case Succeeded => return Ok(AttemptStart(latest, Replay));
        case Failed => return Ok(AttemptStart(latest, Replay));
        case Unknown => return Ok(AttemptStart(latest, Reconcile));
        case Running =>
          if latest.lease == Some(request.lease) {
            return Ok(AttemptStart(latest, Execute));
          }
          latest := latest.(status := Unknown, lease := None, version := latest.version + 1);
          attempts := attempts[request.operationId := log[|log| - 1 := latest]];
          return Ok(AttemptStart(latest, Reconcile));
        case Abandoned =>
          var attempt := NewAttempt(request, latest.number + 1);
          attempts := attempts[request.operationId := log + [attempt]];
          return Ok(AttemptStart(attempt, Execute));
      }
    }

    method FinishAttempt(request: SettleAttemptRequest, now: Time) returns (result: Outcome<Attempt>)
      requires Valid()
      modifies this`attempts
      ensures Valid()
      ensures (Snapshot(), result) == FinishAttemptOn(old(Snapshot()), request, now)
    {
      FinishAttemptKeeps(execution.id, Snapshot(), request, now);
      if !HoldsLease(execution, request.lease, now) {
        return Err(AttemptError(request.id, request.operationId, request.number, LeaseLost));
      }
      var at := AttemptByNumber(request.operationId, request.number);
      if at.None? {
        return Err(AttemptError(request.id, request.operationId, request.number, NotFound));
      }
      var attempt := attempts[request.operationId][at.value];
      if attempt.status == Succeeded || attempt.status == Failed {
        if attempt.version == request.expectedVersion + 1 && attempt.payload == request.payload
           && attempt.failure == request.failure {
          return Ok(attempt);
        }
        return Err(AttemptError(request.id, request.operationId, request.number, Conflict));
      }
      if attempt.status != Running || attempt.version != request.expectedVersion
         || attempt.lease != Some(request.lease) {
        return Err(AttemptError(request.id, request.operationId, request.number, Conflict));
      }
      attempt := attempt.(status := if request.failure.Some? then Failed else Succeeded, lease := None,
                          payload := request.payload, failure := request.failure, version := attempt.version + 1);
      attempts := attempts[request.operationId := attempts[request.operationId][at.value := attempt]];
      return Ok(attempt);
    }

    method MarkAttemptUnknown(request: SettleAttemptRequest, now: Time) returns (result: Outcome<Attempt>)
      requires Valid()
      modifies this`attempts
      ensures Valid()
      ensures (Snapshot(), result) == MarkUnknownOn(old(Snapshot()), request, now)
    {
      MarkUnknownKeeps(execution.id, Snapshot(), request, now);
      if !HoldsLease(execution, request.lease, now) {
        return Err(AttemptError(request.id, request.operationId, request.number, LeaseLost));
      }
      var at := AttemptByNumber(request.operationId, request.number);
      if at.None? {
        return Err(AttemptError(request.id, request.operationId, request.number, NotFound));
      }
      var attempt := attempts[request.operationId][at.value];
      if attempt.status == Unknown {
        if attempt.version == request.expectedVersion + 1 && attempt.payload == request.payload
           && attempt.failure == request.failure {
          return Ok(attempt);
        }
        return Err(AttemptError(request.id, request.operationId, request.number, Conflict));
      }
      if attempt.status != Running || attempt.version != request.expectedVersion
         || attempt.lease != Some(request.lease) {
        return Err(AttemptError(request.id, request.operationId, request.number, Conflict));
      }
      attempt := attempt.(status := Unknown, lease := None, payload := request.payload,
                          failure := request.failure, version := attempt.version + 1);
      attempts := attempts[request.operationId := attempts[request.operationId][at.value := attempt]];
      return Ok(attempt);
    }

    method ReconcileAttempt(request: ReconcileAttemptRequest, now: Time) returns (result: Outcome<Attempt>)
      requires Valid() && ValidReconcile(request)
      modifies this`attempts
      ensures Valid()
      ensures (Snapshot(), result) == ReconcileOn(old(Snapshot()), request, now)
    {
      ReconcileKeeps(execution.id, Snapshot(), request, now);
      if LeaseActive(execution.lease, now) {
        return Err(AttemptError(request.id, request.operationId, request.number, Busy));
      }
      var at := AttemptByNumber(request.operationId, request.number);
      if at.None? {
        return Err(AttemptError(request.id, request.operationId, request.number, NotFound));
      }
      var attempt := attempts[request.operationId][at.value];
      if ReconcileExact(attempt, request) {
        return Ok(attempt);
      }
      if attempt.status != Unknown || attempt.version != request.expectedVersion {
        return Err(AttemptError(request.id, request.operationId, request.number, Conflict));
      }
      match request.resolution {
        case Succeed =>
          attempt := attempt.(status := Succeeded, payload := request.payload, failure := None);
        case Fail =>
          attempt := attempt.(status := Failed, payload := request.payload, failure := request.failure);
        case Retry =>
          attempt := attempt.(status := Abandoned, payload := "", failure := None);
        case OtherResolution =>
      }
      attempt := attempt.(lease := None, version := attempt.version + 1);
      attempts := attempts[request.operationId := attempts[request.operationId][at.value := attempt]];
      return Ok(attempt);
    }
  }

  lemma LapsedInGrows(log: Log, token: nat, done: set<OperationId>, op: OperationId)
    requires op in log
    ensures LapsedIn(log, token, done + {op}) == LapsedIn(log, token, done) +
            set i | 0 <= i < |log[op]| && Lapses(log[op][i], token) :: Lapse(log[op][i], token)
  {
  }

  lemma UnknownInGrows(log: Log, done: set<OperationId>, op: OperationId)
    requires op in log
    ensures UnknownIn(log, done + {op}) == UnknownIn(log, done) +
            set i | 0 <= i < |log[op]| && log[op][i].status == Unknown :: log[op][i]
  {
  }

  /** The unknown attempts of one operation, oldest first. */
  method UnknownOf(log: seq<Attempt>) returns (unknown: seq<Attempt>)
    requires forall i :: 0 <= i < |log| ==> log[i].number == i + 1
    ensures Elements(unknown) == set i | 0 <= i < |log| && log[i].status == Unknown :: log[i]
    ensures forall i, j :: 0 <= i < j < |unknown| ==> unknown[i].number < unknown[j].number
  {
    unknown := [];
    for index := 0 to |log|
      invariant Elements(unknown) == set i | 0 <= i < index && log[i].status == Unknown :: log[i]
      invariant forall i :: 0 <= i < |unknown| ==> unknown[i].number <= index
      invariant forall i, j :: 0 <= i < j < |unknown| ==> unknown[i].number < unknown[j].number
    {
      if log[index].status == Unknown {
        assert Elements(unknown + [log[index]]) == Elements(unknown) + {log[index]};
        unknown := unknown + [log[index]];
      }
    }
  }
}
