/** What each backend command does to one execution record: the reference that
    the imperative backend is proved against and that the invariants are about. */
module DurableSpec {
  import opened Text
  import opened DurableTypes
  import opened Sorting

  // ---- leases and status ----

  predicate LeaseMatches(lease: Option<Lease>, reference: LeaseRef) {
    lease.Some? && lease.value.ownerId == reference.ownerId && lease.value.token == reference.token
  }

  predicate LeaseActive(lease: Option<Lease>, now: Time) {
    lease.Some? && lease.value.expiresAt > now
  }

  predicate HoldsLease(execution: Execution, reference: LeaseRef, now: Time) {
    LeaseMatches(execution.lease, reference) && LeaseActive(execution.lease, now)
  }

  predicate Terminal(status: ExecutionStatus) {
    status == Completed || status == Defeated
  }

  // ---- attempts ----

  predicate AttemptLess(a: Attempt, b: Attempt) {
    if a.operationId != b.operationId then Less(a.operationId, b.operationId) else a.number < b.number
  }

  ghost function Attempts(log: map<OperationId, seq<Attempt>>): set<Attempt> {
    set op, i | op in log && 0 <= i < |log[op]| :: log[op][i]
  }

  /** Whether losing the lease `token` (any lease, when zero) leaves the attempt uncertain. */
  predicate Lapses(a: Attempt, token: nat) {
    a.status == Running && a.lease.Some? && (token == 0 || a.lease.value.token == token)
  }

  function Lapse(a: Attempt, token: nat): Attempt {
    if Lapses(a, token) then a.(status := Unknown, lease := None, version := a.version + 1) else a
  }

  function LapseAll(log: map<OperationId, seq<Attempt>>, token: nat): map<OperationId, seq<Attempt>> {
    map op | op in log :: seq(|log[op]|, i requires 0 <= i < |log[op]| => Lapse(log[op][i], token))
  }

  ghost function Lapsed(log: map<OperationId, seq<Attempt>>, token: nat): seq<Attempt> {
    Arrange(AttemptLess, set a | a in Attempts(log) && Lapses(a, token) :: Lapse(a, token))
  }

  ghost function AllUnknown(log: map<OperationId, seq<Attempt>>): seq<Attempt> {
    Arrange(AttemptLess, set a | a in Attempts(log) && a.status == Unknown)
  }

  ghost predicate Uncertain(log: map<OperationId, seq<Attempt>>) {
    exists a :: a in Attempts(log) && (a.status == Running || a.status == Unknown)
  }

  // ---- argument checks ----

  predicate ValidLeaseRef(id: ExecutionId, lease: LeaseRef) {
    !Blank(id) && lease.ownerId != "" && lease.token != 0
  }

  predicate ValidClaim(id: ExecutionId, ownerId: string, claimId: ClaimId, ttl: int) {
    !Blank(id) && !Blank(ownerId) && claimId != 0 && ttl > 0
  }

  predicate ValidAttemptIdentity(id: ExecutionId, operationId: OperationId, number: int) {
    !Blank(id) && !Blank(operationId) && number >= 1
  }

  predicate ValidSettle(r: SettleAttemptRequest) {
    && ValidAttemptIdentity(r.id, r.operationId, r.number)
    && r.lease.ownerId != "" && r.lease.token != 0 && r.expectedVersion != 0
  }

  predicate ValidReconcile(r: ReconcileAttemptRequest) {
    && ValidAttemptIdentity(r.id, r.operationId, r.number)
    && r.expectedVersion != 0
    && match r.resolution
       case Succeed => r.payload != "" && r.failure.None?
       case Fail => r.failure.Some?
       case Retry => r.payload == "" && r.failure.None?
       case OtherResolution => false
  }

  predicate ValidStartAttempt(r: StartAttemptRequest) {
    && ValidLeaseRef(r.id, r.lease)
    && r.operationId != "" && r.inputHash != 0 && (r.kind == Model || r.kind == Tool)
  }

  predicate ValidCheckpoint(codec: Codec, c: Checkpoint) {
    c.sequence != 0 && codec.continuation(c.continuation) == Some(c.hash)
  }

  /** The error that rejects a command before any record is looked at. */
  function ArgumentError(codec: Codec, command: Command): Option<BackendError> {
    match command
    case StartExecution(r) =>
      if !ValidClaim(r.id, r.ownerId, r.claimId, r.leaseTtl) then Some(ExecutionError(r.id, InvalidArgument))
      else if codec.spec(r.spec).None? then Some(ExecutionError(r.id, InvalidArgument))
      else if codec.spec(r.spec).value != r.specHash then Some(ExecutionError(r.id, Conflict))
      else None
    case ResumeExecution(r) =>
      if !ValidClaim(r.id, r.ownerId, r.claimId, r.leaseTtl) then Some(ExecutionError(r.id, InvalidArgument)) else None
    case RenewExecution(r) =>
      if !ValidLeaseRef(r.id, r.lease) || r.leaseTtl <= 0 then Some(ExecutionError(r.id, InvalidArgument)) else None
    case SaveCheckpoint(r) =>
      if !ValidLeaseRef(r.id, r.lease) then Some(ExecutionError(r.id, InvalidArgument))
      else if !ValidCheckpoint(codec, r.checkpoint) then Some(ExecutionError(r.id, CorruptCheckpoint))
      else None
    case SuspendExecution(r) =>
      if !ValidLeaseRef(r.id, r.lease) then Some(ExecutionError(r.id, InvalidArgument)) else None
    case FinishExecution(r) =>
      if !ValidLeaseRef(r.id, r.lease) then Some(ExecutionError(r.id, InvalidArgument))
      else if codec.result(r.result).None? then Some(ExecutionError(r.id, InvalidArgument))
      else if codec.result(r.result).value != r.resultHash then Some(ExecutionError(r.id, Conflict))
      else None
    case ReleaseExecution(r) =>
      if !ValidLeaseRef(r.id, r.lease) then Some(ExecutionError(r.id, InvalidArgument)) else None
    case StartAttempt(r) =>
      if !ValidStartAttempt(r) then Some(AttemptError(r.id, r.operationId, 0, InvalidArgument)) else None
    case FinishAttempt(r) =>
      if !ValidSettle(r) then Some(AttemptError(r.id, r.operationId, r.number, InvalidArgument)) else None
    case MarkAttemptUnknown(r) =>
      if !ValidSettle(r) then Some(AttemptError(r.id, r.operationId, r.number, InvalidArgument)) else None
    case ReconcileAttempt(r) =>
      if !ValidReconcile(r) then Some(AttemptError(r.id, r.operationId, r.number, InvalidArgument)) else None
  }

  function MissingError(command: Command): BackendError {
    match command
    case StartAttempt(r) => AttemptError(r.id, r.operationId, 0, NotFound)
    case FinishAttempt(r) => AttemptError(r.id, r.operationId, 0, NotFound)
    case MarkAttemptUnknown(r) => AttemptError(r.id, r.operationId, 0, NotFound)
    case ReconcileAttempt(r) => AttemptError(r.id, r.operationId, 0, NotFound)
    case _ => ExecutionError(command.Id(), NotFound)
  }

  // ---- claiming ----

  /** The record that the first accepted StartExecution creates. */
  function Created(r: StartExecutionRequest, now: Time): Record {
    var execution := Execution(r.id, r.spec, r.specHash, Active, 1,
                               Some(Lease(r.ownerId, r.claimId, 1, now + r.leaseTtl)), None, None, 0);
    var claim := Claim(false, r.ownerId, r.leaseTtl, r.specHash, 1, Some(StartResult(execution, true, [])), None);
    Record(execution, map[], map[r.claimId := claim], map[], map[], map[], 1)
  }

  /** A fresh claim: every running attempt lapses and a new token is issued. */
  ghost function Claimed(rec: Record, ownerId: string, claimId: ClaimId, ttl: int, now: Time): Record {
    rec.(
    attempts := LapseAll(rec.attempts, 0),
    nextToken := rec.nextToken + 1,
    execution := rec.execution.(
      status := Active,
      lease := Some(Lease(ownerId, claimId, rec.nextToken + 1, now + ttl))))
  }

  ghost function StartOn(rec: Record, r: StartExecutionRequest, now: Time): (Record, Outcome<StartResult>) {
    if rec.execution.specHash != r.specHash then (rec, Err(ExecutionError(r.id, Conflict)))
    else if Terminal(rec.execution.status) then (rec, Ok(StartResult(rec.execution, false, [])))
    else
      var known := r.claimId in rec.claims;
      if known && !(var c := rec.claims[r.claimId];
                    !c.resuming && c.ownerId == r.ownerId && c.leaseTtl == r.leaseTtl && c.specHash == r.specHash) then
        (rec, Err(ExecutionError(r.id, Conflict)))
      else if known && rec.nextToken > rec.claims[r.claimId].token then
        (rec, Err(ExecutionError(r.id, LeaseLost)))
      else if known && LeaseActive(rec.execution.lease, now) && rec.execution.lease.value.claimId == r.claimId
              && rec.claims[r.claimId].start.Some? then
        (rec, Ok(rec.claims[r.claimId].start.value))
      else if LeaseActive(rec.execution.lease, now) then (rec, Err(ExecutionError(r.id, Busy)))
      else
        var next := Claimed(rec, r.ownerId, r.claimId, r.leaseTtl, now);
        var result := StartResult(next.execution, false, AllUnknown(next.attempts));
        (next.(claims := next.claims[r.claimId :=
           Claim(false, r.ownerId, r.leaseTtl, r.specHash, next.nextToken, Some(result), None)]), Ok(result))
  }

  ghost function ResumeOn(rec: Record, r: ResumeExecutionRequest, now: Time): (Record, Outcome<ResumeResult>) {
    if Terminal(rec.execution.status) then (rec, Ok(ResumeResult(rec.execution, [])))
    else
      var known := r.claimId in rec.claims;
      if known && !(var c := rec.claims[r.claimId];
                    c.resuming && c.ownerId == r.ownerId && c.leaseTtl == r.leaseTtl) then
        (rec, Err(ExecutionError(r.id, Conflict)))
      else if known && rec.nextToken > rec.claims[r.claimId].token then
        (rec, Err(ExecutionError(r.id, LeaseLost)))
      else if known && LeaseActive(rec.execution.lease, now) && rec.execution.lease.value.claimId == r.claimId
              && rec.claims[r.claimId].resume.Some? then
        (rec, Ok(rec.claims[r.claimId].resume.value))
      else if LeaseActive(rec.execution.lease, now) then (rec, Err(ExecutionError(r.id, Busy)))
      else
        var next := Claimed(rec, r.ownerId, r.claimId, r.leaseTtl, now);
        var result := ResumeResult(next.execution, AllUnknown(next.attempts));
        (next.(claims := next.claims[r.claimId :=
           Claim(true, r.ownerId, r.leaseTtl, 0, next.nextToken, None, Some(result))]), Ok(result))
  }

  // ---- lease holder commands ----

  function RenewOn(rec: Record, r: RenewExecutionRequest, now: Time): (Record, Outcome<Lease>) {
    if !HoldsLease(rec.execution, r.lease, now) then (rec, Err(ExecutionError(r.id, LeaseLost)))
    else
      var lease := rec.execution.lease.value.(expiresAt := now + r.leaseTtl);
      (rec.(execution := rec.execution.(lease := Some(lease))), Ok(lease))
  }

  function SaveOn(rec: Record, r: SaveCheckpointRequest, now: Time): (Record, Outcome<Execution>) {
    if !HoldsLease(rec.execution, r.lease, now) then (rec, Err(ExecutionError(r.id, LeaseLost)))
    else if rec.execution.checkpoint.Some? && rec.execution.checkpoint.value.sequence == r.checkpoint.sequence then
      if rec.execution.checkpoint.value.hash != r.checkpoint.hash then (rec, Err(ExecutionError(r.id, Conflict)))
      else (rec, Ok(rec.execution))
    else if rec.execution.checkpoint.Some? && r.checkpoint.sequence < rec.execution.checkpoint.value.sequence then
      (rec, Err(ExecutionError(r.id, Conflict)))
    else if rec.execution.version != r.expectedVersion then (rec, Err(ExecutionError(r.id, Conflict)))
    else
      var execution := rec.execution.(checkpoint := Some(r.checkpoint), version := rec.execution.version + 1);
      (rec.(execution := execution), Ok(execution))
  }

  function SuspendOn(rec: Record, r: SuspendExecutionRequest, now: Time): (Record, Outcome<Execution>) {
    var key := SuspendKey(r.lease, r.expectedVersion);
    if rec.nextToken > r.lease.token then (rec, Err(ExecutionError(r.id, LeaseLost)))
    else if key in rec.suspends then (rec, Ok(rec.suspends[key]))
    else if !HoldsLease(rec.execution, r.lease, now) then (rec, Err(ExecutionError(r.id, LeaseLost)))
    else if rec.execution.version != r.expectedVersion then (rec, Err(ExecutionError(r.id, Conflict)))
    else
      var execution := rec.execution.(status := Suspended, lease := None, version := rec.execution.version + 1);
      (rec.(attempts := LapseAll(rec.attempts, r.lease.token),
            execution := execution,
            suspends := rec.suspends[key := execution]), Ok(execution))
  }

  ghost function FinishOn(rec: Record, r: FinishExecutionRequest, now: Time): (Record, Outcome<Execution>) {
    var key := FinishKey(r.lease, r.expectedVersion, r.resultHash);
    if rec.nextToken > r.lease.token then (rec, Err(ExecutionError(r.id, LeaseLost)))
    else if key in rec.finishes then (rec, Ok(rec.finishes[key]))
    else if Terminal(rec.execution.status) then (rec, Err(ExecutionError(r.id, Conflict)))
    else if !HoldsLease(rec.execution, r.lease, now) then (rec, Err(ExecutionError(r.id, LeaseLost)))
    else if rec.execution.version != r.expectedVersion then (rec, Err(ExecutionError(r.id, Conflict)))
    else if Uncertain(rec.attempts) then (rec, Err(ExecutionError(r.id, ReconcileRequired)))
    else
      var execution := rec.execution.(
        result := Some(r.result), resultHash := r.resultHash,
        status := if r.result.failed then Defeated else Completed,
        lease := None, version := rec.execution.version + 1);
      (rec.(execution := execution, finishes := rec.finishes[key := execution]), Ok(execution))
  }

  ghost function ReleaseOn(rec: Record, r: ReleaseExecutionRequest): (Record, Outcome<ReleaseResult>) {
    if rec.nextToken > r.lease.token then (rec, Err(ExecutionError(r.id, LeaseLost)))
    else if r.lease in rec.releases then (rec, Ok(rec.releases[r.lease]))
    else if !LeaseMatches(rec.execution.lease, r.lease) then (rec, Err(ExecutionError(r.id, LeaseLost)))
    else
      var execution := rec.execution.(lease := None);
      var result := ReleaseResult(execution, Lapsed(rec.attempts, r.lease.token));
      (rec.(attempts := LapseAll(rec.attempts, r.lease.token),
            execution := execution,
            releases := rec.releases[r.lease := result]), Ok(result))
  }

  // ---- attempts ----

  function NewAttempt(r: StartAttemptRequest, number: int): Attempt {
    Attempt(r.id, r.operationId, r.kind, number, r.inputHash, Running, Some(r.lease), 1, "", None)
  }

  function StartAttemptOn(rec: Record, r: StartAttemptRequest, now: Time): (Record, Outcome<AttemptStart>) {
    if !HoldsLease(rec.execution, r.lease, now) then (rec, Err(AttemptError(r.id, r.operationId, 0, LeaseLost)))
    else if r.operationId !in rec.attempts || rec.attempts[r.operationId] == [] then
      var a := NewAttempt(r, 1);
      (rec.(attempts := rec.attempts[r.operationId := [a]]), Ok(AttemptStart(a, Execute)))
    else
      var log := rec.attempts[r.operationId];
      var latest := log[|log| - 1];
      if latest.kind != r.kind || latest.inputHash != r.inputHash then
        (rec, Err(AttemptError(r.id, r.operationId, latest.number, Conflict)))
      else
        match latest.status
        case Succeeded => (rec, Ok(AttemptStart(latest, Replay)))
        case Failed => (rec, Ok(AttemptStart(latest, Replay)))
        case Unknown => (rec, Ok(AttemptStart(latest, Reconcile)))
        case Running =>
          if latest.lease == Some(r.lease) then (rec, Ok(AttemptStart(latest, Execute)))
          else
            var stale := latest.(status := Unknown, lease := None, version := latest.version + 1);
            (rec.(attempts := rec.attempts[r.operationId := log[|log| - 1 := stale]]), Ok(AttemptStart(stale, Reconcile)))
        case Abandoned =>
          var a := NewAttempt(r, latest.number + 1);
          (rec.(attempts := rec.attempts[r.operationId := log + [a]]), Ok(AttemptStart(a, Execute)))
  }

  /** The position of the attempt with this number, searched from the front. */
  function Position(log: map<OperationId, seq<Attempt>>, op: OperationId, number: int): (p: Option<nat>)
    ensures p.Some? ==> op in log && p.value < |log[op]| && log[op][p.value].number == number
  {
    if op !in log then None else PositionFrom(log[op], number, 0)
  }

  function PositionFrom(log: seq<Attempt>, number: int, from: nat): (p: Option<nat>)
    requires from <= |log|
    ensures p.Some? ==> from <= p.value < |log| && log[p.value].number == number
    ensures p.None? ==> forall i :: from <= i < |log| ==> log[i].number != number
    decreases |log| - from
  {
    if from == |log| then None
    else if log[from].number == number then Some(from)
    else PositionFrom(log, number, from + 1)
  }

  function Put(rec: Record, op: OperationId, at: nat, a: Attempt): Record
    requires op in rec.attempts && at < |rec.attempts[op]|
  {
    rec.(attempts := rec.attempts[op := rec.attempts[op][at := a]])
  }

  function FinishAttemptOn(rec: Record, r: SettleAttemptRequest, now: Time): (Record, Outcome<Attempt>) {
    if !HoldsLease(rec.execution, r.lease, now) then (rec, Err(AttemptError(r.id, r.operationId, r.number, LeaseLost)))
    else
      var p := Position(rec.attempts, r.operationId, r.number);
      if p.None? then (rec, Err(AttemptError(r.id, r.operationId, r.number, NotFound)))
      else
        var a := rec.attempts[r.operationId][p.value];
        if a.status == Succeeded || a.status == Failed then
          if a.version == r.expectedVersion + 1 && a.payload == r.payload && a.failure == r.failure
          then (rec, Ok(a))
          else (rec, Err(AttemptError(r.id, r.operationId, r.number, Conflict)))
        else if a.status != Running || a.version != r.expectedVersion || a.lease != Some(r.lease) then
          (rec, Err(AttemptError(r.id, r.operationId, r.number, Conflict)))
        else
          var settled := a.(status := if r.failure.Some? then Failed else Succeeded,
                            lease := None, payload := r.payload, failure := r.failure, version := a.version + 1);
          (Put(rec, r.operationId, p.value, settled), Ok(settled))
  }

  function MarkUnknownOn(rec: Record, r: SettleAttemptRequest, now: Time): (Record, Outcome<Attempt>) {
    if !HoldsLease(rec.execution, r.lease, now) then (rec, Err(AttemptError(r.id, r.operationId, r.number, LeaseLost)))
    else
      var p := Position(rec.attempts, r.operationId, r.number);
      if p.None? then (rec, Err(AttemptError(r.id, r.operationId, r.number, NotFound)))
      else
        var a := rec.attempts[r.operationId][p.value];
        if a.status == Unknown then
          if a.version == r.expectedVersion + 1 && a.payload == r.payload && a.failure == r.failure
          then (rec, Ok(a))
          else (rec, Err(AttemptError(r.id, r.operationId, r.number, Conflict)))
        else if a.status != Running || a.version != r.expectedVersion || a.lease != Some(r.lease) then
          (rec, Err(AttemptError(r.id, r.operationId, r.number, Conflict)))
        else
          var settled := a.(status := Unknown, lease := None, payload := r.payload,
                            failure := r.failure, version := a.version + 1);
          (Put(rec, r.operationId, p.value, settled), Ok(settled))
  }

  predicate ReconcileExact(a: Attempt, r: ReconcileAttemptRequest) {
    && a.version == r.expectedVersion + 1
    && match r.resolution
       case Succeed => a.status == Succeeded && a.payload == r.payload && a.failure.None?
       case Fail => a.status == Failed && a.payload == r.payload && a.failure == r.failure
       case Retry => a.status == Abandoned && a.payload == "" && a.failure.None?
       case OtherResolution => false
  }

  function Resolve(a: Attempt, r: ReconcileAttemptRequest): Attempt {
    var resolved :=
      match r.resolution
      case Succeed => a.(status := Succeeded, payload := r.payload, failure := None)
      case Fail => a.(status := Failed, payload := r.payload, failure := r.failure)
      case Retry => a.(status := Abandoned, payload := "", failure := None)
      case OtherResolution => a;
    resolved.(lease := None, version := a.version + 1)
  }

  function ReconcileOn(rec: Record, r: ReconcileAttemptRequest, now: Time): (Record, Outcome<Attempt>) {
    if LeaseActive(rec.execution.lease, now) then (rec, Err(AttemptError(r.id, r.operationId, r.number, Busy)))
    else
      var p := Position(rec.attempts, r.operationId, r.number);
      if p.None? then (rec, Err(AttemptError(r.id, r.operationId, r.number, NotFound)))
      else
        var a := rec.attempts[r.operationId][p.value];
        if ReconcileExact(a, r) then (rec, Ok(a))
        else if a.status != Unknown || a.version != r.expectedVersion then
          (rec, Err(AttemptError(r.id, r.operationId, r.number, Conflict)))
        else (Put(rec, r.operationId, p.value, Resolve(a, r)), Ok(Resolve(a, r)))
  }

  // ---- one command on one record, and on the store ----

  ghost function On(rec: Record, command: Command, now: Time): (Record, Response) {
    match command
    case StartExecution(r) =>
      var (next, out) := StartOn(rec, r, now); (next, if out.Ok? then Started(out.value) else Rejected(out.error))
    case ResumeExecution(r) =>
      var (next, out) := ResumeOn(rec, r, now); (next, if out.Ok? then Resumed(out.value) else Rejected(out.error))
    case RenewExecution(r) =>
      var (next, out) := RenewOn(rec, r, now); (next, if out.Ok? then Leased(out.value) else Rejected(out.error))
    case SaveCheckpoint(r) =>
      var (next, out) := SaveOn(rec, r, now); (next, if out.Ok? then Stored(out.value) else Rejected(out.error))
    case SuspendExecution(r) =>
      var (next, out) := SuspendOn(rec, r, now); (next, if out.Ok? then Stored(out.value) else Rejected(out.error))
    case FinishExecution(r) =>
      var (next, out) := FinishOn(rec, r, now); (next, if out.Ok? then Stored(out.value) else Rejected(out.error))
    case ReleaseExecution(r) =>
      var (next, out) := ReleaseOn(rec, r); (next, if out.Ok? then Released(out.value) else Rejected(out.error))
    case StartAttempt(r) =>
      var (next, out) := StartAttemptOn(rec, r, now); (next, if out.Ok? then Decided(out.value) else Rejected(out.error))
    case FinishAttempt(r) =>
      var (next, out) := FinishAttemptOn(rec, r, now); (next, if out.Ok? then Settled(out.value) else Rejected(out.error))
    case MarkAttemptUnknown(r) =>
      var (next, out) := MarkUnknownOn(rec, r, now); (next, if out.Ok? then Settled(out.value) else Rejected(out.error))
    case ReconcileAttempt(r) =>
      var (next, out) := ReconcileOn(rec, r, now); (next, if out.Ok? then Settled(out.value) else Rejected(out.error))
  }

  type Store = map<ExecutionId, Record>

  /** One backend call. */
  ghost function Step(codec: Codec, store: Store, command: Command, now: Time): (Store, Response) {
    var id := command.Id();
    if ArgumentError(codec, command).Some? then (store, Rejected(ArgumentError(codec, command).value))
    else if id in store then
      var (next, response) := On(store[id], command, now);
      (store[id := next], response)
    else if command.StartExecution? then
      var rec := Created(command.start, now);
      (store[id := rec], Started(StartResult(rec.execution, true, [])))
    else (store, Rejected(MissingError(command)))
  }
}
