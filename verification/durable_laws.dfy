/** What the invariant gives for one command in any reachable record. */
module DurableLaws {
  import opened Text
  import opened DurableTypes
  import opened Sorting
  import opened DurableSpec
  import opened DurableInvariant

  /** A command fenced by an older token is refused and changes nothing. */
  lemma Fenced(codec: Codec, rec: Record, command: Command, now: Time)
    requires Inv(command.Id(), rec) && ArgumentError(codec, command).None?
    requires command.Fence().Some? && command.Fence().value.token < rec.nextToken
    ensures On(rec, command, now).0 == rec
    ensures On(rec, command, now).1.Rejected? && On(rec, command, now).1.error.kind == LeaseLost
  {
  }

  /** A running attempt always belongs to the lease that may ask about it, so
      starting an attempt never meets another owner's running attempt. */
  lemma NoStaleOwner(rec: Record, r: StartAttemptRequest, now: Time)
    requires Inv(r.id, rec) && HoldsLease(rec.execution, r.lease, now)
    requires r.operationId in rec.attempts
    ensures var log := rec.attempts[r.operationId];
            log != [] && (log[|log| - 1].status == Running ==> log[|log| - 1].lease == Some(r.lease))
  {
    var log := rec.attempts[r.operationId];
    assert LogShape(r.id, r.operationId, log, rec.execution.lease);
    assert StatusShape(log[|log| - 1], rec.execution.lease);
  }

  /** A refused command changes nothing. */
  lemma RejectedUnchanged(rec: Record, command: Command, now: Time)
    requires On(rec, command, now).1.Rejected?
    ensures On(rec, command, now).0 == rec
  {
  }

  /** No command changes a terminal record: not the execution, not an attempt, not a table. */
  lemma TerminalAbsorbs(codec: Codec, rec: Record, command: Command, now: Time)
    requires Inv(command.Id(), rec) && ArgumentError(codec, command).None?
    requires Terminal(rec.execution.status)
    ensures On(rec, command, now).0 == rec
  {
    match command
    case ReconcileAttempt(r) =>
      PositionIs(r.id, rec, r.operationId, r.number);
      if r.operationId in rec.attempts && 1 <= r.number <= |rec.attempts[r.operationId]| {
        assert Quiet(rec.attempts[r.operationId][r.number - 1]);
      }
    case _ =>
  }

  // ---- repeating an accepted command ----

  /** The lease the repeated command needs is still active. */
  ghost predicate MayRepeat(rec: Record, command: Command, now: Time) {
    match command
    case StartExecution(_) => Terminal(rec.execution.status) || LeaseActive(rec.execution.lease, now)
    case ResumeExecution(_) => Terminal(rec.execution.status) || LeaseActive(rec.execution.lease, now)
    case RenewExecution(_) => false
    case SaveCheckpoint(_) => LeaseActive(rec.execution.lease, now)
    case StartAttempt(_) => LeaseActive(rec.execution.lease, now)
    case FinishAttempt(_) => LeaseActive(rec.execution.lease, now)
    case MarkAttemptUnknown(_) => LeaseActive(rec.execution.lease, now)
    case SuspendExecution(_) => true
    case FinishExecution(_) => true
    case ReleaseExecution(_) => true
    case ReconcileAttempt(_) => true
  }

  lemma RepeatFinishAttempt(rec: Record, r: SettleAttemptRequest, now: Time, later: Time)
    requires Inv(r.id, rec) && FinishAttemptOn(rec, r, now).1.Ok?
    requires LeaseActive(FinishAttemptOn(rec, r, now).0.execution.lease, later)
    ensures FinishAttemptOn(FinishAttemptOn(rec, r, now).0, r, later) == FinishAttemptOn(rec, r, now)
  {
    var rec' := FinishAttemptOn(rec, r, now).0;
    FinishAttemptKeeps(r.id, rec, r, now);
    PositionIs(r.id, rec, r.operationId, r.number);
    PositionIs(r.id, rec', r.operationId, r.number);
  }

  lemma RepeatMarkUnknown(rec: Record, r: SettleAttemptRequest, now: Time, later: Time)
    requires Inv(r.id, rec) && MarkUnknownOn(rec, r, now).1.Ok?
    requires LeaseActive(MarkUnknownOn(rec, r, now).0.execution.lease, later)
    ensures MarkUnknownOn(MarkUnknownOn(rec, r, now).0, r, later) == MarkUnknownOn(rec, r, now)
  {
    var rec' := MarkUnknownOn(rec, r, now).0;
    MarkUnknownKeeps(r.id, rec, r, now);
    PositionIs(r.id, rec, r.operationId, r.number);
    PositionIs(r.id, rec', r.operationId, r.number);
  }

  lemma RepeatReconcile(rec: Record, r: ReconcileAttemptRequest, now: Time, later: Time)
    requires Inv(r.id, rec) && ReconcileOn(rec, r, now).1.Ok?
    requires ValidReconcile(r) && now <= later
    ensures ReconcileOn(ReconcileOn(rec, r, now).0, r, later) == ReconcileOn(rec, r, now)
  {
    hide TablesShape, LeaseShape, StatusLinks;
    var rec' := ReconcileOn(rec, r, now).0;
    ReconcileKeeps(r.id, rec, r, now);
    PositionIs(r.id, rec, r.operationId, r.number);
    PositionIs(r.id, rec', r.operationId, r.number);
  }

  lemma RepeatStartAttempt(rec: Record, r: StartAttemptRequest, now: Time, later: Time)
    requires Inv(r.id, rec)
    requires StartAttemptOn(rec, r, now).1.Ok?
    requires LeaseActive(StartAttemptOn(rec, r, now).0.execution.lease, later)
    ensures StartAttemptOn(StartAttemptOn(rec, r, now).0, r, later) == StartAttemptOn(rec, r, now)
  {
    if r.operationId in rec.attempts {
      NoStaleOwner(rec, r, now);
    }
  }

  lemma RepeatStart(rec: Record, r: StartExecutionRequest, now: Time, later: Time)
    requires Inv(r.id, rec) && StartOn(rec, r, now).1.Ok?
    requires var next := StartOn(rec, r, now).0; Terminal(next.execution.status) || LeaseActive(next.execution.lease, later)
    ensures StartOn(StartOn(rec, r, now).0, r, later) == StartOn(rec, r, now)
  {
  }

  lemma RepeatResume(rec: Record, r: ResumeExecutionRequest, now: Time, later: Time)
    requires Inv(r.id, rec) && ResumeOn(rec, r, now).1.Ok?
    requires var next := ResumeOn(rec, r, now).0; Terminal(next.execution.status) || LeaseActive(next.execution.lease, later)
    ensures ResumeOn(ResumeOn(rec, r, now).0, r, later) == ResumeOn(rec, r, now)
  {
  }

  lemma RepeatSave(rec: Record, r: SaveCheckpointRequest, now: Time, later: Time)
    requires Inv(r.id, rec) && SaveOn(rec, r, now).1.Ok?
    requires var next := SaveOn(rec, r, now).0; LeaseActive(next.execution.lease, later)
    ensures SaveOn(SaveOn(rec, r, now).0, r, later) == SaveOn(rec, r, now)
  {
  }

  /** A lost response is harmless: repeating an accepted command, other than a
      renewal, gives the same response and changes nothing. */
  lemma Repeatable(codec: Codec, rec: Record, command: Command, now: Time, later: Time)
    requires Inv(command.Id(), rec) && ArgumentError(codec, command).None?
    requires !On(rec, command, now).1.Rejected? && now <= later
    requires MayRepeat(On(rec, command, now).0, command, later)
    ensures On(On(rec, command, now).0, command, later) == On(rec, command, now)
  {
    match command
    case StartExecution(r) => RepeatStart(rec, r, now, later);
    case ResumeExecution(r) => RepeatResume(rec, r, now, later);
    case SaveCheckpoint(r) => RepeatSave(rec, r, now, later);
    case SuspendExecution(r) =>
    case FinishExecution(r) =>
    case ReleaseExecution(r) =>
    case StartAttempt(r) => RepeatStartAttempt(rec, r, now, later);
    case FinishAttempt(r) => RepeatFinishAttempt(rec, r, now, later);
    case MarkAttemptUnknown(r) => RepeatMarkUnknown(rec, r, now, later);
    case ReconcileAttempt(r) => RepeatReconcile(rec, r, now, later);
  }

  /** The same for the command that created the execution. */
  lemma CreationRepeatable(r: StartExecutionRequest, now: Time, later: Time)
    requires LeaseActive(Created(r, now).execution.lease, later)
    ensures StartOn(Created(r, now), r, later)
            == (Created(r, now), Ok(StartResult(Created(r, now).execution, true, [])))
  {
  }

  // ---- how attempts change ----

  ghost predicate SameIdentity(a: Attempt, b: Attempt) {
    && a.executionId == b.executionId && a.operationId == b.operationId && a.number == b.number
    && a.kind == b.kind && a.inputHash == b.inputHash
  }

  /** The moves one command can make on one attempt. */
  ghost predicate Moves(a: Attempt, b: Attempt, command: Command, response: Response) {
    || b == a
    || (&& SameIdentity(a, b) && a.status == Running && b.version == 2
        && (b.status == Unknown || b.status == Succeeded || b.status == Failed))
    || (&& SameIdentity(a, b) && a.status == Unknown && b.version == 3
        && command.ReconcileAttempt? && response == Settled(b)
        && command.reconcile.operationId == a.operationId && command.reconcile.number == a.number
        && (b.status == Succeeded <==> command.reconcile.resolution == Succeed)
        && (b.status == Failed <==> command.reconcile.resolution == Fail)
        && (b.status == Abandoned <==> command.reconcile.resolution == Retry)
        && (b.status == Succeeded || b.status == Failed || b.status == Abandoned))
  }

  ghost predicate LogMoves(log: map<OperationId, seq<Attempt>>, log': map<OperationId, seq<Attempt>>,
                           command: Command, response: Response)
  {
    forall op :: op in log ==>
      && op in log' && |log[op]| <= |log'[op]|
      && forall i :: 0 <= i < |log[op]| ==> Moves(log[op][i], log'[op][i], command, response)
  }

  lemma LapseMoves(id: ExecutionId, rec: Record, token: nat, command: Command, response: Response)
    requires Inv(id, rec)
    ensures LogMoves(rec.attempts, LapseAll(rec.attempts, token), command, response)
  {
    forall op, i | op in rec.attempts && 0 <= i < |rec.attempts[op]|
      ensures Moves(rec.attempts[op][i], Lapse(rec.attempts[op][i], token), command, response)
    {
      assert LogShape(id, op, rec.attempts[op], rec.execution.lease);
      assert StatusShape(rec.attempts[op][i], rec.execution.lease);
    }
  }

  lemma PutMoves(rec: Record, op: OperationId, at: nat, a: Attempt, command: Command, response: Response)
    requires op in rec.attempts && at < |rec.attempts[op]|
    requires Moves(rec.attempts[op][at], a, command, response)
    ensures LogMoves(rec.attempts, Put(rec, op, at, a).attempts, command, response)
  {
  }

  /** Attempts are never removed or renumbered; each follows the status path. */
  lemma AttemptsMove(codec: Codec, rec: Record, command: Command, now: Time)
    requires Inv(command.Id(), rec) && ArgumentError(codec, command).None?
    ensures LogMoves(rec.attempts, On(rec, command, now).0.attempts, command, On(rec, command, now).1)
  {
    match command
    case StartAttempt(r) => StartMoves(rec, r, now, command, On(rec, command, now).1);
    case FinishAttempt(r) => SettleMoves(codec, rec, command, now);
    case MarkAttemptUnknown(r) => SettleMoves(codec, rec, command, now);
    case ReconcileAttempt(r) => SettleMoves(codec, rec, command, now);
    case _ =>
      var token := LifecycleAttempts(rec, command, now);
      if token.Some? {
        LapseMoves(command.Id(), rec, token.value, command, On(rec, command, now).1);
      } else {
        ExtendMoves(rec.attempts, rec.attempts, command, On(rec, command, now).1);
      }
  }

  /** An execution command leaves the attempts alone or makes one lease lapse. */
  lemma LifecycleAttempts(rec: Record, command: Command, now: Time) returns (token: Option<nat>)
    requires !command.StartAttempt? && !command.FinishAttempt? && !command.MarkAttemptUnknown? && !command.ReconcileAttempt?
    ensures On(rec, command, now).0.attempts ==
            if token.Some? then LapseAll(rec.attempts, token.value) else rec.attempts
  {
    if On(rec, command, now).0.attempts == rec.attempts {
      token := None;
    } else {
      token := Some(if command.Fence().Some? then command.Fence().value.token else 0);
    }
  }

  lemma ExtendMoves(log: map<OperationId, seq<Attempt>>, log': map<OperationId, seq<Attempt>>,
                    command: Command, response: Response)
    requires forall op :: op in log ==> op in log' && log[op] <= log'[op]
    ensures LogMoves(log, log', command, response)
  {
    forall op, i | op in log && 0 <= i < |log[op]| ensures Moves(log[op][i], log'[op][i], command, response) {
      assert log'[op][i] == log[op][i];
    }
  }

  lemma StartMoves(rec: Record, r: StartAttemptRequest, now: Time, command: Command, response: Response)
    requires Inv(r.id, rec)
    ensures LogMoves(rec.attempts, StartAttemptOn(rec, r, now).0.attempts, command, response)
  {
    if r.operationId in rec.attempts && HoldsLease(rec.execution, r.lease, now) {
      NoStaleOwner(rec, r, now);
    }
    ExtendMoves(rec.attempts, StartAttemptOn(rec, r, now).0.attempts, command, response);
  }

  lemma FinishAttemptMoves(rec: Record, r: SettleAttemptRequest, now: Time, response: Response)
    requires Inv(r.id, rec) && FinishAttemptOn(rec, r, now).1.Ok? && response == Settled(FinishAttemptOn(rec, r, now).1.value)
    ensures LogMoves(rec.attempts, FinishAttemptOn(rec, r, now).0.attempts, FinishAttempt(r), response)
  {
    hide LogMoves, TablesShape, LeaseShape, StatusLinks;
    PositionIs(r.id, rec, r.operationId, r.number);
    if FinishAttemptOn(rec, r, now).0 == rec {
      NothingMoves(rec.attempts, FinishAttempt(r), response);
    } else {
      assert LogShape(r.id, r.operationId, rec.attempts[r.operationId], rec.execution.lease);
      PutMoves(rec, r.operationId, r.number - 1, response.attempt, FinishAttempt(r), response);
    }
  }

  lemma MarkUnknownMoves(rec: Record, r: SettleAttemptRequest, now: Time, response: Response)
    requires Inv(r.id, rec) && MarkUnknownOn(rec, r, now).1.Ok? && response == Settled(MarkUnknownOn(rec, r, now).1.value)
    ensures LogMoves(rec.attempts, MarkUnknownOn(rec, r, now).0.attempts, MarkAttemptUnknown(r), response)
  {
    hide LogMoves, TablesShape, LeaseShape, StatusLinks;
    PositionIs(r.id, rec, r.operationId, r.number);
    if MarkUnknownOn(rec, r, now).0 == rec {
      NothingMoves(rec.attempts, MarkAttemptUnknown(r), response);
    } else {
      assert LogShape(r.id, r.operationId, rec.attempts[r.operationId], rec.execution.lease);
      PutMoves(rec, r.operationId, r.number - 1, response.attempt, MarkAttemptUnknown(r), response);
    }
  }

  lemma ReconcileMoves(rec: Record, r: ReconcileAttemptRequest, now: Time, response: Response)
    requires Inv(r.id, rec) && ReconcileOn(rec, r, now).1.Ok? && response == Settled(ReconcileOn(rec, r, now).1.value)
    requires ValidReconcile(r)
    ensures LogMoves(rec.attempts, ReconcileOn(rec, r, now).0.attempts, ReconcileAttempt(r), response)
  {
    hide LogMoves, TablesShape, LeaseShape, StatusLinks;
    PositionIs(r.id, rec, r.operationId, r.number);
    if ReconcileOn(rec, r, now).0 == rec {
      NothingMoves(rec.attempts, ReconcileAttempt(r), response);
    } else {
      assert LogShape(r.id, r.operationId, rec.attempts[r.operationId], rec.execution.lease);
      PutMoves(rec, r.operationId, r.number - 1, response.attempt, ReconcileAttempt(r), response);
    }
  }

  lemma NothingMoves(log: map<OperationId, seq<Attempt>>, command: Command, response: Response)
    ensures LogMoves(log, log, command, response)
  {
  }

  lemma SettleMoves(codec: Codec, rec: Record, command: Command, now: Time)
    requires Inv(command.Id(), rec) && ArgumentError(codec, command).None?
    requires command.FinishAttempt? || command.MarkAttemptUnknown? || command.ReconcileAttempt?
    ensures LogMoves(rec.attempts, On(rec, command, now).0.attempts, command, On(rec, command, now).1)
  {
    var response := On(rec, command, now).1;
    if response.Rejected? {
      RejectedUnchanged(rec, command, now);
      NothingMoves(rec.attempts, command, response);
    } else {
      hide LogMoves, Inv, FinishAttemptOn, MarkUnknownOn, ReconcileOn, StartAttemptOn;
      match command
      case FinishAttempt(r) => FinishAttemptMoves(rec, r, now, response);
      case MarkAttemptUnknown(r) => MarkUnknownMoves(rec, r, now, response);
      case ReconcileAttempt(r) => ReconcileMoves(rec, r, now, response);
    }
  }

  // ---- counters ----

  ghost predicate OnlyAttempts(rec: Record, rec': Record) {
    rec'.(attempts := rec.attempts) == rec
  }

  lemma StartAttemptOnly(rec: Record, r: StartAttemptRequest, now: Time)
    ensures OnlyAttempts(rec, StartAttemptOn(rec, r, now).0)
  {
  }

  lemma SettleOnly(rec: Record, r: SettleAttemptRequest, now: Time)
    ensures OnlyAttempts(rec, FinishAttemptOn(rec, r, now).0) && OnlyAttempts(rec, MarkUnknownOn(rec, r, now).0)
  {
    hide Position;
  }

  lemma ReconcileOnly(rec: Record, r: ReconcileAttemptRequest, now: Time)
    ensures OnlyAttempts(rec, ReconcileOn(rec, r, now).0)
  {
    hide Position;
  }

  /** Attempt commands touch nothing but the attempts. */
  lemma AttemptCommandsOnly(rec: Record, command: Command, now: Time)
    requires command.StartAttempt? || command.FinishAttempt? || command.MarkAttemptUnknown? || command.ReconcileAttempt?
    ensures OnlyAttempts(rec, On(rec, command, now).0)
  {
    hide StartAttemptOn, FinishAttemptOn, MarkUnknownOn, ReconcileOn;
    match command
    case StartAttempt(r) => StartAttemptOnly(rec, r, now);
    case FinishAttempt(r) => SettleOnly(rec, r, now);
    case MarkAttemptUnknown(r) => SettleOnly(rec, r, now);
    case ReconcileAttempt(r) => ReconcileOnly(rec, r, now);
  }

  ghost predicate CountersAdvance(rec: Record, rec': Record) {
    && rec.nextToken <= rec'.nextToken
    && rec.execution.version <= rec'.execution.version <= rec.execution.version + 1
    && (rec'.execution.version == rec.execution.version <==>
          && rec'.execution.checkpoint == rec.execution.checkpoint
          && rec'.execution.result == rec.execution.result
          && rec'.suspends == rec.suspends)
    && (rec.execution.checkpoint.Some? ==>
          && rec'.execution.checkpoint.Some?
          && (|| rec'.execution.checkpoint == rec.execution.checkpoint
              || rec.execution.checkpoint.value.sequence < rec'.execution.checkpoint.value.sequence))
  }

  /** Tokens, versions and checkpoint sequences only grow; the version counts
      exactly the accepted checkpoints, suspensions and the finish. */
  lemma Counters(codec: Codec, rec: Record, command: Command, now: Time)
    requires Inv(command.Id(), rec) && ArgumentError(codec, command).None?
    ensures CountersAdvance(rec, On(rec, command, now).0)
  {
    if command.StartAttempt? || command.FinishAttempt? || command.MarkAttemptUnknown? || command.ReconcileAttempt? {
      AttemptCommandsOnly(rec, command, now);
    } else {
      LifecycleCounters(rec, command, now);
    }
  }

  lemma SuspendCounters(rec: Record, r: SuspendExecutionRequest, now: Time)
    requires Inv(r.id, rec)
    ensures CountersAdvance(rec, SuspendOn(rec, r, now).0)
  {
    hide LapseAll, LogShape;
    var key := SuspendKey(r.lease, r.expectedVersion);
    assert key !in rec.suspends ==> rec.suspends[key := rec.execution].Keys == rec.suspends.Keys + {key};
  }

  lemma LifecycleCounters(rec: Record, command: Command, now: Time)
    requires Inv(command.Id(), rec)
    requires !command.StartAttempt? && !command.FinishAttempt? && !command.MarkAttemptUnknown? && !command.ReconcileAttempt?
    ensures CountersAdvance(rec, On(rec, command, now).0)
  {
    hide LapseAll, Lapsed, AllUnknown, LogShape, SuspendOn;
    if command.SuspendExecution? {
      SuspendCounters(rec, command.suspend, now);
    }
  }

  // ---- what claims and releases report ----

  lemma AttemptOrder()
    ensures StrictOrder(AttemptLess)
  {
    forall x: Attempt ensures !AttemptLess(x, x) {
      LessIrreflexive(x.operationId);
    }
    forall x: Attempt, y: Attempt, z: Attempt | AttemptLess(x, y) && AttemptLess(y, z) ensures AttemptLess(x, z) {
      if x.operationId != y.operationId && y.operationId != z.operationId {
        LessTransitive(x.operationId, y.operationId, z.operationId);
        LessIrreflexive(x.operationId);
      }
    }
  }

  /** Every attempt sits in its operation's log at the place its number says. */
  ghost predicate Numbered(log: map<OperationId, seq<Attempt>>) {
    forall op, i :: op in log && 0 <= i < |log[op]| ==>
      log[op][i].operationId == op && log[op][i].number == i + 1
  }

  lemma AttemptsComparable(s: set<Attempt>)
    requires forall a, b :: a in s && b in s && a.operationId == b.operationId && a.number == b.number ==> a == b
    ensures Comparable(AttemptLess, s)
  {
    forall a, b | a in s && b in s && a != b ensures AttemptLess(a, b) || AttemptLess(b, a) {
      LessTotal(a.operationId, b.operationId);
    }
  }

  lemma InvNumbered(id: ExecutionId, rec: Record)
    requires Inv(id, rec)
    ensures Numbered(rec.attempts)
  {
    forall op, i | op in rec.attempts && 0 <= i < |rec.attempts[op]|
      ensures rec.attempts[op][i].operationId == op && rec.attempts[op][i].number == i + 1
    {
      assert LogShape(id, op, rec.attempts[op], rec.execution.lease);
    }
  }

  /** Attempts with the same operation and number are the same attempt. */
  lemma IdentityUnique(log: map<OperationId, seq<Attempt>>, a: Attempt, b: Attempt)
    requires Numbered(log) && a in Attempts(log) && b in Attempts(log)
    requires a.operationId == b.operationId && a.number == b.number
    ensures a == b
  {
    var opA, i :| opA in log && 0 <= i < |log[opA]| && log[opA][i] == a;
    var opB, j :| opB in log && 0 <= j < |log[opB]| && log[opB][j] == b;
  }

  lemma AllUnknownIs(id: ExecutionId, rec: Record)
    requires Inv(id, rec)
    ensures StrictlySorted(AttemptLess, AllUnknown(rec.attempts))
    ensures forall a :: a in AllUnknown(rec.attempts) <==> a in Attempts(rec.attempts) && a.status == Unknown
  {
    var s := set a | a in Attempts(rec.attempts) && a.status == Unknown;
    AttemptOrder();
    InvNumbered(id, rec);
    forall a, b | a in s && b in s && a.operationId == b.operationId && a.number == b.number ensures a == b {
      IdentityUnique(rec.attempts, a, b);
    }
    AttemptsComparable(s);
    ArrangeSorted(AttemptLess, s);
    forall a ensures a in AllUnknown(rec.attempts) <==> a in s {
      assert a in Elements(AllUnknown(rec.attempts)) <==> a in s;
    }
  }

  lemma NothingRuns(id: ExecutionId, rec: Record, a: Attempt)
    requires Inv(id, rec) && a in Attempts(LapseAll(rec.attempts, 0))
    ensures a.status != Running
  {
    var log' := LapseAll(rec.attempts, 0);
    var op, i :| op in log' && 0 <= i < |log'[op]| && log'[op][i] == a;
    assert LogShape(id, op, rec.attempts[op], rec.execution.lease);
    assert StatusShape(rec.attempts[op][i], rec.execution.lease);
  }

  /** The list that a claim or its replay reports. */
  function Reported(response: Response): seq<Attempt>
    requires response.Started? || response.Resumed?
  {
    if response.Started? then response.startResult.reconcile else response.resumeResult.reconcile
  }

  lemma FreshClaim(rec: Record, command: Command, now: Time)
    requires On(rec, command, now).0.nextToken != rec.nextToken
    ensures command.StartExecution? || command.ResumeExecution?
    ensures var (rec', response) := On(rec, command, now);
            && (response.Started? || response.Resumed?)
            && rec'.attempts == LapseAll(rec.attempts, 0)
            && Reported(response) == AllUnknown(rec'.attempts)
  {
    if command.StartAttempt? || command.FinishAttempt? || command.MarkAttemptUnknown? || command.ReconcileAttempt? {
      AttemptCommandsOnly(rec, command, now);
    }
  }

  /** After a fresh claim nothing is running, and the response lists exactly the
      unknown attempts, in order of operation and number. */
  lemma ClaimReportsUnknown(codec: Codec, rec: Record, command: Command, now: Time)
    requires Inv(command.Id(), rec) && ArgumentError(codec, command).None?
    requires On(rec, command, now).0.nextToken != rec.nextToken
    ensures var (rec', response) := On(rec, command, now);
            && (response.Started? || response.Resumed?)
            && StrictlySorted(AttemptLess, Reported(response))
            && (forall a :: a in Reported(response) <==> a in Attempts(rec'.attempts) && a.status == Unknown)
            && (forall a :: a in Attempts(rec'.attempts) ==> a.status != Running)
  {
    FreshClaim(rec, command, now);
    OnKeeps(codec, rec, command, now);
    AllUnknownIs(command.Id(), On(rec, command, now).0);
    forall a | a in Attempts(LapseAll(rec.attempts, 0)) ensures a.status != Running {
      NothingRuns(command.Id(), rec, a);
    }
  }

  lemma LapsedIs(id: ExecutionId, rec: Record, token: nat)
    requires Inv(id, rec)
    ensures StrictlySorted(AttemptLess, Lapsed(rec.attempts, token))
    ensures forall b :: b in Lapsed(rec.attempts, token) <==>
              exists a :: a in Attempts(rec.attempts) && Lapses(a, token) && b == Lapse(a, token)
  {
    var s := set a | a in Attempts(rec.attempts) && Lapses(a, token) :: Lapse(a, token);
    AttemptOrder();
    InvNumbered(id, rec);
    forall b, c | b in s && c in s && b.operationId == c.operationId && b.number == c.number ensures b == c {
      var x :| x in Attempts(rec.attempts) && Lapses(x, token) && b == Lapse(x, token);
      var y :| y in Attempts(rec.attempts) && Lapses(y, token) && c == Lapse(y, token);
      IdentityUnique(rec.attempts, x, y);
    }
    AttemptsComparable(s);
    ArrangeSorted(AttemptLess, s);
    forall b ensures b in Lapsed(rec.attempts, token) <==> b in s {
      assert b in Elements(Lapsed(rec.attempts, token)) <==> b in s;
    }
  }

  /** A release reports exactly the attempts it interrupted. */
  lemma ReleaseReportsInterrupted(rec: Record, r: ReleaseExecutionRequest)
    requires Inv(r.id, rec) && r.lease.token != 0
    requires ReleaseOn(rec, r).0 != rec
    ensures var (rec', out) := ReleaseOn(rec, r);
            && out.Ok?
            && StrictlySorted(AttemptLess, out.value.reconcile)
            && (forall b :: b in out.value.reconcile <==>
                  exists a :: a in Attempts(rec.attempts) && a.status == Running
                              && b == a.(status := Unknown, lease := None, version := 2))
  {
    var token := r.lease.token;
    LapsedIs(r.id, rec, token);
    forall a | a in Attempts(rec.attempts) && a.status == Running
      ensures Lapses(a, token) && Lapse(a, token) == a.(status := Unknown, lease := None, version := 2)
    {
      var op, i :| op in rec.attempts && 0 <= i < |rec.attempts[op]| && rec.attempts[op][i] == a;
      assert LogShape(r.id, op, rec.attempts[op], rec.execution.lease);
      assert StatusShape(a, rec.execution.lease);
    }
  }
}
