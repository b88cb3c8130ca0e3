/** The values that the durable execution backend stores and exchanges. */
module DurableTypes {
  import opened Text

  type ExecutionId = string
  type OperationId = string
  /** A 128-bit idempotency key; zero is the unset key. */
  type ClaimId = nat
  /** A 256-bit digest; zero is the unset digest. */
  type Hash = nat
  /** Canonical JSON text the backend only stores and hashes. */
  type Document = string
  type Time = int

  datatype ExecutionStatus = Active | Suspended | Completed | Defeated
  datatype AttemptStatus = Running | Succeeded | Failed | Unknown | Abandoned
  datatype AttemptKind = Model | Tool | OtherKind
  datatype Decision = Execute | Replay | Reconcile
  datatype Resolution = Succeed | Fail | Retry | OtherResolution

  datatype AgentResult = AgentResult(document: Document, failed: bool)
  datatype FailureRecord = FailureRecord(code: string, message: string)
  datatype Checkpoint = Checkpoint(sequence: nat, continuation: Document, hash: Hash)
  datatype Lease = Lease(ownerId: string, claimId: ClaimId, token: nat, expiresAt: Time)
  datatype LeaseRef = LeaseRef(ownerId: string, token: nat)

  datatype Execution = Execution(
    id: ExecutionId,
    spec: Document,
    specHash: Hash,
    status: ExecutionStatus,
    version: nat,
    lease: Option<Lease>,
    checkpoint: Option<Checkpoint>,
    result: Option<AgentResult>,
    resultHash: Hash)

  datatype Attempt = Attempt(
    executionId: ExecutionId,
    operationId: OperationId,
    kind: AttemptKind,
    number: int,
    inputHash: Hash,
    status: AttemptStatus,
    lease: Option<LeaseRef>,
    version: nat,
    payload: string,
    failure: Option<FailureRecord>)

  datatype StartResult = StartResult(execution: Execution, created: bool, reconcile: seq<Attempt>)
  datatype ResumeResult = ResumeResult(execution: Execution, reconcile: seq<Attempt>)
  datatype ReleaseResult = ReleaseResult(execution: Execution, reconcile: seq<Attempt>)
  datatype AttemptStart = AttemptStart(attempt: Attempt, decision: Decision)

  /** What the idempotency table remembers about one claim command. */
  datatype Claim = Claim(
    resuming: bool,
    ownerId: string,
    leaseTtl: int,
    specHash: Hash,
    token: nat,
    start: Option<StartResult>,
    resume: Option<ResumeResult>)

  datatype SuspendKey = SuspendKey(lease: LeaseRef, expectedVersion: nat)
  datatype FinishKey = FinishKey(lease: LeaseRef, expectedVersion: nat, resultHash: Hash)

  /** One execution with its attempts and its replay tables. */
  datatype Record = Record(
    execution: Execution,
    attempts: map<OperationId, seq<Attempt>>,
    claims: map<ClaimId, Claim>,
    releases: map<LeaseRef, ReleaseResult>,
    suspends: map<SuspendKey, Execution>,
    finishes: map<FinishKey, Execution>,
    nextToken: nat)

  datatype ErrorKind =
    | InvalidArgument
    | NotFound
    | Conflict
    | Busy
    | LeaseLost
    | CorruptCheckpoint
    | ReconcileRequired

  datatype BackendError =
    | ExecutionError(id: ExecutionId, kind: ErrorKind)
    | AttemptError(id: ExecutionId, operationId: OperationId, number: int, kind: ErrorKind)

  datatype Outcome<+T> = Ok(value: T) | Err(error: BackendError)

  datatype StartExecutionRequest = StartExecutionRequest(
    id: ExecutionId, ownerId: string, claimId: ClaimId, leaseTtl: int, spec: Document, specHash: Hash)
  datatype ResumeExecutionRequest = ResumeExecutionRequest(
    id: ExecutionId, ownerId: string, claimId: ClaimId, leaseTtl: int)
  datatype RenewExecutionRequest = RenewExecutionRequest(id: ExecutionId, lease: LeaseRef, leaseTtl: int)
  datatype SaveCheckpointRequest = SaveCheckpointRequest(
    id: ExecutionId, lease: LeaseRef, expectedVersion: nat, checkpoint: Checkpoint)
  datatype SuspendExecutionRequest = SuspendExecutionRequest(
    id: ExecutionId, lease: LeaseRef, expectedVersion: nat)
  datatype FinishExecutionRequest = FinishExecutionRequest(
    id: ExecutionId, lease: LeaseRef, expectedVersion: nat, result: AgentResult, resultHash: Hash)
  datatype ReleaseExecutionRequest = ReleaseExecutionRequest(id: ExecutionId, lease: LeaseRef)
  datatype StartAttemptRequest = StartAttemptRequest(
    id: ExecutionId, lease: LeaseRef, operationId: OperationId, kind: AttemptKind, inputHash: Hash)
  /** Shared by finishing an attempt and marking it unknown. */
  datatype SettleAttemptRequest = SettleAttemptRequest(
    id: ExecutionId, lease: LeaseRef, operationId: OperationId, number: int,
    expectedVersion: nat, payload: string, failure: Option<FailureRecord>)
  datatype ReconcileAttemptRequest = ReconcileAttemptRequest(
    id: ExecutionId, operationId: OperationId, number: int, expectedVersion: nat,
    resolution: Resolution, payload: string, failure: Option<FailureRecord>)

  datatype Command =
    | StartExecution(start: StartExecutionRequest)
    | ResumeExecution(resume: ResumeExecutionRequest)
    | RenewExecution(renew: RenewExecutionRequest)
    | SaveCheckpoint(save: SaveCheckpointRequest)
    | SuspendExecution(suspend: SuspendExecutionRequest)
    | FinishExecution(finish: FinishExecutionRequest)
    | ReleaseExecution(release: ReleaseExecutionRequest)
    | StartAttempt(attempt: StartAttemptRequest)
    | FinishAttempt(settle: SettleAttemptRequest)
    | MarkAttemptUnknown(mark: SettleAttemptRequest)
    | ReconcileAttempt(reconcile: ReconcileAttemptRequest)
  {
    function Id(): ExecutionId {
      match this
      case StartExecution(r) => r.id
      case ResumeExecution(r) => r.id
      case RenewExecution(r) => r.id
      case SaveCheckpoint(r) => r.id
      case SuspendExecution(r) => r.id
      case FinishExecution(r) => r.id
      case ReleaseExecution(r) => r.id
      case StartAttempt(r) => r.id
      case FinishAttempt(r) => r.id
      case MarkAttemptUnknown(r) => r.id
      case ReconcileAttempt(r) => r.id
    }

    /** The lease that fences the command, if it carries one. */
    function Fence(): Option<LeaseRef> {
      match this
      case StartExecution(_) => None
      case ResumeExecution(_) => None
      case RenewExecution(r) => Some(r.lease)
      case SaveCheckpoint(r) => Some(r.lease)
      case SuspendExecution(r) => Some(r.lease)
      case FinishExecution(r) => Some(r.lease)
      case ReleaseExecution(r) => Some(r.lease)
      case StartAttempt(r) => Some(r.lease)
      case FinishAttempt(r) => Some(r.lease)
      case MarkAttemptUnknown(r) => Some(r.lease)
      case ReconcileAttempt(_) => None
    }
  }

  datatype Response =
    | Started(startResult: StartResult)
    | Resumed(resumeResult: ResumeResult)
    | Leased(lease: Lease)
    | Stored(execution: Execution)
    | Released(releaseResult: ReleaseResult)
    | Decided(attemptStart: AttemptStart)
    | Settled(attempt: Attempt)
    | Rejected(error: BackendError)

  /** The digests, which the backend recomputes and compares; None is a value that cannot be encoded. */
  datatype Codec = Codec(
    spec: Document -> Option<Hash>,
    result: AgentResult -> Option<Hash>,
    continuation: Document -> Option<Hash>)
}
