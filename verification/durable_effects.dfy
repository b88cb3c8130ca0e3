/** Tool calls as effects of a durable execution: how one call is started, executed, replayed
    or settled through the record, and what two effects of one operation mean for each other. */
module DurableEffects {
  import opened Text
  import opened Messages
  import opened DurableTypes
  import opened DurableSpec
  import opened DurableInvariant
  import opened DurableLaws
  import opened DurableRuns
  import opened DurableReplays
  import opened DurableBackend

  // ---- operation names ----

  const DIGITS := "0123456789"

  /** A count in decimal. */
  function Decimal(n: nat): (s: string)
    ensures s != "" && ':' !in s
  {
    if n < 10 then [DIGITS[n]] else Decimal(n / 10) + [DIGITS[n % 10]]
  }

  lemma {:induction false} DecimalInjective(m: nat, n: nat)
    requires Decimal(m) == Decimal(n)
    ensures m == n
    decreases m + n
  {
    var last := |Decimal(m)| - 1;
    assert Decimal(m)[last] == DIGITS[m % 10] && Decimal(n)[last] == DIGITS[n % 10];
    DigitsDiffer(m % 10, n % 10);
    assert Decimal(m)[..last] == (if m < 10 then "" else Decimal(m / 10));
    assert Decimal(n)[..last] == (if n < 10 then "" else Decimal(n / 10));
    if m >= 10 && n >= 10 {
      DecimalInjective(m / 10, n / 10);
    }
  }

  lemma DigitsDiffer(a: nat, b: nat)
    requires a < 10 && b < 10 && DIGITS[a] == DIGITS[b]
    ensures a == b
  {
  }

  /** The name of one tool call's operation, and of one model call's. */
  function ToolName(turn: nat, call: nat): string {
    "turn:" + (Decimal(turn) + ":" + ("call:" + Decimal(call)))
  }

  function ModelName(turn: nat): string {
    "turn:" + (Decimal(turn) + ":" + "model")
  }

  function OperationText(op: Operation): string {
    match op
    case NoOperation => ""
    case Slot(turn, call) => if turn >= 0 && call >= 0 then ToolName(turn, call) else ""
    case Foreign(text, _) => text
  }

  lemma FirstColon(a: string, b: string, c: string, d: string)
    requires ':' !in a && ':' !in c && a + ":" + b == c + ":" + d
    ensures a == c && b == d
  {
    var all := a + ":" + b;
    assert all[|a|] == ':' && all[|c|] == ':';
    assert forall k :: 0 <= k < |a| ==> all[k] == a[k] && a[k] != ':';
    assert forall k :: 0 <= k < |c| ==> all[k] == c[k] && c[k] != ':';
    assert |a| == |c|;
    assert all[..|a|] == a && all[..|c|] == c;
    assert all[|a| + 1..] == b && all[|c| + 1..] == d;
  }

  lemma SamePrefix(p: string, a: string, b: string)
    requires p + a == p + b
    ensures a == b
  {
    assert (p + a)[|p|..] == a && (p + b)[|p|..] == b;
  }

  /** Different slots have different names, and no tool call is named like a model call. */
  lemma NamesDiffer(turn: nat, call: nat, turn': nat, call': nat)
    ensures ToolName(turn, call) == ToolName(turn', call') ==> turn == turn' && call == call'
    ensures ToolName(turn, call) != ModelName(turn')
  {
    if ToolName(turn, call) == ToolName(turn', call') {
      var rest, rest' := "call:" + Decimal(call), "call:" + Decimal(call');
      SamePrefix("turn:", Decimal(turn) + ":" + rest, Decimal(turn') + ":" + rest');
      FirstColon(Decimal(turn), rest, Decimal(turn'), rest');
      SamePrefix("call:", Decimal(call), Decimal(call'));
      DecimalInjective(turn, turn');
      DecimalInjective(call, call');
    }
    var rest := "call:" + Decimal(call);
    assert rest[0] == 'c' && "model"[0] == 'm';
    if ToolName(turn, call) == ModelName(turn') {
      SamePrefix("turn:", Decimal(turn) + ":" + rest, Decimal(turn') + ":" + "model");
      FirstColon(Decimal(turn), rest, Decimal(turn'), "model");
    }
  }

  // ---- one effect, command by command ----

  /** What the driver produced: a result text and an error; `notExecuted` is an error that
      promises that nothing happened. */
  datatype DriverOutcome = DriverOutcome(result: string, error: Option<FailureRecord>, notExecuted: bool)

  /** How calls are hashed and outcomes stored. */
  datatype EffectCodec = EffectCodec(
    hash: ToolCall -> Option<Hash>,
    encode: (string, Option<FailureRecord>) -> Option<string>,
    decode: string -> Option<(string, Option<FailureRecord>)>)

  /** What was encoded decodes to itself. */
  ghost predicate RoundTrips(ec: EffectCodec) {
    forall result, failure :: ec.encode(result, failure).Some? ==>
      ec.decode(ec.encode(result, failure).value) == Some((result, failure))
  }

  function BeginEffect(id: ExecutionId, lease: LeaseRef, x: ToolCall, hash: Hash): Command {
    StartAttempt(StartAttemptRequest(id, lease, OperationText(x.operation), Tool, hash))
  }

  /** What the answer to the start tells the interceptor to do. */
  datatype Reaction =
    | Replayed(result: string, failure: Option<FailureRecord>)
    | Undecodable
    | MustReconcile(attempt: Attempt)
    | RunDriver(attempt: Attempt)
    | Refused(error: BackendError)
    | Unexpected

  function React(ec: EffectCodec, answer: Response): Reaction {
    match answer
    case Decided(started) =>
      (match started.decision
       case Replay =>
         var decoded := ec.decode(started.attempt.payload);
         if decoded.None? then Undecodable else Replayed(decoded.value.0, decoded.value.1)
       case Reconcile => MustReconcile(started.attempt)
       case Execute => RunDriver(started.attempt))
    case Rejected(error) => Refused(error)
    case _ => Unexpected
  }

  /** Whether the outcome is recorded as final: a success, or an error that promises that nothing happened. */
  predicate Final(ec: EffectCodec, o: DriverOutcome) {
    ec.encode(o.result, o.error).Some? && (o.error.None? || o.notExecuted)
  }

  function SettleRequest(ec: EffectCodec, id: ExecutionId, lease: LeaseRef, a: Attempt, o: DriverOutcome): SettleAttemptRequest {
    var payload := ec.encode(o.result, o.error);
    SettleAttemptRequest(id, lease, a.operationId, a.number, a.version, if payload.Some? then payload.value else "", o.error)
  }

  /** The command that records what the driver produced. */
  function SettleEffect(ec: EffectCodec, id: ExecutionId, lease: LeaseRef, a: Attempt, o: DriverOutcome): Command {
    var r := SettleRequest(ec, id, lease, a, o);
    if Final(ec, o) then FinishAttempt(r) else MarkAttemptUnknown(r)
  }

  // ---- effects in a run ----

  /** One tool call that went through the interceptor: the call that started it, what its
      driver produced if it ran and came back, and the call that settled it if it got there. */
  datatype Effect = Effect(x: ToolCall, lease: LeaseRef, start: nat, outcome: Option<DriverOutcome>, settle: Option<nat>)

  ghost predicate IsEffect(ec: EffectCodec, id: ExecutionId, calls: seq<Call>, f: Effect) {
    && f.start < |calls| && ec.hash(f.x).Some?
    && calls[f.start].command == BeginEffect(id, f.lease, f.x, ec.hash(f.x).value)
    && (f.outcome.Some? ==> React(ec, calls[f.start].answer).RunDriver?)
    && (f.settle.Some? ==>
          && f.outcome.Some? && f.start < f.settle.value < |calls|
          && exists lease :: calls[f.settle.value].command
                             == SettleEffect(ec, id, lease, React(ec, calls[f.start].answer).attempt, f.outcome.value))
  }

  /** The driver was called. */
  predicate MayExecute(ec: EffectCodec, calls: seq<Call>, f: Effect) {
    f.start < |calls| && React(ec, calls[f.start].answer).RunDriver?
  }

  datatype EffectResult = Returned(result: string, failure: Option<FailureRecord>) | Refusal | Lost

  /** What the loop gets: a replayed outcome, a fresh one that was recorded as final, an error,
      or nothing when the process stopped before. */
  function ResultOf(ec: EffectCodec, calls: seq<Call>, f: Effect): EffectResult
    requires f.start < |calls| && (f.settle.Some? ==> f.settle.value < |calls|)
  {
    match React(ec, calls[f.start].answer)
    case Replayed(result, failure) => Returned(result, failure)
    case RunDriver(_) =>
      if f.outcome.None? || f.settle.None? then Lost
      else if Final(ec, f.outcome.value) && calls[f.settle.value].answer.Settled?
      then Returned(f.outcome.value.result, f.outcome.value.error)
      else Refusal
    case _ => Refusal
  }

  /** The effect ran its driver and recorded the outcome as final. */
  ghost predicate Finished(ec: EffectCodec, calls: seq<Call>, f: Effect) {
    && f.outcome.Some? && f.settle.Some? && f.settle.value < |calls|
    && Final(ec, f.outcome.value) && calls[f.settle.value].answer.Settled?
  }

  ghost predicate Accepted(calls: seq<Call>, f: Effect) {
    f.start < |calls| && !calls[f.start].answer.Rejected?
  }

  /** Two executions of one operation under different tokens have an accepted retry between them. */
  lemma RetryBetween(codec: Codec, stores: seq<Store>, calls: seq<Call>, ec: EffectCodec, id: ExecutionId, f: Effect, g: Effect)
    returns (k: nat)
    requires IsRun(codec, stores, calls) && IsEffect(ec, id, calls, f) && IsEffect(ec, id, calls, g)
    requires MayExecute(ec, calls, f) && MayExecute(ec, calls, g) && f.start < g.start
    requires OperationText(f.x.operation) == OperationText(g.x.operation) && f.lease.token != g.lease.token
    ensures f.start < k < g.start
    ensures DecidesRetry(stores[k], calls[k], id, OperationText(f.x.operation), React(ec, calls[f.start].answer).attempt.number)
  {
    hide IsRun;
    k := NoSilentReexecution(codec, stores, calls, f.start, g.start, id, OperationText(f.x.operation), f.lease, g.lease,
                             React(ec, calls[f.start].answer).attempt.number, React(ec, calls[g.start].answer).attempt.number);
  }

  /** What a finished effect leaves in the record. */
  lemma FinishedSettles(codec: Codec, stores: seq<Store>, calls: seq<Call>, ec: EffectCodec, id: ExecutionId, f: Effect)
    requires IsRun(codec, stores, calls) && IsEffect(ec, id, calls, f) && Finished(ec, calls, f)
    ensures var op, n := OperationText(f.x.operation), React(ec, calls[f.start].answer).attempt.number;
            && n >= 1 && HasAttempt(stores[f.settle.value + 1], id, op, n - 1)
            && var a := AttemptAt(stores[f.settle.value + 1], id, op, n - 1);
            && (a.status == Succeeded || a.status == Failed)
            && Some(a.payload) == ec.encode(f.outcome.value.result, f.outcome.value.error)
  {
    hide IsRun;
    StartRecordedAt(codec, stores, calls, f.start);
    RunKeepsOperation(codec, stores, calls, f.start);
    FinishRecorded(codec, stores, calls, f.settle.value);
  }

  lemma RunKeepsOperation(codec: Codec, stores: seq<Store>, calls: seq<Call>, i: nat)
    requires IsRun(codec, stores, calls) && i < |calls|
    requires calls[i].command.StartAttempt? && !calls[i].answer.Rejected? && calls[i].answer.Decided?
    ensures calls[i].answer.attemptStart.attempt.operationId == calls[i].command.attempt.operationId
  {
    StartRecordedAt(codec, stores, calls, i);
    RunKeeps(codec, stores, calls, i + 1);
    var r := calls[i].command.attempt;
    assert LogShape(r.id, r.operationId, stores[i + 1][r.id].attempts[r.operationId], stores[i + 1][r.id].execution.lease);
  }

  /** `g` was accepted after `f` had finished. */
  ghost predicate After(ec: EffectCodec, calls: seq<Call>, f: Effect, g: Effect) {
    Finished(ec, calls, f) && f.settle.value < g.start && Accepted(calls, g)
  }

  /** `g` ran no driver and gave the loop the outcome of `f`'s driver. */
  ghost predicate GivesAgain(ec: EffectCodec, calls: seq<Call>, f: Effect, g: Effect) {
    && f.outcome.Some? && !MayExecute(ec, calls, g)
    && g.start < |calls| && (g.settle.Some? ==> g.settle.value < |calls|)
    && ResultOf(ec, calls, g) == Returned(f.outcome.value.result, f.outcome.value.error)
  }

  /** Once an effect has finished, every later accepted effect of its operation, under any
      token, is replayed: the driver is not called again, and the loop gets the outcome that
      was recorded. */
  lemma FinishedReplays(codec: Codec, stores: seq<Store>, calls: seq<Call>, ec: EffectCodec, id: ExecutionId, f: Effect, g: Effect)
    requires RoundTrips(ec) && IsRun(codec, stores, calls) && IsEffect(ec, id, calls, f) && IsEffect(ec, id, calls, g)
    requires After(ec, calls, f, g) && OperationText(f.x.operation) == OperationText(g.x.operation)
    ensures GivesAgain(ec, calls, f, g) && ResultOf(ec, calls, g) == ResultOf(ec, calls, f)
  {
    hide IsRun;
    FinishedSettles(codec, stores, calls, ec, id, f);
    var op, n := OperationText(f.x.operation), React(ec, calls[f.start].answer).attempt.number;
    SettledReplays(codec, stores, calls, f.settle.value + 1, g.start, id, op, n - 1);
  }

  // ---- an uncertain outcome ----

  /** The driver failed without a promise that nothing happened, or its outcome cannot be stored. */
  predicate Uncertain(ec: EffectCodec, o: DriverOutcome) {
    ec.encode(o.result, o.error).None? || (o.error.Some? && !o.notExecuted)
  }

  /** An accepted resolution of this very attempt, taken while its outcome was unknown. */
  ghost predicate Resolves(store: Store, call: Call, id: ExecutionId, op: OperationId, number: int) {
    && call.command.ReconcileAttempt? && call.answer.Settled? && call.command.reconcile.id == id
    && call.command.reconcile.operationId == op && call.command.reconcile.number == number
    && number >= 1 && HasAttempt(store, id, op, number - 1) && AttemptAt(store, id, op, number - 1).status == Unknown
  }

  lemma RunLength(codec: Codec, stores: seq<Store>, calls: seq<Call>)
    requires IsRun(codec, stores, calls)
    ensures |stores| == |calls| + 1
  {
  }

  lemma UncertainMarked(codec: Codec, stores: seq<Store>, calls: seq<Call>, ec: EffectCodec, id: ExecutionId, f: Effect)
    requires IsRun(codec, stores, calls) && IsEffect(ec, id, calls, f) && f.settle.Some? && Uncertain(ec, f.outcome.value)
    requires calls[f.settle.value].answer.Settled?
    ensures var op, n := OperationText(f.x.operation), React(ec, calls[f.start].answer).attempt.number;
            && n >= 1 && HasAttempt(stores[f.settle.value + 1], id, op, n - 1)
            && AttemptAt(stores[f.settle.value + 1], id, op, n - 1).status == Unknown
  {
    hide IsRun;
    StartRecordedAt(codec, stores, calls, f.start);
    RunKeepsOperation(codec, stores, calls, f.start);
    MarkRecorded(codec, stores, calls, f.settle.value);
  }

  /** An attempt whose outcome is unknown stays exactly as it is until it is resolved. */
  lemma {:induction false} UnknownUntilResolved(
    codec: Codec, stores: seq<Store>, calls: seq<Call>, i: nat, j: nat, id: ExecutionId, op: OperationId, n: nat)
    returns (k: nat)
    requires IsRun(codec, stores, calls) && i <= j < |stores|
    requires HasAttempt(stores[i], id, op, n) && AttemptAt(stores[i], id, op, n).status == Unknown
    ensures HasAttempt(stores[j], id, op, n)
    ensures AttemptAt(stores[j], id, op, n) != AttemptAt(stores[i], id, op, n) ==>
              i <= k < j && Resolves(stores[k], calls[k], id, op, n + 1)
    decreases j
  {
    hide StoreInv, Inv, IsRun, Resolves;
    k := i;
    RunLength(codec, stores, calls);
    if i < j {
      k := UnknownUntilResolved(codec, stores, calls, i, j - 1, id, op, n);
      ResolvedInOneCall(codec, stores, calls, j - 1, id, op, n);
      if AttemptAt(stores[j - 1], id, op, n) == AttemptAt(stores[i], id, op, n) {
        k := j - 1;
      }
    }
  }

  lemma ResolvedInOneCall(codec: Codec, stores: seq<Store>, calls: seq<Call>, k: nat, id: ExecutionId, op: OperationId, n: nat)
    requires IsRun(codec, stores, calls) && k < |calls| && HasAttempt(stores[k], id, op, n)
    ensures HasAttempt(stores[k + 1], id, op, n)
    ensures AttemptAt(stores[k], id, op, n).status == Unknown && AttemptAt(stores[k + 1], id, op, n) != AttemptAt(stores[k], id, op, n) ==>
              Resolves(stores[k], calls[k], id, op, n + 1)
  {
    hide StoreInv, Inv;
    assert Links(codec, stores, calls, k);
    RunKeeps(codec, stores, calls, k);
    AttemptStep(codec, stores[k], calls[k].command, calls[k].now, id, op, n);
    Positioned(stores[k], id, op, n);
  }

  lemma Positioned(store: Store, id: ExecutionId, op: OperationId, n: nat)
    requires StoreInv(store) && HasAttempt(store, id, op, n)
    ensures AttemptAt(store, id, op, n).number == n + 1 && AttemptAt(store, id, op, n).operationId == op
  {
    assert LogShape(id, op, store[id].attempts[op], store[id].execution.lease);
  }

  /** No guessing: after a driver failed without a promise that nothing happened, every later
      accepted effect of its operation is told to reconcile that attempt, and runs no driver,
      unless an accepted resolution of it came first. */
  lemma UncertainReconciled(codec: Codec, stores: seq<Store>, calls: seq<Call>, ec: EffectCodec, id: ExecutionId, f: Effect, g: Effect)
    returns (k: nat)
    requires IsRun(codec, stores, calls) && IsEffect(ec, id, calls, f) && IsEffect(ec, id, calls, g)
    requires f.settle.Some? && Uncertain(ec, f.outcome.value) && calls[f.settle.value].answer.Settled?
    requires f.settle.value < g.start && Accepted(calls, g) && OperationText(f.x.operation) == OperationText(g.x.operation)
    ensures var op, n := OperationText(f.x.operation), React(ec, calls[f.start].answer).attempt.number;
            || (f.settle.value < k < g.start && Resolves(stores[k], calls[k], id, op, n))
            || (React(ec, calls[g.start].answer).MustReconcile? && React(ec, calls[g.start].answer).attempt.number == n
                && !MayExecute(ec, calls, g))
  {
    hide IsRun, Inv, StoreInv, Resolves;
    UncertainMarked(codec, stores, calls, ec, id, f);
    var op, n := OperationText(f.x.operation), React(ec, calls[f.start].answer).attempt.number;
    RunLength(codec, stores, calls);
    k := UnknownUntilResolved(codec, stores, calls, f.settle.value + 1, g.start, id, op, n - 1);
    if AttemptAt(stores[g.start], id, op, n - 1) == AttemptAt(stores[f.settle.value + 1], id, op, n - 1) {
      UnknownAnswers(codec, stores, calls, g.start, id, op, n - 1);
    }
  }

  /** An accepted start of an operation whose last attempt is unknown is sent to reconcile it. */
  lemma UnknownAnswers(codec: Codec, stores: seq<Store>, calls: seq<Call>, j: nat, id: ExecutionId, op: OperationId, n: nat)
    requires IsRun(codec, stores, calls) && j < |calls| && HasAttempt(stores[j], id, op, n)
    requires AttemptAt(stores[j], id, op, n).status == Unknown
    requires calls[j].command.StartAttempt? && !calls[j].answer.Rejected?
    requires calls[j].command.attempt.id == id && calls[j].command.attempt.operationId == op
    ensures calls[j].answer == Decided(AttemptStart(AttemptAt(stores[j], id, op, n), Reconcile))
    ensures AttemptAt(stores[j], id, op, n).number == n + 1
  {
    hide Inv, StartAttemptOn;
    assert Links(codec, stores, calls, j);
    RunKeeps(codec, stores, calls, j);
    var r, rec := calls[j].command.attempt, stores[j][id];
    LiveIsLast(rec, id, op, n);
    StartHolds(rec, r, calls[j].now);
    if rec.attempts[op][n].kind == r.kind && rec.attempts[op][n].inputHash == r.inputHash {
      LatestAnswers(rec, r, calls[j].now, rec.attempts[op][n]);
    } else {
      OtherInputRefused(rec, r, calls[j].now);
    }
  }

  /** An effect whose driver runs was started before any other of its operation had finished. */
  lemma ExecutedBefore(codec: Codec, stores: seq<Store>, calls: seq<Call>, ec: EffectCodec, id: ExecutionId, f: Effect, g: Effect)
    requires RoundTrips(ec) && IsRun(codec, stores, calls) && IsEffect(ec, id, calls, f) && IsEffect(ec, id, calls, g)
    requires Finished(ec, calls, f) && MayExecute(ec, calls, g)
    requires OperationText(f.x.operation) == OperationText(g.x.operation)
    ensures g.start < f.settle.value
  {
    hide IsRun, RoundTrips;
    if f.settle.value < g.start {
      FinishedReplays(codec, stores, calls, ec, id, f, g);
    }
  }

  // ---- the interceptor ----

  /** The record holds this outcome for the call: whoever starts it again is given it back. */
  ghost predicate Holds(ec: EffectCodec, rec: Record, x: ToolCall, result: EffectResult) {
    && result.Returned? && ec.hash(x).Some?
    && OperationText(x.operation) in rec.attempts
    && var log := rec.attempts[OperationText(x.operation)];
    && log != []
    && var latest := log[|log| - 1];
    && latest.kind == Tool && latest.inputHash == ec.hash(x).value
    && (latest.status == Succeeded || latest.status == Failed)
    && ec.decode(latest.payload) == Some((result.result, result.failure))
  }

  lemma HeldIsReplayed(ec: EffectCodec, rec: Record, id: ExecutionId, lease: LeaseRef, x: ToolCall, result: EffectResult, now: Time)
    requires Holds(ec, rec, x, result) && HoldsLease(rec.execution, lease, now)
    ensures On(rec, BeginEffect(id, lease, x, ec.hash(x).value), now).0 == rec
    ensures React(ec, On(rec, BeginEffect(id, lease, x, ec.hash(x).value), now).1) == Replayed(result.result, result.failure)
  {
  }

  lemma SettledHolds(ec: EffectCodec, rec: Record, id: ExecutionId, x: ToolCall, r: StartAttemptRequest, a: Attempt,
                     settle: SettleAttemptRequest, o: DriverOutcome, now: Time)
    requires RoundTrips(ec) && Inv(id, rec) && settle.id == id && Final(ec, o) && ec.hash(x) == Some(r.inputHash)
    requires r.operationId == OperationText(x.operation) == settle.operationId && r.kind == Tool
    requires Latest(rec, r, a) && a.status == Running && settle.number == a.number
    requires Some(settle.payload) == ec.encode(o.result, o.error)
    requires FinishAttemptOn(rec, settle, now).1.Ok?
    ensures Holds(ec, FinishAttemptOn(rec, settle, now).0, x, Returned(o.result, o.error))
  {
    PositionIs(id, rec, settle.operationId, settle.number);
  }

  /** The record after the driver ran for attempt `a`: its outcome is finished, or marked unknown
      when it is uncertain; a request that is not well formed is not sent. */
  function AfterDriver(ec: EffectCodec, running: Record, id: ExecutionId, lease: LeaseRef, a: Attempt, o: DriverOutcome,
                       now: Time): Record
  {
    var r := SettleRequest(ec, id, lease, a, o);
    if !ValidSettle(r) then running
    else if Uncertain(ec, o) then MarkUnknownOn(running, r, now).0
    else FinishAttemptOn(running, r, now).0
  }

  /** One call through the interceptor, undisturbed between its commands. A result that the
      loop gets is held by the record, so the call is replayed from then on; the driver runs
      only when the record says so, and what it produced is settled there, or marked unknown
      and refused when it is uncertain. */
  method ExecuteTool(record: ExecutionRecord, ec: EffectCodec, driver: ToolCall -> DriverOutcome, lease: LeaseRef, x: ToolCall,
                     started: Time, settled: Time) returns (result: EffectResult, ran: bool)
    requires record.Valid() && RoundTrips(ec)
    modifies record`attempts
    ensures record.Valid()
    ensures result.Returned? ==> Holds(ec, record.Snapshot(), x, result)
    ensures ran ==>
              && ec.hash(x).Some?
              && var out := StartAttemptOn(old(record.Snapshot()),
                                           StartAttemptRequest(old(record.execution.id), lease, OperationText(x.operation), Tool,
                                                               ec.hash(x).value), started).1;
              out.Ok? && out.value.decision == Execute
    ensures ran ==>
              var (running, out) := StartAttemptOn(old(record.Snapshot()),
                                                   StartAttemptRequest(old(record.execution.id), lease, OperationText(x.operation), Tool,
                                                                       ec.hash(x).value), started);
              record.Snapshot() == AfterDriver(ec, running, old(record.execution.id), lease, out.value.attempt, driver(x), settled)
    ensures ran && Uncertain(ec, driver(x)) ==> result == Refusal
    ensures ran && result.Returned? ==> result == Returned(driver(x).result, driver(x).error)
    ensures old(Holds(ec, record.Snapshot(), x, result)) ==> !ran && record.Snapshot() == old(record.Snapshot())
    ensures forall held :: old(Holds(ec, record.Snapshot(), x, held)) ==> result == held || result == Refusal
  {
    hide StartAttemptOn, FinishAttemptOn, MarkUnknownOn, Inv, RoundTrips;
    ran := false;
    var hash := ec.hash(x);
    var id := record.execution.id;
    if OperationText(x.operation) == "" || hash.None? {
      return Refusal, ran;
    }
    var request := StartAttemptRequest(id, lease, OperationText(x.operation), Tool, hash.value);
    if !ValidStartAttempt(request) {
      return Refusal, ran;
    }
    ghost var before := record.Snapshot();
    var answer := record.StartAttempt(request, started);
    if answer.Err? {
      RefusedUnchanged(before, request, started);
      return Refusal, ran;
    }
    StartAnswers(before, request, started);
    HeldStarts(ec, before, x, request, started);
    var a := answer.value.attempt;
    LatestNamed(id, record.Snapshot(), request, a);
    match answer.value.decision {
      case Replay =>
        var decoded := ec.decode(a.payload);
        if decoded.None? {
          return Refusal, ran;
        }
        return Returned(decoded.value.0, decoded.value.1), ran;
      case Reconcile => return Refusal, ran;
      case Execute =>
        var outcome := driver(x);
        ran := true;
        var settle := SettleRequest(ec, id, lease, a, outcome);
        if !ValidSettle(settle) {
          return Refusal, ran;
        }
        if Final(ec, outcome) {
          ghost var running := record.Snapshot();
          var finished := record.FinishAttempt(settle, settled);
          if finished.Err? {
            return Refusal, ran;
          }
          SettledHolds(ec, running, id, x, request, a, settle, outcome, settled);
          return Returned(outcome.result, outcome.error), ran;
        }
        var _ := record.MarkAttemptUnknown(settle, settled);
        return Refusal, ran;
    }
  }

  lemma LatestNamed(id: ExecutionId, rec: Record, r: StartAttemptRequest, a: Attempt)
    requires Inv(id, rec) && Latest(rec, r, a)
    ensures a.operationId == r.operationId
  {
    assert LogShape(id, r.operationId, rec.attempts[r.operationId], rec.execution.lease);
  }

  lemma RefusedUnchanged(rec: Record, r: StartAttemptRequest, now: Time)
    requires StartAttemptOn(rec, r, now).1.Err?
    ensures StartAttemptOn(rec, r, now).0 == rec
  {
  }

  /** An accepted start of a held outcome changes nothing and replays it. */
  lemma HeldStarts(ec: EffectCodec, rec: Record, x: ToolCall, r: StartAttemptRequest, now: Time)
    requires StartAttemptOn(rec, r, now).1.Ok? && r.operationId == OperationText(x.operation)
    ensures forall held :: Holds(ec, rec, x, held) ==>
              && StartAttemptOn(rec, r, now).0 == rec
              && var out := StartAttemptOn(rec, r, now).1.value;
              out.decision == Replay && ec.decode(out.attempt.payload) == Some((held.result, held.failure))
  {
  }
}
