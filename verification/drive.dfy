/** Driving ticks of concurrent dispatches to a deterministic state. */
module Orchestration {
  import opened Text
  import opened Sorting

  const DEFAULT_MAX_TICKS: nat := 64

  /** `wellFormed` stands for the checks of budget, policy and handoff. */
  datatype Dispatch = Dispatch(id: string, route: string, wellFormed: bool, body: string)
  datatype Outcome = Outcome(tick: int, dispatch: Dispatch, result: string)
  datatype State = State(tick: int, outcomes: seq<Outcome>)

  /** One execution, as it was recorded when it completed. */
  datatype Record = Record(dispatch: Dispatch, result: string, failed: bool)

  predicate ValidDispatch(d: Dispatch) {
    !Blank(d.id) && !Blank(d.route) && d.wellFormed
  }

  predicate OutcomeLess(a: Outcome, b: Outcome) {
    if a.tick != b.tick then a.tick < b.tick else Less(a.dispatch.id, b.dispatch.id)
  }

  predicate ById(a: Outcome, b: Outcome) { Less(a.dispatch.id, b.dispatch.id) }
  predicate FailureById(a: Record, b: Record) { Less(a.dispatch.id, b.dispatch.id) }

  // ---- what a state is ----

  ghost predicate DistinctIds(outcomes: seq<Outcome>) {
    forall i, j :: 0 <= i < j < |outcomes| ==> outcomes[i].dispatch.id != outcomes[j].dispatch.id
  }

  ghost predicate ValidOutcome(o: Outcome, tick: int) {
    1 <= o.tick <= tick && ValidDispatch(o.dispatch)
  }

  /** A state that a drive may start from. */
  ghost predicate Legal(s: State) {
    && 0 <= s.tick
    && (forall i :: 0 <= i < |s.outcomes| ==> ValidOutcome(s.outcomes[i], s.tick))
    && DistinctIds(s.outcomes)
    && StrictlySorted(OutcomeLess, s.outcomes)
  }

  ghost predicate Uses(outcomes: seq<Outcome>, id: string) {
    exists i :: 0 <= i < |outcomes| && outcomes[i].dispatch.id == id
  }

  /** A batch the driver accepts: valid dispatches with new, pairwise distinct ids. */
  ghost predicate Acceptable(s: State, batch: seq<Dispatch>) {
    && (forall i :: 0 <= i < |batch| ==> ValidDispatch(batch[i]) && !Uses(s.outcomes, batch[i].id))
    && (forall i, j :: 0 <= i < j < |batch| ==> batch[i].id != batch[j].id)
  }

  // ---- the orders ----

  lemma OutcomeOrder()
    ensures StrictOrder(OutcomeLess)
  {
    forall x: Outcome ensures !OutcomeLess(x, x) {
      LessIrreflexive(x.dispatch.id);
    }
    forall x: Outcome, y: Outcome, z: Outcome | OutcomeLess(x, y) && OutcomeLess(y, z) ensures OutcomeLess(x, z) {
      if x.tick == y.tick == z.tick {
        LessTransitive(x.dispatch.id, y.dispatch.id, z.dispatch.id);
      }
    }
  }

  lemma FailureOrder()
    ensures StrictOrder(FailureById)
  {
    forall x: Record ensures !FailureById(x, x) {
      LessIrreflexive(x.dispatch.id);
    }
    forall x: Record, y: Record, z: Record | FailureById(x, y) && FailureById(y, z) ensures FailureById(x, z) {
      LessTransitive(x.dispatch.id, y.dispatch.id, z.dispatch.id);
    }
  }

  lemma DistinctComparable(l: seq<Outcome>)
    requires DistinctIds(l)
    ensures Comparable(OutcomeLess, Elements(l)) && NoDuplicates(l)
  {
    forall x, y | x in Elements(l) && y in Elements(l) && x != y ensures OutcomeLess(x, y) || OutcomeLess(y, x) {
      var i :| 0 <= i < |l| && l[i] == x;
      var j :| 0 <= j < |l| && l[j] == y;
      LessTotal(x.dispatch.id, y.dispatch.id);
    }
  }

  // ---- one batch ----

  function Successes(tick: int, records: seq<Record>): seq<Outcome> {
    if records == [] then []
    else
      var last := records[|records| - 1];
      Successes(tick, records[..|records| - 1]) + (if last.failed then [] else [Outcome(tick, last.dispatch, last.result)])
  }

  function Failures(records: seq<Record>): seq<Record> {
    if records == [] then []
    else
      var last := records[|records| - 1];
      Failures(records[..|records| - 1]) + (if last.failed then [last] else [])
  }

  datatype Batch = Batch(state: State, failures: seq<Record>)

  /** The state after a batch whose executions completed in this order. */
  function Folded(s: State, records: seq<Record>): Batch {
    Batch(s.(outcomes := Sort(OutcomeLess, s.outcomes + Sort(ById, Successes(s.tick + 1, records)))),
          Sort(FailureById, Failures(records)))
  }

  ghost predicate DistinctRecords(records: seq<Record>) {
    forall i, j :: 0 <= i < j < |records| ==> records[i].dispatch.id != records[j].dispatch.id
  }

  lemma {:induction false} SuccessMembers(tick: int, records: seq<Record>, o: Outcome)
    ensures o in Successes(tick, records) <==>
            exists i :: 0 <= i < |records| && !records[i].failed && o == Outcome(tick, records[i].dispatch, records[i].result)
  {
    if records != [] {
      var n := |records| - 1;
      SuccessMembers(tick, records[..n], o);
      if !records[n].failed && o == Outcome(tick, records[n].dispatch, records[n].result) {
        assert o in Successes(tick, records);
      }
    }
  }

  lemma {:induction false} SuccessIds(tick: int, records: seq<Record>)
    requires DistinctRecords(records)
    ensures DistinctIds(Successes(tick, records))
  {
    if records != [] {
      var n := |records| - 1;
      SuccessIds(tick, records[..n]);
      var before := Successes(tick, records[..n]);
      forall k | 0 <= k < |before| ensures before[k].dispatch.id != records[n].dispatch.id {
        SuccessMembers(tick, records[..n], before[k]);
      }
    }
  }

  lemma {:induction false} FailureMembers(records: seq<Record>, r: Record)
    ensures r in Failures(records) <==> r in records && r.failed
  {
    if records != [] {
      FailureMembers(records[..|records| - 1], r);
      assert records == records[..|records| - 1] + [records[|records| - 1]];
    }
  }

  lemma {:induction false} FailureIds(records: seq<Record>)
    requires DistinctRecords(records)
    ensures DistinctRecords(Failures(records))
  {
    if records != [] {
      var n := |records| - 1;
      FailureIds(records[..n]);
      var before := Failures(records[..n]);
      forall k | 0 <= k < |before| ensures before[k].dispatch.id != records[n].dispatch.id {
        FailureMembers(records[..n], before[k]);
      }
    }
  }

  /** Permuting a list with distinct ids keeps them distinct. */
  lemma PermutedIds(a: seq<Outcome>, b: seq<Outcome>)
    requires DistinctIds(a) && multiset(a) == multiset(b)
    ensures DistinctIds(b)
  {
    forall i, j | 0 <= i < j < |b| ensures b[i].dispatch.id != b[j].dispatch.id {
      if b[i] == b[j] {
        OccursTwice(b, i, j);
        OccursOnce(a, b[i]);
      } else {
        assert b[i] in multiset(b) && b[j] in multiset(b);
        assert b[i] in multiset(a) && b[j] in multiset(a);
      }
    }
  }

  /** The ids of a batch's records are new to the state. */
  ghost predicate NewTo(s: State, records: seq<Record>) {
    && DistinctRecords(records)
    && forall i :: 0 <= i < |records| ==> ValidDispatch(records[i].dispatch) && !Uses(s.outcomes, records[i].dispatch.id)
  }

  /** Everything the next state holds, before it is arranged. */
  function Pooled(s: State, records: seq<Record>): seq<Outcome> {
    s.outcomes + Sort(ById, Successes(s.tick + 1, records))
  }

  lemma PooledIds(s: State, records: seq<Record>)
    requires Legal(s) && NewTo(s, records)
    ensures DistinctIds(Pooled(s, records))
  {
    var added := Successes(s.tick + 1, records);
    SuccessIds(s.tick + 1, records);
    SortPermutes(ById, added);
    PermutedIds(added, Sort(ById, added));
    SameMembers(Sort(ById, added), added);
    forall k | 0 <= k < |Sort(ById, added)| ensures !Uses(s.outcomes, Sort(ById, added)[k].dispatch.id) {
      assert Sort(ById, added)[k] in Elements(added);
      SuccessMembers(s.tick + 1, records, Sort(ById, added)[k]);
    }
  }

  lemma ElementsJoin(a: seq<Outcome>, b: seq<Outcome>)
    ensures Elements(a + b) == Elements(a) + Elements(b)
  {
  }

  lemma PooledMembers(s: State, records: seq<Record>)
    ensures Elements(Pooled(s, records)) == Elements(s.outcomes) + Elements(Successes(s.tick + 1, records))
  {
    hide Sort, Elements, Successes;
    var added := Successes(s.tick + 1, records);
    SortPermutes(ById, added);
    SameMembers(Sort(ById, added), added);
    ElementsJoin(s.outcomes, Sort(ById, added));
  }

  /** Outcomes with distinct ids have one sorted arrangement, and sorting finds it. */
  lemma SortOutcomes(l: seq<Outcome>)
    requires DistinctIds(l)
    ensures var sorted := Sort(OutcomeLess, l);
            && sorted == Arrange(OutcomeLess, Elements(l)) && Elements(sorted) == Elements(l)
            && StrictlySorted(OutcomeLess, sorted) && DistinctIds(sorted)
  {
    OutcomeOrder();
    DistinctComparable(l);
    SortPermutes(OutcomeLess, l);
    PermutedIds(l, Sort(OutcomeLess, l));
    hide OutcomeLess, DistinctIds, StrictOrder, Comparable, NoDuplicates, StrictlySorted, Sort, Arrange, Elements;
    SortSorted(OutcomeLess, l);
    SortArranges(OutcomeLess, l, Elements(l));
  }

  /** The next state is the one sorted arrangement of the old outcomes and the new successes. */
  lemma FoldedArranges(s: State, records: seq<Record>)
    requires Legal(s) && NewTo(s, records)
    ensures var l := Folded(s, records).state.outcomes;
            && l == Arrange(OutcomeLess, Elements(s.outcomes) + Elements(Successes(s.tick + 1, records)))
            && StrictlySorted(OutcomeLess, l) && DistinctIds(l)
            && Elements(l) == Elements(s.outcomes) + Elements(Successes(s.tick + 1, records))
  {
    hide OutcomeLess, DistinctIds, StrictlySorted, Sort, Arrange, Elements, Successes, Legal, NewTo;
    PooledIds(s, records);
    PooledMembers(s, records);
    SortOutcomes(Pooled(s, records));
  }

  lemma SameSuccesses(tick: int, a: seq<Record>, b: seq<Record>)
    requires multiset(a) == multiset(b)
    ensures Elements(Successes(tick, a)) == Elements(Successes(tick, b))
  {
    SameMembers(a, b);
    forall o ensures o in Successes(tick, a) <==> o in Successes(tick, b) {
      SuccessMembers(tick, a, o);
      SuccessMembers(tick, b, o);
      if o in Successes(tick, a) {
        var i :| 0 <= i < |a| && !a[i].failed && o == Outcome(tick, a[i].dispatch, a[i].result);
        assert a[i] in Elements(b);
      }
      if o in Successes(tick, b) {
        var i :| 0 <= i < |b| && !b[i].failed && o == Outcome(tick, b[i].dispatch, b[i].result);
        assert b[i] in Elements(a);
      }
    }
  }

  lemma SortFailures(f: seq<Record>)
    requires DistinctRecords(f)
    ensures Sort(FailureById, f) == Arrange(FailureById, Elements(f))
  {
    FailureOrder();
    forall x, y | x in Elements(f) && y in Elements(f) && x != y ensures FailureById(x, y) || FailureById(y, x) {
      var i :| 0 <= i < |f| && f[i] == x;
      var j :| 0 <= j < |f| && f[j] == y;
      LessTotal(x.dispatch.id, y.dispatch.id);
    }
    hide FailureById, StrictOrder, Sort, Arrange;
    SortArranges(FailureById, f, Elements(f));
  }

  lemma FailuresArrange(records: seq<Record>)
    requires DistinctRecords(records)
    ensures Folded(State(0, []), records).failures == Arrange(FailureById, set r | r in records && r.failed)
  {
    hide Sort, Arrange, Failures, FailureById;
    var f := Failures(records);
    FailureIds(records);
    forall r ensures r in f <==> r in records && r.failed {
      FailureMembers(records, r);
    }
    assert Elements(f) == set r | r in records && r.failed;
    SortFailures(f);
  }

  /** The state after a tick, and the failures reported, do not depend on completion order. */
  lemma CompletionOrderIrrelevant(s: State, a: seq<Record>, b: seq<Record>)
    requires Legal(s) && NewTo(s, a) && NewTo(s, b) && multiset(a) == multiset(b)
    ensures Folded(s, a) == Folded(s, b)
  {
    FoldedArranges(s, a);
    FoldedArranges(s, b);
    SameSuccesses(s.tick + 1, a, b);
    FailuresArrange(a);
    FailuresArrange(b);
    SameMembers(a, b);
    assert (set r | r in a && r.failed) == (set r | r in b && r.failed) by {
      assert forall r :: r in a <==> r in Elements(a);
      assert forall r :: r in b <==> r in Elements(b);
    }
  }

  lemma SuccessValid(s: State, records: seq<Record>, o: Outcome)
    requires NewTo(s, records) && o in Successes(s.tick + 1, records)
    ensures o.tick == s.tick + 1 && ValidDispatch(o.dispatch)
  {
    SuccessMembers(s.tick + 1, records, o);
  }

  /** After a batch the next tick's state is legal; the state of a failed batch, whose tick
      is not advanced, is legal exactly when nothing in it succeeded. */
  lemma FoldedLegal(s: State, records: seq<Record>)
    requires Legal(s) && NewTo(s, records)
    ensures Legal(Folded(s, records).state.(tick := s.tick + 1))
    ensures Legal(Folded(s, records).state) <==> Successes(s.tick + 1, records) == []
  {
    FoldedArranges(s, records);
    var added := Successes(s.tick + 1, records);
    var f := Folded(s, records).state;
    assert f.tick == s.tick;
    var l := f.outcomes;
    hide Folded, Successes, OutcomeLess, ValidDispatch, NewTo, Arrange, DistinctIds, StrictlySorted;
    forall i | 0 <= i < |l| ensures ValidOutcome(l[i], s.tick + 1) && (added == [] ==> ValidOutcome(l[i], s.tick)) {
      assert l[i] in Elements(l);
      if l[i] in Elements(s.outcomes) {
        var j :| 0 <= j < |s.outcomes| && s.outcomes[j] == l[i];
      } else {
        SuccessValid(s, records, l[i]);
      }
    }
    if added != [] {
      assert added[0] in Elements(l);
      SuccessValid(s, records, added[0]);
      var i :| 0 <= i < |l| && l[i] == added[0];
      assert !ValidOutcome(l[i], s.tick);
    }
  }

  // ---- driving ----

  /** The world of a drive: what the scheduler asks for, which executions complete and in
      which order, and whether the drive was cancelled while a batch ran. */
  datatype World = World(
    schedule: State -> Option<seq<Dispatch>>,
    execute: (State, seq<Dispatch>) -> seq<Record>,
    cancelled: State -> bool)

  function Dispatches(records: seq<Record>): seq<Dispatch> {
    seq(|records|, i requires 0 <= i < |records| => records[i].dispatch)
  }

  predicate Succeeded(w: World, s: State, records: seq<Record>) {
    !w.cancelled(s) && forall r :: r in records ==> !r.failed
  }

  /** Only dispatches of the batch run, each at most once, and all of them unless one fails or
      the drive is cancelled. */
  ghost predicate Fair(w: World) {
    forall s, batch ::
      && multiset(Dispatches(w.execute(s, batch))) <= multiset(batch)
      && (Succeeded(w, s, w.execute(s, batch)) ==> multiset(Dispatches(w.execute(s, batch))) == multiset(batch))
  }

  datatype End = Finished | SchedulerFailed | MaxTicks | BatchFailed(failures: seq<Record>) | InvalidArgument
  datatype Driven = Driven(state: State, end: End)

  /** At most `ticks` further ticks. */
  ghost function Drive(w: World, s: State, ticks: nat): Driven
    decreases ticks
  {
    var batch := w.schedule(s);
    if batch.None? || !Acceptable(s, batch.value) then Driven(s, SchedulerFailed)
    else if batch.value == [] then Driven(s, Finished)
    else if ticks == 0 then Driven(s, MaxTicks)
    else
      var records := w.execute(s, batch.value);
      var b := Folded(s, records);
      if !Succeeded(w, s, records) then Driven(b.state, BatchFailed(b.failures))
      else Drive(w, b.state.(tick := s.tick + 1), ticks - 1)
  }

  /** A call with its options: zero ticks means the default. */
  ghost function DriveFrom(w: World, initial: Option<State>, maxTicks: int): Driven {
    if maxTicks < 0 || (initial.Some? && !Legal(initial.value)) then Driven(State(0, []), InvalidArgument)
    else Drive(w, if initial.Some? then initial.value else State(0, []), if maxTicks == 0 then DEFAULT_MAX_TICKS else maxTicks)
  }

  /** Records of an acceptable batch have new, distinct ids. */
  lemma RecordsNew(s: State, batch: seq<Dispatch>, records: seq<Record>)
    requires Acceptable(s, batch) && multiset(Dispatches(records)) <= multiset(batch)
    ensures NewTo(s, records)
  {
    var ds := Dispatches(records);
    forall i | 0 <= i < |records| ensures ValidDispatch(records[i].dispatch) && !Uses(s.outcomes, records[i].dispatch.id) {
      assert ds[i] in multiset(ds);
      assert ds[i] in multiset(batch);
    }
    forall i, j | 0 <= i < j < |records| ensures records[i].dispatch.id != records[j].dispatch.id {
      if ds[i] == ds[j] {
        OccursTwice(ds, i, j);
        OccursOnce(batch, ds[i]);
      } else {
        assert ds[i] in multiset(ds) && ds[j] in multiset(ds);
        assert ds[i] in multiset(batch) && ds[j] in multiset(batch);
      }
    }
  }

  lemma TickLegal(w: World, s: State, batch: seq<Dispatch>)
    requires Legal(s) && Fair(w) && Acceptable(s, batch)
    ensures var records := w.execute(s, batch);
            && NewTo(s, records)
            && Legal(Folded(s, records).state.(tick := s.tick + 1))
            && (Legal(Folded(s, records).state) <==> Successes(s.tick + 1, records) == [])
  {
    hide Legal, Folded, Acceptable, NewTo, Successes;
    RecordsNew(s, batch, w.execute(s, batch));
    FoldedLegal(s, w.execute(s, batch));
  }

  /** On every exit but a failed batch the state is one a later drive may start from. */
  lemma {:induction false} DriveLegal(w: World, s: State, ticks: nat)
    requires Legal(s) && Fair(w)
    ensures var d := Drive(w, s, ticks);
            (d.end.BatchFailed? || Legal(d.state)) && d.end != InvalidArgument
    decreases ticks
  {
    hide Legal, Folded, Fair, Acceptable, Succeeded;
    var batch := w.schedule(s);
    if batch.Some? && Acceptable(s, batch.value) && batch.value != [] && ticks > 0 {
      TickLegal(w, s, batch.value);
      if Succeeded(w, s, w.execute(s, batch.value)) {
        DriveLegal(w, Folded(s, w.execute(s, batch.value)).state.(tick := s.tick + 1), ticks - 1);
      }
    }
  }

  // ---- what a drive did ----

  /** One of these records succeeded with this outcome, in this tick. */
  ghost predicate Produced(records: seq<Record>, tick: int, o: Outcome) {
    exists r :: r in records && !r.failed && o == Outcome(tick, r.dispatch, r.result)
  }

  /** The outcomes after a batch: those before it and what its records produced in the next tick,
      by tick and id. */
  ghost predicate Gathers(s: State, records: seq<Record>, outcomes: seq<Outcome>) {
    && StrictlySorted(OutcomeLess, outcomes) && DistinctIds(outcomes)
    && forall o :: o in outcomes <==> o in s.outcomes || Produced(records, s.tick + 1, o)
  }

  /** The failures reported: exactly the failed records, by id. */
  ghost predicate Reports(records: seq<Record>, failures: seq<Record>) {
    && (forall i, j :: 0 <= i < j < |failures| ==> Less(failures[i].dispatch.id, failures[j].dispatch.id))
    && forall r :: r in failures <==> r in records && r.failed
  }

  /** The scheduler asked for something, and the driver accepts it. */
  ghost predicate Scheduled(w: World, s: State) {
    w.schedule(s).Some? && Acceptable(s, w.schedule(s).value) && w.schedule(s).value != []
  }

  function RecordsOf(w: World, s: State): seq<Record> {
    if w.schedule(s).Some? then w.execute(s, w.schedule(s).value) else []
  }

  /** One completed tick: everything succeeded, and is in the next state under the next tick. */
  ghost predicate Ticked(w: World, s: State, next: State) {
    && Scheduled(w, s) && Succeeded(w, s, RecordsOf(w, s))
    && next.tick == s.tick + 1 && Gathers(s, RecordsOf(w, s), next.outcomes)
  }

  /** Why a drive stopped, at the state its completed ticks led to, with this many ticks left. */
  ghost predicate Stopped(w: World, s: State, left: nat, d: Driven) {
    match d.end
    case Finished => w.schedule(s) == Some([]) && d.state == s
    case SchedulerFailed => (w.schedule(s).None? || !Acceptable(s, w.schedule(s).value)) && d.state == s
    case MaxTicks => Scheduled(w, s) && left == 0 && d.state == s
    case BatchFailed(failures) =>
      && Scheduled(w, s) && left > 0 && (w.cancelled(s) || exists r :: r in RecordsOf(w, s) && r.failed)
      && d.state.tick == s.tick && Gathers(s, RecordsOf(w, s), d.state.outcomes) && Reports(RecordsOf(w, s), failures)
    case InvalidArgument => false
  }

  /** The states a drive went through, tick by tick. */
  ghost predicate Trail(w: World, s: State, trail: seq<State>) {
    && trail != [] && trail[0] == s
    && forall i :: 0 <= i < |trail| - 1 ==> Ticked(w, trail[i], trail[i + 1])
  }

  lemma FoldedGathers(s: State, records: seq<Record>)
    requires Legal(s) && NewTo(s, records)
    ensures Gathers(s, records, Folded(s, records).state.outcomes) && Reports(records, Folded(s, records).failures)
    ensures Folded(s, records).state.tick == s.tick
  {
    hide Legal, NewTo, OutcomeLess, StrictlySorted, DistinctIds;
    var l := Folded(s, records).state.outcomes;
    FoldedArranges(s, records);
    forall o ensures o in l <==> o in s.outcomes || Produced(records, s.tick + 1, o) {
      InElements(l, s.outcomes, Successes(s.tick + 1, records), o);
      SuccessMembers(s.tick + 1, records, o);
      if Produced(records, s.tick + 1, o) {
        var r :| r in records && !r.failed && o == Outcome(s.tick + 1, r.dispatch, r.result);
        var i :| 0 <= i < |records| && records[i] == r;
      }
    }
    NewDistinct(s, records);
    FailuresReported(records);
  }

  lemma NewDistinct(s: State, records: seq<Record>)
    requires NewTo(s, records)
    ensures DistinctRecords(records)
  {
  }

  lemma InElements(l: seq<Outcome>, a: seq<Outcome>, b: seq<Outcome>, o: Outcome)
    requires Elements(l) == Elements(a) + Elements(b)
    ensures o in l <==> o in a || o in b
  {
    assert o in l <==> o in Elements(l);
    assert o in a <==> o in Elements(a);
    assert o in b <==> o in Elements(b);
  }

  lemma FailuresReported(records: seq<Record>)
    requires DistinctRecords(records)
    ensures Reports(records, Sort(FailureById, Failures(records)))
  {
    var f := Failures(records);
    var sorted := Sort(FailureById, f);
    FailureIds(records);
    FailureOrder();
    SortPermutes(FailureById, f);
    SameMembers(sorted, f);
    forall r ensures r in sorted <==> r in records && r.failed {
      FailureMembers(records, r);
      assert r in sorted <==> r in Elements(sorted);
      assert r in f <==> r in Elements(f);
    }
    SortedFailures(f);
  }

  lemma SortedFailures(f: seq<Record>)
    requires DistinctRecords(f)
    ensures StrictlySorted(FailureById, Sort(FailureById, f))
  {
    FailureOrder();
    forall x, y | x in Elements(f) && y in Elements(f) && x != y ensures FailureById(x, y) || FailureById(y, x) {
      var i :| 0 <= i < |f| && f[i] == x;
      var j :| 0 <= j < |f| && f[j] == y;
      LessTotal(x.dispatch.id, y.dispatch.id);
    }
    hide FailureById, StrictOrder, Sort;
    SortSorted(FailureById, f);
  }

  lemma TickTold(w: World, s: State)
    requires Legal(s) && Fair(w) && Scheduled(w, s)
    ensures var b := Folded(s, RecordsOf(w, s));
            && Legal(b.state.(tick := s.tick + 1))
            && Gathers(s, RecordsOf(w, s), b.state.outcomes) && Reports(RecordsOf(w, s), b.failures) && b.state.tick == s.tick
  {
    hide Legal, Folded, Acceptable, NewTo, Successes, Fair, Gathers, Reports;
    TickLegal(w, s, w.schedule(s).value);
    FoldedGathers(s, RecordsOf(w, s));
  }

  /** A drive is its completed ticks, each of which gathers exactly what its batch produced, and
      then the one reason it stopped for; a failed batch keeps its successes and reports exactly
      its failures. */
  lemma {:induction false} DriveTold(w: World, s: State, ticks: nat) returns (trail: seq<State>)
    requires Legal(s) && Fair(w)
    ensures Trail(w, s, trail) && |trail| <= ticks + 1
    ensures Stopped(w, trail[|trail| - 1], ticks + 1 - |trail|, Drive(w, s, ticks))
    decreases ticks
  {
    hide Legal, Folded, Acceptable, Fair, Gathers, Reports;
    trail := [s];
    if Scheduled(w, s) && ticks > 0 {
      TickTold(w, s);
      var next := Folded(s, RecordsOf(w, s)).state.(tick := s.tick + 1);
      if Succeeded(w, s, RecordsOf(w, s)) {
        var rest := DriveTold(w, next, ticks - 1);
        trail := [s] + rest;
        forall i | 0 <= i < |trail| - 1 ensures Ticked(w, trail[i], trail[i + 1]) {
          if i > 0 {
            assert trail[i] == rest[i - 1] && trail[i + 1] == rest[i];
          }
        }
      }
    }
  }

  /** Two worlds that run the same things, in whatever order they complete. */
  ghost predicate SameWork(v: World, w: World) {
    && v.schedule == w.schedule && v.cancelled == w.cancelled
    && forall s, batch :: multiset(v.execute(s, batch)) == multiset(w.execute(s, batch))
  }

  /** A drive's state and outcome do not depend on completion order, over all its ticks. */
  lemma {:induction false} DriveDeterministic(v: World, w: World, s: State, ticks: nat)
    requires Legal(s) && Fair(v) && Fair(w) && SameWork(v, w)
    ensures Drive(v, s, ticks) == Drive(w, s, ticks)
    decreases ticks
  {
    hide Legal, Folded, Fair, Acceptable, NewTo, Successes;
    var batch := v.schedule(s);
    if batch.Some? && Acceptable(s, batch.value) && batch.value != [] && ticks > 0 {
      var a, b := v.execute(s, batch.value), w.execute(s, batch.value);
      TickLegal(v, s, batch.value);
      TickLegal(w, s, batch.value);
      CompletionOrderIrrelevant(s, a, b);
      SameMembers(a, b);
      assert forall r :: r in a <==> r in Elements(a);
      assert forall r :: r in b <==> r in Elements(b);
      if Succeeded(v, s, a) {
        DriveDeterministic(v, w, Folded(s, a).state.(tick := s.tick + 1), ticks - 1);
      }
    }
  }

  /** `a` ticks and then `b` more are `a + b` ticks. */
  lemma {:induction false} DriveComposes(w: World, s: State, a: nat, b: nat)
    ensures var first := Drive(w, s, a);
            && (first.end.MaxTicks? ==> Drive(w, first.state, b) == Drive(w, s, a + b))
            && (!first.end.MaxTicks? ==> Drive(w, s, a + b) == first)
            && (first.end.Finished? ==> Drive(w, first.state, b) == first)
    decreases a
  {
    hide Folded, Acceptable, Succeeded;
    var batch := w.schedule(s);
    if batch.Some? && Acceptable(s, batch.value) && batch.value != [] && a > 0 {
      var records := w.execute(s, batch.value);
      if Succeeded(w, s, records) {
        DriveComposes(w, Folded(s, records).state.(tick := s.tick + 1), a - 1, b);
      }
    }
  }

  /** The same for two calls, the second started from the state the first returned. */
  lemma CallsCompose(w: World, initial: Option<State>, a: int, b: int)
    requires Fair(w) && a > 0 && b > 0
    ensures var first := DriveFrom(w, initial, a);
            first.end.MaxTicks? || first.end.Finished? ==>
              DriveFrom(w, Some(first.state), b) == DriveFrom(w, initial, a + b)
  {
    hide Fair, Drive;
    if initial.None? || Legal(initial.value) {
      var s := if initial.Some? then initial.value else State(0, []);
      DriveLegal(w, s, a);
      DriveComposes(w, s, a, b);
    }
  }

  // ---- the driver ----

  /** Checks a caller's state, outcome by outcome. */
  method ValidateInitialState(s: State) returns (ok: bool)
    ensures ok == Legal(s)
  {
    hide ValidDispatch, OutcomeLess;
    if s.tick < 0 {
      return false;
    }
    OutcomeOrder();
    var seen: set<string> := {};
    var n := 0;
    while n < |s.outcomes|
      invariant 0 <= n <= |s.outcomes|
      invariant forall i :: 0 <= i < n ==> ValidOutcome(s.outcomes[i], s.tick)
      invariant seen == set i | 0 <= i < n :: s.outcomes[i].dispatch.id
      invariant DistinctIds(s.outcomes[..n]) && StrictlySorted(OutcomeLess, s.outcomes[..n])
    {
      var o := s.outcomes[n];
      if o.tick < 1 || o.tick > s.tick || !ValidDispatch(o.dispatch) {
        assert !ValidOutcome(s.outcomes[n], s.tick);
        return false;
      }
      if o.dispatch.id in seen {
        var i :| 0 <= i < n && s.outcomes[i].dispatch.id == o.dispatch.id;
        assert !DistinctIds(s.outcomes);
        return false;
      }
      if n > 0 && !OutcomeLess(s.outcomes[n - 1], o) {
        assert !StrictlySorted(OutcomeLess, s.outcomes);
        return false;
      }
      SortedPush(s.outcomes, n);
      seen := seen + {o.dispatch.id};
      n := n + 1;
    }
    assert s.outcomes[..n] == s.outcomes;
    return true;
  }

  lemma SortedPush(l: seq<Outcome>, n: nat)
    requires n < |l| && StrictOrder(OutcomeLess) && StrictlySorted(OutcomeLess, l[..n]) && (n > 0 ==> OutcomeLess(l[n - 1], l[n]))
    ensures StrictlySorted(OutcomeLess, l[..n + 1])
  {
    hide OutcomeLess;
    var longer := l[..n + 1];
    forall i, j | 0 <= i < j < n + 1 ensures OutcomeLess(longer[i], longer[j]) {
      if j < n {
        assert l[..n][i] == l[i] && l[..n][j] == l[j];
      } else if i < n - 1 {
        assert l[..n][i] == l[i] && l[..n][n - 1] == l[n - 1];
      }
    }
  }

  /** Checks a scheduled batch against itself and against every earlier outcome. */
  method ValidateBatch(s: State, batch: seq<Dispatch>) returns (ok: bool)
    ensures ok == Acceptable(s, batch)
  {
    hide ValidDispatch;
    var used: set<string> := {};
    var k := 0;
    while k < |s.outcomes|
      invariant 0 <= k <= |s.outcomes|
      invariant used == set i | 0 <= i < k :: s.outcomes[i].dispatch.id
    {
      used := used + {s.outcomes[k].dispatch.id};
      k := k + 1;
    }
    assert forall id :: id in used <==> Uses(s.outcomes, id);
    var seen: set<string> := {};
    var n := 0;
    while n < |batch|
      invariant 0 <= n <= |batch|
      invariant seen == set i | 0 <= i < n :: batch[i].id
      invariant forall i :: 0 <= i < n ==> ValidDispatch(batch[i]) && !Uses(s.outcomes, batch[i].id)
      invariant forall i, j :: 0 <= i < j < n ==> batch[i].id != batch[j].id
    {
      var d := batch[n];
      if !ValidDispatch(d) || d.id in used {
        return false;
      }
      if d.id in seen {
        var i :| 0 <= i < n && batch[i].id == d.id;
        return false;
      }
      seen := seen + {d.id};
      n := n + 1;
    }
    return true;
  }

  /** Gathers the records in the order they arrive, then sorts. */
  method ExecuteBatch(s: State, records: seq<Record>) returns (b: Batch, failed: bool)
    ensures b == Folded(s, records)
    ensures failed <==> exists r :: r in records && r.failed
  {
    hide Sort, OutcomeLess, ById, FailureById;
    var successes: seq<Outcome>, failures: seq<Record> := [], [];
    var k := 0;
    while k < |records|
      invariant 0 <= k <= |records|
      invariant successes == Successes(s.tick + 1, records[..k]) && failures == Failures(records[..k])
    {
      var r := records[k];
      assert records[..k + 1][..k] == records[..k];
      if r.failed {
        failures := failures + [r];
      } else {
        successes := successes + [Outcome(s.tick + 1, r.dispatch, r.result)];
      }
      k := k + 1;
    }
    assert records[..k] == records;
    failed := failures != [];
    if failed {
      FailureMembers(records, failures[0]);
    } else {
      forall r | r in records ensures !r.failed { FailureMembers(records, r); }
    }
    b := Batch(s.(outcomes := Sort(OutcomeLess, s.outcomes + Sort(ById, successes))), Sort(FailureById, failures));
  }

  /** The driver's loop. */
  method Run(w: World, initial: Option<State>, maxTicks: int) returns (d: Driven)
    ensures d == DriveFrom(w, initial, maxTicks)
  {
    hide Acceptable, Folded, Legal;
    if maxTicks < 0 {
      return Driven(State(0, []), InvalidArgument);
    }
    var state := State(0, []);
    if initial.Some? {
      var legal := ValidateInitialState(initial.value);
      if !legal {
        return Driven(State(0, []), InvalidArgument);
      }
      state := initial.value;
    }
    var limit := if maxTicks == 0 then DEFAULT_MAX_TICKS else maxTicks;
    var completed := 0;
    while true
      invariant 0 <= completed <= limit
      invariant DriveFrom(w, initial, maxTicks) == Drive(w, state, limit - completed)
      decreases limit - completed
    {
      var batch := w.schedule(state);
      if batch.None? {
        return Driven(state, SchedulerFailed);
      }
      var ok := ValidateBatch(state, batch.value);
      if !ok {
        return Driven(state, SchedulerFailed);
      }
      if batch.value == [] {
        return Driven(state, Finished);
      }
      if completed >= limit {
        return Driven(state, MaxTicks);
      }
      var records := w.execute(state, batch.value);
      var b, failed := ExecuteBatch(state, records);
      if failed || w.cancelled(state) {
        return Driven(b.state, BatchFailed(b.failures));
      }
      state := b.state.(tick := state.tick + 1);
      completed := completed + 1;
    }
  }
}
