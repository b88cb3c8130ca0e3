/** A stream that is reopened after failures, but never once output has been delivered. */
module RetryingStreams {
  import opened Text

  const DEFAULT_MAX: nat := 5

  datatype Cause = Cause(cancelled: bool, text: string)
  datatype Kind = Absent | Content | ErrorKind | DoneKind
  datatype Failure = Closed | Plain(cause: Cause) | Partial(cause: Cause) | Spent(cause: Cause)
  datatype Event = Event(kind: Kind, err: Option<Failure>, payload: string)
  datatype Received = Received(event: Event, err: Option<Cause>)

  /** The host's answer to one retry request, waiting included. */
  datatype Approval = Approved | Declined | Vetoed(cause: Cause)

  /** What the world will answer: the n-th open, the k-th item of the n-th stream, the n-th retry request. */
  datatype World = World(open: nat -> Option<Cause>, item: (nat, nat) -> Received, approve: nat -> Approval)

  const NOTHING := Event(Absent, None, "")

  /** `current` is the stream in use, `taken` counts the items taken from it, `opens` and
      `asked` count the calls made so far. */
  datatype State = State(
    current: nat, taken: nat, opens: nat, asked: nat, retries: nat, emitted: bool, terminal: bool, closed: bool)

  /** One answer of the stream, and where its event came from. */
  datatype Delivery = Delivery(event: Event, err: Option<Failure>, source: nat, position: nat, reopenFailed: bool)

  datatype Step = Step(state: State, delivery: Delivery)

  function Normalized(max: int): (n: nat)
    ensures n > 0
  {
    if max <= 0 then DEFAULT_MAX else max
  }

  // ---- opening ----

  datatype Opening = Opening(stream: Option<nat>, failure: Option<Failure>, opens: nat, asked: nat, retries: nat)

  function Open(w: World, max: nat, opens: nat, asked: nat, retries: nat): (o: Opening)
    requires retries <= max
    ensures retries <= o.retries <= max && o.opens == opens + 1 + (o.retries - retries)
    ensures o.stream.Some? <==> o.failure.None?
    ensures o.stream.Some? ==> o.stream.value == o.opens - 1
    ensures o.failure.Some? ==> o.failure.value.Plain? || o.failure.value.Spent?
    decreases max - retries
  {
    var refused := w.open(opens);
    if refused.None? then Opening(Some(opens), None, opens + 1, asked, retries)
    else if refused.value.cancelled then Opening(None, Some(Plain(refused.value)), opens + 1, asked, retries)
    else if retries >= max then Opening(None, Some(Spent(refused.value)), opens + 1, asked, retries)
    else
      match w.approve(asked)
      case Vetoed(cause) => Opening(None, Some(Plain(cause)), opens + 1, asked + 1, retries)
      case Declined => Opening(None, Some(Plain(refused.value)), opens + 1, asked + 1, retries)
      case Approved => Open(w, max, opens + 1, asked + 1, retries + 1)
  }

  // ---- receiving ----

  datatype Class = Final(state: State, event: Event, err: Option<Failure>) | Again(cause: Cause)

  function Wrapped(err: Option<Cause>): Option<Failure> {
    if err.Some? then Some(Plain(err.value)) else None
  }

  /** What an error wraps. */
  function CauseOf(failure: Failure): Cause {
    match failure
    case Closed => Cause(false, "provider stream is closed")
    case Plain(cause) => cause
    case Partial(cause) => cause
    case Spent(cause) => cause
  }

  function Classify(s: State, got: Received): Class {
    var cause := if got.event.kind == ErrorKind && got.event.err.Some? then Some(CauseOf(got.event.err.value)) else got.err;
    match got.event.kind
    case DoneKind =>
      if got.err.Some? then Final(s.(terminal := true), NOTHING, Some(Partial(got.err.value)))
      else Final(s.(terminal := true), got.event, None)
    case Content =>
      if got.err.Some? then Final(s.(emitted := true, terminal := true), got.event, Some(Partial(got.err.value)))
      else Final(s.(emitted := true), got.event, None)
    case _ =>
      if s.emitted then
        if cause.None? && got.event.kind != ErrorKind then Final(s, got.event, Wrapped(got.err))
        else
          var why := if cause.Some? then cause.value else Cause(false, "error event after partial output");
          Final(s.(terminal := true), if got.event.kind == ErrorKind then NOTHING else got.event, Some(Partial(why)))
      else if cause.None? then
        Final(if got.event.kind == ErrorKind then s.(terminal := true) else s, got.event, Wrapped(got.err))
      else Again(cause.value)
  }

  /** A failed retry is reported inside the error event when there is one. */
  function RetryFailure(event: Event, failure: Failure, source: nat, position: nat, reopenFailed: bool): Delivery {
    if event.kind == ErrorKind then Delivery(event.(err := Some(failure)), None, source, position, reopenFailed)
    else Delivery(event, Some(failure), source, position, reopenFailed)
  }

  /** One pass of the receive loop: an answer, or a new stream to go on with. */
  datatype Pass = Answer(step: Step) | Reopened(state: State)

  function OnePass(w: World, max: nat, s: State): (p: Pass)
    requires s.retries <= max
    ensures p.Reopened? ==> s.retries < p.state.retries <= max
  {
    if s.closed then Answer(Step(s, Delivery(NOTHING, Some(Closed), s.current, s.taken, false)))
    else
      var got := w.item(s.current, s.taken);
      var s1 := s.(taken := s.taken + 1);
      if s.terminal then Answer(Step(s1, Delivery(got.event, Wrapped(got.err), s.current, s.taken, false)))
      else
        match Classify(s1, got)
        case Final(s2, event, err) => Answer(Step(s2, Delivery(event, err, s.current, s.taken, false)))
        case Again(cause) => Retry(w, max, s, got, cause)
  }

  /** The item at hand failed before any output. */
  function Retry(w: World, max: nat, s: State, got: Received, cause: Cause): (p: Pass)
    requires s.retries <= max
    ensures p.Reopened? ==> s.retries < p.state.retries <= max
  {
    var s1 := s.(taken := s.taken + 1);
    if cause.cancelled then Answer(Step(s1, Delivery(NOTHING, Some(Plain(cause)), s.current, s.taken, false)))
    else if s.retries >= max then Answer(Step(s1, RetryFailure(got.event, Spent(cause), s.current, s.taken, false)))
    else
      var s2 := s1.(asked := s.asked + 1);
      match w.approve(s.asked)
      case Vetoed(c) => Answer(Step(s2, Delivery(NOTHING, Some(Plain(c)), s.current, s.taken, false)))
      case Declined =>
        if got.event.kind == ErrorKind
        then Answer(Step(s2.(terminal := true), Delivery(got.event, Wrapped(got.err), s.current, s.taken, false)))
        else Answer(Step(s2, Delivery(got.event, Some(Plain(cause)), s.current, s.taken, false)))
      case Approved =>
        var o := Open(w, max, s.opens, s2.asked, s.retries + 1);
        var s3 := s2.(opens := o.opens, asked := o.asked, retries := o.retries);
        if o.stream.None? then Answer(Step(s3, RetryFailure(got.event, o.failure.value, s.current, s.taken, true)))
        else Reopened(s3.(current := o.stream.value, taken := 0))
  }

  function Receive(w: World, max: nat, s: State): Step
    requires s.retries <= max
    decreases max - s.retries
  {
    match OnePass(w, max, s)
    case Answer(step) => step
    case Reopened(s') => Receive(w, max, s')
  }

  // ---- any number of calls ----

  /** What a consumer did and saw. */
  datatype History = History(state: State, deliveries: seq<Delivery>)

  datatype Request = Recv | Close

  function First(w: World, max: nat): (s: Option<State>)
    ensures s.Some? ==> Counts(max, s.value)
  {
    var o := Open(w, max, 0, 0, 0);
    if o.stream.None? then None else Some(State(o.stream.value, 0, o.opens, o.asked, o.retries, false, false, false))
  }

  ghost predicate Counts(max: nat, s: State) {
    s.opens == s.retries + 1 && s.retries <= max && s.current < s.opens
  }

  lemma {:induction false} ReceiveCounts(w: World, max: nat, s: State)
    requires Counts(max, s)
    ensures Counts(max, Receive(w, max, s).state)
    decreases max - s.retries
  {
    if OnePass(w, max, s).Reopened? {
      ReceiveCounts(w, max, OnePass(w, max, s).state);
    }
  }

  /** A reopened stream is counted. */
  lemma PassCounts(w: World, max: nat, s: State)
    requires Counts(max, s)
    ensures OnePass(w, max, s).Reopened? ==> Counts(max, OnePass(w, max, s).state)
  {
  }

  function Run(w: World, max: nat, s: State, requests: seq<Request>): (h: History)
    requires Counts(max, s)
    ensures Counts(max, h.state)
  {
    if requests == [] then History(s, [])
    else
      var before := Run(w, max, s, requests[..|requests| - 1]);
      if requests[|requests| - 1] == Close then before.(state := before.state.(closed := true))
      else
        var step := Receive(w, max, before.state);
        ReceiveCounts(w, max, before.state);
        History(step.state, before.deliveries + [step.delivery])
  }

  /** Nothing can reopen the stream any more. */
  predicate Settled(max: nat, s: State) {
    s.emitted || s.terminal || s.closed || s.retries >= max
  }

  /** Output that a consumer cannot be shown twice. */
  predicate Output(d: Delivery) {
    d.event.kind == Content || d.event.kind == DoneKind
  }

  /** A settled stream stays on the stream it has. */
  lemma SettledStays(w: World, max: nat, s: State)
    requires Counts(max, s) && Settled(max, s)
    ensures var t := Receive(w, max, s);
            && Settled(max, t.state) && t.state.opens == s.opens && t.state.current == s.current
            && s.taken <= t.state.taken && t.delivery.source == s.current && s.taken <= t.delivery.position
            && (Output(t.delivery) ==> t.delivery.position < t.state.taken)
            && (s.emitted || s.terminal ==> t.state.emitted || t.state.terminal)
            && (Output(t.delivery) ==> t.state.emitted || t.state.terminal)
  {
  }

  /** The stream moves forward, and output leaves it settled on the stream it came from. */
  lemma {:induction false} ReceiveMoves(w: World, max: nat, s: State)
    requires Counts(max, s)
    ensures var t := Receive(w, max, s);
            && (t.state.current == s.current ==> s.taken <= t.state.taken && s.taken <= t.delivery.position)
            && (Output(t.delivery) ==>
                  && (t.state.emitted || t.state.terminal)
                  && t.delivery.source == t.state.current && t.delivery.position < t.state.taken)
            && (t.state.current != s.current ==> !Settled(max, s) && s.current < t.state.current)
    decreases max - s.retries
  {
    if Settled(max, s) {
      SettledStays(w, max, s);
    } else {
      if OnePass(w, max, s).Reopened? {
        ReceiveMoves(w, max, OnePass(w, max, s).state);
      }
    }
  }

  /** The answer of a closed stream, which comes from no item. */
  predicate IsClosed(d: Delivery) {
    d.err == Some(Closed)
  }

  /** The delivery tells its item: output as it was received, with its error if it has one, and
      any other event as far as its payload; a final event is held back only to report the error
      that came with it, and a failure is reported exactly when there is one. */
  predicate Tells(d: Delivery, got: Received) {
    && (Output(d) || got.event.kind == Content ==> d.event == got.event && TellsError(d.err, got.err))
    && (got.event.kind == DoneKind && d.event != got.event ==> d.event == NOTHING && got.err.Some? && d.err == Some(Partial(got.err.value)))
    && (d.event == NOTHING || d.event.(err := None) == got.event.(err := None))
    && (d.err.Some? || d.event.kind == ErrorKind <==> got.err.Some? || got.event.kind == ErrorKind)
  }

  predicate TellsError(told: Option<Failure>, err: Option<Cause>) {
    (told.Some? <==> err.Some?) && (told.Some? ==> (told.value.Plain? || told.value.Partial?) && told.value.cause == err.value)
  }

  lemma PassTells(w: World, max: nat, s: State)
    requires s.retries <= max && OnePass(w, max, s).Answer?
    ensures var step := OnePass(w, max, s).step;
            && (IsClosed(step.delivery) <==> s.closed)
            && (s.closed ==> step.state == s && step.delivery.event == NOTHING)
            && (!s.closed ==>
                  && Tells(step.delivery, w.item(s.current, s.taken)) && step.state.current == s.current
                  && step.delivery.source == s.current && step.delivery.position == s.taken && step.state.taken == s.taken + 1)
  {
    hide Open;
  }

  lemma PassReopens(w: World, max: nat, s: State)
    requires Counts(max, s) && OnePass(w, max, s).Reopened?
    ensures var s' := OnePass(w, max, s).state;
            && !s.closed && !s'.closed && s'.taken == 0 && s.current < s'.current
            && !Settled(max, s) && s'.emitted == s.emitted && s'.terminal == s.terminal
  {
    hide Open;
  }

  /** One receive takes the next item of the stream it ends up on, and tells it. */
  lemma {:induction false} ReceiveTells(w: World, max: nat, s: State)
    requires Counts(max, s)
    ensures var t := Receive(w, max, s);
            && (IsClosed(t.delivery) <==> s.closed)
            && (s.closed ==> t.state == s && !Output(t.delivery))
            && (!s.closed ==>
                  && Tells(t.delivery, w.item(t.delivery.source, t.delivery.position))
                  && t.delivery.source == t.state.current && t.state.taken == t.delivery.position + 1
                  && t.delivery.position == (if t.state.current == s.current then s.taken else 0)
                  && s.current <= t.state.current)
    decreases max - s.retries
  {
    hide OnePass, Tells;
    if OnePass(w, max, s).Reopened? {
      PassCounts(w, max, s);
      PassReopens(w, max, s);
      ReceiveTells(w, max, OnePass(w, max, s).state);
    } else {
      PassTells(w, max, s);
    }
  }

  /** All output so far came, in order, from the stream now in use, and it is settled there. */
  ghost predicate OneSource(h: History) {
    && (forall i :: 0 <= i < |h.deliveries| && Output(h.deliveries[i]) ==>
          && (h.state.emitted || h.state.terminal)
          && h.deliveries[i].source == h.state.current && h.deliveries[i].position < h.state.taken)
    && (forall i, j :: 0 <= i < j < |h.deliveries| && Output(h.deliveries[i]) && Output(h.deliveries[j]) ==>
          h.deliveries[i].position < h.deliveries[j].position)
  }

  /** The delivery comes from an item of the stream now in use. */
  predicate Current(h: History, i: int)
    requires 0 <= i < |h.deliveries|
  {
    !IsClosed(h.deliveries[i]) && h.deliveries[i].source == h.state.current
  }

  /** The first item taken, since `s`, from the stream now in use. */
  function Since(s: State, h: History): nat {
    if h.state.current == s.current then s.taken else 0
  }

  /** Nothing is lost, made up or moved: every delivery tells its item, and the items taken from
      the stream now in use were delivered, each once and in order. */
  ghost predicate AllTold(w: World, s: State, h: History) {
    && (forall i :: 0 <= i < |h.deliveries| && !IsClosed(h.deliveries[i]) ==>
          Tells(h.deliveries[i], w.item(h.deliveries[i].source, h.deliveries[i].position)))
    && (forall i :: 0 <= i < |h.deliveries| && IsClosed(h.deliveries[i]) ==> !Output(h.deliveries[i]))
    && (forall i, j :: 0 <= i < j < |h.deliveries| && Current(h, i) && Current(h, j) ==>
          h.deliveries[i].position < h.deliveries[j].position)
    && (forall i :: 0 <= i < |h.deliveries| && Current(h, i) ==> Since(s, h) <= h.deliveries[i].position < h.state.taken)
    && (forall p: nat :: Since(s, h) <= p < h.state.taken ==> DeliveredAt(h, p))
    && (forall i :: 0 <= i < |h.deliveries| ==> h.deliveries[i].source <= h.state.current)
    && s.current <= h.state.current && Since(s, h) <= h.state.taken
  }

  ghost predicate DeliveredAt(h: History, p: nat) {
    exists i :: 0 <= i < |h.deliveries| && Current(h, i) && h.deliveries[i].position == p
  }

  /** All output came from one stream, and nothing of it was lost. */
  ghost predicate SingleSource(w: World, s: State, h: History) {
    OneSource(h) && AllTold(w, s, h)
  }

  lemma ToldStart(w: World, s: State)
    ensures AllTold(w, s, History(s, []))
  {
  }

  lemma ToldClose(w: World, s: State, h: History)
    requires AllTold(w, s, h)
    ensures AllTold(w, s, h.(state := h.state.(closed := true)))
  {
    hide Tells;
    var h' := h.(state := h.state.(closed := true));
    forall p: nat | Since(s, h') <= p < h'.state.taken ensures DeliveredAt(h', p) {
      assert DeliveredAt(h, p);
      var i :| 0 <= i < |h.deliveries| && Current(h, i) && h.deliveries[i].position == p;
      assert Current(h', i);
    }
    forall i | 0 <= i < |h.deliveries| ensures Current(h', i) <==> Current(h, i) {
    }
  }

  lemma ToldNext(w: World, s: State, h: History, t: Step)
    requires AllTold(w, s, h)
    requires IsClosed(t.delivery) ==> t.state == h.state && !Output(t.delivery) && t.delivery.source == h.state.current
    requires !IsClosed(t.delivery) ==>
               && Tells(t.delivery, w.item(t.delivery.source, t.delivery.position))
               && t.delivery.source == t.state.current && t.state.taken == t.delivery.position + 1
               && t.delivery.position == (if t.state.current == h.state.current then h.state.taken else 0)
               && h.state.current <= t.state.current
    ensures AllTold(w, s, History(t.state, h.deliveries + [t.delivery]))
  {
    hide Tells, Output;
    var h' := History(t.state, h.deliveries + [t.delivery]);
    var last := |h.deliveries|;
    assert h'.deliveries[last] == t.delivery;
    forall i | 0 <= i < last ensures h'.deliveries[i] == h.deliveries[i] {
    }
    forall i | 0 <= i < last && Current(h', i) ensures Current(h, i) && t.state.current == h.state.current {
    }
    forall p: nat | Since(s, h') <= p < h'.state.taken ensures DeliveredAt(h', p) {
      if !IsClosed(t.delivery) && p == t.delivery.position {
        assert Current(h', last);
      } else {
        assert DeliveredAt(h, p);
        var i :| 0 <= i < |h.deliveries| && Current(h, i) && h.deliveries[i].position == p;
        assert Current(h', i);
      }
    }
  }

  lemma ClosedStays(w: World, max: nat, s: State)
    requires s.retries <= max && s.closed
    ensures Receive(w, max, s).delivery.source == s.current
  {
  }

  lemma {:induction false} RunTold(w: World, max: nat, s: State, requests: seq<Request>)
    requires Counts(max, s)
    ensures AllTold(w, s, Run(w, max, s, requests))
  {
    hide Receive, AllTold, Tells;
    if requests == [] {
      ToldStart(w, s);
    } else {
      var before := requests[..|requests| - 1];
      RunTold(w, max, s, before);
      var h := Run(w, max, s, before);
      if requests[|requests| - 1] == Close {
        ToldClose(w, s, h);
      } else {
        ReceiveTells(w, max, h.state);
        if h.state.closed {
          ClosedStays(w, max, h.state);
        }
        ToldNext(w, s, h, Receive(w, max, h.state));
      }
    }
  }

  lemma {:induction false} RunOneSource(w: World, max: nat, s: State, requests: seq<Request>)
    requires Counts(max, s) && !s.emitted && !s.terminal
    ensures OneSource(Run(w, max, s, requests))
  {
    hide Receive;
    if requests != [] {
      var before := requests[..|requests| - 1];
      RunOneSource(w, max, s, before);
      var h := Run(w, max, s, before);
      ReceiveMoves(w, max, h.state);
      if Settled(max, h.state) {
        SettledStays(w, max, h.state);
      }
    }
  }

  /** Single-source retrying: over every sequence of calls. */
  lemma OutputFromOneStream(w: World, max: nat, s: State, requests: seq<Request>)
    requires Counts(max, s) && !s.emitted && !s.terminal
    ensures SingleSource(w, s, Run(w, max, s, requests))
  {
    hide Run, OneSource, AllTold;
    RunOneSource(w, max, s, requests);
    RunTold(w, max, s, requests);
  }

  /** Opening goes on exactly while opens are refused, not cancelled, and granted a retry with
      retries left; what stops it is what it fails with. */
  lemma {:induction false} OpeningStops(w: World, max: nat, opens: nat, asked: nat, retries: nat)
    requires retries <= max
    ensures var o := Open(w, max, opens, asked, retries);
            var last, tries := w.open(o.opens - 1), o.opens - 1 - opens;
            && (forall i :: opens <= i < o.opens - 1 ==> w.open(i).Some? && !w.open(i).value.cancelled)
            && (forall i :: asked <= i < asked + tries ==> w.approve(i) == Approved)
            && (o.stream.Some? <==> last.None?)
            && (last.Some? ==>
                  if last.value.cancelled then o.failure == Some(Plain(last.value)) && o.asked == asked + tries
                  else if o.retries == max then o.failure == Some(Spent(last.value)) && o.asked == asked + tries
                  else
                    && o.asked == asked + tries + 1 && w.approve(asked + tries) != Approved
                    && o.failure == Some(Plain(if w.approve(asked + tries).Vetoed? then w.approve(asked + tries).cause else last.value)))
    decreases max - retries
  {
    var refused := w.open(opens);
    if refused.Some? && !refused.value.cancelled && retries < max && w.approve(asked) == Approved {
      OpeningStops(w, max, opens + 1, asked + 1, retries + 1);
    }
  }

  // ---- retries ----

  /** How many of the first `n` retry requests are granted. */
  function Granted(w: World, n: nat): nat {
    if n == 0 then 0 else Granted(w, n - 1) + (if w.approve(n - 1) == Approved then 1 else 0)
  }

  lemma {:induction false} OpenGranted(w: World, max: nat, opens: nat, asked: nat, retries: nat)
    requires retries <= max
    ensures var o := Open(w, max, opens, asked, retries);
            asked <= o.asked && o.retries - retries == Granted(w, o.asked) - Granted(w, asked)
    decreases max - retries
  {
    var refused := w.open(opens);
    if refused.Some? && !refused.value.cancelled && retries < max && w.approve(asked) == Approved {
      OpenGranted(w, max, opens + 1, asked + 1, retries + 1);
    }
  }

  lemma {:induction false} ReceiveGranted(w: World, max: nat, s: State)
    requires Counts(max, s)
    ensures var t := Receive(w, max, s).state; t.retries - s.retries == Granted(w, t.asked) - Granted(w, s.asked)
    decreases max - s.retries
  {
    var p := OnePass(w, max, s);
    PassGranted(w, max, s);
    if p.Reopened? {
      PassCounts(w, max, s);
      hide OnePass;
      ReceiveGranted(w, max, p.state);
    }
  }

  lemma PassAsks(w: World, max: nat, s: State)
    requires Counts(max, s)
    ensures var p := OnePass(w, max, s);
            var t := if p.Answer? then p.step.state else p.state;
            || (t.asked == s.asked && t.retries == s.retries)
            || (t.asked == s.asked + 1 && t.retries == s.retries && w.approve(s.asked) != Approved)
            || (s.retries < max && w.approve(s.asked) == Approved
                && var o := Open(w, max, s.opens, s.asked + 1, s.retries + 1); t.asked == o.asked && t.retries == o.retries)
  {
    hide Open, RetryFailure;
  }

  lemma PassGranted(w: World, max: nat, s: State)
    requires Counts(max, s)
    ensures var p := OnePass(w, max, s);
            var t := if p.Answer? then p.step.state else p.state;
            t.retries - s.retries == Granted(w, t.asked) - Granted(w, s.asked)
  {
    hide OnePass, Open;
    PassAsks(w, max, s);
    if s.retries < max && w.approve(s.asked) == Approved {
      OpenGranted(w, max, s.opens, s.asked + 1, s.retries + 1);
    }
  }

  /** The host decides: over any run the stream is retried exactly as often as a request was granted. */
  lemma {:induction false} RetriesGranted(w: World, max: nat, s: State, requests: seq<Request>)
    requires Counts(max, s)
    ensures var t := Run(w, max, s, requests).state; t.retries - s.retries == Granted(w, t.asked) - Granted(w, s.asked)
  {
    hide Receive;
    if requests != [] {
      RetriesGranted(w, max, s, requests[..|requests| - 1]);
      ReceiveGranted(w, max, Run(w, max, s, requests[..|requests| - 1]).state);
    }
  }

  /** A cancelled failure asks for nothing and reopens nothing: it is reported at once. */
  lemma CancelledStops(w: World, max: nat, s: State)
    requires Counts(max, s) && !s.closed && !s.terminal && !s.emitted
    requires var got := w.item(s.current, s.taken);
             && (got.event.kind == ErrorKind || got.event.kind == Absent)
             && (if got.event.kind == ErrorKind && got.event.err.Some? then CauseOf(got.event.err.value).cancelled
                 else got.err.Some? && got.err.value.cancelled)
    ensures var t, got := Receive(w, max, s), w.item(s.current, s.taken);
            && t.state == s.(taken := s.taken + 1) && t.delivery.event == NOTHING
            && t.delivery.err == Some(Plain(if got.event.kind == ErrorKind && got.event.err.Some?
                                            then CauseOf(got.event.err.value) else got.err.value))
  {
    hide Open;
  }

  /** The output delivered is the output of one stream: what the stream now in use was made to
      give, item by item, save a final event that came with an error, and nothing else. */
  ghost predicate OutputOf(w: World, h: History) {
    && (forall i :: 0 <= i < |h.deliveries| && Output(h.deliveries[i]) ==>
          var d := h.deliveries[i];
          d.source == h.state.current && d.position < h.state.taken && d.event == w.item(h.state.current, d.position).event)
    && (forall p: nat :: p < h.state.taken ==>
          var got := w.item(h.state.current, p);
          got.event.kind == Content || (got.event.kind == DoneKind && got.err.None?) ==> OutputAt(h, p, got.event))
  }

  ghost predicate OutputAt(h: History, p: nat, event: Event) {
    exists i :: 0 <= i < |h.deliveries| && Output(h.deliveries[i]) && h.deliveries[i].event == event
                && h.deliveries[i].source == h.state.current && h.deliveries[i].position == p
  }

  lemma OutputExact(w: World, s: State, h: History)
    requires SingleSource(w, s, h) && s.taken == 0
    ensures OutputOf(w, h)
  {
    forall p: nat | p < h.state.taken
      ensures var got := w.item(h.state.current, p);
              got.event.kind == Content || (got.event.kind == DoneKind && got.err.None?) ==> OutputAt(h, p, got.event)
    {
      assert DeliveredAt(h, p);
      var i :| 0 <= i < |h.deliveries| && Current(h, i) && h.deliveries[i].position == p;
      assert Tells(h.deliveries[i], w.item(h.state.current, p));
    }
  }

  /** From the first opening on: one open more than retries, at most the maximum plus one, as many
      retries as were granted, and all output in order, none lost, from one stream. */
  lemma RetrySafety(w: World, limit: int, requests: seq<Request>)
    requires First(w, Normalized(limit)).Some?
    ensures var max, s := Normalized(limit), First(w, Normalized(limit)).value;
            && Counts(max, s)
            && var h := Run(w, max, s, requests);
            && h.state.opens == h.state.retries + 1 <= max + 1 && h.state.retries == Granted(w, h.state.asked)
            && SingleSource(w, s, h) && OutputOf(w, h)
  {
    hide Run, Open, SingleSource, OutputOf;
    var max, s := Normalized(limit), First(w, Normalized(limit)).value;
    OpenGranted(w, max, 0, 0, 0);
    OutputFromOneStream(w, max, s, requests);
    RetriesGranted(w, max, s, requests);
    OutputExact(w, s, Run(w, max, s, requests));
  }

  /** Once output has been delivered, or the stream is settled otherwise, it is never reopened. */
  lemma {:induction false} NeverReopened(w: World, max: nat, s: State, requests: seq<Request>)
    requires Counts(max, s) && Settled(max, s)
    ensures var h := Run(w, max, s, requests);
            Settled(max, h.state) && h.state.opens == s.opens && h.state.current == s.current
  {
    hide Receive;
    if requests != [] {
      var before := requests[..|requests| - 1];
      NeverReopened(w, max, s, before);
      SettledStays(w, max, Run(w, max, s, before).state);
    }
  }

  /** Which deliveries settle the stream: output does, and so does an error event, unless it
      reports a reopening that failed with retries left. */
  lemma {:induction false} DeliverySettles(w: World, max: nat, s: State)
    requires Counts(max, s)
    ensures var t := Receive(w, max, s);
            && (Output(t.delivery) ==> Settled(max, t.state))
            && (t.delivery.event.kind == ErrorKind ==>
                  (Settled(max, t.state) <==> !(t.delivery.reopenFailed && t.state.retries < max)))
    decreases max - s.retries
  {
    if OnePass(w, max, s).Reopened? {
      DeliverySettles(w, max, OnePass(w, max, s).state);
    }
  }

  /** Whatever state is not settled can be reopened, so the condition is exact: in particular
      the stream may be reopened after an error event that reported a failed reopening. */
  lemma ReopensUnlessSettled(max: nat, s: State) returns (w: World)
    requires Counts(max, s)
    ensures Receive(w, max, s).state.opens > s.opens <==> !Settled(max, s)
  {
    w := World(n => None,
               (n, k) => if n == s.current then Received(NOTHING, Some(Cause(false, ""))) else Received(Event(DoneKind, None, ""), None),
               n => Approved);
    if Settled(max, s) {
      SettledStays(w, max, s);
    } else {
      var o := Open(w, max, s.opens, s.asked + 1, s.retries + 1);
      assert o.opens == s.opens + 1;
      var s3 := s.(taken := 0, asked := o.asked, opens := o.opens, retries := o.retries, current := s.opens);
      assert OnePass(w, max, s) == Reopened(s3);
      assert OnePass(w, max, s3).Answer?;
    }
  }

  const FAILED := Event(ErrorKind, Some(Plain(Cause(false, ""))), "")
  const DONE := Event(DoneKind, None, "")

  /** The first stream fails, its first replacement cannot be opened, the second can. */
  function Flaky(): World {
    World(n => if n == 1 then Some(Cause(false, "")) else None,
          (n, k) => if n == 0 then Received(FAILED, None) else Received(DONE, None),
          n => if n == 1 then Declined else Approved)
  }

  lemma FlakyFirst(s: State)
    requires s == State(0, 0, 1, 0, 0, false, false, false)
    ensures Receive(Flaky(), 2, s) == Step(State(0, 1, 2, 2, 1, false, false, false), Delivery(FAILED, None, 0, 0, true))
  {
    assert Open(Flaky(), 2, 1, 1, 1) == Opening(None, Some(Plain(Cause(false, ""))), 2, 2, 1);
  }

  lemma FlakySecond(s: State)
    requires s == State(0, 1, 2, 2, 1, false, false, false)
    ensures Receive(Flaky(), 2, s).delivery == Delivery(DONE, None, 2, 0, false)
  {
    assert Open(Flaky(), 2, 2, 3, 2) == Opening(Some(2), None, 3, 3, 2);
    assert OnePass(Flaky(), 2, s) == Reopened(State(2, 0, 3, 3, 2, false, false, false));
  }

  /** Such an event: an error event, then output from another stream. */
  lemma ErrorThenOutput() returns (w: World, s: State)
    ensures First(w, 2) == Some(s)
    ensures var d := Run(w, 2, s, [Recv, Recv]).deliveries;
            |d| == 2 && d[0].event.kind == ErrorKind && d[0].reopenFailed && Output(d[1]) && d[0].source != d[1].source
  {
    w := Flaky();
    s := First(w, 2).value;
    hide Receive;
    FlakyFirst(s);
    FlakySecond(Receive(w, 2, s).state);
    assert [Recv, Recv][..1] == [Recv] && [Recv][..0] == [];
    assert Run(w, 2, s, [Recv]) == History(Receive(w, 2, s).state, [Receive(w, 2, s).delivery]);
  }

  // ---- the stream ----

  class RetryingStream {
    const world: World
    const max: nat
    var current: nat
    var taken: nat
    var opens: nat
    var asked: nat
    var retries: nat
    var emitted: bool
    var terminal: bool
    var closed: bool

    ghost function Now(): State
      reads this
    {
      State(current, taken, opens, asked, retries, emitted, terminal, closed)
    }

    ghost predicate Valid()
      reads this
    {
      Counts(max, Now())
    }

    constructor (w: World, limit: nat, s: State)
      requires Counts(limit, s)
      ensures Valid() && world == w && max == limit && Now() == s
    {
      world, max := w, limit;
      current, taken, opens, asked, retries := s.current, s.taken, s.opens, s.asked, s.retries;
      emitted, terminal, closed := s.emitted, s.terminal, s.closed;
    }

    /** Sorts one item into output, end, failure after output, or something to retry. */
    method ClassifyReceived(got: Received) returns (event: Event, again: Option<Cause>, err: Option<Failure>)
      modifies this`emitted, this`terminal
      ensures match Classify(old(Now()), got)
              case Final(s, e, f) => again == None && event == e && err == f && Now() == s
              case Again(c) => again == Some(c) && event == got.event && Now() == old(Now())
    {
      event, again, err := got.event, None, None;
      var cause := if event.kind == ErrorKind && event.err.Some? then Some(CauseOf(event.err.value)) else got.err;
      if event.kind == DoneKind {
        terminal := true;
        if got.err.Some? {
          return NOTHING, None, Some(Partial(got.err.value));
        }
        return;
      }
      if event.kind == Content {
        emitted := true;
        if got.err.Some? {
          terminal := true;
          err := Some(Partial(got.err.value));
        }
        return;
      }
      if emitted {
        if cause.None? && event.kind != ErrorKind {
          return event, None, Wrapped(got.err);
        }
        terminal := true;
        var why := if cause.Some? then cause.value else Cause(false, "error event after partial output");
        if event.kind == ErrorKind {
          event := NOTHING;
        }
        return event, None, Some(Partial(why));
      }
      if cause.None? {
        if event.kind == ErrorKind { terminal := true; }
        return event, None, Wrapped(got.err);
      }
      again := cause;
    }

    /** Opens until it succeeds, is refused for good, or the retries are spent. */
    method OpenWithRetry() returns (stream: Option<nat>, failure: Option<Failure>)
      requires retries <= max
      modifies this`opens, this`asked, this`retries
      ensures Opening(stream, failure, opens, asked, retries) == Open(world, max, old(opens), old(asked), old(retries))
    {
      while true
        invariant retries <= max
        invariant Open(world, max, old(opens), old(asked), old(retries)) == Open(world, max, opens, asked, retries)
        decreases max - retries
      {
        var refused := world.open(opens);
        opens := opens + 1;
        if refused.None? {
          return Some(opens - 1), None;
        }
        if refused.value.cancelled {
          return None, Some(Plain(refused.value));
        }
        if retries >= max {
          return None, Some(Spent(refused.value));
        }
        var answer := world.approve(asked);
        asked := asked + 1;
        match answer {
          case Vetoed(cause) => return None, Some(Plain(cause));
          case Declined => return None, Some(Plain(refused.value));
          case Approved => retries := retries + 1;
        }
      }
    }

    /** Asks for a retry of a failed item, and reopens the stream if that is granted. */
    method RetryItem(got: Received, cause: Cause, position: nat) returns (d: Option<Delivery>)
      requires Valid() && taken == position + 1
      modifies this
      ensures var p := Retry(world, max, old(Now()).(taken := position), got, cause);
              if d.Some? then p == Answer(Step(Now(), d.value)) else p == Reopened(Now())
    {
      hide Open;
      if cause.cancelled {
        return Some(Delivery(NOTHING, Some(Plain(cause)), current, position, false));
      }
      if retries >= max {
        return Some(RetryFailure(got.event, Spent(cause), current, position, false));
      }
      var answer := world.approve(asked);
      asked := asked + 1;
      match answer {
        case Vetoed(c) => return Some(Delivery(NOTHING, Some(Plain(c)), current, position, false));
        case Declined =>
          if got.event.kind == ErrorKind {
            terminal := true;
            return Some(Delivery(got.event, Wrapped(got.err), current, position, false));
          }
          return Some(Delivery(got.event, Some(Plain(cause)), current, position, false));
        case Approved =>
          retries := retries + 1;
          var next, failure := OpenWithRetry();
          if next.None? {
            return Some(RetryFailure(got.event, failure.value, current, position, true));
          }
          current, taken := next.value, 0;
          return None;
      }
    }

    method Recv() returns (d: Delivery)
      requires Valid()
      modifies this
      ensures Valid() && Step(Now(), d) == Receive(world, max, old(Now()))
    {
      hide Retry, Classify;
      ReceiveCounts(world, max, Now());
      while true
        invariant Valid() && Receive(world, max, old(Now())) == Receive(world, max, Now())
        decreases max - retries
      {
        ghost var before := Now();
        PassCounts(world, max, before);
        if closed {
          return Delivery(NOTHING, Some(Closed), current, taken, false);
        }
        var position := taken;
        var got := world.item(current, taken);
        taken := taken + 1;
        if terminal {
          return Delivery(got.event, Wrapped(got.err), current, position, false);
        }
        var event, again, err := ClassifyReceived(got);
        if again.None? {
          return Delivery(event, err, current, position, false);
        }
        var answered := RetryItem(got, again.value, position);
        if answered.Some? {
          return answered.value;
        }
      }
    }

    method CloseStream()
      requires Valid()
      modifies this`closed
      ensures Valid() && Now() == old(Now()).(closed := true)
    {
      closed := true;
    }
  }

  method OpenRetryingStream(w: World, limit: int) returns (stream: Option<RetryingStream>)
    ensures stream.Some? <==> First(w, Normalized(limit)).Some?
    ensures stream.Some? ==>
              && fresh(stream.value) && stream.value.world == w && stream.value.max == Normalized(limit)
              && stream.value.Valid() && First(w, Normalized(limit)) == Some(stream.value.Now())
  {
    var max := Normalized(limit);
    var o := Open(w, max, 0, 0, 0);
    if o.stream.None? {
      return None;
    }
    var s := new RetryingStream(w, max, State(o.stream.value, 0, o.opens, o.asked, o.retries, false, false, false));
    return Some(s);
  }

  /** A consumer's receives and closes, in order, on one stream: what it is delivered is the
      history of those calls, with one open more than retries and all output from one stream. */
  method Consume(w: World, limit: int, requests: seq<Request>) returns (deliveries: Option<seq<Delivery>>)
    ensures deliveries.Some? <==> First(w, Normalized(limit)).Some?
    ensures deliveries.Some? ==>
              var h := Run(w, Normalized(limit), First(w, Normalized(limit)).value, requests);
              && deliveries.value == h.deliveries && SingleSource(w, First(w, Normalized(limit)).value, h)
              && h.state.opens == h.state.retries + 1 <= Normalized(limit) + 1
  {
    hide Receive, SingleSource, First;
    var opening := OpenRetryingStream(w, limit);
    if opening.None? {
      return None;
    }
    var stream := opening.value;
    ghost var start := stream.Now();
    var received: seq<Delivery> := [];
    var k := 0;
    while k < |requests|
      invariant 0 <= k <= |requests|
      invariant stream.Valid() && fresh(stream) && stream.world == w && stream.max == Normalized(limit)
      invariant Counts(stream.max, start) && History(stream.Now(), received) == Run(w, stream.max, start, requests[..k])
    {
      assert requests[..k + 1][..k] == requests[..k];
      if requests[k] == Close {
        stream.CloseStream();
      } else {
        var delivery := stream.Recv();
        received := received + [delivery];
      }
      k := k + 1;
    }
    assert requests[..k] == requests;
    RetrySafety(w, limit, requests);
    return Some(received);
  }
}
