/** Which event streams assemble into tool calls, said of their events alone. */
module ToolCallStreams {
  import opened Text
  import opened ToolCallAssembly

  /** The event names both the id and the index of its call. */
  predicate Both(p: Part) {
    p.id != "" && p.Index().Some?
  }

  /** The event names the call by its id alone, or by its index alone. */
  predicate OnlyId(p: Part, who: Identity) {
    Belongs(p, who) && p.Index().None?
  }

  predicate OnlyIndex(p: Part, who: Identity) {
    Belongs(p, who) && p.id == ""
  }

  /** Whatever names one of the two alone comes after an event that names both, as soon as the
      other has been named alone; and an index alone is never all that a call is known by. */
  ghost predicate Linked(parts: seq<Part>, who: Identity) {
    && (forall i :: 0 <= i < |parts| && OnlyIndex(parts[i], who) ==> LinkedBefore(parts, who, |parts|))
    && (forall i, j :: 0 <= i < |parts| && 0 <= j < |parts| && OnlyId(parts[j], who) && OnlyIndex(parts[i], who) ==>
          LinkedBefore(parts, who, if i < j then j else i))
  }

  ghost predicate LinkedBefore(parts: seq<Part>, who: Identity, n: int) {
    exists l :: 0 <= l < n && l < |parts| && Belongs(parts[l], who) && Both(parts[l])
  }

  /** No id has two complete calls. */
  ghost predicate FullOnce(parts: seq<Part>) {
    forall i, j :: 0 <= i < j < |parts| && parts[i].Full? && parts[j].Full? ==> parts[i].id != parts[j].id
  }

  /** One call's events: its id is not blank, they are linked, and what they spell is nothing or valid. */
  ghost predicate SoundCall(parts: seq<Part>, who: Identity, json: string -> bool) {
    && !Blank(who.id) && Linked(parts, who)
    && forall arguments :: Spells(Own(parts, who), arguments) ==> arguments == "" || json(arguments)
  }

  /** A stream in which these calls are told apart. */
  ghost predicate Sound(parts: seq<Part>, who: seq<Identity>, json: string -> bool) {
    && |who| <= MAX_TOOL_CALLS && DistinctWho(who) && FullOnce(parts)
    && (forall n :: 0 <= n < |parts| ==> Explained(parts[n], who))
    && forall i :: 0 <= i < |who| ==> SoundCall(parts, who[i], json)
  }

  // ---- what assembles is sound ----

  /** A builder gets to know both its id and its index only from an event that names both. */
  lemma NoLateLink(t: Table, p: Part)
    requires Inv(t) && Apply(t, p).Some? && !Both(p)
    requires var b := At(t, KeyFor(t, p)); b.id == "" || b.index.None?
    ensures var t', k := Apply(t, p).value, KeyFor(t, p);
            k in t'.builders && (t'.builders[k].conflict || t'.builders[k].id == "" || t'.builders[k].index.None?)
  {
    hide Apply, Ordered, Resolve;
    ApplyKeeps(t, p);
    var k := KeyFor(t, p);
    assert IdOk(t, "") && IdOk(t, p.id) && KeyOk(t, k);
    if p.id in t.idKeys {
      assert KeyOk(t, t.idKeys[p.id]);
      KeyById(t, p);
    } else if p.Index().Some? && p.Index().value in t.indexKeys {
      assert IndexOk(t, p.Index().value) && KeyOk(t, t.indexKeys[p.Index().value]);
      KeyByIndex(t, p);
    } else {
      ApplyNew(t, p);
    }
  }

  lemma KeyById(t: Table, p: Part)
    requires p.id != "" && p.id in t.idKeys && t.idKeys[p.id] in t.builders
    ensures KeyFor(t, p) == t.idKeys[p.id]
  {
  }

  lemma KeyByIndex(t: Table, p: Part)
    requires p.id !in t.idKeys && p.Index().Some? && p.Index().value in t.indexKeys && t.indexKeys[p.Index().value] in t.builders
    ensures KeyFor(t, p) == t.indexKeys[p.Index().value]
  {
  }

  lemma {:induction false} BothKnown(parts: seq<Part>, n: nat, k: Key)
    requires n <= |parts| && Collect(parts).Some? && Clean(Collect(parts).value) && k in Collect(parts).value.builders
    ensures Collect(parts[..n]).Some?
    ensures var t, b := Collect(parts).value, At(Collect(parts[..n]).value, k);
            b.id != "" && b.index.Some? ==> LinkedBefore(parts, IdentityOf(t.builders[k]), n)
    decreases n
  {
    hide Apply, Inv, Touches, Belongs, Grows, Clean, Collect, Resolve, Merge;
    CollectGrows(parts, n);
    if n == 0 {
      NothingCollected();
      assert parts[..0] == [];
    } else {
      BothKnown(parts, n - 1, k);
      var t, q, q', p := Collect(parts).value, Collect(parts[..n - 1]).value, Collect(parts[..n]).value, parts[n - 1];
      var at := KeyFor(q, p);
      MergedInto(parts, n);
      CollectNext(parts, n);
      if at == k {
        BelongsIff(t, q', p, at, k);
        CollectInv(parts[..n - 1]);
        if Both(p) {
        } else if At(q, k).id == "" || At(q, k).index.None? {
          NoLateLink(q, p);
        } else {
          var l :| 0 <= l < n - 1 && l < |parts| && Belongs(parts[l], IdentityOf(t.builders[k])) && Both(parts[l]);
        }
      } else {
        TouchesOthers(q, q', at, k);
      }
    }
  }

  lemma CollectNext(parts: seq<Part>, n: nat)
    requires 0 < n <= |parts| && Collect(parts[..n]).Some?
    ensures Collect(parts[..n - 1]).Some? && Collect(parts[..n]) == Apply(Collect(parts[..n - 1]).value, parts[n - 1])
  {
    hide Apply;
    assert parts[..n][..n - 1] == parts[..n - 1];
  }

  lemma TouchesOthers(t: Table, t': Table, at: Key, k: Key)
    requires Touches(t, t', at) && k != at
    ensures At(t', k) == At(t, k)
  {
  }

  /** An event of a call that names one of the two alone, when the other has been named alone
      before it, finds both known. */
  lemma KnownThen(parts: seq<Part>, k: Key, i: nat, j: nat)
    requires i < |parts| && j < |parts| && Collect(parts).Some? && Clean(Collect(parts).value) && k in Collect(parts).value.builders
    requires var who := IdentityOf(Collect(parts).value.builders[k]);
             OnlyIndex(parts[i], who) && OnlyId(parts[j], who)
    ensures LinkedBefore(parts, IdentityOf(Collect(parts).value.builders[k]), if i < j then j else i)
  {
    hide Apply, Inv, Touches, Grows, Clean, Collect, Resolve, Merge, Merges, LinkedBefore, IdentityOf;
    var m, early := if i < j then j else i, if i < j then i else j;
    var t := Collect(parts).value;
    BoundSince(parts, k, early, m);
    BoundSince(parts, k, m, m + 1);
    BothKnown(parts, m, k);
    CollectGrows(parts, m);
    CollectInv(parts[..m]);
    CollectInv(parts);
    var q := Collect(parts[..m]).value;
    MergedInto(parts, m + 1);
    CollectNext(parts, m + 1);
    KnownAt(t, q, parts[m], k, parts[early]);
  }

  /** Once an event of a call has been taken, its names are bound to the call's builder. */
  lemma BoundSince(parts: seq<Part>, k: Key, i: nat, n: nat)
    requires i < n <= |parts| && Collect(parts).Some? && Clean(Collect(parts).value) && k in Collect(parts).value.builders
    requires Belongs(parts[i], IdentityOf(Collect(parts).value.builders[k]))
    ensures Collect(parts[..i]).Some? && KeyFor(Collect(parts[..i]).value, parts[i]) == k
    ensures Collect(parts[..n]).Some?
    ensures var q, p := Collect(parts[..n]).value, parts[i];
            && k in q.builders
            && (p.id != "" ==> p.id in q.idKeys && q.idKeys[p.id] == k)
            && (p.Index().Some? ==> p.Index().value in q.indexKeys && q.indexKeys[p.Index().value] == k)
  {
    hide Apply, Inv, Touches, Belongs, Clean, Collect, Resolve, Merge, IdentityOf;
    MergedInto(parts, i + 1);
    assert parts[i + 1 - 1] == parts[i];
    var q, p := Collect(parts[..i]).value, parts[i];
    BelongsIff(Collect(parts).value, Collect(parts[..i + 1]).value, p, KeyFor(q, p), k);
    CollectGrows(parts, n);
    CollectGrows(parts[..n], i + 1);
    assert parts[..n][..i + 1] == parts[..i + 1];
    BindingsStay(Collect(parts[..i + 1]).value, Collect(parts[..n]).value, p, k);
  }

  lemma BindingsStay(t: Table, t': Table, p: Part, k: Key)
    requires Grows(t, t') && k in t.builders
    requires p.id != "" ==> p.id in t.idKeys && t.idKeys[p.id] == k
    requires p.Index().Some? ==> p.Index().value in t.indexKeys && t.indexKeys[p.Index().value] == k
    ensures k in t'.builders
    ensures p.id != "" ==> p.id in t'.idKeys && t'.idKeys[p.id] == k
    ensures p.Index().Some? ==> p.Index().value in t'.indexKeys && t'.indexKeys[p.Index().value] == k
  {
    if p.Index().Some? {
      var i: int := p.Index().value;
      assert i in t.indexKeys;
    }
  }

  lemma KnownAt(t: Table, q: Table, p: Part, k: Key, earlier: Part)
    requires Inv(q) && Grows(q, t) && Clean(t) && Apply(q, p).Some? && KeyFor(q, p) == k && k in q.builders && k in t.builders
    requires (p.id == "" && p.Index().Some? && earlier.id != "") || (p.id != "" && p.Index().None? && earlier.Index().Some?)
    requires earlier.id != "" ==> earlier.id in q.idKeys && q.idKeys[earlier.id] == k
    requires earlier.Index().Some? ==> earlier.Index().value in q.indexKeys && q.indexKeys[earlier.Index().value] == k
    ensures q.builders[k].id != "" && q.builders[k].index.Some?
  {
    hide Apply, Ordered, Resolve;
    assert IdOk(q, "") && IdOk(q, p.id) && IdOk(q, earlier.id) && KeyOk(q, k);
    if earlier.Index().Some? {
      assert IndexOk(q, earlier.Index().value);
    }
    if p.id in q.idKeys {
      KeyById(q, p);
    } else if p.Index().Some? && p.Index().value in q.indexKeys {
      assert IndexOk(q, p.Index().value);
      KeyByIndex(q, p);
    } else {
      ApplyNew(q, p);
    }
  }

  lemma LinkedEvents(parts: seq<Part>, k: Key)
    requires Collect(parts).Some? && Clean(Collect(parts).value) && k in Collect(parts).value.builders
    ensures Linked(parts, IdentityOf(Collect(parts).value.builders[k]))
  {
    hide Inv, Belongs, Collect, LinkedBefore;
    var t := Collect(parts).value;
    var who := IdentityOf(t.builders[k]);
    forall i | 0 <= i < |parts| && OnlyIndex(parts[i], who) ensures LinkedBefore(parts, who, |parts|) {
      CollectInv(parts);
      assert parts[..|parts|] == parts;
      BoundSince(parts, k, i, |parts|);
      OnlyIndexed(t, parts[i], k);
      BothKnown(parts, |parts|, k);
    }
    forall i, j | 0 <= i < |parts| && 0 <= j < |parts| && OnlyId(parts[j], who) && OnlyIndex(parts[i], who)
      ensures LinkedBefore(parts, who, if i < j then j else i)
    {
      KnownThen(parts, k, i, j);
    }
  }

  lemma OnlyIndexed(t: Table, p: Part, k: Key)
    requires Inv(t) && k in t.builders && !t.builders[k].conflict
    requires OnlyIndex(p, IdentityOf(t.builders[k]))
    ensures t.builders[k].index.Some?
  {
  }

  lemma SpelledOnce(own: seq<Part>, a: string, b: string)
    requires Spells(own, a) && Spells(own, b)
    ensures a == b
  {
    hide Joined;
    var i: nat :|
      && i <= |own| && (i > 0 ==> i < |own| && Restarts(own[i]))
      && (forall l :: i < l < |own| ==> !Restarts(own[l])) && a == Joined(own[i..]);
    var j: nat :|
      && j <= |own| && (j > 0 ==> j < |own| && Restarts(own[j]))
      && (forall l :: j < l < |own| ==> !Restarts(own[l])) && b == Joined(own[j..]);
    assert i == j;
  }

  lemma FullOnceWhenOk(parts: seq<Part>, who: seq<Identity>, calls: seq<Call>)
    requires Explains(parts, who, calls)
    ensures FullOnce(parts)
  {
    hide DistinctWho, ArrivesBefore, Spells, LastNamed, Introduced, OneFull, Own, MergeAll, Blank;
    forall i, j | 0 <= i < j < |parts| && parts[i].Full? && parts[j].Full? ensures parts[i].id != parts[j].id {
      if parts[i].id == parts[j].id {
        assert Explained(parts[i], who);
        var k :| 0 <= k < |who| && Belongs(parts[i], who[k]);
        assert Belongs(parts[j], who[k]) && MergedFrom(parts, who[k], calls[k]);
        TwoFulls(parts, who[k], i, j);
      }
    }
  }

  lemma TwoFulls(parts: seq<Part>, who: Identity, i: nat, j: nat)
    requires i < j < |parts| && Belongs(parts[i], who) && Belongs(parts[j], who) && parts[i].Full? && parts[j].Full?
    ensures !OneFull(Own(parts, who))
  {
    hide Belongs, Own;
    var at := OwnAre(parts, who);
    var a :| 0 <= a < |at| && at[a] == i;
    var b :| 0 <= b < |at| && at[b] == j;
    assert Own(parts, who)[a].Full? && Own(parts, who)[b].Full? && a != b;
  }

  /** What assembles is sound. */
  lemma AssembledSound(parts: seq<Part>, json: string -> bool) returns (who: seq<Identity>)
    requires Assemble(parts, json).Ok?
    ensures Sound(parts, who, json)
  {
    hide Collect, Assemble, Clean, Inv, Explained, DistinctWho, SoundCall, Usable, FullOnce, MergedFrom, ArrivesBefore;
    CleanAssembled(parts, json);
    IdentitiesExplain(parts, json);
    var t := Collect(parts).value;
    who := Identities(t);
    FullOnceWhenOk(parts, who, Assemble(parts, json).calls);
    forall i | 0 <= i < |who| ensures SoundCall(parts, who[i], json) {
      SoundCallOf(parts, json, t.order[i]);
    }
  }

  lemma SoundCallOf(parts: seq<Part>, json: string -> bool, k: Key)
    requires Collect(parts).Some? && Clean(Collect(parts).value) && k in Collect(parts).value.builders
    requires Usable(Collect(parts).value.builders[k], json)
    ensures SoundCall(parts, IdentityOf(Collect(parts).value.builders[k]), json)
  {
    hide Collect, Clean, Linked, Own, Spells, LastNamed, Introduced, Blank;
    var b := Collect(parts).value.builders[k];
    LinkedEvents(parts, k);
    OwnIntroduced(parts, k);
    forall arguments | Spells(Own(parts, IdentityOf(b)), arguments) ensures arguments == "" || json(arguments) {
      SpelledOnce(Own(parts, IdentityOf(b)), arguments, b.arguments);
    }
  }

  // ---- what is sound assembles ----

  /** The builder is this call's, as far as it knows its names. */
  predicate Of(b: Builder, who: Identity) {
    (b.id == "" || b.id == who.id) && (b.index.None? || b.index == who.index)
  }

  ghost predicate Fits(b: Builder, who: seq<Identity>) {
    && !b.conflict && (b.id != "" || b.index.Some?)
    && exists i :: 0 <= i < |who| && Of(b, who[i])
  }

  /** If both names of a call are bound, they are bound to one builder. */
  predicate Agrees(t: Table, who: Identity) {
    who.id in t.idKeys && who.index.Some? && who.index.value in t.indexKeys
    ==> t.idKeys[who.id] == t.indexKeys[who.index.value]
  }

  ghost predicate NamesId(parts: seq<Part>, n: int, id: string) {
    id != "" && exists l :: 0 <= l < n && l < |parts| && parts[l].id == id
  }

  ghost predicate NamesIndex(parts: seq<Part>, n: int, index: int) {
    exists l :: 0 <= l < n && l < |parts| && parts[l].Index() == Some(index)
  }

  ghost predicate FullBefore(t: Table, parts: seq<Part>, n: int, k: Key) {
    exists l :: 0 <= l < n && l < |parts| && parts[l].Full? && parts[l].id in t.idKeys && t.idKeys[parts[l].id] == k
  }

  ghost predicate IdTold(t: Table, parts: seq<Part>, n: int, id: string) {
    id in t.idKeys <==> NamesId(parts, n, id)
  }

  ghost predicate IndexTold(t: Table, parts: seq<Part>, n: int, index: int) {
    index in t.indexKeys <==> NamesIndex(parts, n, index)
  }

  ghost predicate KeyTold(t: Table, parts: seq<Part>, n: int, who: seq<Identity>, k: Key) {
    k in t.builders ==> Fits(t.builders[k], who) && (t.builders[k].fullSeen ==> FullBefore(t, parts, n, k))
  }

  /** What a table knows after the first `n` events. */
  ghost predicate Told(t: Table, parts: seq<Part>, n: int, who: seq<Identity>) {
    && (forall id {:trigger IdTold(t, parts, n, id)} :: IdTold(t, parts, n, id))
    && (forall x {:trigger IndexTold(t, parts, n, x)} :: IndexTold(t, parts, n, x))
    && (forall k {:trigger KeyTold(t, parts, n, who, k)} :: KeyTold(t, parts, n, who, k))
    && (forall i :: 0 <= i < |who| ==> Agrees(t, who[i]))
  }

  /** What the event of a call meets: its names lead to that call's builder, if anywhere. */
  ghost predicate Meets(t: Table, p: Part, w: Identity) {
    && w.id != "" && Belongs(p, w) && (p.Index().Some? ==> p.Index() == w.index) && Agrees(t, w)
    && (w.id in t.idKeys ==>
          var b := At(t, t.idKeys[w.id]); !b.conflict && Of(b, w) && (p.Full? ==> !b.fullSeen))
    && (w.index.Some? && w.index.value in t.indexKeys ==>
          var b := At(t, t.indexKeys[w.index.value]); !b.conflict && Of(b, w))
  }

  /** Such an event is merged without conflict into that call's builder. */
  lemma TakenById(t: Table, p: Part, w: Identity)
    requires Meets(t, p, w) && p.id in t.idKeys && IdOk(t, p.id) && p.id != ""
    ensures Apply(t, p).Some? && KeyFor(t, p) in Apply(t, p).value.builders
    ensures !Apply(t, p).value.builders[KeyFor(t, p)].conflict && Of(Apply(t, p).value.builders[KeyFor(t, p)], w)
  {
  }

  lemma TakenByIndex(t: Table, p: Part, w: Identity)
    requires Meets(t, p, w) && p.id !in t.idKeys && p.Index().Some? && p.Index().value in t.indexKeys && IndexOk(t, p.Index().value)
    ensures Apply(t, p).Some? && KeyFor(t, p) in Apply(t, p).value.builders
    ensures !Apply(t, p).value.builders[KeyFor(t, p)].conflict && Of(Apply(t, p).value.builders[KeyFor(t, p)], w)
  {
  }

  lemma TakenNew(t: Table, p: Part, w: Identity)
    requires Meets(t, p, w) && p.id !in t.idKeys && (p.Index().Some? ==> p.Index().value !in t.indexKeys)
    requires KeyOk(t, NewKey(t, p.id, p.Index()))
    ensures Apply(t, p).Some? && KeyFor(t, p) in Apply(t, p).value.builders
    ensures !Apply(t, p).value.builders[KeyFor(t, p)].conflict && Of(Apply(t, p).value.builders[KeyFor(t, p)], w)
  {
  }

  lemma Taken(t: Table, p: Part, w: Identity)
    requires Inv(t) && Meets(t, p, w)
    ensures Apply(t, p).Some?
    ensures var t', k := Apply(t, p).value, KeyFor(t, p);
            && Inv(t') && Changes(t, t', k, p) && Merges(t, t', k, p) && Grows(t, t')
            && !t'.builders[k].conflict && Of(t'.builders[k], w)
  {
    hide Apply, Resolve, Merges, Touches, Changes, Grows, Of, Ordered;
    assert IdOk(t, p.id) && IdOk(t, "") && KeyOk(t, NewKey(t, p.id, p.Index()));
    if p.id in t.idKeys {
      TakenById(t, p, w);
    } else if p.Index().Some? && p.Index().value in t.indexKeys {
      assert IndexOk(t, p.Index().value);
      TakenByIndex(t, p, w);
    } else {
      TakenNew(t, p, w);
    }
    hide Inv, Meets;
    ApplyKeeps(t, p);
    ApplyChanges(t, p);
    TouchesGrows(t, Apply(t, p).value, KeyFor(t, p));
  }

  /** The events told apart, up to the next one. */
  ghost predicate Apart(parts: seq<Part>, who: seq<Identity>) {
    && DistinctWho(who) && FullOnce(parts)
    && (forall n :: 0 <= n < |parts| ==> Explained(parts[n], who))
    && forall i :: 0 <= i < |who| ==> who[i].id != "" && Linked(parts, who[i])
  }

  lemma MeetsNext(t: Table, parts: seq<Part>, n: nat, who: seq<Identity>, i: nat)
    requires Inv(t) && Told(t, parts, n, who) && Apart(parts, who) && n < |parts| && i < |who| && Belongs(parts[n], who[i])
    ensures Meets(t, parts[n], who[i])
  {
    hide Linked, Ordered;
    var p, w := parts[n], who[i];
    assert Explained(p, who);
    if w.id in t.idKeys {
      var k := t.idKeys[w.id];
      assert IdOk(t, w.id) && KeyTold(t, parts, n, who, k);
      forall l | 0 <= l < n && parts[l].Full? && parts[l].id in t.idKeys && p.Full? ensures t.idKeys[parts[l].id] != k {
        assert IdOk(t, parts[l].id);
      }
    }
    if w.index.Some? && w.index.value in t.indexKeys {
      assert IndexOk(t, w.index.value) && KeyTold(t, parts, n, who, t.indexKeys[w.index.value]);
    }
  }

  /** One of the two names bound before: so is the other, unless it is the first to be named alone. */
  lemma NamedBefore(t: Table, parts: seq<Part>, n: nat, who: seq<Identity>, i: nat)
    requires Told(t, parts, n, who) && Apart(parts, who) && n < |parts| && i < |who| && Belongs(parts[n], who[i])
    ensures OnlyId(parts[n], who[i]) && who[i].index.Some? && who[i].index.value in t.indexKeys ==> who[i].id in t.idKeys
    ensures OnlyIndex(parts[n], who[i]) && who[i].id in t.idKeys ==> who[i].index.Some? && who[i].index.value in t.indexKeys
  {
    hide FullOnce;
    var w := who[i];
    assert IdTold(t, parts, n, w.id);
    if OnlyId(parts[n], w) && w.index.Some? && w.index.value in t.indexKeys {
      assert IndexTold(t, parts, n, w.index.value);
      var l :| 0 <= l < n && l < |parts| && parts[l].Index() == Some(w.index.value);
      assert Explained(parts[l], who);
      var m :| 0 <= m < |who| && Belongs(parts[l], who[m]);
      assert m == i;
      if parts[l].id == "" {
        assert OnlyIndex(parts[l], w);
        assert LinkedBefore(parts, w, n);
        var b :| 0 <= b < n && b < |parts| && Belongs(parts[b], w) && Both(parts[b]);
        assert parts[b].id == w.id;
      }
    }
    if OnlyIndex(parts[n], w) && w.id in t.idKeys {
      assert IndexTold(t, parts, n, w.index.value);
      var l :| 0 <= l < n && l < |parts| && parts[l].id == w.id;
      assert Explained(parts[l], who) && Belongs(parts[l], w);
      if parts[l].Index().None? {
        assert OnlyId(parts[l], w);
        assert LinkedBefore(parts, w, n);
        var b :| 0 <= b < n && b < |parts| && Belongs(parts[b], w) && Both(parts[b]);
        assert Explained(parts[b], who);
        assert parts[b].Index() == Some(w.index.value);
      } else {
        assert parts[l].Index() == Some(w.index.value);
      }
    }
  }

  lemma AgreesNext(t: Table, t': Table, parts: seq<Part>, n: nat, who: seq<Identity>, i: nat, j: nat)
    requires Told(t, parts, n, who) && Apart(parts, who) && n < |parts| && i < |who| && j < |who| && Belongs(parts[n], who[i])
    requires var k := KeyFor(t, parts[n]);
             Changes(t, t', k, parts[n]) && Merges(t, t', k, parts[n]) && Grows(t, t') && !t'.builders[k].conflict
    ensures Agrees(t', who[j])
  {
    hide Linked, FullOnce, Resolve, IdTold, IndexTold, KeyTold, Merge;
    var p, w := parts[n], who[j];
    assert Explained(p, who) && Agrees(t, w);
    if i == j {
      NamedBefore(t, parts, n, who, i);
      if w.index.Some? {
        var x: int := w.index.value;
        assert x in t.indexKeys ==> x in t'.indexKeys && t'.indexKeys[x] == t.indexKeys[x];
      }
      assert w.id in t.idKeys ==> w.id in t'.idKeys && t'.idKeys[w.id] == t.idKeys[w.id];
    }
  }

  lemma IdNext(t: Table, t': Table, parts: seq<Part>, n: nat, k: Key, id: string)
    requires IdTold(t, parts, n, id) && n < |parts| && Changes(t, t', k, parts[n])
    requires parts[n].id != "" ==> parts[n].id in t'.idKeys
    ensures IdTold(t', parts, n + 1, id)
  {
  }

  lemma IndexNext(t: Table, t': Table, parts: seq<Part>, n: nat, k: Key, x: int)
    requires IndexTold(t, parts, n, x) && n < |parts| && Changes(t, t', k, parts[n])
    requires parts[n].Index().Some? ==> parts[n].Index().value in t'.indexKeys
    ensures IndexTold(t', parts, n + 1, x)
  {
  }

  lemma KeyNext(t: Table, t': Table, parts: seq<Part>, n: nat, who: seq<Identity>, i: nat, j: Key)
    requires KeyTold(t, parts, n, who, j) && n < |parts| && i < |who| && Belongs(parts[n], who[i])
    requires var k := KeyFor(t, parts[n]);
             && Changes(t, t', k, parts[n]) && Merges(t, t', k, parts[n]) && Grows(t, t')
             && !t'.builders[k].conflict && Of(t'.builders[k], who[i])
    ensures KeyTold(t', parts, n + 1, who, j)
  {
    hide Resolve, Of;
    if FullBefore(t, parts, n, j) {
      var l :| 0 <= l < n && l < |parts| && parts[l].Full? && parts[l].id in t.idKeys && t.idKeys[parts[l].id] == j;
      assert parts[l].id in t'.idKeys && t'.idKeys[parts[l].id] == j;
    }
  }

  lemma ToldNext(t: Table, parts: seq<Part>, n: nat, who: seq<Identity>)
    requires Inv(t) && Told(t, parts, n, who) && Apart(parts, who) && n < |parts|
    ensures Apply(t, parts[n]).Some? && Inv(Apply(t, parts[n]).value) && Told(Apply(t, parts[n]).value, parts, n + 1, who)
  {
    hide Apply, Inv, Resolve, IdTold, IndexTold, KeyTold, Linked, FullOnce, DistinctWho, Changes, Grows, Belongs, Of, Meets, Agrees;
    var p := parts[n];
    assert Explained(p, who);
    var i :| 0 <= i < |who| && Belongs(p, who[i]);
    MeetsNext(t, parts, n, who, i);
    Taken(t, p, who[i]);
    var t', k, m := Apply(t, p).value, KeyFor(t, p), n + 1;
    forall id ensures IdTold(t', parts, m, id) { assert IdTold(t, parts, n, id); IdNext(t, t', parts, n, k, id); }
    forall x ensures IndexTold(t', parts, m, x) { assert IndexTold(t, parts, n, x); IndexNext(t, t', parts, n, k, x); }
    forall j ensures KeyTold(t', parts, m, who, j) { assert KeyTold(t, parts, n, who, j); KeyNext(t, t', parts, n, who, i, j); }
    forall j | 0 <= j < |who| ensures Agrees(t', who[j]) { AgreesNext(t, t', parts, n, who, i, j); }
  }

  lemma ToldStart(parts: seq<Part>, who: seq<Identity>)
    ensures Collect(parts[..0]) == Some(START) && Told(START, parts, 0, who)
  {
  }

  lemma {:induction false} CollectTold(parts: seq<Part>, n: nat, who: seq<Identity>)
    requires Apart(parts, who) && n <= |parts|
    ensures Collect(parts[..n]).Some? && Inv(Collect(parts[..n]).value) && Told(Collect(parts[..n]).value, parts, n, who)
    decreases n
  {
    hide Apply, Inv, Told, Apart;
    if n == 0 {
      ToldStart(parts, who);
      StartInv();
    } else {
      CollectTold(parts, n - 1, who);
      ToldNext(Collect(parts[..n - 1]).value, parts, n - 1, who);
      assert parts[..n][..n - 1] == parts[..n - 1];
    }
  }

  /** In the end a bound index leads to a call whose id is bound too. */
  lemma IndexLeads(t: Table, parts: seq<Part>, who: seq<Identity>, x: int) returns (m: nat)
    requires Told(t, parts, |parts|, who) && Apart(parts, who) && x in t.indexKeys
    ensures m < |who| && who[m].index == Some(x) && who[m].id in t.idKeys
  {
    hide FullOnce, DistinctWho, KeyTold, Agrees, Linked, Belongs;
    assert IndexTold(t, parts, |parts|, x);
    var l :| 0 <= l < |parts| && parts[l].Index() == Some(x);
    assert Explained(parts[l], who);
    m :| 0 <= m < |who| && Belongs(parts[l], who[m]);
    IdNamed(parts, who[m], l);
    assert IdTold(t, parts, |parts|, who[m].id);
  }

  lemma IdNamed(parts: seq<Part>, who: Identity, l: nat)
    requires Linked(parts, who) && l < |parts| && Belongs(parts[l], who) && who.id != ""
    ensures NamesId(parts, |parts|, who.id)
  {
    if parts[l].id == "" {
      assert OnlyIndex(parts[l], who);
      assert LinkedBefore(parts, who, |parts|);
    }
  }

  /** In the end every builder knows its id, and any index its call was named by. */
  lemma IdKnown(t: Table, parts: seq<Part>, who: seq<Identity>, k: Key) returns (i: nat)
    requires Inv(t) && Told(t, parts, |parts|, who) && Apart(parts, who) && k in t.builders
    ensures i < |who| && t.builders[k].id == who[i].id != "" && !t.builders[k].conflict
    ensures t.builders[k].index.Some? ==> t.builders[k].index == who[i].index
    ensures who[i].index.Some? && who[i].index.value in t.indexKeys ==> t.builders[k].index == who[i].index
  {
    hide Ordered, Linked, FullOnce, IdTold, IndexTold, Explained;
    assert KeyTold(t, parts, |parts|, who, k) && KeyOk(t, k);
    var b := t.builders[k];
    if b.index.Some? {
      i := IndexLeads(t, parts, who, b.index.value);
    } else {
      i :| 0 <= i < |who| && Of(b, who[i]);
    }
    assert IdOk(t, who[i].id) && Agrees(t, who[i]);
    if who[i].index.Some? {
      assert IndexOk(t, who[i].index.value);
    }
  }

  lemma {:induction false} SameOwn(parts: seq<Part>, a: Identity, b: Identity)
    requires forall l :: 0 <= l < |parts| ==> (Belongs(parts[l], a) <==> Belongs(parts[l], b))
    ensures Own(parts, a) == Own(parts, b)
  {
    hide Belongs;
    if parts != [] {
      SameOwn(parts[..|parts| - 1], a, b);
    }
  }

  /** Distinct strings found among others are no more than these. */
  lemma {:induction false} NoMore(ids: seq<string>, among: seq<string>)
    requires forall i, j :: 0 <= i < j < |ids| ==> ids[i] != ids[j]
    requires forall i :: 0 <= i < |ids| ==> ids[i] in among
    ensures |ids| <= |among|
  {
    if ids != [] {
      var last := ids[|ids| - 1];
      var j :| 0 <= j < |among| && among[j] == last;
      var rest := among[..j] + among[j + 1..];
      var others := ids[..|ids| - 1];
      forall i | 0 <= i < |others| ensures others[i] in rest {
        var l :| 0 <= l < |among| && among[l] == others[i];
        assert rest[if l < j then l else l - 1] == among[l];
      }
      NoMore(others, rest);
    }
  }

  /** What is sound assembles. */
  lemma SoundAssembles(parts: seq<Part>, who: seq<Identity>, json: string -> bool)
    requires Sound(parts, who, json)
    ensures Assemble(parts, json).Ok?
  {
    hide Inv, Told, Linked, Explained, FullOnce, Finalize, Collect, Usable, SoundCall, DistinctWho;
    SoundApart(parts, who, json);
    CollectTold(parts, |parts|, who);
    assert parts[..|parts|] == parts;
    var t := Collect(parts).value;
    InvOrdered(t);
    forall i | 0 <= i < |t.order| ensures Usable(t.builders[t.order[i]], json) {
      SoundUsable(parts, who, json, t.order[i]);
    }
    SoundFew(t, parts, who);
    FinalizeOk(t, json, |t.order|);
  }

  lemma SoundApart(parts: seq<Part>, who: seq<Identity>, json: string -> bool)
    requires Sound(parts, who, json)
    ensures Apart(parts, who)
  {
    hide Linked, Explained, FullOnce, DistinctWho, Spells, Own;
    forall i | 0 <= i < |who| ensures who[i].id != "" && Linked(parts, who[i]) {
      assert SoundCall(parts, who[i], json);
    }
  }

  lemma SoundFew(t: Table, parts: seq<Part>, who: seq<Identity>)
    requires Inv(t) && Ordered(t) && Told(t, parts, |parts|, who) && Apart(parts, who)
    ensures |t.order| <= |who|
  {
    hide Inv, Told, Apart;
    var ids := seq(|t.order|, i requires 0 <= i < |t.order| => t.builders[t.order[i]].id);
    var among := seq(|who|, i requires 0 <= i < |who| => who[i].id);
    forall i | 0 <= i < |ids| ensures ids[i] in among {
      var m := IdKnown(t, parts, who, t.order[i]);
      assert among[m] == ids[i];
    }
    CleanTold(t, parts, who);
    forall i, j | 0 <= i < j < |ids| ensures ids[i] != ids[j] {
      DistinctIdentities(t, t.order[i], t.order[j]);
    }
    NoMore(ids, among);
  }

  lemma CleanTold(t: Table, parts: seq<Part>, who: seq<Identity>)
    requires Inv(t) && Told(t, parts, |parts|, who) && Apart(parts, who)
    ensures Clean(t)
  {
    hide Inv, Told, Apart;
    forall k | k in t.builders ensures !t.builders[k].conflict && t.builders[k].id != "" {
      var m := IdKnown(t, parts, who, k);
    }
  }

  lemma SoundUsable(parts: seq<Part>, who: seq<Identity>, json: string -> bool, k: Key)
    requires Sound(parts, who, json) && Apart(parts, who) && Collect(parts).Some?
    requires var t := Collect(parts).value; Inv(t) && Told(t, parts, |parts|, who) && k in t.builders
    ensures Usable(Collect(parts).value.builders[k], json)
  {
    hide Inv, Told, Apart, Collect, Explained, FullOnce, DistinctWho, Linked, Spells, LastNamed, Introduced, Own, Blank;
    var t := Collect(parts).value;
    CleanTold(t, parts, who);
    OwnIntroduced(parts, k);
    var i := IdKnown(t, parts, who, k);
    assert SoundCall(parts, who[i], json);
    OwnEither(t, parts, who, k, i);
  }

  lemma OwnEither(t: Table, parts: seq<Part>, who: seq<Identity>, k: Key, i: nat)
    requires Told(t, parts, |parts|, who) && k in t.builders && i < |who| && t.builders[k].id == who[i].id
    requires t.builders[k].index.Some? ==> t.builders[k].index == who[i].index
    requires who[i].index.Some? && who[i].index.value in t.indexKeys ==> t.builders[k].index == who[i].index
    ensures Own(parts, IdentityOf(t.builders[k])) == Own(parts, who[i])
  {
    hide IdTold, KeyTold, Agrees, Own;
    forall l | 0 <= l < |parts| ensures Belongs(parts[l], IdentityOf(t.builders[k])) <==> Belongs(parts[l], who[i]) {
      if parts[l].Index().Some? {
        assert IndexTold(t, parts, |parts|, parts[l].Index().value);
      }
    }
    SameOwn(parts, IdentityOf(t.builders[k]), who[i]);
  }

  /** A stream assembles exactly when it can be told apart into calls: every event is one call's
      and contradicts none, no id has two complete calls, ids are not blank, an index is linked
      to its id in time, what each call spells is nothing or valid, and the calls are few enough. */
  lemma AssemblesIff(parts: seq<Part>, json: string -> bool)
    ensures Assemble(parts, json).Ok? <==> exists who :: Sound(parts, who, json)
  {
    hide Assemble, Sound;
    if Assemble(parts, json).Ok? {
      var who := AssembledSound(parts, json);
    }
    forall who | Sound(parts, who, json) ensures Assemble(parts, json).Ok? {
      SoundAssembles(parts, who, json);
    }
  }
}
