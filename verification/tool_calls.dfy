/** Assembling tool calls from a provider's event stream through id and index bindings. */
module ToolCallAssembly {
  import opened Text

  const MAX_TOOL_CALLS: nat := 1024

  /** One tool-call event: a complete call, or a fragment. */
  datatype Part =
    | Full(id: string, name: string, arguments: string)
    | Delta(id: string, index: Option<int>, name: string, arguments: string)
  {
    function Index(): Option<int> { if Full? then None else index }
  }

  /** The name a builder is filed under; the three kinds never collide. */
  datatype Key = ById(id: string) | ByIndex(index: int) | Synthetic(number: nat)

  datatype Builder = Builder(id: string, index: Option<int>, name: string, arguments: string, fullSeen: bool, conflict: bool)

  const EMPTY := Builder("", None, "", "", false, false)

  datatype Table = Table(
    builders: map<Key, Builder>,
    order: seq<Key>,
    idKeys: map<string, Key>,
    indexKeys: map<int, Key>,
    synthetic: nat)

  const START := Table(map[], [], map[], map[], 0)

  // ---- which builder an event belongs to ----

  datatype Resolved = Resolved(key: Key, table: Table)

  /** The id is known: the index must agree with it. */
  function ResolveId(t: Table, id: string, index: Option<int>): Resolved
    requires id in t.idKeys && t.idKeys[id] in t.builders
  {
    var key := t.idKeys[id];
    var b := t.builders[key];
    if index.None? then Resolved(key, t)
    else
      var i := index.value;
      if (i in t.indexKeys && t.indexKeys[i] != key) || (b.index.Some? && b.index.value != i)
      then Resolved(key, t.(builders := t.builders[key := b.(conflict := true)]))
      else Resolved(key, t.(builders := t.builders[key := b.(index := Some(i))], indexKeys := t.indexKeys[i := key]))
  }

  /** Only the index is known: a new id must agree with it. */
  function ResolveIndex(t: Table, id: string, i: int): Resolved
    requires i in t.indexKeys && t.indexKeys[i] in t.builders
  {
    var key := t.indexKeys[i];
    var b := t.builders[key];
    if id == "" then Resolved(key, t)
    else if (id in t.idKeys && t.idKeys[id] != key) || (b.id != "" && b.id != id)
    then Resolved(key, t.(builders := t.builders[key := b.(conflict := true)]))
    else Resolved(key, t.(builders := t.builders[key := b.(id := id)], idKeys := t.idKeys[id := key]))
  }

  function NewKey(t: Table, id: string, index: Option<int>): Key {
    if id != "" then ById(id) else if index.Some? then ByIndex(index.value) else Synthetic(t.synthetic)
  }

  function ResolveNew(t: Table, id: string, index: Option<int>): Resolved {
    var key := NewKey(t, id, index);
    var t' := t.(synthetic := if key.Synthetic? then t.synthetic + 1 else t.synthetic);
    if key in t.builders then Resolved(key, t')
    else
      Resolved(key, t'.(builders := t.builders[key := EMPTY.(id := id, index := index)],
                        order := t.order + [key],
                        idKeys := if id != "" then t.idKeys[id := key] else t.idKeys,
                        indexKeys := if index.Some? then t.indexKeys[index.value := key] else t.indexKeys))
  }

  function Resolve(t: Table, id: string, index: Option<int>): Resolved {
    if id != "" && id in t.idKeys && t.idKeys[id] in t.builders then ResolveId(t, id, index)
    else if index.Some? && index.value in t.indexKeys && t.indexKeys[index.value] in t.builders
    then ResolveIndex(t, id, index.value)
    else ResolveNew(t, id, index)
  }

  /** What an event does to the builder it belongs to. */
  function Merge(b: Builder, p: Part): Builder {
    var named := b.(id := if p.id != "" then p.id else b.id, name := if p.name != "" then p.name else b.name);
    match p
    case Full(_, _, arguments) => named.(arguments := if arguments != "" then arguments else b.arguments, fullSeen := true)
    case Delta(_, index, _, arguments) =>
      named.(index := if index.Some? then index else b.index, arguments := b.arguments + arguments)
  }

  /** One event; a second complete call for one builder is an error. */
  function Apply(t: Table, p: Part): Option<Table> {
    var r := Resolve(t, p.id, p.Index());
    var b := r.table.builders[r.key];
    if p.Full? && b.fullSeen then None
    else Some(r.table.(builders := r.table.builders[r.key := Merge(b, p)]))
  }

  function Collect(parts: seq<Part>): Option<Table> {
    if parts == [] then Some(START)
    else
      var before := Collect(parts[..|parts| - 1]);
      if before.None? then None else Apply(before.value, parts[|parts| - 1])
  }

  // ---- the calls ----

  datatype Call = Call(id: string, name: string, arguments: string)
  datatype Error = Duplicate | Conflict | MissingId | InvalidArguments | TooMany
  datatype Outcome = Ok(calls: seq<Call>) | Err(error: Error)

  function CallOf(b: Builder): Call { Call(b.id, b.name, b.arguments) }

  /** The calls of the first `n` builders in arrival order; `json` tells valid arguments. */
  function Finalize(t: Table, json: string -> bool, n: nat): (o: Outcome)
    requires n <= |t.order|
    ensures o.Ok? ==> |o.calls| <= n
  {
    if n == 0 then Ok([])
    else
      var before := Finalize(t, json, n - 1);
      var key := t.order[n - 1];
      if before.Err? || key !in t.builders then before
      else
        var b := t.builders[key];
        if b.conflict then Err(Conflict)
        else if Blank(b.id) then Err(MissingId)
        else if b.arguments != "" && !json(b.arguments) then Err(InvalidArguments)
        else if |before.calls| >= MAX_TOOL_CALLS then Err(TooMany)
        else Ok(before.calls + [CallOf(b)])
  }

  function Assemble(parts: seq<Part>, json: string -> bool): Outcome {
    var t := Collect(parts);
    if t.None? then Err(Duplicate) else Finalize(t.value, json, |t.value.order|)
  }

  // ---- what every table keeps ----

  ghost predicate Ordered(t: Table) {
    && (forall k :: k in t.order <==> k in t.builders)
    && (forall i, j :: 0 <= i < j < |t.order| ==> t.order[i] != t.order[j])
  }

  /** A bound id leads to a builder, whose own id it is unless the builder is in conflict. */
  ghost predicate IdOk(t: Table, id: string) {
    id in t.idKeys ==>
      && id != "" && t.idKeys[id] in t.builders && !t.idKeys[id].Synthetic?
      && (t.builders[t.idKeys[id]].conflict || t.builders[t.idKeys[id]].id == id)
  }

  ghost predicate IndexOk(t: Table, i: int) {
    i in t.indexKeys ==>
      && t.indexKeys[i] in t.builders && !t.indexKeys[i].Synthetic?
      && (t.builders[t.indexKeys[i]].conflict || t.builders[t.indexKeys[i]].index == Some(i))
  }

  /** A builder's own id and index are bound to it unless it is in conflict, and its key is
      filed where its events will be found again; a synthetic one never is. */
  ghost predicate KeyOk(t: Table, k: Key) {
    k in t.builders ==>
      && var b := t.builders[k];
      && (b.conflict || b.id == "" || (b.id in t.idKeys && t.idKeys[b.id] == k))
      && (b.conflict || b.index.None? || (b.index.value in t.indexKeys && t.indexKeys[b.index.value] == k))
      && match k
         case ById(id) => id in t.idKeys
         case ByIndex(i) => i in t.indexKeys
         case Synthetic(n) => n < t.synthetic && b.id == ""
  }

  ghost predicate Inv(t: Table) {
    && Ordered(t)
    && (forall id {:trigger IdOk(t, id)} :: IdOk(t, id))
    && (forall i {:trigger IndexOk(t, i)} :: IndexOk(t, i))
    && (forall k {:trigger KeyOk(t, k)} :: KeyOk(t, k))
  }

  /** The builder at `k`, or an empty one. */
  function At(t: Table, k: Key): Builder {
    if k in t.builders then t.builders[k] else EMPTY
  }

  /** The key an event resolves to. */
  function KeyFor(t: Table, p: Part): Key {
    Resolve(t, p.id, p.Index()).key
  }

  /** A step from `t` to `t'` that touches the builder at `k` alone. */
  ghost predicate Touches(t: Table, t': Table, k: Key) {
    && k in t'.builders
    && var b := t'.builders[k];
    && t'.builders == t.builders[k := b]
    && t'.order == (if k in t.builders then t.order else t.order + [k])
    && (t'.idKeys == t.idKeys || (b.id != "" && b.id !in t.idKeys && t'.idKeys == t.idKeys[b.id := k]))
    && (t'.indexKeys == t.indexKeys
        || (b.index.Some? && (b.index.value in t.indexKeys ==> t.indexKeys[b.index.value] == k)
            && t'.indexKeys == t.indexKeys[b.index.value := k]))
    && t.synthetic <= t'.synthetic
    && (k.Synthetic? ==> t'.idKeys == t.idKeys && t'.indexKeys == t.indexKeys)
    && (At(t, k).conflict ==> b.conflict)
    && (b.conflict || At(t, k).id == "" || b.id == At(t, k).id)
    && (b.conflict || At(t, k).index.None? || b.index == At(t, k).index)
  }

  /** An event without conflict is merged into the builder its id and index are bound to. */
  ghost predicate Merges(t: Table, t': Table, k: Key, p: Part)
    requires k in t'.builders
  {
    && (p.Full? ==> !At(t, k).fullSeen)
    && (p.id == "" && p.Index().None? ==> k.Synthetic?)
    && (!t'.builders[k].conflict ==>
      && t'.builders[k] == Merge(At(t, k), p)
      && (p.id != "" ==> p.id in t'.idKeys && t'.idKeys[p.id] == k)
      && (p.Index().Some? ==> p.Index().value in t'.indexKeys && t'.indexKeys[p.Index().value] == k))
  }

  lemma TouchesId(t: Table, t': Table, k: Key, id: string)
    requires Touches(t, t', k) && IdOk(t, id)
    ensures IdOk(t', id)
  {
  }

  lemma TouchesIndex(t: Table, t': Table, k: Key, i: int)
    requires Touches(t, t', k) && IndexOk(t, i)
    ensures IndexOk(t', i)
  {
  }

  lemma TouchesKey(t: Table, t': Table, k: Key, j: Key)
    requires Touches(t, t', k) && KeyOk(t, j) && j != k
    ensures KeyOk(t', j)
  {
  }

  lemma TouchesKeeps(t: Table, t': Table, k: Key)
    requires Inv(t) && Touches(t, t', k) && KeyOk(t', k)
    ensures Inv(t')
  {
    forall id ensures IdOk(t', id) { hide Touches; assert IdOk(t, id); TouchesId(t, t', k, id); }
    forall i ensures IndexOk(t', i) { hide Touches; assert IndexOk(t, i); TouchesIndex(t, t', k, i); }
    forall j ensures KeyOk(t', j) {
      hide Touches;
      assert KeyOk(t, j);
      if j != k {
        TouchesKey(t, t', k, j);
      }
    }
    hide IdOk, IndexOk, KeyOk;
    TouchesOrder(t, t', k);
  }

  lemma TouchesOrder(t: Table, t': Table, k: Key)
    requires Ordered(t) && Touches(t, t', k)
    ensures Ordered(t')
  {
  }

  lemma ApplyId(t: Table, p: Part)
    requires IdOk(t, p.id) && p.id != "" && p.id in t.idKeys && Apply(t, p).Some? && KeyOk(t, t.idKeys[p.id])
    ensures var t', k := Apply(t, p).value, KeyFor(t, p);
            Touches(t, t', k) && KeyOk(t', k) && Merges(t, t', k, p)
  {
  }

  lemma ApplyIndex(t: Table, p: Part)
    requires p.id !in t.idKeys && p.Index().Some? && p.Index().value in t.indexKeys && Apply(t, p).Some?
    requires IndexOk(t, p.Index().value) && KeyOk(t, t.indexKeys[p.Index().value])
    ensures var t', k := Apply(t, p).value, KeyFor(t, p);
            Touches(t, t', k) && KeyOk(t', k) && Merges(t, t', k, p)
  {
  }

  lemma ApplyNew(t: Table, p: Part)
    requires p.id !in t.idKeys && (p.Index().Some? ==> p.Index().value !in t.indexKeys) && Apply(t, p).Some?
    requires KeyOk(t, KeyFor(t, p))
    ensures var t', k := Apply(t, p).value, KeyFor(t, p);
            k !in t.builders && Touches(t, t', k) && KeyOk(t', k) && Merges(t, t', k, p)
  {
  }

  lemma ApplyKeeps(t: Table, p: Part)
    requires Inv(t) && Apply(t, p).Some?
    ensures var t', k := Apply(t, p).value, KeyFor(t, p);
            Inv(t') && Touches(t, t', k) && Merges(t, t', k, p)
  {
    hide Apply, Touches, Merges, Resolve;
    assert IdOk(t, "") && IdOk(t, p.id) && KeyOk(t, KeyFor(t, p));
    if p.id in t.idKeys {
      assert KeyOk(t, t.idKeys[p.id]);
      ApplyId(t, p);
    } else if p.Index().Some? && p.Index().value in t.indexKeys {
      assert IndexOk(t, p.Index().value) && KeyOk(t, t.indexKeys[p.Index().value]);
      ApplyIndex(t, p);
    } else {
      ApplyNew(t, p);
    }
    TouchesKeeps(t, Apply(t, p).value, KeyFor(t, p));
  }

  // ---- whole streams ----

  /** Bindings are never taken back, and neither are conflicts. */
  ghost predicate Grows(t: Table, t': Table) {
    && (forall id :: id in t.idKeys ==> id in t'.idKeys && t'.idKeys[id] == t.idKeys[id])
    && (forall i :: i in t.indexKeys ==> i in t'.indexKeys && t'.indexKeys[i] == t.indexKeys[i])
    && (forall k :: k in t.builders ==> k in t'.builders && (t.builders[k].conflict ==> t'.builders[k].conflict))
  }

  lemma TouchesGrows(t: Table, t': Table, k: Key)
    requires Touches(t, t', k)
    ensures Grows(t, t')
  {
  }

  lemma StartInv()
    ensures Inv(START)
  {
  }

  lemma {:induction false} CollectInv(parts: seq<Part>)
    requires Collect(parts).Some?
    ensures Inv(Collect(parts).value)
  {
    hide Apply, Inv;
    if parts == [] {
      StartInv();
    } else {
      CollectInv(parts[..|parts| - 1]);
      ApplyKeeps(Collect(parts[..|parts| - 1]).value, parts[|parts| - 1]);
    }
  }

  lemma {:induction false} CollectGrows(parts: seq<Part>, n: nat)
    requires n <= |parts| && Collect(parts).Some?
    ensures Collect(parts[..n]).Some? && Grows(Collect(parts[..n]).value, Collect(parts).value)
    decreases |parts| - n
  {
    hide Apply, Inv, Touches, Merges;
    var last := |parts| - 1;
    if n == |parts| {
      assert parts[..n] == parts;
    } else {
      CollectGrows(parts[..last], n);
      assert parts[..last][..n] == parts[..n];
      CollectInv(parts[..last]);
      var t := Collect(parts[..last]).value;
      ApplyKeeps(t, parts[last]);
      TouchesGrows(t, Collect(parts).value, KeyFor(t, parts[last]));
    }
  }

  // ---- what a call is, without tables ----

  datatype Identity = Identity(id: string, index: Option<int>)

  /** An event is a call's own by its id, or without one by its index. */
  predicate Belongs(p: Part, who: Identity) {
    if p.id != "" then p.id == who.id else p.Index().Some? && p.Index() == who.index
  }

  function Own(parts: seq<Part>, who: Identity): seq<Part> {
    if parts == [] then []
    else
      var last := parts[|parts| - 1];
      Own(parts[..|parts| - 1], who) + (if Belongs(last, who) then [last] else [])
  }

  /** The events of one call, merged in order. */
  function MergeAll(parts: seq<Part>): Builder {
    if parts == [] then EMPTY else Merge(MergeAll(parts[..|parts| - 1]), parts[|parts| - 1])
  }

  lemma MergeAllPush(parts: seq<Part>, p: Part)
    ensures MergeAll(parts + [p]) == Merge(MergeAll(parts), p)
  {
    assert (parts + [p])[..|parts|] == parts;
  }

  /** No two complete calls among these events. */
  ghost predicate OneFull(parts: seq<Part>) {
    forall i, j :: 0 <= i < j < |parts| ==> !(parts[i].Full? && parts[j].Full?)
  }

  lemma OneFullPush(parts: seq<Part>, p: Part)
    requires OneFull(parts) && (p.Full? ==> !MergeAll(parts).fullSeen)
    ensures OneFull(parts + [p])
  {
    if p.Full? {
      NoneFull(parts);
    }
  }

  lemma {:induction false} NoneFull(parts: seq<Part>)
    ensures !MergeAll(parts).fullSeen ==> forall i :: 0 <= i < |parts| ==> !parts[i].Full?
  {
    if parts != [] {
      NoneFull(parts[..|parts| - 1]);
    }
  }

  ghost predicate Clean(t: Table) {
    forall k :: k in t.builders ==> !t.builders[k].conflict && t.builders[k].id != ""
  }

  function IdentityOf(b: Builder): Identity { Identity(b.id, b.index) }

  /** In a clean table an event belongs to the builder it was merged into and to no other. */
  lemma BelongsIff(t: Table, q: Table, p: Part, at: Key, k: Key)
    requires Inv(t) && Clean(t) && Grows(q, t) && k in t.builders && at in t.builders
    requires (p.id == "" && p.Index().None?) ==> at.Synthetic?
    requires p.id != "" ==> p.id in q.idKeys && q.idKeys[p.id] == at
    requires p.Index().Some? ==> p.Index().value in q.indexKeys && q.indexKeys[p.Index().value] == at
    ensures Belongs(p, IdentityOf(t.builders[k])) <==> at == k
    ensures p.Index().Some? && at == k ==> t.builders[k].index == p.Index()
  {
    hide Ordered;
    assert IdOk(t, p.id) && KeyOk(t, k) && KeyOk(t, at);
    if p.Index().Some? {
      assert IndexOk(t, p.Index().value);
    }
  }

  /** What `t` says about the first `n` events: each builder merged its own, and only those. */
  ghost predicate Separates(parts: seq<Part>, t: Table, q: Table, k: Key)
    requires k in t.builders
  {
    var own := Own(parts, IdentityOf(t.builders[k]));
    At(q, k) == MergeAll(own) && OneFull(own)
  }

  lemma {:induction false} OwnEventsOnly(parts: seq<Part>, n: nat, k: Key)
    requires n <= |parts| && Collect(parts).Some? && Clean(Collect(parts).value) && k in Collect(parts).value.builders
    ensures Collect(parts[..n]).Some? && Separates(parts[..n], Collect(parts).value, Collect(parts[..n]).value, k)
    decreases n
  {
    hide Apply, Inv, Merge, Touches, Merges, Belongs, Grows, Clean, Own, MergeAll, OneFull;
    CollectGrows(parts, n);
    var t := Collect(parts).value;
    CollectInv(parts);
    if n == 0 {
      NoParts(IdentityOf(t.builders[k]));
    } else {
      OwnEventsOnly(parts, n - 1, k);
      OwnEventNext(parts, n, k);
    }
  }

  lemma NoParts(who: Identity)
    ensures Own([], who) == [] && MergeAll([]) == EMPTY && OneFull([])
  {
  }

  lemma MergedInto(parts: seq<Part>, n: nat)
    requires 0 < n <= |parts| && Collect(parts).Some? && Clean(Collect(parts).value)
    ensures Collect(parts[..n]).Some? && Collect(parts[..n - 1]).Some?
    ensures var t, q, q', p := Collect(parts).value, Collect(parts[..n - 1]).value, Collect(parts[..n]).value, parts[n - 1];
            var at := KeyFor(q, p);
            && Inv(t) && Grows(q', t) && at in q'.builders && at in t.builders
            && Touches(q, q', at) && Merges(q, q', at, p) && !q'.builders[at].conflict
  {
    hide Apply, Inv, Touches, Merges;
    CollectGrows(parts, n);
    CollectGrows(parts, n - 1);
    CollectInv(parts);
    CollectInv(parts[..n - 1]);
    assert parts[..n][..n - 1] == parts[..n - 1];
    var q, p := Collect(parts[..n - 1]).value, parts[n - 1];
    ApplyKeeps(q, p);
    TouchedThere(q, Collect(parts[..n]).value, KeyFor(q, p));
  }

  lemma TouchedThere(t: Table, t': Table, k: Key)
    requires Touches(t, t', k)
    ensures k in t'.builders
  {
  }

  lemma OwnNext(parts: seq<Part>, n: nat, who: Identity)
    requires 0 < n <= |parts|
    ensures Own(parts[..n], who) ==
            if Belongs(parts[n - 1], who) then Own(parts[..n - 1], who) + [parts[n - 1]] else Own(parts[..n - 1], who)
  {
    assert parts[..n][..n - 1] == parts[..n - 1];
  }

  lemma OwnEventNext(parts: seq<Part>, n: nat, k: Key)
    requires 0 < n <= |parts| && Collect(parts).Some? && Clean(Collect(parts).value) && k in Collect(parts).value.builders
    requires Collect(parts[..n]).Some? && Collect(parts[..n - 1]).Some?
    requires Separates(parts[..n - 1], Collect(parts).value, Collect(parts[..n - 1]).value, k)
    ensures Separates(parts[..n], Collect(parts).value, Collect(parts[..n]).value, k)
  {
    hide Apply, Inv, Merge, Belongs, Grows, Clean, MergeAll, OneFull, Collect, Resolve;
    var t, q, q', p := Collect(parts).value, Collect(parts[..n - 1]).value, Collect(parts[..n]).value, parts[n - 1];
    var at := KeyFor(q, p);
    MergedInto(parts, n);
    BelongsIff(t, q', p, at, k);
    var who := IdentityOf(t.builders[k]);
    var own := Own(parts[..n - 1], who);
    OwnNext(parts, n, who);
    if at == k {
      MergeAllPush(own, p);
      OneFullPush(own, p);
    }
  }

  // ---- identity ----

  predicate Usable(b: Builder, json: string -> bool) {
    !b.conflict && !Blank(b.id) && (b.arguments == "" || json(b.arguments))
  }

  lemma FinalizeNext(t: Table, json: string -> bool, n: nat)
    requires n < |t.order| && t.order[n] in t.builders
    ensures var before, b := Finalize(t, json, n), t.builders[t.order[n]];
            && (Finalize(t, json, n + 1).Ok? <==> before.Ok? && Usable(b, json) && |before.calls| < MAX_TOOL_CALLS)
            && (Finalize(t, json, n + 1).Ok? ==> Finalize(t, json, n + 1).calls == before.calls + [CallOf(b)])
  {
    hide Blank;
  }

  /** The calls of a finished table are its builders in arrival order. */
  lemma {:induction false} FinalizeCalls(t: Table, json: string -> bool, n: nat)
    requires n <= |t.order| && forall i :: 0 <= i < |t.order| ==> t.order[i] in t.builders
    ensures Finalize(t, json, n).Ok? ==>
            && |Finalize(t, json, n).calls| == n
            && forall i :: 0 <= i < n ==> Finalize(t, json, n).calls[i] == CallOf(t.builders[t.order[i]])
  {
    if n > 0 {
      hide Usable, CallOf, Finalize;
      FinalizeCalls(t, json, n - 1);
      FinalizeNext(t, json, n - 1);
    }
  }

  /** It finishes exactly when every builder is usable and they are not too many. */
  lemma {:induction false} FinalizeOk(t: Table, json: string -> bool, n: nat)
    requires n <= |t.order| && forall i :: 0 <= i < |t.order| ==> t.order[i] in t.builders
    ensures Finalize(t, json, n).Ok? <==>
            n <= MAX_TOOL_CALLS && forall i :: 0 <= i < n ==> Usable(t.builders[t.order[i]], json)
    ensures Finalize(t, json, n).Ok? ==>
            && |Finalize(t, json, n).calls| == n
            && forall i :: 0 <= i < n ==> Finalize(t, json, n).calls[i] == CallOf(t.builders[t.order[i]])
  {
    FinalizeCalls(t, json, n);
    if n > 0 {
      hide Usable, CallOf, Finalize;
      FinalizeOk(t, json, n - 1);
      FinalizeNext(t, json, n - 1);
    }
  }

  /** Pairwise different ids, and pairwise different indexes. */
  ghost predicate DistinctWho(who: seq<Identity>) {
    forall i, j :: 0 <= i < j < |who| ==>
      who[i].id != who[j].id && (who[i].index.Some? ==> who[i].index != who[j].index)
  }

  /** The event belongs to one of these, and contradicts none. */
  ghost predicate Explained(p: Part, who: seq<Identity>) {
    && (exists i :: 0 <= i < |who| && Belongs(p, who[i]))
    && (forall i :: 0 <= i < |who| && Belongs(p, who[i]) && p.Index().Some? ==> p.Index() == who[i].index)
  }

  /** The arguments of these events, one after the other. */
  function Joined(own: seq<Part>): string {
    if own == [] then "" else own[0].arguments + Joined(own[1..])
  }

  /** A complete call that brings arguments of its own. */
  predicate Restarts(p: Part) {
    p.Full? && p.arguments != ""
  }

  /** The arguments are those of the last complete call that has any, and of every fragment
      after it, in arrival order; of all fragments when there is no such call. */
  ghost predicate Spells(own: seq<Part>, arguments: string) {
    exists from: nat ::
      && from <= |own| && (from > 0 ==> from < |own| && Restarts(own[from]))
      && (forall i :: from < i < |own| ==> !Restarts(own[i]))
      && arguments == Joined(own[from..])
  }

  /** The name is the last one given, if any is. */
  ghost predicate LastNamed(own: seq<Part>, name: string) {
    if forall i :: 0 <= i < |own| ==> own[i].name == "" then name == ""
    else exists i :: 0 <= i < |own| && own[i].name == name != "" && forall j :: i < j < |own| ==> own[j].name == ""
  }

  /** Some event names the id, and some the index if there is one. */
  ghost predicate Introduced(own: seq<Part>, who: Identity) {
    && (exists i :: 0 <= i < |own| && own[i].id == who.id)
    && (who.index.Some? ==> exists i :: 0 <= i < |own| && own[i].Index() == who.index)
  }

  lemma {:induction false} JoinedPush(own: seq<Part>, p: Part)
    ensures Joined(own + [p]) == Joined(own) + p.arguments
  {
    if own == [] {
      assert [p][1..] == [] && Joined([]) == "";
      assert Joined([p]) == p.arguments + "" && [] + [p] == [p];
    } else {
      JoinedPush(own[1..], p);
      assert (own + [p])[1..] == own[1..] + [p];
    }
  }

  lemma SpellsPush(own: seq<Part>, arguments: string, p: Part)
    requires Spells(own, arguments)
    ensures Spells(own + [p], if Restarts(p) then p.arguments else arguments + p.arguments)
  {
    hide Joined;
    var all := own + [p];
    if Restarts(p) {
      JoinedPush([], p);
      NothingJoined();
      assert all[|own|..] == [p] && [] + [p] == [p] && "" + p.arguments == p.arguments;
    } else {
      var from: nat :|
        && from <= |own| && (from > 0 ==> from < |own| && Restarts(own[from]))
        && (forall i :: from < i < |own| ==> !Restarts(own[i]))
        && arguments == Joined(own[from..]);
      JoinedPush(own[from..], p);
      assert all[from..] == own[from..] + [p];
    }
  }

  lemma NothingJoined()
    ensures Joined([]) == ""
  {
  }

  lemma LastNamedPush(own: seq<Part>, name: string, p: Part)
    requires LastNamed(own, name)
    ensures LastNamed(own + [p], if p.name != "" then p.name else name)
  {
    var all := own + [p];
    if p.name != "" {
      assert all[|own|].name == p.name;
    } else if i :| 0 <= i < |own| && own[i].name != "" {
      assert all[i].name != "";
      var k :| 0 <= k < |own| && own[k].name == name != "" && forall j :: k < j < |own| ==> own[j].name == "";
      assert all[k].name == name;
    }
  }

  ghost predicate Mentions(own: seq<Part>, b: Builder) {
    && (b.id != "" ==> exists i :: 0 <= i < |own| && own[i].id == b.id)
    && (b.index.Some? ==> exists i :: 0 <= i < |own| && own[i].Index() == b.index)
  }

  lemma MentionsPush(own: seq<Part>, b: Builder, p: Part)
    requires Mentions(own, b)
    ensures Mentions(own + [p], Merge(b, p))
  {
    var all := own + [p];
    assert all[|own|] == p;
    forall i | 0 <= i < |own| ensures all[i] == own[i] {
    }
  }

  lemma MergeSpells(b: Builder, p: Part)
    ensures Merge(b, p).arguments == (if Restarts(p) then p.arguments else b.arguments + p.arguments)
    ensures Merge(b, p).name == (if p.name != "" then p.name else b.name)
  {
    assert b.arguments + "" == b.arguments;
  }

  /** What merging events comes to, said without merging. */
  ghost predicate Comes(own: seq<Part>, b: Builder) {
    Spells(own, b.arguments) && LastNamed(own, b.name) && Mentions(own, b)
  }

  lemma ComesPush(own: seq<Part>, b: Builder, p: Part)
    requires Comes(own, b)
    ensures Comes(own + [p], Merge(b, p))
  {
    hide Spells, LastNamed, Mentions, Merge, Restarts;
    SpellsPush(own, b.arguments, p);
    LastNamedPush(own, b.name, p);
    MentionsPush(own, b, p);
    MergeSpells(b, p);
  }

  lemma NothingComes()
    ensures Comes([], EMPTY)
  {
    NothingJoined();
    var none: seq<Part> := [];
    assert none[0..] == [];
    assert Spells(none, "");
  }

  lemma {:induction false} MergedComes(own: seq<Part>)
    ensures Comes(own, MergeAll(own))
  {
    hide Comes, Merge;
    if own == [] {
      NothingComes();
    } else {
      MergedComes(own[..|own| - 1]);
      ComesPush(own[..|own| - 1], MergeAll(own[..|own| - 1]), own[|own| - 1]);
      assert own == own[..|own| - 1] + [own[|own| - 1]];
    }
  }

  /** The events kept are those that belong, each once and in arrival order: they lie at
      increasing places, and every event that belongs lies at one of them. */
  ghost predicate Picks(parts: seq<Part>, who: Identity, own: seq<Part>, at: seq<nat>) {
    && |at| == |own| && (forall i, j :: 0 <= i < j < |at| ==> at[i] < at[j])
    && (forall i :: 0 <= i < |at| ==> at[i] < |parts| && own[i] == parts[at[i]] && Belongs(own[i], who))
    && (forall n: nat :: n < |parts| && Belongs(parts[n], who) ==> n in at)
  }

  lemma {:induction false} OwnPicks(parts: seq<Part>, n: nat, who: Identity) returns (at: seq<nat>)
    requires n <= |parts|
    ensures Picks(parts[..n], who, Own(parts[..n], who), at)
    decreases n
  {
    hide Own, Picks, Belongs;
    if n == 0 {
      NothingPicked(who);
      assert parts[..0] == [];
      at := [];
    } else {
      at := OwnPicks(parts, n - 1, who);
      PicksPush(parts[..n - 1], who, Own(parts[..n - 1], who), at, parts[n - 1]);
      assert parts[..n] == parts[..n - 1] + [parts[n - 1]];
      OwnNext(parts, n, who);
      at := if Belongs(parts[n - 1], who) then at + [n - 1] else at;
    }
  }

  lemma NothingPicked(who: Identity)
    ensures Picks([], who, Own([], who), [])
  {
  }

  /** An identity's own events are exactly those that belong to it, in arrival order. */
  lemma OwnAre(parts: seq<Part>, who: Identity) returns (at: seq<nat>)
    ensures Picks(parts, who, Own(parts, who), at)
  {
    hide Own, Picks;
    at := OwnPicks(parts, |parts|, who);
    assert parts[..|parts|] == parts;
  }

  lemma PicksPush(parts: seq<Part>, who: Identity, own: seq<Part>, at: seq<nat>, p: Part)
    requires Picks(parts, who, own, at)
    ensures Picks(parts + [p], who, if Belongs(p, who) then own + [p] else own, if Belongs(p, who) then at + [|parts|] else at)
  {
    hide Belongs;
    var all := parts + [p];
    var own' := if Belongs(p, who) then own + [p] else own;
    var at' := if Belongs(p, who) then at + [|parts|] else at;
    forall i | 0 <= i < |at'| ensures at'[i] < |all| && own'[i] == all[at'[i]] && Belongs(own'[i], who) {
      if i < |at| {
        assert all[at[i]] == parts[at[i]];
      }
    }
    forall n: nat | n < |all| && Belongs(all[n], who) ensures n in at' {
      if n < |parts| {
        assert all[n] == parts[n];
      } else {
        assert at'[|at|] == n;
      }
    }
  }

  /** The call is the merge of this identity's own events: its name is the last one given, and
      its arguments are spelled by them in arrival order. */
  ghost predicate MergedFrom(parts: seq<Part>, who: Identity, call: Call) {
    var own := Own(parts, who);
    && !Blank(who.id) && call.id == who.id
    && call == CallOf(MergeAll(own)) && OneFull(own)
    && Introduced(own, who) && LastNamed(own, call.name) && Spells(own, call.arguments)
  }

  /** The first of these identities has an event before any of the second. */
  ghost predicate ArrivesBefore(parts: seq<Part>, first: Identity, second: Identity) {
    exists n :: 0 <= n < |parts| && Belongs(parts[n], first) && forall m :: 0 <= m <= n ==> !Belongs(parts[m], second)
  }

  /** What the calls are, said of the events alone: each event belongs to one identity, which
      no other event contradicts, each call is made of its own events, and the calls come in
      the order in which their first events do. */
  ghost predicate Explains(parts: seq<Part>, who: seq<Identity>, calls: seq<Call>) {
    && |who| == |calls| && DistinctWho(who)
    && (forall n :: 0 <= n < |parts| ==> Explained(parts[n], who))
    && (forall i :: 0 <= i < |who| ==> MergedFrom(parts, who[i], calls[i]))
    && (forall i, j :: 0 <= i < j < |who| ==> ArrivesBefore(parts, who[i], who[j]))
  }

  lemma EventBelongs(parts: seq<Part>, n: nat) returns (at: Key)
    requires n < |parts| && Collect(parts).Some? && Clean(Collect(parts).value)
    ensures Collect(parts[..n + 1]).Some? && at in Collect(parts[..n + 1]).value.builders
    ensures var t := Collect(parts).value;
            && at in t.builders
            && forall k :: k in t.builders ==>
                 && (Belongs(parts[n], IdentityOf(t.builders[k])) <==> k == at)
                 && (k == at && parts[n].Index().Some? ==> t.builders[k].index == parts[n].Index())
  {
    hide Apply, Inv, Touches, Belongs, Grows, Collect, Resolve;
    MergedInto(parts, n + 1);
    var t, q' := Collect(parts).value, Collect(parts[..n + 1]).value;
    at := KeyFor(Collect(parts[..n]).value, parts[n]);
    forall k | k in t.builders
      ensures Belongs(parts[n], IdentityOf(t.builders[k])) <==> k == at
      ensures k == at && parts[n].Index().Some? ==> t.builders[k].index == parts[n].Index()
    {
      BelongsIff(t, q', parts[n], at, k);
    }
  }

  lemma DistinctIdentities(t: Table, a: Key, b: Key)
    requires Inv(t) && Clean(t) && a in t.builders && b in t.builders && a != b
    ensures t.builders[a].id != t.builders[b].id
    ensures t.builders[a].index.Some? ==> t.builders[a].index != t.builders[b].index
  {
    assert KeyOk(t, a) && KeyOk(t, b);
  }

  lemma CleanWhenOk(t: Table, json: string -> bool)
    requires Ordered(t) && Finalize(t, json, |t.order|).Ok?
    ensures Clean(t)
  {
    FinalizeOk(t, json, |t.order|);
    forall k | k in t.builders ensures !t.builders[k].conflict && t.builders[k].id != "" {
      var i :| 0 <= i < |t.order| && t.order[i] == k;
    }
  }

  function Identities(t: Table): seq<Identity>
    requires forall k :: k in t.order ==> k in t.builders
  {
    seq(|t.order|, i requires 0 <= i < |t.order| => IdentityOf(t.builders[t.order[i]]))
  }

  lemma OwnCall(parts: seq<Part>, k: Key)
    requires Collect(parts).Some? && Clean(Collect(parts).value) && k in Collect(parts).value.builders
    ensures var b := Collect(parts).value.builders[k];
            b == MergeAll(Own(parts, IdentityOf(b))) && OneFull(Own(parts, IdentityOf(b)))
  {
    hide Clean, MergeAll, Own, OneFull, Collect;
    OwnEventsOnly(parts, |parts|, k);
    assert parts[..|parts|] == parts;
  }

  /** Tool-call identity: when assembly succeeds its calls are explained by their events. */
  lemma CallsExplained(parts: seq<Part>, json: string -> bool) returns (who: seq<Identity>)
    requires Assemble(parts, json).Ok?
    ensures Explains(parts, who, Assemble(parts, json).calls)
    ensures |who| <= MAX_TOOL_CALLS
  {
    hide Explains, Collect, Assemble;
    CleanAssembled(parts, json);
    IdentitiesExplain(parts, json);
    who := Identities(Collect(parts).value);
  }

  lemma CleanAssembled(parts: seq<Part>, json: string -> bool)
    requires Assemble(parts, json).Ok?
    ensures Collect(parts).Some?
    ensures var t := Collect(parts).value;
            && Inv(t) && Ordered(t) && Clean(t) && |t.order| <= MAX_TOOL_CALLS
            && (forall k :: k in t.builders ==> Usable(t.builders[k], json))
  {
    hide Inv, Clean, Finalize, Collect, Usable;
    var t := Collect(parts).value;
    CollectInv(parts);
    InvOrdered(t);
    FinalizeOk(t, json, |t.order|);
    CleanWhenOk(t, json);
    forall k | k in t.builders ensures Usable(t.builders[k], json) {
      var i :| 0 <= i < |t.order| && t.order[i] == k;
    }
  }

  /** The builders' identities explain the calls. */
  lemma IdentitiesExplain(parts: seq<Part>, json: string -> bool)
    requires Assemble(parts, json).Ok? && Collect(parts).Some? && Ordered(Collect(parts).value)
    ensures Explains(parts, Identities(Collect(parts).value), Assemble(parts, json).calls)
  {
    hide Inv, Own, MergeAll, OneFull, Belongs, Clean, Finalize, Collect, ArrivesBefore, MergedFrom, Explained, DistinctWho, Usable;
    var t := Collect(parts).value;
    CleanAssembled(parts, json);
    FinalizeOk(t, json, |t.order|);
    var who, calls := Identities(t), Assemble(parts, json).calls;
    assert calls == Finalize(t, json, |t.order|).calls;
    DistinctOrder(t);
    forall n | 0 <= n < |parts| ensures Explained(parts[n], who) {
      EventExplained(parts, n);
    }
    forall i, j | 0 <= i < j < |who| ensures ArrivesBefore(parts, who[i], who[j]) {
      assert parts[..|parts|] == parts;
      OrderArrives(parts, |parts|, i, j);
    }
    forall i | 0 <= i < |who| ensures MergedFrom(parts, who[i], calls[i]) {
      CallMade(parts, json, t.order[i]);
    }
  }

  lemma DistinctOrder(t: Table)
    requires Inv(t) && Clean(t) && Ordered(t)
    ensures DistinctWho(Identities(t))
  {
    hide Inv, Clean;
    forall i, j | 0 <= i < j < |t.order|
      ensures t.builders[t.order[i]].id != t.builders[t.order[j]].id
      ensures t.builders[t.order[i]].index.Some? ==> t.builders[t.order[i]].index != t.builders[t.order[j]].index
    {
      DistinctIdentities(t, t.order[i], t.order[j]);
    }
  }

  lemma EventExplained(parts: seq<Part>, n: nat)
    requires n < |parts| && Collect(parts).Some? && Clean(Collect(parts).value) && Ordered(Collect(parts).value)
    ensures Explained(parts[n], Identities(Collect(parts).value))
  {
    hide Belongs, Clean, Collect;
    var t := Collect(parts).value;
    var at := EventBelongs(parts, n);
    var i :| 0 <= i < |t.order| && t.order[i] == at;
    assert Belongs(parts[n], Identities(t)[i]);
  }

  lemma CallMade(parts: seq<Part>, json: string -> bool, k: Key)
    requires Collect(parts).Some? && Clean(Collect(parts).value) && k in Collect(parts).value.builders
    requires Usable(Collect(parts).value.builders[k], json)
    ensures var b := Collect(parts).value.builders[k]; MergedFrom(parts, IdentityOf(b), CallOf(b))
  {
    hide Clean, Collect, Own, MergeAll, OneFull, Introduced, Spells, LastNamed, Blank;
    OwnCall(parts, k);
    OwnIntroduced(parts, k);
  }

  lemma OwnIntroduced(parts: seq<Part>, k: Key)
    requires Collect(parts).Some? && Clean(Collect(parts).value) && k in Collect(parts).value.builders
    ensures var b := Collect(parts).value.builders[k];
            var own := Own(parts, IdentityOf(b));
            Introduced(own, IdentityOf(b)) && LastNamed(own, b.name) && Spells(own, b.arguments)
  {
    hide MergeAll, Own, OneFull, Collect, Spells, LastNamed;
    OwnCall(parts, k);
    MergedComes(Own(parts, IdentityOf(Collect(parts).value.builders[k])));
  }

  /** The builders in order were each begun by an event of their own, one after the other. */
  lemma {:induction false} OrderArrives(parts: seq<Part>, n: nat, i: nat, j: nat)
    requires n <= |parts| && Collect(parts).Some? && Clean(Collect(parts).value) && Collect(parts[..n]).Some?
    requires var t := Collect(parts).value;
             && i < j < |t.order| && (forall k :: k in t.order ==> k in t.builders)
             && Collect(parts[..n]).value.order <= t.order && i < |Collect(parts[..n]).value.order|
    ensures var t := Collect(parts).value;
            ArrivesBefore(parts, IdentityOf(t.builders[t.order[i]]), IdentityOf(t.builders[t.order[j]]))
  {
    hide Apply, Inv, Touches, Merges, Belongs, Grows, Clean, Collect, Resolve, ArrivesBefore;
    NothingCollected();
    assert parts[..0] == [];
    if n > 0 {
      MergedInto(parts, n);
      var q, q' := Collect(parts[..n - 1]).value, Collect(parts[..n]).value;
      TouchedOrder(q, q', KeyFor(q, parts[n - 1]));
      if i < |q.order| {
        OrderArrives(parts, n - 1, i, j);
      } else {
        FirstArrives(parts, n, i, j);
      }
    }
  }

  lemma NothingCollected()
    ensures Collect([]) == Some(START)
  {
  }

  lemma TouchedOrder(t: Table, t': Table, k: Key)
    requires Touches(t, t', k)
    ensures t.order <= t'.order && |t'.order| <= |t.order| + 1
    ensures |t'.order| > |t.order| ==> t'.order[|t.order|] == k
  {
  }

  lemma FirstArrives(parts: seq<Part>, n: nat, i: nat, j: nat)
    requires 0 < n <= |parts| && Collect(parts).Some? && Clean(Collect(parts).value)
    requires Collect(parts[..n]).Some? && Collect(parts[..n - 1]).Some?
    requires var t, q, q' := Collect(parts).value, Collect(parts[..n - 1]).value, Collect(parts[..n]).value;
             && i < j < |t.order| && (forall k :: k in t.order ==> k in t.builders)
             && q'.order <= t.order && |q'.order| == i + 1 && q'.order[i] == KeyFor(q, parts[n - 1])
    ensures var t := Collect(parts).value;
            ArrivesBefore(parts, IdentityOf(t.builders[t.order[i]]), IdentityOf(t.builders[t.order[j]]))
  {
    hide Apply, Inv, Touches, Merge, Belongs, Grows, Clean, Collect, Resolve;
    var t, q := Collect(parts).value, Collect(parts[..n]).value;
    var mine, other := IdentityOf(t.builders[t.order[i]]), IdentityOf(t.builders[t.order[j]]);
    MergedInto(parts, n);
    BelongsIff(t, q, parts[n - 1], KeyFor(Collect(parts[..n - 1]).value, parts[n - 1]), t.order[i]);
    forall m | 0 <= m <= n - 1 ensures !Belongs(parts[m], other) {
      FoundBefore(parts, n, m, j);
    }
  }

  /** Nothing before it belongs to a builder that is not there yet. */
  lemma FoundBefore(parts: seq<Part>, n: nat, m: nat, j: nat)
    requires m < n <= |parts| && Collect(parts).Some? && Clean(Collect(parts).value) && Collect(parts[..n]).Some?
    requires var t, q := Collect(parts).value, Collect(parts[..n]).value;
             q.order <= t.order && |q.order| <= j < |t.order| && t.order[j] in t.builders
    ensures var t := Collect(parts).value;
            !Belongs(parts[m], IdentityOf(t.builders[t.order[j]]))
  {
    hide Apply, Touches, Merges, Belongs, Clean, Collect, Resolve, IdOk, IndexOk, KeyOk;
    var t, q := Collect(parts).value, Collect(parts[..n]).value;
    CollectInv(parts);
    CollectInv(parts[..n]);
    var at := EventBelongs(parts, m);
    CollectGrows(parts[..n], m + 1);
    assert parts[..n][..m + 1] == parts[..m + 1];
    assert at in q.order;
    var l :| 0 <= l < |q.order| && q.order[l] == at;
    assert t.order[l] == at;
  }

  lemma InvOrdered(t: Table)
    requires Inv(t)
    ensures Ordered(t)
  {
  }

  /** An event with neither id nor index always makes assembly fail. */
  lemma NamelessFails(parts: seq<Part>, json: string -> bool, n: nat)
    requires n < |parts| && parts[n].id == "" && parts[n].Index().None?
    ensures Assemble(parts, json).Err?
  {
    if Assemble(parts, json).Ok? {
      var who := CallsExplained(parts, json);
    }
  }

  // ---- interleaving ----

  /** One of two groups of calls that share neither ids nor indexes. */
  datatype Side = Side(ids: string -> bool, indexes: int -> bool)

  predicate Inside(p: Part, side: Side) {
    && (p.id != "" || p.Index().Some?)
    && (p.id != "" ==> side.ids(p.id)) && (p.Index().Some? ==> side.indexes(p.Index().value))
  }

  predicate Outside(p: Part, side: Side) {
    && (p.id != "" || p.Index().Some?)
    && (p.id != "" ==> !side.ids(p.id)) && (p.Index().Some? ==> !side.indexes(p.Index().value))
  }

  /** Every event is on one side. */
  ghost predicate Divided(parts: seq<Part>, side: Side) {
    forall i :: 0 <= i < |parts| ==> Inside(parts[i], side) || Outside(parts[i], side)
  }

  /** The events of this side, in order. */
  function Select(parts: seq<Part>, side: Side): seq<Part> {
    if parts == [] then []
    else
      var last := parts[|parts| - 1];
      Select(parts[..|parts| - 1], side) + (if Inside(last, side) then [last] else [])
  }

  predicate Mine(k: Key, side: Side) {
    match k
    case ById(id) => side.ids(id)
    case ByIndex(i) => side.indexes(i)
    case Synthetic(_) => false
  }

  function SelectKeys(order: seq<Key>, side: Side): seq<Key> {
    if order == [] then []
    else
      var last := order[|order| - 1];
      SelectKeys(order[..|order| - 1], side) + (if Mine(last, side) then [last] else [])
  }

  ghost predicate SameId(t: Table, s: Table, side: Side, id: string) {
    && (id in s.idKeys <==> id in t.idKeys && side.ids(id))
    && (id in s.idKeys ==> s.idKeys[id] == t.idKeys[id])
    && (id in t.idKeys ==> (side.ids(id) <==> Mine(t.idKeys[id], side)))
  }

  ghost predicate SameIndex(t: Table, s: Table, side: Side, i: int) {
    && (i in s.indexKeys <==> i in t.indexKeys && side.indexes(i))
    && (i in s.indexKeys ==> s.indexKeys[i] == t.indexKeys[i])
    && (i in t.indexKeys ==> (side.indexes(i) <==> Mine(t.indexKeys[i], side)))
  }

  ghost predicate SameKey(t: Table, s: Table, side: Side, k: Key) {
    && (k in s.builders <==> k in t.builders && Mine(k, side))
    && (k in s.builders ==> s.builders[k] == t.builders[k])
  }

  /** `s` is the part of `t` that belongs to this side. */
  ghost predicate Projects(t: Table, s: Table, side: Side) {
    && s.order == SelectKeys(t.order, side)
    && (forall id {:trigger SameId(t, s, side, id)} :: SameId(t, s, side, id))
    && (forall i {:trigger SameIndex(t, s, side, i)} :: SameIndex(t, s, side, i))
    && (forall k {:trigger SameKey(t, s, side, k)} :: SameKey(t, s, side, k))
  }

  lemma SelectKeysPush(order: seq<Key>, k: Key, side: Side)
    ensures SelectKeys(order + [k], side) == if Mine(k, side) then SelectKeys(order, side) + [k] else SelectKeys(order, side)
  {
    assert (order + [k])[..|order|] == order;
  }

  lemma SelectPush(parts: seq<Part>, n: nat, side: Side)
    requires n < |parts|
    ensures Select(parts[..n + 1], side)
            == if Inside(parts[n], side) then Select(parts[..n], side) + [parts[n]] else Select(parts[..n], side)
  {
    assert parts[..n + 1][..n] == parts[..n];
  }

  /** An event of this side resolves to a key of this side, and one outside does not. */
  lemma KeySides(t: Table, s: Table, p: Part, side: Side)
    requires Inv(t) && Projects(t, s, side) && (Inside(p, side) || Outside(p, side))
    ensures Mine(KeyFor(t, p), side) <==> Inside(p, side)
  {
    hide Ordered;
    assert IdOk(t, p.id) && SameId(t, s, side, p.id);
    if p.Index().Some? {
      assert IndexOk(t, p.Index().value) && SameIndex(t, s, side, p.Index().value);
    }
  }

  /** An event of the other side leaves this side alone. */
  lemma OutsideStays(t: Table, s: Table, p: Part, side: Side)
    requires Inv(t) && Projects(t, s, side) && Outside(p, side) && Apply(t, p).Some?
    ensures Projects(Apply(t, p).value, s, side)
  {
    hide Apply, Resolve, Inv;
    var t', k := Apply(t, p).value, KeyFor(t, p);
    ApplyKeeps(t, p);
    KeySides(t, s, p, side);
    NewBindings(t, p);
    SelectKeysPush(t.order, k, side);
    forall id ensures SameId(t', s, side, id) { assert SameId(t, s, side, id); }
    forall i ensures SameIndex(t', s, side, i) { assert SameIndex(t, s, side, i); }
    forall j ensures SameKey(t', s, side, j) { assert SameKey(t, s, side, j); }
  }

  lemma ResolveBinds(t: Table, id: string, index: Option<int>)
    ensures var r := Resolve(t, id, index);
            && (r.table.idKeys == t.idKeys || (id != "" && r.table.idKeys == t.idKeys[id := r.key]))
            && (r.table.indexKeys == t.indexKeys || (index.Some? && r.table.indexKeys == t.indexKeys[index.value := r.key]))
  {
  }

  /** A new binding is one of the event's own. */
  lemma NewBindings(t: Table, p: Part)
    requires Inv(t) && Apply(t, p).Some?
    ensures var t', k := Apply(t, p).value, KeyFor(t, p);
            && (t'.idKeys == t.idKeys || (p.id != "" && t'.idKeys == t.idKeys[p.id := k]))
            && (t'.indexKeys == t.indexKeys || (p.Index().Some? && t'.indexKeys == t.indexKeys[p.Index().value := k]))
  {
    hide Inv, Resolve, Merge;
    ResolveBinds(t, p.id, p.Index());
  }

  /** Two tables agree on one builder, and on what one id and one index are bound to. */
  ghost predicate Agree(t: Table, s: Table, k: Key, id: string, index: Option<int>) {
    && k in t.builders && k in s.builders && t.builders[k] == s.builders[k]
    && (id in t.idKeys <==> id in s.idKeys) && (id in s.idKeys ==> s.idKeys[id] == t.idKeys[id])
    && (index.Some? ==>
          && (index.value in t.indexKeys <==> index.value in s.indexKeys)
          && (index.value in s.indexKeys ==> s.indexKeys[index.value] == t.indexKeys[index.value]))
  }

  /** This side's part of the table knows as much about this event. */
  ghost predicate Alike(t: Table, s: Table, id: string, index: Option<int>) {
    && (id in t.idKeys <==> id in s.idKeys)
    && (id in s.idKeys ==> Agree(t, s, t.idKeys[id], id, index))
    && (index.Some? ==>
          && (index.value in t.indexKeys <==> index.value in s.indexKeys)
          && (index.value in s.indexKeys ==> Agree(t, s, t.indexKeys[index.value], id, index)))
  }

  lemma SameResolve(t: Table, s: Table, id: string, index: Option<int>)
    requires Alike(t, s, id, index) && (id != "" || index.Some?) && "" !in t.idKeys
    requires id !in t.idKeys && (index.Some? ==> index.value !in t.indexKeys) ==>
               NewKey(t, id, index) !in t.builders && NewKey(t, id, index) !in s.builders
    ensures var rt, rs := Resolve(t, id, index), Resolve(s, id, index);
            rt.key == rs.key && Agree(rt.table, rs.table, rt.key, id, index)
  {
  }

  lemma SidesAlike(t: Table, s: Table, p: Part, side: Side)
    requires Inv(t) && Inv(s) && Projects(t, s, side) && Inside(p, side)
    ensures Alike(t, s, p.id, p.Index()) && "" !in t.idKeys
    ensures p.id !in t.idKeys && (p.Index().Some? ==> p.Index().value !in t.indexKeys) ==>
              NewKey(t, p.id, p.Index()) !in t.builders && NewKey(t, p.id, p.Index()) !in s.builders
  {
    hide Ordered;
    var index := p.Index();
    assert SameId(t, s, side, p.id) && IdOk(t, p.id) && IdOk(s, p.id) && IdOk(t, "") && IdOk(s, "");
    if index.Some? {
      assert SameIndex(t, s, side, index.value) && IndexOk(t, index.value) && IndexOk(s, index.value);
      if index.value in t.indexKeys {
        assert SameKey(t, s, side, t.indexKeys[index.value]);
      }
    }
    if p.id in t.idKeys {
      assert SameKey(t, s, side, t.idKeys[p.id]);
    }
    assert KeyOk(t, NewKey(t, p.id, index)) && KeyOk(s, NewKey(t, p.id, index));
  }

  /** An event of this side does the same to the whole table and to this side's part. */
  lemma SameApply(t: Table, s: Table, p: Part, side: Side)
    requires Inv(t) && Inv(s) && Projects(t, s, side) && Inside(p, side)
    ensures KeyFor(t, p) == KeyFor(s, p)
    ensures Apply(t, p).Some? <==> Apply(s, p).Some?
    ensures Apply(t, p).Some? ==> Agree(Apply(t, p).value, Apply(s, p).value, KeyFor(t, p), p.id, p.Index())
  {
    hide Inv, Projects, Resolve, Merge, Alike;
    SidesAlike(t, s, p, side);
    SameResolve(t, s, p.id, p.Index());
  }

  /** What an event changes, and nothing else. */
  ghost predicate Changes(t: Table, t': Table, k: Key, p: Part) {
    && k in t'.builders && t'.builders == t.builders[k := t'.builders[k]]
    && t'.order == (if k in t.builders then t.order else t.order + [k])
    && (t'.idKeys == t.idKeys || (p.id != "" && t'.idKeys == t.idKeys[p.id := k]))
    && (t'.indexKeys == t.indexKeys || (p.Index().Some? && t'.indexKeys == t.indexKeys[p.Index().value := k]))
  }

  lemma ApplyChanges(t: Table, p: Part)
    requires Inv(t) && Apply(t, p).Some?
    ensures Changes(t, Apply(t, p).value, KeyFor(t, p), p)
  {
    hide Inv, Apply, Resolve, Merges;
    ApplyKeeps(t, p);
    NewBindings(t, p);
  }

  lemma SameIdFollows(t: Table, t': Table, s: Table, s': Table, k: Key, p: Part, side: Side, id: string)
    requires Changes(t, t', k, p) && Changes(s, s', k, p) && Agree(t', s', k, p.id, p.Index())
    requires Inside(p, side) && Mine(k, side) && SameId(t, s, side, id)
    ensures SameId(t', s', side, id)
  {
  }

  lemma SameIndexFollows(t: Table, t': Table, s: Table, s': Table, k: Key, p: Part, side: Side, i: int)
    requires Changes(t, t', k, p) && Changes(s, s', k, p) && Agree(t', s', k, p.id, p.Index())
    requires Inside(p, side) && Mine(k, side) && SameIndex(t, s, side, i)
    ensures SameIndex(t', s', side, i)
  {
  }

  lemma SameKeyFollows(t: Table, t': Table, s: Table, s': Table, k: Key, p: Part, side: Side, j: Key)
    requires Changes(t, t', k, p) && Changes(s, s', k, p) && Agree(t', s', k, p.id, p.Index())
    requires Mine(k, side) && SameKey(t, s, side, j)
    ensures SameKey(t', s', side, j)
  {
  }

  lemma ChangesOrder(t: Table, t': Table, s: Table, s': Table, k: Key, p: Part, side: Side)
    requires Changes(t, t', k, p) && Changes(s, s', k, p) && Mine(k, side) && SameKey(t, s, side, k)
    requires s.order == SelectKeys(t.order, side)
    ensures s'.order == SelectKeys(t'.order, side)
  {
    SelectKeysPush(t.order, k, side);
  }

  lemma InsideFollows(t: Table, s: Table, p: Part, side: Side)
    requires Inv(t) && Inv(s) && Projects(t, s, side) && Inside(p, side) && Apply(t, p).Some?
    ensures Apply(s, p).Some? && Projects(Apply(t, p).value, Apply(s, p).value, side)
  {
    hide Apply, Resolve, Inv, Changes, Agree, SameId, SameIndex, SameKey, Inside, Mine, SelectKeys;
    SameApply(t, s, p, side);
    var t', s', k := Apply(t, p).value, Apply(s, p).value, KeyFor(t, p);
    ApplyChanges(t, p);
    ApplyChanges(s, p);
    KeySides(t, s, p, side);
    assert SameKey(t, s, side, k);
    ChangesOrder(t, t', s, s', k, p, side);
    forall id ensures SameId(t', s', side, id) {
      assert SameId(t, s, side, id);
      SameIdFollows(t, t', s, s', k, p, side, id);
    }
    forall i ensures SameIndex(t', s', side, i) {
      assert SameIndex(t, s, side, i);
      SameIndexFollows(t, t', s, s', k, p, side, i);
    }
    forall j ensures SameKey(t', s', side, j) {
      assert SameKey(t, s, side, j);
      SameKeyFollows(t, t', s, s', k, p, side, j);
    }
  }

  /** The table of this side's events alone is this side's part of the whole table. */
  lemma {:induction false} Projection(parts: seq<Part>, side: Side)
    requires Divided(parts, side) && Collect(parts).Some?
    ensures Collect(Select(parts, side)).Some?
    ensures Projects(Collect(parts).value, Collect(Select(parts, side)).value, side)
  {
    hide Apply, Inv, Projects, Inside, Outside;
    if parts == [] {
      ProjectsStart(side);
    } else {
      var n := |parts| - 1;
      Projection(parts[..n], side);
      assert parts[..n + 1] == parts;
      SelectPush(parts, n, side);
      var t, s := Collect(parts[..n]).value, Collect(Select(parts[..n], side)).value;
      CollectInv(parts[..n]);
      CollectInv(Select(parts[..n], side));
      if Inside(parts[n], side) {
        InsideFollows(t, s, parts[n], side);
        CollectPush(Select(parts[..n], side), parts[n]);
      } else {
        OutsideStays(t, s, parts[n], side);
      }
    }
  }

  lemma ProjectsStart(side: Side)
    ensures Projects(START, START, side)
  {
  }

  lemma CollectPush(parts: seq<Part>, p: Part)
    requires Collect(parts).Some?
    ensures Collect(parts + [p]) == Apply(Collect(parts).value, p)
  {
    assert (parts + [p])[..|parts|] == parts;
  }

  // ---- interleaved calls ----

  function Other(side: Side): Side {
    Side(id => !side.ids(id), i => !side.indexes(i))
  }

  /** The calls of this side, in order. */
  function SelectCalls(calls: seq<Call>, side: Side): seq<Call> {
    if calls == [] then []
    else
      var last := calls[|calls| - 1];
      SelectCalls(calls[..|calls| - 1], side) + (if side.ids(last.id) then [last] else [])
  }

  function CallsOf(t: Table, order: seq<Key>): seq<Call> {
    seq(|order|, i requires 0 <= i < |order| => CallOf(At(t, order[i])))
  }

  lemma CallsAre(t: Table, json: string -> bool)
    requires Ordered(t) && Finalize(t, json, |t.order|).Ok?
    ensures Finalize(t, json, |t.order|).calls == CallsOf(t, t.order)
  {
    hide Finalize;
    FinalizeOk(t, json, |t.order|);
  }

  /** In a clean table a builder is this side's exactly when its id is. */
  lemma MineById(t: Table, s: Table, side: Side, k: Key)
    requires Inv(t) && Clean(t) && Projects(t, s, side) && k in t.builders
    ensures Mine(k, side) <==> side.ids(t.builders[k].id)
    ensures Mine(k, side) ==> At(s, k) == At(t, k)
  {
    hide Ordered;
    assert KeyOk(t, k) && SameId(t, s, side, t.builders[k].id) && SameKey(t, s, side, k);
  }

  lemma {:induction false} SelectCallsOf(t: Table, s: Table, side: Side, order: seq<Key>)
    requires Inv(t) && Clean(t) && Projects(t, s, side) && forall k :: k in order ==> k in t.builders
    ensures SelectCalls(CallsOf(t, order), side) == CallsOf(s, SelectKeys(order, side))
  {
    hide Inv, Clean, Projects, Mine, At;
    if order != [] {
      var n := |order| - 1;
      SelectCallsOf(t, s, side, order[..n]);
      assert order[n] in order && order == order[..n] + [order[n]];
      MineById(t, s, side, order[n]);
      AtBuilder(t, order[n]);
      assert CallsOf(t, order)[..n] == CallsOf(t, order[..n]);
    }
  }

  lemma AtBuilder(t: Table, k: Key)
    requires k in t.builders
    ensures At(t, k) == t.builders[k]
  {
  }

  /** Whatever else is interleaved with them, the calls of one side come out as they would alone. */
  lemma Undisturbed(parts: seq<Part>, side: Side, json: string -> bool)
    requires Divided(parts, side) && Assemble(parts, json).Ok?
    ensures Assemble(Select(parts, side), json) == Ok(SelectCalls(Assemble(parts, json).calls, side))
  {
    hide Inv, Divided, Clean, Projects, Collect, Finalize, Select, SelectCalls, CallsOf, SelectKeys;
    Projection(parts, side);
    var t, s := Collect(parts).value, Collect(Select(parts, side)).value;
    CollectInv(parts);
    CollectInv(Select(parts, side));
    InvOrdered(t);
    InvOrdered(s);
    CleanWhenOk(t, json);
    CallsAre(t, json);
    SelectCallsOf(t, s, side, t.order);
    ProjectedOrder(t, s, side);
    PartUsable(t, s, side, json);
    CallsAre(s, json);
  }

  lemma ProjectedOrder(t: Table, s: Table, side: Side)
    requires Projects(t, s, side)
    ensures s.order == SelectKeys(t.order, side) && |s.order| <= |t.order|
  {
    SelectShorter(t.order, side);
  }

  lemma {:induction false} SelectShorter(order: seq<Key>, side: Side)
    ensures |SelectKeys(order, side)| <= |order|
  {
    if order != [] {
      SelectShorter(order[..|order| - 1], side);
    }
  }

  lemma PartUsable(t: Table, s: Table, side: Side, json: string -> bool)
    requires Ordered(t) && Ordered(s) && Projects(t, s, side) && Finalize(t, json, |t.order|).Ok?
    ensures Finalize(s, json, |s.order|).Ok?
  {
    hide Finalize, Usable;
    FinalizeOk(t, json, |t.order|);
    FinalizeOk(s, json, |s.order|);
    SelectShorter(t.order, side);
    forall i | 0 <= i < |s.order| ensures Usable(s.builders[s.order[i]], json) {
      var k := s.order[i];
      assert k in s.order;
      assert SameKey(t, s, side, k);
      var j :| 0 <= j < |t.order| && t.order[j] == k;
    }
  }

  /** Two groups whose events are accepted alone are accepted together. */
  lemma {:induction false} BothCollect(parts: seq<Part>, side: Side)
    requires Divided(parts, side)
    requires Collect(Select(parts, side)).Some? && Collect(Select(parts, Other(side))).Some?
    ensures Collect(parts).Some?
  {
    hide Apply, Inv, Projects;
    if parts != [] {
      var n := |parts| - 1;
      var p := parts[n];
      assert parts[..n + 1] == parts;
      SelectPush(parts, n, side);
      SelectPush(parts, n, Other(side));
      var mine := if Inside(p, side) then side else Other(side);
      SelectedPrefix(parts, n, side);
      SelectedPrefix(parts, n, Other(side));
      BothCollect(parts[..n], side);
      Projection(parts[..n], mine);
      CollectInv(parts[..n]);
      CollectInv(Select(parts[..n], mine));
      SameApply(Collect(parts[..n]).value, Collect(Select(parts[..n], mine)).value, p, mine);
      CollectPush(Select(parts[..n], mine), p);
    }
  }

  lemma SelectedPrefix(parts: seq<Part>, n: nat, side: Side)
    requires n + 1 == |parts| && Collect(Select(parts, side)).Some?
    ensures Collect(Select(parts[..n], side)).Some?
  {
    hide Apply, Collect;
    assert parts[..n + 1] == parts;
    SelectPush(parts, n, side);
    var all := Select(parts, side);
    CollectGrows(all, |Select(parts[..n], side)|);
    assert all[..|Select(parts[..n], side)|] == Select(parts[..n], side);
  }

  /** Events that name an id or an index are divided into the two sides, key by key. */
  lemma {:induction false} KeysDivide(order: seq<Key>, side: Side)
    requires forall k :: k in order ==> !k.Synthetic?
    ensures |SelectKeys(order, side)| + |SelectKeys(order, Other(side))| == |order|
  {
    if order != [] {
      var last := order[|order| - 1];
      assert last in order;
      KeysDivide(order[..|order| - 1], side);
    }
  }

  /** A side's calls are as many as its keys. */
  lemma SideCounts(parts: seq<Part>, side: Side, json: string -> bool)
    requires Divided(parts, side) && Collect(parts).Some? && Assemble(Select(parts, side), json).Ok?
    ensures |Assemble(Select(parts, side), json).calls| == |SelectKeys(Collect(parts).value.order, side)|
  {
    hide Inv, Collect, Finalize, Select, Divided, SelectKeys, Usable;
    Projection(parts, side);
    var s := Collect(Select(parts, side)).value;
    ProjectedOrder(Collect(parts).value, s, side);
    CollectInv(Select(parts, side));
    InvOrdered(s);
    FinalizeOk(s, json, |s.order|);
  }

  lemma OtherDivides(parts: seq<Part>, side: Side)
    requires Divided(parts, side)
    ensures Divided(parts, Other(side))
  {
  }

  /** Two groups that assemble alone assemble together, however they are interleaved, exactly
      when they have no more calls than the limit between them; the joint calls are then an
      interleaving of the two groups' calls. */
  lemma Together(parts: seq<Part>, side: Side, json: string -> bool)
    requires Divided(parts, side)
    requires Assemble(Select(parts, side), json).Ok? && Assemble(Select(parts, Other(side)), json).Ok?
    ensures var mine, others := Assemble(Select(parts, side), json).calls, Assemble(Select(parts, Other(side)), json).calls;
            && (Assemble(parts, json).Ok? <==> |mine| + |others| <= MAX_TOOL_CALLS)
            && (Assemble(parts, json).Ok? ==>
                  var calls := Assemble(parts, json).calls;
                  && |calls| == |mine| + |others|
                  && SelectCalls(calls, side) == mine && SelectCalls(calls, Other(side)) == others)
  {
    hide Inv, Projects, Collect, Finalize, Select, Usable, SelectKeys, SelectCalls, Divided;
    BothCollect(parts, side);
    OtherDivides(parts, side);
    var t := Collect(parts).value;
    CollectInv(parts);
    InvOrdered(t);
    FinalizeOk(t, json, |t.order|);
    forall i | 0 <= i < |t.order| ensures Usable(t.builders[t.order[i]], json) && !t.order[i].Synthetic? {
      var k := t.order[i];
      assert k in t.order;
      NotSynthetic(parts, side, k);
      OneSideUsable(parts, if Mine(k, side) then side else Other(side), json, k);
    }
    SideCounts(parts, side, json);
    SideCounts(parts, Other(side), json);
    KeysDivide(t.order, side);
    if Assemble(parts, json).Ok? {
      Undisturbed(parts, side, json);
      Undisturbed(parts, Other(side), json);
    }
  }

  lemma OneSideUsable(parts: seq<Part>, side: Side, json: string -> bool, k: Key)
    requires Divided(parts, side) && Collect(parts).Some? && k in Collect(parts).value.builders && Mine(k, side)
    requires Assemble(Select(parts, side), json).Ok?
    ensures Usable(Collect(parts).value.builders[k], json)
  {
    hide Inv, Collect, Finalize, Select, Usable, Divided, SelectKeys;
    Projection(parts, side);
    var t, s := Collect(parts).value, Collect(Select(parts, side)).value;
    assert SameKey(t, s, side, k);
    CollectInv(Select(parts, side));
    InvOrdered(s);
    FinalizeOk(s, json, |s.order|);
    var j :| 0 <= j < |s.order| && s.order[j] == k;
  }

  /** Events that name an id or an index never make a synthetic key. */
  lemma {:induction false} NotSynthetic(parts: seq<Part>, side: Side, k: Key)
    requires Divided(parts, side) && Collect(parts).Some? && k in Collect(parts).value.builders
    ensures !k.Synthetic?
  {
    if parts != [] {
      hide Inv, Merges;
      var n := |parts| - 1;
      CollectInv(parts[..n]);
      var t := Collect(parts[..n]).value;
      if k in t.builders {
        NotSynthetic(parts[..n], side, k);
      } else {
        assert Inside(parts[n], side) || Outside(parts[n], side);
        ApplyKeeps(t, parts[n]);
        SynthesizedOnlyNameless(t, parts[n]);
      }
    }
  }

  lemma SynthesizedOnlyNameless(t: Table, p: Part)
    requires Inv(t) && (p.id != "" || p.Index().Some?)
    ensures !KeyFor(t, p).Synthetic?
  {
    hide Ordered;
    assert IdOk(t, p.id);
    if p.Index().Some? {
      assert IndexOk(t, p.Index().value);
    }
  }
}
