/** Separating reasoning from text in a token stream whose tags may be cut anywhere. */
module ThinkTags {
  const OPEN := "<think>"
  const CLOSE := "</think>"

  /** The tag that ends the current segment. */
  function Sought(inThink: bool): (tag: string)
    ensures tag != ""
  {
    if inThink then CLOSE else OPEN
  }

  predicate Occurs(s: string, tag: string, i: nat) {
    i + |tag| <= |s| && s[i..i + |tag|] == tag
  }

  /** The first occurrence at or after `from`, or -1. */
  function IndexFrom(s: string, tag: string, from: nat): (i: int)
    requires from <= |s|
    ensures i == -1 || from <= i
    ensures i >= 0 ==> Occurs(s, tag, i)
    ensures forall j: nat :: from <= j && (i == -1 || j < i) ==> !Occurs(s, tag, j)
    decreases |s| - from
  {
    if from + |tag| > |s| then -1
    else if Occurs(s, tag, from) then from
    else if from < |s| then IndexFrom(s, tag, from + 1)
    else -1
  }

  function Index(s: string, tag: string): int {
    IndexFrom(s, tag, 0)
  }

  /** An index that satisfies the definition of the first occurrence is the first occurrence. */
  lemma IndexIs(s: string, tag: string, i: int)
    requires i >= -1 && (i >= 0 ==> Occurs(s, tag, i))
    requires forall j: nat :: (i == -1 || j < i) ==> !Occurs(s, tag, j)
    ensures Index(s, tag) == i
  {
  }

  datatype Pieces = Pieces(text: string, thinking: string)
  {
    function Then(next: Pieces): Pieces { Pieces(text + next.text, thinking + next.thinking) }
  }

  const NONE := Pieces("", "")

  function Segment(s: string, inThink: bool): Pieces {
    if inThink then Pieces("", s) else Pieces(s, "")
  }

  /** The one-shot split of a whole string. */
  function Split(s: string, inThink: bool): Pieces
    decreases |s|
  {
    var tag := Sought(inThink);
    var i := Index(s, tag);
    if i < 0 then Segment(s, inThink)
    else Segment(s[..i], inThink).Then(Split(s[i + |tag|..], !inThink))
  }

  // ---- what may be emitted early ----

  /** The last `k` characters of `s` may be the start of the tag. */
  predicate MayStart(s: string, tag: string, k: nat) {
    k <= |s| && k <= |tag| && s[|s| - k..] == tag[..k]
  }

  /** `k` is the longest proper start of the tag that ends `s`. */
  ghost predicate LongestStart(s: string, tag: string, k: nat) {
    k < |tag| && MayStart(s, tag, k) && forall j: nat :: k < j < |tag| ==> !MayStart(s, tag, j)
  }

  /** The length of the longest start of at most `k` characters. */
  function LongestUpTo(s: string, tag: string, k: nat): (l: nat)
    ensures l <= k
    ensures l > 0 ==> MayStart(s, tag, l)
    ensures forall j: nat :: l < j <= k ==> !MayStart(s, tag, j)
  {
    if k == 0 || MayStart(s, tag, k) then k else LongestUpTo(s, tag, k - 1)
  }

  /** How many leading characters no later input can make part of the tag. */
  function SafeLength(s: string, tag: string): (n: nat)
    requires tag != ""
    ensures n <= |s| && LongestStart(s, tag, |s| - n)
  {
    |s| - LongestUpTo(s, tag, |tag| - 1)
  }

  /** No occurrence can begin before the safe length, whatever follows. */
  lemma NothingEarly(s: string, tag: string, rest: string, i: nat)
    requires tag != "" && Index(s, tag) < 0 && Occurs(s + rest, tag, i)
    ensures SafeLength(s, tag) <= i
  {
    if i + |tag| <= |s| {
      assert s[i..i + |tag|] == (s + rest)[i..i + |tag|];
      assert Occurs(s, tag, i);
    } else if i < |s| {
      var k := |s| - i;
      assert s[i..] == (s + rest)[i..i + |tag|][..k];
      assert MayStart(s, tag, k);
    }
  }

  lemma Shifted(s: string, tag: string, off: nat, j: nat)
    requires off <= |s|
    ensures Occurs(s[off..], tag, j) <==> Occurs(s, tag, off + j)
  {
    if off + j + |tag| <= |s| {
      assert s[off..][j..j + |tag|] == s[off + j..off + j + |tag|];
    }
  }

  /** Whatever occurs begins behind the safe part, and occurs in what is kept. */
  lemma BehindSafe(s: string, tag: string, rest: string, j: nat)
    requires tag != "" && Index(s, tag) < 0 && Occurs(s + rest, tag, j)
    ensures SafeLength(s, tag) <= j && Occurs(s[SafeLength(s, tag)..] + rest, tag, j - SafeLength(s, tag))
  {
    var safe := SafeLength(s, tag);
    hide Index, SafeLength, Occurs;
    NothingEarly(s, tag, rest, j);
    assert s[safe..] + rest == (s + rest)[safe..];
    Shifted(s + rest, tag, safe, j - safe);
  }

  /** So emitting the safe part does not move the first occurrence. */
  lemma IndexAfterEmit(s: string, tag: string, rest: string)
    requires tag != "" && Index(s, tag) < 0
    ensures var safe := SafeLength(s, tag);
            var i := Index(s[safe..] + rest, tag);
            Index(s + rest, tag) == if i < 0 then -1 else safe + i
  {
    hide Occurs, Index, SafeLength;
    var safe := SafeLength(s, tag);
    var all, tail := s + rest, s[safe..] + rest;
    assert tail == all[safe..];
    var i := Index(tail, tag);
    IndexMeans(tail, tag);
    if i >= 0 {
      Shifted(all, tag, safe, i);
    }
    forall j: nat | (i < 0 || j < safe + i) && Occurs(all, tag, j) ensures false {
      BehindSafe(s, tag, rest, j);
    }
    IndexIs(all, tag, if i < 0 then -1 else safe + i);
  }

  lemma IndexMeans(s: string, tag: string)
    ensures var i := Index(s, tag);
            i >= -1 && (i >= 0 ==> Occurs(s, tag, i)) && forall j: nat :: i < 0 || j < i ==> !Occurs(s, tag, j)
  {
  }

  /** An occurrence that is already there stays the first. */
  lemma IndexStays(s: string, tag: string, rest: string)
    requires tag != "" && Index(s, tag) >= 0
    ensures Index(s + rest, tag) == Index(s, tag)
  {
    var i := Index(s, tag);
    assert (s + rest)[i..i + |tag|] == s[i..i + |tag|];
    forall j: nat | j < i ensures !Occurs(s + rest, tag, j) {
      assert (s + rest)[j..j + |tag|] == s[j..j + |tag|];
      assert !Occurs(s, tag, j);
    }
    IndexIs(s + rest, tag, i);
  }

  // ---- one chunk ----

  datatype Advance = Advance(out: Pieces, inThink: bool, buffer: string)

  /** What processing the buffer emits and keeps. */
  function Advanced(inThink: bool, buffer: string): Advance
    decreases |buffer|
  {
    var tag := Sought(inThink);
    var i := Index(buffer, tag);
    if i < 0 then
      var safe := SafeLength(buffer, tag);
      Advance(Segment(buffer[..safe], inThink), inThink, buffer[safe..])
    else
      var rest := Advanced(!inThink, buffer[i + |tag|..]);
      rest.(out := Segment(buffer[..i], inThink).Then(rest.out))
  }

  lemma ThenAssociates(a: Pieces, b: Pieces, c: Pieces)
    ensures a.Then(b).Then(c) == a.Then(b.Then(c))
  {
  }

  lemma NoneThen(a: Pieces)
    ensures NONE.Then(a) == a
  {
  }

  lemma SegmentsJoin(a: string, b: string, inThink: bool)
    ensures Segment(a, inThink).Then(Segment(b, inThink)) == Segment(a + b, inThink)
  {
  }

  lemma SplitNone(s: string, inThink: bool)
    requires Index(s, Sought(inThink)) < 0
    ensures Split(s, inThink) == Segment(s, inThink)
  {
  }

  lemma SplitFound(s: string, inThink: bool, i: nat)
    requires Index(s, Sought(inThink)) == i
    ensures Occurs(s, Sought(inThink), i)
    ensures Split(s, inThink) == Segment(s[..i], inThink).Then(Split(s[i + |Sought(inThink)|..], !inThink))
  {
  }

  lemma AdvancedNone(inThink: bool, buffer: string)
    requires Index(buffer, Sought(inThink)) < 0
    ensures var safe := SafeLength(buffer, Sought(inThink));
            Advanced(inThink, buffer) == Advance(Segment(buffer[..safe], inThink), inThink, buffer[safe..])
  {
  }

  lemma AdvancedFound(inThink: bool, buffer: string, i: nat)
    requires Index(buffer, Sought(inThink)) == i
    ensures Occurs(buffer, Sought(inThink), i)
    ensures var rest := Advanced(!inThink, buffer[i + |Sought(inThink)|..]);
            Advanced(inThink, buffer) == rest.(out := Segment(buffer[..i], inThink).Then(rest.out))
  {
  }

  /** Emitting the safe part leaves the split of the rest. */
  lemma EmitSplits(inThink: bool, buffer: string, rest: string)
    requires Index(buffer, Sought(inThink)) < 0
    ensures var safe := SafeLength(buffer, Sought(inThink));
            Split(buffer + rest, inThink) == Segment(buffer[..safe], inThink).Then(Split(buffer[safe..] + rest, inThink))
  {
    hide Split, Index, Segment;
    var tag := Sought(inThink);
    var safe := SafeLength(buffer, tag);
    var all, tail := buffer + rest, buffer[safe..] + rest;
    IndexAfterEmit(buffer, tag, rest);
    var j := Index(tail, tag);
    if j < 0 {
      SplitNone(all, inThink);
      SplitNone(tail, inThink);
      SegmentsJoin(buffer[..safe], tail, inThink);
      assert all == buffer[..safe] + tail;
    } else {
      SplitFound(tail, inThink, j);
      SplitFound(all, inThink, safe + j);
      assert all[..safe + j] == buffer[..safe] + tail[..j];
      assert all[safe + j + |tag|..] == tail[j + |tag|..];
      SegmentsJoin(buffer[..safe], tail[..j], inThink);
      ThenAssociates(Segment(buffer[..safe], inThink), Segment(tail[..j], inThink), Split(tail[j + |tag|..], !inThink));
    }
  }

  /** Whatever follows, the emitted pieces are a start of the one-shot split, and the kept
      buffer is all that the rest of the split depends on. */
  lemma {:induction false} AdvanceSplits(inThink: bool, buffer: string, rest: string)
    ensures var a := Advanced(inThink, buffer);
            && Split(buffer + rest, inThink) == a.out.Then(Split(a.buffer + rest, a.inThink))
            && |a.buffer| < |Sought(a.inThink)|
    decreases |buffer|
  {
    hide Split, Index, Segment, Advanced;
    var tag := Sought(inThink);
    var i := Index(buffer, tag);
    if i < 0 {
      AdvancedNone(inThink, buffer);
      EmitSplits(inThink, buffer, rest);
    } else {
      AdvancedFound(inThink, buffer, i);
      IndexStays(buffer, tag, rest);
      var all, after := buffer + rest, buffer[i + |tag|..];
      SplitFound(all, inThink, i);
      assert all[..i] == buffer[..i];
      assert all[i + |tag|..] == after + rest;
      AdvanceSplits(!inThink, after, rest);
      var a := Advanced(!inThink, after);
      ThenAssociates(Segment(buffer[..i], inThink), a.out, Split(a.buffer + rest, a.inThink));
    }
  }

  lemma NoneInShort(s: string, tag: string)
    requires |s| < |tag|
    ensures Index(s, tag) < 0
  {
  }

  // ---- a whole stream ----

  datatype Feed = Feed(out: Pieces, inThink: bool, buffer: string)

  /** Everything emitted after these chunks, and what is still held back. */
  function Fed(chunks: seq<string>): Feed {
    if chunks == [] then Feed(NONE, false, "")
    else
      var before := Fed(chunks[..|chunks| - 1]);
      var a := Advanced(before.inThink, before.buffer + chunks[|chunks| - 1]);
      Feed(before.out.Then(a.out), a.inThink, a.buffer)
  }

  lemma FedNext(chunks: seq<string>, chunk: string)
    ensures var before := Fed(chunks);
            var a := Advanced(before.inThink, before.buffer + chunk);
            Fed(chunks + [chunk]) == Feed(before.out.Then(a.out), a.inThink, a.buffer)
  {
    assert (chunks + [chunk])[..|chunks|] == chunks;
  }

  function Concat(chunks: seq<string>): string {
    if chunks == [] then "" else Concat(chunks[..|chunks| - 1]) + chunks[|chunks| - 1]
  }

  /** All that a stream emits, the final flush included. */
  function Streamed(chunks: seq<string>): Pieces {
    Fed(chunks).out.Then(Segment(Fed(chunks).buffer, Fed(chunks).inThink))
  }

  lemma {:induction false} FedSplits(chunks: seq<string>, rest: string)
    ensures var f := Fed(chunks);
            && Split(Concat(chunks) + rest, false) == f.out.Then(Split(f.buffer + rest, f.inThink))
            && |f.buffer| < |Sought(f.inThink)|
  {
    hide Split, Advanced;
    if chunks != [] {
      var n := |chunks| - 1;
      var before, chunk := Fed(chunks[..n]), chunks[n];
      FedSplits(chunks[..n], chunk + rest);
      assert Concat(chunks) + rest == Concat(chunks[..n]) + (chunk + rest);
      AdvanceSplits(before.inThink, before.buffer + chunk, rest);
      assert before.buffer + (chunk + rest) == before.buffer + chunk + rest;
      var a := Advanced(before.inThink, before.buffer + chunk);
      ThenAssociates(before.out, a.out, Split(a.buffer + rest, a.inThink));
    } else {
      assert Concat(chunks) + rest == rest && "" + rest == rest;
    }
  }

  /** Streaming equals batch: however the string is cut into chunks, the stream emits the
      one-shot split, and what it holds back is always shorter than the tag it looks for. */
  lemma StreamingEqualsBatch(chunks: seq<string>)
    ensures Streamed(chunks) == Split(Concat(chunks), false)
    ensures |Fed(chunks).buffer| < |Sought(Fed(chunks).inThink)|
  {
    FedSplits(chunks, "");
    var f := Fed(chunks);
    assert Concat(chunks) + "" == Concat(chunks) && f.buffer + "" == f.buffer;
    NoneInShort(f.buffer, Sought(f.inThink));
  }

  /** The cut does not matter. */
  lemma ChunkingIrrelevant(a: seq<string>, b: seq<string>)
    requires Concat(a) == Concat(b)
    ensures Streamed(a) == Streamed(b)
  {
    StreamingEqualsBatch(a);
    StreamingEqualsBatch(b);
  }

  // ---- what a split is ----

  function EndTag(inThink: bool): string {
    if inThink then "</think>" else "<think>"
  }

  ghost predicate FreeOf(s: string, tag: string) {
    forall j: nat :: !Occurs(s, tag, j)
  }

  /** The segments with the tags between them. */
  function Tagged(segments: seq<string>, inThink: bool): string {
    if |segments| == 0 then ""
    else if |segments| == 1 then segments[0]
    else segments[0] + EndTag(inThink) + Tagged(segments[1..], !inThink)
  }

  /** Every second segment, from the first or from the second on. */
  function Alternate(segments: seq<string>, take: bool): string {
    if segments == [] then ""
    else (if take then segments[0] else "") + Alternate(segments[1..], !take)
  }

  /** No segment contains the tag that would end it. */
  ghost predicate Untagged(segments: seq<string>, inThink: bool) {
    forall k :: 0 <= k < |segments| ==> FreeOf(segments[k], EndTag((k % 2 == 0) == inThink))
  }

  lemma UntaggedBehind(first: string, rest: seq<string>, inThink: bool)
    requires Untagged(rest, !inThink) && FreeOf(first, EndTag(inThink))
    ensures Untagged([first] + rest, inThink)
  {
    hide FreeOf, EndTag;
    var all := [first] + rest;
    forall k | 0 <= k < |all| ensures FreeOf(all[k], EndTag((k % 2 == 0) == inThink)) {
      if k > 0 {
        Alternates(k);
        assert all[k] == rest[k - 1] && FreeOf(rest[k - 1], EndTag(((k - 1) % 2 == 0) == !inThink));
      }
    }
  }

  lemma Alternates(k: int)
    requires k > 0
    ensures (k % 2 == 0) <==> (k - 1) % 2 != 0
  {
  }

  lemma TaggedBehind(first: string, rest: seq<string>, inThink: bool)
    requires rest != []
    ensures Tagged([first] + rest, inThink) == first + EndTag(inThink) + Tagged(rest, !inThink)
    ensures forall take :: Alternate([first] + rest, take) == (if take then first else "") + Alternate(rest, !take)
  {
    assert ([first] + rest)[1..] == rest;
  }

  lemma OneSegment(s: string, inThink: bool)
    ensures Tagged([s], inThink) == s && Alternate([s], true) == s && Alternate([s], false) == ""
  {
    assert [s][1..] == [] && s + "" == s;
  }

  /** The split cuts the input at the tags, thinking and text in turn, and keeps what lies between:
      no segment holds the tag that would end it. */
  lemma {:induction false} SplitExplained(s: string, inThink: bool) returns (segments: seq<string>)
    ensures segments != [] && s == Tagged(segments, inThink) && Untagged(segments, inThink)
    ensures Split(s, inThink).text == Alternate(segments, !inThink)
    ensures Split(s, inThink).thinking == Alternate(segments, inThink)
    decreases |s|
  {
    hide Occurs, Tagged, Alternate, Untagged;
    var tag := Sought(inThink);
    var i := Index(s, tag);
    IndexMeans(s, tag);
    if i < 0 {
      segments := [s];
      OneSegment(s, inThink);
      NoSegments();
      UntaggedBehind(s, [], inThink);
      assert [s] + [] == [s];
    } else {
      SplitFound(s, inThink, i);
      Cut(s, tag, i);
      var rest := SplitExplained(s[i + |tag|..], !inThink);
      segments := [s[..i]] + rest;
      TaggedBehind(s[..i], rest, inThink);
      InsideCut(s, tag, i);
      UntaggedBehind(s[..i], rest, inThink);
    }
  }

  lemma NoSegments()
    ensures Untagged([], true) && Untagged([], false)
  {
  }

  lemma Cut(s: string, tag: string, i: nat)
    requires Occurs(s, tag, i)
    ensures i + |tag| <= |s| && s == s[..i] + tag + s[i + |tag|..]
  {
  }

  /** Nothing occurs inside what lies before the first occurrence. */
  lemma InsideCut(s: string, tag: string, i: nat)
    requires Index(s, tag) == i && i <= |s| && tag != ""
    ensures FreeOf(s[..i], tag)
  {
    forall j: nat ensures !Occurs(s[..i], tag, j) {
      if Occurs(s[..i], tag, j) {
        assert s[..i][j..j + |tag|] == s[j..j + |tag|];
        assert Occurs(s, tag, j);
      }
    }
  }

  /** No character is lost or invented: the pieces and the removed tags make up the input. */
  lemma {:induction false} SplitConserves(s: string, inThink: bool) returns (tags: nat)
    ensures |Split(s, inThink).text| + |Split(s, inThink).thinking| + tags == |s|
    ensures forall c :: c in s && c !in OPEN && c !in CLOSE ==>
              c in Split(s, inThink).text || c in Split(s, inThink).thinking
    decreases |s|
  {
    hide Index, Occurs;
    var tag := Sought(inThink);
    var i := Index(s, tag);
    IndexMeans(s, tag);
    if i < 0 {
      SplitNone(s, inThink);
      tags := 0;
    } else {
      SplitFound(s, inThink, i);
      Cut(s, tag, i);
      hide Split;
      var rest := SplitConserves(s[i + |tag|..], !inThink);
      tags := rest + |tag|;
    }
  }

  // ---- the splitter ----

  /** Searches from the longest candidate down. */
  method SafeEmitLength(s: string, tag: string) returns (n: nat)
    requires tag != ""
    ensures n == SafeLength(s, tag)
  {
    var k := if |tag| - 1 > |s| then |s| else |tag| - 1;
    while k >= 1
      invariant 0 <= k <= |s| && k < |tag|
      invariant forall j: nat :: k < j < |tag| ==> !MayStart(s, tag, j)
    {
      if s[|s| - k..] == tag[..k] {
        LongestUnique(s, tag, k);
        return |s| - k;
      }
      k := k - 1;
    }
    LongestUnique(s, tag, 0);
    return |s|;
  }

  lemma LongestUnique(s: string, tag: string, k: nat)
    requires tag != "" && LongestStart(s, tag, k)
    ensures SafeLength(s, tag) == |s| - k
  {
    var l := |s| - SafeLength(s, tag);
    assert MayStart(s, tag, l) && MayStart(s, tag, k);
  }

  class ThinkSplitter {
    var inThink: bool
    var buffer: string
    ghost var received: seq<string>
    ghost var emitted: Pieces

    /** The splitter has emitted, and holds back, exactly what these chunks call for. */
    ghost predicate Valid()
      reads this
    {
      Fed(received) == Feed(emitted, inThink, buffer)
    }

    constructor ()
      ensures Valid() && received == []
    {
      inThink, buffer, received, emitted := false, "", [], NONE;
    }

    /** Emits every complete segment, then what is safe of the last one. */
    method Scan() returns (text: string, thinking: string)
      modifies this`inThink, this`buffer
      ensures Advance(Pieces(text, thinking), inThink, buffer) == Advanced(old(inThink), old(buffer))
    {
      hide Advanced, Index, SafeLength;
      text, thinking := "", "";
      ghost var whole := Advanced(inThink, buffer);
      NoneThen(whole.out);
      while true
        invariant var rest := Advanced(inThink, buffer);
                  whole == rest.(out := Pieces(text, thinking).Then(rest.out))
        decreases |buffer|
      {
        ghost var before := Pieces(text, thinking);
        var tag := Sought(inThink);
        var i := Index(buffer, tag);
        if i < 0 {
          AdvancedNone(inThink, buffer);
          var safe := SafeEmitLength(buffer, tag);
          if inThink { thinking := thinking + buffer[..safe]; } else { text := text + buffer[..safe]; }
          assert Pieces(text, thinking) == before.Then(Segment(buffer[..safe], inThink));
          buffer := buffer[safe..];
          break;
        }
        AdvancedFound(inThink, buffer, i);
        ThenAssociates(before, Segment(buffer[..i], inThink), Advanced(!inThink, buffer[i + |tag|..]).out);
        if inThink { thinking := thinking + buffer[..i]; } else { text := text + buffer[..i]; }
        assert Pieces(text, thinking) == before.Then(Segment(buffer[..i], inThink));
        buffer := buffer[i + |tag|..];
        inThink := !inThink;
      }
    }

    method Process(delta: string) returns (text: string, thinking: string)
      requires Valid()
      modifies this
      ensures Valid() && received == old(received) + [delta]
      ensures emitted == old(emitted).Then(Pieces(text, thinking))
      ensures |buffer| < |Sought(inThink)|
    {
      hide Advanced;
      FedNext(received, delta);
      AdvanceSplits(inThink, buffer + delta, "");
      received := received + [delta];
      buffer := buffer + delta;
      text, thinking := Scan();
      emitted := emitted.Then(Pieces(text, thinking));
    }

    /** Drains what is held back; with it, everything emitted is the split of everything received. */
    method Flush() returns (text: string, thinking: string)
      requires Valid()
      modifies this`buffer
      ensures old(emitted).Then(Pieces(text, thinking)) == Split(Concat(received), false)
      ensures buffer == ""
    {
      StreamingEqualsBatch(received);
      text, thinking := "", "";
      if buffer == "" {
        return;
      }
      if inThink { thinking := buffer; } else { text := buffer; }
      buffer := "";
    }
  }
}
