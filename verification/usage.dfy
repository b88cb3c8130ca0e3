/** Folding a list with an operation whose arguments may be taken in any order. */
module Folding {

  ghost predicate Exchanges<T(!new)>(add: (T, T) -> T, fits: T -> bool) {
    && (forall t, x :: fits(t) && fits(x) ==> fits(add(t, x)))
    && (forall t, x, y :: fits(t) && fits(x) && fits(y) ==> add(add(t, x), y) == add(add(t, y), x))
  }

  function Fold<T>(add: (T, T) -> T, zero: T, l: seq<T>): T {
    if l == [] then zero else add(Fold(add, zero, l[..|l| - 1]), l[|l| - 1])
  }

  lemma {:induction false} FoldFits<T(!new)>(add: (T, T) -> T, fits: T -> bool, zero: T, l: seq<T>)
    requires Exchanges(add, fits) && fits(zero) && forall x :: x in l ==> fits(x)
    ensures fits(Fold(add, zero, l))
  {
    if l != [] {
      FoldFits(add, fits, zero, l[..|l| - 1]);
    }
  }

  /** The list without its `i`-th element. */
  function Without<T>(l: seq<T>, i: nat): seq<T>
    requires i < |l|
  {
    l[..i] + l[i + 1..]
  }

  lemma WithoutBeforeLast<T>(l: seq<T>, i: nat)
    requires i < |l| - 1
    ensures Without(l, i) == Without(l[..|l| - 1], i) + [l[|l| - 1]]
    ensures Without(l, i)[..|l| - 2] == Without(l[..|l| - 1], i)
    ensures l[..|l| - 1][i] == l[i]
  {
  }

  lemma WithoutCounts<T>(l: seq<T>, i: nat)
    requires i < |l|
    ensures multiset(Without(l, i)) == multiset(l) - multiset{l[i]}
  {
    assert l == l[..i] + ([l[i]] + l[i + 1..]);
    assert multiset(l) == multiset(l[..i]) + multiset([l[i]] + l[i + 1..]);
  }

  lemma Swap<T(!new)>(add: (T, T) -> T, fits: T -> bool, t: T, x: T, y: T)
    requires Exchanges(add, fits) && fits(t) && fits(x) && fits(y)
    ensures add(add(t, x), y) == add(add(t, y), x)
  {
  }

  /** Any element may be folded in last. */
  lemma {:induction false} FoldRemove<T(!new)>(add: (T, T) -> T, fits: T -> bool, zero: T, l: seq<T>, i: nat)
    requires Exchanges(add, fits) && fits(zero) && forall x :: x in l ==> fits(x)
    requires i < |l|
    ensures Fold(add, zero, l) == add(Fold(add, zero, Without(l, i)), l[i])
    decreases |l|
  {
    var n := |l| - 1;
    if i < n {
      var rest := Without(l[..n], i);
      FoldRemove(add, fits, zero, l[..n], i);
      WithoutBeforeLast(l, i);
      assert forall x :: x in rest ==> x in l;
      FoldFits(add, fits, zero, rest);
      Swap(add, fits, Fold(add, zero, rest), l[i], l[n]);
    } else {
      assert Without(l, i) == l[..n];
    }
  }

  /** Finds the last element of `a` in its rearrangement `b`. */
  lemma MatchLast<T>(a: seq<T>, b: seq<T>) returns (i: nat)
    requires a != [] && multiset(a) == multiset(b)
    ensures i < |b| && b[i] == a[|a| - 1]
    ensures multiset(a[..|a| - 1]) == multiset(Without(b, i))
    ensures forall x :: x in b ==> x in a
  {
    var n := |a| - 1;
    assert a[n] in multiset(b);
    i :| 0 <= i < |b| && b[i] == a[n];
    WithoutCounts(a, n);
    WithoutCounts(b, i);
    assert Without(a, n) == a[..n];
    forall x | x in b ensures x in a {
      assert x in multiset(b);
    }
  }

  /** The fold does not depend on the order of the list. */
  lemma {:induction false} FoldPermutes<T(!new)>(add: (T, T) -> T, fits: T -> bool, zero: T, a: seq<T>, b: seq<T>)
    requires Exchanges(add, fits) && fits(zero) && forall x :: x in a ==> fits(x)
    requires multiset(a) == multiset(b)
    ensures Fold(add, zero, a) == Fold(add, zero, b)
    decreases |a|
  {
    assert |multiset(a)| == |multiset(b)|;
    if a != [] {
      var i := MatchLast(a, b);
      FoldRemove(add, fits, zero, b, i);
      FoldPermutes(add, fits, zero, a[..|a| - 1], Without(b, i));
    }
  }
}

/** Token usage with saturating sums: a commutative monoid on normalised values. */
module TokenUsage {
  import opened Folding

  /** The largest value of the program's 64-bit integer. */
  const MAX_INT: int := 0x7FFF_FFFF_FFFF_FFFF

  datatype Usage = Usage(
    inputTokens: int,
    cachedInputTokens: int,
    cachedInputTokensReported: bool,
    cacheWriteInputTokens: int,
    cacheWriteInputTokensReported: bool,
    outputTokens: int,
    reasoningTokens: int,
    totalTokens: int)

  const ZERO := Usage(0, 0, false, 0, false, 0, 0, 0)

  function Max(a: int, b: int): int { if a >= b then a else b }
  function Min(a: int, b: int): int { if a <= b then a else b }

  /** Adds two counts, stopping at the largest integer. The guard subtracts from
      the maximum, so for counts it never leaves the integer range itself. */
  function SaturatingAdd(left: int, right: int): (sum: int)
    ensures 0 <= left && 0 <= right && left <= MAX_INT && right <= MAX_INT ==> sum == Min(MAX_INT, left + right)
  {
    if left >= MAX_INT - right then MAX_INT else left + right
  }

  function Normalized(u: Usage): Usage {
    var input := Max(0, u.inputTokens);
    var cached := Min(Max(0, u.cachedInputTokens), input);
    var written := Min(Max(0, u.cacheWriteInputTokens), input);
    var output := Max(0, u.outputTokens);
    Usage(input, cached, u.cachedInputTokensReported || cached > 0,
          written, u.cacheWriteInputTokensReported || written > 0,
          output, Min(Max(0, u.reasoningTokens), output),
          Max(Max(0, u.totalTokens), SaturatingAdd(input, output)))
  }

  function Add(a: Usage, b: Usage): Usage {
    var u, v := Normalized(a), Normalized(b);
    Usage(SaturatingAdd(u.inputTokens, v.inputTokens),
          SaturatingAdd(u.cachedInputTokens, v.cachedInputTokens),
          u.cachedInputTokensReported || v.cachedInputTokensReported,
          SaturatingAdd(u.cacheWriteInputTokens, v.cacheWriteInputTokens),
          u.cacheWriteInputTokensReported || v.cacheWriteInputTokensReported,
          SaturatingAdd(u.outputTokens, v.outputTokens),
          SaturatingAdd(u.reasoningTokens, v.reasoningTokens),
          SaturatingAdd(u.totalTokens, v.totalTokens))
  }

  /** Every count fits the program's integer. */
  predicate Fits(u: Usage) {
    && -MAX_INT - 1 <= u.inputTokens <= MAX_INT
    && -MAX_INT - 1 <= u.cachedInputTokens <= MAX_INT
    && -MAX_INT - 1 <= u.cacheWriteInputTokens <= MAX_INT
    && -MAX_INT - 1 <= u.outputTokens <= MAX_INT
    && -MAX_INT - 1 <= u.reasoningTokens <= MAX_INT
    && -MAX_INT - 1 <= u.totalTokens <= MAX_INT
  }

  /** What a normalised usage looks like, independently of how it was computed. */
  predicate Consistent(u: Usage) {
    && 0 <= u.cachedInputTokens <= u.inputTokens <= MAX_INT
    && 0 <= u.cacheWriteInputTokens <= u.inputTokens
    && 0 <= u.reasoningTokens <= u.outputTokens <= MAX_INT
    && Min(MAX_INT, u.inputTokens + u.outputTokens) <= u.totalTokens <= MAX_INT
    && (u.cachedInputTokens > 0 ==> u.cachedInputTokensReported)
    && (u.cacheWriteInputTokens > 0 ==> u.cacheWriteInputTokensReported)
  }

  /** Normalising yields a consistent usage and leaves exactly the consistent ones alone. */
  lemma NormalizedConsistent(u: Usage)
    requires Fits(u)
    ensures Consistent(Normalized(u))
    ensures Normalized(u) == u <==> Consistent(u)
  {
  }

  /** `r` is `x` moved into the range from `low` to `high`, no further than it must be. */
  predicate Clipped(x: int, low: int, high: int, r: int) {
    low <= r <= high && (r == x || (x < low && r == low) || (high < x && r == high))
  }

  /** Normalising clips each count: to no less than zero, a part to no more than the whole it is
      part of, and the total to no less than input and output together. */
  lemma NormalizedClips(u: Usage)
    requires Fits(u)
    ensures var r := Normalized(u);
            && Clipped(u.inputTokens, 0, MAX_INT, r.inputTokens) && Clipped(u.outputTokens, 0, MAX_INT, r.outputTokens)
            && Clipped(u.cachedInputTokens, 0, r.inputTokens, r.cachedInputTokens)
            && Clipped(u.cacheWriteInputTokens, 0, r.inputTokens, r.cacheWriteInputTokens)
            && Clipped(u.reasoningTokens, 0, r.outputTokens, r.reasoningTokens)
            && Clipped(u.totalTokens, Min(MAX_INT, r.inputTokens + r.outputTokens), MAX_INT, r.totalTokens)
            && (r.cachedInputTokensReported <==> u.cachedInputTokensReported || r.cachedInputTokens > 0)
            && (r.cacheWriteInputTokensReported <==> u.cacheWriteInputTokensReported || r.cacheWriteInputTokens > 0)
  {
  }

  lemma AddConsistent(a: Usage, b: Usage)
    requires Fits(a) && Fits(b)
    ensures Fits(Add(a, b)) && Consistent(Add(a, b))
  {
    NormalizedConsistent(a);
    NormalizedConsistent(b);
  }

  lemma AddCommutes(a: Usage, b: Usage)
    requires Fits(a) && Fits(b)
    ensures Add(a, b) == Add(b, a)
  {
    NormalizedConsistent(a);
    NormalizedConsistent(b);
  }

  lemma SaturatingAssociates(a: int, b: int, c: int)
    requires 0 <= a <= MAX_INT && 0 <= b <= MAX_INT && 0 <= c <= MAX_INT
    ensures SaturatingAdd(SaturatingAdd(a, b), c) == SaturatingAdd(a, SaturatingAdd(b, c))
  {
  }

  /** The sum of two consistent usages needs no normalising. */
  lemma AddOfConsistent(u: Usage, v: Usage, w: Usage)
    requires Consistent(u) && Consistent(v) && Consistent(w)
    ensures Add(Add(u, v), w) == Add(u, Add(v, w))
  {
    NormalizedConsistent(u);
    NormalizedConsistent(v);
    NormalizedConsistent(w);
    AddConsistent(u, v);
    AddConsistent(v, w);
    NormalizedConsistent(Add(u, v));
    NormalizedConsistent(Add(v, w));
    SaturatingAssociates(u.inputTokens, v.inputTokens, w.inputTokens);
    SaturatingAssociates(u.cachedInputTokens, v.cachedInputTokens, w.cachedInputTokens);
    SaturatingAssociates(u.cacheWriteInputTokens, v.cacheWriteInputTokens, w.cacheWriteInputTokens);
    SaturatingAssociates(u.outputTokens, v.outputTokens, w.outputTokens);
    SaturatingAssociates(u.reasoningTokens, v.reasoningTokens, w.reasoningTokens);
    SaturatingAssociates(u.totalTokens, v.totalTokens, w.totalTokens);
  }

  lemma AddNormalizes(a: Usage, b: Usage)
    requires Fits(a) && Fits(b)
    ensures Add(a, b) == Add(Normalized(a), b) == Add(a, Normalized(b)) == Add(Normalized(a), Normalized(b))
  {
    NormalizedConsistent(a);
    NormalizedConsistent(b);
    NormalizedConsistent(Normalized(a));
    NormalizedConsistent(Normalized(b));
  }

  lemma AddAssociates(a: Usage, b: Usage, c: Usage)
    requires Fits(a) && Fits(b) && Fits(c)
    ensures Add(Add(a, b), c) == Add(a, Add(b, c))
  {
    NormalizedConsistent(a);
    NormalizedConsistent(b);
    NormalizedConsistent(c);
    AddConsistent(a, b);
    AddConsistent(b, c);
    AddNormalizes(a, b);
    AddNormalizes(b, c);
    AddNormalizes(Add(a, b), c);
    AddNormalizes(a, Add(b, c));
    AddOfConsistent(Normalized(a), Normalized(b), Normalized(c));
  }

  /** Zero is the identity on exactly the consistent usages; on others adding zero normalises. */
  lemma ZeroIdentity(u: Usage)
    requires Fits(u)
    ensures Add(u, ZERO) == Add(ZERO, u) == Normalized(u)
    ensures Add(u, ZERO) == u <==> Consistent(u)
  {
    NormalizedConsistent(u);
  }

  /** The total a collector holds after these reports, in this order. */
  function Total(reports: seq<Usage>): Usage {
    Fold(Add, ZERO, reports)
  }

  datatype Field = Input | Cached | Written | Output | Reasoning | All

  function Count(u: Usage, field: Field): int {
    match field
    case Input => u.inputTokens
    case Cached => u.cachedInputTokens
    case Written => u.cacheWriteInputTokens
    case Output => u.outputTokens
    case Reasoning => u.reasoningTokens
    case All => u.totalTokens
  }

  /** The plain sum of one count over the reports, each normalised. */
  function Sum(reports: seq<Usage>, field: Field): int {
    if reports == [] then 0 else Count(Normalized(reports[0]), field) + Sum(reports[1..], field)
  }

  lemma {:induction false} SumPush(reports: seq<Usage>, u: Usage, field: Field)
    ensures Sum(reports + [u], field) == Sum(reports, field) + Count(Normalized(u), field)
  {
    hide Normalized;
    if reports == [] {
      assert [u][1..] == [] && [] + [u] == [u];
    } else {
      SumPush(reports[1..], u, field);
      assert (reports + [u])[1..] == reports[1..] + [u];
    }
  }

  /** Every count of a sum is the sum of the two normalised counts, capped, and a flag is set when either sets it. */
  lemma AddSums(a: Usage, b: Usage, field: Field)
    requires Fits(a) && Fits(b)
    ensures Count(Add(a, b), field) == Min(MAX_INT, Count(Normalized(a), field) + Count(Normalized(b), field))
    ensures 0 <= Count(Normalized(b), field)
    ensures Add(a, b).cachedInputTokensReported
            <==> Normalized(a).cachedInputTokensReported || Normalized(b).cachedInputTokensReported
    ensures Add(a, b).cacheWriteInputTokensReported
            <==> Normalized(a).cacheWriteInputTokensReported || Normalized(b).cacheWriteInputTokensReported
  {
    NormalizedConsistent(a);
    NormalizedConsistent(b);
  }

  /** Nothing is lost: every count of a total is the plain sum of what was reported, capped once,
      and a flag is set exactly when some report sets it. */
  lemma {:induction false} TotalSums(reports: seq<Usage>, field: Field)
    requires forall r :: r in reports ==> Fits(r)
    ensures Count(Total(reports), field) == Min(MAX_INT, Sum(reports, field)) && 0 <= Sum(reports, field)
    ensures Consistent(Total(reports)) && Fits(Total(reports))
    ensures Total(reports).cachedInputTokensReported
            <==> exists r :: r in reports && Normalized(r).cachedInputTokensReported
    ensures Total(reports).cacheWriteInputTokensReported
            <==> exists r :: r in reports && Normalized(r).cacheWriteInputTokensReported
  {
    hide Normalized, Add, Consistent, Fits, Count;
    if reports == [] {
      NothingTotal(field);
    } else {
      var n := |reports| - 1;
      var before, u := reports[..n], reports[n];
      assert reports == before + [u];
      TotalSums(before, field);
      SumPush(before, u, field);
      AddSums(Total(before), u, field);
      AddConsistent(Total(before), u);
      NormalizedConsistent(Total(before));
      assert forall r :: r in reports <==> r in before || r == u;
    }
  }

  lemma NothingTotal(field: Field)
    ensures Total([]) == ZERO && Count(ZERO, field) == 0 && Consistent(ZERO) && Fits(ZERO) && Sum([], field) == 0
    ensures !ZERO.cachedInputTokensReported && !ZERO.cacheWriteInputTokensReported
  {
  }

  lemma AddExchanges()
    ensures Exchanges(Add, Fits)
  {
    forall t, x | Fits(t) && Fits(x) ensures Fits(Add(t, x)) {
      AddConsistent(t, x);
    }
    forall t, x, y | Fits(t) && Fits(x) && Fits(y) ensures Add(Add(t, x), y) == Add(Add(t, y), x) {
      AddAssociates(t, x, y);
      AddCommutes(x, y);
      AddAssociates(t, y, x);
    }
  }

  /** Concurrent children may report in any order: the total is the same. */
  lemma TotalOrderIndependent(a: seq<Usage>, b: seq<Usage>)
    requires multiset(a) == multiset(b)
    requires forall r :: r in a ==> Fits(r)
    ensures Total(a) == Total(b)
  {
    AddExchanges();
    FoldPermutes(Add, Fits, ZERO, a, b);
  }

  /** Gathers what the child agents of one tool batch spent. */
  class UsageCollector {
    var usage: Usage
    ghost var reports: seq<Usage>

    ghost predicate Valid()
      reads this
    {
      usage == Total(reports)
    }

    constructor ()
      ensures Valid() && reports == []
    {
      usage := ZERO;
      reports := [];
    }

    method Report(u: Usage)
      requires Valid()
      modifies this
      ensures Valid() && reports == old(reports) + [u]
    {
      assert (reports + [u])[..|reports|] == reports;
      usage := Add(usage, u);
      reports := reports + [u];
    }
  }
}
