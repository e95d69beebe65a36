/** Layouts: how a set of entries is cut into shards by declared sizes and first keys, and why
checks made one shard at a time force the cut to be a partition. */
module Partition {
  import opened Ranking

  const MIN_SHARD_SIZE := 1
  const MAX_SHARD_SIZE := 13
  const SHARD_WINNERS := 3

  /** One size and one first key per shard in use. */
  datatype LayoutData = Layout(sizes: seq<nat>, bounds: seq<Key>)

  type Layout = l: LayoutData | |l.sizes| == |l.bounds| witness Layout([], [])

  function SumTo(s: seq<nat>, m: nat): nat
    requires m <= |s|
  {
    if m == 0 then 0 else SumTo(s, m - 1) + s[m - 1]
  }

  function Sum(s: seq<nat>): nat {
    SumTo(s, |s|)
  }

  predicate SizesInRange(sizes: seq<nat>) {
    forall k :: 0 <= k < |sizes| ==> MIN_SHARD_SIZE <= sizes[k] <= MAX_SHARD_SIZE
  }

  predicate WellFormed(l: Layout) {
    && |l.bounds| >= 1
    && SizesInRange(l.sizes)
    && Ascending(l.bounds)
  }

  /** x lies in the declared interval of shard k; the last interval is open above. */
  predicate InInterval(l: Layout, k: nat, x: Key)
    requires k < |l.bounds|
  {
    l.bounds[k] <= x && (k + 1 < |l.bounds| ==> x < l.bounds[k + 1])
  }

  function Cell(l: Layout, g: set<Key>, k: nat): set<Key>
    requires k < |l.bounds|
  {
    set x | x in g && InInterval(l, k, x)
  }

  /** The declared sizes are the true sizes: the layout really is a partition of g. */
  predicate Exact(l: Layout, g: set<Key>)
  {
    && (forall k :: 0 <= k < |l.sizes| ==> |Cell(l, g, k)| == l.sizes[k])
    && (forall x :: x in g ==> exists k :: 0 <= k < |l.bounds| && InInterval(l, k, x))
  }

  /** What the per-shard checks accept as the entries of shard k. */
  predicate Accepts(l: Layout, g: set<Key>, k: nat, list: seq<Key>)
    requires k < |l.bounds|
  {
    && |list| == l.sizes[k]
    && Ascending(list)
    && (forall i :: 0 <= i < |list| ==> list[i] in g && InInterval(l, k, list[i]))
    && (list != [] ==> list[0] == l.bounds[k])
  }

  lemma IntervalsDisjoint(l: Layout, j: nat, k: nat, x: Key)
    requires WellFormed(l) && j < |l.bounds| && k < |l.bounds|
    requires InInterval(l, j, x) && InInterval(l, k, x)
    ensures j == k
  {
  }

  lemma AcceptedFillsCell(l: Layout, g: set<Key>, k: nat, list: seq<Key>)
    requires k < |l.bounds| && Accepts(l, g, k, list)
    ensures Members(list) <= Cell(l, g, k)
    ensures |Cell(l, g, k)| >= l.sizes[k] == |list|
    ensures Exact(l, g) ==> Members(list) == Cell(l, g, k) && list == Sorted(Cell(l, g, k))
  {
    MembersSize(list);
    SubsetSize(Members(list), Cell(l, g, k));
    if Exact(l, g) {
      AscendingUnique(list, Sorted(Cell(l, g, k)));
    }
  }

  // ---- the pigeonhole ----------------------------------------------------------------------

  /** The part of g below shard m, from the first bound up. */
  function Prefix(l: Layout, g: set<Key>, m: nat): set<Key>
    requires 0 < |l.bounds| && m <= |l.bounds|
  {
    set x | x in g && l.bounds[0] <= x && (m < |l.bounds| ==> x < l.bounds[m])
  }

  function CellSizes(l: Layout, g: set<Key>): (s: seq<nat>)
    ensures |s| == |l.bounds|
  {
    seq(|l.bounds|, k requires 0 <= k < |l.bounds| => |Cell(l, g, k)|)
  }

  lemma {:induction false} PrefixSize(l: Layout, g: set<Key>, m: nat)
    requires WellFormed(l) && m <= |l.bounds|
    ensures |Prefix(l, g, m)| == SumTo(CellSizes(l, g), m)
  {
    if m == 0 {
      assert Prefix(l, g, 0) == {};
    } else {
      PrefixSize(l, g, m - 1);
      assert Prefix(l, g, m) == Prefix(l, g, m - 1) + Cell(l, g, m - 1);
      assert Prefix(l, g, m - 1) * Cell(l, g, m - 1) == {};
    }
  }

  lemma {:induction false} SumDominates(a: seq<nat>, b: seq<nat>, m: nat)
    requires |a| == |b| && m <= |a|
    requires forall k :: 0 <= k < m ==> a[k] >= b[k]
    ensures SumTo(a, m) >= SumTo(b, m)
    ensures SumTo(a, m) == SumTo(b, m) ==> forall k :: 0 <= k < m ==> a[k] == b[k]
  {
    if m > 0 {
      SumDominates(a, b, m - 1);
    }
  }

  lemma {:induction false} InSomeInterval(l: Layout, x: Key, m: nat)
    requires WellFormed(l) && 0 < m <= |l.bounds|
    requires l.bounds[0] <= x && (m < |l.bounds| ==> x < l.bounds[m])
    ensures exists k :: 0 <= k < m && InInterval(l, k, x)
  {
    if l.bounds[m - 1] <= x {
      assert InInterval(l, m - 1, x);
    } else {
      InSomeInterval(l, x, m - 1);
    }
  }

  /** Sizes that sum to the number of entries, together with at least that many entries found in
  every shard, leave no room: every shard holds exactly its share and nobody is outside. */
  lemma ForcedPartition(l: Layout, g: set<Key>)
    requires WellFormed(l) && Sum(l.sizes) == |g|
    requires forall k :: 0 <= k < |l.sizes| ==> |Cell(l, g, k)| >= l.sizes[k]
    ensures Exact(l, g)
  {
    var n := |l.bounds|;
    PrefixSize(l, g, n);
    SubsetSize(Prefix(l, g, n), g);
    SumDominates(CellSizes(l, g), l.sizes, n);
    forall x | x in g ensures exists k :: 0 <= k < |l.bounds| && InInterval(l, k, x) {
      assert x in Prefix(l, g, n);
      InSomeInterval(l, x, n);
    }
    forall k | 0 <= k < n ensures |Cell(l, g, k)| == l.sizes[k] {
      assert CellSizes(l, g)[k] == l.sizes[k];
    }
  }

  // ---- balanced slices of an ascending list ------------------------------------------------

  /** The fewest shards of at most `max`, as even as possible. */
  function BalancedCount(n: nat, max: nat): nat
    requires max > 0
  {
    (n + max - 1) / max
  }

  /** Slice k of n in `count` slices as even as possible: the first n % count get one more. */
  function Share(n: nat, count: nat, k: nat): nat
    requires count > 0
  {
    n / count + (if k < n % count then 1 else 0)
  }

  function ShareOut(n: nat, count: nat): (s: seq<nat>)
    requires count > 0
    ensures |s| == count
  {
    seq(count, k requires 0 <= k < count => Share(n, count, k))
  }

  function BalancedSizes(n: nat, max: nat): (s: seq<nat>)
    requires max > 0
    ensures |s| == BalancedCount(n, max)
  {
    if BalancedCount(n, max) == 0 then [] else ShareOut(n, BalancedCount(n, max))
  }

  lemma BalancedSizeAt(n: nat, max: nat, k: nat)
    requires max > 0 && k < BalancedCount(n, max)
    ensures var c := BalancedCount(n, max);
            BalancedSizes(n, max)[k] == n / c + (if k < n % c then 1 else 0)
  {
  }

  lemma {:induction false} BalancedSumTo(n: nat, max: nat, m: nat)
    requires max > 0 && m <= BalancedCount(n, max)
    ensures var c := BalancedCount(n, max);
            c > 0 ==> SumTo(BalancedSizes(n, max), m) == m * (n / c) + Min(m, n % c)
  {
    if m > 0 {
      BalancedSumTo(n, max, m - 1);
      var c := BalancedCount(n, max);
      assert m * (n / c) == (m - 1) * (n / c) + n / c;
    }
  }

  lemma MulMonotone(a: nat, b: nat, c: nat)
    requires a <= b
    ensures a * c <= b * c && c * a <= c * b
  {
  }

  lemma CountIsLeast(n: nat, max: nat)
    requires n > 0 && max > 0
    ensures var c := BalancedCount(n, max); 1 <= c <= n && (c - 1) * max < n <= c * max
  {
    var c := BalancedCount(n, max);
    var r := (n + max - 1) % max;
    assert n + max - 1 == max * c + r;
    assert max * c == c * max;
    if c > 0 {
      assert (c - 1) * max == c * max - max;
      MulMonotone(1, max, c - 1);
    }
  }

  lemma ShareInRange(n: nat, c: nat, max: nat)
    requires 1 <= c <= n <= c * max
    ensures 1 <= n / c <= max && (n % c > 0 ==> n / c < max)
  {
    var q, r := n / c, n % c;
    assert n == c * q + r && c * (max + 1) == c * max + c;
    if q > max {
      MulMonotone(max + 1, q, c);
    }
  }

  lemma BalancedSizesFit(n: nat, max: nat)
    requires n > 0 && max > 0
    ensures BalancedCount(n, max) >= 1
    ensures Sum(BalancedSizes(n, max)) == n
    ensures forall k :: 0 <= k < BalancedCount(n, max) ==> 1 <= BalancedSizes(n, max)[k] <= max
  {
    var c := BalancedCount(n, max);
    CountIsLeast(n, max);
    ShareInRange(n, c, max);
    BalancedSumTo(n, max, c);
    DivModBack(n, c);
    forall k | 0 <= k < c ensures 1 <= BalancedSizes(n, max)[k] <= max {
      assert BalancedSizes(n, max)[k] == n / c + (if k < n % c then 1 else 0);
    }
  }

  lemma DivModBack(n: nat, c: nat)
    requires c > 0
    ensures c * (n / c) + n % c == n && n % c < c
  {
  }

  /** Cut an ascending list into consecutive slices of the given sizes. */
  function SliceLayout(a: seq<Key>, sizes: seq<nat>): Layout
    requires Sum(sizes) == |a| && SizesInRange(sizes)
  {
    Layout(sizes, seq(|sizes|, k requires 0 <= k < |sizes| => SliceStart(a, sizes, k)))
  }

  function SliceStart(a: seq<Key>, sizes: seq<nat>, k: nat): Key
    requires Sum(sizes) == |a| && SizesInRange(sizes) && k < |sizes|
  {
    SumToStrict(sizes, k, |sizes|);
    a[SumTo(sizes, k)]
  }

  lemma {:induction false} SumToStrict(s: seq<nat>, j: nat, m: nat)
    requires SizesInRange(s) && j <= m <= |s|
    ensures SumTo(s, j) <= SumTo(s, m)
    ensures j < m ==> SumTo(s, j) + s[j] <= SumTo(s, m)
  {
    if j < m {
      SumToStrict(s, j, m - 1);
    }
  }

  function Slice(a: seq<Key>, sizes: seq<nat>, k: nat): seq<Key>
    requires Sum(sizes) == |a| && SizesInRange(sizes) && k < |sizes|
  {
    SumToStrict(sizes, k, |sizes|);
    a[SumTo(sizes, k)..SumTo(sizes, k) + sizes[k]]
  }

  lemma SliceLayoutWellFormed(a: seq<Key>, sizes: seq<nat>)
    requires Sum(sizes) == |a| && SizesInRange(sizes) && Ascending(a) && sizes != []
    ensures WellFormed(SliceLayout(a, sizes))
  {
    var l := SliceLayout(a, sizes);
    forall j, k | 0 <= j < k < |sizes| ensures l.bounds[j] < l.bounds[k] {
      SumToStrict(sizes, j, k);
      SumToStrict(sizes, k, |sizes|);
    }
  }

  /** A slice is what its own layout accepts, and the only thing in its interval. */
  lemma SliceAccepted(a: seq<Key>, sizes: seq<nat>, k: nat)
    requires Sum(sizes) == |a| && SizesInRange(sizes) && Ascending(a) && k < |sizes|
    ensures Accepts(SliceLayout(a, sizes), Members(a), k, Slice(a, sizes, k))
  {
    var l, s := SliceLayout(a, sizes), Slice(a, sizes, k);
    var start := SumTo(sizes, k);
    SumToStrict(sizes, k, |sizes|);
    forall i | 0 <= i < |s| ensures s[i] in Members(a) && InInterval(l, k, s[i]) {
      assert s[i] == a[start + i];
      if k + 1 < |sizes| {
        SumToStrict(sizes, k + 1, |sizes|);
        assert l.bounds[k + 1] == a[start + sizes[k]];
      }
    }
  }

  lemma SliceLayoutExact(a: seq<Key>, sizes: seq<nat>)
    requires Sum(sizes) == |a| && SizesInRange(sizes) && Ascending(a) && sizes != []
    ensures WellFormed(SliceLayout(a, sizes)) && Exact(SliceLayout(a, sizes), Members(a))
    ensures forall k :: 0 <= k < |sizes| ==> Slice(a, sizes, k) == Sorted(Cell(SliceLayout(a, sizes), Members(a), k))
  {
    var l := SliceLayout(a, sizes);
    SliceLayoutWellFormed(a, sizes);
    MembersSize(a);
    forall k | 0 <= k < |sizes| ensures |Cell(l, Members(a), k)| >= sizes[k] {
      SliceAccepted(a, sizes, k);
      AcceptedFillsCell(l, Members(a), k, Slice(a, sizes, k));
    }
    ForcedPartition(l, Members(a));
    forall k | 0 <= k < |sizes| ensures Slice(a, sizes, k) == Sorted(Cell(l, Members(a), k)) {
      SliceAccepted(a, sizes, k);
      AcceptedFillsCell(l, Members(a), k, Slice(a, sizes, k));
    }
  }
}
