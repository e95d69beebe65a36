/** The client's partition of a round: raw-byte order, balanced sizes, consecutive chunks. The
program only verifies it; here both sides are shown to meet. */
module Planner {
  import opened Ranking
  import opened Circuit
  import opened Partition
  import opened Accounts
  import opened Instructions

  // ---- byte order --------------------------------------------------------------------------

  const KEY_BYTES := 32

  /** The address as a big-endian number. */
  function Number(bytes: seq<Byte>): nat {
    if bytes == [] then 0 else Number(bytes[..|bytes| - 1]) * 256 + bytes[|bytes| - 1]
  }

  lemma {:induction false} NumberOrder(x: seq<Byte>, y: seq<Byte>, i: nat)
    requires |x| == |y| && i < |x| && x[..i] == y[..i] && x[i] < y[i]
    ensures Number(x) < Number(y)
  {
    var n := |x| - 1;
    if i < n {
      assert x[..n][..i] == x[..i] && y[..n][..i] == y[..i];
      NumberOrder(x[..n], y[..n], i);
    } else {
      assert x[..n] == y[..n];
    }
  }

  /** Byte by byte, first difference decides: exactly the order of the numbers, and zero only for
  one and the same address. */
  method CompareEntryKeys(x: seq<Byte>, y: seq<Byte>) returns (c: int)
    requires |x| == |y| == KEY_BYTES
    ensures c < 0 <==> Number(x) < Number(y)
    ensures c > 0 <==> Number(x) > Number(y)
    ensures c == 0 <==> x == y
  {
    for i := 0 to KEY_BYTES
      invariant x[..i] == y[..i]
    {
      if x[i] != y[i] {
        if x[i] < y[i] {
          NumberOrder(x, y, i);
        } else {
          NumberOrder(y, x, i);
        }
        return x[i] as int - y[i] as int;
      }
    }
    assert x == y;
    c := 0;
  }

  // ---- sorting -----------------------------------------------------------------------------

  predicate NonDescending(l: seq<Key>) {
    forall i, j :: 0 <= i < j < |l| ==> l[i] <= l[j]
  }

  method InsertKey(l: seq<Key>, key: Key) returns (out: seq<Key>)
    requires NonDescending(l)
    ensures NonDescending(out) && multiset(out) == multiset(l) + multiset{key}
  {
    var pos: nat := |l|;
    while pos > 0 && l[pos - 1] > key
      invariant pos <= |l| && forall j :: pos <= j < |l| ==> l[j] > key
    {
      pos := pos - 1;
    }
    out := l[..pos] + [key] + l[pos..];
    InsertedInOrder(l, key, pos);
    InsertedOnce(l, key, pos);
  }

  lemma InsertedInOrder(l: seq<Key>, key: Key, pos: nat)
    requires NonDescending(l) && pos <= |l|
    requires (pos > 0 ==> l[pos - 1] <= key) && (pos < |l| ==> key <= l[pos])
    ensures NonDescending(l[..pos] + [key] + l[pos..])
  {
    var out := l[..pos] + [key] + l[pos..];
    forall i, j | 0 <= i < j < |out| ensures out[i] <= out[j] {
      if i < pos && j > pos {
        assert out[i] == l[i] && out[j] == l[j - 1];
      } else if j < pos {
        assert out[i] == l[i] && out[j] == l[j];
      } else if i > pos {
        assert out[i] == l[i - 1] && out[j] == l[j - 1];
      } else if i == pos {
        assert out[i] == key && out[j] == l[j - 1];
      } else {
        assert out[i] == l[i] && out[j] == key;
      }
    }
  }

  lemma InsertedOnce(l: seq<Key>, key: Key, pos: nat)
    requires pos <= |l|
    ensures multiset(l[..pos] + [key] + l[pos..]) == multiset(l) + multiset{key}
  {
    assert l == l[..pos] + l[pos..];
  }

  /** A sorted copy, as the library sort returns it; repeated keys stay repeated. */
  method SortEntriesByteWise(keys: seq<Key>) returns (sorted: seq<Key>)
    ensures NonDescending(sorted) && multiset(sorted) == multiset(keys)
  {
    sorted := [];
    for n := 0 to |keys|
      invariant NonDescending(sorted) && multiset(sorted) == multiset(keys[..n])
    {
      assert keys[..n + 1] == keys[..n] + [keys[n]];
      sorted := InsertKey(sorted, keys[n]);
    }
    assert keys[..|keys|] == keys;
  }

  lemma {:induction false} OnceEachIsDistinct(l: seq<Key>)
    requires forall x :: x in multiset(l) ==> multiset(l)[x] == 1
    ensures Distinct(l)
  {
    if l != [] {
      var n := |l| - 1;
      assert l == l[..n] + [l[n]];
      assert multiset(l) == multiset(l[..n]) + multiset{l[n]};
      forall x | x in multiset(l[..n]) ensures multiset(l[..n])[x] == 1 && x != l[n] {
        assert x in multiset(l) && l[n] in multiset(l);
      }
      OnceEachIsDistinct(l[..n]);
      forall i, j | 0 <= i < j < |l| ensures l[i] != l[j] {
        assert l[..n][i] in multiset(l[..n]);
        if j < n {
          assert l[..n][i] != l[..n][j];
        }
      }
    }
  }

  lemma DistinctSorted(keys: seq<Key>, sorted: seq<Key>)
    requires Distinct(keys) && NonDescending(sorted) && multiset(sorted) == multiset(keys)
    ensures sorted == Sorted(Members(keys))
  {
    forall x ensures x in sorted <==> x in keys {
      assert x in sorted <==> x in multiset(sorted);
      assert x in keys <==> x in multiset(keys);
    }
    DistinctCounts(keys);
    OnceEachIsDistinct(sorted);
    assert Members(sorted) == Members(keys);
    AscendingUnique(sorted, Sorted(Members(keys)));
  }

  lemma {:induction false} DistinctCounts(keys: seq<Key>)
    requires Distinct(keys)
    ensures forall x :: x in multiset(keys) ==> multiset(keys)[x] == 1
  {
    if keys != [] {
      var n := |keys| - 1;
      DistinctCounts(keys[..n]);
      assert keys == keys[..n] + [keys[n]];
      assert keys[n] !in keys[..n];
    }
  }

  // ---- sizes -------------------------------------------------------------------------------

  function Ceil(x: real): int {
    -((-x).Floor)
  }

  function PlanShardSizes(n: nat, max: nat): seq<nat>
    requires max > 0
  {
    if n == 0 then []
    else
      var raw := Ceil(n as real / max as real);
      ShareOut(n, if raw > 1 then raw else 1)
  }

  lemma MulLess(a: real, b: real, m: real)
    requires m > 0.0
    ensures a * m < b * m ==> a < b
    ensures a * m <= b * m ==> a <= b
  {
  }

  lemma RealProduct(a: int, b: int)
    ensures (a * b) as real == a as real * b as real
  {
  }

  lemma DivideBack(x: real, m: real)
    requires m > 0.0
    ensures (x / m) * m == x
  {
  }

  lemma RealQuotientBetween(n: real, low: real, high: real, m: real)
    requires m > 0.0 && low * m < n <= high * m
    ensures low < n / m <= high
  {
    var x := n / m;
    DivideBack(n, m);
    MulLess(low, x, m);
    MulLess(x, high, m);
  }

  lemma RealOrder(a: int, b: int)
    ensures a < b ==> a as real < b as real
    ensures a <= b ==> a as real <= b as real
  {
  }

  lemma QuotientBetween(n: nat, q: int, max: nat)
    requires max > 0 && (q - 1) * max < n <= q * max
    ensures (q - 1) as real < n as real / max as real <= q as real
  {
    RealProduct(q - 1, max);
    RealProduct(q, max);
    RealOrder((q - 1) * max, n);
    RealOrder(n, q * max);
    RealQuotientBetween(n as real, (q - 1) as real, q as real, max as real);
  }

  lemma CeilOfQuotient(n: nat, max: nat)
    requires n > 0 && max > 0
    ensures Ceil(n as real / max as real) == BalancedCount(n, max)
  {
    hide BalancedCount, Ceil;
    var q := BalancedCount(n, max);
    CountIsLeast(n, max);
    QuotientBetween(n, q, max);
    IsCeil(n as real / max as real, q);
  }

  lemma IsCeil(x: real, q: int)
    requires (q - 1) as real < x <= q as real
    ensures Ceil(x) == q
  {
  }

  /** The client divides in floating point, the program in integers: one and the same sizes. */
  lemma PlannedSizesAreBalanced(n: nat, max: nat)
    requires n > 0 && max > 0
    ensures PlanShardSizes(n, max) == BalancedSizes(n, max)
  {
    CeilOfQuotient(n, max);
    CountIsLeast(n, max);
  }

  function ExpectedTier1Winners(sizes: seq<nat>): nat {
    if sizes == [] then 0
    else ExpectedTier1Winners(sizes[..|sizes| - 1]) + Min(SHARD_WINNERS, sizes[|sizes| - 1])
  }

  // ---- the plan ----------------------------------------------------------------------------

  datatype ShardPlan = ShardPlan(entries: seq<Key>, bound: Key)

  datatype BracketPlan = BracketPlan(
    twoTier: bool, shards: seq<ShardPlan>, sizes: seq<nat>, finalReveal: bool, semifinalSizes: seq<nat>)

  datatype PlanOutcome = Planned(plan: BracketPlan) | NoEntries | TooManyEntries | TooManyShards

  function Bounds(plan: BracketPlan): seq<Key> {
    seq(|plan.shards|, k requires 0 <= k < |plan.shards| => plan.shards[k].bound)
  }

  /** The plan's shards are the consecutive slices of the ascending keys. */
  ghost predicate CutsUp(plan: BracketPlan, sorted: seq<Key>) {
    && |plan.shards| == |plan.sizes| && SizesInRange(plan.sizes) && Sum(plan.sizes) == |sorted|
    && forall k :: 0 <= k < |plan.shards| ==>
         plan.shards[k] == ShardPlan(Slice(sorted, plan.sizes, k), SliceStart(sorted, plan.sizes, k))
  }

  predicate PlanShape(plan: BracketPlan, n: nat) {
    && plan.twoTier == (n > SINGLE_TIER_CAPACITY)
    && plan.sizes == PlanShardSizes(n, MAX_SHARD_SIZE)
    && plan.finalReveal == (plan.twoTier || |plan.shards| > 1)
    && plan.semifinalSizes == if plan.twoTier then PlanShardSizes(ExpectedTier1Winners(plan.sizes), MAX_SHARD_SIZE) else []
  }

  method CutShards(sorted: seq<Key>, sizes: seq<nat>) returns (shards: seq<ShardPlan>)
    requires SizesInRange(sizes) && Sum(sizes) == |sorted|
    ensures |shards| == |sizes|
    ensures forall k :: 0 <= k < |shards| ==> shards[k] == ShardPlan(Slice(sorted, sizes, k), SliceStart(sorted, sizes, k))
  {
    shards := [];
    var cursor := 0;
    for k := 0 to |sizes|
      invariant |shards| == k && cursor == SumTo(sizes, k)
      invariant forall j :: 0 <= j < k ==> shards[j] == ShardPlan(Slice(sorted, sizes, j), SliceStart(sorted, sizes, j))
    {
      SumToStrict(sizes, k, |sizes|);
      var chunk := sorted[cursor..cursor + sizes[k]];
      shards := shards + [ShardPlan(chunk, chunk[0])];
      cursor := cursor + sizes[k];
    }
  }

  method PlanBracket(entries: seq<Key>) returns (r: PlanOutcome, ghost sorted: seq<Key>)
    ensures NonDescending(sorted) && multiset(sorted) == multiset(entries)
    ensures entries == [] <==> r == NoEntries
    ensures |entries| > TWO_TIER_CAPACITY <==> r == TooManyEntries
    ensures r != TooManyShards
    ensures r.Planned? ==> CutsUp(r.plan, sorted) && PlanShape(r.plan, |entries|)
  {
    var ordered := SortEntriesByteWise(entries);
    sorted := ordered;
    var n := |ordered|;
    assert n == |multiset(sorted)| == |multiset(entries)| == |entries|;
    if n == 0 {
      return NoEntries, sorted;
    }
    if n > TWO_TIER_CAPACITY {
      return TooManyEntries, sorted;
    }
    var twoTier := n > SINGLE_TIER_CAPACITY;
    var sizes := PlanShardSizes(n, MAX_SHARD_SIZE);
    PlannedSizesAreBalanced(n, MAX_SHARD_SIZE);
    BalancedSizesFit(n, MAX_SHARD_SIZE);
    var limit := if twoTier then MAX_TIER1_SHARDS else MAX_SHARDS;
    if |sizes| > limit {
      assert false;
      return TooManyShards, sorted;
    }
    var shards := CutShards(ordered, sizes);
    var semifinalSizes := [];
    if twoTier {
      semifinalSizes := PlanShardSizes(ExpectedTier1Winners(sizes), MAX_SHARD_SIZE);
    }
    var plan := BracketPlan(twoTier, shards, sizes, twoTier || |shards| > 1, semifinalSizes);
    assert CutsUp(plan, sorted);
    r := Planned(plan);
  }

  // ---- the plan meets the program's checks -------------------------------------------------

  /** Fixed-width arrays: unused slots are zero. */
  method PadNumbers(values: seq<nat>, width: nat) returns (out: seq<nat>)
    requires |values| <= width
    ensures out == Padded(values, width)
  {
    var buffer := new nat[width](_ => 0);
    for i := 0 to |values|
      invariant forall j :: 0 <= j < width ==> buffer[j] == if j < i then values[j] else 0
    {
      buffer[i] := values[i];
    }
    out := buffer[..];
  }

  function Padded(values: seq<nat>, width: nat): (out: seq<nat>)
    requires |values| <= width
    ensures |out| == width
  {
    values + seq(width - |values|, _ => 0)
  }

  /** A plan for the given ascending keys. */
  ghost predicate PlansFor(plan: BracketPlan, sorted: seq<Key>) {
    && Ascending(sorted) && 1 <= |sorted| <= TWO_TIER_CAPACITY
    && CutsUp(plan, sorted) && PlanShape(plan, |sorted|)
  }

  /** What the planner returns for distinct keys plans for them in their canonical order. */
  lemma PlannedForDistinct(keys: seq<Key>, sorted: seq<Key>, plan: BracketPlan)
    requires Distinct(keys) && NonDescending(sorted) && multiset(sorted) == multiset(keys)
    requires 1 <= |keys| <= TWO_TIER_CAPACITY && CutsUp(plan, sorted) && PlanShape(plan, |keys|)
    ensures PlansFor(plan, Sorted(Members(keys)))
  {
    DistinctSorted(keys, sorted);
    assert |multiset(sorted)| == |multiset(keys)|;
  }

  function Width(plan: BracketPlan): nat {
    if plan.twoTier then MAX_TIER1_SHARDS else MAX_SHARDS
  }

  function PlanLayout(plan: BracketPlan): Layout
    requires |plan.shards| == |plan.sizes|
  {
    Layout(plan.sizes, Bounds(plan))
  }

  lemma PlanLayoutIsSlices(plan: BracketPlan, sorted: seq<Key>)
    requires CutsUp(plan, sorted)
    ensures PlanLayout(plan) == SliceLayout(sorted, plan.sizes)
  {
    assert Bounds(plan) == SliceLayout(sorted, plan.sizes).bounds;
  }

  lemma FewEnoughShards(n: nat)
    requires 1 <= n <= TWO_TIER_CAPACITY
    ensures BalancedCount(n, MAX_SHARD_SIZE) <= MAX_TIER1_SHARDS
    ensures n <= SINGLE_TIER_CAPACITY ==> BalancedCount(n, MAX_SHARD_SIZE) <= MAX_SHARDS
  {
  }

  /** Every layout check of init_bracket and init_tier1_bracket passes. */
  lemma PlanPassesLayout(plan: BracketPlan, sorted: seq<Key>)
    requires PlansFor(plan, sorted)
    ensures 1 <= |plan.shards| <= Width(plan)
    ensures LayoutOk(Padded(plan.sizes, Width(plan)), Padded(Bounds(plan), Width(plan)), |plan.shards|, Width(plan), |sorted|)
    ensures Padded(plan.sizes, Width(plan))[..|plan.shards|] == plan.sizes
    ensures Padded(Bounds(plan), Width(plan))[..|plan.shards|] == Bounds(plan)
    ensures WinnersUpTo(plan.sizes, |plan.sizes|) <= MAX_TIER1_WINNERS
  {
    var n := |sorted|;
    PlannedSizesAreBalanced(n, MAX_SHARD_SIZE);
    BalancedSizesFit(n, MAX_SHARD_SIZE);
    FewEnoughShards(n);
    PlanLayoutIsSlices(plan, sorted);
    SliceLayoutWellFormed(sorted, plan.sizes);
    WinnersBound(plan.sizes, |plan.sizes|);
  }

  lemma {:induction false} WinnersBound(sizes: seq<nat>, m: nat)
    requires m <= |sizes|
    ensures WinnersUpTo(sizes, m) <= SHARD_WINNERS * m
    ensures (forall k :: 0 <= k < m ==> sizes[k] >= SHARD_WINNERS) ==> WinnersUpTo(sizes, m) == SHARD_WINNERS * m
  {
    if m > 0 {
      WinnersBound(sizes, m - 1);
    }
  }

  /** Every planned list passes the length, first-key, ascending and next-bound checks, and the
  planned shards are a true partition of the entries. */
  lemma PlanPassesShardChecks(plan: BracketPlan, sorted: seq<Key>, k: nat)
    requires PlansFor(plan, sorted) && k < |plan.shards|
    ensures Accepts(PlanLayout(plan), Members(sorted), k, plan.shards[k].entries)
    ensures plan.shards[k].entries == Sorted(Cell(PlanLayout(plan), Members(sorted), k))
    ensures Exact(PlanLayout(plan), Members(sorted))
  {
    PlanLayoutIsSlices(plan, sorted);
    SliceAccepted(sorted, plan.sizes, k);
    SliceLayoutExact(sorted, plan.sizes);
  }

  lemma {:induction false} ExpectedIsUpTo(sizes: seq<nat>, m: nat)
    requires m <= |sizes|
    ensures ExpectedTier1Winners(sizes[..m]) == WinnersUpTo(sizes, m)
  {
    if m > 0 {
      ExpectedIsUpTo(sizes, m - 1);
      assert sizes[..m][..m - 1] == sizes[..m - 1];
    }
  }

  /** A planned two-tier round has at least five shards of at least nine entries. */
  lemma TwoTierShardsAreLarge(n: nat)
    requires SINGLE_TIER_CAPACITY < n <= TWO_TIER_CAPACITY
    ensures var c := BalancedCount(n, MAX_SHARD_SIZE); 5 <= c <= MAX_TIER1_SHARDS && n / c >= 9
  {
    var c := BalancedCount(n, MAX_SHARD_SIZE);
    assert MAX_SHARD_SIZE * c <= n + 12;
    if n / c < 9 {
      DivModBack(n, c);
      MulMonotone(n / c, 8, c);
    }
  }

  /** Three winners a shard, a semifinal partition equal to the one the program computes from the
  actual winners, and always at least two semifinals. */
  lemma PlannedSemifinals(plan: BracketPlan, sorted: seq<Key>, winners: seq<Key>)
    requires PlansFor(plan, sorted) && plan.twoTier
    requires |winners| == WinnersUpTo(plan.sizes, |plan.sizes|)
    ensures |winners| == SHARD_WINNERS * |plan.shards|
    ensures winners != [] && plan.semifinalSizes == PromotedLayout(winners).sizes
    ensures 2 <= |plan.semifinalSizes| <= MAX_SHARDS
  {
    var n, sizes := |sorted|, plan.sizes;
    PlannedSizesAreBalanced(n, MAX_SHARD_SIZE);
    TwoTierShardsAreLarge(n);
    forall k | 0 <= k < |sizes| ensures sizes[k] >= SHARD_WINNERS {
      BalancedSizeAt(n, MAX_SHARD_SIZE, k);
    }
    WinnersBound(sizes, |sizes|);
    ExpectedIsUpTo(sizes, |sizes|);
    assert sizes[..|sizes|] == sizes;
    PlannedSizesAreBalanced(|winners|, MAX_SHARD_SIZE);
  }

  /** The plan itself, for any ascending keys the ceiling admits. */
  function PlanOf(sorted: seq<Key>): BracketPlan
    requires 1 <= |sorted| <= TWO_TIER_CAPACITY
  {
    PlannedSizesAreBalanced(|sorted|, MAX_SHARD_SIZE);
    BalancedSizesFit(|sorted|, MAX_SHARD_SIZE);
    var sizes, twoTier := PlanShardSizes(|sorted|, MAX_SHARD_SIZE), |sorted| > SINGLE_TIER_CAPACITY;
    var shards := seq(|sizes|, k requires 0 <= k < |sizes| => ShardPlan(Slice(sorted, sizes, k), SliceStart(sorted, sizes, k)));
    BracketPlan(twoTier, shards, sizes, twoTier || |shards| > 1,
                if twoTier then PlanShardSizes(ExpectedTier1Winners(sizes), MAX_SHARD_SIZE) else [])
  }

  lemma PlanExists(sorted: seq<Key>)
    requires Ascending(sorted) && 1 <= |sorted| <= TWO_TIER_CAPACITY
    ensures PlansFor(PlanOf(sorted), sorted)
  {
    PlannedSizesAreBalanced(|sorted|, MAX_SHARD_SIZE);
    BalancedSizesFit(|sorted|, MAX_SHARD_SIZE);
  }
}
