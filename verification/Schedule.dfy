/** Opening a round: where its deadline falls, and which traits it targets. Times are unbounded
integers; `%` is Euclidean, as the program's own helper is. */
module Schedule {
  import opened Ranking
  import opened Circuit

  // ---- the daily anchor --------------------------------------------------------------------

  const DAY := 86_400
  const ANCHOR := 36_000
  const MIN_ROUND := 43_200

  /** The deadline of a round opened at `now`: the first anchor at least twelve hours away. */
  predicate IsDeadline(now: int, t: int) {
    t % DAY == ANCHOR && now + MIN_ROUND <= t < now + MIN_ROUND + DAY
  }

  function RoundEndTime(now: int): (t: int)
    ensures IsDeadline(now, t)
  {
    var anchor := now - now % DAY + ANCHOR;
    var later := if anchor <= now then anchor + DAY else anchor;
    if later - now < MIN_ROUND then later + DAY else later
  }

  method ComputeRoundEndTime(now: int) returns (anchor: int)
    ensures anchor == RoundEndTime(now)
  {
    var dayStart := now - now % DAY;
    anchor := dayStart + ANCHOR;
    if anchor <= now {
      anchor := anchor + DAY;
    }
    if anchor - now < MIN_ROUND {
      anchor := anchor + DAY;
    }
  }

  /** There is exactly one such anchor: the only ten o'clock at least twelve and less than thirty-six hours
  away. */
  lemma DeadlineIsUnique(now: int, t: int)
    ensures t == RoundEndTime(now) <==> t % (24 * 60 * 60) == 10 * 60 * 60 && 12 * 60 * 60 <= t - now < 36 * 60 * 60
  {
    hide RoundEndTime;
    if IsDeadline(now, t) {
      SameAnchor(t, RoundEndTime(now));
    }
  }

  lemma SameAnchor(t: int, u: int)
    requires t % DAY == u % DAY && -DAY < t - u < DAY
    ensures t == u
  {
    assert t == DAY * (t / DAY) + t % DAY && u == DAY * (u / DAY) + u % DAY;
  }

  /** Opening later never brings the deadline forward. */
  lemma DeadlineMonotone(a: int, b: int)
    requires a <= b
    ensures RoundEndTime(a) <= RoundEndTime(b)
  {
    assert (RoundEndTime(a) - RoundEndTime(b)) % DAY == 0;
  }

  /** A round opened d after the last deadline ends exactly a day later if and only if the
  operator took no longer than twelve hours. */
  lemma NextDeadline(end: int, d: nat)
    requires end % DAY == ANCHOR
    ensures RoundEndTime(end + d) == end + DAY <==> d <= MIN_ROUND
  {
    if d <= MIN_ROUND {
      assert IsDeadline(end + d, end + DAY);
      DeadlineIsUnique(end + d, end + DAY);
    }
  }

  /** The deadline of round n of a schedule first opened at `start`, each next round opened its
  overhead after the last deadline. */
  function Deadline(start: int, overheads: seq<nat>, n: nat): int
    requires n <= |overheads|
  {
    if n == 0 then RoundEndTime(start)
    else RoundEndTime(Deadline(start, overheads, n - 1) + overheads[n - 1])
  }

  /** Lateness never accumulates: with overheads of up to twelve hours every deadline is the first
  one plus whole days, whatever the overheads were. */
  lemma {:induction false} DeadlinesKeepTheDay(start: int, overheads: seq<nat>, n: nat)
    requires n <= |overheads| && forall i :: 0 <= i < n ==> overheads[i] <= MIN_ROUND
    ensures Deadline(start, overheads, n) == RoundEndTime(start) + n * DAY
  {
    if n > 0 {
      DeadlinesKeepTheDay(start, overheads, n - 1);
      NextDeadline(Deadline(start, overheads, n - 1), overheads[n - 1]);
    }
  }

  /** Any two schedules share all later deadlines: the one opened first runs m rounds more, and
  from there on both fall on the same instants, whatever their overheads. */
  lemma SchedulesReconverge(s: int, t: int, d: seq<nat>, e: seq<nat>, n: nat) returns (m: nat)
    requires s <= t && n <= |e|
    requires forall i :: 0 <= i < |d| ==> d[i] <= MIN_ROUND
    requires forall i :: 0 <= i < |e| ==> e[i] <= MIN_ROUND
    ensures m * DAY == RoundEndTime(t) - RoundEndTime(s)
    ensures n + m <= |d| ==> Deadline(s, d, n + m) == Deadline(t, e, n)
  {
    DeadlineMonotone(s, t);
    var gap := RoundEndTime(t) - RoundEndTime(s);
    assert gap % DAY == 0;
    m := gap / DAY;
    DeadlinesKeepTheDay(t, e, n);
    if n + m <= |d| {
      DeadlinesKeepTheDay(s, d, n + m);
    }
  }

  predicate TransferCooldownActive(lastTransfer: int, now: int) {
    lastTransfer != 0 && now < RoundEndTime(lastTransfer)
  }

  /** A flower that changes hands while a round is open cannot breed before that round ends. */
  lemma CooldownOutlastsRound(start: int, transfer: int, now: int)
    requires start <= transfer && transfer != 0 && now < RoundEndTime(start)
    ensures TransferCooldownActive(transfer, now)
  {
    DeadlineMonotone(start, transfer);
  }

  /** A flower that has changed hands cools down until the deadline a round opened at that moment would
  have; one that never has does not. */
  lemma CooldownIsDecided(lastTransfer: int, now: int)
    ensures TransferCooldownActive(lastTransfer, now) <==> lastTransfer != 0 && exists t :: IsDeadline(lastTransfer, t) && now < t
  {
    forall t | IsDeadline(lastTransfer, t) ensures t == RoundEndTime(lastTransfer) {
      DeadlineIsUnique(lastTransfer, t);
    }
  }

  // ---- target traits -----------------------------------------------------------------------

  const TRAIT_COUNT := 10
  const MUTANT := 8
  const TARGET_MIN := 2
  const TARGET_MAX := 4
  const GATE_BYTE := 5

  predicate IncludesMutant(e: Byte, weight: Byte) {
    e * 255 < weight * 256
  }

  /** The gate is a threshold on one byte. */
  lemma GateIsThreshold(e: Byte, weight: Byte)
    ensures IncludesMutant(e, weight) <==> weight > 0 && e <= weight
  {
  }

  /** The values of the gate byte that let Mutant in. */
  function OpenGates(weight: Byte): set<nat> {
    set e: nat | e < 256 && IncludesMutant(e, weight)
  }

  /** The gate opens at rate weight / 255 at the two ends of the scale and nowhere in between: it
  lets weight + 1 of the 256 values through, and none at weight 0. */
  lemma GateRate(weight: Byte)
    ensures |OpenGates(weight)| == if weight == 0 then 0 else weight + 1
    ensures |OpenGates(weight)| * 255 == weight * 256 <==> weight == 0 || weight == 255
  {
    var n := if weight == 0 then 0 else weight + 1;
    forall e: nat | e < 256 ensures e in OpenGates(weight) <==> e in Below(n) {
      GateIsThreshold(e, weight);
    }
    assert OpenGates(weight) == Below(n);
  }

  /** The trait ids to draw from, in order. */
  function Pool(mutant: bool): seq<Byte> {
    if mutant then [0, 1, 2, 3, 4, 5, 6, 7, 8, 9] else [0, 1, 2, 3, 4, 5, 6, 7, 9]
  }

  /** One id for each byte: the one at that position, modulo how many are left, whose place is taken by
  the first of what is left. */
  function Picks(rest: seq<Byte>, bytes: seq<Byte>): (picked: seq<Byte>)
    requires |bytes| <= |rest|
    ensures |picked| == |bytes|
    decreases |bytes|
  {
    if bytes == [] then []
    else
      var j := bytes[0] % |rest|;
      [rest[j]] + Picks(Without(rest, j), bytes[1..])
  }

  function Without(rest: seq<Byte>, j: nat): (left: seq<Byte>)
    requires j < |rest|
    ensures |left| == |rest| - 1
  {
    rest[j := rest[0]][1..]
  }

  /** A round's targets: the first byte says how many, the next ones which. */
  function TargetsOf(entropy: seq<Byte>, weight: Byte): (targets: seq<Byte>)
    requires |entropy| == 32
    ensures |targets| == TargetCount(entropy)
  {
    Picks(Pool(Mutable(entropy, weight)), entropy[1..TargetCount(entropy) + 1])
  }

  function Swapped(pool: seq<Byte>, i: nat, j: nat): (s: seq<Byte>)
    requires i < |pool| && j < |pool|
    ensures |s| == |pool|
  {
    pool[i := pool[j]][j := pool[i]]
  }

  /** The pool after k draws, each draw swapping a random later slot into place. */
  function Drawn(pool: seq<Byte>, entropy: seq<Byte>, k: nat): (s: seq<Byte>)
    requires k < |pool| && k < |entropy|
    ensures |s| == |pool|
  {
    if k == 0 then pool
    else Swapped(Drawn(pool, entropy, k - 1), k - 1, k - 1 + entropy[k] % (|pool| - (k - 1)))
  }

  lemma DrawnStep(pool: seq<Byte>, entropy: seq<Byte>, k: nat)
    requires k + 1 < |pool| && k + 1 < |entropy|
    ensures Drawn(pool, entropy, 0) == pool
    ensures k + entropy[k + 1] % (|pool| - k) < |pool|
    ensures Drawn(pool, entropy, k + 1) == Swapped(Drawn(pool, entropy, k), k, k + entropy[k + 1] % (|pool| - k))
  {
  }

  function TargetCount(entropy: seq<Byte>): nat
    requires |entropy| == 32
  {
    TARGET_MIN + entropy[0] % (TARGET_MAX - TARGET_MIN + 1)
  }

  function Mutable(entropy: seq<Byte>, weight: Byte): bool
    requires |entropy| == 32
  {
    IncludesMutant(entropy[GATE_BYTE], weight)
  }

  /** Fill the pool with every id, leaving out Mutant when the gate is shut. */
  method BuildPool(mutant: bool) returns (pool: array<Byte>, len: nat)
    ensures fresh(pool) && TRAIT_COUNT - 1 <= len <= pool.Length == TRAIT_COUNT
    ensures len == |Pool(mutant)| && pool[..len] == Pool(mutant)
  {
    pool := new Byte[TRAIT_COUNT](_ => 0);
    len := 0;
    var id: nat := 0;
    while id < TRAIT_COUNT
      invariant id <= TRAIT_COUNT
      invariant len == if mutant || id <= MUTANT then id else id - 1
      invariant forall j :: 0 <= j < len ==> pool[j] == if mutant || j < MUTANT then j else j + 1
    {
      if id != MUTANT || mutant {
        pool[len] := id;
        len := len + 1;
      }
      id := id + 1;
    }
  }

  method SwapInPlace(pool: array<Byte>, len: nat, i: nat, j: nat)
    requires i <= j < len <= pool.Length
    modifies pool
    ensures pool[..len] == Swapped(old(pool[..len]), i, j)
    ensures forall k :: 0 <= k < i ==> pool[k] == old(pool[k])
  {
    pool[i], pool[j] := pool[j], pool[i];
  }

  method SelectTargetTraits(entropy: seq<Byte>, weight: Byte) returns (targets: seq<Byte>, count: nat)
    requires |entropy| == 32
    ensures count == TargetCount(entropy) && |targets| == TARGET_MAX
    ensures targets[..count] == TargetsOf(entropy, weight)
    ensures forall k :: count <= k < TARGET_MAX ==> targets[k] == 0
  {
    hide Pool, Swapped, Drawn, Picks, TargetsOf;
    count := TARGET_MIN + entropy[0] % (TARGET_MAX - TARGET_MIN + 1);
    var mutant := entropy[GATE_BYTE] * 255 < weight * 256;
    var pool, len := BuildPool(mutant);
    ghost var full := Pool(Mutable(entropy, weight));
    DrawnStep(full, entropy, 0);
    targets := [0, 0, 0, 0];
    for k := 0 to count
      invariant |targets| == TARGET_MAX && pool[..len] == Drawn(full, entropy, k)
      invariant forall j :: 0 <= j < k ==> targets[j] == pool[j]
      invariant forall j :: k <= j < TARGET_MAX ==> targets[j] == 0
    {
      DrawnStep(full, entropy, k);
      var remaining := len - k;
      var swapWith := k + entropy[k + 1] % remaining;
      SwapInPlace(pool, len, k, swapWith);
      targets := targets[k := pool[k]];
    }
    assert targets[..count] == pool[..count] == pool[..len][..count];
    DrawnTargets(entropy, weight);
  }

  /** The first places of the pool after the draws are the targets. */
  lemma DrawnTargets(entropy: seq<Byte>, weight: Byte)
    requires |entropy| == 32
    ensures var n, full := TargetCount(entropy), Pool(Mutable(entropy, weight));
            Drawn(full, entropy, n)[..n] == TargetsOf(entropy, weight)
  {
    hide Drawn, Picks;
    var full := Pool(Mutable(entropy, weight));
    hide Pool;
    DrawnStep(full, entropy, 0);
    DrawnIsPicked(full, entropy, 0, TargetCount(entropy));
    assert full[0..] == full;
  }

  /** Swapping a later position into place takes it out of what follows. */
  lemma SwapPicks(pool: seq<Byte>, k: nat, j: nat)
    requires k + j < |pool|
    ensures var s := Swapped(pool, k, k + j);
            s[..k] == pool[..k] && s[k] == pool[k..][j] && s[k + 1..] == Without(pool[k..], j)
  {
  }

  /** The swaps within the pool pick, draw by draw, from what is left of it. */
  lemma {:induction false} DrawnIsPicked(pool: seq<Byte>, entropy: seq<Byte>, k: nat, n: nat)
    requires k <= n < |pool| && n < |entropy|
    ensures Drawn(pool, entropy, n)[..n]
         == Drawn(pool, entropy, k)[..k] + Picks(Drawn(pool, entropy, k)[k..], entropy[k + 1..n + 1])
    decreases n - k
  {
    hide Drawn, Swapped, Without;
    if k < n {
      DrawnStep(pool, entropy, k);
      var before, after, bytes := Drawn(pool, entropy, k), Drawn(pool, entropy, k + 1), entropy[k + 1..n + 1];
      SwapPicks(before, k, bytes[0] % (|pool| - k));
      DrawnIsPicked(pool, entropy, k + 1, n);
      assert bytes[1..] == entropy[k + 2..n + 1];
      assert after[..k + 1] == before[..k] + [after[k]];
    }
  }

  // ---- which targets there can be ----------------------------------------------------------

  lemma WithoutOne(rest: seq<Byte>, j: nat)
    requires j < |rest| && Distinct(rest)
    ensures Distinct(Without(rest, j)) && forall x :: x in Without(rest, j) <==> x in rest && x != rest[j]
  {
    var left := Without(rest, j);
    assert forall i :: 0 <= i < |left| ==> left[i] == rest[if i + 1 == j then 0 else i + 1];
    forall x | x in rest && x != rest[j] ensures x in left {
      var p :| 0 <= p < |rest| && rest[p] == x;
      assert left[if p == 0 then j - 1 else p - 1] == x;
    }
  }

  /** Every pick is new, and from the pool. */
  lemma {:induction false} PicksAreDistinct(rest: seq<Byte>, bytes: seq<Byte>)
    requires |bytes| <= |rest| && Distinct(rest)
    ensures Distinct(Picks(rest, bytes)) && forall x :: x in Picks(rest, bytes) ==> x in rest
    decreases |bytes|
  {
    hide Without;
    if bytes != [] {
      var j := bytes[0] % |rest|;
      WithoutOne(rest, j);
      PicksAreDistinct(Without(rest, j), bytes[1..]);
      var more := Picks(Without(rest, j), bytes[1..]);
      assert forall i :: 0 <= i < |more| ==> more[i] in more;
    }
  }

  /** Every ordered choice from the pool is what some bytes pick. */
  lemma {:induction false} EveryChoiceIsPicked(rest: seq<Byte>, list: seq<Byte>) returns (bytes: seq<Byte>)
    requires Distinct(rest) && |rest| <= 256 && |list| <= |rest|
    requires Distinct(list) && forall x :: x in list ==> x in rest
    ensures |bytes| == |list| && Picks(rest, bytes) == list
    decreases |list|
  {
    hide Without, Picks, Distinct;
    PickNone(rest);
    bytes := [];
    if list != [] {
      assert list[0] in list;
      var j: Byte :| j < |rest| && rest[j] == list[0];
      WithoutOne(rest, j);
      TailIsDistinct(list);
      var more := EveryChoiceIsPicked(Without(rest, j), list[1..]);
      bytes := [j] + more;
      PickFirst(rest, j, more);
      assert list == [list[0]] + list[1..];
    }
  }

  lemma PickFirst(rest: seq<Byte>, j: Byte, more: seq<Byte>)
    requires j < |rest| && |more| < |rest|
    ensures Picks(rest, [j] + more) == [rest[j]] + Picks(Without(rest, j), more)
  {
    SmallRemainder(j, |rest|);
    assert ([j] + more)[1..] == more;
  }

  lemma SmallRemainder(j: nat, n: nat)
    requires j < n
    ensures j % n == j
  {
  }

  lemma PickNone(rest: seq<Byte>)
    ensures Picks(rest, []) == []
  {
  }

  lemma TailIsDistinct(list: seq<Byte>)
    requires list != [] && Distinct(list)
    ensures Distinct(list[1..]) && forall x :: x in list[1..] ==> x in list && x != list[0]
  {
  }

  /** The first two targets, read off the bytes. */
  lemma FirstTwoTargets(entropy: seq<Byte>, weight: Byte)
    requires |entropy| == 32
    ensures var ids: seq<Byte> := if 0 < weight && entropy[5] <= weight then [0, 1, 2, 3, 4, 5, 6, 7, 8, 9]
                                  else [0, 1, 2, 3, 4, 5, 6, 7, 9];
            var i, j := entropy[1] % |ids|, entropy[2] % (|ids| - 1) + 1;
            TargetsOf(entropy, weight)[..2] == [ids[i], if j == i then ids[0] else ids[j]]
  {
    GateIsThreshold(entropy[GATE_BYTE], weight);
    var bytes := entropy[1..TargetCount(entropy) + 1];
    var ids := Pool(Mutable(entropy, weight));
    hide Pool;
    assert Picks(ids, bytes)[0] == ids[bytes[0] % |ids|];
    var left := Without(ids, bytes[0] % |ids|);
    assert Picks(ids, bytes)[1] == Picks(left, bytes[1..])[0] == left[bytes[1..][0] % |left|];
  }

  /** A round can target exactly the ordered lists of two to four different traits - without Mutant if the
  weight is zero, and with it at any other weight. */
  lemma TargetsAreDecided(list: seq<Byte>, weight: Byte)
    ensures (exists entropy :: |entropy| == 32 && TargetsOf(entropy, weight) == list)
       <==> && 2 <= |list| <= 4 && Distinct(list) && (forall x :: x in list ==> x < 10)
            && (weight == 0 ==> 8 !in list)
  {
    hide TargetsOf, Distinct;
    if entropy :| |entropy| == 32 && TargetsOf(entropy, weight) == list {
      TargetsAreDistinct(entropy, weight);
      GateIsThreshold(entropy[GATE_BYTE], weight);
    }
    if 2 <= |list| <= 4 && Distinct(list) && (forall x :: x in list ==> x < TRAIT_COUNT) && (weight == 0 ==> MUTANT !in list) {
      var entropy := EntropyFor(list, weight);
    }
  }

  lemma EntropyFor(list: seq<Byte>, weight: Byte) returns (entropy: seq<Byte>)
    requires 2 <= |list| <= 4 && Distinct(list) && (forall x :: x in list ==> x < TRAIT_COUNT)
    requires weight == 0 ==> MUTANT !in list
    ensures |entropy| == 32 && TargetsOf(entropy, weight) == list
  {
    hide Pool, Picks, Distinct;
    PoolHoldsTraits(weight > 0);
    var bytes := EveryChoiceIsPicked(Pool(weight > 0), list);
    var count: Byte := |list| - 2;
    entropy := [count] + bytes + seq<Byte>(31 - |list|, _ => 0);
    GateIsThreshold(entropy[GATE_BYTE], weight);
    assert entropy[1..|list| + 1] == bytes;
  }

  lemma SwappedIsPermutation(pool: seq<Byte>, i: nat, j: nat)
    requires i < |pool| && j < |pool|
    ensures multiset(Swapped(pool, i, j)) == multiset(pool)
    ensures forall x :: x in Swapped(pool, i, j) ==> x in pool
    ensures Distinct(pool) ==> Distinct(Swapped(pool, i, j))
  {
    var s := Swapped(pool, i, j);
    forall k | 0 <= k < |s| ensures s[k] == pool[if k == i then j else if k == j then i else k] {
    }
  }

  /** Every draw leaves the pool a permutation of itself. */
  lemma {:induction false} DrawnIsPermutation(pool: seq<Byte>, entropy: seq<Byte>, k: nat)
    requires k < |pool| && k < |entropy|
    ensures multiset(Drawn(pool, entropy, k)) == multiset(pool)
    ensures forall x :: x in Drawn(pool, entropy, k) ==> x in pool
    ensures Distinct(pool) ==> Distinct(Drawn(pool, entropy, k))
  {
    hide Swapped, Distinct;
    if k > 0 {
      var before, j := Drawn(pool, entropy, k - 1), k - 1 + entropy[k] % (|pool| - (k - 1));
      assert Drawn(pool, entropy, k) == Swapped(before, k - 1, j);
      DrawnIsPermutation(pool, entropy, k - 1);
      SwappedIsPermutation(before, k - 1, j);
    }
  }

  /** The targets are distinct trait ids, and Mutant is among the candidates only through the gate. */
  lemma TargetsAreDistinct(entropy: seq<Byte>, weight: Byte)
    requires |entropy| == 32
    ensures var n := TargetCount(entropy);
            var drawn := TargetsOf(entropy, weight);
            && TARGET_MIN <= n <= TARGET_MAX && Distinct(drawn)
            && (forall x :: x in drawn ==> x < TRAIT_COUNT)
            && (!Mutable(entropy, weight) ==> MUTANT !in drawn)
  {
    hide Picks, Mutable, Pool, Distinct;
    PoolHoldsTraits(Mutable(entropy, weight));
    PicksAreDistinct(Pool(Mutable(entropy, weight)), entropy[1..TargetCount(entropy) + 1]);
  }

  lemma PoolHoldsTraits(mutant: bool)
    ensures Distinct(Pool(mutant)) && |Pool(mutant)| == (if mutant then TRAIT_COUNT else TRAIT_COUNT - 1)
    ensures forall x: Byte :: x in Pool(mutant) <==> x < TRAIT_COUNT && (!mutant ==> x != MUTANT)
  {
    var p := Pool(mutant);
    forall x: Byte | x < TRAIT_COUNT && (!mutant ==> x != MUTANT) ensures x in p {
      assert p[if x < MUTANT || mutant then x else MUTANT] == x;
    }
  }

  /** Weight 0 never targets Mutant; weight 255 draws exactly as the unweighted algorithm did. */
  lemma WeightExtremes(entropy: seq<Byte>)
    requires |entropy| == 32
    ensures MUTANT !in TargetsOf(entropy, 0)
    ensures TargetsOf(entropy, 255) == Picks([0, 1, 2, 3, 4, 5, 6, 7, 8, 9], entropy[1..TargetCount(entropy) + 1])
  {
    GateIsThreshold(entropy[GATE_BYTE], 0);
    GateIsThreshold(entropy[GATE_BYTE], 255);
    TargetsAreDistinct(entropy, 0);
  }
}
