/** The reveal circuits: every slot is ranked by how many slots beat it, and the slots of rank
0, 1 and 2 are revealed. Slots are compared on a composite key; a full tie goes to the lower
slot. The width of the circuit (16 in the program) is a parameter. */
module Circuit {
  import opened Ranking

  type Byte = x: nat | x < 256

  const REVEAL_TOP_K := 3

  /** The three revealed slots and their scores, in rank order. */
  datatype PodiumData = Podium(slots: seq<nat>, scores: seq<nat>)

  type Podium = p: PodiumData | |p.slots| == |p.scores| == REVEAL_TOP_K
    witness Podium([0, 0, 0], [0, 0, 0])

  function Composite(score: nat, rarity: nat): nat {
    score * 8 + rarity
  }

  /** Slots at and above the participant count are padding and count as zero. */
  function Masked(raw: seq<nat>, count: nat): (s: seq<nat>)
    ensures |s| == |raw|
  {
    seq(|raw|, i requires 0 <= i < |raw| => if i < count then raw[i] else 0)
  }

  function CompositeKeys(raw: seq<nat>, rarity: seq<nat>, count: nat): (k: seq<nat>)
    requires |raw| == |rarity|
    ensures |k| == |raw|
  {
    seq(|raw|, i requires 0 <= i < |raw| => if i < count then Composite(raw[i], rarity[i]) else 0)
  }

  function SlotPoints(k: seq<nat>): Ranking.Points {
    map i | 0 <= i < |k| :: k[i]
  }

  /** The slot that exactly r of the slots of k beat. */
  ghost predicate SlotPlaced(k: seq<nat>, r: nat, slot: nat) {
    Placed(SlotPoints(k), Below(|k|), r, slot)
  }

  /** What a reveal over keys k and scores s must answer. */
  ghost predicate IsPodium(k: seq<nat>, s: seq<nat>, out: Podium) {
    && |s| == |k|
    && forall r :: 0 <= r < REVEAL_TOP_K ==>
         SlotPlaced(k, r, out.slots[r]) && out.scores[r] == s[out.slots[r]]
  }

  lemma PodiumUnique(k: seq<nat>, s: seq<nat>, a: Podium, b: Podium)
    requires IsPodium(k, s, a) && IsPodium(k, s, b)
    ensures a == b
  {
    forall r | 0 <= r < REVEAL_TOP_K ensures a.slots[r] == b.slots[r] {
      RankInjective(SlotPoints(k), Below(|k|), a.slots[r], b.slots[r]);
    }
    assert a.slots == b.slots && a.scores == b.scores;
  }

  lemma SlotExists(k: seq<nat>, r: nat)
    requires r < |k|
    ensures exists slot: nat :: SlotPlaced(k, r, slot)
  {
    EveryPlaceIsHeld(SlotPoints(k), Below(|k|), r);
    var slot: nat :| Placed(SlotPoints(k), Below(|k|), r, slot);
    assert SlotPlaced(k, r, slot);
  }

  lemma PodiumExists(k: seq<nat>, s: seq<nat>)
    requires |k| == |s| >= REVEAL_TOP_K
    ensures exists out :: IsPodium(k, s, out)
  {
    SlotExists(k, 0);
    SlotExists(k, 1);
    SlotExists(k, 2);
    var a: nat :| SlotPlaced(k, 0, a);
    var b: nat :| SlotPlaced(k, 1, b);
    var c: nat :| SlotPlaced(k, 2, c);
    assert IsPodium(k, s, Podium([a, b, c], [s[a], s[b], s[c]]));
  }

  /** The answer itself, for use in the specification of a callback. */
  ghost function PodiumOf(k: seq<nat>, s: seq<nat>): (out: Podium)
    requires |k| == |s| >= REVEAL_TOP_K
    ensures IsPodium(k, s, out)
  {
    PodiumExists(k, s);
    var out :| IsPodium(k, s, out);
    out
  }

  // ---- the phases of the circuit -----------------------------------------------------------

  /** Slot j beats slot i, in the terms the circuits compare in. */
  predicate Beats(k: seq<nat>, j: nat, i: nat)
    requires j < |k| && i < |k|
    ensures Beats(k, j, i) == Better(SlotPoints(k), j, i)
  {
    k[j] > k[i] || (k[j] == k[i] && j < i)
  }

  lemma RankPush(k: seq<nat>, n: nat, i: nat)
    requires n < |k| && i < |k|
    ensures Rank(SlotPoints(k), Below(n + 1), i)
         == Rank(SlotPoints(k), Below(n), i) + (if Beats(k, n, i) then 1 else 0)
  {
    var p := SlotPoints(k);
    var before := Beaters(p, Below(n), i);
    if Better(p, n, i) {
      assert Beaters(p, Below(n + 1), i) == before + {n};
    } else {
      assert Beaters(p, Below(n + 1), i) == before;
    }
  }

  /** The first `rows` rows of the upper triangle hold one strict comparison each. */
  ghost predicate ComparedRows(g: array2<nat>, k: seq<nat>, rows: nat)
    reads g
  {
    && g.Length0 == g.Length1 == |k|
    && rows <= |k|
    && forall x, y :: 0 <= x < rows && x < y < |k| ==> g[x, y] == if k[y] > k[x] then 1 else 0
  }

  /** The one comparison layer: a single bit per unordered pair of slots. */
  method CompareUpperTriangle(k: seq<nat>) returns (g: array2<nat>)
    ensures fresh(g) && ComparedRows(g, k, |k|)
  {
    var n := |k|;
    g := new nat[n, n];
    for a := 0 to n
      invariant ComparedRows(g, k, a)
    {
      for b := 0 to n
        invariant ComparedRows(g, k, a)
        invariant forall y :: a < y < b ==> g[a, y] == if k[y] > k[a] then 1 else 0
      {
        if a < b {
          g[a, b] := if k[b] > k[a] then 1 else 0;
        }
      }
    }
  }

  /** Both directions come from the one bit: a lower slot beats a higher one unless the higher
  is strictly greater. */
  method CountFromUpperTriangle(k: seq<nat>, g: array2<nat>, i: nat) returns (r: nat)
    requires ComparedRows(g, k, |k|) && i < |k|
    ensures r == Rank(SlotPoints(k), Below(|k|), i)
  {
    r := 0;
    for j := 0 to |k|
      invariant r == Rank(SlotPoints(k), Below(j), i)
    {
      RankPush(k, j, i);
      if j < i {
        assert g[j, i] == if k[i] > k[j] then 1 else 0;
        r := r + 1 - g[j, i];
      } else if j > i {
        assert g[i, j] == if k[j] > k[i] then 1 else 0;
        r := r + g[i, j];
      }
    }
  }

  /** Rank by summation over the upper triangle. */
  method RankByUpperTriangle(k: seq<nat>) returns (rank: seq<nat>)
    ensures |rank| == |k|
    ensures forall i :: 0 <= i < |k| ==> rank[i] == Rank(SlotPoints(k), Below(|k|), i)
  {
    var g := CompareUpperTriangle(k);
    rank := [];
    for i := 0 to |k|
      invariant ComparedRows(g, k, |k|)
      invariant |rank| == i
      invariant forall x :: 0 <= x < i ==> rank[x] == Rank(SlotPoints(k), Below(|k|), x)
    {
      var r := CountFromUpperTriangle(k, g, i);
      rank := rank + [r];
    }
  }

  /** The original comparator: all ordered pairs, strictly greater or equal with a lower slot. */
  method RankByAllPairs(k: seq<nat>) returns (rank: seq<nat>)
    ensures |rank| == |k|
    ensures forall i :: 0 <= i < |k| ==> rank[i] == Rank(SlotPoints(k), Below(|k|), i)
  {
    var n := |k|;
    rank := [];
    for i := 0 to n
      invariant |rank| == i
      invariant forall x :: 0 <= x < i ==> rank[x] == Rank(SlotPoints(k), Below(n), x)
    {
      var r: nat := 0;
      for j := 0 to n
        invariant r == Rank(SlotPoints(k), Below(j), i)
      {
        RankPush(k, j, i);
        var beats := k[j] > k[i] || (k[j] == k[i] && j < i);
        if beats {
          r := r + 1;
        }
      }
      rank := rank + [r];
    }
  }

  /** Reads off the slot of each of the ranks 0, 1 and 2, keeping the last match found. */
  method SelectTop(ghost k: seq<nat>, rank: seq<nat>, s: seq<nat>) returns (out: Podium)
    requires |rank| == |s| == |k| >= REVEAL_TOP_K
    requires forall i :: 0 <= i < |k| ==> rank[i] == Rank(SlotPoints(k), Below(|k|), i)
    ensures IsPodium(k, s, out)
  {
    var topSlot: seq<nat>, topScore: seq<nat> := [], [];
    for r := 0 to REVEAL_TOP_K
      invariant |topSlot| == |topScore| == r
      invariant forall q :: 0 <= q < r ==>
                  SlotPlaced(k, q, topSlot[q]) && topScore[q] == s[topSlot[q]]
    {
      var foundSlot: nat, foundScore: nat := 0, 0;
      for i := 0 to |s|
        invariant (exists j :: 0 <= j < i && rank[j] == r) ==>
                    foundSlot < |s| && rank[foundSlot] == r && foundScore == s[foundSlot]
      {
        var isR := rank[i] == r;
        foundSlot := if isR then i else foundSlot;
        foundScore := if isR then s[i] else foundScore;
      }
      SlotExists(k, r);
      ghost var holder: nat :| SlotPlaced(k, r, holder);
      assert rank[holder] == r;
      topSlot := topSlot + [foundSlot];
      topScore := topScore + [foundScore];
    }
    out := Podium(topSlot, topScore);
  }

  // ---- the circuits ------------------------------------------------------------------------

  /** The circuit every bracket reveal runs: composite key, upper triangle, rank by summation. */
  method RevealTop3V5(raw: seq<Byte>, count: nat, rarity: seq<Byte>) returns (out: Podium)
    requires |raw| == |rarity| >= REVEAL_TOP_K
    ensures IsPodium(CompositeKeys(raw, rarity, count), Masked(raw, count), out)
  {
    var n := |raw|;
    var s, k := new nat[n], new nat[n];
    for i := 0 to n
      invariant forall j :: 0 <= j < i ==> s[j] == Masked(raw, count)[j]
    {
      var active := i < count;
      s[i] := if active then raw[i] else 0;
    }
    for i := 0 to n
      invariant forall j :: 0 <= j < n ==> s[j] == Masked(raw, count)[j]
      invariant forall j :: 0 <= j < i ==> k[j] == CompositeKeys(raw, rarity, count)[j]
    {
      var active := i < count;
      var used := if active then rarity[i] else 0;
      k[i] := s[i] * 8 + used;
    }
    assert s[..] == Masked(raw, count) && k[..] == CompositeKeys(raw, rarity, count);
    var rank := RankByUpperTriangle(k[..]);
    out := SelectTop(k[..], rank, s[..]);
  }

  /** A real slot is never beaten by padding, so the first `count` places name real slots and
  a slot beyond the participants is never revealed for them. */
  lemma PaddingNeverPlaces(raw: seq<nat>, rarity: seq<nat>, count: nat, r: nat, slot: nat)
    requires |raw| == |rarity| && r < count <= |raw|
    requires SlotPlaced(CompositeKeys(raw, rarity, count), r, slot)
    ensures slot < count
  {
    if slot >= count {
      var k := CompositeKeys(raw, rarity, count);
      var ahead := Beaters(SlotPoints(k), Below(|k|), slot);
      assert Below(count) <= ahead;
      SubsetSize(Below(count), ahead);
    }
  }

  /** While rarities stay under 8 the composite key never lets rarity bridge two scores. */
  lemma CompositeIsLexicographic(s1: nat, r1: nat, s2: nat, r2: nat)
    requires r1 < 8 && r2 < 8
    ensures Composite(s1, r1) > Composite(s2, r2) <==> s1 > s2 || (s1 == s2 && r1 > r2)
    ensures Composite(s1, r1) == Composite(s2, r2) <==> s1 == s2 && r1 == r2
    ensures Composite(s1, 8) == Composite(s1 + 1, 0)
  {
  }
}
