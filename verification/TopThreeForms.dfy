/** Four algorithms for the score-only reveal - rank by all pairs, running top three, rank by
the upper triangle, stable sort - and the proof that they are one function. */
module TopThreeForms {
  import opened Ranking
  import opened Circuit

  /** The one function all four forms compute. */
  ghost function TopThreeOf(raw: seq<nat>, count: nat): Podium
    requires |raw| >= REVEAL_TOP_K
  {
    PodiumOf(Masked(raw, count), Masked(raw, count))
  }

  method MaskScores(raw: seq<Byte>, count: nat) returns (s: seq<nat>)
    ensures s == Masked(raw, count)
  {
    var buffer := new nat[|raw|];
    for i := 0 to |raw|
      invariant buffer[..i] == Masked(raw, count)[..i]
    {
      var active := i < count;
      buffer[i] := if active then raw[i] else 0;
    }
    s := buffer[..];
  }

  /** The live form: 16 x 16 comparisons. */
  method Old(raw: seq<Byte>, count: nat) returns (out: Podium)
    requires |raw| >= REVEAL_TOP_K
    ensures out == TopThreeOf(raw, count)
  {
    var s := MaskScores(raw, count);
    var rank := RankByAllPairs(s);
    out := SelectTop(s, rank, s);
    PodiumUnique(s, s, out, TopThreeOf(raw, count));
  }

  /** The upper-triangle form. */
  method V3(raw: seq<Byte>, count: nat) returns (out: Podium)
    requires |raw| >= REVEAL_TOP_K
    ensures out == TopThreeOf(raw, count)
  {
    var s := MaskScores(raw, count);
    var rank := RankByUpperTriangle(s);
    out := SelectTop(s, rank, s);
    PodiumUnique(s, s, out, TopThreeOf(raw, count));
  }

  // ---- the running top three ---------------------------------------------------------------

  /** slots t0, t1, t2 hold the first three places among the first n slots of s. */
  ghost predicate Leading(s: seq<nat>, n: nat, t0: nat, t1: nat, t2: nat) {
    && n <= |s|
    && t0 < n && t1 < n && t2 < n
    && t0 != t1 && t0 != t2 && t1 != t2
    && Beats(s, t0, t1) && Beats(s, t1, t2)
    && forall x :: 0 <= x < n && x != t0 && x != t1 && x != t2 ==> Beats(s, t2, x)
  }

  lemma LeadingArePlaced(s: seq<nat>, t0: nat, t1: nat, t2: nat)
    requires Leading(s, |s|, t0, t1, t2)
    ensures SlotPlaced(s, 0, t0) && SlotPlaced(s, 1, t1) && SlotPlaced(s, 2, t2)
  {
    var p, all := SlotPoints(s), Below(|s|);
    forall x | x in all
      ensures !Better(p, x, t0)
      ensures Better(p, x, t1) <==> x == t0
      ensures Better(p, x, t2) <==> x == t0 || x == t1
    {
      assert Beats(s, x, t2) == Better(p, x, t2);
      if x != t0 && x != t1 && x != t2 {
        assert Beats(s, t2, x);
      }
    }
    assert Beaters(p, all, t0) == {};
    assert Beaters(p, all, t1) == {t0};
    assert Beaters(p, all, t2) == {t0, t1};
  }

  method New(raw: seq<Byte>, count: nat) returns (out: Podium)
    requires |raw| >= REVEAL_TOP_K
    ensures out == TopThreeOf(raw, count)
  {
    var s := MaskScores(raw, count);

    // Seed: slots 0, 1 and 2, stably sorted by descending score.
    var zeroFirst := s[0] >= s[1];
    var aScore, aSlot: nat := if zeroFirst then s[0] else s[1], if zeroFirst then 0 else 1;
    var bScore, bSlot: nat := if zeroFirst then s[1] else s[0], if zeroFirst then 1 else 0;
    var cBeforeA, cBeforeB := s[2] > aScore, s[2] > bScore;
    var ts0, tl0: nat := if cBeforeA then s[2] else aScore, if cBeforeA then 2 else aSlot;
    var ts1 := if cBeforeA then aScore else if cBeforeB then s[2] else bScore;
    var tl1: nat := if cBeforeA then aSlot else if cBeforeB then 2 else bSlot;
    var ts2 := if cBeforeA || cBeforeB then bScore else s[2];
    var tl2: nat := if cBeforeA || cBeforeB then bSlot else 2;

    // One pass over the remaining slots.
    for i := 3 to |s|
      invariant Leading(s, i, tl0, tl1, tl2)
      invariant ts0 == s[tl0] && ts1 == s[tl1] && ts2 == s[tl2]
    {
      var v := s[i];
      var enters, before0, before1 := v > ts2, v > ts0, v > ts1;
      var n0s := if enters && before0 then v else ts0;
      var n0l := if enters && before0 then i else tl0;
      var n1s := if enters then if before0 then ts0 else if before1 then v else ts1 else ts1;
      var n1l := if enters then if before0 then tl0 else if before1 then i else tl1 else tl1;
      var n2s := if enters then if before0 || before1 then ts1 else v else ts2;
      var n2l := if enters then if before0 || before1 then tl1 else i else tl2;
      forall x | 0 <= x < i + 1 && x != n0l && x != n1l && x != n2l ensures Beats(s, n2l, x) {
        assert x == i || x == tl2 || Beats(s, tl2, x);
      }
      ts0, tl0, ts1, tl1, ts2, tl2 := n0s, n0l, n1s, n1l, n2s, n2l;
    }
    LeadingArePlaced(s, tl0, tl1, tl2);
    out := Podium([tl0, tl1, tl2], [ts0, ts1, ts2]);
    PodiumUnique(s, s, out, TopThreeOf(raw, count));
  }

  // ---- the sorting oracle ------------------------------------------------------------------

  datatype Scored = Scored(score: nat, slot: nat)

  /** Descending by score, ascending by slot on a tie. */
  predicate Before(a: Scored, b: Scored) {
    a.score > b.score || (a.score == b.score && a.slot < b.slot)
  }

  function Insert(x: Scored, l: seq<Scored>): (r: seq<Scored>) {
    if l == [] || Before(x, l[0]) then [x] + l else [l[0]] + Insert(x, l[1..])
  }

  function Sort(l: seq<Scored>): (r: seq<Scored>) {
    if l == [] then [] else Insert(l[0], Sort(l[1..]))
  }

  predicate InOrder(l: seq<Scored>) {
    forall i, j :: 0 <= i < j < |l| ==> Before(l[i], l[j])
  }

  lemma {:induction false} InsertKeepsOrder(x: Scored, l: seq<Scored>)
    requires InOrder(l)
    requires forall y :: y in l ==> y.slot != x.slot
    ensures InOrder(Insert(x, l))
    ensures multiset(Insert(x, l)) == multiset(l) + multiset{x}
  {
    if l == [] || Before(x, l[0]) {
    } else {
      InsertKeepsOrder(x, l[1..]);
      assert l == [l[0]] + l[1..];
      forall y | y in Insert(x, l[1..]) ensures Before(l[0], y) {
        assert y in multiset(Insert(x, l[1..]));
      }
    }
  }

  lemma {:induction false} SortSorts(l: seq<Scored>)
    requires forall i, j :: 0 <= i < j < |l| ==> l[i].slot != l[j].slot
    ensures InOrder(Sort(l)) && multiset(Sort(l)) == multiset(l)
  {
    if l != [] {
      SortSorts(l[1..]);
      assert l == [l[0]] + l[1..];
      forall y | y in Sort(l[1..]) ensures y.slot != l[0].slot {
        assert y in multiset(l[1..]);
      }
      InsertKeepsOrder(l[0], Sort(l[1..]));
    }
  }

  /** In a sorted permutation of the slots, the element at position r holds place r. */
  lemma SortedArePlaced(s: seq<nat>, v: seq<Scored>)
    requires |s| >= REVEAL_TOP_K
    requires |v| == |s| && InOrder(v)
    requires forall i :: 0 <= i < |s| ==> Scored(s[i], i) in v
    requires forall x :: x in v ==> x.slot < |s| && x.score == s[x.slot]
    ensures Leading(s, |s|, v[0].slot, v[1].slot, v[2].slot)
  {
    assert v[0] in v && v[1] in v && v[2] in v;
    forall x | 0 <= x < |s| && x != v[0].slot && x != v[1].slot && x != v[2].slot
      ensures Beats(s, v[2].slot, x)
    {
      var i :| 0 <= i < |v| && v[i] == Scored(s[x], x);
      assert i > 2;
      assert Before(v[2], v[i]);
    }
  }

  method Oracle(raw: seq<Byte>, count: nat) returns (out: Podium)
    requires |raw| >= REVEAL_TOP_K
    ensures out == TopThreeOf(raw, count)
  {
    ghost var s := Masked(raw, count);
    var v := [];
    for i := 0 to |raw|
      invariant |v| == i
      invariant forall j :: 0 <= j < i ==> v[j] == Scored(s[j], j)
    {
      v := v + [Scored(if i < count then raw[i] else 0, i)];
    }
    SortedSlotsLead(s, v);
    v := Sort(v);
    out := Podium([v[0].slot, v[1].slot, v[2].slot], [v[0].score, v[1].score, v[2].score]);
    PodiumUnique(s, s, out, TopThreeOf(raw, count));
  }

  lemma SortedSlotsLead(s: seq<nat>, v: seq<Scored>)
    requires |v| == |s| >= REVEAL_TOP_K
    requires forall j :: 0 <= j < |v| ==> v[j] == Scored(s[j], j)
    ensures var t := Sort(v);
            |t| == |s| &&
            forall r :: 0 <= r < REVEAL_TOP_K ==> SlotPlaced(s, r, t[r].slot) && t[r].score == s[t[r].slot]
  {
    hide Sort, SlotPlaced;
    SortSorts(v);
    var t := Sort(v);
    assert |t| == |multiset(t)| == |multiset(v)| == |s|;
    forall i | 0 <= i < |s| ensures Scored(s[i], i) in t {
      assert v[i] in multiset(t);
    }
    forall x | x in t ensures x.slot < |s| && x.score == s[x.slot] {
      assert x in multiset(v);
    }
    SortedArePlaced(s, t);
    LeadingArePlaced(s, t[0].slot, t[1].slot, t[2].slot);
    assert t[0] in t && t[1] in t && t[2] in t;
  }

  // ---- the tie-break -----------------------------------------------------------------------

  /** When rarity carries no information the composite ranking is the score ranking. */
  lemma UniformRarityIsScoreOnly(raw: seq<nat>, rarity: seq<nat>, common: nat, count: nat, r: nat, slot: nat)
    requires |raw| == |rarity|
    requires common < 8 && forall i :: 0 <= i < |rarity| ==> rarity[i] == common
    ensures SlotPlaced(CompositeKeys(raw, rarity, count), r, slot) <==> SlotPlaced(Masked(raw, count), r, slot)
  {
    var k, s := CompositeKeys(raw, rarity, count), Masked(raw, count);
    if slot < |k| {
      assert Beaters(SlotPoints(k), Below(|k|), slot) == Beaters(SlotPoints(s), Below(|s|), slot);
    }
  }

  /** The rejected per-pair rule: a pair with an unranked side is compared on raw score only. */
  predicate NeutralBeats(s: seq<nat>, rarity: seq<nat>, j: nat, i: nat)
    requires j < |s| == |rarity| && i < |s|
  {
    var neutral := rarity[j] == 0 || rarity[i] == 0;
    var kj, ki := if neutral then s[j] else Composite(s[j], rarity[j]), if neutral then s[i] else Composite(s[i], rarity[i]);
    kj > ki || (kj == ki && j < i)
  }

  /** The rejected rule goes round in a circle for three equal scores of rarity 1, 0 and 5: each slot is beaten
  by exactly one other, so all share a rank and none wins. The composite key names the last. */
  lemma NeutralRuleHasNoWinner(i: nat, j: nat)
    requires i < 3 && j < 3
    ensures NeutralBeats([50, 50, 50], [1, 0, 5], j, i) <==> j == (i + 2) % 3
    ensures Unbeaten(CompositeKeys([50, 50, 50], [1, 0, 5], 3), i) <==> i == 2
  {
    var k := CompositeKeys([50, 50, 50], [1, 0, 5], 3);
    assert k[0] == 401 && k[1] == 400 && k[2] == 405;
    assert Beats(k, 2, 0) && Beats(k, 2, 1);
  }

  predicate Unbeaten(k: seq<nat>, w: nat) {
    w < |k| && forall j :: 0 <= j < |k| ==> !Beats(k, j, w)
  }

  /** Why the composite key cannot do that: under any per-slot key exactly one slot wins. */
  lemma OneSlotAlwaysWins(k: seq<nat>)
    requires k != []
    ensures exists w: nat :: Unbeaten(k, w) && forall v: nat :: Unbeaten(k, v) ==> v == w
  {
    SlotExists(k, 0);
    var w: nat :| SlotPlaced(k, 0, w);
    forall j | 0 <= j < |k| ensures !Beats(k, j, w) {
      assert j !in Beaters(SlotPoints(k), Below(|k|), w);
    }
    assert Unbeaten(k, w);
    forall v: nat | Unbeaten(k, v) ensures v == w {
      assert !Beats(k, w, v) && !Beats(k, v, w);
    }
  }
}
