/** The order a reveal ranks by, and what it means to hold a place in a set of entries.

Keys stand for 32-byte addresses read as big-endian numbers, so `<` on keys is the byte-wise
order of the program. Points are the composite `score * 8 + rarity` of each key. */
module Ranking {
  type Key = nat
  type Points = map<nat, nat>

  function At(p: Points, x: nat): nat {
    if x in p then p[x] else 0
  }

  /** More points first; on equal points the lower key (or the lower slot). */
  predicate Better(p: Points, x: nat, y: nat) {
    At(p, x) > At(p, y) || (At(p, x) == At(p, y) && x < y)
  }

  function Beaters(p: Points, s: set<nat>, x: nat): set<nat> {
    set y | y in s && Better(p, y, x)
  }

  function Rank(p: Points, s: set<nat>, x: nat): nat {
    |Beaters(p, s, x)|
  }

  /** x is the member of s that exactly r members beat. */
  predicate Placed(p: Points, s: set<nat>, r: nat, x: nat) {
    x in s && Rank(p, s, x) == r
  }

  /** The members of s that hold the first three places. */
  function TopThree(p: Points, s: set<nat>): set<nat> {
    set x | x in s && Rank(p, s, x) < 3
  }

  /** small lost nobody who could still finish in the first three of big. */
  ghost predicate Covers(p: Points, big: set<nat>, small: set<nat>) {
    small <= big && TopThree(p, big) <= small
  }

  function Min(a: nat, b: nat): nat {
    if a <= b then a else b
  }

  // ---- finite sets -------------------------------------------------------------------------

  lemma SubsetSize<T>(a: set<T>, b: set<T>)
    requires a <= b
    ensures |a| <= |b|
    ensures |a| == |b| ==> a == b
  {
    assert b == a + (b - a);
    assert |b| == |a| + |b - a|;
  }

  ghost predicate IsBelow(n: nat, s: set<nat>) {
    |s| == n && forall i :: i in s <==> 0 <= i < n
  }

  lemma {:induction false} BelowExists(n: nat)
    ensures exists s: set<nat> :: IsBelow(n, s)
  {
    if n == 0 {
      var none: set<nat> := {};
      assert IsBelow(0, none);
    } else {
      BelowExists(n - 1);
      var s: set<nat> :| IsBelow(n - 1, s);
      var last: nat := n - 1;
      assert IsBelow(n, s + {last});
    }
  }

  /** The indices 0..n-1. */
  ghost function Below(n: nat): (s: set<nat>)
    ensures forall i :: i in s <==> 0 <= i < n
    ensures |s| == n
  {
    BelowExists(n);
    var s: set<nat> :| IsBelow(n, s);
    s
  }

  /** An injective image has as many members as its source. */
  lemma {:induction false} ImageSize(s: set<nat>, f: nat -> nat, t: set<nat>)
    requires forall x, y :: x in s && y in s && f(x) == f(y) ==> x == y
    requires forall x :: x in s ==> f(x) in t
    requires forall z :: z in t ==> exists x :: x in s && f(x) == z
    ensures |t| == |s|
  {
    if s == {} {
      assert t == {};
    } else {
      var x :| x in s;
      forall z | z in t - {f(x)} ensures exists y :: y in s - {x} && f(y) == z {
        var y :| y in s && f(y) == z;
        assert y in s - {x};
      }
      ImageSize(s - {x}, f, t - {f(x)});
    }
  }

  // ---- places ------------------------------------------------------------------------------

  /** Beating somebody means standing strictly ahead of them. */
  lemma BetterRanksLower(p: Points, s: set<nat>, x: nat, y: nat)
    requires x in s && y in s && Better(p, x, y)
    ensures Rank(p, s, x) < Rank(p, s, y)
  {
    assert x in Beaters(p, s, y) && x !in Beaters(p, s, x);
    assert Beaters(p, s, x) <= Beaters(p, s, y);
    SubsetSize(Beaters(p, s, x), Beaters(p, s, y));
  }

  lemma RankInjective(p: Points, s: set<nat>, x: nat, y: nat)
    requires x in s && y in s && Rank(p, s, x) == Rank(p, s, y)
    ensures x == y
  {
    if x != y {
      if Better(p, x, y) {
        BetterRanksLower(p, s, x, y);
      } else {
        BetterRanksLower(p, s, y, x);
      }
    }
  }

  lemma RankInRange(p: Points, s: set<nat>, x: nat)
    requires x in s
    ensures Rank(p, s, x) < |s|
  {
    assert Beaters(p, s, x) <= s - {x};
    SubsetSize(Beaters(p, s, x), s - {x});
  }

  /** Ranks are a permutation of 0..|s|-1: every place is held by exactly one member. */
  lemma EveryPlaceIsHeld(p: Points, s: set<nat>, r: nat)
    ensures r < |s| <==> exists x :: Placed(p, s, r, x)
  {
    if r < |s| {
      var ranks := set x | x in s :: Rank(p, s, x);
      forall x, y | x in s && y in s && Rank(p, s, x) == Rank(p, s, y) ensures x == y {
        RankInjective(p, s, x, y);
      }
      forall z | z in ranks ensures z in Below(|s|) {
        var x :| x in s && Rank(p, s, x) == z;
        RankInRange(p, s, x);
      }
      ImageSize(s, x => Rank(p, s, x), ranks);
      SubsetSize(ranks, Below(|s|));
      assert r in ranks;
      var x :| x in s && Rank(p, s, x) == r;
      assert Placed(p, s, r, x);
    } else if x :| Placed(p, s, r, x) {
      RankInRange(p, s, x);
    }
  }

  lemma TopThreeSize(p: Points, s: set<nat>)
    ensures |TopThree(p, s)| == Min(3, |s|)
  {
    var m := Min(3, |s|);
    forall x, y | x in TopThree(p, s) && y in TopThree(p, s) && Rank(p, s, x) == Rank(p, s, y)
      ensures x == y
    {
      RankInjective(p, s, x, y);
    }
    forall x | x in TopThree(p, s) ensures Rank(p, s, x) in Below(m) {
      RankInRange(p, s, x);
    }
    forall r | r in Below(m) ensures exists x :: x in TopThree(p, s) && Rank(p, s, x) == r {
      EveryPlaceIsHeld(p, s, r);
      var x :| Placed(p, s, r, x);
      assert x in TopThree(p, s);
    }
    ImageSize(TopThree(p, s), x => Rank(p, s, x), Below(m));
  }

  lemma RankMonotone(p: Points, big: set<nat>, small: set<nat>, x: nat)
    requires small <= big
    ensures Rank(p, small, x) <= Rank(p, big, x)
  {
    SubsetSize(Beaters(p, small, x), Beaters(p, big, x));
  }

  /** Everybody ahead of a top-three member is a top-three member, so nothing is lost around it. */
  lemma CoversKeepsRank(p: Points, big: set<nat>, small: set<nat>, x: nat)
    requires Covers(p, big, small) && x in TopThree(p, big)
    ensures Rank(p, small, x) == Rank(p, big, x)
  {
    forall y | y in Beaters(p, big, x) ensures y in small {
      BetterRanksLower(p, big, y, x);
      assert y in TopThree(p, big);
    }
    assert Beaters(p, small, x) == Beaters(p, big, x);
  }

  /** A covering subset has exactly the podium of the whole. */
  lemma CoversKeepsPodium(p: Points, big: set<nat>, small: set<nat>, r: nat, x: nat)
    requires Covers(p, big, small) && r < 3
    ensures Placed(p, big, r, x) <==> Placed(p, small, r, x)
  {
    if Placed(p, big, r, x) {
      CoversKeepsRank(p, big, small, x);
    } else if Placed(p, small, r, x) {
      RankInRange(p, small, x);
      SubsetSize(small, big);
      EveryPlaceIsHeld(p, big, r);
      var first :| Placed(p, big, r, first);
      CoversKeepsRank(p, big, small, first);
      RankInjective(p, small, x, first);
    }
  }

  lemma CoversSize(p: Points, big: set<nat>, small: set<nat>)
    requires Covers(p, big, small)
    ensures Min(3, |small|) == Min(3, |big|)
  {
    TopThreeSize(p, big);
    SubsetSize(TopThree(p, big), small);
    SubsetSize(small, big);
  }

  lemma CoversTransitive(p: Points, a: set<nat>, b: set<nat>, c: set<nat>)
    requires Covers(p, a, b) && Covers(p, b, c)
    ensures Covers(p, a, c)
  {
    forall x | x in TopThree(p, a) ensures x in c {
      CoversKeepsRank(p, a, b, x);
      assert x in TopThree(p, b);
    }
  }

  /** The tournament: keeping the first three of every cell loses nobody from the podium,
  however the cells cut up the whole. */
  lemma TournamentCovers(p: Points, whole: set<nat>, cells: seq<set<nat>>, kept: set<nat>)
    requires kept <= whole
    requires forall x :: x in whole ==> exists k :: 0 <= k < |cells| && x in cells[k]
    requires forall k :: 0 <= k < |cells| ==> cells[k] <= whole && TopThree(p, cells[k]) <= kept
    ensures Covers(p, whole, kept)
  {
    forall x | x in TopThree(p, whole) ensures x in kept {
      var k :| 0 <= k < |cells| && x in cells[k];
      RankMonotone(p, whole, cells[k], x);
      assert x in TopThree(p, cells[k]);
    }
  }

  // ---- ascending lists ---------------------------------------------------------------------

  predicate Ascending(l: seq<nat>) {
    forall i, j :: 0 <= i < j < |l| ==> l[i] < l[j]
  }

  predicate Distinct(l: seq<nat>) {
    forall i, j :: 0 <= i < j < |l| ==> l[i] != l[j]
  }

  function Members(l: seq<nat>): set<nat> {
    set x | x in l
  }

  lemma MembersConcat(a: seq<nat>, b: seq<nat>)
    ensures Members(a + b) == Members(a) + Members(b)
  {
  }

  lemma {:induction false} MembersSize(l: seq<nat>)
    ensures |Members(l)| <= |l|
    ensures Distinct(l) ==> |Members(l)| == |l|
  {
    if l == [] {
      assert Members(l) == {};
    } else {
      var n := |l| - 1;
      MembersSize(l[..n]);
      assert l == l[..n] + [l[n]];
      assert Members(l) == Members(l[..n]) + {l[n]};
    }
  }

  /** An ascending list is determined by its members. */
  lemma {:induction false} AscendingUnique(a: seq<nat>, b: seq<nat>)
    requires Ascending(a) && Ascending(b) && Members(a) == Members(b)
    ensures a == b
  {
    MembersSize(a);
    MembersSize(b);
    if a != [] {
      var n := |a| - 1;
      assert a[n] in Members(b) && b[n] in Members(a);
      assert a[n] == b[n];
      assert a == a[..n] + [a[n]] && b == b[..n] + [b[n]];
      ButLast(a);
      ButLast(b);
      AscendingUnique(a[..n], b[..n]);
    }
  }

  /** Without its last entry an ascending list has all but its greatest member. */
  lemma ButLast(a: seq<nat>)
    requires Ascending(a) && a != []
    ensures Ascending(a[..|a| - 1]) && Members(a[..|a| - 1]) == Members(a) - {a[|a| - 1]}
  {
    var n := |a| - 1;
    assert a == a[..n] + [a[n]];
    assert forall x :: x in a[..n] ==> x < a[n];
  }

  predicate IsLeast(s: set<nat>, x: nat) {
    x in s && forall y :: y in s ==> x <= y
  }

  lemma {:induction false} LeastExists(s: set<nat>)
    requires s != {}
    ensures exists x :: IsLeast(s, x)
  {
    var x :| x in s;
    if s == {x} {
      assert IsLeast(s, x);
    } else {
      LeastExists(s - {x});
      var m :| IsLeast(s - {x}, m);
      var least := if x < m then x else m;
      forall y | y in s ensures least <= y {
        assert y == x || y in s - {x};
      }
      assert IsLeast(s, least);
    }
  }

  lemma AscendingCons(x: nat, l: seq<nat>)
    requires Ascending(l) && forall y :: y in Members(l) ==> x < y
    ensures Ascending([x] + l) && Members([x] + l) == {x} + Members(l)
  {
    forall i, j | 0 <= i < j < |[x] + l| ensures ([x] + l)[i] < ([x] + l)[j] {
      assert l[j - 1] in Members(l);
    }
  }

  lemma {:induction false} SortedExists(s: set<nat>)
    ensures exists l :: Ascending(l) && Members(l) == s
  {
    if s == {} {
      assert Ascending([]) && Members([]) == s;
    } else {
      LeastExists(s);
      var x :| IsLeast(s, x);
      SortedExists(s - {x});
      var rest :| Ascending(rest) && Members(rest) == s - {x};
      AscendingCons(x, rest);
      assert Ascending([x] + rest) && Members([x] + rest) == s;
    }
  }

  /** The ascending list of a set: what sorting its keys yields. */
  ghost function Sorted(s: set<nat>): (l: seq<nat>)
    ensures Ascending(l) && Members(l) == s && |l| == |s|
  {
    SortedExists(s);
    var l :| Ascending(l) && Members(l) == s;
    MembersSize(l);
    l
  }
}
