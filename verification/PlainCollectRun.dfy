/** A whole run over fifty-three entries that uses the plain collect once on a promoted bracket,
neglects nothing else, and never names the best entry. */
module PlainCollectRun {
  import opened Ranking
  import opened Partition
  import opened Accounts
  import opened Instructions
  import opened Planner
  import opened RevealRun
  import opened RevealInvariant
  import opened RevealTheorem
  import opened RevealProgress
  import opened TierDriver
  import opened EndgameDriver
  import opened SingleTierDriver
  import opened TwoTierDriver
  import opened BracketDriver
  import opened LostWinner
  import opened MisrankedRuns

  // ---- fifty-three entries, the twelfth one best -------------------------------------------

  const BEST: Key := 12

  function OneTo(n: nat): (keys: seq<Key>)
    ensures |keys| == n && forall i :: 0 <= i < n ==> keys[i] == i + 1
  {
    seq<Key>(n, (i: nat) requires i < n => i + 1)
  }

  function FiftyThree(): Ledger {
    map k | k in OneTo(53) :: Entry(7, k, true, if k == BEST then 200 else 10, 0)
  }

  function FiftyThreeRound(): World {
    World(Round(7, Closed, 53, 53, false, [0, 0, 0]), FiftyThree(), None, None, map[], multiset{}, {})
  }

  lemma EntrantsOfRound()
    ensures Entrants(FiftyThreeRound()) == Members(OneTo(53)) && Sorted(Entrants(FiftyThreeRound())) == OneTo(53)
    ensures ReadyToReveal(FiftyThreeRound())
  {
    var keys, w := OneTo(53), FiftyThreeRound();
    forall x | x in Entrants(w) ensures x in Members(keys) {
      assert keys[x - 1] == x;
    }
    assert Entrants(w) == Members(keys);
    MembersSize(keys);
    AscendingUnique(keys, Sorted(Members(keys)));
  }

  /** The client's plan: five shards of 11, 11, 11, 10 and 10. */
  function ClientPlan(): BracketPlan {
    PlanOf(OneTo(53))
  }

  lemma ClientPlanIs()
    ensures PlansFor(ClientPlan(), OneTo(53)) && ClientPlan().twoTier && FitsWidth(ClientPlan())
    ensures ClientPlan().sizes == [11, 11, 11, 10, 10] && |ClientPlan().shards| == 5
    ensures Bounds(ClientPlan())[..3] == [1, 12, 23]
  {
    var keys, sizes := OneTo(53), ClientPlan().sizes;
    PlanExists(keys);
    PlannedSizesAreBalanced(53, MAX_SHARD_SIZE);
    assert sizes == [11, 11, 11, 10, 10];
    assert SumTo(sizes, 0) == 0 && SumTo(sizes, 1) == 11 && SumTo(sizes, 2) == 22;
    assert Bounds(ClientPlan())[0] == SliceStart(keys, sizes, 0) == 1;
    assert Bounds(ClientPlan())[1] == SliceStart(keys, sizes, 1) == 12;
    assert Bounds(ClientPlan())[2] == SliceStart(keys, sizes, 2) == 23;
  }

  lemma BestIsFirst(w: World)
    requires w.ledger == FiftyThree() && w.round.key == 7
    ensures BEST in TopThree(Standings(w), Entrants(w)) && Rank(Standings(w), Entrants(w), BEST) == 0
  {
    assert OneTo(53)[11] == BEST;
    assert Beaters(Standings(w), Entrants(w), BEST) == {};
  }

  // ---- the winners of tier 1 ---------------------------------------------------------------

  /** Tier 1 run as planned and promoted. */
  ghost predicate Tier1Run(w: World) {
    && Inv(w) && w.ledger == FiftyThree() && w.round.key == 7
    && FitsWidth(ClientPlan()) && JustPromoted(w, ClientPlan())
  }

  lemma Tier1RunFacts(w: World)
    requires Tier1Run(w)
    ensures w.tier1.Some? && w.tier1.value.layout == PlanLayout(ClientPlan()) && AllDone(w.tier1.value)
    ensures w.bracket.Some? && w.tier1.value.winners != [] && Ascending(w.tier1.value.winners)
    ensures w.bracket.value.layout == PromotedLayout(w.tier1.value.winners)
  {
    hide RecordsSound, PromotedLayout, Kept, BracketSound, PlanOf;
  }

  lemma WinnerCount(w: World)
    requires Tier1Run(w)
    ensures w.tier1.Some? && w.bracket.Some? && |w.tier1.value.winners| == 15
    ensures w.bracket.value.layout == PromotedLayout(w.tier1.value.winners)
  {
    Tier1RunFacts(w);
    InvOf(w);
    hide Tier1Run, Inv, PromotedLayout, PlansFor, PlanOf;
    var t := w.tier1.value;
    ClientPlanIs();
    WinnersCounted(w, t);
    AllDoneWinners(t.layout.sizes, t.done, |t.layout.sizes|);
    PlannedSemifinals(ClientPlan(), OneTo(53), t.winners);
  }

  lemma InvOf(w: World)
    requires Tier1Run(w)
    ensures Inv(w)
  {
  }

  lemma SemifinalsOfFifteen(winners: seq<Key>)
    requires |winners| == 15
    ensures PromotedLayout(winners).sizes == [8, 7]
    ensures PromotedLayout(winners).bounds == [winners[0], winners[8]]
  {
    var sizes := PromotedLayout(winners).sizes;
    assert sizes == [8, 7];
    assert SumTo(sizes, 0) == 0 && SumTo(sizes, 1) == 8;
    assert PromotedLayout(winners).bounds[0] == SliceStart(winners, sizes, 0);
    assert PromotedLayout(winners).bounds[1] == SliceStart(winners, sizes, 1);
  }

  /** Shards 0 and 1 yield at most six winners between them, so the ninth is from further on; and
  the first is from shard 0. */
  lemma WinnersSpread(w: World)
    requires Tier1Run(w)
    ensures |w.tier1.value.winners| == 15 && w.tier1.value.winners[0] < 12 && w.tier1.value.winners[8] >= 23
    ensures forall x :: x in w.tier1.value.winners ==> x in Entrants(w)
  {
    hide Tier1Run, Inv, PromotedLayout, PlansFor, PlanOf, PlanLayout, TopThree, Exact, AllDone;
    Tier1RunFacts(w);
    InvOf(w);
    var t, p, e := w.tier1.value, Standings(w), Entrants(w);
    var l := t.layout;
    WinnerCount(w);
    ClientPlanIs();
    WinnersAreShardWinners(w);
    FirstBounds(l);
    var a, b := TopThree(p, Cell(l, e, 0)), TopThree(p, Cell(l, e, 1));
    TopThreeSize(p, Cell(l, e, 0));
    TopThreeSize(p, Cell(l, e, 1));
    forall x | x in t.winners ensures x in e && (x < 23 ==> x in a + b) {
      var k :| 0 <= k < |l.bounds| && x in TopThree(p, Cell(l, e, k));
      WinnerInInterval(p, l, e, k, x);
    }
    forall x | x in a ensures x in t.winners && x < 12 {
      WinnerInInterval(p, l, e, 0, x);
    }
    CellNotEmpty(w, l);
    FirstIsFromShardZero(t.winners, a);
    if t.winners[8] < 23 {
      NineAmong(t.winners, a + b);
    }
  }

  lemma FirstBounds(l: Layout)
    requires l == PlanLayout(ClientPlan())
    ensures |l.bounds| == 5 && l.bounds[0] == 1 && l.bounds[1] == 12 && l.bounds[2] == 23 && l.sizes[0] == 11
    ensures Ascending(l.bounds)
  {
    ClientPlanIs();
    PlanLayoutIsSlices(ClientPlan(), OneTo(53));
    SliceLayoutWellFormed(OneTo(53), ClientPlan().sizes);
    assert l.bounds[..3] == [1, 12, 23];
    assert l.bounds[..3][0] == 1 && l.bounds[..3][1] == 12 && l.bounds[..3][2] == 23;
  }

  lemma WinnerInInterval(p: Points, l: Layout, e: set<Key>, k: nat, x: Key)
    requires k < |l.bounds| == 5 && l.bounds[0] == 1 && l.bounds[1] == 12 && l.bounds[2] == 23 && Ascending(l.bounds)
    requires x in TopThree(p, Cell(l, e, k))
    ensures x in e && (x < 23 ==> k < 2) && (k == 0 ==> x < 12)
  {
    assert InInterval(l, k, x) && (k > 2 ==> l.bounds[2] < l.bounds[k]);
  }

  lemma CellNotEmpty(w: World, l: Layout)
    requires l == PlanLayout(ClientPlan()) && Exact(l, Entrants(w))
    ensures |Cell(l, Entrants(w), 0)| == 11
  {
    FirstBounds(l);
  }

  lemma FirstIsFromShardZero(winners: seq<Key>, a: set<Key>)
    requires Ascending(winners) && |a| >= 1 && forall x :: x in a ==> x in winners && x < 12
    ensures |winners| > 0 && winners[0] < 12
  {
    var x :| x in a;
    var i :| 0 <= i < |winners| && winners[i] == x;
    assert i > 0 ==> winners[0] < winners[i];
  }

  lemma NineAmong(winners: seq<Key>, ab: set<Key>)
    requires |winners| > 8 && Ascending(winners) && winners[8] < 23 && forall x :: x in winners && x < 23 ==> x in ab
    ensures |ab| >= 9
  {
    var nine := winners[..9];
    MembersSize(nine);
    forall x | x in Members(nine) ensures x in ab {
      var i :| 0 <= i < 9 && winners[i] == x;
      assert i < 8 ==> winners[i] < winners[8];
    }
    SubsetSize(Members(nine), ab);
  }

  // ---- the run -----------------------------------------------------------------------------

  /** Tier 1 as the operator runs it. */
  lemma ToPromotion() returns (steps: seq<Step>, w2: World)
    ensures Reached(FiftyThreeRound(), steps, w2) && Tier1Run(w2) && TwoTier(w2)
  {
    hide PlansFor, PlanOf, AtRest, UnusedStamps, FirstTierOpen, JustPromoted, GoesThrough, Run, Inv, ReadyToReveal, FiftyThree;
    var w0, plan := FiftyThreeRound(), ClientPlan();
    EntrantsOfRound();
    ClientPlanIs();
    ReadyIsResumable(w0, plan, 2);
    w2 := RunFirstTier(w0, plan, 2);
    steps := FirstTierSteps(w0, plan, 2);
    RunFrame(w0, steps);
  }

  /** The second semifinal, by its own instructions. */
  lemma SecondSemifinal(w0: World, steps: seq<Step>, w2: World) returns (more: seq<Step>, w5: World)
    requires Reached(w0, steps, w2) && Tier1Run(w2)
    ensures Reached(w0, more, w5) && Inv(w5) && SameTier(Semifinals, w2, w5) && w5.inFlight == multiset{}
    ensures CollectedBy(Semifinals, w5) == {1}
  {
    hide Tier1Run, Inv, PlansFor, PlanOf, GoesThrough, Run, Pinned, JustPromoted, SameTier, SemifinalLists;
    InvOf(w2);
    TwoSemifinals(w2);
    SemifinalsPinned(w2);
    more, w5 := RunOneShard(Semifinals, w0, steps, w2, SemifinalLists(w2), 1);
  }

  lemma TwoSemifinals(w: World)
    requires Tier1Run(w)
    ensures !w.round.revealed && AllScored(w) && w.inFlight == multiset{} && Promoted(w) && w.bracket.Some?
    ensures |SemifinalLists(w)| == 2 && CollectedBy(Semifinals, w) == {}
  {
    JustPromotedCollected(w);
    hide Tier1Run, PromotedLayout, AllScored, SemifinalSlice;
    WinnerCount(w);
    SemifinalsOfFifteen(w.tier1.value.winners);
  }

  lemma JustPromotedCollected(w: World)
    requires Tier1Run(w)
    ensures !w.round.revealed && AllScored(w) && w.inFlight == multiset{} && Promoted(w) && w.bracket.Some?
    ensures CollectedBy(Semifinals, w) == {} && !w.bracket.value.finalQueued && !w.bracket.value.applied
  {
    hide Inv, AllScored, FiftyThree, PlanLayout, ClientPlan;
  }

  /** Eight entries of the first semifinal's interval, the best one not among them. */
  function StandIn(first: Key): (list: seq<Key>)
    ensures |list| == 8
  {
    [first, 13, 14, 15, 16, 17, 18, 19]
  }

  lemma StandInAccepted(w: World, l: Layout, first: Key, ninth: Key)
    requires w.ledger == FiftyThree() && w.round.key == 7 && first in Entrants(w) && first < 12 && ninth >= 23
    requires l == Layout([8, 7], [first, ninth])
    ensures RunError(w.ledger, w.round.key, ShardAdmission(l, 0), true, StandIn(first), 0) == None
    ensures InInterval(l, 0, BEST) && BEST !in StandIn(first)
  {
    var list := StandIn(first);
    assert l.sizes[0] == 8 && l.bounds[0] == first && l.bounds[1] == ninth;
    forall i | 0 <= i < |list| ensures list[i] in Entrants(w) && w.ledger[list[i]].scored && InInterval(l, 0, list[i]) {
      if i > 0 {
        assert OneTo(53)[list[i] - 1] == list[i];
      }
    }
    ShardRunMeansAccepts(w.ledger, w.round.key, l, 0, true, list);
  }

  /** What the semifinal collected so far has put forward. */
  lemma FinalistsSoFar(w: World)
    requires Inv(w) && TwoTier(w) && w.bracket.Some?
    ensures var b := w.bracket.value;
            && Distinct(b.finalists) && |b.finalists| <= SHARD_WINNERS * |b.collected|
            && forall x :: x in b.finalists ==>
                 x in Entrants(w) && exists j :: j in b.collected && j < |b.layout.bounds| && InInterval(b.layout, j, x)
  {
    hide RecordsSound, Tier1Sound;
    var b := w.bracket.value;
    forall x | x in b.finalists
      ensures x in Entrants(w) && exists j :: j in b.collected && j < |b.layout.bounds| && InInterval(b.layout, j, x)
    {
      assert x in Members(b.finalists);
      var j :| j in b.collected && j < |b.layout.bounds| && x in TopThree(Standings(w), Cell(b.layout, w.ground, j));
      assert x in Cell(b.layout, w.ground, j);
    }
  }

  /** One step before its first plain instruction. */
  ghost predicate BeforePlain(w: World, b: Bracket) {
    && Inv(w) && TwoTier(w) && w.ledger == FiftyThree() && w.round.key == 7 && !w.round.revealed && AllScored(w)
    && w.inFlight == multiset{} && Promoted(w) && w.bracket == Some(b)
    && |b.layout.bounds| == 2 && b.collected == {1} && !b.finalQueued && !b.applied
  }

  lemma ToPlain() returns (steps: seq<Step>, w: World, b: Bracket, first: Key, ninth: Key)
    ensures Reached(FiftyThreeRound(), steps, w) && BeforePlain(w, b)
    ensures b.layout == Layout([8, 7], [first, ninth]) && first in Entrants(w) && first < 12 && ninth >= 23
  {
    hide Tier1Run, Inv, PlansFor, PlanOf, GoesThrough, Run, FiftyThree, PromotedLayout, Promoted, SemifinalLists;
    var s2, w2 := ToPromotion();
    Tier1RunLedger(w2);
    TwoSemifinals(w2);
    JustPromotedCollected(w2);
    WinnerCount(w2);
    WinnersSpread(w2);
    first, ninth := w2.tier1.value.winners[0], w2.tier1.value.winners[8];
    assert first in w2.tier1.value.winners;
    SemifinalsOfFifteen(w2.tier1.value.winners);
    steps, w := SecondSemifinal(FiftyThreeRound(), s2, w2);
    b := w.bracket.value;
    AsBeforePlain(w2, w, b);
  }

  lemma Tier1RunLedger(w: World)
    requires Tier1Run(w)
    ensures w.ledger == FiftyThree() && w.round.key == 7
  {
  }

  lemma AsBeforePlain(w2: World, w: World, b: Bracket)
    requires Inv(w) && TwoTier(w2) && w2.ledger == FiftyThree() && w2.round.key == 7 && !w2.round.revealed && AllScored(w2)
    requires Promoted(w2) && w2.bracket.Some? && !w2.bracket.value.finalQueued && !w2.bracket.value.applied
    requires SameTier(Semifinals, w2, w) && w.inFlight == multiset{} && CollectedBy(Semifinals, w) == {1}
    requires w.bracket == Some(b) && |w2.bracket.value.layout.bounds| == 2
    ensures BeforePlain(w, b) && b.layout == w2.bracket.value.layout
  {
    hide Inv, FiftyThree;
  }

  /** What the stand-in puts forward: three of its entries. */
  lemma StandInWinners(ledger: Ledger, list: seq<Key>)
    requires Ascending(list) && |list| == 8 && forall x :: x in list ==> x in ledger
    ensures var picked := Picked(list, RevealOf(ledger, list).slots, 3);
            Distinct(picked) && forall x :: x in picked ==> x in list
  {
    hide RevealOf;
    RevealNamesPodium(ledger, list);
    PickedAreDistinct(PointsOf(ledger), list, RevealOf(ledger, list).slots, list);
    PickedFromRun(list, RevealOf(ledger, list).slots, 3);
  }

  lemma DistinctConcat(a: seq<Key>, b: seq<Key>)
    requires Distinct(a) && Distinct(b) && forall x :: x in a ==> x !in b
    ensures Distinct(a + b)
  {
    forall i, j | 0 <= i < j < |a + b| ensures (a + b)[i] != (a + b)[j] {
      if i < |a| <= j {
        assert a[i] in a && b[j - |a|] in b;
      }
    }
  }

  lemma BeforePlainFacts(w: World, b: Bracket)
    requires BeforePlain(w, b)
    ensures Inv(w) && TwoTier(w) && Promoted(w) && WellFormed(b.layout) && w.bracket == Some(b)
    ensures !w.round.revealed && AllScored(w) && w.inFlight == multiset{} && w.ledger == FiftyThree() && w.round.key == 7
    ensures |b.layout.bounds| == 2 && b.collected == {1} && !b.applied
  {
    hide FiftyThree;
  }

  /** The finalists so far are all from the second semifinal. */
  lemma FirstFinalists(w: World, b: Bracket)
    requires BeforePlain(w, b)
    ensures Distinct(b.finalists) && |b.finalists| <= 3 && |b.layout.bounds| == 2
    ensures forall x :: x in b.finalists ==> x in Entrants(w) && InInterval(b.layout, 1, x)
  {
    BeforePlainFacts(w, b);
    hide BeforePlain, Inv, FiftyThree, Distinct;
    FinalistsSoFar(w);
  }

  lemma StandInMembers(w: World, b: Bracket, list: seq<Key>)
    requires BeforePlain(w, b) && |list| == 8 == b.layout.sizes[0]
    requires RunError(w.ledger, w.round.key, ShardAdmission(b.layout, 0), true, list, 0) == None
    ensures forall x :: x in list ==> x in Entrants(w) && x in w.ledger && w.ledger[x].scored && InInterval(b.layout, 0, x)
  {
    BeforePlainFacts(w, b);
    hide BeforePlain, Inv, FiftyThree, RunError;
    ShardRunMeansAccepts(w.ledger, w.round.key, b.layout, 0, true, list);
    forall x | x in list ensures x in Entrants(w) && InInterval(b.layout, 0, x) {
      var i :| 0 <= i < |list| && list[i] == x;
    }
  }

  /** With the stand-in collected the bracket is ready for its final, the lost entry notwithstanding. */
  lemma ReadyAfterPlain(w: World, b: Bracket, v: World, list: seq<Key>, picked: seq<Key>)
    requires BeforePlain(w, b) && |list| == 8 == b.layout.sizes[0]
    requires RunError(w.ledger, w.round.key, ShardAdmission(b.layout, 0), true, list, 0) == None
    requires v == w.(bracket := Some(WithWinners(b, 0, picked)), results := v.results)
    requires |picked| == 3 && Distinct(picked) && forall x :: x in picked ==> x in list
    ensures FinalReady(v, v.bracket.value)
  {
    hide BeforePlain, Inv, RunError, Distinct, FiftyThree, InInterval, WellFormed, FinalReady, WithWinners, Entrants, AllScored;
    StandInMembers(w, b, list);
    FirstFinalists(w, b);
    BeforePlainFacts(w, b);
    forall x | x in b.finalists ensures x !in picked {
      if x in picked {
        IntervalsDisjoint(b.layout, 0, 1, x);
      }
    }
    DistinctConcat(b.finalists, picked);
    BothCollected(w, b, v, picked);
  }

  lemma BothCollected(w: World, b: Bracket, v: World, picked: seq<Key>)
    requires w.bracket == Some(b) && !w.round.revealed && AllScored(w) && w.inFlight == multiset{}
    requires |b.layout.bounds| == 2 && b.collected == {1} && !b.applied
    requires Distinct(b.finalists + picked) && |b.finalists| <= 3 && |picked| == 3
    requires forall x :: x in b.finalists + picked ==> x in Entrants(w)
    requires v == w.(bracket := Some(WithWinners(b, 0, picked)), results := v.results)
    ensures FinalReady(v, v.bracket.value)
  {
    assert {1} + {0} == Below(2);
  }

  /** Up to the plain collect, and the best entry is lost. */
  lemma ToLost() returns (steps: seq<Step>, v: World)
    ensures Leads(FiftyThreeRound(), steps, v, Some(SemifinalCollects))
    ensures Lost(v, 0, BEST) && v.bracket.Some? && FinalReady(v, v.bracket.value)
  {
    hide Next, After, Run, GoesThrough, Inv, RevealOf, RunError, FiftyThree, Lost, BeforePlain, FinalReady, Picked, InInterval;
    var w0, duty := FiftyThreeRound(), Some(SemifinalCollects);
    var s5, w5, b, first, ninth := ToPlain();
    CarefulGoes(w0, s5, w5, duty);
    BeforePlainFacts(w5, b);
    StandInAccepted(w5, b.layout, first, ninth);
    var list := StandIn(first);
    assert Ascending(list);
    StandInMembers(w5, b, list);
    v := PlainCollectDropsWinner(w5, 0, list, BEST);
    LeadsConcat(w0, s5, w5, PlainSteps(w5, 0, list), v, duty);
    StandInWinners(w5.ledger, list);
    ReadyAfterPlain(w5, b, v, list, Picked(list, RevealOf(w5.ledger, list).slots, 3));
    steps := s5 + PlainSteps(w5, 0, list);
  }

  /** The plain instruction, used once in place of the semifinal one: the best of fifty-three entries
  is not on the podium. */
  lemma PlainCollectMisranks() returns (steps: seq<Step>)
    ensures CrownsWrongly(FiftyThreeRound(), steps, SemifinalCollects)
    ensures BEST !in Run(FiftyThreeRound(), steps).round.top
    ensures Placed(Standings(FiftyThreeRound()), Entrants(FiftyThreeRound()), 0, BEST)
  {
    hide After, Run, GoesThrough, FiftyThree, ExactTop, Lost, FinalReady, ReadyToReveal;
    var w0, duty := FiftyThreeRound(), Some(SemifinalCollects);
    EntrantsOfRound();
    ReadyIsUnstarted(w0);
    BestIsFirst(w0);
    var lost, v := ToLost();
    RunFrame(w0, lost);
    var end := [QueueShard(true, FINAL_SHARD_INDEX, FinalJob(v.bracket.value).list)] + [Callback(FinalJob(v.bracket.value))]
               + [ApplyResult(true, FINAL_SHARD_INDEX)];
    var u := FinalGoesRegardless(v, v.bracket.value);
    CarefulGoes(v, end, u, duty);
    LeadsConcat(w0, lost, v, end, u, duty);
    steps := lost + end;
    LostForever(v, end, 0, BEST);
    LostIsOff(u);
    LostIsMisranked(v, end, 0, BEST);
  }

  lemma ReadyIsUnstarted(w: World)
    requires ReadyToReveal(w)
    ensures Unstarted(w)
  {
  }

  lemma LostIsOff(u: World)
    requires Lost(u, 0, BEST) && u.round.revealed
    ensures BEST !in u.round.top
  {
  }
}
