/** A tier-1 layout the program accepts and the client never plans: 53 entries as 13, 13, 13, 13 and
1. Its thirteen winners make a single semifinal, and the automatic operator cannot finish it. */
module LoneSemifinal {
  import opened Ranking
  import opened Partition
  import opened Accounts
  import opened Instructions
  import opened Planner
  import opened RevealRun
  import opened RevealInvariant
  import opened RevealSteps
  import opened RevealProgress
  import opened TierDriver
  import opened SingleTierDriver
  import opened TwoTierDriver
  import opened BracketDriver

  const OWN_SIZES: seq<nat> := [13, 13, 13, 13, 1]

  lemma OwnSizes()
    ensures SizesInRange(OWN_SIZES) && Sum(OWN_SIZES) == 53 && WinnersUpTo(OWN_SIZES, 5) == 13
  {
    assert SumTo(OWN_SIZES, 0) == 0 && SumTo(OWN_SIZES, 1) == 13 && SumTo(OWN_SIZES, 2) == 26;
    assert SumTo(OWN_SIZES, 3) == 39 && SumTo(OWN_SIZES, 4) == 52;
    assert WinnersUpTo(OWN_SIZES, 0) == 0 && WinnersUpTo(OWN_SIZES, 1) == 3 && WinnersUpTo(OWN_SIZES, 2) == 6;
    assert WinnersUpTo(OWN_SIZES, 3) == 9 && WinnersUpTo(OWN_SIZES, 4) == 12;
  }

  function OwnPlan(sorted: seq<Key>): (plan: BracketPlan)
    requires |sorted| == 53
    ensures plan.sizes == OWN_SIZES && |plan.shards| == 5 && plan.twoTier
  {
    OwnSizes();
    var shards := seq(5, k requires 0 <= k < 5 => ShardPlan(Slice(sorted, OWN_SIZES, k), SliceStart(sorted, OWN_SIZES, k)));
    BracketPlan(true, shards, OWN_SIZES, true, [13])
  }

  lemma OwnPlanCuts(sorted: seq<Key>)
    requires |sorted| == 53 && Ascending(sorted)
    ensures var plan := OwnPlan(sorted);
            && CutsUp(plan, sorted) && FitsWidth(plan)
            && LayoutOk(Padded(plan.sizes, MAX_TIER1_SHARDS), Padded(Bounds(plan), MAX_TIER1_SHARDS), 5, MAX_TIER1_SHARDS, 53)
            && Padded(plan.sizes, MAX_TIER1_SHARDS)[..5] == plan.sizes
            && Padded(Bounds(plan), MAX_TIER1_SHARDS)[..5] == Bounds(plan)
    ensures forall k :: 0 <= k < 5 ==> Accepts(PlanLayout(OwnPlan(sorted)), Members(sorted), k, ListsOf(OwnPlan(sorted))[k])
  {
    var plan := OwnPlan(sorted);
    OwnSizes();
    PlanLayoutIsSlices(plan, sorted);
    SliceLayoutWellFormed(sorted, plan.sizes);
    forall k | 0 <= k < 5 ensures Accepts(PlanLayout(plan), Members(sorted), k, ListsOf(plan)[k]) {
      SliceAccepted(sorted, plan.sizes, k);
    }
  }

  lemma OwnPinGoes(w: World, plan: BracketPlan, slot: nat)
    requires ReadyToReveal(w) && |Entrants(w)| == 53 && plan == OwnPlan(Sorted(Entrants(w))) && FitsWidth(plan)
    ensures var s := PinStep(plan, slot);
            && Next(w, s) == Ok(w.(tier1 := Some(Tier1(PlanLayout(plan), {}, [], false, slot % STAMPS))))
            && Careful(w, s)
    ensures Pinned(Tier1Shards, w.(tier1 := Some(Tier1(PlanLayout(plan), {}, [], false, slot % STAMPS))), ListsOf(plan))
  {
    OwnPlanCuts(Sorted(Entrants(w)));
    OwnSizes();
  }

  lemma OwnTierUsable(w1: World, n: nat)
    requires w1.results == map[]
    ensures Usable(Tier1Shards, w1, n, false)
  {
  }

  lemma SemifinalOfThirteen(winners: seq<Key>)
    requires |winners| == 13
    ensures PromotedLayout(winners).sizes == [13]
  {
  }

  lemma OwnWinners(v: World, plan: BracketPlan)
    requires Inv(v) && v.tier1.Some? && v.tier1.value.layout.sizes == OWN_SIZES && AllDone(v.tier1.value)
    ensures |v.tier1.value.winners| == 13
  {
    var t := v.tier1.value;
    WinnersCounted(v, t);
    hide Inv;
    AllDoneWinners(OWN_SIZES, t.done, 5);
    OwnSizes();
  }

  /** Tier 1 under that layout, run and promoted without a refusal: one semifinal. */
  lemma ToLoneSemifinal(w: World, slot: nat) returns (steps: seq<Step>, v: World)
    requires ReadyToReveal(w) && |Entrants(w)| == 53 && slot % STAMPS != 1
    ensures Reached(w, steps, v) && Inv(v) && AtRest(v) && Promoted(v) && Entrants(v) == Entrants(w)
    ensures v.bracket.Some? && OneShard(v.bracket.value) && v.bracket.value.generation == 1
    ensures ShardResult(0) in v.results && v.results[ShardResult(0)].generation == slot % STAMPS
  {
    hide Inv, GoesThrough, Run, Pass, PlanLayout, OwnPlan, ReadyToReveal, Pinned, AtRest, Careful, SameTier, OthersKept, OnlyStamped,
         ResultReady, CollectedBy, Next;
    OwnPlanCuts(Sorted(Entrants(w)));
    var plan := OwnPlan(Sorted(Entrants(w)));
    var s, lists := PinStep(plan, slot), ListsOf(plan);
    ReadyFacts(w);
    OwnPinGoes(w, plan, slot);
    LeadsNowhere(w, None);
    CleanStep(w, [], w, s);
    AfterOk(w, s);
    var w1 := After(w, s);
    OwnTierUsable(w1, |lists|);
    NothingDoneYet(w1);
    var u := RunTier(Tier1Shards, w1, lists, false);
    LeadsConcat(w, [] + [s], w1, Pass(Tier1Shards, w1, lists, false), u, None);
    FinishedOwn(w1, u, plan, lists);
    OwnPromotion(w1, u, slot);
    CleanStep(w, [] + [s] + Pass(Tier1Shards, w1, lists, false), u, Promote(true));
    OwnWinners(u, plan);
    SemifinalOfThirteen(u.tier1.value.winners);
    steps, v := [] + [s] + Pass(Tier1Shards, w1, lists, false) + [Promote(true)], After(u, Promote(true));
    PromoteEffect(u, Promote(true));
    OwnAtRest(w, u, v);
  }

  lemma ReadyFacts(w: World)
    requires ReadyToReveal(w)
    ensures Inv(w) && AtRest(w) && w.bracket.None? && w.results == map[] && w.inFlight == multiset{} && AllScored(w)
  {
    UnstartedInv(w);
  }

  lemma NothingDoneYet(w1: World)
    ensures w1.tier1.Some? && w1.tier1.value.done == {} ==> CollectedBy(Tier1Shards, w1) == {}
  {
  }

  lemma FinishedOwn(w1: World, u: World, plan: BracketPlan, lists: seq<seq<Key>>)
    requires FitsWidth(plan) && w1.tier1.Some? && !w1.tier1.value.promoted && w1.bracket.None? && w1.results == map[]
    requires w1.tier1.value.layout == PlanLayout(plan) && plan.sizes == OWN_SIZES && |lists| == 5
    requires SameTier(Tier1Shards, w1, u) && OnlyStamped(w1, u, StampOf(Tier1Shards, w1))
    requires forall k :: 0 <= k < |lists| ==> k in CollectedBy(Tier1Shards, u) && ResultReady(u, AddrOf(Tier1Shards, k))
    ensures u.tier1.Some? && !u.tier1.value.promoted && AllDone(u.tier1.value) && u.tier1.value.layout.sizes == OWN_SIZES
    ensures u.tier1.value.generation == w1.tier1.value.generation && u.bracket.None? && u.round == w1.round && u.ledger == w1.ledger
    ensures ShardResult(0) in u.results
    ensures forall a :: a in u.results ==> u.results[a].generation == w1.tier1.value.generation
  {
    assert ResultReady(u, AddrOf(Tier1Shards, 0));
    assert u.tier1.value.done == CollectedBy(Tier1Shards, u);
  }

  lemma OwnPromotion(w1: World, u: World, slot: nat)
    requires Inv(u) && u.tier1.Some? && !u.tier1.value.promoted && AllDone(u.tier1.value) && u.bracket.None?
    requires u.inFlight == multiset{} && u.tier1.value.generation == slot % STAMPS != 1
    requires forall a :: a in u.results ==> u.results[a].generation == slot % STAMPS
    ensures Next(u, Promote(true)).Ok? && Careful(u, Promote(true))
  {
    hide Inv;
    PromotionNeverJams(u, Promote(true));
  }

  lemma OwnAtRest(w: World, u: World, v: World)
    requires AtRest(w) && u.round == w.round && u.ledger == w.ledger && u.inFlight == multiset{}
    requires v.round == u.round && v.ledger == u.ledger && v.inFlight == u.inFlight
    requires v.bracket.Some? && !v.bracket.value.applied
    ensures AtRest(v) && Entrants(v) == Entrants(w)
  {
  }

  /** From there the operator's own run is refused, at every slot: the lone shard's record it would
  apply is tier 1's, under tier 1's stamp. */
  lemma LoneSemifinalStalls(w: World, slot: nat, plan: BracketPlan, later: nat) returns (steps: seq<Step>, v: World)
    requires ReadyToReveal(w) && |Entrants(w)| == 53 && slot % STAMPS != 1
    requires PlansFor(plan, Sorted(Entrants(w)))
    ensures Reached(w, steps, v) && Inv(v) && AtRest(v) && Promoted(v) && v.bracket.Some? && OneShard(v.bracket.value)
    ensures FitsWidth(plan) && !Resumable(v, plan) && !Accepted(v, OperatorSteps(v, plan, later))
  {
    hide Inv, GoesThrough, Run, ReadyToReveal, AtRest, PlansFor, Accepted, OperatorSteps;
    steps, v := ToLoneSemifinal(w, slot);
    PlanIsLists(w, plan);
    TwoTierPlan(plan, Sorted(Entrants(w)));
    var end := RunBracketReveal(v, plan, later);
  }

  lemma TwoTierPlan(plan: BracketPlan, sorted: seq<Key>)
    requires PlansFor(plan, sorted) && |sorted| == 53
    ensures plan.twoTier
  {
  }
}
