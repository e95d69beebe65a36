/** A reachable state from which an interrupted re-pin stalls the automatic operator. */
module InterruptedRepin {
  import opened Ranking
  import opened Accounts
  import opened Planner
  import opened RevealRun
  import opened RevealInvariant
  import opened RevealTheorem
  import opened MisrankedRuns
  import opened TierDriver
  import opened SingleTierDriver
  import opened BracketDriver

  /** Two shards of the three entries, the first of them queued and answered. */
  function FirstShardAnswered(): seq<Step> {
    [PinTwo()] + [QueueShard(true, 0, [1, 2])] + [Callback(Computation(ShardResult(0), [1, 2], 1))]
  }

  ghost predicate HalfRevealed(w: World) {
    && OfThree(w) && w.bracket == Some(TwoShards(1)) && w.tier1.None? && w.inFlight == multiset{}
    && w.results.Keys == {ShardResult(0)} && w.results[ShardResult(0)].ready
    && w.results[ShardResult(0)].errorCode == 0 && w.results[ShardResult(0)].generation == 1
  }

  lemma FirstShardIsAnswered() returns (w: World)
    ensures AdmissibleRun(ThreeEntryRound(), FirstShardAnswered()) && Accepted(ThreeEntryRound(), FirstShardAnswered())
    ensures w == Run(ThreeEntryRound(), FirstShardAnswered()) && Inv(w) && HalfRevealed(w)
  {
    hide Next, After, Run, GoesThrough, RevealOf;
    var w2 := TwoShardsQueued(None);
    var c := Computation(ShardResult(0), [1, 2], 1);
    CallbackGoes(w2, c);
    AfterOk(w2, Callback(c));
    LeadsStep(ThreeEntryRound(), [PinTwo()] + [QueueShard(true, 0, [1, 2])], w2, Callback(c), None);
    w := After(w2, Callback(c));
    CleanIsAdmissible(ThreeEntryRound(), FirstShardAnswered());
    BestOfThree();
    assert Unstarted(ThreeEntryRound());
    UnstartedInv(ThreeEntryRound());
    RunKeeps(ThreeEntryRound(), FirstShardAnswered());
  }

  /** The client's plan for three entries is a single shard. */
  lemma PlanOfThree()
    ensures var plan := PlanOf([1, 2, 3]);
            && PlansFor(plan, [1, 2, 3]) && !plan.twoTier && FitsWidth(plan)
            && |plan.shards| == 1 && |PlanLayout(plan).sizes| == 1
  {
    PlanExists([1, 2, 3]);
  }

  lemma SortedThree()
    ensures Sorted({1, 2, 3}) == [1, 2, 3]
  {
    AscendingUnique(Sorted({1, 2, 3}), [1, 2, 3]);
  }

  lemma HalfRevealedMeetsAll(w: World)
    requires HalfRevealed(w)
    ensures var plan := PlanOf([1, 2, 3]);
            && AtRest(w) && Sorted(Entrants(w)) == [1, 2, 3] && FitsWidth(plan) && !BracketMatches(w, plan)
            && UnusedStamp(w, NextStamp(BracketStamp(w))) && ResultReady(w, ShardResult(0))
  {
    hide PlanOf, PlansFor;
    PlanOfThree();
    SortedThree();
    BestOfThree();
    assert TwoShards(1).layout.sizes == [2, 1];
  }

  /** From there the operator's run would go through; a run that breaks off right after its re-pin
  leaves the next one refused, at every clock slot. */
  lemma InterruptedRepinIsReachable(slot: nat)
    ensures var w, plan := Run(ThreeEntryRound(), FirstShardAnswered()), PlanOf([1, 2, 3]);
            && AdmissibleRun(ThreeEntryRound(), FirstShardAnswered()) && Accepted(ThreeEntryRound(), FirstShardAnswered())
            && FitsWidth(plan) && Accepted(w, OperatorSteps(w, plan, slot)) && Next(w, PinStep(plan, 0)).Ok?
            && !Accepted(After(w, PinStep(plan, 0)), OperatorSteps(After(w, PinStep(plan, 0)), plan, slot))
  {
    hide Next, Run, Accepted, AdmissibleRun, PlanOf, PlansFor, Inv, AtRest, Resumable;
    var plan := PlanOf([1, 2, 3]);
    var w := FirstShardIsAnswered();
    PlanOfThree();
    HalfRevealedMeetsAll(w);
    InterruptedRepinStalls(w, plan, 0, slot);
    RepinTakesTwo(w, plan);
  }

  lemma RepinTakesTwo(w: World, plan: BracketPlan)
    requires HalfRevealed(w) && FitsWidth(plan) && !plan.twoTier && Next(w, PinStep(plan, 0)).Ok?
    ensures var v := After(w, PinStep(plan, 0)); UnusedStamp(v, NextStamp(BracketStamp(v)))
  {
    var v := After(w, PinStep(plan, 0));
    assert BracketStamp(v) == 2 && v.results == w.results && v.inFlight == w.inFlight && v.tier1 == w.tier1;
  }
}
