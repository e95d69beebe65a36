/** The automatic operator's run of a one-tier round up to the endgame, from wherever the round
stands: pin the planned partition unless it is pinned already, then one pass over the shards. */
module SingleTierDriver {
  import opened Ranking
  import opened Partition
  import opened Accounts
  import opened Instructions
  import opened Planner
  import opened RevealRun
  import opened RevealInvariant
  import opened TierDriver
  import opened EndgameDriver

  /** Closed, fully scored, not yet revealed, and nothing due: the grace wait is over. */
  ghost predicate AtRest(w: World) {
    && !w.round.revealed && w.round.status != Open && w.round.scoredCount == w.round.participantCount
    && AllScored(w) && w.inFlight == multiset{} && (w.bracket.Some? ==> !w.bracket.value.applied)
  }

  /** Nothing at all carries stamp g. */
  predicate UnusedStamp(w: World, g: nat) {
    && (forall a :: a in w.results ==> w.results[a].generation != g)
    && (forall c :: c in w.inFlight ==> c.stamp != g)
    && (w.bracket.Some? ==> w.bracket.value.generation != g)
    && (w.tier1.Some? ==> w.tier1.value.generation != g)
  }

  function ListsOf(plan: BracketPlan): (lists: seq<seq<Key>>)
    ensures |lists| == |plan.shards|
  {
    seq(|plan.shards|, k requires 0 <= k < |plan.shards| => plan.shards[k].entries)
  }

  predicate FitsWidth(plan: BracketPlan) {
    |plan.sizes| == |plan.shards| <= Width(plan)
  }

  /** Both arrays are padded to the account's fixed width. */
  function PinStep(plan: BracketPlan, slot: nat): Step
    requires FitsWidth(plan)
  {
    var sizes, bounds := Padded(plan.sizes, Width(plan)), Padded(Bounds(plan), Width(plan));
    if plan.twoTier then PinTier1(true, sizes, bounds, |plan.shards|, slot)
    else PinBracket(true, sizes, bounds, |plan.shards|)
  }

  // ---- one tier ----------------------------------------------------------------------------

  predicate BracketMatches(w: World, plan: BracketPlan)
    requires FitsWidth(plan)
  {
    w.bracket.Some? && w.bracket.value.layout == PlanLayout(plan)
  }

  ghost function BracketPins(w: World, plan: BracketPlan): seq<Step>
    requires FitsWidth(plan)
  {
    if BracketMatches(w, plan) then [] else [PinStep(plan, 0)]
  }

  /** Pin unless the right partition is pinned; results older than a re-pin are not trusted. */
  ghost function SingleTierSteps(w: World, plan: BracketPlan): seq<Step>
    requires FitsWidth(plan)
  {
    var pins := BracketPins(w, plan);
    pins + Pass(Shards, Run(w, pins), ListsOf(plan), pins != [] && w.bracket.Some?)
  }

  /** Nothing the pass would trust is out of date. */
  predicate SingleTierOpen(w: World, plan: BracketPlan)
    requires FitsWidth(plan)
  {
    if BracketMatches(w, plan) then Usable(Shards, w, |plan.shards|, false)
    else w.bracket.Some? || forall k :: 0 <= k < |plan.shards| ==> !ResultReady(w, ShardResult(k))
  }

  lemma PlanIsLists(w: World, plan: BracketPlan)
    requires PlansFor(plan, Sorted(Entrants(w)))
    ensures FitsWidth(plan) && plan.shards != [] && |plan.shards| <= MAX_TIER1_SHARDS
    ensures forall k :: 0 <= k < |plan.shards| ==> Accepts(PlanLayout(plan), Entrants(w), k, ListsOf(plan)[k])
  {
    var sorted := Sorted(Entrants(w));
    PlanPassesLayout(plan, sorted);
    forall k | 0 <= k < |plan.shards| ensures Accepts(PlanLayout(plan), Entrants(w), k, ListsOf(plan)[k]) {
      PlanPassesShardChecks(plan, sorted, k);
    }
  }

  lemma PinBracketGoes(w: World, plan: BracketPlan)
    requires Inv(w) && AtRest(w) && PlansFor(plan, Sorted(Entrants(w))) && !plan.twoTier && FitsWidth(plan)
    requires UnusedStamp(w, NextStamp(BracketStamp(w)))
    ensures var s := PinStep(plan, 0);
            && Next(w, s).Ok? && Careful(w, s)
            && After(w, s) == w.(bracket := Some(FreshBracket(PlanLayout(plan), w.bracket)), ground := Entrants(w))
  {
    PlanPassesLayout(plan, Sorted(Entrants(w)));
  }

  /** After the pin, if any, the tier is pinned, and what is out of date is known. */
  lemma BracketPinned(w: World, plan: BracketPlan) returns (w1: World)
    requires Inv(w) && AtRest(w) && PlansFor(plan, Sorted(Entrants(w))) && !plan.twoTier && FitsWidth(plan)
    requires UnusedStamp(w, NextStamp(BracketStamp(w)))
    ensures Reached(w, BracketPins(w, plan), w1) && Inv(w1) && Pinned(Shards, w1, ListsOf(plan))
    ensures w1.inFlight == multiset{} && w1.bracket.Some? && !w1.bracket.value.applied && w1.results == w.results
    ensures BracketMatches(w, plan) ==> w1 == w
    ensures !BracketMatches(w, plan) ==>
              && CollectedBy(Shards, w1) == {} && !w1.bracket.value.finalQueued
              && forall a :: a in w.results ==> w.results[a].generation != StampOf(Shards, w1)
  {
    hide Inv, Next, After, Careful, PlansFor, GoesThrough, Run;
    PlanIsLists(w, plan);
    LeadsNowhere(w, None);
    w1 := w;
    if !BracketMatches(w, plan) {
      PinBracketGoes(w, plan);
      CleanStep(w, [], w, PinStep(plan, 0));
      assert [] + [PinStep(plan, 0)] == [PinStep(plan, 0)];
      w1 := After(w, PinStep(plan, 0));
    }
    OneTierOnly(w, plan);
  }

  lemma OneTierOnly(w: World, plan: BracketPlan)
    requires Inv(w) && PlansFor(plan, Sorted(Entrants(w)))
    ensures plan.twoTier <==> TwoTier(w)
  {
  }

  /** The record of a final queued earlier is ready and current. */
  predicate FinalAnswered(w: World) {
    var addr := ShardResult(FINAL_SHARD_INDEX);
    w.bracket.Some? && addr in w.results && RecordError(w.results[addr], BracketStamp(w)) == None
  }

  /** What the endgame will find, told from where the round stands. */
  predicate SingleEndgameOpen(w: World, plan: BracketPlan)
    requires FitsWidth(plan)
  {
    BracketMatches(w, plan) ==>
      if |plan.shards| == 1 then !Stale(Shards, w, 0) else w.bracket.value.finalQueued ==> FinalAnswered(w)
  }

  lemma UsableAfterPin(t: Tier, w1: World, n: nat, force: bool)
    requires CollectedBy(t, w1) == {}
    requires forall a :: a in w1.results ==> w1.results[a].generation != StampOf(t, w1)
    ensures Usable(t, w1, n, force) <==> force || forall k :: 0 <= k < n ==> !ResultReady(w1, AddrOf(t, k))
  {
    if !force && Usable(t, w1, n, force) {
      forall k | 0 <= k < n ensures !ResultReady(w1, AddrOf(t, k)) {
        assert !Stale(t, w1, k);
      }
    }
  }

  lemma SingleTierUsable(w: World, w1: World, plan: BracketPlan, force: bool)
    requires FitsWidth(plan) && w1.results == w.results
    requires BracketMatches(w, plan) ==> w1 == w && !force
    requires !BracketMatches(w, plan) ==>
               && force == w.bracket.Some? && CollectedBy(Shards, w1) == {}
               && forall a :: a in w.results ==> w.results[a].generation != StampOf(Shards, w1)
    ensures Usable(Shards, w1, |plan.shards|, force) <==> SingleTierOpen(w, plan)
  {
    if !BracketMatches(w, plan) {
      UsableAfterPin(Shards, w1, |plan.shards|, force);
      assert forall k: nat :: AddrOf(Shards, k) == ShardResult(k)
                                && (ResultReady(w1, ShardResult(k)) <==> ResultReady(w, ShardResult(k)));
    }
  }

  lemma FinalRecordKept(t: Tier, w: World, v: World, n: nat, force: bool)
    requires n <= FINAL_SHARD_INDEX && OthersKept(t, ToQueue(t, w, n, force), w, v)
    ensures var addr := ShardResult(FINAL_SHARD_INDEX);
            (addr in v.results <==> addr in w.results) && (addr in w.results ==> v.results[addr] == w.results[addr])
  {
    assert !Addressed(t, ToQueue(t, w, n, force), ShardResult(FINAL_SHARD_INDEX));
  }

  /** Pin if need be, reveal and collect every shard: never refused exactly if open. */
  lemma RunSingleTier(w: World, plan: BracketPlan) returns (v: World)
    requires Inv(w) && AtRest(w) && PlansFor(plan, Sorted(Entrants(w))) && !plan.twoTier && FitsWidth(plan)
    requires UnusedStamp(w, NextStamp(BracketStamp(w)))
    ensures Accepted(w, SingleTierSteps(w, plan)) <==> SingleTierOpen(w, plan)
    ensures SingleTierOpen(w, plan) ==>
              && Reached(w, SingleTierSteps(w, plan), v) && Inv(v) && AtEndgame(v)
              && (EndgameOpen(v) <==> SingleEndgameOpen(w, plan))
  {
    hide Inv, PlansFor, GoesThrough, Accepted, Pass, Pinned, Usable, Stale, ResultReady, AtRest, AtEndgame, SingleTierOpen,
         SameTier, OthersKept, OnlyStamped, EndgameOpen, SingleEndgameOpen;
    var w1 := BracketPinned(w, plan);
    var pins, lists := BracketPins(w, plan), ListsOf(plan);
    var force := pins != [] && w.bracket.Some?;
    PlanIsLists(w, plan);
    SingleTierUsable(w, w1, plan, force);
    PassGoesThrough(Shards, w1, lists, force);
    CleanIsAdmissible(w, pins);
    AcceptedConcat(w, pins, Pass(Shards, w1, lists, force));
    v := w;
    if SingleTierOpen(w, plan) {
      v := RunTier(Shards, w1, lists, force);
      LeadsConcat(w, pins, w1, Pass(Shards, w1, lists, force), v, None);
      FinalRecordKept(Shards, w1, v, |lists|, force);
      SingleTierEnd(w, w1, v, plan, force);
    }
  }

  lemma SingleTierEnd(w: World, w1: World, v: World, plan: BracketPlan, force: bool)
    requires FitsWidth(plan) && plan.shards != [] && w1.results == w.results && SingleTierOpen(w, plan)
    requires BracketMatches(w, plan) ==> w1 == w && !force
    requires !BracketMatches(w, plan) ==> force == w.bracket.Some? && w1.bracket.Some? && !w1.bracket.value.finalQueued
    requires Pinned(Shards, w1, ListsOf(plan)) && SameTier(Shards, w1, v) && v.inFlight == multiset{}
    requires w1.bracket.Some? && !w1.bracket.value.applied
    requires forall k :: 0 <= k < |plan.shards| ==> k in CollectedBy(Shards, v) && ResultReady(v, AddrOf(Shards, k))
    requires forall k :: 0 <= k < |plan.shards| ==> (Stale(Shards, v, k) <==> !force && Stale(Shards, w1, k))
    requires var addr := ShardResult(FINAL_SHARD_INDEX);
             (addr in v.results <==> addr in w1.results) && (addr in w1.results ==> v.results[addr] == w1.results[addr])
    ensures AtEndgame(v) && (EndgameOpen(v) <==> SingleEndgameOpen(w, plan))
  {
    SameTierPinned(Shards, w1, v, ListsOf(plan));
    assert ResultReady(v, AddrOf(Shards, 0)) && AddrOf(Shards, 0) == ShardResult(0);
    assert Stale(Shards, v, 0) <==> !force && Stale(Shards, w1, 0);
  }
}
