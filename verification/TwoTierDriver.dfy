/** The automatic operator's run of a two-tier round up to the endgame, from wherever the round
stands: tier 1 pinned, revealed, collected and promoted unless it is promoted already, then one
pass over the semifinals the program computed. */
module TwoTierDriver {
  import opened Ranking
  import opened Accounts
  import opened Instructions
  import opened Planner
  import opened RevealRun
  import opened RevealInvariant
  import opened RevealSteps
  import opened RevealProgress
  import opened TierDriver
  import opened EndgameDriver
  import opened SingleTierDriver

  predicate Promoted(w: World) {
    w.tier1.Some? && w.tier1.value.promoted
  }

  predicate Tier1Matches(w: World, plan: BracketPlan)
    requires FitsWidth(plan)
  {
    w.tier1.Some? && w.tier1.value.layout == PlanLayout(plan)
  }

  /** An unpromoted tier 1 with another partition has to be closed first: pinning is one-shot. */
  predicate MustClear(w: World, plan: BracketPlan)
    requires FitsWidth(plan)
  {
    w.tier1.Some? && !Promoted(w) && !Tier1Matches(w, plan)
  }

  ghost function Tier1Pins(w: World, plan: BracketPlan, slot: nat): seq<Step>
    requires FitsWidth(plan)
  {
    if Tier1Matches(w, plan) then []
    else (if w.tier1.Some? then [CloseTier1Account(true)] else []) + [PinStep(plan, slot)]
  }

  /** A promoted tier 1 is never disturbed. */
  ghost function FirstTierSteps(w: World, plan: BracketPlan, slot: nat): seq<Step>
    requires FitsWidth(plan)
  {
    if Promoted(w) then []
    else
      var pins := Tier1Pins(w, plan, slot);
      pins + Pass(Tier1Shards, Run(w, pins), ListsOf(plan), MustClear(w, plan)) + [Promote(true)]
  }

  function SlicesOf(t: Tier1, b: Bracket): (lists: seq<seq<Key>>)
    ensures |lists| == |b.layout.sizes|
  {
    seq(|b.layout.sizes|, k requires 0 <= k < |b.layout.sizes| => SemifinalSlice(t, b, k))
  }

  /** The semifinals are read from the accounts, never guessed. */
  function SemifinalLists(w: World): seq<seq<Key>> {
    if w.tier1.Some? && w.bracket.Some? then SlicesOf(w.tier1.value, w.bracket.value) else []
  }

  ghost function TwoTierSteps(w: World, plan: BracketPlan, slot: nat): seq<Step>
    requires FitsWidth(plan)
  {
    var first := FirstTierSteps(w, plan, slot);
    var w2 := Run(w, first);
    first + Pass(Semifinals, w2, SemifinalLists(w2), false)
  }

  // ---- what the passes will find -----------------------------------------------------------

  predicate FirstTierOpen(w: World, plan: BracketPlan)
    requires FitsWidth(plan)
  {
    if Promoted(w) || MustClear(w, plan) then true
    else if w.tier1.None? then forall k :: 0 <= k < |plan.shards| ==> !ResultReady(w, ShardResult(k))
    else Usable(Tier1Shards, w, |plan.shards|, false)
  }

  /** Results of semifinals computed before a promotion that is still to come are out of date. */
  predicate SemifinalsOpen(w: World, plan: BracketPlan) {
    if Promoted(w) then w.bracket.Some? && Usable(Semifinals, w, |w.bracket.value.layout.sizes|, false)
    else forall k :: 0 <= k < |plan.semifinalSizes| ==> !ResultReady(w, SemiResult(k))
  }

  /** The stamps the run may take are not in use. */
  predicate UnusedStamps(w: World, slot: nat) {
    && UnusedStamp(w, NextStamp(BracketStamp(w))) && UnusedStamp(w, slot % STAMPS)
    && slot % STAMPS != NextStamp(BracketStamp(w))
  }

  // ---- tier 1 ------------------------------------------------------------------------------

  lemma PinTier1Goes(w: World, plan: BracketPlan, slot: nat)
    requires Inv(w) && AtRest(w) && PlansFor(plan, Sorted(Entrants(w))) && plan.twoTier && FitsWidth(plan)
    requires w.tier1.None? && UnusedStamp(w, slot % STAMPS)
    ensures var s := PinStep(plan, slot);
            && Next(w, s).Ok? && Careful(w, s)
            && After(w, s) == w.(tier1 := Some(Tier1(PlanLayout(plan), {}, [], false, slot % STAMPS)))
  {
    PlanPassesLayout(plan, Sorted(Entrants(w)));
  }

  lemma CloseGoes(w: World)
    requires AtRest(w) && w.tier1.Some?
    ensures var s := CloseTier1Account(true); Next(w, s) == Ok(w.(tier1 := None)) && Careful(w, s)
  {
  }

  lemma CloseKeepsFresh(w: World, slot: nat)
    requires UnusedStamp(w, slot % STAMPS)
    ensures UnusedStamp(w.(tier1 := None), slot % STAMPS)
  {
  }

  /** The right partition is pinned, and its stamp is the slot's if it is newly so. */
  lemma Tier1Pinned(w: World, plan: BracketPlan, slot: nat) returns (w1: World)
    requires Inv(w) && AtRest(w) && PlansFor(plan, Sorted(Entrants(w))) && plan.twoTier && FitsWidth(plan)
    requires !Promoted(w) && UnusedStamps(w, slot)
    ensures Reached(w, Tier1Pins(w, plan, slot), w1) && Inv(w1) && Pinned(Tier1Shards, w1, ListsOf(plan))
    ensures w1 == w.(tier1 := w1.tier1) && w1.tier1.Some? && w1.tier1.value.layout == PlanLayout(plan)
    ensures if Tier1Matches(w, plan) then w1 == w
            else CollectedBy(Tier1Shards, w1) == {} && StampOf(Tier1Shards, w1) == slot % STAMPS
  {
    hide Inv, Next, After, Careful, PlansFor, GoesThrough, Run, UnusedStamp;
    PlanIsLists(w, plan);
    LeadsNowhere(w, None);
    w1 := w;
    if !Tier1Matches(w, plan) {
      var steps: seq<Step>, u := [], w;
      if w.tier1.Some? {
        CloseGoes(w);
        AfterOk(w, CloseTier1Account(true));
        CloseKeepsFresh(w, slot);
        CleanStep(w, [], w, CloseTier1Account(true));
        steps, u := [] + [CloseTier1Account(true)], After(w, CloseTier1Account(true));
      }
      PinTier1Goes(u, plan, slot);
      CleanStep(w, steps, u, PinStep(plan, slot));
      assert steps + [PinStep(plan, slot)] == Tier1Pins(w, plan, slot);
      w1 := After(u, PinStep(plan, slot));
    }
  }

  lemma {:induction false} AllDoneWinners(sizes: seq<nat>, done: set<nat>, m: nat)
    requires m <= |sizes| && forall k :: 0 <= k < m ==> k in done
    ensures WinnersOf(sizes, done, m) == WinnersUpTo(sizes, m)
  {
    if m > 0 {
      AllDoneWinners(sizes, done, m - 1);
    }
  }

  lemma WinnersCounted(w: World, t: Tier1)
    requires Inv(w) && w.tier1 == Some(t)
    ensures |t.winners| == WinnersOf(t.layout.sizes, t.done, |t.layout.sizes|)
  {
  }

  /** The semifinal partition the program computes is the planned one, of at least two. */
  lemma PromotePlan(w: World, plan: BracketPlan)
    requires Inv(w) && w.tier1.Some? && !w.tier1.value.promoted && AllDone(w.tier1.value)
    requires w.tier1.value.layout.sizes == plan.sizes && PlansFor(plan, Sorted(Entrants(w))) && plan.twoTier
    ensures var t, v := w.tier1.value, After(w, Promote(true));
            && Next(w, Promote(true)).Ok? && t.winners != []
            && PromotedLayout(t.winners).sizes == plan.semifinalSizes && 2 <= |plan.semifinalSizes|
            && v == w.(bracket := Some(FreshBracket(PromotedLayout(t.winners), w.bracket)),
                       tier1 := Some(t.(promoted := true)), ground := Members(t.winners))
  {
    hide Inv, Next, After, PromotedLayout, PlanShardSizes, PlansFor;
    PromotionNeverJams(w, Promote(true));
    PromoteEffect(w, Promote(true));
    var t := w.tier1.value;
    WinnersCounted(w, t);
    AllDoneWinners(plan.sizes, t.done, |plan.sizes|);
    PlannedSemifinals(plan, Sorted(Entrants(w)), t.winners);
  }

  lemma SemifinalsPinned(w: World)
    requires !w.round.revealed && AllScored(w) && Promoted(w) && w.bracket.Some?
    ensures Pinned(Semifinals, w, SemifinalLists(w))
  {
  }

  /** Promotion takes a stamp that nothing the tier-1 pass wrote carries. */
  lemma PromotionIsFresh(w: World, w1: World, v: World, slot: nat)
    requires UnusedStamps(w, slot) && w1 == w.(tier1 := w1.tier1) && w1.tier1.Some? && v.tier1.Some?
    requires StampOf(Tier1Shards, w1) == slot % STAMPS || w1 == w
    requires OnlyStamped(w1, v, StampOf(Tier1Shards, w1)) && v.inFlight == multiset{} && v.bracket == w1.bracket
    requires v.tier1.value.generation == StampOf(Tier1Shards, w1)
    ensures UnusedStamp(v, NextStamp(BracketStamp(v))) && Careful(v, Promote(true))
    ensures forall a :: a in v.results ==> v.results[a].generation != NextStamp(BracketStamp(w))
  {
  }

  lemma FirstTierUsable(w: World, w1: World, plan: BracketPlan, slot: nat)
    requires FitsWidth(plan) && !Promoted(w) && UnusedStamps(w, slot) && w1 == w.(tier1 := w1.tier1)
    requires if Tier1Matches(w, plan) then w1 == w
             else CollectedBy(Tier1Shards, w1) == {} && StampOf(Tier1Shards, w1) == slot % STAMPS
    ensures Usable(Tier1Shards, w1, |plan.shards|, MustClear(w, plan)) <==> FirstTierOpen(w, plan)
  {
    if !Tier1Matches(w, plan) {
      UsableAfterPin(Tier1Shards, w1, |plan.shards|, MustClear(w, plan));
      assert forall k: nat :: AddrOf(Tier1Shards, k) == ShardResult(k)
                                && (ResultReady(w1, ShardResult(k)) <==> ResultReady(w, ShardResult(k)));
    }
  }

  /** Tier 1 is promoted just now: a fresh bracket of at least two semifinals, whose stamp no record
  carries. */
  ghost predicate JustPromoted(w: World, plan: BracketPlan)
    requires FitsWidth(plan)
  {
    && !w.round.revealed && AllScored(w) && w.inFlight == multiset{} && w.bracket.Some?
    && Promoted(w) && w.tier1.value.layout == PlanLayout(plan)
    && var b := w.bracket.value;
       && b.layout.sizes == plan.semifinalSizes && 2 <= |b.layout.sizes| && b.collected == {} && !b.finalQueued && !b.applied
       && forall a :: a in w.results ==> w.results[a].generation != b.generation
  }

  ghost predicate SameSemifinalRecords(w: World, v: World) {
    forall k: nat :: ResultReady(v, SemiResult(k)) <==> ResultReady(w, SemiResult(k))
  }

  lemma Tier1PassKeepsSemifinals(need: seq<nat>, w: World, v: World)
    requires OthersKept(Tier1Shards, need, w, v)
    ensures SameSemifinalRecords(w, v)
  {
    forall k: nat ensures ResultReady(v, SemiResult(k)) <==> ResultReady(w, SemiResult(k)) {
      assert !Addressed(Tier1Shards, need, SemiResult(k));
    }
  }

  /** The tier-1 pass leaves a finished tier. */
  lemma PassFinishesTier1(w1: World, v: World, plan: BracketPlan)
    requires Pinned(Tier1Shards, w1, ListsOf(plan)) && SameTier(Tier1Shards, w1, v)
    requires FitsWidth(plan) && w1.tier1.value.layout == PlanLayout(plan)
    requires forall k :: 0 <= k < |plan.shards| ==> k in CollectedBy(Tier1Shards, v)
    ensures v.tier1.Some? && !v.tier1.value.promoted && AllDone(v.tier1.value) && v.tier1.value.layout == PlanLayout(plan)
    ensures v.bracket == w1.bracket && v.round == w1.round && v.ledger == w1.ledger
    ensures v.tier1.value.generation == StampOf(Tier1Shards, w1) && AllScored(v) && Entrants(v) == Entrants(w1)
  {
    SameTierPinned(Tier1Shards, w1, v, ListsOf(plan));
    assert v.tier1.value.done == CollectedBy(Tier1Shards, v);
  }

  lemma PromoteNow(w0: World, steps: seq<Step>, v: World, plan: BracketPlan) returns (w2: World)
    requires Reached(w0, steps, v) && Inv(v) && Careful(v, Promote(true)) && v.inFlight == multiset{}
    requires !v.round.revealed && AllScored(v) && v.tier1.Some? && !v.tier1.value.promoted && AllDone(v.tier1.value)
    requires FitsWidth(plan) && v.tier1.value.layout == PlanLayout(plan) && PlansFor(plan, Sorted(Entrants(v))) && plan.twoTier
    requires forall a :: a in v.results ==> v.results[a].generation != NextStamp(BracketStamp(v))
    ensures Reached(w0, steps + [Promote(true)], w2) && Inv(w2) && JustPromoted(w2, plan) && w2.results == v.results
  {
    hide Inv, Next, After, Careful, PlansFor, GoesThrough, Run, PromotedLayout;
    PromotePlan(v, plan);
    CleanStep(w0, steps, v, Promote(true));
    w2 := After(v, Promote(true));
  }

  /** Tier 1 from wherever it stands to its promotion: never refused exactly if open. */
  lemma RunFirstTier(w: World, plan: BracketPlan, slot: nat) returns (w2: World)
    requires Inv(w) && AtRest(w) && PlansFor(plan, Sorted(Entrants(w))) && plan.twoTier && FitsWidth(plan)
    requires !Promoted(w) && UnusedStamps(w, slot)
    ensures FirstTierOpen(w, plan) ==>
              && Reached(w, FirstTierSteps(w, plan, slot), w2) && Inv(w2)
              && JustPromoted(w2, plan) && SameSemifinalRecords(w, w2)
    ensures !FirstTierOpen(w, plan) ==> !Accepted(w, FirstTierSteps(w, plan, slot))
  {
    hide Inv, PlansFor, GoesThrough, Accepted, Pass, Pinned, Usable, AtRest, FirstTierOpen, SameTier, OthersKept, OnlyStamped,
         Run, Careful, UnusedStamps, JustPromoted, ResultReady, CollectedBy, Stale;
    RestFacts(w);
    var w1 := Tier1Pinned(w, plan, slot);
    var pins, lists, force := Tier1Pins(w, plan, slot), ListsOf(plan), MustClear(w, plan);
    FirstTierUsable(w, w1, plan, slot);
    PlanIsLists(w, plan);
    PassGoesThrough(Tier1Shards, w1, lists, force);
    var pass := Pass(Tier1Shards, w1, lists, force);
    AcceptedConcat(w, pins, pass);
    AcceptedConcat(w, pins + pass, [Promote(true)]);
    w2 := w;
    if FirstTierOpen(w, plan) {
      var v := RunTier(Tier1Shards, w1, lists, force);
      LeadsConcat(w, pins, w1, pass, v, None);
      PassFinishesTier1(w1, v, plan);
      PromotionIsFresh(w, w1, v, slot);
      Tier1PassKeepsSemifinals(ToQueue(Tier1Shards, w1, |lists|, force), w1, v);
      w2 := PromoteNow(w, pins + pass, v, plan);
      SemifinalRecordsThrice(w, w1, v, w2);
    }
  }

  lemma RestFacts(w: World)
    requires AtRest(w)
    ensures !w.round.revealed && AllScored(w) && w.inFlight == multiset{}
  {
  }

  lemma SemifinalRecordsThrice(w: World, w1: World, v: World, w2: World)
    requires w1.results == w.results && SameSemifinalRecords(w1, v) && w2.results == v.results
    ensures SameSemifinalRecords(w, w2)
  {
    forall k: nat ensures ResultReady(w2, SemiResult(k)) <==> ResultReady(w, SemiResult(k)) {
      assert ResultReady(w1, SemiResult(k)) <==> ResultReady(w, SemiResult(k));
      assert ResultReady(w2, SemiResult(k)) <==> ResultReady(v, SemiResult(k));
    }
  }

  // ---- the semifinals ----------------------------------------------------------------------

  lemma SemifinalsUsable(w: World, w2: World, plan: BracketPlan)
    requires FitsWidth(plan) && !Promoted(w) && JustPromoted(w2, plan) && SameSemifinalRecords(w, w2)
    ensures Usable(Semifinals, w2, |w2.bracket.value.layout.sizes|, false) <==> SemifinalsOpen(w, plan)
  {
    UsableAfterPin(Semifinals, w2, |plan.semifinalSizes|, false);
    forall k: nat ensures ResultReady(w2, AddrOf(Semifinals, k)) <==> ResultReady(w, SemiResult(k)) {
      assert AddrOf(Semifinals, k) == SemiResult(k);
    }
  }

  lemma SemifinalsEnd(w2: World, v: World, lists: seq<seq<Key>>)
    requires Pinned(Semifinals, w2, lists) && SameTier(Semifinals, w2, v) && v.inFlight == multiset{}
    requires OthersKept(Semifinals, ToQueue(Semifinals, w2, |lists|, false), w2, v)
    requires w2.bracket.Some? && !w2.bracket.value.applied
    requires forall k :: 0 <= k < |lists| ==> k in CollectedBy(Semifinals, v)
    ensures AtEndgame(v) && (EndgameOpen(v) <==> EndgameOpen(w2))
  {
    SameTierPinned(Semifinals, w2, v, lists);
    assert v.bracket.value.collected == CollectedBy(Semifinals, v);
    var need := ToQueue(Semifinals, w2, |lists|, false);
    assert !Addressed(Semifinals, need, ShardResult(0)) && !Addressed(Semifinals, need, ShardResult(FINAL_SHARD_INDEX));
  }

  /** One pass over the semifinals of a promoted bracket. */
  lemma RunSemifinals(w2: World) returns (v: World)
    requires Inv(w2) && !w2.round.revealed && AllScored(w2) && w2.inFlight == multiset{}
    requires Promoted(w2) && w2.bracket.Some? && !w2.bracket.value.applied
    ensures var lists := SemifinalLists(w2); var pass := Pass(Semifinals, w2, lists, false);
            && (Accepted(w2, pass) <==> Usable(Semifinals, w2, |w2.bracket.value.layout.sizes|, false))
            && (Accepted(w2, pass) ==> Reached(w2, pass, v) && Inv(v) && AtEndgame(v) && (EndgameOpen(v) <==> EndgameOpen(w2)))
  {
    hide Inv, GoesThrough, Accepted, Pass, Usable, OthersKept, OnlyStamped, Run, SameTier, EndgameOpen, AtEndgame;
    SemifinalsPinned(w2);
    var lists := SemifinalLists(w2);
    PassGoesThrough(Semifinals, w2, lists, false);
    v := w2;
    if Usable(Semifinals, w2, |lists|, false) {
      v := RunTier(Semifinals, w2, lists, false);
      SemifinalsEnd(w2, v, lists);
    }
  }

  lemma PromotedHasBracket(w: World)
    requires Inv(w) && Promoted(w)
    ensures w.bracket.Some?
  {
  }

  lemma JustPromotedFacts(w: World, plan: BracketPlan)
    requires FitsWidth(plan) && JustPromoted(w, plan)
    ensures !w.round.revealed && AllScored(w) && w.inFlight == multiset{} && Promoted(w)
    ensures w.bracket.Some? && !w.bracket.value.applied && EndgameOpen(w)
  {
  }

  /** From wherever the round stands to a bracket with every semifinal collected: never refused
  exactly if both passes are open. */
  lemma RunTwoTier(w: World, plan: BracketPlan, slot: nat) returns (v: World)
    requires Inv(w) && AtRest(w) && PlansFor(plan, Sorted(Entrants(w))) && plan.twoTier && FitsWidth(plan)
    requires !Promoted(w) ==> UnusedStamps(w, slot)
    ensures Accepted(w, TwoTierSteps(w, plan, slot)) <==> FirstTierOpen(w, plan) && SemifinalsOpen(w, plan)
    ensures FirstTierOpen(w, plan) && SemifinalsOpen(w, plan) ==>
              && Reached(w, TwoTierSteps(w, plan, slot), v) && Inv(v) && AtEndgame(v)
              && (EndgameOpen(v) <==> (Promoted(w) ==> EndgameOpen(w)))
  {
    hide Inv, PlansFor, GoesThrough, Accepted, Pass, Usable, Run, JustPromoted, EndgameOpen, AtEndgame, UnusedStamps, FirstTierOpen;
    var first, w2 := FirstTierSteps(w, plan, slot), w;
    v := w;
    if Promoted(w) {
      PromotedHasBracket(w);
      LeadsNowhere(w, None);
      FirstTierOfPromoted(w, plan);
    } else {
      w2 := RunFirstTier(w, plan, slot);
      if !FirstTierOpen(w, plan) {
        AcceptedConcat(w, first, Pass(Semifinals, Run(w, first), SemifinalLists(Run(w, first)), false));
        return;
      }
      SemifinalsUsable(w, w2, plan);
      JustPromotedFacts(w2, plan);
    }
    v := RunSemifinals(w2);
    var pass := Pass(Semifinals, w2, SemifinalLists(w2), false);
    CleanIsAdmissible(w, first);
    AcceptedConcat(w, first, pass);
    if Accepted(w2, pass) {
      LeadsConcat(w, first, w2, pass, v, None);
    }
  }

  lemma FirstTierOfPromoted(w: World, plan: BracketPlan)
    requires FitsWidth(plan) && Promoted(w)
    ensures FirstTierOpen(w, plan)
  {
  }
}
