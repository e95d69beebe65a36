/** The whole automatic reveal, from wherever the round stands: exactly when the operator's next run
is never refused, and that it then ends in the exact podium. */
module BracketDriver {
  import opened Ranking
  import opened Accounts
  import opened Instructions
  import opened Planner
  import opened RevealRun
  import opened RevealInvariant
  import opened RevealTheorem
  import opened TierDriver
  import opened EndgameDriver
  import opened SingleTierDriver
  import opened TwoTierDriver

  /** Everything the operator sends, plan to podium. */
  ghost function OperatorSteps(w: World, plan: BracketPlan, slot: nat): seq<Step>
    requires FitsWidth(plan)
  {
    var tiers := if plan.twoTier then TwoTierSteps(w, plan, slot) else SingleTierSteps(w, plan);
    tiers + EndgameSteps(Run(w, tiers))
  }

  /** No result the operator will trust is from another pin, and a final queued earlier has come
  back: all of it can be read off the accounts before the run. */
  predicate Resumable(w: World, plan: BracketPlan)
    requires FitsWidth(plan)
  {
    if plan.twoTier then FirstTierOpen(w, plan) && SemifinalsOpen(w, plan) && (Promoted(w) ==> EndgameOpen(w))
    else SingleTierOpen(w, plan) && SingleEndgameOpen(w, plan)
  }

  /** A stamp the run would take is in use nowhere. A promoted tier 1 takes none. */
  predicate StampsFree(w: World, plan: BracketPlan, slot: nat) {
    if plan.twoTier then !Promoted(w) ==> UnusedStamps(w, slot) else UnusedStamp(w, NextStamp(BracketStamp(w)))
  }

  lemma RunTiers(w: World, plan: BracketPlan, slot: nat) returns (v: World)
    requires Inv(w) && AtRest(w) && PlansFor(plan, Sorted(Entrants(w))) && FitsWidth(plan) && StampsFree(w, plan, slot)
    ensures var tiers := if plan.twoTier then TwoTierSteps(w, plan, slot) else SingleTierSteps(w, plan);
            && (Resumable(w, plan) ==> Accepted(w, tiers))
            && (Accepted(w, tiers) ==> Reached(w, tiers, v) && Inv(v) && AtEndgame(v) && (EndgameOpen(v) <==> Resumable(w, plan)))
  {
    hide Inv, AtRest, PlansFor, Accepted, Leads, EndgameOpen, AtEndgame, FirstTierOpen, SemifinalsOpen, SingleTierOpen,
         SingleEndgameOpen, UnusedStamps, UnusedStamp;
    if plan.twoTier {
      v := RunTwoTier(w, plan, slot);
    } else {
      v := RunSingleTier(w, plan);
    }
  }

  /** planBracket, then one tier or two, then the endgame, from any state the operator conditions
  allow: never refused if and only if resumable; and then revealed at the end, and exact. */
  lemma RunBracketReveal(w: World, plan: BracketPlan, slot: nat) returns (v: World)
    requires Inv(w) && AtRest(w) && PlansFor(plan, Sorted(Entrants(w))) && FitsWidth(plan) && StampsFree(w, plan, slot)
    ensures Accepted(w, OperatorSteps(w, plan, slot)) <==> Resumable(w, plan)
    ensures Resumable(w, plan) ==>
              && CleanRun(w, OperatorSteps(w, plan, slot)) && v == Run(w, OperatorSteps(w, plan, slot)) && Inv(v)
              && v.round.revealed && ExactTop(Standings(w), Entrants(w), v.round.top)
  {
    hide Inv, AtRest, PlansFor, Accepted, GoesThrough, Run, EndgameOpen, AtEndgame, Resumable, ExactTop, StampsFree;
    var tiers := if plan.twoTier then TwoTierSteps(w, plan, slot) else SingleTierSteps(w, plan);
    var u := RunTiers(w, plan, slot);
    AcceptedConcat(w, tiers, EndgameSteps(Run(w, tiers)));
    v := u;
    if Accepted(w, tiers) {
      EndgameGoesThrough(u);
      if Resumable(w, plan) {
        v := RunEndgame(u);
        LeadsConcat(w, tiers, u, EndgameSteps(u), v, None);
        CleanIsAdmissible(w, OperatorSteps(w, plan, slot));
        RunKeeps(w, OperatorSteps(w, plan, slot));
        RevealedIsExact(v);
      }
    }
  }

  lemma RevealedIsExact(v: World)
    requires Inv(v) && v.round.revealed
    ensures ExactTop(Standings(v), Entrants(v), v.round.top)
  {
  }

  // ---- a round nothing has been done about -------------------------------------------------

  /** Closed, fully scored, and nothing of a reveal begun. */
  ghost predicate ReadyToReveal(w: World) {
    && Unstarted(w) && w.round.status != Open && w.round.scoredCount == w.round.participantCount
    && AllScored(w)
  }

  /** At its first run the operator finds nothing out of date. Tier 1's stamp is the clock slot; it
  must not be the bracket's first stamp. */
  lemma ReadyIsResumable(w: World, plan: BracketPlan, slot: nat)
    requires ReadyToReveal(w) && PlansFor(plan, Sorted(Entrants(w))) && slot % STAMPS != 1
    ensures Inv(w) && AtRest(w) && FitsWidth(plan) && StampsFree(w, plan, slot) && Resumable(w, plan)
  {
    UnstartedInv(w);
    PlanIsLists(w, plan);
  }

  /** The steps of a clean reveal and where they lead. */
  ghost predicate CleanReveal(w: World, steps: seq<Step>) {
    CleanRun(w, steps) && Run(w, steps).round.revealed && ExactTop(Standings(w), Entrants(w), Run(w, steps).round.top)
  }

  /** What the client plans from the round's entries, in whatever order it was given them, is run to
  the exact podium at whatever clock slot. */
  lemma PlannedRoundIsRevealed(w: World, keys: seq<Key>, sorted: seq<Key>, plan: BracketPlan, slot: nat)
    requires ReadyToReveal(w) && Distinct(keys) && Members(keys) == Entrants(w) && 1 <= |keys| <= TWO_TIER_CAPACITY
    requires NonDescending(sorted) && multiset(sorted) == multiset(keys) && CutsUp(plan, sorted) && PlanShape(plan, |keys|)
    requires slot % STAMPS != 1
    ensures FitsWidth(plan) && CleanReveal(w, OperatorSteps(w, plan, slot))
  {
    hide ReadyToReveal, GoesThrough, Run, ExactTop, PlansFor, Inv, AtRest, Resumable, StampsFree, CutsUp, PlanShape;
    PlannedForDistinct(keys, sorted, plan);
    ReadyIsResumable(w, plan, slot);
    var v := RunBracketReveal(w, plan, slot);
  }

  /** No round within the ceiling is out of reach, whatever the slot: every closed, fully scored round
  of 1 to 221 entries has a plan whose run, accepted at every step, ends in its exact podium. */
  lemma EveryScoredRoundIsRevealable(w: World, slot: nat)
    requires ReadyToReveal(w) && 1 <= |Entrants(w)| <= TWO_TIER_CAPACITY && slot % STAMPS != 1
    ensures var plan := PlanOf(Sorted(Entrants(w)));
            FitsWidth(plan) && CleanReveal(w, OperatorSteps(w, plan, slot))
  {
    hide ReadyToReveal, GoesThrough, Run, ExactTop, PlansFor, PlanOf, Inv, AtRest, Resumable, StampsFree;
    var sorted := Sorted(Entrants(w));
    PlanExists(sorted);
    ReadyIsResumable(w, PlanOf(sorted), slot);
    var v := RunBracketReveal(w, PlanOf(sorted), slot);
  }

  /** The operator's first instruction: plan, pad, pin. */
  method FirstPin(entryKeys: seq<Key>, slot: nat, ghost w: World) returns (s: Step, ghost plan: BracketPlan)
    requires ReadyToReveal(w) && slot % STAMPS != 1
    requires Distinct(entryKeys) && Members(entryKeys) == Entrants(w) && 1 <= |entryKeys| <= TWO_TIER_CAPACITY
    ensures FitsWidth(plan) && s == PinStep(plan, slot) && Next(w, s).Ok?
    ensures CleanReveal(w, OperatorSteps(w, plan, slot))
  {
    var r, sorted := PlanBracket(entryKeys);
    var p := r.plan;
    PlannedForDistinct(entryKeys, sorted, p);
    PlanIsLists(w, p);
    PlannedRoundIsRevealed(w, entryKeys, sorted, p, slot);
    hide CleanReveal, OperatorSteps;
    var width := if p.twoTier then MAX_TIER1_SHARDS else MAX_SHARDS;
    var sizes := PadNumbers(p.sizes, width);
    var bounds := PadNumbers(Bounds(p), width);
    s := if p.twoTier then PinTier1(true, sizes, bounds, |p.shards|, slot) else PinBracket(true, sizes, bounds, |p.shards|);
    plan := p;
    FirstPinGoes(w, p, slot);
  }

  lemma FirstPinGoes(w: World, plan: BracketPlan, slot: nat)
    requires ReadyToReveal(w) && PlansFor(plan, Sorted(Entrants(w))) && FitsWidth(plan) && slot % STAMPS != 1
    ensures Next(w, PinStep(plan, slot)).Ok?
  {
    hide Next, PlansFor, Inv, PinStep;
    ReadyIsResumable(w, plan, slot);
    if plan.twoTier {
      PinTier1Goes(w, plan, slot);
    } else {
      PinBracketGoes(w, plan);
      SamePinStep(plan, slot);
    }
  }

  lemma SamePinStep(plan: BracketPlan, slot: nat)
    requires FitsWidth(plan) && !plan.twoTier
    ensures PinStep(plan, slot) == PinStep(plan, 0)
  {
  }

  // ---- and one in which something has ------------------------------------------------------

  /** A re-pin whose run breaks off before it has queued again leaves ready records of the older
  stamp. The next run takes them for current, and is refused when it collects them - although the
  run before it would have gone through. */
  lemma InterruptedRepinStalls(w: World, plan: BracketPlan, k: nat, slot: nat)
    requires Inv(w) && AtRest(w) && PlansFor(plan, Sorted(Entrants(w))) && !plan.twoTier && FitsWidth(plan)
    requires UnusedStamp(w, NextStamp(BracketStamp(w))) && w.bracket.Some? && !BracketMatches(w, plan)
    requires k < |plan.shards| && ResultReady(w, ShardResult(k))
    ensures var v := After(w, PinStep(plan, 0));
            && Next(w, PinStep(plan, 0)).Ok? && Resumable(w, plan) && Accepted(w, OperatorSteps(w, plan, slot))
            && Inv(v) && AtRest(v) && !Resumable(v, plan)
            && (UnusedStamp(v, NextStamp(BracketStamp(v))) ==> !Accepted(v, OperatorSteps(v, plan, slot)))
  {
    hide Inv, Next, After, PlansFor, Accepted, GoesThrough, Run;
    PinBracketGoes(w, plan);
    StepKeeps(w, PinStep(plan, 0));
    var v := After(w, PinStep(plan, 0));
    var done := RunBracketReveal(w, plan, slot);
    assert AddrOf(Shards, k) == ShardResult(k) && Stale(Shards, v, k);
    RepinnedIsAtRest(w, v, plan);
    if UnusedStamp(v, NextStamp(BracketStamp(v))) {
      var stuck := RunBracketReveal(v, plan, slot);
    }
  }

  lemma RepinnedIsAtRest(w: World, v: World, plan: BracketPlan)
    requires AtRest(w) && FitsWidth(plan) && PlansFor(plan, Sorted(Entrants(w)))
    requires v == w.(bracket := Some(FreshBracket(PlanLayout(plan), w.bracket)), ground := Entrants(w))
    ensures AtRest(v) && PlansFor(plan, Sorted(Entrants(v))) && BracketMatches(v, plan)
  {
    assert Entrants(v) == Entrants(w);
  }
}
