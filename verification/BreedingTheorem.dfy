/** What holds in every garden that grew from nothing, whatever the interleaving of starts,
answers, late answers, expiries, reclaims and deletions. */
module BreedingTheorem {
  import opened Ranking
  import opened Accounts
  import opened Breeding
  import opened BreedingRun
  import opened BreedingSteps

  /** Counters are the sets they count, and every budget holds - for deleted flowers too. */
  lemma CountersAreTrue(g: Garden, steps: seq<Step>, w: Key, f: FlowerId, r: nat)
    requires Empty(g)
    ensures var h := Run(g, steps);
            && (w in h.profiles ==>
                  && h.profiles[w].activeExperiments == |Unresolved(h.experiments, w)|
                  && h.profiles[w].totalFlowers == STARTER_COUNT + |Hybrids(h.flowers, w)|
                  && |Hybrids(h.flowers, w)| <= COLLECTION_CAP)
            && TimesNamed(h.starts, f) <= MAX_BREEDS_AS_PARENT
            && StartsIn(h.starts, w, r) <= MAX_BREEDS_PER_ROUND
  {
    EmptyIsTended(g);
    RunKeeps(g, steps);
  }

  /** A flower is a parent in at most one unresolved experiment, and locked while it is. */
  lemma OneExperimentAtATime(g: Garden, steps: seq<Step>, x: ExperimentId, y: ExperimentId, f: FlowerId)
    requires Empty(g)
    requires var es := Run(g, steps).experiments;
             x in es && y in es && es[x].status == Queued && es[y].status == Queued
             && Parents(es[x], f) && Parents(es[y], f)
    ensures x == y && IsLocked(Run(g, steps).flowers, f)
  {
    EmptyIsTended(g);
    RunKeeps(g, steps);
    var h := Run(g, steps);
    assert Holds(h.flowers, h.experiments[x]);
    assert x != y ==> !ShareParent(h.experiments[x], h.experiments[y]);
  }

  /** Resolving takes exactly one off the count of active experiments, never off zero, and gives
  both parents back. */
  lemma ResolvingCountsOnce(g: Garden, s: Step)
    requires Tended(g) && (s.Answer? || s.Cancel?) && Next(g, s).Grown? && After(g, s) != g
    ensures var e := g.experiments[s.experiment];
            && s.experiment in g.experiments && e.status == Queued && e.owner in g.profiles
            && After(g, s).profiles[e.owner].activeExperiments == g.profiles[e.owner].activeExperiments - 1
            && e.parentA in After(g, s).flowers && After(g, s).flowers[e.parentA].status == Active
            && e.parentB in After(g, s).flowers && After(g, s).flowers[e.parentB].status == Active
  {
    if s.Answer? {
      AnswerHasEffect(g, s);
    } else {
      CancelHasEffect(g, s);
    }
    var x := s.experiment;
    var e := After(g, s).experiments[x];
    ResolveCounted(g, x, e, After(g, s));
    FreedFlower(g.flowers, e, e.parentA);
    FreedFlower(g.flowers, e, e.parentB);
  }

  /** Deleting takes exactly one off the flower count, and never touches a starter. */
  lemma RemovingCountsOnce(g: Garden, s: Step) returns (f: FlowerId, w: Key)
    requires Tended(g) && (s.Reclaim? || s.Close?) && Next(g, s).Grown?
    ensures f in g.flowers && g.flowers[f].owner == w && g.flowers[f].hybrid && w in g.profiles
    ensures After(g, s) == Removed(g, f, w)
    ensures g.profiles[w].totalFlowers > STARTER_COUNT
  {
    hide Addressed, AllHold, Apart, Sourced, ParentBudget, RoundBudget, Next, After;
    if s.Reclaim? {
      ReclaimHasEffect(g, s);
      f := g.experiments[s.experiment].offspring;
      w := g.flowers[f].owner;
    } else {
      CloseHasEffect(g, s);
      f, w := s.flower, s.wallet;
    }
    RemoveCounted(g, f, w, After(g, s));
  }

  lemma StarterStays(g: Garden, s: Step, f: FlowerId)
    requires Tended(g) && f in g.flowers && !g.flowers[f].hybrid
    ensures f in After(g, s).flowers && !After(g, s).flowers[f].hybrid
  {
    hide AllHold, Apart, Counted, ParentBudget, RoundBudget, RegisterAttempt, UnderCap;
    if (s.Reclaim? || s.Close?) && Next(g, s).Grown? {
      hide Tended, Next, After;
      var gone, w := RemovingCountsOnce(g, s);
    }
  }

  /** No starter is ever deleted or reclaimed, by whatever run. */
  lemma {:induction false} StartersStay(g: Garden, steps: seq<Step>, f: FlowerId)
    requires Tended(g) && f in g.flowers && !g.flowers[f].hybrid
    ensures f in Run(g, steps).flowers && !Run(g, steps).flowers[f].hybrid
    decreases |steps|
  {
    hide Tended, Next, After;
    if steps != [] {
      StepKeeps(g, steps[0]);
      StarterStays(g, steps[0], f);
      StartersStay(After(g, steps[0]), steps[1..], f);
    }
  }

  /** A resolved experiment never changes again: later answers and cancels do nothing at all. */
  lemma LateAnswersDoNothing(g: Garden, s: Step)
    requires Tended(g) && (s.Answer? || s.Cancel?)
    requires s.experiment in g.experiments && g.experiments[s.experiment].status != Queued
    ensures After(g, s) == g
  {
    hide Addressed, Apart, Sourced, Counted, ParentBudget, RoundBudget;
  }

  lemma {:induction false} ResolvedForever(g: Garden, steps: seq<Step>, x: ExperimentId)
    requires Tended(g) && x in g.experiments && g.experiments[x].status != Queued
    ensures x in Run(g, steps).experiments && Run(g, steps).experiments[x] == g.experiments[x]
    decreases |steps|
  {
    if steps != [] {
      StepKeeps(g, steps[0]);
      ResolvedStays(g, steps[0], x);
      ResolvedForever(After(g, steps[0]), steps[1..], x);
    }
  }

  lemma ResolvedStays(g: Garden, s: Step, x: ExperimentId)
    requires Tended(g) && x in g.experiments && g.experiments[x].status != Queued
    ensures x in After(g, s).experiments && After(g, s).experiments[x] == g.experiments[x]
  {
    hide Addressed, Apart, Sourced, Counted, ParentBudget, RoundBudget, Breeding.StartBreeding;
  }

  /** Addresses are never reused: the accounts a start creates cannot exist already. */
  lemma StartNeverCollides(g: Garden, wallet: Key)
    requires Tended(g) && wallet in g.profiles
    ensures ExperimentId(wallet, g.profiles[wallet].totalExperiments) !in g.experiments
    ensures FlowerId(wallet, g.profiles[wallet].nextFlower) !in g.flowers
  {
  }

  // ---- exactly what is accepted ------------------------------------------------------------

  /** In every tended garden: who may breed what, told from the flowers there are and the starts there
  have been. */
  lemma StartIsDecided(g: Garden, s: Step)
    requires Tended(g) && s.StartBreeding?
    ensures Next(g, s).Grown?
       <==> && s.wallet in g.profiles && s.a != s.b && !s.cooling
            && (forall f :: f in {s.a, s.b} ==>
                  && f in g.flowers && g.flowers[f].status == Active && g.flowers[f].owner == s.wallet
                  && TimesNamed(g.starts, f) < 3)
            && StartsIn(g.starts, s.wallet, g.round) < 5
            && |Hybrids(g.flowers, s.wallet)| < 20
  {
    hide AllHold, Apart, Sourced, Hybrids, Unresolved, TimesNamed, StartsIn;
    if s.wallet in g.profiles {
      StartNeverCollides(g, s.wallet);
    }
  }

  /** What a start leaves: the experiment queued over its two parents and a locked hybrid of the wallet,
  both parents locked, and nobody else's flowers touched. */
  lemma StartLocksThree(g: Garden, s: Step) returns (x: ExperimentId, o: FlowerId)
    requires Tended(g) && s.StartBreeding? && Next(g, s).Grown?
    ensures x !in g.experiments && o !in g.flowers
    ensures var h := After(g, s);
            && h.experiments == g.experiments[x := Experiment(s.wallet, s.a, s.b, o, Queued, false, s.now)]
            && h.flowers.Keys == g.flowers.Keys + {o} && h.flowers[o] == Flower(s.wallet, true, Locked, 0, Some(x))
            && IsLocked(h.flowers, s.a) && IsLocked(h.flowers, s.b)
            && forall f :: f in g.flowers && f != s.a && f != s.b ==> h.flowers[f] == g.flowers[f]
  {
    hide Next, After, AllHold, Apart, Sourced, Counted, ParentBudget, RoundBudget, RegisterAttempt, UnderCap;
    x, o := StartHasEffect(g, s);
  }

  /** An answer to an unresolved experiment is always taken, and decides it: a success completes it and
  releases the offspring, a failure leaves the offspring locked. */
  lemma AnswerDecides(g: Garden, x: ExperimentId, success: bool)
    requires Tended(g) && x in g.experiments && g.experiments[x].status == Queued
    ensures var e, h := g.experiments[x], After(g, Answer(x, success));
            && Next(g, Answer(x, success)).Grown?
            && h.experiments == g.experiments[x := e.(status := if success then Completed else Failed, processed := true)]
            && e.offspring in h.flowers && h.flowers[e.offspring].status == if success then Active else Locked
  {
    hide Apart, Sourced, Counted, ParentBudget, RoundBudget;
    var e := g.experiments[x];
    assert Holds(g.flowers, e);
    OffspringIsNoParent(g, x);
  }

  lemma OffspringIsNoParent(g: Garden, x: ExperimentId)
    requires Tended(g) && x in g.experiments && g.experiments[x].status == Queued
    ensures !Parents(g.experiments[x], g.experiments[x].offspring)
  {
  }

  /** An experiment can be expired if and only if it is unanswered and old enough; then it stays dead and
  its offspring locked. */
  lemma RecoveryIsAlwaysOpen(g: Garden, x: ExperimentId, now: int)
    requires Tended(g)
    ensures Next(g, Cancel(x, now)).Grown?
       <==> x in g.experiments && g.experiments[x].status == Queued && now - g.experiments[x].createdAt >= 600
    ensures Next(g, Cancel(x, now)).Grown? ==>
              var e, h := g.experiments[x], After(g, Cancel(x, now));
              && h.experiments == g.experiments[x := e.(status := Expired, processed := true)]
              && IsLocked(h.flowers, e.offspring)
  {
    hide Apart, Sourced, Counted, ParentBudget, RoundBudget;
    if x in g.experiments && g.experiments[x].status == Queued {
      assert Holds(g.flowers, g.experiments[x]);
      OffspringIsNoParent(g, x);
    }
  }

  /** An offspring can be reclaimed if and only if its experiment failed or expired and it is still there. */
  lemma ReclaimIsAlwaysOpen(g: Garden, x: ExperimentId)
    requires Tended(g)
    ensures Next(g, Reclaim(x)).Grown?
       <==> x in g.experiments && g.experiments[x].status in {Failed, Expired} && g.experiments[x].offspring in g.flowers
  {
    hide Apart, AllHold, Counted, ParentBudget, RoundBudget;
  }

  /** A flower can be deleted if and only if it is its owner's active hybrid without an NFT. */
  lemma CloseIsDecided(g: Garden, wallet: Key, f: FlowerId, minted: bool)
    requires Tended(g)
    ensures Next(g, Close(wallet, f, minted)).Grown?
       <==> !minted && f in g.flowers && g.flowers[f].status == Active && f in Hybrids(g.flowers, wallet)
  {
    hide Apart, AllHold, Counted, ParentBudget, RoundBudget;
  }

  lemma FreshWallet(g: Garden, wallet: Key)
    requires Tended(g) && wallet !in g.profiles
    ensures var h := After(g, ClaimStarters(wallet));
            && wallet in h.profiles && h.round == g.round && h.starts == g.starts
            && Hybrids(h.flowers, wallet) == {} && StartsIn(g.starts, wallet, g.round) == 0
            && (set f | f in h.flowers && h.flowers[f].owner == wallet)
               == {FlowerId(wallet, 0), FlowerId(wallet, 1), FlowerId(wallet, 2), FlowerId(wallet, 3), FlowerId(wallet, 4),
                   FlowerId(wallet, 5)}
            && forall i: nat :: i < STARTER_COUNT ==>
                 && FlowerId(wallet, i) in h.flowers
                 && h.flowers[FlowerId(wallet, i)] == Flower(wallet, false, Active, 0, None)
  {
    hide Starters, TimesNamed, StartsIn, AllHold, Apart, Sourced, Counted, ParentBudget;
    NobodyYet(g, wallet);
    ClaimHybrids(g.flowers, wallet, wallet);
    forall f { ClaimedFlowers(g.flowers, wallet, f); }
  }

  lemma NeverNamed(g: Garden, f: FlowerId)
    requires Tended(g) && f in g.flowers && g.flowers[f].timesBred == 0
    ensures TimesNamed(g.starts, f) == 0
  {
  }

  /** A new wallet gets six starters of its own, any two of which can breed at once. */
  lemma StartersCanBreed(g: Garden, wallet: Key, i: nat, j: nat, now: int)
    requires Tended(g) && wallet !in g.profiles && i < 6 && j < 6 && i != j
    ensures var h := After(g, ClaimStarters(wallet));
            && Next(g, ClaimStarters(wallet)).Grown? && Tended(h)
            && |set f | f in h.flowers && h.flowers[f].owner == wallet| == 6
            && Next(h, StartBreeding(wallet, FlowerId(wallet, i), FlowerId(wallet, j), now, false)).Grown?
  {
    hide After, Tended, Hybrids, StartsIn, TimesNamed, Breeding.StartBreeding;
    var h := After(g, ClaimStarters(wallet));
    ClaimKeeps(g, wallet);
    FreshWallet(g, wallet);
    NeverNamed(h, FlowerId(wallet, i));
    NeverNamed(h, FlowerId(wallet, j));
    StartIsDecided(h, StartBreeding(wallet, FlowerId(wallet, i), FlowerId(wallet, j), now, false));
  }
}
