/** Every step of the garden keeps its invariant. */
module BreedingSteps {
  import opened Ranking
  import opened Accounts
  import opened Breeding
  import opened BreedingRun

  lemma EmptyIsTended(g: Garden)
    requires Empty(g)
    ensures Tended(g)
  {
  }

  // ---- joining -----------------------------------------------------------------------------

  lemma NobodyYet(g: Garden, wallet: Key)
    requires Addressed(g.flowers, g.experiments, g.profiles) && wallet !in g.profiles
    ensures Unresolved(g.experiments, wallet) == {} && Hybrids(g.flowers, wallet) == {}
    ensures forall f :: f in g.flowers ==> f.wallet != wallet && g.flowers[f].owner != wallet
    ensures forall x :: x in g.experiments ==> g.experiments[x].offspring.wallet != wallet
  {
  }

  lemma ClaimedFlowers(fs: Flowers, wallet: Key, f: FlowerId)
    ensures f in fs + Starters(wallet) <==> f in fs || (f.wallet == wallet && f.index < STARTER_COUNT)
    ensures f in fs && f.wallet != wallet ==> (fs + Starters(wallet))[f] == fs[f]
    ensures f.wallet == wallet && f.index < STARTER_COUNT ==>
              (fs + Starters(wallet))[f] == Flower(wallet, false, Active, 0, None)
  {
  }

  lemma ClaimHybrids(fs: Flowers, wallet: Key, w: Key)
    requires forall f :: f in fs ==> f.wallet != wallet && fs[f].owner != wallet
    ensures Hybrids(fs + Starters(wallet), w) == Hybrids(fs, w)
  {
    forall f ensures f in Hybrids(fs + Starters(wallet), w) <==> f in Hybrids(fs, w) {
      ClaimedFlowers(fs, wallet, f);
    }
  }

  lemma ClaimFlowers(fs: Flowers, es: Experiments, wallet: Key)
    requires AllHold(fs, es) && Sourced(fs, es) && forall f :: f in fs ==> f.wallet != wallet
    requires forall x :: x in es ==> es[x].offspring.wallet != wallet
    ensures AllHold(fs + Starters(wallet), es) && Sourced(fs + Starters(wallet), es)
  {
    hide Starters;
    var hs := fs + Starters(wallet);
    forall x | x in es && es[x].status == Queued ensures Holds(hs, es[x]) {
      ClaimedFlowers(fs, wallet, es[x].parentA);
      ClaimedFlowers(fs, wallet, es[x].parentB);
      ClaimedFlowers(fs, wallet, es[x].offspring);
    }
    forall f | f in hs
      ensures hs[f].hybrid <==> hs[f].source.Some?
      ensures hs[f].source.Some? ==>
                var x := hs[f].source.value;
                x in es && es[x].offspring == f && (hs[f].status != Locked ==> es[x].status == Completed)
    {
      ClaimedFlowers(fs, wallet, f);
    }
    forall x | x in es && es[x].offspring in hs ensures hs[es[x].offspring].source == Some(x) {
      ClaimedFlowers(fs, wallet, es[x].offspring);
    }
  }

  lemma ClaimBudgets(g: Garden, wallet: Key, ps: Profiles)
    requires ParentBudget(g.flowers, g.profiles, g.starts) && RoundBudget(g.profiles, g.round, g.starts)
    requires wallet !in g.profiles && ps == g.profiles[wallet := Profile(STARTER_COUNT, 0, 0, STARTER_COUNT, 0, 0)]
    requires forall f :: f in g.flowers ==> f.wallet != wallet
    ensures ParentBudget(g.flowers + Starters(wallet), ps, g.starts) && RoundBudget(ps, g.round, g.starts)
  {
    hide Starters;
    var hs := g.flowers + Starters(wallet);
    forall f | f in hs ensures hs[f].timesBred == TimesNamed(g.starts, f) {
      ClaimedFlowers(g.flowers, wallet, f);
    }
    assert StartsIn(g.starts, wallet, 0) == 0;
  }

  lemma ClaimAddressed(g: Garden, wallet: Key, ps: Profiles)
    requires Addressed(g.flowers, g.experiments, g.profiles)
    requires wallet !in g.profiles && ps == g.profiles[wallet := Profile(STARTER_COUNT, 0, 0, STARTER_COUNT, 0, 0)]
    requires forall f :: f in g.flowers ==> f.wallet != wallet
    ensures Addressed(g.flowers + Starters(wallet), g.experiments, ps)
  {
    hide Starters;
    var hs := g.flowers + Starters(wallet);
    forall f | f in hs ensures f.wallet == hs[f].owner && f.wallet in ps && f.index < ps[f.wallet].nextFlower {
      ClaimedFlowers(g.flowers, wallet, f);
    }
  }

  lemma ClaimKeeps(g: Garden, wallet: Key)
    requires Tended(g) && wallet !in g.profiles
    ensures Tended(After(g, ClaimStarters(wallet)))
  {
    hide Addressed, AllHold, Sourced, ParentBudget, RoundBudget, Starters, Hybrids, Unresolved;
    var h := After(g, ClaimStarters(wallet));
    NobodyYet(g, wallet);
    ClaimFlowers(g.flowers, g.experiments, wallet);
    ClaimAddressed(g, wallet, h.profiles);
    ClaimBudgets(g, wallet, h.profiles);
    forall w | w in h.profiles ensures Hybrids(h.flowers, w) == Hybrids(g.flowers, w) {
      ClaimHybrids(g.flowers, wallet, w);
    }
  }

  // ---- starting ----------------------------------------------------------------------------

  /** What a start changes, spelt out. */
  ghost predicate StartEffect(g: Garden, wallet: Key, a: FlowerId, b: FlowerId, x: ExperimentId, o: FlowerId, now: int,
                              h: Garden) {
    && wallet in g.profiles && a in g.flowers && b in g.flowers && a != b
    && var p := g.profiles[wallet];
       && x == ExperimentId(wallet, p.totalExperiments) && o == FlowerId(wallet, p.nextFlower)
       && x !in g.experiments && o !in g.flowers
       && g.flowers[a].status == Active && g.flowers[b].status == Active
       && MayParent(g.flowers[a]) && MayParent(g.flowers[b]) && UnderCap(p)
       && RegisterAttempt(p, g.round).Grown?
       && h.round == g.round && h.starts == g.starts + [Start(wallet, a, b, g.round)]
       && h.experiments == g.experiments[x := Experiment(wallet, a, b, o, Queued, false, now)]
       && h.flowers == g.flowers[a := Committed(g.flowers[a])][b := Committed(g.flowers[b])]
                                [o := Flower(wallet, true, Locked, 0, Some(x))]
       && h.profiles == g.profiles[wallet := RegisterAttempt(p, g.round).value.(
            totalExperiments := p.totalExperiments + 1, activeExperiments := p.activeExperiments + 1,
            totalFlowers := p.totalFlowers + 1, nextFlower := p.nextFlower + 1)]
  }

  lemma StartHasEffect(g: Garden, s: Step) returns (x: ExperimentId, o: FlowerId)
    requires s.StartBreeding? && Next(g, s).Grown?
    ensures StartEffect(g, s.wallet, s.a, s.b, x, o, s.now, After(g, s))
  {
    var p := g.profiles[s.wallet];
    x, o := ExperimentId(s.wallet, p.totalExperiments), FlowerId(s.wallet, p.nextFlower);
  }

  lemma StartAddressed(g: Garden, wallet: Key, a: FlowerId, b: FlowerId, x: ExperimentId, o: FlowerId, now: int, h: Garden)
    requires Addressed(g.flowers, g.experiments, g.profiles) && StartEffect(g, wallet, a, b, x, o, now, h)
    ensures Addressed(h.flowers, h.experiments, h.profiles)
    ensures forall y :: y in g.experiments ==> g.experiments[y].offspring != o
  {
  }

  lemma StartHolds(g: Garden, wallet: Key, a: FlowerId, b: FlowerId, x: ExperimentId, o: FlowerId, now: int, h: Garden)
    requires AllHold(g.flowers, g.experiments) && StartEffect(g, wallet, a, b, x, o, now, h)
    ensures AllHold(h.flowers, h.experiments)
  {
    forall y | y in g.experiments && g.experiments[y].status == Queued ensures Holds(h.flowers, g.experiments[y]) {
      assert Holds(g.flowers, g.experiments[y]);
    }
  }

  lemma StartApart(g: Garden, wallet: Key, a: FlowerId, b: FlowerId, x: ExperimentId, o: FlowerId, now: int, h: Garden)
    requires AllHold(g.flowers, g.experiments) && Apart(g.experiments) && Sourced(g.flowers, g.experiments)
    requires StartEffect(g, wallet, a, b, x, o, now, h)
    requires forall y :: y in g.experiments ==> g.experiments[y].offspring != o
    ensures Apart(h.experiments)
  {
    var e := h.experiments[x];
    forall y | y in g.experiments
      ensures g.experiments[y].status == Queued ==> !ShareParent(e, g.experiments[y]) && !ShareParent(g.experiments[y], e)
      ensures g.experiments[y].status == Queued ==> !Parents(g.experiments[y], o)
      ensures g.experiments[y].status != Completed ==> !Parents(e, g.experiments[y].offspring)
    {
      if g.experiments[y].status == Queued {
        assert Holds(g.flowers, g.experiments[y]);
      }
      if g.experiments[y].status != Completed {
        OffspringStaysLocked(g.flowers, g.experiments, y, a);
        OffspringStaysLocked(g.flowers, g.experiments, y, b);
      }
    }
  }

  /** An active flower is not the offspring of an experiment that has not succeeded. */
  lemma OffspringStaysLocked(fs: Flowers, es: Experiments, y: ExperimentId, f: FlowerId)
    requires Sourced(fs, es) && y in es && es[y].status != Completed
    requires f in fs && fs[f].status == Active
    ensures es[y].offspring != f
  {
  }

  lemma StartSourced(g: Garden, wallet: Key, a: FlowerId, b: FlowerId, x: ExperimentId, o: FlowerId, now: int, h: Garden)
    requires Sourced(g.flowers, g.experiments) && StartEffect(g, wallet, a, b, x, o, now, h)
    requires forall y :: y in g.experiments ==> g.experiments[y].offspring != o
    ensures Sourced(h.flowers, h.experiments)
  {
    forall f | f in h.flowers && f != o
      ensures f in g.flowers && h.flowers[f].source == g.flowers[f].source && h.flowers[f].hybrid == g.flowers[f].hybrid
      ensures h.flowers[f].status != Locked ==> h.flowers[f] == g.flowers[f]
    {
    }
    forall y | y in h.experiments && h.experiments[y].offspring in h.flowers
      ensures h.flowers[h.experiments[y].offspring].source == Some(y)
    {
      assert y == x || h.experiments[y] == g.experiments[y];
    }
  }

  lemma StartCounted(g: Garden, wallet: Key, a: FlowerId, b: FlowerId, x: ExperimentId, o: FlowerId, now: int, h: Garden)
    requires Counted(g.flowers, g.experiments, g.profiles) && StartEffect(g, wallet, a, b, x, o, now, h)
    ensures Counted(h.flowers, h.experiments, h.profiles)
  {
    forall w | w in h.profiles
      ensures |Unresolved(h.experiments, w)| == |Unresolved(g.experiments, w)| + (if w == wallet then 1 else 0)
      ensures |Hybrids(h.flowers, w)| == |Hybrids(g.flowers, w)| + (if w == wallet then 1 else 0)
    {
      AddedExperiment(g.experiments, x, h.experiments[x], w);
      AddedHybrid(g.flowers, a, b, o, h.flowers[o], w);
    }
  }

  lemma AddedExperiment(es: Experiments, x: ExperimentId, e: Experiment, w: Key)
    requires x !in es && e.status == Queued
    ensures |Unresolved(es[x := e], w)| == |Unresolved(es, w)| + (if e.owner == w then 1 else 0)
  {
    assert Unresolved(es[x := e], w) == Unresolved(es, w) + (if e.owner == w then {x} else {});
  }

  lemma AddedHybrid(fs: Flowers, a: FlowerId, b: FlowerId, o: FlowerId, f: Flower, w: Key)
    requires a in fs && b in fs && o !in fs && f.hybrid
    ensures var hs := fs[a := Committed(fs[a])][b := Committed(fs[b])][o := f];
            |Hybrids(hs, w)| == |Hybrids(fs, w)| + (if f.owner == w then 1 else 0)
  {
    var hs := fs[a := Committed(fs[a])][b := Committed(fs[b])][o := f];
    assert Hybrids(hs, w) == Hybrids(fs, w) + (if f.owner == w then {o} else {});
  }

  lemma CountsGrow(starts: seq<Start>, s: Start)
    ensures forall f: FlowerId :: TimesNamed(starts + [s], f) == TimesNamed(starts, f) + (if s.a == f || s.b == f then 1 else 0)
    ensures forall w: Key, r: nat ::
              StartsIn(starts + [s], w, r) == StartsIn(starts, w, r) + (if s.wallet == w && s.round == r then 1 else 0)
  {
    assert (starts + [s])[..|starts|] == starts;
  }

  lemma StartParentBudget(g: Garden, wallet: Key, a: FlowerId, b: FlowerId, x: ExperimentId, o: FlowerId, now: int, h: Garden)
    requires ParentBudget(g.flowers, g.profiles, g.starts) && StartEffect(g, wallet, a, b, x, o, now, h)
    requires Addressed(g.flowers, g.experiments, g.profiles)
    ensures ParentBudget(h.flowers, h.profiles, h.starts)
  {
    CountsGrow(g.starts, Start(wallet, a, b, g.round));
    assert TimesNamed(g.starts, o) == 0;
    forall f | f in h.flowers ensures h.flowers[f].timesBred == TimesNamed(h.starts, f) {
    }
    forall f: FlowerId ensures TimesNamed(h.starts, f) <= MAX_BREEDS_AS_PARENT {
      assert f in g.flowers ==> g.flowers[f].timesBred == TimesNamed(g.starts, f);
    }
  }

  lemma StartRoundBudget(g: Garden, wallet: Key, a: FlowerId, b: FlowerId, x: ExperimentId, o: FlowerId, now: int, h: Garden)
    requires RoundBudget(g.profiles, g.round, g.starts) && StartEffect(g, wallet, a, b, x, o, now, h)
    ensures RoundBudget(h.profiles, h.round, h.starts)
  {
    CountsGrow(g.starts, Start(wallet, a, b, g.round));
    var p := g.profiles[wallet];
    assert StartsIn(g.starts, wallet, g.round) == if p.lastBreedRound == g.round then p.breedsThisRound else 0;
    forall w: Key, r: nat ensures StartsIn(h.starts, w, r) <= MAX_BREEDS_PER_ROUND {
    }
  }

  lemma StartKeeps(g: Garden, s: Step)
    requires Tended(g) && s.StartBreeding? && Next(g, s).Grown?
    ensures Tended(After(g, s))
  {
    hide Addressed, AllHold, Apart, Sourced, Counted, ParentBudget, RoundBudget, StartEffect, Next, After;
    var h := After(g, s);
    var x, o := StartHasEffect(g, s);
    StartAddressed(g, s.wallet, s.a, s.b, x, o, s.now, h);
    StartHolds(g, s.wallet, s.a, s.b, x, o, s.now, h);
    StartApart(g, s.wallet, s.a, s.b, x, o, s.now, h);
    StartSourced(g, s.wallet, s.a, s.b, x, o, s.now, h);
    StartCounted(g, s.wallet, s.a, s.b, x, o, s.now, h);
    StartParentBudget(g, s.wallet, s.a, s.b, x, o, s.now, h);
    StartRoundBudget(g, s.wallet, s.a, s.b, x, o, s.now, h);
  }

  // ---- resolving: an answer, a failure, an expiry ------------------------------------------

  /** The flowers once experiment e is resolved. */
  function Freed(fs: Flowers, e: Experiment): Flowers
    requires e.parentA in fs && e.parentB in fs && (e.status == Completed ==> e.offspring in fs)
  {
    var gs := if e.status == Completed then SetStatus(fs, e.offspring, Active) else fs;
    SetStatus(SetStatus(gs, e.parentA, Active), e.parentB, Active)
  }

  lemma FreedFlower(fs: Flowers, e: Experiment, f: FlowerId)
    requires e.parentA in fs && e.parentB in fs && (e.status == Completed ==> e.offspring in fs)
    ensures f in Freed(fs, e) <==> f in fs
    ensures f in fs ==>
              var active := Parents(e, f) || (e.status == Completed && f == e.offspring);
              Freed(fs, e)[f] == if active then fs[f].(status := Active) else fs[f]
  {
  }

  ghost predicate ResolveEffect(g: Garden, x: ExperimentId, e: Experiment, h: Garden) {
    && x in g.experiments && g.experiments[x].status == Queued
    && e == g.experiments[x].(status := e.status, processed := true) && e.status != Queued
    && e.parentA in g.flowers && e.parentB in g.flowers && (e.status == Completed ==> e.offspring in g.flowers)
    && e.owner in g.profiles
    && var p := g.profiles[e.owner];
       h == g.(flowers := Freed(g.flowers, e), experiments := g.experiments[x := e],
               profiles := g.profiles[e.owner := p.(activeExperiments := Minus1(p.activeExperiments))])
  }

  lemma AnswerHasEffect(g: Garden, s: Step)
    requires AllHold(g.flowers, g.experiments) && s.Answer? && Next(g, s).Grown?
    ensures After(g, s) == g || ResolveEffect(g, s.experiment, After(g, s).experiments[s.experiment], After(g, s))
  {
  }

  lemma CancelHasEffect(g: Garden, s: Step)
    requires s.Cancel? && Next(g, s).Grown?
    ensures ResolveEffect(g, s.experiment, After(g, s).experiments[s.experiment], After(g, s))
  {
  }

  lemma ResolveAddressed(g: Garden, x: ExperimentId, e: Experiment, h: Garden)
    requires Addressed(g.flowers, g.experiments, g.profiles) && ResolveEffect(g, x, e, h)
    ensures Addressed(h.flowers, h.experiments, h.profiles)
  {
    hide Freed;
    forall f | f in h.flowers ensures f in g.flowers && h.flowers[f].owner == g.flowers[f].owner {
      FreedFlower(g.flowers, e, f);
    }
  }

  lemma ResolveHolds(g: Garden, x: ExperimentId, e: Experiment, h: Garden)
    requires AllHold(g.flowers, g.experiments) && Apart(g.experiments) && ResolveEffect(g, x, e, h)
    ensures AllHold(h.flowers, h.experiments)
  {
    hide Freed;
    forall y | y in g.experiments && y != x && g.experiments[y].status == Queued
      ensures Holds(h.flowers, g.experiments[y])
    {
      var d := g.experiments[y];
      assert Holds(g.flowers, d);
      assert !ShareParent(g.experiments[x], d) && !Parents(d, e.offspring) && !Parents(e, d.offspring);
      FreedFlower(g.flowers, e, d.parentA);
      FreedFlower(g.flowers, e, d.parentB);
      FreedFlower(g.flowers, e, d.offspring);
    }
  }

  lemma ResolveApart(g: Garden, x: ExperimentId, e: Experiment, h: Garden)
    requires Apart(g.experiments) && ResolveEffect(g, x, e, h)
    ensures Apart(h.experiments)
  {
    hide Freed;
  }

  /** A parent about to be freed is a starter or the offspring of a success. */
  lemma ParentIsFree(fs: Flowers, es: Experiments, x: ExperimentId, f: FlowerId)
    requires Sourced(fs, es) && Apart(es) && x in es && es[x].status == Queued && Parents(es[x], f) && f in fs
    ensures fs[f].source.Some? ==> fs[f].source.value != x && es[fs[f].source.value].status == Completed
  {
  }

  lemma ResolveSourced(g: Garden, x: ExperimentId, e: Experiment, h: Garden)
    requires Sourced(g.flowers, g.experiments) && Apart(g.experiments) && ResolveEffect(g, x, e, h)
    ensures Sourced(h.flowers, h.experiments)
  {
    forall f | f in h.flowers
      ensures f in g.flowers && h.flowers[f].source == g.flowers[f].source && h.flowers[f].hybrid == g.flowers[f].hybrid
      ensures h.flowers[f].source.Some? && h.flowers[f].status != Locked ==>
                h.experiments[h.flowers[f].source.value].status == Completed
    {
      hide Freed, Apart;
      FreedFlower(g.flowers, e, f);
      if Parents(e, f) {
        ParentIsFree(g.flowers, g.experiments, x, f);
      }
    }
    forall y | y in h.experiments && h.experiments[y].offspring in h.flowers
      ensures h.flowers[h.experiments[y].offspring].source == Some(y)
    {
      hide Freed, Apart;
      FreedFlower(g.flowers, e, h.experiments[y].offspring);
    }
  }

  lemma ResolveCounted(g: Garden, x: ExperimentId, e: Experiment, h: Garden)
    requires Counted(g.flowers, g.experiments, g.profiles) && ResolveEffect(g, x, e, h)
    ensures Counted(h.flowers, h.experiments, h.profiles)
    ensures g.profiles[e.owner].activeExperiments >= 1
  {
    hide Freed, Unresolved, Hybrids, Addressed;
    forall w | w in h.profiles
      ensures |Unresolved(h.experiments, w)| == |Unresolved(g.experiments, w)| - (if w == e.owner then 1 else 0)
      ensures Hybrids(h.flowers, w) == Hybrids(g.flowers, w)
    {
      ResolvedExperiment(g.experiments, x, e, w);
      FreedHybrids(g.flowers, e, w);
    }
  }

  lemma ResolvedExperiment(es: Experiments, x: ExperimentId, e: Experiment, w: Key)
    requires x in es && es[x].status == Queued && e.owner == es[x].owner && e.status != Queued
    ensures |Unresolved(es[x := e], w)| == |Unresolved(es, w)| - (if w == e.owner then 1 else 0)
  {
    assert Unresolved(es[x := e], w) == Unresolved(es, w) - (if w == e.owner then {x} else {});
    assert w == e.owner ==> x in Unresolved(es, w);
  }

  lemma FreedHybrids(fs: Flowers, e: Experiment, w: Key)
    requires e.parentA in fs && e.parentB in fs && (e.status == Completed ==> e.offspring in fs)
    ensures Hybrids(Freed(fs, e), w) == Hybrids(fs, w)
  {
    hide Freed;
    forall f ensures f in Hybrids(Freed(fs, e), w) <==> f in Hybrids(fs, w) {
      FreedFlower(fs, e, f);
    }
  }

  lemma ResolveBudgets(g: Garden, x: ExperimentId, e: Experiment, h: Garden)
    requires ParentBudget(g.flowers, g.profiles, g.starts) && RoundBudget(g.profiles, g.round, g.starts)
    requires ResolveEffect(g, x, e, h)
    ensures ParentBudget(h.flowers, h.profiles, h.starts) && RoundBudget(h.profiles, h.round, h.starts)
  {
    hide Freed;
    forall f | f in h.flowers ensures h.flowers[f].timesBred == TimesNamed(g.starts, f) {
      FreedFlower(g.flowers, e, f);
    }
  }

  lemma ResolveKeeps(g: Garden, x: ExperimentId, e: Experiment, h: Garden)
    requires Tended(g) && ResolveEffect(g, x, e, h)
    ensures Tended(h)
  {
    hide Addressed, AllHold, Apart, Sourced, Counted, ParentBudget, RoundBudget, ResolveEffect;
    ResolveAddressed(g, x, e, h);
    ResolveHolds(g, x, e, h);
    ResolveApart(g, x, e, h);
    ResolveSourced(g, x, e, h);
    ResolveCounted(g, x, e, h);
    ResolveBudgets(g, x, e, h);
  }

  // ---- removing: a reclaim or a deletion ---------------------------------------------------

  ghost predicate RemoveEffect(g: Garden, f: FlowerId, wallet: Key, h: Garden) {
    && f in g.flowers && g.flowers[f].owner == wallet && g.flowers[f].hybrid && wallet in g.profiles
    && (forall y :: y in g.experiments && g.experiments[y].status == Queued ==>
          !Parents(g.experiments[y], f) && g.experiments[y].offspring != f)
    && h == Removed(g, f, wallet)
  }

  lemma ReclaimHasEffect(g: Garden, s: Step)
    requires Tended(g) && s.Reclaim? && Next(g, s).Grown?
    ensures s.experiment in g.experiments
    ensures var f := g.experiments[s.experiment].offspring;
            f in g.flowers && RemoveEffect(g, f, g.flowers[f].owner, After(g, s))
  {
    hide Addressed, AllHold, Counted, ParentBudget, RoundBudget;
  }

  lemma CloseHasEffect(g: Garden, s: Step)
    requires Tended(g) && s.Close? && Next(g, s).Grown?
    ensures RemoveEffect(g, s.flower, s.wallet, After(g, s))
  {
    hide Addressed, Apart, Counted, ParentBudget, RoundBudget, Sourced;
    forall y | y in g.experiments && g.experiments[y].status == Queued
      ensures !Parents(g.experiments[y], s.flower) && g.experiments[y].offspring != s.flower
    {
      assert Holds(g.flowers, g.experiments[y]);
    }
  }

  lemma RemoveCounted(g: Garden, f: FlowerId, wallet: Key, h: Garden)
    requires Counted(g.flowers, g.experiments, g.profiles) && RemoveEffect(g, f, wallet, h)
    ensures Counted(h.flowers, h.experiments, h.profiles)
    ensures g.profiles[wallet].totalFlowers > STARTER_COUNT
  {
    hide Hybrids, Unresolved;
    forall w | w in h.profiles
      ensures |Hybrids(h.flowers, w)| == |Hybrids(g.flowers, w)| - (if w == wallet then 1 else 0)
    {
      RemovedHybrid(g.flowers, f, w);
    }
  }

  lemma RemovedHybrid(fs: Flowers, f: FlowerId, w: Key)
    requires f in fs && fs[f].hybrid
    ensures |Hybrids(fs - {f}, w)| == |Hybrids(fs, w)| - (if w == fs[f].owner then 1 else 0)
  {
    assert Hybrids(fs - {f}, w) == Hybrids(fs, w) - (if w == fs[f].owner then {f} else {});
    assert w == fs[f].owner ==> f in Hybrids(fs, w);
  }

  lemma RemoveKeepsLinks(g: Garden, f: FlowerId, wallet: Key, h: Garden)
    requires AllHold(g.flowers, g.experiments) && Sourced(g.flowers, g.experiments)
    requires RemoveEffect(g, f, wallet, h)
    ensures AllHold(h.flowers, h.experiments) && Sourced(h.flowers, h.experiments)
  {
    forall y | y in g.experiments && g.experiments[y].status == Queued ensures Holds(h.flowers, g.experiments[y]) {
      assert Holds(g.flowers, g.experiments[y]);
    }
  }

  lemma RemoveKeepsBooks(g: Garden, f: FlowerId, wallet: Key, h: Garden)
    requires Addressed(g.flowers, g.experiments, g.profiles)
    requires ParentBudget(g.flowers, g.profiles, g.starts) && RoundBudget(g.profiles, g.round, g.starts)
    requires RemoveEffect(g, f, wallet, h)
    ensures Addressed(h.flowers, h.experiments, h.profiles)
    ensures ParentBudget(h.flowers, h.profiles, h.starts) && RoundBudget(h.profiles, h.round, h.starts)
  {
  }

  lemma RemoveKeeps(g: Garden, f: FlowerId, wallet: Key, h: Garden)
    requires Tended(g) && RemoveEffect(g, f, wallet, h)
    ensures Tended(h)
  {
    hide Addressed, AllHold, Apart, Sourced, Counted, ParentBudget, RoundBudget;
    RemoveCounted(g, f, wallet, h);
    RemoveKeepsLinks(g, f, wallet, h);
    RemoveKeepsBooks(g, f, wallet, h);
  }

  // ---- the rest ----------------------------------------------------------------------------

  lemma StatusLinks(fs: Flowers, es: Experiments, f: FlowerId, status: FlowerStatus)
    requires AllHold(fs, es) && Sourced(fs, es) && f in fs && fs[f].status != Locked && status != Locked
    ensures AllHold(SetStatus(fs, f, status), es) && Sourced(SetStatus(fs, f, status), es)
  {
    var hs := SetStatus(fs, f, status);
    forall y | y in es && es[y].status == Queued ensures Holds(hs, es[y]) {
      assert Holds(fs, es[y]);
    }
  }

  lemma StatusHybrids(fs: Flowers, f: FlowerId, status: FlowerStatus, w: Key)
    requires f in fs
    ensures Hybrids(SetStatus(fs, f, status), w) == Hybrids(fs, w)
  {
  }

  lemma StatusKeeps(g: Garden, f: FlowerId, status: FlowerStatus)
    requires Tended(g) && f in g.flowers && g.flowers[f].status != Locked && status != Locked
    ensures Tended(g.(flowers := SetStatus(g.flowers, f, status)))
  {
    hide RoundBudget, Apart, AllHold, Sourced, Hybrids, Unresolved;
    StatusLinks(g.flowers, g.experiments, f, status);
    forall w | w in g.profiles ensures Hybrids(SetStatus(g.flowers, f, status), w) == Hybrids(g.flowers, w) {
      StatusHybrids(g.flowers, f, status, w);
    }
  }

  lemma StepKeeps(g: Garden, s: Step)
    requires Tended(g)
    ensures Tended(After(g, s))
  {
    if Next(g, s).Grown? {
      match s
      case OpenRound =>
      case ClaimStarters(wallet) => ClaimKeeps(g, wallet);
      case StartBreeding(_, _, _, _, _) => StartKeeps(g, s);
      case Answer(x, _) =>
        AnswerHasEffect(g, s);
        if After(g, s) != g {
          ResolveKeeps(g, x, After(g, s).experiments[x], After(g, s));
        }
      case Cancel(x, _) =>
        CancelHasEffect(g, s);
        ResolveKeeps(g, x, After(g, s).experiments[x], After(g, s));
      case Reclaim(x) =>
        ReclaimHasEffect(g, s);
        var f := g.experiments[x].offspring;
        RemoveKeeps(g, f, g.flowers[f].owner, After(g, s));
      case Close(wallet, f, _) =>
        CloseHasEffect(g, s);
        RemoveKeeps(g, f, wallet, After(g, s));
      case Submit(f) => StatusKeeps(g, f, Submitted);
      case Release(f) => StatusKeeps(g, f, Active);
    }
  }

  lemma {:induction false} RunKeeps(g: Garden, steps: seq<Step>)
    requires Tended(g)
    ensures Tended(Run(g, steps))
    decreases |steps|
  {
    hide Tended, Next, After;
    if steps != [] {
      StepKeeps(g, steps[0]);
      RunKeeps(After(g, steps[0]), steps[1..]);
    }
  }
}
