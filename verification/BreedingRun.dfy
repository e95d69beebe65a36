/** All wallets' breeding at once: starts, answers that come late or never, expiries, reclaims and
deletions in any interleaving. Flowers do not change hands here. */
module BreedingRun {
  import opened Ranking
  import opened Accounts
  import opened Breeding

  /** One accepted start, for the record: who, with which parents, in which round. */
  datatype Start = Start(wallet: Key, a: FlowerId, b: FlowerId, round: nat)

  datatype Garden = Garden(
    round: nat, profiles: map<Key, Profile>, flowers: map<FlowerId, Flower>,
    experiments: map<ExperimentId, Experiment>, starts: seq<Start>)

  datatype Step =
    | OpenRound
    | ClaimStarters(wallet: Key)
    | StartBreeding(wallet: Key, a: FlowerId, b: FlowerId, now: int, cooling: bool)
    | Answer(experiment: ExperimentId, success: bool)
    | Cancel(experiment: ExperimentId, now: int)
    | Reclaim(experiment: ExperimentId)
    | Close(wallet: Key, flower: FlowerId, minted: bool)
    | Submit(flower: FlowerId)
    | Release(flower: FlowerId)

  function SetStatus(flowers: map<FlowerId, Flower>, id: FlowerId, status: FlowerStatus): map<FlowerId, Flower>
    requires id in flowers
  {
    flowers[id := flowers[id].(status := status)]
  }

  /** Both parents active again, the experiment resolved, one experiment fewer in flight. */
  function Resolved(g: Garden, id: ExperimentId, e: Experiment, flowers: map<FlowerId, Flower>): Garden
    requires e.parentA in flowers && e.parentB in flowers && e.owner in g.profiles
  {
    var p := g.profiles[e.owner];
    g.(flowers := SetStatus(SetStatus(flowers, e.parentA, Active), e.parentB, Active),
       experiments := g.experiments[id := e],
       profiles := g.profiles[e.owner := p.(activeExperiments := Minus1(p.activeExperiments))])
  }

  function Removed(g: Garden, flower: FlowerId, wallet: Key): Garden
    requires wallet in g.profiles
  {
    var p := g.profiles[wallet];
    g.(flowers := g.flowers - {flower}, profiles := g.profiles[wallet := p.(totalFlowers := Minus1(p.totalFlowers))])
  }

  function Starters(wallet: Key): map<FlowerId, Flower> {
    map i: nat | i < STARTER_COUNT :: FlowerId(wallet, i) := Flower(wallet, false, Active, 0, None)
  }

  predicate HasAccounts(g: Garden, e: Experiment) {
    e.parentA in g.flowers && e.parentB in g.flowers && e.owner in g.profiles
  }

  function Next(g: Garden, s: Step): Bred<Garden> {
    match s
    case OpenRound => Grown(g.(round := g.round + 1))
    case ClaimStarters(wallet) =>
      if wallet in g.profiles then Barred(MissingAccount)
      else Grown(g.(profiles := g.profiles[wallet := Profile(STARTER_COUNT, 0, 0, STARTER_COUNT, 0, 0)],
                 flowers := g.flowers + Starters(wallet)))
    case StartBreeding(wallet, a, b, now, cooling) =>
      if wallet !in g.profiles || a !in g.flowers || b !in g.flowers then Barred(MissingAccount)
      else if a == b then Barred(SameParent)
      else (match Breeding.StartBreeding(wallet, g.profiles[wallet], g.round, now, cooling, a, g.flowers[a], b, g.flowers[b])
            case Barred(e) => Barred(e)
            case Grown(r) =>
              var id := ExperimentId(wallet, g.profiles[wallet].totalExperiments);
              if id in g.experiments || r.experiment.offspring in g.flowers then Barred(MissingAccount)
              else Grown(Garden(
                g.round, g.profiles[wallet := r.profile],
                g.flowers[a := Committed(g.flowers[a])][b := Committed(g.flowers[b])][r.experiment.offspring := r.offspring],
                g.experiments[id := r.experiment],
                g.starts + [Start(wallet, a, b, g.round)])))
    case Answer(id, success) =>
      if id !in g.experiments || !HasAccounts(g, g.experiments[id]) || g.experiments[id].offspring !in g.flowers
      then Barred(MissingAccount)
      else (match Resolution(g.experiments[id], success)
            case None => Grown(g)
            case Some(e) => Grown(Resolved(g, id, e, if success then SetStatus(g.flowers, e.offspring, Active) else g.flowers)))
    case Cancel(id, now) =>
      if id !in g.experiments || !HasAccounts(g, g.experiments[id]) then Barred(MissingAccount)
      else (match CancelExpired(g.experiments[id], now)
            case Barred(e) => Barred(e)
            case Grown(e) => Grown(Resolved(g, id, e, g.flowers)))
    case Reclaim(id) =>
      if id !in g.experiments || g.experiments[id].offspring !in g.flowers then Barred(MissingAccount)
      else
        var flower := g.experiments[id].offspring;
        var owner := g.flowers[flower].owner;
        (match ReclaimError(id, g.experiments[id], flower, g.flowers[flower])
         case Some(e) => Barred(e)
         case None => if owner !in g.profiles then Barred(MissingAccount) else Grown(Removed(g, flower, owner)))
    case Close(wallet, flower, minted) =>
      if flower !in g.flowers || wallet !in g.profiles then Barred(MissingAccount)
      else (match CloseError(wallet, g.flowers[flower], minted)
            case Some(e) => Barred(e)
            case None => Grown(Removed(g, flower, wallet)))
    case Submit(flower) =>
      if flower !in g.flowers || g.flowers[flower].status != Active then Barred(FlowerNotActive)
      else Grown(g.(flowers := SetStatus(g.flowers, flower, Submitted)))
    case Release(flower) =>
      if flower !in g.flowers || g.flowers[flower].status != Submitted then Barred(FlowerNotActive)
      else Grown(g.(flowers := SetStatus(g.flowers, flower, Active)))
  }

  function After(g: Garden, s: Step): Garden {
    var next := Next(g, s);
    if next.Grown? then next.value else g
  }

  function Run(g: Garden, steps: seq<Step>): Garden
    decreases |steps|
  {
    if steps == [] then g else Run(After(g, steps[0]), steps[1..])
  }

  predicate Empty(g: Garden) {
    g.profiles == map[] && g.flowers == map[] && g.experiments == map[] && g.starts == []
  }

  // ---- what is being counted ---------------------------------------------------------------

  type Flowers = map<FlowerId, Flower>
  type Experiments = map<ExperimentId, Experiment>
  type Profiles = map<Key, Profile>

  predicate Parents(e: Experiment, f: FlowerId) {
    e.parentA == f || e.parentB == f
  }

  /** The wallet's experiments still unresolved. */
  function Unresolved(es: Experiments, wallet: Key): set<ExperimentId> {
    set x | x in es && es[x].owner == wallet && es[x].status == Queued
  }

  /** The wallet's hybrid flower records in existence. */
  function Hybrids(fs: Flowers, wallet: Key): set<FlowerId> {
    set f | f in fs && fs[f].owner == wallet && fs[f].hybrid
  }

  function TimesNamed(starts: seq<Start>, f: FlowerId): nat {
    if starts == [] then 0
    else
      var last := starts[|starts| - 1];
      TimesNamed(starts[..|starts| - 1], f) + (if last.a == f || last.b == f then 1 else 0)
  }

  function StartsIn(starts: seq<Start>, wallet: Key, round: nat): nat {
    if starts == [] then 0
    else
      var last := starts[|starts| - 1];
      StartsIn(starts[..|starts| - 1], wallet, round) + (if last.wallet == wallet && last.round == round then 1 else 0)
  }

  // ---- the invariant -----------------------------------------------------------------------

  /** Every record sits at its owner's address and below the owner's running index. */
  predicate Addressed(fs: Flowers, es: Experiments, ps: Profiles) {
    && (forall f :: f in fs ==> f.wallet == fs[f].owner && f.wallet in ps && f.index < ps[f.wallet].nextFlower)
    && (forall x :: x in es ==>
          && x.wallet == es[x].owner && x.wallet in ps && x.index < ps[x.wallet].totalExperiments
          && es[x].offspring.wallet == x.wallet && es[x].offspring.index < ps[x.wallet].nextFlower)
  }

  predicate IsLocked(fs: Flowers, f: FlowerId) {
    f in fs && fs[f].status == Locked
  }

  /** An unresolved experiment holds two different parents and its offspring locked. */
  predicate Holds(fs: Flowers, e: Experiment) {
    && e.parentA != e.parentB && IsLocked(fs, e.parentA) && IsLocked(fs, e.parentB) && IsLocked(fs, e.offspring)
  }

  predicate AllHold(fs: Flowers, es: Experiments) {
    forall x :: x in es ==> (es[x].status == Queued <==> !es[x].processed) && (es[x].status == Queued ==> Holds(fs, es[x]))
  }

  predicate ShareParent(d: Experiment, e: Experiment) {
    Parents(d, e.parentA) || Parents(d, e.parentB)
  }

  /** No flower is a parent in two unresolved experiments, nor a parent while it is still the
  offspring of an experiment that did not succeed; no two experiments share an offspring. */
  predicate Apart(es: Experiments) {
    forall x, y :: x in es && y in es ==>
      && (x != y && es[x].status == Queued && es[y].status == Queued ==> !ShareParent(es[x], es[y]))
      && (es[x].status == Queued && es[y].status != Completed ==> !Parents(es[x], es[y].offspring))
      && (x != y ==> es[x].offspring != es[y].offspring)
  }

  /** Hybrids are exactly the offspring of recorded experiments, and out of their lock only after
  a success. */
  predicate Sourced(fs: Flowers, es: Experiments) {
    && (forall f :: f in fs ==>
          && (fs[f].hybrid <==> fs[f].source.Some?)
          && (fs[f].source.Some? ==>
                var x := fs[f].source.value;
                x in es && es[x].offspring == f && (fs[f].status != Locked ==> es[x].status == Completed)))
    && (forall x :: x in es && es[x].offspring in fs ==> fs[es[x].offspring].source == Some(x))
  }

  predicate Counted(fs: Flowers, es: Experiments, ps: Profiles) {
    forall w :: w in ps ==>
      && ps[w].activeExperiments == |Unresolved(es, w)|
      && ps[w].totalFlowers == STARTER_COUNT + |Hybrids(fs, w)|
      && |Hybrids(fs, w)| <= COLLECTION_CAP
  }

  /** Three starts as a parent, for ever, even for a flower since deleted. */
  ghost predicate ParentBudget(fs: Flowers, ps: Profiles, starts: seq<Start>) {
    && (forall f :: f in fs ==> fs[f].timesBred == TimesNamed(starts, f))
    && (forall f: FlowerId :: TimesNamed(starts, f) <= MAX_BREEDS_AS_PARENT)
    && (forall f: FlowerId :: TimesNamed(starts, f) > 0 ==> f.wallet in ps && f.index < ps[f.wallet].nextFlower)
  }

  /** Five starts a wallet and round. */
  ghost predicate RoundBudget(ps: Profiles, round: nat, starts: seq<Start>) {
    && (forall w: Key, r: nat :: StartsIn(starts, w, r) <= MAX_BREEDS_PER_ROUND)
    && (forall w: Key, r: nat :: StartsIn(starts, w, r) > 0 ==> w in ps && r <= ps[w].lastBreedRound)
    && (forall w :: w in ps ==>
          ps[w].lastBreedRound <= round && ps[w].breedsThisRound == StartsIn(starts, w, ps[w].lastBreedRound))
  }

  ghost predicate Tended(g: Garden) {
    && Addressed(g.flowers, g.experiments, g.profiles)
    && AllHold(g.flowers, g.experiments) && Apart(g.experiments) && Sourced(g.flowers, g.experiments)
    && Counted(g.flowers, g.experiments, g.profiles)
    && ParentBudget(g.flowers, g.profiles, g.starts) && RoundBudget(g.profiles, g.round, g.starts)
  }
}
