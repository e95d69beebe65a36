/** The breeding instructions as the program runs them: fields of the profile, the parents, the
experiment and the offspring updated one by one. */
module BreedingHandlers {
  import opened Ranking
  import opened Accounts
  import opened Breeding

  class PlayerProfile {
    var totalFlowers: nat
    var activeExperiments: nat
    var totalExperiments: nat
    var nextFlower: nat
    var breedsThisRound: nat
    var lastBreedRound: nat

    function View(): Profile
      reads this
    {
      Profile(totalFlowers, activeExperiments, totalExperiments, nextFlower, breedsThisRound, lastBreedRound)
    }

    method RegisterBreedAttempt(round: nat) returns (ok: bool)
      modifies `breedsThisRound, `lastBreedRound
      ensures RegisterAttempt(old(View()), round) == if ok then Grown(View()) else Barred(LimitReached)
    {
      if lastBreedRound != round {
        breedsThisRound := 0;
        lastBreedRound := round;
      }
      if breedsThisRound >= MAX_BREEDS_PER_ROUND {
        return false;
      }
      breedsThisRound := breedsThisRound + 1;
      ok := true;
    }

    method CheckCollectionCap() returns (ok: bool)
      ensures ok == UnderCap(View())
    {
      var liveHybrids := if totalFlowers < STARTER_COUNT then 0 else totalFlowers - STARTER_COUNT;
      ok := liveHybrids < COLLECTION_CAP;
    }

    /** One experiment more, active, and one flower more, each at the next index. */
    method CountStart()
      modifies `totalExperiments, `activeExperiments, `totalFlowers, `nextFlower
      ensures View() == old(View()).(totalExperiments := old(totalExperiments) + 1, activeExperiments := old(activeExperiments) + 1,
                                     totalFlowers := old(totalFlowers) + 1, nextFlower := old(nextFlower) + 1)
    {
      totalExperiments := totalExperiments + 1;
      activeExperiments := activeExperiments + 1;
      totalFlowers := totalFlowers + 1;
      nextFlower := nextFlower + 1;
    }

    method ExperimentDone()
      modifies `activeExperiments
      ensures View() == old(View()).(activeExperiments := Minus1(old(activeExperiments)))
    {
      activeExperiments := if activeExperiments == 0 then 0 else activeExperiments - 1;
    }
  }

  class FlowerRecord {
    var owner: Key
    var hybrid: bool
    var status: FlowerStatus
    var timesBred: nat
    var source: Option<ExperimentId>

    function View(): Flower
      reads this
    {
      Flower(owner, hybrid, status, timesBred, source)
    }

    constructor (wallet: Key, experiment: ExperimentId)
      ensures View() == Flower(wallet, true, Locked, 0, Some(experiment))
    {
      owner, hybrid, status, timesBred, source := wallet, true, Locked, 0, Some(experiment);
    }

    method CheckBreedAsParent() returns (ok: bool)
      ensures ok == MayParent(View())
    {
      ok := timesBred < MAX_BREEDS_AS_PARENT;
    }

    /** Spend one use, or refuse and spend nothing. */
    method RegisterBreedAsParent() returns (ok: bool)
      modifies `timesBred
      ensures ok == MayParent(old(View()))
      ensures View() == if ok then old(View()).(timesBred := old(timesBred) + 1) else old(View())
    {
      if timesBred >= MAX_BREEDS_AS_PARENT {
        return false;
      }
      timesBred := timesBred + 1;
      ok := true;
    }
  }

  class ExperimentRecord {
    var owner: Key
    var parentA: FlowerId
    var parentB: FlowerId
    var offspring: FlowerId
    var status: ExperimentStatus
    var processed: bool
    var createdAt: int

    function View(): Experiment
      reads this
    {
      Experiment(owner, parentA, parentB, offspring, status, processed, createdAt)
    }

    constructor (wallet: Key, a: FlowerId, b: FlowerId, child: FlowerId, now: int)
      ensures View() == Experiment(wallet, a, b, child, Queued, false, now)
    {
      owner, parentA, parentB, offspring, status, processed, createdAt := wallet, a, b, child, Queued, false, now;
    }

    method Resolve(outcome: ExperimentStatus)
      modifies `status, `processed
      ensures View() == old(View()).(status := outcome, processed := true)
    {
      status, processed := outcome, true;
    }
  }

  /** Spend one of the parent's uses and lock it. */
  method Commit(parent: FlowerRecord)
    requires MayParent(parent.View())
    modifies parent
    ensures parent.View() == Committed(old(parent.View()))
  {
    var ok := parent.RegisterBreedAsParent();
    parent.status := Locked;
  }

  /** On success both parents are committed and the profile, experiment and offspring are exactly
  the specified ones. */
  method StartBreeding(wallet: Key, profile: PlayerProfile, round: nat, now: int, cooling: bool,
                       idA: FlowerId, a: FlowerRecord, idB: FlowerId, b: FlowerRecord)
    returns (e: Option<BreedError>, experiment: ExperimentRecord?, offspring: FlowerRecord?)
    requires a != b
    modifies profile, a, b
    ensures var spec := Breeding.StartBreeding(wallet, old(profile.View()), round, now, cooling,
                                               idA, old(a.View()), idB, old(b.View()));
            if e.Some? then spec == Barred(e.value)
            else && experiment != null && offspring != null
                 && spec == Grown(Started(profile.View(), experiment.View(), offspring.View()))
                 && a.View() == Committed(old(a.View())) && b.View() == Committed(old(b.View()))
  {
    hide UnderCap, MayParent;
    experiment, offspring := null, null;
    if a.status != Active || b.status != Active {
      return Some(FlowerNotActive), null, null;
    }
    if a.owner != wallet || b.owner != wallet {
      return Some(FlowerNotOwned), null, null;
    }
    var ok := profile.RegisterBreedAttempt(round);
    if !ok {
      return Some(LimitReached), null, null;
    }
    ok := profile.CheckCollectionCap();
    if !ok {
      return Some(CollectionFull), null, null;
    }
    var okA := a.CheckBreedAsParent();
    var okB := b.CheckBreedAsParent();
    if !okA || !okB {
      return Some(ParentLimitReached), null, null;
    }
    Commit(a);
    Commit(b);
    if cooling {
      return Some(RecentlyTransferred), null, null;
    }
    var id := ExperimentId(wallet, profile.totalExperiments);
    var child := FlowerId(wallet, profile.nextFlower);
    offspring := new FlowerRecord(wallet, id);
    experiment := new ExperimentRecord(wallet, idA, idB, child, now);
    profile.CountStart();
    e := None;
  }

  /** Idempotent: an experiment that was processed before is left exactly as it is. */
  method BreedCallback(experiment: ExperimentRecord, profile: PlayerProfile, a: FlowerRecord, b: FlowerRecord,
                       offspring: FlowerRecord, success: bool)
    requires a != b && a != offspring && b != offspring
    modifies experiment, profile, a`status, b`status, offspring`status
    ensures var r := Resolution(old(experiment.View()), success);
            if r.None? then
              && experiment.View() == old(experiment.View()) && profile.View() == old(profile.View())
              && a.View() == old(a.View()) && b.View() == old(b.View()) && offspring.View() == old(offspring.View())
            else
              && experiment.View() == r.value
              && profile.View() == old(profile.View()).(activeExperiments := Minus1(old(profile.activeExperiments)))
              && a.View() == old(a.View()).(status := Active) && b.View() == old(b.View()).(status := Active)
              && offspring.View() == if success then old(offspring.View()).(status := Active) else old(offspring.View())
  {
    if experiment.processed {
      return;
    }
    if success {
      offspring.status := Active;
    }
    a.status := Active;
    b.status := Active;
    experiment.Resolve(if success then Completed else Failed);
    profile.ExperimentDone();
  }
}
