/** Breeding experiments: what starting, answering, expiring, reclaiming and closing do to a
player's profile, the two parents, the experiment and the pre-created offspring. */
module Breeding {
  import opened Ranking
  import opened Accounts

  const STARTER_COUNT := 6
  const MAX_BREEDS_PER_ROUND := 5
  const MAX_BREEDS_AS_PARENT := 3
  const COLLECTION_CAP := 20
  const EXPERIMENT_TIMEOUT := 600

  datatype BreedError =
    | FlowerNotActive | FlowerNotOwned | SameParent | LimitReached | CollectionFull | ParentLimitReached
    | RecentlyTransferred | AlreadyResolved | NotYetExpired | NotDead | NotReclaimable
    | StarterNotDeletable | StillMinted | MissingAccount

  datatype Bred<T> = Grown(value: T) | Barred(error: BreedError)

  /** Addresses are derived from the wallet and a running index. */
  datatype FlowerId = FlowerId(wallet: Key, index: nat)
  datatype ExperimentId = ExperimentId(wallet: Key, index: nat)

  datatype FlowerStatus = Active | Locked | Submitted

  datatype Flower = Flower(owner: Key, hybrid: bool, status: FlowerStatus, timesBred: nat, source: Option<ExperimentId>)

  datatype ExperimentStatus = Queued | Completed | Failed | Expired

  datatype Experiment = Experiment(
    owner: Key, parentA: FlowerId, parentB: FlowerId, offspring: FlowerId,
    status: ExperimentStatus, processed: bool, createdAt: int)

  datatype Profile = Profile(
    totalFlowers: nat, activeExperiments: nat, totalExperiments: nat, nextFlower: nat,
    breedsThisRound: nat, lastBreedRound: nat)

  function Minus1(n: nat): nat {
    if n == 0 then 0 else n - 1
  }

  // ---- the profile's and the flower's own rules --------------------------------------------

  /** The counter resets lazily, on the first attempt in a round not bred in yet. */
  function RegisterAttempt(p: Profile, round: nat): Bred<Profile> {
    var used := if p.lastBreedRound != round then 0 else p.breedsThisRound;
    if used >= MAX_BREEDS_PER_ROUND then Barred(LimitReached)
    else Grown(p.(breedsThisRound := used + 1, lastBreedRound := round))
  }

  predicate UnderCap(p: Profile) {
    (if p.totalFlowers < STARTER_COUNT then 0 else p.totalFlowers - STARTER_COUNT) < COLLECTION_CAP
  }

  predicate MayParent(f: Flower) {
    f.timesBred < MAX_BREEDS_AS_PARENT
  }

  /** A committed parent: one use spent, and locked until the experiment resolves. */
  function Committed(f: Flower): Flower {
    f.(timesBred := f.timesBred + 1, status := Locked)
  }

  // ---- start -------------------------------------------------------------------------------

  datatype Started = Started(profile: Profile, experiment: Experiment, offspring: Flower)

  function StartBreeding(wallet: Key, p: Profile, round: nat, now: int, cooling: bool,
                         idA: FlowerId, a: Flower, idB: FlowerId, b: Flower): Bred<Started>
  {
    if a.status != Active || b.status != Active then Barred(FlowerNotActive)
    else if a.owner != wallet || b.owner != wallet then Barred(FlowerNotOwned)
    else match RegisterAttempt(p, round)
      case Barred(e) => Barred(e)
      case Grown(q) =>
        if !UnderCap(q) then Barred(CollectionFull)
        else if !MayParent(a) || !MayParent(b) then Barred(ParentLimitReached)
        else if cooling then Barred(RecentlyTransferred)
        else
          var id := ExperimentId(wallet, p.totalExperiments);
          var offspring := FlowerId(wallet, p.nextFlower);
          Grown(Started(
               q.(totalExperiments := q.totalExperiments + 1, activeExperiments := q.activeExperiments + 1,
                  totalFlowers := q.totalFlowers + 1, nextFlower := q.nextFlower + 1),
               Experiment(wallet, idA, idB, offspring, Queued, false, now),
               Flower(wallet, true, Locked, 0, Some(id))))
  }

  // ---- resolve -----------------------------------------------------------------------------

  /** What a callback makes of the experiment; none when it was resolved before. */
  function Resolution(e: Experiment, success: bool): Option<Experiment> {
    if e.processed then None
    else Some(e.(status := if success then Completed else Failed, processed := true))
  }

  function CancelExpired(e: Experiment, now: int): Bred<Experiment> {
    if e.status != Queued then Barred(AlreadyResolved)
    else if now - e.createdAt < EXPERIMENT_TIMEOUT then Barred(NotYetExpired)
    else Grown(e.(status := Expired, processed := true))
  }

  /** The offspring of a dead experiment: still locked, and bound to it both ways. */
  function ReclaimError(id: ExperimentId, e: Experiment, flower: FlowerId, f: Flower): Option<BreedError> {
    if e.status != Failed && e.status != Expired then Some(NotDead)
    else if f.source != Some(id) || e.offspring != flower || f.status != Locked then Some(NotReclaimable)
    else None
  }

  function CloseError(wallet: Key, f: Flower, minted: bool): Option<BreedError> {
    if f.owner != wallet then Some(FlowerNotOwned)
    else if f.status != Active then Some(FlowerNotActive)
    else if !f.hybrid then Some(StarterNotDeletable)
    else if minted then Some(StillMinted)
    else None
  }
}
