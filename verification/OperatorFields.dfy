/** What the automatic operator sends, told from the fields of the accounts it finds: when it closes and
pins, what it queues and collects, and that a partition it recognises keeps all its work. */
module OperatorFields {
  import opened Ranking
  import opened Partition
  import opened Accounts
  import opened Instructions
  import opened Planner
  import opened RevealRun
  import opened RevealInvariant
  import opened RevealSteps
  import opened TierDriver
  import opened EndgameDriver
  import opened SingleTierDriver
  import opened TwoTierDriver
  import opened BracketDriver

  /** Shard by shard the pinned account declares the planned number of entries from the planned first key on. */
  predicate SamePartition(l: Layout, plan: BracketPlan) {
    |l.sizes| == |plan.shards|
    && forall k :: 0 <= k < |plan.shards| ==>
         l.sizes[k] == |plan.shards[k].entries| && l.bounds[k] == plan.shards[k].bound
  }

  lemma PlannedSize(plan: BracketPlan, sorted: seq<Key>, k: nat)
    requires CutsUp(plan, sorted) && k < |plan.shards|
    ensures |plan.shards[k].entries| == plan.sizes[k]
  {
    SumToStrict(plan.sizes, k, |plan.sizes|);
  }

  lemma OneSizeEach(plan: BracketPlan, sorted: seq<Key>)
    requires PlansFor(plan, sorted)
    ensures CutsUp(plan, sorted) && |plan.sizes| == |plan.shards|
  {
  }

  lemma SamePartitionMatches(plan: BracketPlan, sorted: seq<Key>, l: Layout)
    requires PlansFor(plan, sorted)
    ensures |plan.sizes| == |plan.shards| && (SamePartition(l, plan) <==> l == PlanLayout(plan))
  {
    OneSizeEach(plan, sorted);
    forall k | 0 <= k < |plan.shards| ensures |plan.shards[k].entries| == plan.sizes[k] {
      PlannedSize(plan, sorted, k);
    }
    hide PlansFor;
    if SamePartition(l, plan) {
      assert l.sizes == plan.sizes && l.bounds == Bounds(plan);
    }
  }

  /** Closing a tier 1 or pinning anything. */
  predicate Repins(s: Step) {
    s.CloseTier1Account? || s.PinTier1? || s.PinBracket?
  }

  predicate NeverRepins(steps: seq<Step>) {
    forall i :: 0 <= i < |steps| ==> !Repins(steps[i])
  }

  lemma NeverRepinsConcat(a: seq<Step>, b: seq<Step>)
    requires NeverRepins(a) && NeverRepins(b)
    ensures NeverRepins(a + b)
  {
  }

  lemma PassNeverRepins(t: Tier, w: World, lists: seq<seq<Key>>, force: bool)
    ensures NeverRepins(Pass(t, w, lists, force))
  {
  }

  lemma EndgameNeverRepins(w: World)
    ensures NeverRepins(EndgameSteps(w))
  {
  }

  // ---- closing and pinning -----------------------------------------------------------------

  /** What the operator has to send before it can reveal anything: nothing over a finished or matching tier
  1 or a matching bracket, one pin where there is none, and over another tier 1 a close first. */
  function Preparation(w: World, plan: BracketPlan, slot: nat): seq<Step>
    requires FitsWidth(plan)
  {
    if !plan.twoTier then
      if w.bracket.Some? && SamePartition(w.bracket.value.layout, plan) then [] else [PinStep(plan, 0)]
    else if w.tier1.None? then [PinStep(plan, slot)]
    else if w.tier1.value.promoted || SamePartition(w.tier1.value.layout, plan) then []
    else [CloseTier1Account(true), PinStep(plan, slot)]
  }

  /** The plan announces a final exactly when the bracket it leads to will need one. */
  lemma FinalIsPlanned(plan: BracketPlan, sorted: seq<Key>, prior: Option<Bracket>)
    requires PlansFor(plan, sorted)
    ensures |plan.sizes| == |plan.shards|
    ensures plan.finalReveal
       <==> if plan.twoTier then |plan.semifinalSizes| > 1 else NeedsFinalReveal(FreshBracket(PlanLayout(plan), prior))
  {
    if plan.twoTier {
      PlannedSemifinals(plan, sorted, seq<Key>(WinnersUpTo(plan.sizes, |plan.sizes|), _ => 0));
    }
  }

  /** That is what its run begins with, and after it nothing is closed or pinned again. */
  lemma PreparesOnce(w: World, plan: BracketPlan, slot: nat) returns (rest: seq<Step>)
    requires PlansFor(plan, Sorted(Entrants(w))) && FitsWidth(plan)
    ensures OperatorSteps(w, plan, slot) == Preparation(w, plan, slot) + rest && NeverRepins(rest)
  {
    hide Pass, EndgameSteps, PlansFor, PinStep, Run, NeverRepins;
    if plan.twoTier {
      rest := PreparesTwoTier(w, plan, slot);
    } else {
      rest := PreparesSingleTier(w, plan, slot);
    }
  }

  lemma PreparesSingleTier(w: World, plan: BracketPlan, slot: nat) returns (rest: seq<Step>)
    requires PlansFor(plan, Sorted(Entrants(w))) && FitsWidth(plan) && !plan.twoTier
    ensures OperatorSteps(w, plan, slot) == Preparation(w, plan, slot) + rest && NeverRepins(rest)
  {
    hide Pass, EndgameSteps, PlansFor, PinStep, Run, NeverRepins;
    if w.bracket.Some? {
      SamePartitionMatches(plan, Sorted(Entrants(w)), w.bracket.value.layout);
    }
    var pins := BracketPins(w, plan);
    var pass := Pass(Shards, Run(w, pins), ListsOf(plan), pins != [] && w.bracket.Some?);
    var last := EndgameSteps(Run(w, SingleTierSteps(w, plan)));
    PassNeverRepins(Shards, Run(w, pins), ListsOf(plan), pins != [] && w.bracket.Some?);
    EndgameNeverRepins(Run(w, SingleTierSteps(w, plan)));
    NeverRepinsConcat(pass, last);
    rest := pass + last;
    assert pins + pass + last == pins + rest;
  }

  lemma PinsArePreparation(w: World, plan: BracketPlan, slot: nat)
    requires PlansFor(plan, Sorted(Entrants(w))) && FitsWidth(plan) && plan.twoTier
    ensures if Promoted(w) then Preparation(w, plan, slot) == [] else Tier1Pins(w, plan, slot) == Preparation(w, plan, slot)
    ensures MustClear(w, plan) <==> w.tier1.Some? && !w.tier1.value.promoted && !SamePartition(w.tier1.value.layout, plan)
  {
    hide PlansFor, PinStep, SamePartition;
    if w.tier1.Some? {
      SamePartitionMatches(plan, Sorted(Entrants(w)), w.tier1.value.layout);
    }
  }

  lemma FirstTierPrepares(w: World, plan: BracketPlan, slot: nat) returns (rest: seq<Step>)
    requires PlansFor(plan, Sorted(Entrants(w))) && FitsWidth(plan) && plan.twoTier
    ensures FirstTierSteps(w, plan, slot) == Preparation(w, plan, slot) + rest && NeverRepins(rest)
  {
    hide Pass, PlansFor, Run, NeverRepins, Preparation, Tier1Pins;
    PinsArePreparation(w, plan, slot);
    NothingRepins();
    rest := [];
    if !Promoted(w) {
      var pins := Tier1Pins(w, plan, slot);
      var pass := Pass(Tier1Shards, Run(w, pins), ListsOf(plan), MustClear(w, plan));
      PassNeverRepins(Tier1Shards, Run(w, pins), ListsOf(plan), MustClear(w, plan));
      NeverRepinsConcat(pass, [Promote(true)]);
      rest := pass + [Promote(true)];
      assert pins + pass + [Promote(true)] == pins + rest;
    }
  }

  lemma NothingRepins()
    ensures NeverRepins([]) && NeverRepins([Promote(true)])
  {
  }

  lemma PreparesTwoTier(w: World, plan: BracketPlan, slot: nat) returns (rest: seq<Step>)
    requires PlansFor(plan, Sorted(Entrants(w))) && FitsWidth(plan) && plan.twoTier
    ensures OperatorSteps(w, plan, slot) == Preparation(w, plan, slot) + rest && NeverRepins(rest)
  {
    hide Pass, EndgameSteps, PlansFor, Run, NeverRepins, Preparation, FirstTierSteps;
    var first := FirstTierSteps(w, plan, slot);
    var more := FirstTierPrepares(w, plan, slot);
    var w2 := Run(w, first);
    var semis, last := Pass(Semifinals, w2, SemifinalLists(w2), false), EndgameSteps(Run(w, TwoTierSteps(w, plan, slot)));
    PassNeverRepins(Semifinals, w2, SemifinalLists(w2), false);
    EndgameNeverRepins(Run(w, TwoTierSteps(w, plan, slot)));
    NeverRepinsConcat(more, semis);
    NeverRepinsConcat(more + semis, last);
    rest := more + semis + last;
    assert first + semis + last == Preparation(w, plan, slot) + rest;
  }

  // ---- nothing already done is lost --------------------------------------------------------

  /** Tier 1 still stands as pinned, with everything collected so far. */
  predicate Tier1Kept(w: World, v: World) {
    w.tier1.Some? ==>
      && v.tier1.Some? && v.tier1.value.generation == w.tier1.value.generation && v.tier1.value.layout == w.tier1.value.layout
      && w.tier1.value.done <= v.tier1.value.done && Members(w.tier1.value.winners) <= Members(v.tier1.value.winners)
  }

  lemma {:induction false} InsertAllGrows(winners: seq<Key>, keys: seq<Key>)
    requires InsertAll(winners, keys).Some?
    ensures Members(winners) <= Members(InsertAll(winners, keys).value)
    decreases keys
  {
    if keys != [] {
      InsertAllGrows(InsertWinner(winners, keys[0]).value, keys[1..]);
    }
  }

  lemma StepKeepsTier1(w: World, s: Step)
    requires !Repins(s)
    ensures Tier1Kept(w, After(w, s))
  {
    hide Next, Members;
    if Next(w, s).Ok? {
      hide After;
      if s.CollectTier1? {
        CollectTier1Result(w, s);
        InsertAllGrows(w.tier1.value.winners,
                       Picked(s.list, w.results[ShardResult(s.index)].podium.slots, Min(SHARD_WINNERS, |s.list|)));
      } else if s.Promote? {
        PromoteEffect(w, s);
      } else {
        Tier1Untouched(w, s);
      }
    }
  }

  lemma Tier1Untouched(w: World, s: Step)
    requires !Repins(s) && !s.CollectTier1? && !s.Promote? && Next(w, s).Ok?
    ensures After(w, s).tier1 == w.tier1
  {
    hide QueueShardReveal, CollectShardWinners, ApplyBracketResult, QueueTier1ShardReveal, QueueSemifinalReveal,
         CollectSemifinalWinners;
  }

  lemma {:induction false} RunKeepsTier1(w: World, steps: seq<Step>)
    requires NeverRepins(steps)
    ensures Tier1Kept(w, Run(w, steps))
    decreases |steps|
  {
    hide After, Repins, Tier1Kept, Members;
    Tier1KeptSelf(w);
    if steps != [] {
      StepKeepsTier1(w, steps[0]);
      RunKeepsTier1(After(w, steps[0]), steps[1..]);
      Tier1KeptTwice(w, After(w, steps[0]), Run(w, steps));
    }
  }

  lemma Tier1KeptSelf(w: World)
    ensures Tier1Kept(w, w)
  {
  }

  lemma Tier1KeptTwice(w: World, u: World, v: World)
    requires Tier1Kept(w, u) && Tier1Kept(u, v)
    ensures Tier1Kept(w, v)
  {
    hide Members;
  }

  /** A tier 1 the operator recognises, and a promoted one, keeps its stamp and every collected shard at every
  moment of the run, refused or not. */
  lemma RecognisedTier1IsKept(w: World, plan: BracketPlan, slot: nat, n: nat)
    requires PlansFor(plan, Sorted(Entrants(w))) && FitsWidth(plan) && plan.twoTier && w.tier1.Some?
    requires w.tier1.value.promoted || SamePartition(w.tier1.value.layout, plan)
    requires n <= |OperatorSteps(w, plan, slot)|
    ensures Tier1Kept(w, Run(w, OperatorSteps(w, plan, slot)[..n]))
  {
    hide PlansFor, OperatorSteps, Run, SamePartition, Tier1Kept;
    var rest := PreparesOnce(w, plan, slot);
    assert OperatorSteps(w, plan, slot) == rest;
    RunKeepsTier1(w, OperatorSteps(w, plan, slot)[..n]);
  }

  // ---- what is queued and what is collected ------------------------------------------------

  lemma QueuedMembers(t: Tier, lists: seq<seq<Key>>, need: seq<nat>, k: nat)
    requires Within(need, |lists|) && k < |lists|
    ensures QueueOf(t, k, lists[k]) in QueueSteps(t, lists, need) <==> k in need
    ensures forall s :: s in QueueSteps(t, lists, need) ==> Queues(s)
  {
    if k in need {
      var i := IndexOf(need, k);
      assert QueueSteps(t, lists, need)[i] == QueueOf(t, k, lists[k]);
    }
  }

  lemma CollectedMembers(t: Tier, lists: seq<seq<Key>>, due: seq<nat>, k: nat)
    requires Within(due, |lists|) && k < |lists|
    ensures CollectOf(t, k, lists[k]) in CollectSteps(t, lists, due) <==> k in due
    ensures forall s :: s in CollectSteps(t, lists, due) ==> Collects(s)
  {
    if k in due {
      var i := IndexOf(due, k);
      assert CollectSteps(t, lists, due)[i] == CollectOf(t, k, lists[k]);
    }
  }

  lemma PassMembers(t: Tier, w: World, lists: seq<seq<Key>>, force: bool, k: nat)
    requires k < |lists|
    ensures QueueOf(t, k, lists[k]) in Pass(t, w, lists, force) <==> force || !ResultReady(w, AddrOf(t, k))
    ensures CollectOf(t, k, lists[k]) in Pass(t, w, lists, force) <==> k !in CollectedBy(t, w)
  {
    hide ResultReady, CollectedBy, QueueSteps, CollectSteps, Jobs;
    QueuedMembers(t, lists, ToQueue(t, w, |lists|, force), k);
    CollectedMembers(t, lists, ToCollect(t, w, |lists|), k);
  }

  /** The first-tier pass of an unpromoted round: a shard is queued if and only if another partition had to
  be cleared or its record holds no usable result, and collected if and only if it is not yet done in the
  partition that stays. */
  lemma Tier1PassDecided(w: World, plan: BracketPlan, slot: nat, k: nat)
    requires Inv(w) && AtRest(w) && PlansFor(plan, Sorted(Entrants(w))) && plan.twoTier && FitsWidth(plan)
    requires !Promoted(w) && UnusedStamps(w, slot) && k < |plan.shards|
    ensures var steps, list, addr := FirstTierSteps(w, plan, slot), plan.shards[k].entries, ShardResult(k);
            var keeps := w.tier1.Some? && SamePartition(w.tier1.value.layout, plan);
            && (QueueTier1(true, k, list) in steps <==>
                  (w.tier1.Some? && !keeps) || addr !in w.results || !w.results[addr].ready || w.results[addr].errorCode != 0)
            && (CollectTier1(true, k, list) in steps <==> !(keeps && k in w.tier1.value.done))
  {
    hide Inv, AtRest, PlansFor, UnusedStamps, Pass, Run, SamePartition;
    if w.tier1.Some? {
      SamePartitionMatches(plan, Sorted(Entrants(w)), w.tier1.value.layout);
    }
    var w1 := Tier1Pinned(w, plan, slot);
    PassMembers(Tier1Shards, w1, ListsOf(plan), MustClear(w, plan), k);
    assert w1 == Run(w, Tier1Pins(w, plan, slot)) && AddrOf(Tier1Shards, k) == ShardResult(k);
  }

  /** And the same of a one-tier round. */
  lemma ShardPassDecided(w: World, plan: BracketPlan, k: nat)
    requires Inv(w) && AtRest(w) && PlansFor(plan, Sorted(Entrants(w))) && !plan.twoTier && FitsWidth(plan)
    requires UnusedStamp(w, NextStamp(BracketStamp(w))) && k < |plan.shards|
    ensures var steps, list, addr := SingleTierSteps(w, plan), plan.shards[k].entries, ShardResult(k);
            var keeps := w.bracket.Some? && SamePartition(w.bracket.value.layout, plan);
            && (QueueShard(true, k, list) in steps <==>
                  (w.bracket.Some? && !keeps) || addr !in w.results || !w.results[addr].ready || w.results[addr].errorCode != 0)
            && (CollectShard(true, k, list) in steps <==> !(keeps && k in w.bracket.value.collected))
  {
    hide Inv, AtRest, PlansFor, UnusedStamp, Pass, Run, SamePartition;
    if w.bracket.Some? {
      SamePartitionMatches(plan, Sorted(Entrants(w)), w.bracket.value.layout);
    }
    var w1 := BracketPinned(w, plan);
    var pins := BracketPins(w, plan);
    PassMembers(Shards, w1, ListsOf(plan), pins != [] && w.bracket.Some?, k);
    assert w1 == Run(w, pins) && AddrOf(Shards, k) == ShardResult(k);
  }
}
