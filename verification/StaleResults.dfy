/** Results outlive the pins they were computed for. Through every admissible run, whatever a collect
or an apply takes from a record is what the circuit answers for a list the pins accept at that moment. */
module StaleResults {
  import opened Ranking
  import opened Circuit
  import opened Partition
  import opened Accounts
  import opened Instructions
  import opened RevealRun
  import opened RevealInvariant
  import opened RevealSteps
  import opened RevealTheorem

  /** The record whose slots a step resolves, if it resolves any: a lone shard is applied without. */
  function ReadFrom(w: World, s: Step): Option<Addr> {
    match s
    case CollectShard(_, index, _) => Some(ShardResult(index))
    case CollectTier1(_, index, _) => Some(ShardResult(index))
    case CollectSemifinal(_, index) => Some(SemiResult(index))
    case ApplyResult(_, index) => if w.bracket.Some? && OneShard(w.bracket.value) then None else Some(ShardResult(index))
    case _ => None
  }

  /** What the step leaves behind is what these slots name, among the accounts or the stored winners. */
  ghost predicate Takes(w: World, s: Step, slots: seq<nat>)
    requires |slots| == REVEAL_TOP_K
  {
    match s
    case CollectShard(_, index, list) =>
      && w.bracket.Some?
      && After(w, s).bracket == Some(WithWinners(w.bracket.value, index, Picked(list, slots, Min(SHARD_WINNERS, |list|))))
    case CollectTier1(_, index, list) =>
      && w.tier1.Some?
      && var t := w.tier1.value;
         var more := InsertAll(t.winners, Picked(list, slots, Min(SHARD_WINNERS, |list|)));
         more.Some? && After(w, s).tier1 == Some(t.(winners := more.value, done := t.done + {index}))
    case CollectSemifinal(_, index) =>
      && w.tier1.Some? && w.bracket.Some? && index < |w.bracket.value.layout.sizes|
      && var slice := SemifinalSlice(w.tier1.value, w.bracket.value, index);
         After(w, s).bracket == Some(WithWinners(w.bracket.value, index, Picked(slice, slots, Min(SHARD_WINNERS, |slice|))))
    case ApplyResult(_, _) =>
      && w.bracket.Some?
      && var finalists := w.bracket.value.finalists;
         var m := Min(REVEAL_TOP_K, |finalists|);
         After(w, s).round.top == Picked(finalists, slots, m) + seq(REVEAL_TOP_K - m, _ => DEFAULT_KEY)
    case _ => true
  }

  /** What an accepted step takes from a record answers a list the pins accept now. */
  ghost predicate TakesCurrent(w: World, s: Step) {
    Next(w, s).Ok? && ReadFrom(w, s).Some? ==>
      exists list :: Fits(PinsOf(w), ReadFrom(w, s).value, list) && Takes(w, s, RevealOf(w.ledger, list).slots)
  }

  ghost predicate RunTakesCurrent(w: World, steps: seq<Step>)
    decreases |steps|
  {
    steps != [] ==> TakesCurrent(w, steps[0]) && RunTakesCurrent(After(w, steps[0]), steps[1..])
  }

  /** A result that reads as live was computed for a list the pins accept. */
  lemma LiveIsCurrent(w: World, addr: Addr) returns (list: seq<Key>)
    requires Inv(w) && addr in w.results && w.results[addr].ready
    requires LiveStamp(PinsOf(w), addr) == Some(w.results[addr].generation)
    ensures Fits(PinsOf(w), addr, list) && w.results[addr].podium == RevealOf(w.ledger, list)
  {
    list :| Fits(PinsOf(w), addr, list) && w.results[addr].podium == RevealOf(w.ledger, list);
  }

  lemma CollectTakesCurrent(w: World, s: Step)
    requires Inv(w) && Admissible(w, s) && s.CollectShard? && Next(w, s).Ok?
    ensures TakesCurrent(w, s)
  {
    hide Inv, Next, After, Fits, RevealOf, RunError, Picked;
    CollectShardResult(w, s);
    var addr := ShardResult(s.index);
    FewShards(w);
    var list := LiveIsCurrent(w, addr);
  }

  /** A bracket never has so many shards that one would share its index with the final. */
  lemma FewShards(w: World)
    requires Inv(w)
    ensures w.bracket.Some? ==> |w.bracket.value.layout.bounds| <= MAX_SHARDS
    ensures w.tier1.Some? ==> TwoTier(w) && |w.tier1.value.layout.bounds| <= MAX_TIER1_SHARDS
  {
  }

  lemma Tier1TakesCurrent(w: World, s: Step)
    requires Inv(w) && s.CollectTier1? && Next(w, s).Ok?
    ensures TakesCurrent(w, s)
  {
    hide Inv, Next, After, Fits, RevealOf, RunError, Picked, InsertAll;
    CollectTier1Result(w, s);
    FewShards(w);
    var list := LiveIsCurrent(w, ShardResult(s.index));
  }

  lemma SemifinalTakesCurrent(w: World, s: Step)
    requires Inv(w) && s.CollectSemifinal? && Next(w, s).Ok?
    ensures TakesCurrent(w, s)
  {
    hide Inv, Next, After, Fits, RevealOf, Picked, SemifinalSlice;
    CollectSemifinalEffect(w, s);
    var list := LiveIsCurrent(w, SemiResult(s.index));
  }

  lemma ApplyTakesCurrent(w: World, s: Step)
    requires Inv(w) && s.ApplyResult? && Next(w, s).Ok?
    ensures TakesCurrent(w, s)
  {
    hide Inv, Next, After, Fits, RevealOf, Picked, AllCollected;
    ApplyEffect(w, s);
    ApplyIndex(w, s);
    if !OneShard(w.bracket.value) {
      var list := LiveIsCurrent(w, ShardResult(FINAL_SHARD_INDEX));
    }
  }

  lemma ApplyIndex(w: World, s: Step)
    requires s.ApplyResult? && Next(w, s).Ok?
    ensures w.bracket.Some? && (OneShard(w.bracket.value) || s.index == FINAL_SHARD_INDEX)
  {
    hide Picked, AllCollected, RecordError;
  }

  lemma StepTakesCurrent(w: World, s: Step)
    requires Inv(w) && Admissible(w, s)
    ensures TakesCurrent(w, s)
  {
    hide Inv, Next, Careful, TakesCurrent;
    if Next(w, s).Ok? && ReadFrom(w, s).Some? {
      if s.CollectShard? {
        CollectTakesCurrent(w, s);
      } else if s.CollectTier1? {
        Tier1TakesCurrent(w, s);
      } else if s.CollectSemifinal? {
        SemifinalTakesCurrent(w, s);
      } else {
        ApplyTakesCurrent(w, s);
      }
    } else {
      NothingTaken(w, s);
    }
  }

  lemma NothingTaken(w: World, s: Step)
    requires Next(w, s).Ok? ==> ReadFrom(w, s).None?
    ensures TakesCurrent(w, s)
  {
    hide Next, Takes;
  }

  lemma {:induction false} RunTakes(w: World, steps: seq<Step>)
    requires Inv(w) && AdmissibleRun(w, steps)
    ensures RunTakesCurrent(w, steps)
    decreases |steps|
  {
    hide Inv, Next, After, Admissible, TakesCurrent;
    if steps != [] {
      StepTakesCurrent(w, steps[0]);
      StepKeeps(w, steps[0]);
      RunTakes(After(w, steps[0]), steps[1..]);
    }
  }

  /** Stale results are inert: from an unstarted round, no collect and no apply of an admissible run
  ever takes a winner from a result that was computed for a list the pins would no longer accept. */
  lemma StaleResultsAreInert(w: World, steps: seq<Step>)
    requires Unstarted(w) && AdmissibleRun(w, steps)
    ensures RunTakesCurrent(w, steps)
  {
    hide Inv, AdmissibleRun, RunTakesCurrent;
    UnstartedInv(w);
    RunTakes(w, steps);
  }
}
