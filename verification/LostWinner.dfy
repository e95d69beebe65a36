/** Why a promoted bracket has to be collected by the semifinal instruction: the plain one lets any
run of entries stand in for a semifinal, and a winner left out of it is lost for good. */
module LostWinner {
  import opened Ranking
  import opened Partition
  import opened Accounts
  import opened Instructions
  import opened RevealRun
  import opened RevealInvariant
  import opened RevealSteps
  import opened RevealTheorem
  import opened RevealProgress
  import opened RevealHypotheses

  /** A promoted tier 1 is the one the layout was computed from. */
  predicate LayoutOfWinners(w: World, l: Layout) {
    w.tier1.Some? && w.tier1.value.promoted ==>
      && w.tier1.value.winners != [] && Ascending(w.tier1.value.winners)
      && l == PromotedLayout(w.tier1.value.winners)
  }

  /** Shard k of the bracket is collected, x belongs to it, and x is not among the finalists. */
  ghost predicate Lost(w: World, k: nat, x: Key) {
    && TwoTier(w) && x != DEFAULT_KEY && w.bracket.Some?
    && LostIn(w.bracket.value, k, x) && LayoutOfWinners(w, w.bracket.value.layout)
    && (w.round.revealed ==> x !in w.round.top)
  }

  ghost predicate LostIn(b: Bracket, k: nat, x: Key) {
    && WellFormed(b.layout) && k < |b.layout.bounds| && k in b.collected
    && InInterval(b.layout, k, x) && x !in b.finalists
  }

  // ---- lost is lost ------------------------------------------------------------------------

  lemma PickedElsewhere(b: Bracket, k: nat, x: Key, j: nat, list: seq<Key>, slots: seq<nat>, take: nat)
    requires LostIn(b, k, x) && j < |b.layout.bounds| && j !in b.collected && take <= |slots|
    requires forall i :: 0 <= i < |list| ==> InInterval(b.layout, j, list[i])
    requires forall q :: 0 <= q < take ==> slots[q] < |list|
    ensures LostIn(WithWinners(b, j, Picked(list, slots, take)), k, x)
  {
    var picked := Picked(list, slots, take);
    forall q | 0 <= q < take ensures picked[q] != x {
      assert picked[q] == list[slots[q]];
      if picked[q] == x {
        IntervalsDisjoint(b.layout, j, k, x);
      }
    }
  }

  lemma LostThroughCollect(w: World, s: Step, k: nat, x: Key)
    requires Lost(w, k, x) && s.CollectShard? && Next(w, s).Ok?
    ensures Lost(After(w, s), k, x)
  {
    hide Next, After, Picked, RunError;
    CollectShardResult(w, s);
    var b, slots := w.bracket.value, w.results[ShardResult(s.index)].podium.slots;
    ShardRunMeansAccepts(w.ledger, w.round.key, b.layout, s.index, false, s.list);
    PickedElsewhere(b, k, x, s.index, s.list, slots, Min(SHARD_WINNERS, |s.list|));
  }

  lemma CollectSemifinalSlots(w: World, s: Step)
    requires s.CollectSemifinal? && Next(w, s).Ok?
    ensures w.tier1.Some? && w.bracket.Some? && SemiResult(s.index) in w.results && s.index < |w.bracket.value.layout.sizes|
    ensures var slice := SemifinalSlice(w.tier1.value, w.bracket.value, s.index);
            forall q :: 0 <= q < Min(SHARD_WINNERS, |slice|) ==> w.results[SemiResult(s.index)].podium.slots[q] < |slice|
  {
    hide Picked, SumTo, BufferAt;
  }

  lemma LostThroughSemifinal(w: World, s: Step, k: nat, x: Key)
    requires Lost(w, k, x) && s.CollectSemifinal? && Next(w, s).Ok?
    ensures Lost(After(w, s), k, x)
  {
    hide Next, After, Picked, SemifinalSlice, PromotedLayout, RecordError;
    CollectSemifinalEffect(w, s);
    CollectSemifinalSlots(w, s);
    var t, b, slots := w.tier1.value, w.bracket.value, w.results[SemiResult(s.index)].podium.slots;
    var slice := SemifinalSlice(t, b, s.index);
    SemifinalSliceAccepted(t, b, s.index);
    PickedElsewhere(b, k, x, s.index, slice, slots, Min(SHARD_WINNERS, |slice|));
  }

  lemma LostThroughQueue(w: World, s: Step, k: nat, x: Key)
    requires Lost(w, k, x) && Queues(s) && Next(w, s).Ok?
    ensures Lost(After(w, s), k, x)
  {
    hide Next, After, PromotedLayout, InInterval, Ascending;
    QueueEffect(w, s);
    if s.QueueShard? && s.index == FINAL_SHARD_INDEX {
      QueueFinalEffect(w, s);
      FinalRunIsFinalistSet(w.ledger, w.round.key, w.bracket.value.finalists, s.list);
      assert x in s.list <==> x in Members(s.list);
    }
  }

  lemma LostThroughApply(w: World, s: Step, k: nat, x: Key)
    requires Lost(w, k, x) && s.ApplyResult? && Next(w, s).Ok?
    ensures Lost(After(w, s), k, x)
  {
    hide Next, After, PromotedLayout, InInterval, Ascending, AllCollected;
    ApplyEffect(w, s);
  }

  lemma LostThroughTier1(w: World, s: Step, k: nat, x: Key)
    requires Lost(w, k, x) && (s.PinTier1? || s.CloseTier1Account? || s.CollectTier1?) && Next(w, s).Ok?
    ensures Lost(After(w, s), k, x)
  {
    hide PromotedLayout, InInterval, Ascending, LayoutOk, WinnersUpTo, InsertAll, Picked, RunError, RecordError, InRange;
  }

  lemma LostStays(w: World, s: Step, k: nat, x: Key)
    requires Lost(w, k, x) && !s.Promote?
    ensures Lost(After(w, s), k, x)
  {
    hide Lost, Next;
    if Next(w, s).Ok? {
      match s
      case PinBracket(_, _, _, _) => LostIsTwoTier(w, k, x); OneTierPinRefused(w, s);
      case QueueShard(_, _, _) => LostThroughQueue(w, s, k, x);
      case QueueTier1(_, _, _) => LostThroughQueue(w, s, k, x);
      case QueueSemifinal(_, _, _) => LostThroughQueue(w, s, k, x);
      case CollectShard(_, _, _) => LostThroughCollect(w, s, k, x);
      case CollectSemifinal(_, _) => LostThroughSemifinal(w, s, k, x);
      case ApplyResult(_, _) => LostThroughApply(w, s, k, x);
      case PinTier1(_, _, _, _, _) => LostThroughTier1(w, s, k, x);
      case CloseTier1Account(_) => LostThroughTier1(w, s, k, x);
      case CollectTier1(_, _, _) => LostThroughTier1(w, s, k, x);
      case Callback(_) => LostThroughLanding(w, s, k, x);
      case Abort(_) => LostThroughLanding(w, s, k, x);
    }
  }

  lemma LostIsTwoTier(w: World, k: nat, x: Key)
    requires Lost(w, k, x)
    ensures TwoTier(w)
  {
  }

  lemma LostThroughLanding(w: World, s: Step, k: nat, x: Key)
    requires Lost(w, k, x) && (s.Callback? || s.Abort?)
    ensures Lost(After(w, s), k, x)
  {
    hide PromotedLayout, InInterval, Ascending, RevealOf;
  }

  lemma {:induction false} LostForever(w: World, steps: seq<Step>, k: nat, x: Key)
    requires Lost(w, k, x) && forall i :: 0 <= i < |steps| ==> !steps[i].Promote?
    ensures Lost(Run(w, steps), k, x)
    ensures Standings(Run(w, steps)) == Standings(w) && Entrants(Run(w, steps)) == Entrants(w)
    decreases |steps|
  {
    hide Lost, After;
    if steps != [] {
      LostStays(w, steps[0], k, x);
      StepFrame(w, steps[0]);
      LostForever(After(w, steps[0]), steps[1..], k, x);
    }
  }

  /** Short of promoting anew, nothing brings a lost entry back: if it belongs on the podium, every
  continuation that ends revealed ends wrong. */
  lemma LostIsMisranked(w: World, steps: seq<Step>, k: nat, x: Key)
    requires Lost(w, k, x) && forall i :: 0 <= i < |steps| ==> !steps[i].Promote?
    requires x in TopThree(Standings(w), Entrants(w))
    ensures var v := Run(w, steps); v.round.revealed ==> !ExactTop(Standings(w), Entrants(w), v.round.top)
  {
    LostForever(w, steps, k, x);
    var p, entries, v := Standings(w), Entrants(w), Run(w, steps);
    if v.round.revealed && ExactTop(p, entries, v.round.top) {
      RankInRange(p, entries, x);
      RankInjective(p, entries, x, v.round.top[Rank(p, entries, x)]);
    }
  }

  // ---- how the plain instruction loses one -------------------------------------------------

  /** Exactly what it loses: in any reachable state with a promoted bracket, an accepted plain collect
  loses an entry of its interval if and only if its result does not name it. */
  lemma PlainCollectLoses(w: World, s: Step, x: Key)
    requires Inv(w) && w.tier1.Some? && w.tier1.value.promoted && !w.round.revealed && x != DEFAULT_KEY
    requires s.CollectShard? && Next(w, s).Ok? && w.bracket.Some? && s.index < |w.bracket.value.layout.bounds|
    requires InInterval(w.bracket.value.layout, s.index, x)
    ensures ShardResult(s.index) in w.results
    ensures Lost(After(w, s), s.index, x)
       <==> x !in Picked(s.list, w.results[ShardResult(s.index)].podium.slots, Min(SHARD_WINNERS, |s.list|))
  {
    hide Inv, Next, After, RunError, Picked, LayoutOfWinners, InInterval;
    CollectShardResult(w, s);
    PromotedFacts(w);
    NotYetCollected(w, s.index, x);
    LayoutOfWinnersKept(w, After(w, s));
  }

  lemma PlainQueueEffect(w: World, k: nat, list: seq<Key>)
    requires w.bracket.Some? && !w.round.revealed && k < |w.bracket.value.layout.bounds| <= MAX_SHARDS
    requires SizesInRange(w.bracket.value.layout.sizes) && |list| == w.bracket.value.layout.sizes[k]
    requires RunError(w.ledger, w.round.key, ShardAdmission(w.bracket.value.layout, k), true, list, 0) == None
    ensures Next(w, QueueShard(true, k, list)) == Ok(Queued(w, ShardResult(k), list, BracketStamp(w)))
  {
  }

  /** A fresh computation over an accepted run can always be collected with the same run. */
  lemma PlainCollectGoesThrough(w: World, k: nat, list: seq<Key>)
    requires w.bracket.Some? && k < |w.bracket.value.layout.bounds| && k !in w.bracket.value.collected
    requires |list| == w.bracket.value.layout.sizes[k] <= SLOTS
    requires RunError(w.ledger, w.round.key, ShardAdmission(w.bracket.value.layout, k), true, list, 0) == None
    requires |w.bracket.value.finalists| + SHARD_WINNERS <= MAX_FINALISTS
    requires ShardResult(k) in w.results
    requires w.results[ShardResult(k)] == Record(true, RevealOf(w.ledger, list), 0, BracketStamp(w))
    ensures var b, slots := w.bracket.value, RevealOf(w.ledger, list).slots;
            && Next(w, CollectShard(true, k, list))
               == Ok(w.(bracket := Some(WithWinners(b, k, Picked(list, slots, Min(SHARD_WINNERS, |list|))))))
            && forall q :: 0 <= q < Min(SHARD_WINNERS, |list|) ==> slots[q] < |list|
  {
    hide RevealOf, SumTo, RunError, Next, InRange, NamesPodium, Picked, ShardAdmission;
    var l := w.bracket.value.layout;
    ShardRunMeansAccepts(w.ledger, w.round.key, l, k, true, list);
    ShardRunMeansAccepts(w.ledger, w.round.key, l, k, false, list);
    RevealNamesPodium(w.ledger, list);
    SlotsInRange(PointsOf(w.ledger), list, RevealOf(w.ledger, list).slots, |list|);
    CollectShardAnswer(w, k, list);
  }

  lemma CollectShardAnswer(w: World, k: nat, list: seq<Key>)
    requires w.bracket.Some? && k < |w.bracket.value.layout.bounds| && k !in w.bracket.value.collected
    requires ShardResult(k) in w.results && |list| == w.bracket.value.layout.sizes[k]
    requires RecordError(w.results[ShardResult(k)], BracketStamp(w)) == None
    requires RunError(w.ledger, w.round.key, ShardAdmission(w.bracket.value.layout, k), false, list, 0) == None
    requires |w.bracket.value.finalists| + SHARD_WINNERS <= MAX_FINALISTS
    requires var slots, take := w.results[ShardResult(k)].podium.slots, Min(SHARD_WINNERS, |list|);
             InRange(slots, take, |list|) == take
    ensures var b, slots := w.bracket.value, w.results[ShardResult(k)].podium.slots;
            Next(w, CollectShard(true, k, list))
            == Ok(w.(bracket := Some(WithWinners(b, k, Picked(list, slots, Min(SHARD_WINNERS, |list|))))))
  {
    hide RunError, RecordError, InRange, Picked, ShardAdmission, WithWinners;
  }

  /** The three steps: queue an accepted run for semifinal k by the plain instruction, let it answer,
  collect it by the plain instruction. */
  function PlainSteps(w: World, k: nat, list: seq<Key>): seq<Step> {
    [QueueShard(true, k, list)] + [Callback(Computation(ShardResult(k), list, BracketStamp(w)))]
    + [CollectShard(true, k, list)]
  }

  lemma PlainRecord(w: World, k: nat, list: seq<Key>) returns (v: World)
    requires w.bracket.Some? && Next(w, QueueShard(true, k, list)) == Ok(Queued(w, ShardResult(k), list, BracketStamp(w)))
    requires NoOtherListDue(w, ShardResult(k), list, BracketStamp(w))
    ensures Leads(w, [QueueShard(true, k, list)] + [Callback(Computation(ShardResult(k), list, BracketStamp(w)))], v, None)
    ensures v == w.(results := w.results[ShardResult(k) := Record(true, RevealOf(w.ledger, list), 0, BracketStamp(w))])
  {
    hide RevealOf, Run, GoesThrough;
    var s, c := QueueShard(true, k, list), Computation(ShardResult(k), list, BracketStamp(w));
    LeadsNowhere(w, None);
    LeadsStep(w, [], w, s, None);
    assert [] + [s] == [s];
    var u := After(w, s);
    LeadsStep(w, [s], u, Callback(c), None);
    v := After(u, Callback(c));
    assert v.inFlight == w.inFlight;
  }

  lemma NotYetCollected(w: World, k: nat, x: Key)
    requires Inv(w) && TwoTier(w) && w.bracket.Some? && k < |w.bracket.value.layout.bounds|
    requires k !in w.bracket.value.collected && InInterval(w.bracket.value.layout, k, x)
    ensures x !in w.bracket.value.finalists && WellFormed(w.bracket.value.layout)
    ensures |w.bracket.value.finalists| + SHARD_WINNERS <= MAX_FINALISTS
    ensures |w.bracket.value.layout.bounds| <= MAX_SHARDS
  {
    hide RecordsSound, WinnersSound, Distinct;
    var b := w.bracket.value;
    RoomForFinalists(b, k);
    if x in b.finalists {
      assert x in Members(b.finalists);
      var j :| j in b.collected && j < |b.layout.bounds| && x in TopThree(Standings(w), Cell(b.layout, w.ground, j));
      assert x in Cell(b.layout, w.ground, j);
      IntervalsDisjoint(b.layout, j, k, x);
    }
  }

  lemma PromotedFacts(w: World)
    requires Inv(w) && w.tier1.Some? && w.tier1.value.promoted
    ensures TwoTier(w) && w.bracket.Some? && LayoutOfWinners(w, w.bracket.value.layout)
  {
  }

  /** In any reachable state with a promoted bracket: any accepted run of entries stands in for an
  uncollected semifinal, and an entry of its interval left out of that run is lost. */
  lemma PlainCollectDropsWinner(w: World, k: nat, list: seq<Key>, x: Key) returns (v: World)
    requires Inv(w) && w.tier1.Some? && w.tier1.value.promoted && w.bracket.Some? && !w.round.revealed && x != DEFAULT_KEY
    requires k < |w.bracket.value.layout.bounds| && k !in w.bracket.value.collected
    requires |list| == w.bracket.value.layout.sizes[k] && NoOtherListDue(w, ShardResult(k), list, BracketStamp(w))
    requires RunError(w.ledger, w.round.key, ShardAdmission(w.bracket.value.layout, k), true, list, 0) == None
    requires InInterval(w.bracket.value.layout, k, x) && x !in list
    ensures Leads(w, PlainSteps(w, k, list), v, Some(SemifinalCollects)) && Lost(v, k, x)
    ensures var slots := RevealOf(w.ledger, list).slots;
            && v.bracket == Some(WithWinners(w.bracket.value, k, Picked(list, slots, Min(SHARD_WINNERS, |list|))))
            && v == w.(bracket := v.bracket, results := v.results)
  {
    hide Inv, Next, After, Run, GoesThrough, RunError, RevealOf, NextStamp, Picked, LayoutOfWinners, InInterval;
    var b := w.bracket.value;
    PromotedFacts(w);
    NotYetCollected(w, k, x);
    PlainQueueEffect(w, k, list);
    var u := PlainRecord(w, k, list);
    var two, s := PlainSteps(w, k, list)[..2], CollectShard(true, k, list);
    assert two == [QueueShard(true, k, list)] + [Callback(Computation(ShardResult(k), list, BracketStamp(w)))];
    CarefulGoes(w, two, u, Some(SemifinalCollects));
    PlainCollectGoesThrough(u, k, list);
    LeadsStep(w, two, u, s, Some(SemifinalCollects));
    assert two + [s] == PlainSteps(w, k, list);
    v := After(u, s);
    AfterOk(u, s);
    PickedFromRun(list, RevealOf(w.ledger, list).slots, Min(SHARD_WINNERS, |list|));
    LayoutOfWinnersKept(w, v);
  }

  lemma LayoutOfWinnersKept(w: World, v: World)
    requires w.bracket.Some? && LayoutOfWinners(w, w.bracket.value.layout) && v.tier1 == w.tier1
    ensures LayoutOfWinners(v, w.bracket.value.layout)
  {
  }

  lemma PickedFromRun(list: seq<Key>, slots: seq<nat>, take: nat)
    requires take <= |slots| && forall q :: 0 <= q < take ==> slots[q] < |list|
    ensures forall y :: y in Picked(list, slots, take) ==> y in list
  {
    forall q | 0 <= q < take ensures Picked(list, slots, take)[q] in list {
    }
  }
}
