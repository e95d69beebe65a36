/** Two runs over three entries that end in a wrong podium: every instruction is accepted, and each
run neglects just one of the operator conditions. */
module MisrankedRuns {
  import opened Ranking
  import opened Circuit
  import opened Partition
  import opened Accounts
  import opened Instructions
  import opened RevealRun

  /** Two entries and fourteen padding slots: the third place is the first padding slot. */
  lemma TwoEntriesPlaces(ledger: Ledger, list: seq<Key>)
    requires Ascending(list) && |list| == 2 && forall x :: x in list ==> x in ledger
    ensures RevealOf(ledger, list).slots[0] < 2 && RevealOf(ledger, list).slots[1] < 2
    ensures RevealOf(ledger, list).slots[2] == 2
  {
    var k := ListKeys(ledger, list);
    var p := SlotPoints(k);
    RevealNamesPodium(ledger, list);
    forall j | j in Below(SLOTS) ensures Better(p, j, 2) <==> j == 0 || j == 1 {
      assert k[2] == 0;
      assert Beats(k, j, 2) == Better(p, j, 2);
      if j > 2 {
        assert k[j] == 0;
      }
    }
    assert Beaters(p, Below(SLOTS), 2) == {0, 1};
    assert SlotPlaced(k, 2, RevealOf(ledger, list).slots[2]);
    RankInjective(p, Below(SLOTS), RevealOf(ledger, list).slots[2], 2);
  }

  // ---- three entries, the last one best ----------------------------------------------------

  function ThreeEntries(): Ledger {
    map[1 := Entry(7, 11, true, 10, 0), 2 := Entry(7, 12, true, 20, 0), 3 := Entry(7, 13, true, 200, 0)]
  }

  function ThreeEntryRound(): World {
    World(Round(7, Closed, 3, 3, false, [0, 0, 0]), ThreeEntries(), None, None, map[], multiset{}, {})
  }

  predicate OfThree(w: World) {
    w.round == ThreeEntryRound().round && w.ledger == ThreeEntries()
  }

  function PinTwo(): Step {
    PinBracket(true, [2, 1, 0, 0], [1, 3, 0, 0], 2)
  }

  function PinOne(): Step {
    PinBracket(true, [3, 0, 0, 0], [1, 0, 0, 0], 1)
  }

  function TwoShards(stamp: nat): Bracket {
    Bracket(Layout([2, 1], [1, 3]), {}, [], false, false, stamp)
  }

  function OneShardOnly(stamp: nat): Bracket {
    Bracket(Layout([3], [1]), {}, [], false, false, stamp)
  }

  lemma LayoutsOfThree()
    ensures LayoutOk([2, 1, 0, 0], [1, 3, 0, 0], 2, MAX_SHARDS, 3)
    ensures LayoutOk([3, 0, 0, 0], [1, 0, 0, 0], 1, MAX_SHARDS, 3)
  {
    var two: seq<nat> := [2, 1, 0, 0];
    assert two[..2] == [2, 1];
    assert SumTo([2, 1], 0) == 0 && SumTo([2, 1], 1) == 2 && SumTo([2, 1], 2) == 3;
    var one: seq<nat> := [3, 0, 0, 0];
    assert one[..1] == [3];
    assert SumTo([3], 0) == 0 && SumTo([3], 1) == 3;
    var bounds: seq<Key> := [1, 3, 0, 0];
    assert bounds[..2] == [1, 3];
    var first: seq<Key> := [1, 0, 0, 0];
    assert first[..1] == [1];
  }

  lemma PinsOfThree(w: World)
    requires OfThree(w)
    ensures Next(w, PinTwo()) == Ok(w.(bracket := Some(TwoShards(NextStamp(BracketStamp(w)))), ground := {1, 2, 3}))
    ensures Next(w, PinOne()) == Ok(w.(bracket := Some(OneShardOnly(NextStamp(BracketStamp(w)))), ground := {1, 2, 3}))
  {
    LayoutsOfThree();
    assert Entrants(w) == {1, 2, 3};
    var two: seq<nat>, one: seq<nat> := [2, 1, 0, 0], [3, 0, 0, 0];
    var bounds: seq<Key>, first: seq<Key> := [1, 3, 0, 0], [1, 0, 0, 0];
    assert two[..2] == [2, 1] && one[..1] == [3] && bounds[..2] == [1, 3] && first[..1] == [1];
  }

  lemma RunOfThree(l: Layout, list: seq<Key>, needScored: bool)
    requires || (list == [1, 2] && l == Layout([2, 1], [1, 3]))
             || (list == [1, 2, 3] && l == Layout([3], [1]))
    ensures RunError(ThreeEntries(), 7, ShardAdmission(l, 0), needScored, list, 0) == None
  {
    RunAccepted(ThreeEntries(), 7, ShardAdmission(l, 0), needScored, list, 0);
  }

  lemma QueueOfThree(w: World, list: seq<Key>)
    requires OfThree(w) && w.bracket.Some?
    requires var l := w.bracket.value.layout;
             || (list == [1, 2] && l == Layout([2, 1], [1, 3]))
             || (list == [1, 2, 3] && l == Layout([3], [1]))
    ensures Next(w, QueueShard(true, 0, list)) == Ok(Queued(w, ShardResult(0), list, BracketStamp(w)))
  {
    RunOfThree(w.bracket.value.layout, list, true);
  }

  lemma BestOfThree()
    ensures RoundEntries(ThreeEntries(), 7) == {1, 2, 3}
    ensures Placed(PointsOf(ThreeEntries()), RoundEntries(ThreeEntries(), 7), 0, 3)
  {
    assert Beaters(PointsOf(ThreeEntries()), {1, 2, 3}, 3) == {};
  }

  /** The one-shard bracket is about to collect what ranked two of its three entries. */
  ghost predicate Misled(w: World) {
    && OfThree(w) && w.bracket == Some(OneShardOnly(BracketStamp(w)))
    && ShardResult(0) in w.results
    && w.results[ShardResult(0)] == Record(true, RevealOf(ThreeEntries(), [1, 2]), 0, BracketStamp(w))
  }

  /** Every step is accepted, only the given duty is neglected, and what is revealed is wrong. */
  ghost predicate CrownsWrongly(w: World, steps: seq<Step>, duty: Duty) {
    && Unstarted(w) && GoesThrough(w, steps, Some(duty))
    && Run(w, steps).round.revealed && !ExactTop(Standings(w), Entrants(w), Run(w, steps).round.top)
  }

  /** The best of the three is named third. */
  ghost predicate BestIsThird(v: World) {
    |v.round.top| == REVEAL_TOP_K && v.round.top[2] == 3
    && Placed(PointsOf(ThreeEntries()), RoundEntries(ThreeEntries(), 7), 0, 3)
  }

  lemma CollectMisled(w: World) returns (v: World)
    requires OfThree(w) && w.bracket == Some(OneShardOnly(BracketStamp(w)))
    requires ShardResult(0) in w.results && RecordError(w.results[ShardResult(0)], BracketStamp(w)) == None
    requires var s := w.results[ShardResult(0)].podium.slots; s[0] < 3 && s[1] < 3 && s[2] < 3
    ensures Next(w, CollectShard(true, 0, [1, 2, 3])) == Ok(v)
    ensures OfThree(v) && v.bracket.Some? && v.results == w.results
    ensures var s := w.results[ShardResult(0)].podium.slots;
            v.bracket.value == OneShardOnly(BracketStamp(w)).(collected := {0}, finalists := [s[0] + 1, s[1] + 1, s[2] + 1])
  {
    var b, list, slots := w.bracket.value, [1, 2, 3], w.results[ShardResult(0)].podium.slots;
    RunOfThree(b.layout, list, false);
    assert InRange(slots, 3, 3) == 3;
    v := w.(bracket := Some(WithWinners(b, 0, Picked(list, slots, 3))));
    assert Picked(list, slots, 3) == [slots[0] + 1, slots[1] + 1, slots[2] + 1];
  }

  lemma ApplyThree(w: World, top: seq<Key>)
    requires OfThree(w) && w.bracket.Some? && |top| == 3
    requires w.bracket.value == OneShardOnly(BracketStamp(w)).(collected := {0}, finalists := top)
    requires ShardResult(0) in w.results && RecordError(w.results[ShardResult(0)], BracketStamp(w)) == None
    ensures Next(w, ApplyResult(true, 0)).Ok? && After(w, ApplyResult(true, 0)).round == WithTop(w.round, top)
  {
    assert w.bracket.value.collected == Below(1);
    assert Picked(top, [0, 1, 2], 3) == top;
  }

  /** From there the best entry ends up third. */
  lemma MisledCrownsWrongly(steps: seq<Step>, w: World, duty: Duty)
    requires Leads(ThreeEntryRound(), steps, w, Some(duty)) && Misled(w)
    ensures var all := steps + [CollectShard(true, 0, [1, 2, 3])] + [ApplyResult(true, 0)];
            CrownsWrongly(ThreeEntryRound(), all, duty) && BestIsThird(Run(ThreeEntryRound(), all))
  {
    hide Next, After, Run, GoesThrough, RevealOf;
    var w0, podium := ThreeEntryRound(), RevealOf(ThreeEntries(), [1, 2]);
    TwoEntriesPlaces(ThreeEntries(), [1, 2]);
    var v := CollectMisled(w);
    AfterOk(w, CollectShard(true, 0, [1, 2, 3]));
    LeadsStep(w0, steps, w, CollectShard(true, 0, [1, 2, 3]), Some(duty));
    ApplyThree(v, v.bracket.value.finalists);
    LeadsStep(w0, steps + [CollectShard(true, 0, [1, 2, 3])], v, ApplyResult(true, 0), Some(duty));
    BestOfThree();
    var top := After(v, ApplyResult(true, 0)).round.top;
    if ExactTop(Standings(w0), Entrants(w0), top) {
      RankInjective(Standings(w0), Entrants(w0), 3, top[0]);
    }
  }

  // ---- a record queued while an older computation is still due ------------------------------

  /** Pin two shards and queue the first; pin one shard and queue it while the first computation
  is still in flight; collect what that one wrote. */
  function OverlappingQueues(): seq<Step> {
    [PinTwo()] + [QueueShard(true, 0, [1, 2])] + [PinOne()] + [QueueShard(true, 0, [1, 2, 3])]
    + [Callback(Computation(ShardResult(0), [1, 2], 1))]
    + [CollectShard(true, 0, [1, 2, 3])] + [ApplyResult(true, 0)]
  }

  /** Pin two shards and queue the first, on the way to either run. */
  lemma TwoShardsQueued(exempt: Option<Duty>) returns (w2: World)
    ensures Leads(ThreeEntryRound(), [PinTwo()] + [QueueShard(true, 0, [1, 2])], w2, exempt)
    ensures w2 == Queued(ThreeEntryRound().(bracket := Some(TwoShards(1)), ground := {1, 2, 3}), ShardResult(0), [1, 2], 1)
  {
    hide Next, After, Run, GoesThrough;
    var w0 := ThreeEntryRound();
    LeadsNowhere(w0, exempt);
    PinsOfThree(w0);
    AfterOk(w0, PinTwo());
    LeadsStep(w0, [], w0, PinTwo(), exempt);
    var w1 := After(w0, PinTwo());
    QueueOfThree(w1, [1, 2]);
    AfterOk(w1, QueueShard(true, 0, [1, 2]));
    assert [] + [PinTwo()] == [PinTwo()];
    LeadsStep(w0, [PinTwo()], w1, QueueShard(true, 0, [1, 2]), exempt);
    w2 := After(w1, QueueShard(true, 0, [1, 2]));
  }

  /** The first computation answers the second question, under a stamp that says it is current. */
  lemma OverlappingQueuesMisrank()
    ensures CrownsWrongly(ThreeEntryRound(), OverlappingQueues(), SettledQueues)
    ensures BestIsThird(Run(ThreeEntryRound(), OverlappingQueues()))
  {
    hide Next, After, Run, GoesThrough, RevealOf, CrownsWrongly;
    var w0, duty := ThreeEntryRound(), Some(SettledQueues);
    var w2 := TwoShardsQueued(duty);
    var s := [PinTwo()] + [QueueShard(true, 0, [1, 2])];
    PinsOfThree(w2);
    AfterOk(w2, PinOne());
    LeadsStep(w0, s, w2, PinOne(), duty);
    var w3 := After(w2, PinOne());
    QueueOfThree(w3, [1, 2, 3]);
    AfterOk(w3, QueueShard(true, 0, [1, 2, 3]));
    LeadsStep(w0, s + [PinOne()], w3, QueueShard(true, 0, [1, 2, 3]), duty);
    var w4, c := After(w3, QueueShard(true, 0, [1, 2, 3])), Computation(ShardResult(0), [1, 2], 1);
    CallbackGoes(w4, c);
    AfterOk(w4, Callback(c));
    LeadsStep(w0, s + [PinOne()] + [QueueShard(true, 0, [1, 2, 3])], w4, Callback(c), duty);
    MisledCrownsWrongly(s + [PinOne()] + [QueueShard(true, 0, [1, 2, 3])] + [Callback(c)], After(w4, Callback(c)), SettledQueues);
  }

  // ---- a stamp given out a second time -----------------------------------------------------

  function Times(n: nat, s: Step): seq<Step> {
    if n == 0 then [] else Times(n - 1, s) + [s]
  }

  /** Pin two shards, queue the first and let it answer; pin one shard so often that the counter is
  back where it was; collect the old answer. */
  function WrappedCounter(): seq<Step> {
    [PinTwo()] + [QueueShard(true, 0, [1, 2])] + [Callback(Computation(ShardResult(0), [1, 2], 1))]
    + Times(STAMPS, PinOne())
    + [CollectShard(true, 0, [1, 2, 3])] + [ApplyResult(true, 0)]
  }

  lemma {:induction false} PinnedTimes(w0: World, s: seq<Step>, w: World, n: nat)
    requires Leads(w0, s, w, Some(FreshPins)) && OfThree(w) && n > 0 && BracketStamp(w) == 1
    ensures Leads(w0, s + Times(n, PinOne()),
                  w.(bracket := Some(OneShardOnly((1 + n) % STAMPS)), ground := {1, 2, 3}), Some(FreshPins))
  {
    hide Next, After, Run, GoesThrough;
    var v := w;
    if n > 1 {
      PinnedTimes(w0, s, w, n - 1);
      v := w.(bracket := Some(OneShardOnly(n % STAMPS)), ground := {1, 2, 3});
    } else {
      assert s + Times(0, PinOne()) == s;
    }
    PinsOfThree(v);
    AfterOk(v, PinOne());
    LeadsStep(w0, s + Times(n - 1, PinOne()), v, PinOne(), Some(FreshPins));
    assert s + Times(n - 1, PinOne()) + [PinOne()] == s + Times(n, PinOne());
  }

  /** After 2^32 pins an old answer reads as current. */
  lemma WrappedCounterMisranks()
    ensures CrownsWrongly(ThreeEntryRound(), WrappedCounter(), FreshPins)
    ensures BestIsThird(Run(ThreeEntryRound(), WrappedCounter()))
  {
    hide Next, After, Run, GoesThrough, RevealOf, CrownsWrongly, Times;
    var w0, duty := ThreeEntryRound(), Some(FreshPins);
    var w2 := TwoShardsQueued(duty);
    var s, c := [PinTwo()] + [QueueShard(true, 0, [1, 2])], Computation(ShardResult(0), [1, 2], 1);
    CallbackGoes(w2, c);
    AfterOk(w2, Callback(c));
    LeadsStep(w0, s, w2, Callback(c), duty);
    var w3 := After(w2, Callback(c));
    PinnedTimes(w0, s + [Callback(c)], w3, STAMPS);
    MisledCrownsWrongly(s + [Callback(c)] + Times(STAMPS, PinOne()),
                        w3.(bracket := Some(OneShardOnly(1)), ground := {1, 2, 3}), FreshPins);
  }
}
