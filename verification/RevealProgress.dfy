/** What cannot go wrong in a reachable state: the late refusals of collect and promote are never
taken, so an instruction that passes its guards goes through. */
module RevealProgress {
  import opened Ranking
  import opened Circuit
  import opened Partition
  import opened Accounts
  import opened Instructions
  import opened RevealRun
  import opened RevealInvariant
  import opened RevealSteps
  import opened RevealTheorem

  // ---- slots are always in range -----------------------------------------------------------

  lemma SlotsInRange(p: Points, ranked: seq<Key>, slots: seq<nat>, size: nat)
    requires NamesPodium(p, ranked, slots) && |ranked| == size
    ensures InRange(slots, Min(SHARD_WINNERS, size), size) == Min(SHARD_WINNERS, size)
    ensures forall q :: 0 <= q < Min(SHARD_WINNERS, size) ==> slots[q] < size
  {
  }

  /** Distinct places name distinct entries, in whichever accepted list they are read. */
  lemma PickedAreDistinct(p: Points, ranked: seq<Key>, slots: seq<nat>, list: seq<Key>)
    requires NamesPodium(p, ranked, slots) && |ranked| == |list| && Ascending(list)
    ensures var picked := Picked(list, slots, Min(SHARD_WINNERS, |list|));
            forall q, r :: 0 <= q < r < |picked| ==> picked[q] != picked[r]
  {
    var picked := Picked(list, slots, Min(SHARD_WINNERS, |list|));
    forall q, r | 0 <= q < r < |picked| ensures picked[q] != picked[r] {
      PodiumSlotsDistinct(p, ranked, slots, q, r);
      assert slots[q] < |list| && slots[r] < |list|;
    }
  }

  // ---- single tier -------------------------------------------------------------------------

  /** The guards of collect_shard_winners, without its two refusals inside the slot loop. */
  predicate ShardCollectable(w: World, s: Step)
    requires s.CollectShard?
  {
    && s.ok && w.bracket.Some? && ShardResult(s.index) in w.results
    && var b, r := w.bracket.value, w.results[ShardResult(s.index)];
       && s.index < |b.layout.sizes| && s.index !in b.collected
       && RecordError(r, b.generation) == None
       && |s.list| == b.layout.sizes[s.index]
       && RunError(w.ledger, w.round.key, ShardAdmission(b.layout, s.index), false, s.list, 0) == None
  }

  lemma RoomForFinalists(b: Bracket, k: nat)
    requires b.collected <= Below(|b.layout.bounds|) && |b.finalists| <= SHARD_WINNERS * |b.collected|
    requires |b.layout.bounds| <= MAX_SHARDS && k < |b.layout.bounds| && k !in b.collected
    ensures |b.finalists| + SHARD_WINNERS <= MAX_FINALISTS
  {
    SubsetSize(b.collected + {k}, Below(|b.layout.bounds|));
  }

  /** Past the guards only the slots themselves can still be objected to. */
  lemma ShardCollectAnswer(w: World, s: Step)
    requires s.CollectShard?
    ensures Next(w, s).Ok? <==>
              && ShardCollectable(w, s)
              && PushError(w.results[ShardResult(s.index)].podium.slots, Min(SHARD_WINNERS, |s.list|), |s.list|,
                           |w.bracket.value.finalists|, MAX_FINALISTS) == None
  {
    hide RunError, RecordError, PushError, Picked, ShardAdmission, WithWinners;
  }

  lemma ShardSlotsFit(w: World, b: Bracket, k: nat)
    requires Inv(w) && !TwoTier(w) && w.bracket == Some(b) && k < |b.layout.sizes| && k !in b.collected
    requires ShardResult(k) in w.results && RecordError(w.results[ShardResult(k)], b.generation) == None
    ensures PushError(w.results[ShardResult(k)].podium.slots, Min(SHARD_WINNERS, b.layout.sizes[k]), b.layout.sizes[k],
                      |b.finalists|, MAX_FINALISTS) == None
  {
    hide NamesPodium, Kept, InRange, Filled, Distinct, Exact, DueFit, QueuedFit;
    var ranked := RecordNamesPodium(PinsOf(w), w.ledger, w.round.key, w.results, ShardResult(k), b.layout, w.ground, k);
    SlotsInRange(Standings(w), ranked, w.results[ShardResult(k)].podium.slots, b.layout.sizes[k]);
    RoomForFinalists(b, k);
  }

  lemma ShardCollectNeverJams(w: World, s: Step)
    requires Inv(w) && !TwoTier(w) && s.CollectShard?
    ensures Next(w, s).Ok? <==> ShardCollectable(w, s)
  {
    hide Inv, Next, RunError, RecordError, PushError;
    ShardCollectAnswer(w, s);
    if ShardCollectable(w, s) {
      ShardSlotsFit(w, w.bracket.value, s.index);
    }
  }

  // ---- tier 1 ------------------------------------------------------------------------------

  predicate Tier1Collectable(w: World, s: Step)
    requires s.CollectTier1?
  {
    && s.ok && w.tier1.Some? && ShardResult(s.index) in w.results
    && var t, r := w.tier1.value, w.results[ShardResult(s.index)];
       && !t.promoted && s.index < |t.layout.sizes| && s.index !in t.done
       && RecordError(r, t.generation) == None
       && |s.list| == t.layout.sizes[s.index]
       && RunError(w.ledger, w.round.key, ShardAdmission(t.layout, s.index), false, s.list, 0) == None
  }

  lemma {:induction false} InsertAllAccepts(winners: seq<Key>, keys: seq<Key>)
    requires Ascending(winners) && |winners| + |keys| <= MAX_TIER1_WINNERS
    requires forall q :: 0 <= q < |keys| ==> keys[q] !in winners
    requires forall q, r :: 0 <= q < r < |keys| ==> keys[q] != keys[r]
    ensures InsertAll(winners, keys).Some?
    decreases keys
  {
    if keys != [] {
      InsertWinnerResult(winners, keys[0]);
      var next := InsertWinner(winners, keys[0]).value;
      forall q | 0 <= q < |keys[1..]| ensures keys[1..][q] !in next {
        assert keys[1..][q] == keys[q + 1];
        assert keys[q + 1] in next <==> keys[q + 1] in Members(next);
      }
      InsertAllAccepts(next, keys[1..]);
    }
  }

  lemma {:induction false} WinnersOfBounds(sizes: seq<nat>, done: set<nat>, m: nat)
    requires m <= |sizes|
    ensures WinnersOf(sizes, done, m) <= SHARD_WINNERS * m
    ensures m > 0 && SizesInRange(sizes) && (forall k :: 0 <= k < m ==> k in done) ==> WinnersOf(sizes, done, m) >= 1
  {
    if m > 0 {
      WinnersOfBounds(sizes, done, m - 1);
    }
  }

  lemma RoomForWinners(t: Tier1, k: nat)
    requires |t.layout.bounds| <= MAX_TIER1_SHARDS && k < |t.layout.sizes| && k !in t.done
    requires |t.winners| == WinnersOf(t.layout.sizes, t.done, |t.layout.sizes|)
    ensures |t.winners| + Min(SHARD_WINNERS, t.layout.sizes[k]) <= MAX_TIER1_WINNERS
  {
    WinnersOfStep(t.layout.sizes, t.done, k, |t.layout.sizes|);
    WinnersOfBounds(t.layout.sizes, t.done + {k}, |t.layout.sizes|);
  }

  /** Entries of an uncollected shard are in nobody's interval but its own. */
  lemma NewWinners(p: Points, e: set<Key>, t: Tier1, k: nat, list: seq<Key>)
    requires Tier1LayoutSound(e, t.layout) && WinnersSound(p, e, t)
    requires k < |t.layout.bounds| && k !in t.done && Accepts(t.layout, e, k, list)
    ensures forall x :: x in list ==> x !in t.winners
  {
    forall x | x in list && x in t.winners ensures false {
      var j :| j in t.done && j < |t.layout.bounds| && InInterval(t.layout, j, x);
      IntervalsDisjoint(t.layout, j, k, x);
    }
  }

  /** Past the guards only a slot or insert_winner_sorted could still refuse. */
  lemma Tier1CollectAnswer(w: World, s: Step)
    requires s.CollectTier1?
    ensures Next(w, s).Ok? <==>
              && Tier1Collectable(w, s)
              && var slots, take := w.results[ShardResult(s.index)].podium.slots, Min(SHARD_WINNERS, |s.list|);
                 InRange(slots, take, |s.list|) == take && InsertAll(w.tier1.value.winners, Picked(s.list, slots, take)).Some?
  {
    hide RunError, InRange, Picked, InsertAll, ShardAdmission;
  }

  lemma Tier1Record(w: World, t: Tier1, k: nat) returns (ranked: seq<Key>)
    requires Inv(w) && w.tier1 == Some(t) && k < |t.layout.sizes|
    requires ShardResult(k) in w.results && RecordError(w.results[ShardResult(k)], t.generation) == None
    ensures Accepts(t.layout, Entrants(w), k, ranked)
    ensures NamesPodium(Standings(w), ranked, w.results[ShardResult(k)].podium.slots)
  {
    hide NamesPodium, Kept, Exact, DueFit, QueuedFit, WinnersOf;
    ranked := RecordNamesPodium(PinsOf(w), w.ledger, w.round.key, w.results, ShardResult(k), t.layout, Entrants(w), k);
  }

  lemma Tier1SlotsFit(w: World, t: Tier1, k: nat, list: seq<Key>)
    requires Inv(w) && w.tier1 == Some(t) && k < |t.layout.sizes| && k !in t.done
    requires ShardResult(k) in w.results && RecordError(w.results[ShardResult(k)], t.generation) == None
    requires Accepts(t.layout, Entrants(w), k, list)
    ensures var slots, take := w.results[ShardResult(k)].podium.slots, Min(SHARD_WINNERS, |list|);
            InRange(slots, take, |list|) == take && InsertAll(t.winners, Picked(list, slots, take)).Some?
  {
    var slots, p := w.results[ShardResult(k)].podium.slots, Standings(w);
    Tier1IsSound(w, t);
    var ranked := Tier1Record(w, t, k);
    hide Inv, RecordError, InRange, InsertAll, NamesPodium, Picked, WinnersOf, Kept, Exact;
    SlotsInRange(p, ranked, slots, |list|);
    PickedAreDistinct(p, ranked, slots, list);
    PickedFromList(p, list, ranked, slots);
    NewWinners(p, Entrants(w), t, k, list);
    RoomForWinners(t, k);
    InsertAllAccepts(t.winners, Picked(list, slots, Min(SHARD_WINNERS, |list|)));
  }

  lemma Tier1IsSound(w: World, t: Tier1)
    requires Inv(w) && w.tier1 == Some(t)
    ensures Tier1LayoutSound(Entrants(w), t.layout) && WinnersSound(Standings(w), Entrants(w), t)
  {
  }

  /** insert_winner_sorted never refuses, and no revealed slot is ever out of range. */
  lemma Tier1CollectNeverJams(w: World, s: Step)
    requires Inv(w) && s.CollectTier1?
    ensures Next(w, s).Ok? <==> Tier1Collectable(w, s)
  {
    hide Inv, Next, RunError, RecordError, InRange, InsertAll, Picked, Accepts;
    Tier1CollectAnswer(w, s);
    if Tier1Collectable(w, s) {
      var t := w.tier1.value;
      ShardRunMeansAccepts(w.ledger, w.round.key, t.layout, s.index, false, s.list);
      Tier1SlotsFit(w, t, s.index, s.list);
    }
  }

  /** In any collection order: the winners are the ascending list of the collected shards' first
  three; once every shard is in, the layout was a true partition. */
  lemma WinnersAreShardWinners(w: World)
    requires Inv(w) && w.tier1.Some? && AllDone(w.tier1.value)
    ensures var t := w.tier1.value;
            && Exact(t.layout, Entrants(w)) && Ascending(t.winners)
            && forall x :: x in t.winners <==>
                 exists k :: 0 <= k < |t.layout.bounds| && x in TopThree(Standings(w), Cell(t.layout, Entrants(w), k))
  {
    var t := w.tier1.value;
    AllCollectedCovers(Standings(w), t.layout, Entrants(w), t.done, Members(t.winners));
    forall k, x | 0 <= k < |t.layout.bounds| && x in TopThree(Standings(w), Cell(t.layout, Entrants(w), k))
      ensures x in t.winners
    {
      assert x in Members(t.winners);
    }
    forall x | x in t.winners
      ensures exists k :: 0 <= k < |t.layout.bounds| && x in TopThree(Standings(w), Cell(t.layout, Entrants(w), k))
    {
      assert x in Members(t.winners);
    }
  }

  /** Promotion refuses only an unfinished or an already promoted tier. */
  lemma PromotionNeverJams(w: World, s: Step)
    requires Inv(w) && s.Promote?
    ensures Next(w, s).Ok? <==> s.ok && w.tier1.Some? && !w.tier1.value.promoted && AllDone(w.tier1.value)
  {
    if w.tier1.Some? && AllDone(w.tier1.value) {
      var t := w.tier1.value;
      WinnersOfBounds(t.layout.sizes, t.done, |t.layout.sizes|);
    }
  }

  /** The promoted partition: sizes in 1..13 that sum to the winners, every semifinal starting at
  the winner its cursor names, as even as possible, and at most four of them. */
  lemma PromotionIsBalanced(w: World, s: Step)
    requires Inv(w) && s.Promote? && Next(w, s).Ok?
    ensures After(w, s).bracket.Some?
    ensures var winners, l := w.tier1.value.winners, After(w, s).bracket.value.layout;
            && 1 <= |l.sizes| <= MAX_SHARDS && SizesInRange(l.sizes) && Sum(l.sizes) == |winners|
            && (forall j, k :: 0 <= j < |l.sizes| && 0 <= k < |l.sizes| ==> l.sizes[j] <= l.sizes[k] + 1)
            && (forall k :: 0 <= k < |l.sizes| ==>
                  SumTo(l.sizes, k) < |winners| && l.bounds[k] == winners[SumTo(l.sizes, k)])
  {
    hide Inv, SumTo, WinnersUpTo, AllDone;
    var winners, l := w.tier1.value.winners, After(w, s).bracket.value.layout;
    BalancedSizesFit(|winners|, MAX_SHARD_SIZE);
    forall k | 0 <= k < |l.sizes| ensures SumTo(l.sizes, k) < |winners| && l.bounds[k] == winners[SumTo(l.sizes, k)] {
      SumToStrict(l.sizes, k, |l.sizes|);
    }
  }

  // ---- semifinals --------------------------------------------------------------------------

  predicate SemifinalCollectable(w: World, s: Step)
    requires s.CollectSemifinal?
  {
    && s.ok && w.tier1.Some? && w.bracket.Some? && SemiResult(s.index) in w.results
    && var b, r := w.bracket.value, w.results[SemiResult(s.index)];
       && w.tier1.value.promoted && s.index < |b.layout.sizes| && s.index !in b.collected
       && RecordError(r, b.generation) == None
  }

  lemma SliceInsideBuffer(t: Tier1, b: Bracket, k: nat)
    requires t.winners != [] && b.layout == PromotedLayout(t.winners) && k < |b.layout.sizes|
    ensures SumTo(b.layout.sizes, k) + b.layout.sizes[k] <= |t.winners|
  {
    BalancedSizesFit(|t.winners|, MAX_SHARD_SIZE);
    SumToStrict(b.layout.sizes, k, |b.layout.sizes|);
  }

  lemma WinnersFitBuffer(p: Points, e: set<Key>, t: Tier1)
    requires Tier1LayoutSound(e, t.layout) && WinnersSound(p, e, t)
    ensures |t.winners| <= MAX_TIER1_WINNERS
  {
    WinnersOfBounds(t.layout.sizes, t.done, |t.layout.sizes|);
  }

  lemma SemifinalSlotsResolve(w: World, t: Tier1, b: Bracket, k: nat)
    requires Inv(w) && w.tier1 == Some(t) && w.bracket == Some(b) && t.promoted
    requires k < |b.layout.sizes| && k !in b.collected
    requires SemiResult(k) in w.results && RecordError(w.results[SemiResult(k)], b.generation) == None
    ensures var slots, take := w.results[SemiResult(k)].podium.slots, Min(SHARD_WINNERS, b.layout.sizes[k]);
            && (forall q :: 0 <= q < take ==>
                  slots[q] < b.layout.sizes[k] && SumTo(b.layout.sizes, k) + slots[q] < MAX_TIER1_WINNERS)
            && |b.finalists| + take <= MAX_FINALISTS
  {
    hide RecordsSound, WinnersOf, RecordError, NamesPodium, SumTo, Kept;
    var ranked := SemifinalRecord(w, t, b, k);
    SlotsInRange(Standings(w), ranked, w.results[SemiResult(k)].podium.slots, b.layout.sizes[k]);
    SliceInsideBuffer(t, b, k);
    WinnersFitBuffer(Standings(w), Entrants(w), t);
    RoomForFinalists(b, k);
  }

  lemma SemifinalCollectNeverJams(w: World, s: Step)
    requires Inv(w) && s.CollectSemifinal?
    ensures Next(w, s).Ok? <==> SemifinalCollectable(w, s)
  {
    hide Inv, SemifinalSlice, Picked;
    if SemifinalCollectable(w, s) {
      SemifinalSlotsResolve(w, w.tier1.value, w.bracket.value, s.index);
    }
  }

  // ---- the end -----------------------------------------------------------------------------

  /** Applying refuses only what is unfinished, stale or done: a revealed slot always resolves. */
  predicate Applicable(w: World, s: Step)
    requires s.ApplyResult?
  {
    && s.ok && w.bracket.Some? && !w.bracket.value.applied && !w.round.revealed
    && (forall k :: 0 <= k < |w.bracket.value.layout.sizes| ==> k in w.bracket.value.collected)
    && s.index == (if NeedsFinalReveal(w.bracket.value) then FINAL_SHARD_INDEX else 0)
    && ShardResult(s.index) in w.results
    && RecordError(w.results[ShardResult(s.index)], w.bracket.value.generation) == None
  }

  lemma AllCollectedIsEvery(p: Points, ground: set<Key>, b: Bracket)
    requires FinalistsSound(p, ground, b)
    ensures AllCollected(b) <==> forall k :: 0 <= k < |b.layout.sizes| ==> k in b.collected
  {
  }

  lemma ApplyNeverJams(w: World, s: Step)
    requires Inv(w) && s.ApplyResult?
    ensures Next(w, s).Ok? <==> Applicable(w, s)
  {
    hide Inv, Next, Applicable, NamesPodium;
    if w.bracket.Some? {
      SoundBracket(w, w.bracket.value);
      ApplyAnswer(w, s);
    } else {
      NothingToApply(w, s);
    }
    if Applicable(w, s) {
      ApplicableFacts(w, s);
      if NeedsFinalReveal(w.bracket.value) {
        FinalSlotsResolve(w, w.bracket.value);
      } else {
        OneShardKeepsRankOrder(w, w.bracket.value);
      }
    }
  }

  lemma NothingToApply(w: World, s: Step)
    requires s.ApplyResult? && w.bracket.None?
    ensures Next(w, s).Err? && !Applicable(w, s)
  {
  }

  lemma SoundBracket(w: World, b: Bracket)
    requires Inv(w) && w.bracket == Some(b)
    ensures |b.layout.sizes| >= 1
    ensures AllCollected(b) <==> forall k :: 0 <= k < |b.layout.sizes| ==> k in b.collected
  {
    AllCollectedIsEvery(Standings(w), w.ground, b);
  }

  lemma ApplicableFacts(w: World, s: Step)
    requires s.ApplyResult? && Applicable(w, s)
    ensures w.bracket.Some? && ShardResult(s.index) in w.results
    ensures forall k :: 0 <= k < |w.bracket.value.layout.sizes| ==> k in w.bracket.value.collected
    ensures s.index == if NeedsFinalReveal(w.bracket.value) then FINAL_SHARD_INDEX else 0
    ensures RecordError(w.results[ShardResult(s.index)], w.bracket.value.generation) == None
  {
  }

  lemma FinalSlotsResolve(w: World, b: Bracket)
    requires Inv(w) && w.bracket == Some(b) && AllCollected(b)
    requires ShardResult(FINAL_SHARD_INDEX) in w.results
    requires RecordError(w.results[ShardResult(FINAL_SHARD_INDEX)], b.generation) == None
    ensures b.finalQueued
    ensures forall q :: 0 <= q < Min(REVEAL_TOP_K, |b.finalists|) ==>
              w.results[ShardResult(FINAL_SHARD_INDEX)].podium.slots[q] < |b.finalists|
  {
    hide Inv, AllCollected, RecordError;
    FinalRecordNamesPodium(w, b);
  }

  /** Past the guards only the order of the final and its slots could still be objected to. */
  lemma ApplyAnswer(w: World, s: Step)
    requires s.ApplyResult? && w.bracket.Some? && |w.bracket.value.layout.sizes| >= 1
    requires var b := w.bracket.value; AllCollected(b) <==> forall k :: 0 <= k < |b.layout.sizes| ==> k in b.collected
    ensures Next(w, s).Ok? <==>
              && Applicable(w, s)
              && var b, n := w.bracket.value, |w.bracket.value.finalists|;
                 if NeedsFinalReveal(b) then
                   b.finalQueued
                   && forall q :: 0 <= q < Min(REVEAL_TOP_K, n) ==> w.results[ShardResult(s.index)].podium.slots[q] < n
                 else !b.finalQueued
  {
    hide Picked, AllCollected, RecordError;
  }
}
