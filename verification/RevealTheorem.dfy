/** The promise of the bracket: a revealed round names exactly the first three of all its entries,
in every admissible run, whatever layouts were pinned and in whatever order shards came back. */
module RevealTheorem {
  import opened Ranking
  import opened Circuit
  import opened Partition
  import opened Accounts
  import opened Instructions
  import opened RevealRun
  import opened RevealInvariant
  import opened RevealSteps

  // ---- applying the result -----------------------------------------------------------------

  /** What all collected shards kept has the podium of the whole round. */
  lemma FinalistsCover(p: Points, q: Pins, b: Bracket)
    requires BracketSound(p, q, b) && AllCollected(b)
    ensures Exact(b.layout, q.ground)
    ensures Covers(p, q.entries, Members(b.finalists))
    ensures |b.finalists| <= MAX_FINALISTS
  {
    AllCollectedCovers(p, b.layout, q.ground, b.collected, Members(b.finalists));
    CoversTransitive(p, q.entries, q.ground, Members(b.finalists));
  }

  /** A covering set lists the same podium, and is just as long where it is short. */
  lemma CoveredTop(p: Points, entries: set<Key>, kept: set<Key>, top: seq<Key>)
    requires Covers(p, entries, kept) && |top| == REVEAL_TOP_K
    requires forall r :: 0 <= r < REVEAL_TOP_K ==>
               if r < |kept| then Placed(p, kept, r, top[r]) else top[r] == DEFAULT_KEY
    ensures ExactTop(p, entries, top)
  {
    CoversSize(p, entries, kept);
    forall r | 0 <= r < REVEAL_TOP_K
      ensures if r < |entries| then Placed(p, entries, r, top[r]) else top[r] == DEFAULT_KEY
    {
      if r < |entries| {
        CoversKeepsPodium(p, entries, kept, r, top[r]);
      }
    }
  }

  /** One shard: the finalists are read in rank order. */
  lemma SingleShardTop(p: Points, q: Pins, b: Bracket)
    requires BracketSound(p, q, b) && AllCollected(b) && !NeedsFinalReveal(b)
    ensures ExactTop(p, q.entries, Picked(b.finalists, [0, 1, 2], REVEAL_TOP_K))
  {
    FinalistsCover(p, q, b);
    assert 0 in b.collected;
    CoveredTop(p, q.entries, q.ground, Picked(b.finalists, [0, 1, 2], REVEAL_TOP_K));
  }

  /** Several shards: the final's slots index the ascending finalists. */
  lemma FinalTop(p: Points, q: Pins, b: Bracket, slots: seq<nat>)
    requires BracketSound(p, q, b) && AllCollected(b) && Ascending(b.finalists)
    requires NamesPodium(p, b.finalists, slots)
    ensures var m := Min(REVEAL_TOP_K, |b.finalists|);
            ExactTop(p, q.entries, Picked(b.finalists, slots, m) + seq(REVEAL_TOP_K - m, _ => DEFAULT_KEY))
  {
    hide GroundSound, FinalistsSound, AllCollected, ExactTop;
    var m := Min(REVEAL_TOP_K, |b.finalists|);
    var top := Picked(b.finalists, slots, m) + seq(REVEAL_TOP_K - m, _ => DEFAULT_KEY);
    FinalistsCover(p, q, b);
    MembersSize(b.finalists);
    forall r | 0 <= r < REVEAL_TOP_K && r < |b.finalists|
      ensures Placed(p, Members(b.finalists), r, top[r])
    {
      assert slots[r] < |b.finalists|;
    }
    CoveredTop(p, q.entries, Members(b.finalists), top);
  }

  lemma FinalRecordNamesPodium(w: World, b: Bracket)
    requires Inv(w) && w.bracket == Some(b) && AllCollected(b)
    requires ShardResult(FINAL_SHARD_INDEX) in w.results
    requires RecordError(w.results[ShardResult(FINAL_SHARD_INDEX)], b.generation) == None
    ensures b.finalQueued && Ascending(b.finalists)
    ensures NamesPodium(Standings(w), b.finalists, w.results[ShardResult(FINAL_SHARD_INDEX)].podium.slots)
  {
    var addr := ShardResult(FINAL_SHARD_INDEX);
    var list :| Fits(PinsOf(w), addr, list) && w.results[addr].podium == RevealOf(w.ledger, list);
    FinalistsCover(Standings(w), PinsOf(w), b);
    forall x | x in b.finalists ensures x in w.ledger {
      assert x in Members(b.finalists);
    }
    RevealNamesPodium(w.ledger, b.finalists);
  }

  lemma ApplyEffect(w: World, s: Step)
    requires s.ApplyResult? && Next(w, s).Ok?
    ensures w.bracket.Some? && AllCollected(w.bracket.value)
    ensures After(w, s) == w.(round := WithTop(w.round, After(w, s).round.top),
                              bracket := Some(w.bracket.value.(applied := true)))
    ensures var b, top := w.bracket.value, After(w, s).round.top;
            var m := Min(REVEAL_TOP_K, |b.finalists|);
            if OneShard(b) then top == Picked(b.finalists, [0, 1, 2], REVEAL_TOP_K)
            else && ShardResult(FINAL_SHARD_INDEX) in w.results
                 && var r := w.results[ShardResult(FINAL_SHARD_INDEX)];
                    && RecordError(r, b.generation) == None
                    && top == Picked(b.finalists, r.podium.slots, m) + seq(REVEAL_TOP_K - m, _ => DEFAULT_KEY)
  {
  }

  /** A pinned bracket has a shard, so "not one shard" and "needs a final" are the same. */
  lemma OneShardOrFinal(p: Points, q: Pins, b: Bracket)
    requires BracketSound(p, q, b)
    ensures OneShard(b) <==> !NeedsFinalReveal(b)
  {
  }

  lemma AppliedTop(w: World, s: Step)
    requires Inv(w) && s.ApplyResult? && Next(w, s).Ok?
    ensures ExactTop(Standings(w), Entrants(w), After(w, s).round.top)
  {
    hide Next, After, RecordsSound, BracketSound, Tier1Sound, NamesPodium, RecordError, ExactTop, Picked, AllCollected;
    ApplyEffect(w, s);
    var b := w.bracket.value;
    OneShardOrFinal(Standings(w), PinsOf(w), b);
    if NeedsFinalReveal(b) {
      FinalRecordNamesPodium(w, b);
      FinalTop(Standings(w), PinsOf(w), b, w.results[ShardResult(FINAL_SHARD_INDEX)].podium.slots);
    } else {
      SingleShardTop(Standings(w), PinsOf(w), b);
    }
  }

  lemma ApplyKeeps(w: World, s: Step)
    requires Inv(w) && s.ApplyResult? && Next(w, s).Ok?
    ensures Inv(After(w, s))
  {
    hide Next, After, GroundSound, WinnersSound, Tier1LayoutSound, Ranked, RoundEntries, ExactTop;
    AppliedTop(w, s);
    ApplyEffect(w, s);
    var v, b := After(w, s), w.bracket.value;
    assert FinalistsSound(Standings(w), w.ground, b) ==> FinalistsSound(Standings(w), w.ground, b.(applied := true));
    RecordsFrame(PinsOf(w), PinsOf(v), w);
  }

  // ---- every run ---------------------------------------------------------------------------

  lemma StepKeeps(w: World, s: Step)
    requires Inv(w) && Admissible(w, s)
    ensures Inv(After(w, s))
  {
    hide Inv, Next;
    if Next(w, s).Ok? {
      match s
      case PinBracket(_, _, _, _) => PinBracketKeeps(w, s);
      case QueueShard(_, _, _) => QueueShardKeeps(w, s);
      case CollectShard(_, _, _) => CollectShardKeeps(w, s);
      case ApplyResult(_, _) => ApplyKeeps(w, s);
      case PinTier1(_, _, _, _, _) => PinTier1Keeps(w, s);
      case CloseTier1Account(_) => CloseTier1Keeps(w, s);
      case QueueTier1(_, _, _) => QueueTier1Keeps(w, s);
      case CollectTier1(_, _, _) => CollectTier1Keeps(w, s);
      case Promote(_) => PromoteKeeps(w, s);
      case QueueSemifinal(_, _, _) => QueueSemifinalKeeps(w, s);
      case CollectSemifinal(_, _) => CollectSemifinalKeeps(w, s);
      case Callback(c) => CallbackKeeps(w, c);
      case Abort(c) => AbortKeeps(w, c);
    }
  }

  lemma CallbackKeeps(w: World, c: Computation)
    requires Inv(w) && Next(w, Callback(c)).Ok?
    ensures Inv(After(w, Callback(c)))
  {
    CallbackKeepsRecords(PinsOf(w), w, c);
  }

  lemma AbortKeeps(w: World, c: Computation)
    requires Inv(w) && Next(w, Abort(c)).Ok?
    ensures Inv(After(w, Abort(c)))
  {
    var v := After(w, Abort(c));
    forall d | d in v.inFlight ensures d in w.inFlight {
    }
  }

  lemma ApplyFrame(w: World, s: Step)
    requires s.ApplyResult? && Next(w, s).Ok?
    ensures !w.round.revealed && After(w, s).ledger == w.ledger && After(w, s).round.key == w.round.key
    ensures After(w, s).round.participantCount == w.round.participantCount
  {
    hide Picked, RecordError, AllCollected;
  }

  lemma QuietFrame(w: World, s: Step)
    requires !Queues(s) && !s.ApplyResult? && Next(w, s).Ok?
    ensures After(w, s).ledger == w.ledger && After(w, s).round == w.round
  {
    hide InitBracket, CollectShardWinners, InitTier1, CloseTier1, CollectTier1Winners, PromoteTier1, CollectSemifinalWinners,
         RevealOf, Queued;
  }

  /** Nothing in a reveal touches the entries, and a written podium is never rewritten. */
  lemma StepFrame(w: World, s: Step)
    ensures var v := After(w, s);
            && v.ledger == w.ledger && v.round.key == w.round.key
            && v.round.participantCount == w.round.participantCount
            && (w.round.revealed ==> v.round == w.round)
  {
    hide Next;
    if Next(w, s).Ok? {
      hide After;
      if Queues(s) {
        QueueEffect(w, s);
      } else if s.ApplyResult? {
        ApplyFrame(w, s);
      } else {
        QuietFrame(w, s);
      }
    }
  }

  lemma {:induction false} RunFrame(w: World, steps: seq<Step>)
    ensures Run(w, steps).ledger == w.ledger && Run(w, steps).round.key == w.round.key
    ensures Run(w, steps).round.participantCount == w.round.participantCount
    decreases |steps|
  {
    hide After;
    if steps != [] {
      StepFrame(w, steps[0]);
      RunFrame(After(w, steps[0]), steps[1..]);
    }
  }

  lemma {:induction false} RunKeeps(w: World, steps: seq<Step>)
    requires Inv(w) && AdmissibleRun(w, steps)
    ensures Inv(Run(w, steps))
    ensures Standings(Run(w, steps)) == Standings(w) && Entrants(Run(w, steps)) == Entrants(w)
    decreases |steps|
  {
    if steps != [] {
      StepKeeps(w, steps[0]);
      StepFrame(w, steps[0]);
      RunKeeps(After(w, steps[0]), steps[1..]);
    }
  }

  /** The theorem, for one tier and two alike: from an unstarted round of any size, through any
  admissible run, a revealed podium is the podium of all the entries. */
  lemma RevealIsExact(w: World, steps: seq<Step>)
    requires Unstarted(w) && AdmissibleRun(w, steps)
    ensures Run(w, steps).round.revealed ==> ExactTop(Standings(w), Entrants(w), Run(w, steps).round.top)
  {
    UnstartedInv(w);
    RunKeeps(w, steps);
  }

  // ---- consequences in every reachable state -----------------------------------------------

  /** Once every shard is collected, the list checked at queue time and the list checked at
  collect time can only be one and the same: the shard's entries in ascending order. */
  lemma QueueAndCollectAgree(w: World, k: nat, list: seq<Key>)
    requires Inv(w) && !TwoTier(w) && w.bracket.Some? && AllCollected(w.bracket.value)
    requires k < |w.bracket.value.layout.bounds|
    requires Accepts(w.bracket.value.layout, Entrants(w), k, list)
    ensures list == Sorted(Cell(w.bracket.value.layout, Entrants(w), k))
    ensures Exact(w.bracket.value.layout, Entrants(w))
  {
    FinalistsCover(Standings(w), PinsOf(w), w.bracket.value);
    AcceptedFillsCell(w.bracket.value.layout, Entrants(w), k, list);
  }

  /** The same for a tier 1 whose shards are all done. */
  lemma Tier1ListsAgree(w: World, t: Tier1, k: nat, list: seq<Key>)
    requires Inv(w) && w.tier1 == Some(t) && AllDone(t)
    requires k < |t.layout.bounds| && Accepts(t.layout, Entrants(w), k, list)
    ensures list == Sorted(Cell(t.layout, Entrants(w), k))
    ensures Exact(t.layout, Entrants(w))
  {
    hide RecordsSound, BracketSound;
    AllCollectedCovers(Standings(w), t.layout, Entrants(w), t.done, Members(t.winners));
    AcceptedFillsCell(t.layout, Entrants(w), k, list);
  }

  /** Queueing the final again, in any accepted order, changes nothing but the record. */
  lemma FinalRequeueIsHarmless(w: World, s: Step)
    requires Inv(w) && s.QueueShard? && s.index == FINAL_SHARD_INDEX && Next(w, s).Ok?
    requires w.bracket.value.finalQueued
    ensures After(w, s).bracket == w.bracket && s.list == w.bracket.value.finalists
  {
    QueueFinalEffect(w, s);
    FinalRunIsFinalistSet(w.ledger, w.round.key, w.bracket.value.finalists, s.list);
  }

  /** A one-shard bracket never sees a final, and once collected its finalists are in rank order
  over everything the bracket cuts up. */
  lemma OneShardKeepsRankOrder(w: World, b: Bracket)
    requires Inv(w) && w.bracket == Some(b) && |b.layout.bounds| == 1
    ensures !b.finalQueued
    ensures 0 in b.collected ==> InRankOrder(Standings(w), w.ground, b.finalists)
  {
    if 0 in b.collected {
      assert b.collected == Below(1);
      FinalistsCover(Standings(w), PinsOf(w), b);
    }
  }

  // ---- what reaches the cluster, and what is left after a reveal ----------------------------

  /** Whatever is in flight ranks distinct, scored entries of this round, few enough for a call. */
  predicate OnlyScoredInFlight(w: World) {
    forall c :: c in w.inFlight ==> ScoredRun(w, c.list)
  }

  predicate ScoredRun(w: World, list: seq<Key>) {
    && Ascending(list) && |list| <= MAX_REVEAL_ACCOUNT_REFS
    && forall x :: x in list ==> x in Entrants(w) && w.ledger[x].scored
  }

  lemma AcceptedShardRun(w: World, l: Layout, k: nat, list: seq<Key>)
    requires k < |l.bounds| && |list| == l.sizes[k] <= MAX_REVEAL_ACCOUNT_REFS
    requires RunError(w.ledger, w.round.key, ShardAdmission(l, k), true, list, 0) == None
    ensures ScoredRun(w, list)
  {
    ShardRunMeansAccepts(w.ledger, w.round.key, l, k, true, list);
  }

  lemma AcceptedFinalRun(w: World, finalists: seq<Key>, list: seq<Key>)
    requires |list| == |finalists| <= MAX_REVEAL_ACCOUNT_REFS
    requires RunError(w.ledger, w.round.key, Among(finalists), true, list, 0) == None
    ensures ScoredRun(w, list)
  {
    FinalRunIsFinalistSet(w.ledger, w.round.key, finalists, list);
    RunIsScored(w.ledger, w.round.key, Among(finalists), list);
  }

  lemma QueuedShardIsScored(w: World, s: Step)
    requires s.QueueShard? && Next(w, s).Ok?
    ensures ScoredRun(w, s.list)
  {
    var b := w.bracket.value;
    if s.index == FINAL_SHARD_INDEX {
      AcceptedFinalRun(w, b.finalists, s.list);
    } else {
      AcceptedShardRun(w, b.layout, s.index, s.list);
    }
  }

  lemma RunIsScored(ledger: Ledger, round: Key, a: Admission, list: seq<Key>)
    requires RunError(ledger, round, a, true, list, 0) == None
    ensures forall x :: x in list ==> x in RoundEntries(ledger, round) && ledger[x].scored
  {
    RunAccepted(ledger, round, a, true, list, 0);
    forall x | x in list ensures x in RoundEntries(ledger, round) && ledger[x].scored {
      var i :| 0 <= i < |list| && list[i] == x;
      assert ElementError(ledger, round, a, true, list, i) == None;
    }
  }

  lemma QueueSemifinalRun(w: World, s: Step)
    requires s.QueueSemifinal? && Next(w, s).Ok?
    ensures w.tier1.Some? && w.tier1.value.promoted && w.bracket.Some? && s.index < |w.bracket.value.layout.sizes|
    ensures var slice := SemifinalSlice(w.tier1.value, w.bracket.value, s.index);
            |s.list| == |slice| && RunError(w.ledger, w.round.key, Exactly(slice), true, s.list, 0) == None
  {
  }

  lemma SliceAscends(w: World, k: nat)
    requires Inv(w) && w.tier1.Some? && w.tier1.value.promoted && w.bracket.Some? && k < |w.bracket.value.layout.sizes|
    ensures Ascending(SemifinalSlice(w.tier1.value, w.bracket.value, k))
    ensures w.bracket.value.layout.sizes[k] <= MAX_SHARD_SIZE
  {
    hide RecordsSound, SemifinalSlice;
    SemifinalSliceAccepted(w.tier1.value, w.bracket.value, k);
  }

  lemma QueuedSemifinalIsScored(w: World, s: Step)
    requires Inv(w) && s.QueueSemifinal? && Next(w, s).Ok?
    ensures ScoredRun(w, s.list)
  {
    hide Inv, Next, SemifinalSlice, RunError, Ascending;
    QueueSemifinalRun(w, s);
    var slice := SemifinalSlice(w.tier1.value, w.bracket.value, s.index);
    SliceRunIsSlice(w.ledger, w.round.key, slice, s.list);
    RunIsScored(w.ledger, w.round.key, Exactly(slice), s.list);
    SliceAscends(w, s.index);
  }

  lemma QueuesOnlyScored(w: World, s: Step)
    requires Inv(w) && OnlyScoredInFlight(w)
    ensures OnlyScoredInFlight(After(w, s))
  {
    hide Inv, ScoredRun, Next, After;
    var v := After(w, s);
    StepFrame(w, s);
    NewInFlight(w, s);
    if Queues(s) && Next(w, s).Ok? {
      QueuedIsScored(w, s);
    }
    forall c | c in v.inFlight ensures ScoredRun(v, c.list) {
      SameEntries(w, v, c.list);
    }
  }

  /** Nothing but a queue step starts a computation, and that one over the list it was given. */
  lemma NewInFlight(w: World, s: Step)
    ensures forall c :: c in After(w, s).inFlight ==> c in w.inFlight || (Queues(s) && Next(w, s).Ok? && c.list == s.list)
  {
    if Next(w, s).Ok? {
      if Queues(s) {
        hide Next, After;
        QueueEffect(w, s);
      } else if !s.Callback? && !s.Abort? {
        hide Next, After;
        QuietEffect(w, s);
      } else {
        hide RevealOf;
      }
    }
  }

  lemma QueuedIsScored(w: World, s: Step)
    requires Inv(w) && Queues(s) && Next(w, s).Ok?
    ensures ScoredRun(w, s.list)
  {
    hide Inv, ScoredRun, Next;
    if s.QueueShard? {
      QueuedShardIsScored(w, s);
    } else if s.QueueTier1? {
      QueuedTier1IsScored(w, s);
    } else {
      QueuedSemifinalIsScored(w, s);
    }
  }

  lemma QueuedTier1IsScored(w: World, s: Step)
    requires Inv(w) && s.QueueTier1? && Next(w, s).Ok?
    ensures ScoredRun(w, s.list)
  {
    hide RunError, ScoredRun;
    AcceptedShardRun(w, w.tier1.value.layout, s.index, s.list);
  }

  /** No unscored entry, no stranger and no repeated entry ever reaches the cluster, and never more
  entries than a call can carry. */
  lemma {:induction false} OnlyScoredEntriesAreRanked(w: World, steps: seq<Step>)
    requires Inv(w) && OnlyScoredInFlight(w) && AdmissibleRun(w, steps)
    ensures OnlyScoredInFlight(Run(w, steps))
    decreases |steps|
  {
    hide Inv, Next, After, Admissible, OnlyScoredInFlight;
    if steps != [] {
      StepKeeps(w, steps[0]);
      QueuesOnlyScored(w, steps[0]);
      OnlyScoredEntriesAreRanked(After(w, steps[0]), steps[1..]);
    }
  }

  lemma SameEntries(w: World, v: World, list: seq<Key>)
    requires v.ledger == w.ledger && v.round.key == w.round.key
    ensures ScoredRun(v, list) <==> ScoredRun(w, list)
  {
  }

  /** Once a round is revealed its result stands, and nothing is pinned, queued, closed or applied
  any more; what the program still accepts is collecting, promoting and landing callbacks. */
  lemma AfterRevealOnlyCollects(w: World, s: Step)
    requires w.round.revealed && Next(w, s).Ok?
    ensures s.CollectShard? || s.CollectTier1? || s.Promote? || s.CollectSemifinal? || s.Callback? || s.Abort?
    ensures After(w, s).round == w.round
  {
  }
}
