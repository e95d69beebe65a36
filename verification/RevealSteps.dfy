/** Every admissible step keeps the invariant of the reveal. */
module RevealSteps {
  import opened Ranking
  import opened Partition
  import opened Accounts
  import opened Instructions
  import opened RevealRun
  import opened RevealInvariant

  // ---- what a step writes ------------------------------------------------------------------

  predicate Queues(s: Step) {
    s.QueueShard? || s.QueueTier1? || s.QueueSemifinal?
  }

  /** The record a queue step resets. */
  function QueuedAddr(s: Step): Addr
    requires Queues(s)
  {
    if s.QueueSemifinal? then SemiResult(s.index) else ShardResult(s.index)
  }

  /** The stamp it writes there. */
  function QueuedStamp(w: World, s: Step): nat
    requires Queues(s)
  {
    if s.QueueTier1? then Tier1Stamp(w) else BracketStamp(w)
  }

  /** Queueing resets one record, starts one computation, and touches no pin but the order of the
  finalists. */
  lemma QueueEffect(w: World, s: Step)
    requires Queues(s) && Next(w, s).Ok?
    ensures if s.QueueTier1? then w.tier1.Some? else w.bracket.Some?
    ensures var v := After(w, s);
            && v == Queued(w.(bracket := v.bracket), QueuedAddr(s), s.list, QueuedStamp(w, s))
            && (w.bracket.Some? ==> v.bracket.Some? && BracketStamp(v) == BracketStamp(w))
            && (!s.QueueShard? || s.index != FINAL_SHARD_INDEX ==> v.bracket == w.bracket)
  {
    hide QueueShardReveal, QueueTier1ShardReveal, QueueSemifinalReveal;
    if s.QueueShard? {
      QueueShardAnswer(w, s);
    } else if s.QueueTier1? {
      QueueTier1Answer(w, s);
    } else {
      QueueSemifinalAnswer(w, s);
    }
  }

  lemma QueueTier1Answer(w: World, s: Step)
    requires s.QueueTier1? && Next(w, s).Ok?
    ensures w.tier1.Some?
    ensures QueueTier1ShardReveal(s.ok, w.round, w.ledger, w.tier1.value, s.index, s.list) == Ok(Tier1Stamp(w))
  {
    hide RunError, ShardAdmission, Queued;
  }

  lemma QueueSemifinalAnswer(w: World, s: Step)
    requires s.QueueSemifinal? && Next(w, s).Ok?
    ensures w.tier1.Some? && w.bracket.Some?
    ensures QueueSemifinalReveal(s.ok, w.round, w.ledger, w.tier1.value, w.bracket.value, s.index, s.list) == Ok(BracketStamp(w))
  {
    hide RunError, SemifinalSlice, SumTo, Queued;
  }

  lemma QueueShardAnswer(w: World, s: Step)
    requires s.QueueShard? && Next(w, s).Ok?
    ensures w.bracket.Some?
    ensures var r := QueueShardReveal(s.ok, w.round, w.ledger, w.bracket.value, s.index, s.list);
            && r.Ok? && r.value == w.bracket.value.(finalists := r.value.finalists, finalQueued := r.value.finalQueued)
            && (s.index != FINAL_SHARD_INDEX ==> r.value == w.bracket.value)
  {
    hide RunError, ShardAdmission, AllCollected, Queued;
  }

  /** Nothing but queueing and landing writes records or starts and ends computations. */
  lemma QuietEffect(w: World, s: Step)
    requires !Queues(s) && !s.Callback? && !s.Abort? && Next(w, s).Ok?
    ensures After(w, s).results == w.results && After(w, s).inFlight == w.inFlight
  {
    hide InitBracket, CollectShardWinners, ApplyBracketResult, InitTier1, CloseTier1, CollectTier1Winners, PromoteTier1,
         CollectSemifinalWinners, Queued;
  }

  // ---- computations ------------------------------------------------------------------------

  lemma QueuedKeepsRecords(q: Pins, w: World, addr: Addr, list: seq<Key>, stamp: nat)
    requires RecordsSound(q, w.ledger, w.results, w.inFlight)
    requires LiveStamp(q, addr) == Some(stamp) ==> Fits(q, addr, list)
    requires NoOtherListDue(w, addr, list, stamp)
    ensures var v := Queued(w, addr, list, stamp); RecordsSound(q, v.ledger, v.results, v.inFlight)
  {
    var v := Queued(w, addr, list, stamp);
    forall c | c in v.inFlight ensures c in w.inFlight || c == Computation(addr, list, stamp) {
    }
  }

  lemma CallbackKeepsRecords(q: Pins, w: World, c: Computation)
    requires RecordsSound(q, w.ledger, w.results, w.inFlight)
    requires Next(w, Callback(c)).Ok?
    ensures var v := After(w, Callback(c)); RecordsSound(q, v.ledger, v.results, v.inFlight)
  {
    var v := After(w, Callback(c));
    forall d | d in v.inFlight ensures d in w.inFlight {
    }
    if LiveStamp(q, c.addr) == Some(v.results[c.addr].generation) {
      assert Fits(q, c.addr, c.list);
      assert Ranked(q, v.ledger, c.addr, v.results[c.addr].podium);
    }
  }

  /** Other pins with the same live stamps accept the same records while what fits only grows. */
  lemma RecordsFrame(q: Pins, q': Pins, w: World)
    requires RecordsSound(q, w.ledger, w.results, w.inFlight)
    requires forall a :: LiveStamp(q', a).Some? ==> LiveStamp(q', a) == LiveStamp(q, a)
    requires forall a, list :: Fits(q, a, list) && LiveStamp(q', a).Some? ==> Fits(q', a, list)
    ensures RecordsSound(q', w.ledger, w.results, w.inFlight)
  {
    forall a | a in w.results && w.results[a].ready && LiveStamp(q', a) == Some(w.results[a].generation)
      ensures Ranked(q', w.ledger, a, w.results[a].podium)
    {
      var list :| Fits(q, a, list) && w.results[a].podium == RevealOf(w.ledger, list);
      assert Fits(q', a, list);
    }
  }

  /** A stamp nothing carries makes every record and computation of that tracker inert. */
  lemma FreshKeepsRecords(q: Pins, q': Pins, w: World, g: nat)
    requires RecordsSound(q, w.ledger, w.results, w.inFlight) && FreshStamp(w, g)
    requires forall a :: LiveStamp(q', a) == Some(g) ||
               (LiveStamp(q', a) == LiveStamp(q, a) && forall list :: Fits(q, a, list) ==> Fits(q', a, list))
    ensures RecordsSound(q', w.ledger, w.results, w.inFlight)
  {
    forall a | a in w.results && w.results[a].ready && LiveStamp(q', a) == Some(w.results[a].generation)
      ensures Ranked(q', w.ledger, a, w.results[a].podium)
    {
      var list :| Fits(q, a, list) && w.results[a].podium == RevealOf(w.ledger, list);
      assert Fits(q', a, list);
    }
  }

  // ---- pinning -----------------------------------------------------------------------------

  lemma {:induction false} SumAtMost(s: seq<nat>, m: nat)
    requires SizesInRange(s) && m <= |s|
    ensures SumTo(s, m) <= MAX_SHARD_SIZE * m
  {
    if m > 0 {
      SumAtMost(s, m - 1);
    }
  }

  /** One tier cannot be pinned for a round that needs two. */
  lemma LayoutOkIsWellFormed(sizes: seq<nat>, bounds: seq<Key>, count: nat, max: nat, total: nat)
    requires LayoutOk(sizes, bounds, count, max, total)
    ensures var l := Layout(sizes[..count], bounds[..count]);
            WellFormed(l) && |l.bounds| <= max && Sum(l.sizes) == total
    ensures total <= MAX_SHARD_SIZE * max
  {
    SumAtMost(sizes[..count], count);
  }

  lemma PinBracketKeeps(w: World, s: Step)
    requires Inv(w) && s.PinBracket? && Admissible(w, s) && Next(w, s).Ok?
    ensures Inv(After(w, s))
  {
    var v := After(w, s);
    LayoutOkIsWellFormed(s.sizes, s.bounds, s.count, MAX_SHARDS, w.round.participantCount);
    assert !TwoTier(w);
    NothingCollectedYet(Standings(w), Entrants(w), v.bracket.value.layout, w.bracket);
    FreshKeepsRecords(PinsOf(w), PinsOf(v), w, v.bracket.value.generation);
  }

  lemma {:induction false} NothingDoneYet(sizes: seq<nat>, m: nat)
    requires m <= |sizes|
    ensures WinnersOf(sizes, {}, m) == 0
  {
    if m > 0 {
      NothingDoneYet(sizes, m - 1);
    }
  }

  lemma PinTier1Keeps(w: World, s: Step)
    requires Inv(w) && s.PinTier1? && Admissible(w, s) && Next(w, s).Ok?
    ensures Inv(After(w, s))
  {
    var v := After(w, s);
    var t := v.tier1.value;
    LayoutOkIsWellFormed(s.sizes, s.bounds, s.count, MAX_TIER1_SHARDS, w.round.participantCount);
    NothingDoneYet(t.layout.sizes, |t.layout.sizes|);
    assert Kept(Standings(w), t.layout, Entrants(w), {}, Members([]));
    assert WinnersSound(Standings(w), Entrants(w), t);
    FreshKeepsRecords(PinsOf(w), PinsOf(v), w, t.generation);
  }

  lemma CloseTier1Keeps(w: World, s: Step)
    requires Inv(w) && s.CloseTier1Account? && Next(w, s).Ok?
    ensures Inv(After(w, s))
  {
    RecordsFrame(PinsOf(w), PinsOf(After(w, s)), w);
  }

  lemma PromotedGround(p: Points, entries: set<Key>, t: Tier1)
    requires Tier1LayoutSound(entries, t.layout) && WinnersSound(p, entries, t) && AllDone(t) && t.winners != []
    requires BalancedCount(|t.winners|, MAX_SHARD_SIZE) <= MAX_SHARDS
    ensures GroundSound(p, entries, Members(t.winners), true, PromotedLayout(t.winners))
  {
    var n := |t.winners|;
    AllCollectedCovers(p, t.layout, entries, t.done, Members(t.winners));
    BalancedSizesFit(n, MAX_SHARD_SIZE);
    SliceLayoutExact(t.winners, BalancedSizes(n, MAX_SHARD_SIZE));
    MembersSize(t.winners);
  }

  lemma NothingCollectedYet(p: Points, ground: set<Key>, layout: Layout, prior: Option<Bracket>)
    ensures FinalistsSound(p, ground, FreshBracket(layout, prior))
  {
    assert Kept(p, layout, ground, {}, Members([]));
  }

  lemma PromoteKeepsPins(p: Points, q: Pins, prior: Option<Bracket>, t: Tier1, b: Bracket)
    requires Tier1Sound(p, q, t) && PromoteTier1(true, t, prior) == Ok(b) && b.generation != t.generation
    ensures PinsSound(p, Pins(true, q.entries, Some(b), Some(t.(promoted := true)), Members(t.winners)))
  {
    PromotedGround(p, q.entries, t);
    NothingCollectedYet(p, Members(t.winners), PromotedLayout(t.winners), prior);
  }

  lemma PromoteEffect(w: World, s: Step)
    requires s.Promote? && Next(w, s).Ok?
    ensures w.tier1.Some? && w.tier1.value.winners != []
    ensures var t, b := w.tier1.value, FreshBracket(PromotedLayout(w.tier1.value.winners), w.bracket);
            && PromoteTier1(true, t, w.bracket) == Ok(b)
            && After(w, s) == w.(bracket := Some(b), tier1 := Some(t.(promoted := true)), ground := Members(t.winners))
  {
    hide PromotedLayout;
  }

  /** A tier 1 that exists makes the round a two-tier one. */
  lemma Tier1MeansTwoTier(w: World)
    requires Inv(w) && w.tier1.Some?
    ensures TwoTier(w) && Tier1Sound(Standings(w), PinsOf(w), w.tier1.value)
  {
  }

  /** Only the pins have changed: their soundness and the records' is all the invariant asks. */
  lemma InvFromParts(w: World, v: World)
    requires Inv(w) && v == w.(bracket := v.bracket, tier1 := v.tier1, ground := v.ground)
    requires PinsSound(Standings(w), PinsOf(v)) && RecordsSound(PinsOf(v), w.ledger, w.results, w.inFlight)
    ensures Inv(v)
  {
    hide PinsSound, RecordsSound;
  }

  lemma PromotedPins(w: World, v: World)
    requires v == w.(bracket := v.bracket, tier1 := v.tier1, ground := v.ground) && TwoTier(w)
    ensures PinsOf(v) == Pins(true, Entrants(w), v.bracket, v.tier1, v.ground)
  {
  }

  lemma PromoteKeepsRecords(w: World, v: World, t: Tier1, b: Bracket)
    requires RecordsSound(PinsOf(w), w.ledger, w.results, w.inFlight) && TwoTier(w) && w.tier1 == Some(t)
    requires v == w.(bracket := Some(b), tier1 := Some(t.(promoted := true)), ground := v.ground)
    requires FreshStamp(w, b.generation)
    ensures RecordsSound(PinsOf(v), w.ledger, w.results, w.inFlight)
  {
    FreshKeepsRecords(PinsOf(w), PinsOf(v), w, b.generation);
  }

  lemma PromoteKeeps(w: World, s: Step)
    requires Inv(w) && s.Promote? && Admissible(w, s) && Next(w, s).Ok?
    ensures Inv(After(w, s))
  {
    hide Inv, Next, After, PinsSound, RecordsSound, PromotedLayout, Entrants, Tier1Sound, Members;
    PromoteEffect(w, s);
    Tier1MeansTwoTier(w);
    var v, t := After(w, s), w.tier1.value;
    InvRecords(w);
    PromoteKeepsPins(Standings(w), PinsOf(w), w.bracket, t, v.bracket.value);
    PromotedPins(w, v);
    PromoteKeepsRecords(w, v, t, v.bracket.value);
    InvFromParts(w, v);
  }

  lemma InvRecords(w: World)
    requires Inv(w)
    ensures RecordsSound(PinsOf(w), w.ledger, w.results, w.inFlight)
  {
  }

  // ---- queueing ----------------------------------------------------------------------------

  /** Queueing the final again writes the very same ascending list. */
  lemma FinalQueuedSound(p: Points, q: Pins, w: World, b: Bracket, list: seq<Key>)
    requires PinsSound(p, q) && q.bracket == Some(b) && RecordsSound(q, w.ledger, w.results, w.inFlight)
    requires AllCollected(b) && NeedsFinalReveal(b) && |list| == |b.finalists|
    requires Ascending(list) && Members(list) == Members(b.finalists) && (Ascending(b.finalists) ==> list == b.finalists)
    ensures var u := q.(bracket := Some(b.(finalists := list, finalQueued := true)));
            PinsSound(p, u) && RecordsSound(u, w.ledger, w.results, w.inFlight)
  {
    var c := b.(finalists := list, finalQueued := true);
    var u := q.(bracket := Some(c));
    assert FinalistsSound(p, q.ground, c);
    RecordsFrame(q, u, w);
  }

  lemma QueueShardKeeps(w: World, s: Step)
    requires Inv(w) && s.QueueShard? && Admissible(w, s) && Next(w, s).Ok?
    ensures Inv(After(w, s))
  {
    if s.index == FINAL_SHARD_INDEX {
      QueueFinalKeeps(w, s);
    } else {
      var b := w.bracket.value;
      ShardRunMeansAccepts(w.ledger, w.round.key, b.layout, s.index, true, s.list);
      QueuedKeepsRecords(PinsOf(w), w, ShardResult(s.index), s.list, b.generation);
    }
  }

  lemma QueueFinalEffect(w: World, s: Step)
    requires s.QueueShard? && s.index == FINAL_SHARD_INDEX && Next(w, s).Ok?
    ensures w.bracket.Some?
    ensures var b := w.bracket.value;
            && AllCollected(b) && NeedsFinalReveal(b) && |s.list| == |b.finalists|
            && RunError(w.ledger, w.round.key, Among(b.finalists), true, s.list, 0) == None
            && After(w, s) == Queued(w.(bracket := Some(b.(finalists := s.list, finalQueued := true))),
                                     ShardResult(FINAL_SHARD_INDEX), s.list, b.generation)
  {
  }

  lemma QueueFinalKeeps(w: World, s: Step)
    requires Inv(w) && s.QueueShard? && s.index == FINAL_SHARD_INDEX && Admissible(w, s) && Next(w, s).Ok?
    ensures Inv(After(w, s))
  {
    hide Next, After, RunError, BracketSound, Tier1Sound, Members, Ascending;
    QueueFinalEffect(w, s);
    var b := w.bracket.value;
    FinalRunIsFinalistSet(w.ledger, w.round.key, b.finalists, s.list);
    FinalQueuedSound(Standings(w), PinsOf(w), w, b, s.list);
    var u := w.(bracket := Some(b.(finalists := s.list, finalQueued := true)));
    QueuedKeepsRecords(PinsOf(u), u, ShardResult(s.index), s.list, b.generation);
  }

  lemma QueueTier1Keeps(w: World, s: Step)
    requires Inv(w) && s.QueueTier1? && Admissible(w, s) && Next(w, s).Ok?
    ensures Inv(After(w, s))
  {
    var t := w.tier1.value;
    ShardRunMeansAccepts(w.ledger, w.round.key, t.layout, s.index, true, s.list);
    QueuedKeepsRecords(PinsOf(w), w, ShardResult(s.index), s.list, t.generation);
  }

  lemma BufferSlice(t: Tier1, b: Bracket, k: nat)
    requires Sum(b.layout.sizes) == |t.winners| && SizesInRange(b.layout.sizes) && k < |b.layout.sizes|
    ensures SemifinalSlice(t, b, k) == Slice(t.winners, b.layout.sizes, k)
  {
    var sizes := b.layout.sizes;
    SumToStrict(sizes, k, |sizes|);
    var start := SumTo(sizes, k);
    forall i | 0 <= i < sizes[k] ensures SemifinalSlice(t, b, k)[i] == t.winners[start + i] {
      assert SemifinalSlice(t, b, k)[i] == BufferAt(t.winners, start + i);
    }
  }

  /** The slice a semifinal ranks is what its own layout would accept. */
  lemma SemifinalSliceAccepted(t: Tier1, b: Bracket, k: nat)
    requires t.winners != [] && b.layout == PromotedLayout(t.winners) && k < |b.layout.sizes|
    requires Ascending(t.winners)
    ensures Accepts(b.layout, Members(t.winners), k, SemifinalSlice(t, b, k))
  {
    BalancedSizesFit(|t.winners|, MAX_SHARD_SIZE);
    BufferSlice(t, b, k);
    SliceAccepted(t.winners, b.layout.sizes, k);
  }

  lemma QueueSemifinalEffect(w: World, s: Step)
    requires s.QueueSemifinal? && Next(w, s).Ok?
    ensures w.tier1.Some? && w.bracket.Some?
    ensures var t, b := w.tier1.value, w.bracket.value;
            && t.promoted && s.index < |b.layout.sizes| && s.list == SemifinalSlice(t, b, s.index)
            && After(w, s) == Queued(w, SemiResult(s.index), s.list, b.generation)
  {
    var t, b := w.tier1.value, w.bracket.value;
    SliceRunIsSlice(w.ledger, w.round.key, SemifinalSlice(t, b, s.index), s.list);
  }

  lemma QueueSemifinalKeeps(w: World, s: Step)
    requires Inv(w) && s.QueueSemifinal? && Admissible(w, s) && Next(w, s).Ok?
    ensures Inv(After(w, s))
  {
    hide Next, After, PinsSound, RecordsSound, Fits, LiveStamp, SemifinalSlice, RoundEntries;
    QueueSemifinalEffect(w, s);
    PromotedSliceFits(w, s.index);
    QueuedKeepsRecords(PinsOf(w), w, SemiResult(s.index), s.list, w.bracket.value.generation);
  }

  lemma PromotedSliceFits(w: World, k: nat)
    requires Inv(w) && w.tier1.Some? && w.tier1.value.promoted && w.bracket.Some? && k < |w.bracket.value.layout.sizes|
    ensures Fits(PinsOf(w), SemiResult(k), SemifinalSlice(w.tier1.value, w.bracket.value, k))
  {
    SemifinalSliceAccepted(w.tier1.value, w.bracket.value, k);
  }

  // ---- collecting --------------------------------------------------------------------------

  /** Under an exact layout both lists are the cell, so the picked entries are its first three. */
  lemma PickedFromCell(p: Points, l: Layout, g: set<Key>, k: nat, list: seq<Key>, ranked: seq<Key>, slots: seq<nat>)
    requires k < |l.bounds| && Exact(l, g)
    requires Accepts(l, g, k, list) && Accepts(l, g, k, ranked) && NamesPodium(p, ranked, slots)
    ensures var picked := Picked(list, slots, Min(SHARD_WINNERS, |list|));
            && Members(picked) == TopThree(p, Cell(l, g, k))
            && |list| == |Cell(l, g, k)|
            && forall r :: 0 <= r < |picked| ==> Placed(p, Cell(l, g, k), r, picked[r])
  {
    AcceptedFillsCell(l, g, k, list);
    AcceptedFillsCell(l, g, k, ranked);
    PickedAreTopThree(p, list, slots);
  }

  lemma OneCellIsAll(l: Layout, g: set<Key>)
    requires Exact(l, g) && |l.bounds| == 1
    ensures Cell(l, g, 0) == g
  {
    forall x | x in g ensures x in Cell(l, g, 0) {
      var j :| 0 <= j < |l.bounds| && InInterval(l, j, x);
    }
  }

  /** The first three of an uncollected cell are new, and differ from each other. */
  lemma PickedAreNew(p: Points, l: Layout, g: set<Key>, collected: set<nat>, finalists: seq<Key>, k: nat, picked: seq<Key>)
    requires WellFormed(l) && k < |l.bounds| && k !in collected
    requires Kept(p, l, g, collected, Members(finalists)) && Distinct(finalists)
    requires forall r :: 0 <= r < |picked| ==> Placed(p, Cell(l, g, k), r, picked[r])
    ensures Distinct(finalists + picked)
  {
    forall i, r | 0 <= i < |finalists| && 0 <= r < |picked| ensures finalists[i] != picked[r] {
      assert finalists[i] in Members(finalists);
      var j :| j in collected && j < |l.bounds| && finalists[i] in TopThree(p, Cell(l, g, j));
      if finalists[i] == picked[r] {
        IntervalsDisjoint(l, j, k, picked[r]);
      }
    }
    forall q, r | 0 <= q < r < |picked| ensures picked[q] != picked[r] {
      assert Rank(p, Cell(l, g, k), picked[q]) == q;
    }
  }

  lemma WithWinnersSound(p: Points, g: set<Key>, b: Bracket, k: nat, list: seq<Key>, ranked: seq<Key>, slots: seq<nat>)
    requires WellFormed(b.layout) && FinalistsSound(p, g, b) && k < |b.layout.bounds| && k !in b.collected
    requires Accepts(b.layout, g, k, list) && Accepts(b.layout, g, k, ranked) && NamesPodium(p, ranked, slots)
    ensures FinalistsSound(p, g, WithWinners(b, k, Picked(list, slots, Min(SHARD_WINNERS, |list|))))
  {
    hide Distinct, Members, Kept, Exact, Picked, Ascending;
    var l, picked := b.layout, Picked(list, slots, Min(SHARD_WINNERS, |list|));
    var c := WithWinners(b, k, picked);
    AcceptedFillsCell(l, g, k, list);
    assert !b.finalQueued;
    assert |c.finalists| <= SHARD_WINNERS * |c.collected|;
    if Exact(l, g) {
      PickedFromCell(p, l, g, k, list, ranked, slots);
      KeptStep(p, l, g, b.collected, Members(b.finalists), k, Members(picked));
      PickedAreNew(p, l, g, b.collected, b.finalists, k, picked);
      MembersConcat(b.finalists, picked);
      if |l.bounds| == 1 {
        OneCellIsAll(l, g);
        assert k == 0 && b.collected == {};
        assert c.finalists == picked;
      }
    }
  }

  /** Collecting changes nothing but what the bracket has collected. */
  lemma CollectedKeeps(w: World, b: Bracket, k: nat, winners: seq<Key>)
    requires Inv(w) && w.bracket == Some(b) && k < |b.layout.bounds| && k !in b.collected
    requires FinalistsSound(Standings(w), w.ground, WithWinners(b, k, winners))
    ensures Inv(w.(bracket := Some(WithWinners(b, k, winners))))
  {
    var v := w.(bracket := Some(WithWinners(b, k, winners)));
    assert !b.finalQueued;
    RecordsFrame(PinsOf(w), PinsOf(v), w);
  }

  lemma ShardWinnersSound(w: World, b: Bracket, k: nat, list: seq<Key>)
    requires Inv(w) && !TwoTier(w) && w.bracket == Some(b) && k < |b.layout.bounds| && k !in b.collected
    requires ShardResult(k) in w.results && RecordError(w.results[ShardResult(k)], b.generation) == None
    requires Accepts(b.layout, w.ground, k, list)
    ensures var picked := Picked(list, w.results[ShardResult(k)].podium.slots, Min(SHARD_WINNERS, |list|));
            FinalistsSound(Standings(w), w.ground, WithWinners(b, k, picked))
  {
    var slots := w.results[ShardResult(k)].podium.slots;
    var ranked := RecordNamesPodium(PinsOf(w), w.ledger, w.round.key, w.results, ShardResult(k), b.layout, w.ground, k);
    WithWinnersSound(Standings(w), w.ground, b, k, list, ranked, slots);
  }

  lemma CollectShardKeeps(w: World, s: Step)
    requires Inv(w) && s.CollectShard? && Admissible(w, s) && Next(w, s).Ok?
    ensures Inv(After(w, s))
  {
    var b, slots := w.bracket.value, w.results[ShardResult(s.index)].podium.slots;
    ShardRunMeansAccepts(w.ledger, w.round.key, b.layout, s.index, false, s.list);
    ShardWinnersSound(w, b, s.index, s.list);
    CollectedKeeps(w, b, s.index, Picked(s.list, slots, Min(SHARD_WINNERS, |s.list|)));
  }

  /** A live semifinal record ranked what its own layout accepts. */
  lemma SemifinalRecord(w: World, t: Tier1, b: Bracket, k: nat) returns (ranked: seq<Key>)
    requires Inv(w) && w.tier1 == Some(t) && w.bracket == Some(b) && t.promoted && k < |b.layout.sizes|
    requires SemiResult(k) in w.results && RecordError(w.results[SemiResult(k)], b.generation) == None
    ensures Accepts(b.layout, w.ground, k, ranked)
    ensures NamesPodium(Standings(w), ranked, w.results[SemiResult(k)].podium.slots)
  {
    ranked := RecordNamesPodium(PinsOf(w), w.ledger, w.round.key, w.results, SemiResult(k), b.layout, w.ground, k);
  }

  lemma SemifinalWinnersSound(w: World, t: Tier1, b: Bracket, k: nat)
    requires Inv(w) && w.tier1 == Some(t) && w.bracket == Some(b)
    requires t.promoted && k < |b.layout.sizes| && k !in b.collected
    requires SemiResult(k) in w.results && RecordError(w.results[SemiResult(k)], b.generation) == None
    ensures var slice := SemifinalSlice(t, b, k);
            var picked := Picked(slice, w.results[SemiResult(k)].podium.slots, Min(SHARD_WINNERS, |slice|));
            FinalistsSound(Standings(w), w.ground, WithWinners(b, k, picked))
  {
    hide RecordsSound, FinalistsSound, WinnersOf, RecordError;
    var slice, slots := SemifinalSlice(t, b, k), w.results[SemiResult(k)].podium.slots;
    SemifinalSliceAccepted(t, b, k);
    var ranked := SemifinalRecord(w, t, b, k);
    WithWinnersSound(Standings(w), w.ground, b, k, slice, ranked, slots);
  }

  lemma CollectShardResult(w: World, s: Step)
    requires s.CollectShard? && Next(w, s).Ok?
    ensures w.bracket.Some? && ShardResult(s.index) in w.results
    ensures RecordError(w.results[ShardResult(s.index)], w.bracket.value.generation) == None
    ensures var b, slots, take := w.bracket.value, w.results[ShardResult(s.index)].podium.slots, Min(SHARD_WINNERS, |s.list|);
            && s.index < |b.layout.bounds| && s.index !in b.collected && |s.list| == b.layout.sizes[s.index]
            && RunError(w.ledger, w.round.key, ShardAdmission(b.layout, s.index), false, s.list, 0) == None
            && (forall q :: 0 <= q < take ==> slots[q] < |s.list|)
            && After(w, s) == w.(bracket := Some(WithWinners(b, s.index, Picked(s.list, slots, take))))
  {
    hide RunError, RecordError;
  }

  lemma CollectSemifinalEffect(w: World, s: Step)
    requires s.CollectSemifinal? && Next(w, s).Ok?
    ensures w.tier1.Some? && w.bracket.Some? && SemiResult(s.index) in w.results
    ensures var t, b, r := w.tier1.value, w.bracket.value, w.results[SemiResult(s.index)];
            && t.promoted && s.index < |b.layout.sizes| && s.index !in b.collected && RecordError(r, b.generation) == None
            && var slice := SemifinalSlice(t, b, s.index);
               var picked := Picked(slice, r.podium.slots, Min(SHARD_WINNERS, |slice|));
               After(w, s) == w.(bracket := Some(WithWinners(b, s.index, picked)))
  {
  }

  lemma CollectSemifinalKeeps(w: World, s: Step)
    requires Inv(w) && s.CollectSemifinal? && Next(w, s).Ok?
    ensures Inv(After(w, s))
  {
    CollectSemifinalEffect(w, s);
    hide Next, After, FinalistsSound;
    var t, b, slots := w.tier1.value, w.bracket.value, w.results[SemiResult(s.index)].podium.slots;
    var slice := SemifinalSlice(t, b, s.index);
    SemifinalWinnersSound(w, t, b, s.index);
    CollectedKeeps(w, b, s.index, Picked(slice, slots, Min(SHARD_WINNERS, |slice|)));
  }

  lemma InsertWinnerResult(winners: seq<Key>, key: Key)
    requires Ascending(winners) && InsertWinner(winners, key).Some?
    ensures var next := InsertWinner(winners, key).value;
            Ascending(next) && Members(next) == Members(winners) + {key} && |next| == |winners| + 1
  {
    MembersSize(winners);
  }

  lemma MembersHead(keys: seq<Key>)
    ensures keys == [] ==> Members(keys) == {}
    ensures keys != [] ==> Members(keys) == {keys[0]} + Members(keys[1..])
  {
    if keys != [] {
      assert keys == [keys[0]] + keys[1..];
    }
  }

  lemma {:induction false} InsertAllResult(winners: seq<Key>, keys: seq<Key>)
    requires Ascending(winners) && InsertAll(winners, keys).Some?
    ensures var more := InsertAll(winners, keys).value;
            && Ascending(more) && |more| == |winners| + |keys|
            && Members(more) == Members(winners) + Members(keys)
    decreases keys
  {
    hide Members, Ascending, Sorted;
    MembersHead(keys);
    if keys != [] {
      var next := InsertWinner(winners, keys[0]).value;
      InsertWinnerResult(winners, keys[0]);
      InsertAllResult(next, keys[1..]);
    }
  }

  lemma {:induction false} WinnersOfStep(sizes: seq<nat>, done: set<nat>, k: nat, m: nat)
    requires m <= |sizes| && k < |sizes| && k !in done
    ensures WinnersOf(sizes, done + {k}, m) == WinnersOf(sizes, done, m) + (if k < m then Min(SHARD_WINNERS, sizes[k]) else 0)
  {
    if m > 0 {
      WinnersOfStep(sizes, done, k, m - 1);
    }
  }

  lemma WithTier1WinnersSound(p: Points, e: set<Key>, t: Tier1, k: nat, list: seq<Key>, ranked: seq<Key>, slots: seq<nat>)
    requires Tier1LayoutSound(e, t.layout) && WinnersSound(p, e, t) && k < |t.layout.bounds| && k !in t.done
    requires Accepts(t.layout, e, k, list) && Accepts(t.layout, e, k, ranked) && NamesPodium(p, ranked, slots)
    requires InsertAll(t.winners, Picked(list, slots, Min(SHARD_WINNERS, |list|))).Some?
    ensures var more := InsertAll(t.winners, Picked(list, slots, Min(SHARD_WINNERS, |list|))).value;
            WinnersSound(p, e, t.(winners := more, done := t.done + {k}))
  {
    hide Kept, Exact, Picked, InsertAll, Cell, WinnersOf, Accepts, TopThree, Members, Ascending, InInterval;
    var l, picked := t.layout, Picked(list, slots, Min(SHARD_WINNERS, |list|));
    var more := InsertAll(t.winners, picked).value;
    InsertAllResult(t.winners, picked);
    AcceptedFillsCell(l, e, k, list);
    AcceptedFillsCell(l, e, k, ranked);
    PickedFromList(p, list, ranked, slots);
    WinnersOfStep(l.sizes, t.done, k, |l.sizes|);
    WinnersStayInDoneShards(e, t, k, list, picked, more);
    if Exact(l, e) {
      WinnersStayKept(p, l, e, t.done, t.winners, k, list, ranked, slots);
    }
  }

  lemma PickedFromList(p: Points, list: seq<Key>, ranked: seq<Key>, slots: seq<nat>)
    requires |list| == |ranked| && NamesPodium(p, ranked, slots)
    ensures forall x :: x in Picked(list, slots, Min(SHARD_WINNERS, |list|)) ==> x in list
  {
    var take := Min(SHARD_WINNERS, |list|);
    forall r | 0 <= r < take ensures Picked(list, slots, take)[r] in list {
      assert slots[r] < |ranked|;
    }
  }

  lemma WinnersStayKept(p: Points, l: Layout, e: set<Key>, done: set<nat>, winners: seq<Key>, k: nat,
                        list: seq<Key>, ranked: seq<Key>, slots: seq<nat>)
    requires k < |l.bounds| && Exact(l, e) && Kept(p, l, e, done, Members(winners))
    requires Accepts(l, e, k, list) && Accepts(l, e, k, ranked) && NamesPodium(p, ranked, slots)
    ensures Kept(p, l, e, done + {k}, Members(winners) + Members(Picked(list, slots, Min(SHARD_WINNERS, |list|))))
  {
    PickedFromCell(p, l, e, k, list, ranked, slots);
    KeptStep(p, l, e, done, Members(winners), k, TopThree(p, Cell(l, e, k)));
  }

  lemma WinnersStayInDoneShards(e: set<Key>, t: Tier1, k: nat, list: seq<Key>, picked: seq<Key>, more: seq<Key>)
    requires k < |t.layout.bounds| && Accepts(t.layout, e, k, list)
    requires forall x :: x in t.winners ==>
               x in e && exists j :: j in t.done && j < |t.layout.bounds| && InInterval(t.layout, j, x)
    requires Members(more) == Members(t.winners) + Members(picked) && forall x :: x in picked ==> x in list
    ensures forall x :: x in more ==>
              x in e && exists j :: j in t.done + {k} && j < |t.layout.bounds| && InInterval(t.layout, j, x)
  {
    forall x | x in more
      ensures x in e && exists j :: j in t.done + {k} && j < |t.layout.bounds| && InInterval(t.layout, j, x)
    {
      assert x in Members(more);
      if x in t.winners {
        var j :| j in t.done && j < |t.layout.bounds| && InInterval(t.layout, j, x);
        assert j in t.done + {k};
      } else {
        assert x in list && k in t.done + {k};
      }
    }
  }

  lemma CollectTier1Keeps(w: World, s: Step)
    requires Inv(w) && s.CollectTier1? && Next(w, s).Ok?
    ensures Inv(After(w, s))
  {
    hide Inv, Next, After, Picked, InsertAll, RunError, RecordError, WinnersSound;
    CollectTier1Result(w, s);
    var t := w.tier1.value;
    ShardRunMeansAccepts(w.ledger, w.round.key, t.layout, s.index, false, s.list);
    Tier1WinnersSound(w, t, s.index, s.list);
    WinnersKeep(w, t, After(w, s).tier1.value);
  }

  lemma CollectTier1Result(w: World, s: Step)
    requires s.CollectTier1? && Next(w, s).Ok?
    ensures w.tier1.Some? && ShardResult(s.index) in w.results
    ensures var t, r, take := w.tier1.value, w.results[ShardResult(s.index)], Min(SHARD_WINNERS, |s.list|);
            && !t.promoted && s.index < |t.layout.bounds| && s.index !in t.done && RecordError(r, t.generation) == None
            && |s.list| == t.layout.sizes[s.index]
            && RunError(w.ledger, w.round.key, ShardAdmission(t.layout, s.index), false, s.list, 0) == None
            && var more := InsertAll(t.winners, Picked(s.list, r.podium.slots, take));
               more.Some? && After(w, s) == w.(tier1 := Some(t.(winners := more.value, done := t.done + {s.index})))
  {
    hide RunError, Picked, InRange, InsertAll, ShardAdmission;
  }

  lemma Tier1WinnersSound(w: World, t: Tier1, k: nat, list: seq<Key>)
    requires Inv(w) && w.tier1 == Some(t) && k < |t.layout.bounds| && k !in t.done
    requires ShardResult(k) in w.results && RecordError(w.results[ShardResult(k)], t.generation) == None
    requires Accepts(t.layout, Entrants(w), k, list)
    requires InsertAll(t.winners, Picked(list, w.results[ShardResult(k)].podium.slots, Min(SHARD_WINNERS, |list|))).Some?
    ensures var more := InsertAll(t.winners, Picked(list, w.results[ShardResult(k)].podium.slots, Min(SHARD_WINNERS, |list|))).value;
            WinnersSound(Standings(w), Entrants(w), t.(winners := more, done := t.done + {k}))
  {
    var slots := w.results[ShardResult(k)].podium.slots;
    var ranked := RecordNamesPodium(PinsOf(w), w.ledger, w.round.key, w.results, ShardResult(k), t.layout, Entrants(w), k);
    WithTier1WinnersSound(Standings(w), Entrants(w), t, k, list, ranked, slots);
  }

  lemma WinnersKeep(w: World, t: Tier1, t': Tier1)
    requires Inv(w) && w.tier1 == Some(t) && !t.promoted
    requires t' == t.(winners := t'.winners, done := t'.done) && WinnersSound(Standings(w), Entrants(w), t')
    ensures Inv(w.(tier1 := Some(t')))
  {
    var v := w.(tier1 := Some(t'));
    RecordsFrame(PinsOf(w), PinsOf(v), w);
  }
}
