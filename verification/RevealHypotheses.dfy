/** What the operator conditions of the reveal are worth: where the program already guarantees
them, and what goes wrong without them. */
module RevealHypotheses {
  import opened Accounts
  import opened Instructions
  import opened RevealRun
  import opened RevealTheorem
  import opened RevealSteps

  // ---- where stamps come from --------------------------------------------------------------

  /** The bracket's counter moves with every pin of a bracket and with nothing else. */
  lemma BracketStampAfter(w: World, s: Step)
    requires Next(w, s).Ok?
    ensures BracketStamp(After(w, s))
         == if s.Promote? || s.PinBracket? then NextStamp(BracketStamp(w)) else BracketStamp(w)
    ensures TwoTier(After(w, s)) == TwoTier(w)
  {
    if Queues(s) {
      hide Next, After;
      QueueEffect(w, s);
    } else {
      hide CollectTier1Winners, InitTier1, CloseTier1, ApplyBracketResult, LayoutOk, PromotedLayout, RecordError, RunError,
           PushError, Picked, InRange, ShardAdmission, SemifinalSlice, AllDone, RevealOf, Queued;
    }
  }

  /** Tier 1 takes the stamp of the slot it is pinned at, and keeps it. */
  lemma Tier1StampAfter(w: World, s: Step)
    requires Next(w, s).Ok?
    ensures After(w, s).tier1.Some? ==>
              if s.PinTier1? then After(w, s).tier1.value.generation == s.slot % STAMPS
              else w.tier1.Some? && After(w, s).tier1.value.generation == w.tier1.value.generation
    ensures s.Promote? ==> w.tier1.Some?
    ensures s.PinTier1? ==> w.tier1.None?
  {
    if Queues(s) {
      hide Next, After;
      QueueEffect(w, s);
    } else {
      hide InitBracket, CollectShardWinners, CollectSemifinalWinners, ApplyBracketResult, LayoutOk, PromotedLayout, RecordError,
           RunError, Picked, InRange, ShardAdmission, InsertAll, AllDone, WinnersUpTo, RevealOf, Queued;
    }
  }

  /** Records and computations keep their stamps; a queue writes its tracker's. */
  lemma WrittenStampsAfter(w: World, s: Step)
    requires Next(w, s).Ok?
    ensures forall a :: a in After(w, s).results ==>
              var g := After(w, s).results[a].generation;
              (a in w.results && g == w.results[a].generation) || (w.bracket.Some? && g == BracketStamp(w))
              || (w.tier1.Some? && g == Tier1Stamp(w))
    ensures forall c :: c in After(w, s).inFlight ==>
              c in w.inFlight || (w.bracket.Some? && c.stamp == BracketStamp(w)) || (w.tier1.Some? && c.stamp == Tier1Stamp(w))
  {
    if Queues(s) {
      hide Next, After;
      QueueEffect(w, s);
    } else if !s.Callback? && !s.Abort? {
      hide Next, After;
      QuietEffect(w, s);
    } else {
      hide RevealOf;
    }
  }

  lemma RefusedChangesNothing(w: World, s: Step)
    requires Next(w, s).Err?
    ensures After(w, s) == w
  {
  }

  // ---- single tier: stamps cannot collide --------------------------------------------------

  /** Every stamp in a one-tier round is one the bracket's own counter has given out. */
  predicate Counted(w: World, pins: nat) {
    && !TwoTier(w) && w.tier1.None? && BracketStamp(w) <= pins
    && (forall a :: a in w.results ==> w.results[a].generation <= BracketStamp(w))
    && (forall c :: c in w.inFlight ==> c.stamp <= BracketStamp(w))
  }

  lemma TwoTierPinRefused(w: World, s: Step)
    requires !TwoTier(w) && s.PinTier1?
    ensures Next(w, s).Err?
  {
  }

  lemma CountedStep(w: World, s: Step, pins: nat)
    requires Counted(w, pins) && pins + 1 < STAMPS
    ensures Counted(After(w, s), pins + 1)
    ensures s.PinBracket? ==> FreshStamp(w, NextStamp(BracketStamp(w)))
  {
    hide After, Next;
    if s.PinTier1? {
      TwoTierPinRefused(w, s);
    }
    if Next(w, s).Ok? {
      BracketStampAfter(w, s);
      Tier1StampAfter(w, s);
      WrittenStampsAfter(w, s);
    } else {
      RefusedChangesNothing(w, s);
    }
  }

  /** A record is queued again only when no older computation over another list can still write
  it. */
  ghost predicate TidyRun(w: World, steps: seq<Step>)
    decreases |steps|
  {
    steps != [] ==>
      && (steps[0].QueueShard? && Next(w, steps[0]).Ok? ==> Careful(w, steps[0]))
      && TidyRun(After(w, steps[0]), steps[1..])
  }

  lemma {:induction false} TidyIsAdmissible(w: World, steps: seq<Step>, pins: nat)
    requires Counted(w, pins) && TidyRun(w, steps) && pins + |steps| < STAMPS
    ensures AdmissibleRun(w, steps)
    decreases |steps|
  {
    if steps != [] {
      CountedStep(w, steps[0], pins);
      TidyIsAdmissible(After(w, steps[0]), steps[1..], pins + 1);
    }
  }

  /** For rounds of up to 52 entries only one thing is asked of the operator. */
  lemma SingleTierIsExact(w: World, steps: seq<Step>)
    requires Unstarted(w) && w.round.participantCount <= SINGLE_TIER_CAPACITY
    requires |steps| < STAMPS && TidyRun(w, steps)
    ensures Run(w, steps).round.revealed ==> ExactTop(Standings(w), Entrants(w), Run(w, steps).round.top)
  {
    TidyIsAdmissible(w, steps, 0);
    RevealIsExact(w, steps);
  }

  // ---- two tiers: increasing clock slots are enough ----------------------------------------

  function SlotStamp(slot: nat): nat {
    slot % STAMPS
  }

  /** g is the stamp of a slot after `first` and up to `last`, beyond the bracket's counter. */
  ghost predicate FromSlot(g: nat, first: nat, last: nat, limit: nat) {
    limit < g && exists slot :: first < slot <= last && SlotStamp(slot) == g
  }

  ghost predicate Accounted(w: World, g: nat, first: nat, last: nat, limit: nat) {
    g <= BracketStamp(w) || FromSlot(g, first, last, limit)
  }

  /** Every stamp in a two-tier round is the bracket counter's or a slot's. */
  ghost predicate Clocked(w: World, first: nat, last: nat, promotions: nat, limit: nat) {
    && TwoTier(w) && BracketStamp(w) <= promotions <= limit && first <= last <= first + STAMPS
    && (forall a :: a in w.results ==> Accounted(w, w.results[a].generation, first, last, limit))
    && (forall c :: c in w.inFlight ==> Accounted(w, c.stamp, first, last, limit))
    && (w.tier1.Some? ==> FromSlot(w.tier1.value.generation, first, last, limit))
  }

  lemma SlotStampsDiffer(s: nat, t: nat)
    requires s < t < s + STAMPS
    ensures SlotStamp(s) != SlotStamp(t)
  {
    assert (t - s) % STAMPS == t - s;
  }

  /** A later slot of the same window has a stamp nothing carries. */
  lemma NewSlotIsFresh(w: World, first: nat, last: nat, promotions: nat, limit: nat, slot: nat)
    requires Clocked(w, first, last, promotions, limit) && w.tier1.None?
    requires last < slot <= first + STAMPS && limit < slot % STAMPS
    ensures FreshStamp(w, slot % STAMPS)
  {
    forall g | FromSlot(g, first, last, limit) ensures g != slot % STAMPS {
      var s :| first < s <= last && SlotStamp(s) == g;
      SlotStampsDiffer(s, slot);
    }
  }

  lemma PromotionIsFresh(w: World, first: nat, last: nat, promotions: nat, limit: nat)
    requires Clocked(w, first, last, promotions, limit) && w.tier1.Some? && promotions < limit
    ensures FreshStamp(w, NextStamp(BracketStamp(w)))
    ensures NextStamp(BracketStamp(w)) == BracketStamp(w) + 1
  {
    var slot :| first < slot <= last && SlotStamp(slot) == w.tier1.value.generation;
    assert SlotStamp(slot) < STAMPS;
  }

  /** What is asked of the operator of a two-tier round: tier 1 is pinned at later and later clock
  slots, within 2^32 of each other and none of them mistakable for the bracket's small counter; a
  record is queued again only when no older computation over another list can still write it; and
  semifinals are collected as semifinals. */
  ghost predicate PunctualStep(w: World, s: Step, first: nat, last: nat, limit: nat) {
    match s
    case PinTier1(_, _, _, _, slot) => last < slot <= first + STAMPS && limit < slot % STAMPS
    case QueueShard(_, _, _) => Careful(w, s)
    case QueueTier1(_, _, _) => Careful(w, s)
    case QueueSemifinal(_, _, _) => Careful(w, s)
    case CollectShard(_, _, _) => false
    case _ => true
  }

  function LastSlot(s: Step, last: nat): nat {
    if s.PinTier1? then s.slot else last
  }

  ghost predicate PunctualRun(w: World, steps: seq<Step>, first: nat, last: nat, limit: nat)
    decreases |steps|
  {
    steps != [] ==>
      if Next(w, steps[0]).Ok? then
        && PunctualStep(w, steps[0], first, last, limit)
        && PunctualRun(After(w, steps[0]), steps[1..], first, LastSlot(steps[0], last), limit)
      else PunctualRun(w, steps[1..], first, last, limit)
  }

  lemma OneTierPinRefused(w: World, s: Step)
    requires TwoTier(w) && s.PinBracket?
    ensures Next(w, s).Err?
  {
    if Next(w, s).Ok? {
      LayoutOkIsWellFormed(s.sizes, s.bounds, s.count, MAX_SHARDS, w.round.participantCount);
    }
  }

  lemma {:induction false} PunctualIsAdmissible(w: World, steps: seq<Step>, first: nat, last: nat, promotions: nat, limit: nat)
    requires Clocked(w, first, last, promotions, limit) && promotions + |steps| <= limit
    requires PunctualRun(w, steps, first, last, limit)
    ensures AdmissibleRun(w, steps)
    decreases |steps|
  {
    hide Next, After, Clocked, PunctualStep, Careful;
    if steps != [] {
      var s := steps[0];
      if Next(w, s).Ok? {
        ClockedStep(w, s, first, last, promotions, limit);
        PunctualIsAdmissible(After(w, s), steps[1..], first, LastSlot(s, last), promotions + 1, limit);
      } else {
        RefusedChangesNothing(w, s);
        ClockedLater(w, first, last, promotions, limit);
        PunctualIsAdmissible(w, steps[1..], first, last, promotions + 1, limit);
      }
    }
  }

  lemma ClockedLater(w: World, first: nat, last: nat, promotions: nat, limit: nat)
    requires Clocked(w, first, last, promotions, limit) && promotions < limit
    ensures Clocked(w, first, last, promotions + 1, limit)
  {
  }

  lemma ClockedStep(w: World, s: Step, first: nat, last: nat, promotions: nat, limit: nat)
    requires Clocked(w, first, last, promotions, limit) && promotions < limit
    requires Next(w, s).Ok? && PunctualStep(w, s, first, last, limit)
    ensures Careful(w, s)
    ensures Clocked(After(w, s), first, LastSlot(s, last), promotions + 1, limit)
  {
    hide Next, After;
    if s.PinBracket? {
      OneTierPinRefused(w, s);
    }
    BracketStampAfter(w, s);
    Tier1StampAfter(w, s);
    WrittenStampsAfter(w, s);
    var v, now := After(w, s), LastSlot(s, last);
    if s.PinTier1? {
      NewSlotIsFresh(w, first, last, promotions, limit, s.slot);
      assert SlotStamp(s.slot) == s.slot % STAMPS;
    } else if s.Promote? {
      PromotionIsFresh(w, first, last, promotions, limit);
    }
    forall g | FromSlot(g, first, last, limit) ensures FromSlot(g, first, now, limit) {
      var slot :| first < slot <= last && SlotStamp(slot) == g;
      assert first < slot <= now;
    }
    forall a | a in v.results ensures Accounted(v, v.results[a].generation, first, now, limit) {
    }
    forall c | c in v.inFlight ensures Accounted(v, c.stamp, first, now, limit) {
    }
  }

  /** For rounds of 53 entries and more, increasing slots stand in for all the fresh stamps. */
  lemma TwoTierIsExact(w: World, steps: seq<Step>, first: nat)
    requires Unstarted(w) && w.round.participantCount > SINGLE_TIER_CAPACITY
    requires PunctualRun(w, steps, first, first, |steps|)
    ensures Run(w, steps).round.revealed ==> ExactTop(Standings(w), Entrants(w), Run(w, steps).round.top)
  {
    PunctualIsAdmissible(w, steps, first, first, 0, |steps|);
    RevealIsExact(w, steps);
  }
}
