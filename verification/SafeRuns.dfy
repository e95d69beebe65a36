/** Exactness from no more than each step needs: lists that fit, instead of stamps that are fresh and
queues that are settled. What every step is asked here is what DueLists proves it cannot do without. */
module SafeRuns {
  import opened Ranking
  import opened Partition
  import opened Accounts
  import opened Instructions
  import opened RevealRun
  import opened RevealInvariant
  import opened RevealSteps
  import opened RevealTheorem
  import opened RevealNecessity
  import opened DueLists

  /** Both trackers, once they exist, carry different stamps. */
  predicate StampsApart(w: World) {
    w.bracket.Some? && w.tier1.Some? ==> w.bracket.value.generation != w.tier1.value.generation
  }

  /** What the step needs: after a pin, every record that reads as live answers, and is owed answers to,
  lists the new pins accept; before a queue step, every list due there is the one queued or fits; and a
  promoted bracket is collected by the semifinal instruction. */
  ghost predicate Safe(w: World, s: Step) {
    match s
    case QueueShard(_, _, _) => DueListsFit(w, s)
    case QueueTier1(_, _, _) => DueListsFit(w, s)
    case QueueSemifinal(_, _, _) => DueListsFit(w, s)
    case PinBracket(_, _, _, _) => SafePin(w, After(w, s))
    case PinTier1(_, _, _, _, _) => SafePin(w, After(w, s))
    case Promote(_) => SafePin(w, After(w, s))
    case CollectShard(_, _, _) => !TwoTier(w)
    case _ => true
  }

  ghost predicate SafePin(w: World, v: World) {
    && StampsApart(v)
    && forall addr :: addr in v.results ==> exists answered :: Answers(w, addr, answered) && ListsFit(v, addr, answered)
  }

  ghost predicate SafeRun(w: World, steps: seq<Step>)
    decreases |steps|
  {
    steps != [] ==> (Next(w, steps[0]).Ok? ==> Safe(w, steps[0])) && SafeRun(After(w, steps[0]), steps[1..])
  }

  // ---- the same world with nothing due under a live stamp -----------------------------------

  function DeadStamp(w: World): nat {
    BracketStamp(w) + Tier1Stamp(w) + 1
  }

  /** Everything in flight once, under a stamp no tracker carries. */
  function Unstamped(w: World): multiset<Computation> {
    multiset(set c | c in w.inFlight :: c.(stamp := DeadStamp(w)))
  }

  lemma UnstampedMembers(w: World)
    ensures forall c :: c in w.inFlight ==> c.(stamp := DeadStamp(w)) in Unstamped(w)
    ensures forall d :: d in Unstamped(w) ==>
              d.stamp == DeadStamp(w) && exists c :: c in w.inFlight && d == c.(stamp := DeadStamp(w))
  {
  }

  lemma UnstampedFits(w: World)
    requires DueFit(PinsOf(w), w.results, w.inFlight)
    ensures DueFit(PinsOf(w), w.results, Unstamped(w)) && QueuedFit(PinsOf(w), Unstamped(w))
  {
    hide Fits, Unstamped;
    UnstampedMembers(w);
    forall d | d in Unstamped(w)
      ensures d.addr in w.results && LiveStamp(PinsOf(w), d.addr) != Some(d.stamp)
      ensures LiveStamp(PinsOf(w), d.addr) == Some(w.results[d.addr].generation) ==> Fits(PinsOf(w), d.addr, d.list)
    {
      var c :| c in w.inFlight && d == c.(stamp := DeadStamp(w));
    }
  }

  lemma UnstampedInv(w: World)
    requires Sound(w)
    ensures Inv(w.(inFlight := Unstamped(w)))
  {
    hide PinsSound, ReadyFit, DueFit, QueuedFit, Unstamped, ExactTop;
    UnstampedFits(w);
    assert PinsOf(w.(inFlight := Unstamped(w))) == PinsOf(w);
  }

  /** Nothing but landing depends on what is in flight. */
  lemma SameButFlights(w: World, s: Step, flights: multiset<Computation>)
    requires !Queues(s) && !s.Callback? && !s.Abort? && Next(w, s).Ok?
    ensures Next(w.(inFlight := flights), s).Ok?
    ensures After(w.(inFlight := flights), s) == After(w, s).(inFlight := flights) && After(w, s).inFlight == w.inFlight
  {
    hide InitBracket, CollectShardWinners, ApplyBracketResult, InitTier1, CloseTier1, CollectTier1Winners, PromoteTier1,
         CollectSemifinalWinners, Queued;
  }

  lemma QuietStepSound(w: World, s: Step)
    requires Sound(w) && !Queues(s) && !PinsAnew(s) && !s.Callback? && !s.Abort? && Next(w, s).Ok? && Safe(w, s)
    ensures Sound(After(w, s))
  {
    hide Sound, Inv, Next, After, Unstamped;
    var u := w.(inFlight := Unstamped(w));
    UnstampedInv(w);
    UnstampedMembers(w);
    SameButFlights(w, s, Unstamped(w));
    assert Careful(u, s);
    StepKeeps(u, s);
    FlightsBack(After(w, s), Unstamped(w), DeadStamp(w));
  }

  lemma FlightsBack(v: World, flights: multiset<Computation>, dead: nat)
    requires Inv(v.(inFlight := flights))
    requires forall c :: c in v.inFlight ==> c.(stamp := dead) in flights
    ensures Sound(v)
  {
    hide PinsSound, ReadyFit, Fits, LiveStamp, ExactTop;
    assert PinsOf(v.(inFlight := flights)) == PinsOf(v);
    forall c | c in v.inFlight
      ensures c.addr in v.results
      ensures LiveStamp(PinsOf(v), c.addr) == Some(v.results[c.addr].generation) ==> Fits(PinsOf(v), c.addr, c.list)
    {
      assert c.(stamp := dead) in flights;
    }
  }

  // ---- pinning ------------------------------------------------------------------------------

  function Bare(w: World): World {
    w.(results := map[], inFlight := multiset{})
  }

  lemma BareInv(w: World)
    requires Sound(w)
    ensures Inv(Bare(w))
  {
    hide PinsSound, ExactTop;
    assert PinsOf(Bare(w)) == PinsOf(w);
  }

  lemma BarePin(w: World, s: Step)
    requires PinsAnew(s) && Next(w, s).Ok?
    ensures Next(Bare(w), s).Ok? && After(Bare(w), s) == Bare(After(w, s))
    ensures After(w, s).results == w.results && After(w, s).inFlight == w.inFlight
  {
    hide InitBracket, InitTier1, PromoteTier1;
  }

  /** On a bare world a pin is careful as soon as its stamp is not the other tracker's. */
  lemma BarePinIsCareful(w: World, s: Step)
    requires Sound(w) && PinsAnew(s) && Next(w, s).Ok? && StampsApart(After(w, s))
    ensures Careful(Bare(w), s)
  {
    hide Sound;
    BareInv(w);
    if s.PinBracket? {
      LayoutOkIsWellFormed(s.sizes, s.bounds, s.count, MAX_SHARDS, w.round.participantCount);
      if w.tier1.Some? {
        Tier1MeansTwoTier(Bare(w));
      }
    } else if s.Promote? {
      PromoteEffect(w, s);
    } else {
      PinTier1Effect(w, s);
    }
  }

  lemma PinSound(w: World, s: Step)
    requires Sound(w) && PinsAnew(s) && Next(w, s).Ok? && Safe(w, s)
    ensures Sound(After(w, s))
  {
    hide Sound, Inv, Next, After, SafePin;
    var v := After(w, s);
    BareInv(w);
    BarePin(w, s);
    SafePinApart(w, v);
    BarePinIsCareful(w, s);
    StepKeeps(Bare(w), s);
    StepFrame(w, s);
    DueHasRecord(w);
    PinnedSound(w, v);
  }

  lemma SafePinApart(w: World, v: World)
    requires SafePin(w, v)
    ensures StampsApart(v)
  {
  }

  lemma DueHasRecord(w: World)
    requires Sound(w)
    ensures forall c :: c in w.inFlight ==> c.addr in w.results
  {
  }

  lemma PinnedSound(w: World, v: World)
    requires Inv(Bare(v)) && SafePin(w, v) && v.results == w.results && v.inFlight == w.inFlight && v.ledger == w.ledger
    requires forall c :: c in v.inFlight ==> c.addr in v.results
    ensures Sound(v)
  {
    hide PinsSound, Fits, LiveStamp, ExactTop, RevealOf, Rankable;
    assert PinsOf(Bare(v)) == PinsOf(v);
    forall a | a in v.results && v.results[a].ready && LiveStamp(PinsOf(v), a) == Some(v.results[a].generation)
      ensures Ranked(PinsOf(v), v.ledger, a, v.results[a].podium)
    {
      var answered :| Answers(w, a, answered) && ListsFit(v, a, answered);
    }
    forall c | c in v.inFlight && LiveStamp(PinsOf(v), c.addr) == Some(v.results[c.addr].generation)
      ensures Fits(PinsOf(v), c.addr, c.list)
    {
      var answered :| Answers(w, c.addr, answered) && ListsFit(v, c.addr, answered);
    }
  }

  // ---- queueing and landing -----------------------------------------------------------------

  lemma QueueKeepsOthers(w: World, s: Step, addr: Addr, list: seq<Key>)
    requires Queues(s) && Next(w, s).Ok? && addr != QueuedAddr(s)
    ensures LiveStamp(PinsOf(After(w, s)), addr) == LiveStamp(PinsOf(w), addr)
    ensures Fits(PinsOf(After(w, s)), addr, list) <==> Fits(PinsOf(w), addr, list)
  {
    hide Next, After, Accepts;
    QueueEffect(w, s);
    if s.QueueShard? && s.index == FINAL_SHARD_INDEX {
      QueueFinalEffect(w, s);
    } else {
      assert PinsOf(After(w, s)) == PinsOf(w);
    }
  }

  lemma QueueDueFit(w: World, s: Step, c: Computation)
    requires Sound(w) && Queues(s) && Next(w, s).Ok? && DueListsFit(w, s) && c in After(w, s).inFlight
    ensures var v := After(w, s);
            && c.addr in v.results
            && (LiveStamp(PinsOf(v), c.addr) == Some(v.results[c.addr].generation) ==> Fits(PinsOf(v), c.addr, c.list))
  {
    hide Next, After, PinsSound, ReadyFit, Fits, LiveStamp, PinsOf, ExactTop;
    var v := After(w, s);
    QueueEffect(w, s);
    if c.addr == QueuedAddr(s) {
      SettledIsSound(w);
      QueueKeepsLive(w, s);
      if Live(v, c.addr) {
        FitsAfterQueue(w, s, c.list);
      }
    } else {
      QueueKeepsOthers(w, s, c.addr, c.list);
    }
  }

  lemma QueueSound(w: World, s: Step)
    requires Sound(w) && Queues(s) && Next(w, s).Ok? && Safe(w, s)
    ensures Sound(After(w, s))
  {
    hide Next, After, Sound, DueListsFit, Inv, PinsOf, LiveStamp, Fits;
    var v := After(w, s);
    SettledIsSound(w);
    SettledQueue(w, s);
    StepKeeps(Settled(w), s);
    StepFrame(w, s);
    StepFrame(Settled(w), s);
    SettledRound(w, s);
    forall c | c in v.inFlight
      ensures c.addr in v.results
      ensures LiveStamp(PinsOf(v), c.addr) == Some(v.results[c.addr].generation) ==> Fits(PinsOf(v), c.addr, c.list)
    {
      QueueDueFit(w, s, c);
    }
    SoundFromSettled(v, After(Settled(w), s));
  }

  lemma SettledRound(w: World, s: Step)
    requires Queues(s) && Next(w, s).Ok? && Next(Settled(w), s).Ok?
    ensures After(Settled(w), s).round == After(w, s).round
  {
    hide Next, After;
    QueueEffect(w, s);
    QueueEffect(Settled(w), s);
  }

  lemma SoundFromSettled(v: World, u: World)
    requires Inv(u) && PinsOf(u) == PinsOf(v) && u.results == v.results && u.round == v.round && u.ledger == v.ledger
    requires forall c :: c in v.inFlight ==>
               && c.addr in v.results
               && (LiveStamp(PinsOf(v), c.addr) == Some(v.results[c.addr].generation) ==> Fits(PinsOf(v), c.addr, c.list))
    ensures Sound(v)
  {
    hide PinsSound, LiveStamp, Fits, Ranked, ExactTop;
  }

  lemma LandingSound(w: World, s: Step)
    requires Sound(w) && (s.Callback? || s.Abort?) && Next(w, s).Ok?
    ensures Sound(After(w, s))
  {
    hide Next, After, PinsSound, LiveStamp, Fits, RevealOf, ExactTop;
    var v := After(w, s);
    LandingEffect(w, s);
    assert PinsOf(v) == PinsOf(w);
    forall a | a in v.results && v.results[a].ready && LiveStamp(PinsOf(v), a) == Some(v.results[a].generation)
      ensures Ranked(PinsOf(v), v.ledger, a, v.results[a].podium)
    {
      if v.results[a] != w.results[a] {
        assert Fits(PinsOf(w), a, s.c.list);
      }
    }
  }

  // ---- every run ----------------------------------------------------------------------------

  lemma StepSound(w: World, s: Step)
    requires Sound(w) && (Next(w, s).Ok? ==> Safe(w, s))
    ensures Sound(After(w, s))
  {
    hide Sound, Next, After, Safe;
    if Next(w, s).Err? {
      AfterErr(w, s);
    } else if Queues(s) {
      QueueSound(w, s);
    } else if PinsAnew(s) {
      PinSound(w, s);
    } else if s.Callback? || s.Abort? {
      LandingSound(w, s);
    } else {
      QuietStepSound(w, s);
    }
  }

  /** What every state of a safe run is. */
  ghost predicate Reachable(w: World) {
    Sound(w) && OnlyScoredInFlight(w) && Answered(w)
  }

  lemma StepReaches(w: World, s: Step)
    requires Reachable(w) && (Next(w, s).Ok? ==> Safe(w, s))
    ensures Reachable(After(w, s))
  {
    hide Sound, Inv, Next, After, Safe, OnlyScoredInFlight, Answered;
    StepSound(w, s);
    SettledIsSound(w);
    ScoredStay(w, s);
    AnsweredStep(w, s);
  }

  lemma {:induction false} SafeRunKeeps(w: World, steps: seq<Step>)
    requires Reachable(w) && SafeRun(w, steps)
    ensures Reachable(Run(w, steps))
    decreases |steps|
  {
    hide Reachable, Next, After, Safe;
    if steps != [] {
      StepReaches(w, steps[0]);
      SafeRunKeeps(After(w, steps[0]), steps[1..]);
    }
  }

  lemma UnstartedIsReachable(w: World)
    requires Unstarted(w)
    ensures Inv(w) && Reachable(w)
  {
    UnstartedInv(w);
    InvIsSound(w);
  }

  /** Exactness again, from what each step needs: whatever the scores are, a run whose accepted steps
  meet those needs reveals nothing but the podium of all the entries. */
  lemma SafeRunIsExact(w: World, steps: seq<Step>)
    requires Unstarted(w) && SafeRun(w, steps)
    ensures Run(w, steps).round.revealed ==> ExactTop(Standings(w), Entrants(w), Run(w, steps).round.top)
  {
    hide Inv, SafeRun, Run, PinsSound, DueFit, ReadyFit, ExactTop;
    UnstartedIsReachable(w);
    SafeRunKeeps(w, steps);
    RunFrame(w, steps);
  }

  /** In every state of a safe run each usable result answers a list a call can rank. */
  lemma AnsweredListExists(w: World, addr: Addr)
    requires Reachable(w)
    ensures exists answered :: Answers(w, addr, answered)
  {
    hide Sound, RevealOf, Rankable, ScoredRun;
    if addr in w.results && w.results[addr].ready {
      assert AnsweredAt(w, w.results[addr].podium);
      var list :| ScoredRun(w, list) && w.results[addr].podium == RevealOf(w.ledger, list);
      ScoredIsRankable(w, list);
      assert Answers(w, addr, list);
    } else {
      assert Answers(w, addr, []);
    }
  }

  // ---- the three simple conditions are enough -----------------------------------------------

  lemma CarefulQueueIsSafe(w: World, s: Step)
    requires Inv(w) && Queues(s) && Careful(w, s)
    ensures DueListsFit(w, s)
  {
    hide PinsSound, DueFit, ReadyFit, Fits, LiveStamp, ExactTop;
  }

  lemma FittingIsRankable(w: World, addr: Addr, list: seq<Key>)
    requires Shaped(PinsOf(w), w.ledger) && Fits(PinsOf(w), addr, list)
    ensures Rankable(w.ledger, list)
  {
  }

  lemma CarefulPinIsSafe(w: World, s: Step)
    requires Inv(w) && Reachable(w) && PinsAnew(s) && Next(w, s).Ok? && Careful(w, s)
    ensures SafePin(w, After(w, s))
  {
    hide Inv, Next, After, Careful, Reachable, RevealOf, Rankable, Fits, LiveStamp;
    var v := After(w, s);
    StepKeeps(w, s);
    QuietEffect(w, s);
    StepFrame(w, s);
    InvApart(v);
    PinKept(v);
    forall addr | addr in v.results ensures exists answered :: Answers(w, addr, answered) && ListsFit(v, addr, answered) {
      if Live(v, addr) && v.results[addr].ready {
        var list :| Fits(PinsOf(v), addr, list) && v.results[addr].podium == RevealOf(v.ledger, list);
        FittingIsRankable(v, addr, list);
        assert Answers(w, addr, list) && ListsFit(v, addr, list);
      } else {
        AnsweredListExists(w, addr);
        var answered :| Answers(w, addr, answered);
        assert ListsFit(v, addr, answered);
      }
    }
  }

  lemma InvApart(v: World)
    requires Inv(v)
    ensures StampsApart(v)
  {
  }

  lemma PinKept(v: World)
    requires Inv(v)
    ensures Shaped(PinsOf(v), v.ledger) && DueFit(PinsOf(v), v.results, v.inFlight) && ReadyFit(PinsOf(v), v.ledger, v.results)
  {
    hide Inv;
    SettledInv(v);
    PinsAreShaped(v);
    InvRecords(v);
  }

  lemma CarefulIsSafe(w: World, s: Step)
    requires Inv(w) && Reachable(w) && Next(w, s).Ok? && Careful(w, s)
    ensures Safe(w, s)
  {
    hide Inv, Next, After, Reachable, DueListsFit, SafePin;
    if Queues(s) {
      CarefulQueueIsSafe(w, s);
    } else if PinsAnew(s) {
      CarefulPinIsSafe(w, s);
    }
  }

  lemma {:induction false} CarefulRunIsSafe(w: World, steps: seq<Step>)
    requires Inv(w) && Reachable(w) && AdmissibleRun(w, steps)
    ensures SafeRun(w, steps)
    decreases |steps|
  {
    hide Inv, Next, After, Safe, Reachable, Careful;
    if steps != [] {
      if Next(w, steps[0]).Ok? {
        CarefulIsSafe(w, steps[0]);
      }
      StepKeeps(w, steps[0]);
      StepReaches(w, steps[0]);
      CarefulRunIsSafe(After(w, steps[0]), steps[1..]);
    }
  }

  /** A run that respects the three simple conditions meets all these needs: exactness over safe runs is
  the wider theorem. */
  lemma AdmissibleIsSafe(w: World, steps: seq<Step>)
    requires Unstarted(w) && AdmissibleRun(w, steps)
    ensures SafeRun(w, steps)
  {
    hide Inv, Reachable, AdmissibleRun, SafeRun;
    UnstartedIsReachable(w);
    CarefulRunIsSafe(w, steps);
  }
}
