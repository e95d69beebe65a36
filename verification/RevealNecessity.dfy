/** Why the operator conditions are there: exactly when a queue step or a pin is safe, in terms of what
the cluster would answer (DueLists turns that into lists, which can be read beforehand), and exactly
when two tier-1 stamps collide. MisrankedRuns has for each of these two conditions a run that breaks
nothing else and crowns the wrong entry; LostWinner does the same for the third. */
module RevealNecessity {
  import opened Ranking
  import opened Accounts
  import opened Instructions
  import opened RevealRun
  import opened RevealInvariant
  import opened RevealSteps
  import opened RevealTheorem

  // ---- queueing over computations still due ------------------------------------------------

  /** Only callbacks and lost computations: the cluster at work between two instructions. */
  predicate Landings(steps: seq<Step>) {
    forall i :: 0 <= i < |steps| ==> steps[i].Callback? || steps[i].Abort?
  }

  /** If the instructions would accept the record at addr, it ranks what the current pins rank. */
  ghost predicate Trustworthy(w: World, addr: Addr) {
    addr in w.results && w.results[addr].ready && LiveStamp(PinsOf(w), addr) == Some(w.results[addr].generation) ==>
      Ranked(PinsOf(w), w.ledger, addr, w.results[addr].podium)
  }

  predicate Live(w: World, addr: Addr) {
    addr in w.results && LiveStamp(PinsOf(w), addr) == Some(w.results[addr].generation)
  }

  /** Every computation still due at addr answers with a podium the current pins would rank. */
  ghost predicate DueRanked(w: World, addr: Addr) {
    forall c :: c in w.inFlight && c.addr == addr ==> Ranked(PinsOf(w), w.ledger, addr, RevealOf(w.ledger, c.list))
  }

  lemma LandingEffect(w: World, s: Step)
    requires s.Callback? || s.Abort?
    ensures var v := After(w, s);
            && v == w.(results := v.results, inFlight := v.inFlight) && v.inFlight <= w.inFlight
            && (forall a :: a in v.results <==> a in w.results)
            && (forall a :: a in w.results ==> v.results[a].generation == w.results[a].generation)
            && (forall a :: a in w.results && v.results[a] != w.results[a] ==>
                  s.Callback? && s.c in w.inFlight && s.c.addr == a && v.results[a].podium == RevealOf(w.ledger, s.c.list))
  {
  }

  lemma {:induction false} RankedStaysTrusted(w: World, steps: seq<Step>, addr: Addr)
    requires Landings(steps) && Trustworthy(w, addr) && (Live(w, addr) ==> DueRanked(w, addr))
    ensures Trustworthy(Run(w, steps), addr)
    decreases |steps|
  {
    hide After, Ranked, LiveStamp, RevealOf;
    if steps != [] {
      var v := After(w, steps[0]);
      LandingEffect(w, steps[0]);
      assert PinsOf(v) == PinsOf(w);
      assert Trustworthy(v, addr);
      RankedStaysTrusted(v, steps[1..], addr);
    }
  }

  /** If one computation due would answer wrongly, its landing is the failing order. */
  lemma WrongAnswerLands(v: World, c: Computation)
    requires c in v.inFlight && Live(v, c.addr)
    requires !Ranked(PinsOf(v), v.ledger, c.addr, RevealOf(v.ledger, c.list))
    ensures Landings([Callback(c)]) && !Trustworthy(Run(v, [Callback(c)]), c.addr)
  {
    hide Run, Ranked, LiveStamp, RevealOf;
    var u := LandOne(v, c);
    assert PinsOf(u) == PinsOf(v);
  }

  /** Whether a record can be trusted in every order the cluster may answer in is decided by what it
  holds and what is due: it is trustworthy now, and, if live, everything due would answer rightly. */
  lemma TrustIsDecided(v: World, addr: Addr)
    ensures Trustworthy(v, addr) && (Live(v, addr) ==> DueRanked(v, addr))
       <==> forall steps :: Landings(steps) ==> Trustworthy(Run(v, steps), addr)
  {
    hide Run, Ranked, LiveStamp, RevealOf, Landings;
    if Trustworthy(v, addr) && (Live(v, addr) ==> DueRanked(v, addr)) {
      forall steps | Landings(steps) ensures Trustworthy(Run(v, steps), addr) {
        RankedStaysTrusted(v, steps, addr);
      }
    } else if !Trustworthy(v, addr) {
      NothingLands(v);
    } else {
      var c :| c in v.inFlight && c.addr == addr && !Ranked(PinsOf(v), v.ledger, addr, RevealOf(v.ledger, c.list));
      WrongAnswerLands(v, c);
    }
  }

  lemma NothingLands(v: World)
    ensures Landings([]) && Run(v, []) == v
  {
  }

  /** Exactly when queueing is safe: the record it resets stays trustworthy if and only if everything
  still due at it answers the question the pins ask. */
  lemma QueueIsSafe(w: World, s: Step)
    requires Queues(s) && Next(w, s).Ok?
    ensures var v, addr := After(w, s), QueuedAddr(s);
            (Live(v, addr) ==> DueRanked(v, addr))
            <==> forall steps :: Landings(steps) ==> Trustworthy(Run(v, steps), addr)
  {
    hide Next, After, Run, Landings, DueRanked, LiveStamp, Ranked;
    NotReadyYet(w, s);
    TrustIsDecided(After(w, s), QueuedAddr(s));
  }

  /** A queue step resets its record, so nothing is trusted there yet. */
  lemma NotReadyYet(w: World, s: Step)
    requires Queues(s) && Next(w, s).Ok?
    ensures var v := After(w, s); QueuedAddr(s) in v.results && !v.results[QueuedAddr(s)].ready
  {
    hide Next, After;
    QueueEffect(w, s);
  }

  predicate PinsAnew(s: Step) {
    s.PinBracket? || s.PinTier1? || s.Promote?
  }

  /** Exactly when a pin is safe: under its new stamp a result left behind is live only if it ranks what
  the new pins rank, and so is every answer still due. */
  lemma PinIsSafe(w: World, s: Step, addr: Addr)
    requires PinsAnew(s) && Next(w, s).Ok?
    ensures var v := After(w, s);
            && v.results == w.results && v.inFlight == w.inFlight
            && (Trustworthy(v, addr) && (Live(v, addr) ==> DueRanked(v, addr))
                <==> forall steps :: Landings(steps) ==> Trustworthy(Run(v, steps), addr))
  {
    hide Next, After, Run, Landings, DueRanked, Trustworthy, LiveStamp;
    QuietEffect(w, s);
    TrustIsDecided(After(w, s), addr);
  }

  /** A stamp nothing usable or due carries is enough for that. */
  lemma FreshPinIsSafe(w: World, s: Step, addr: Addr)
    requires Inv(w) && PinsAnew(s) && Next(w, s).Ok? && Careful(w, s)
    ensures Trustworthy(After(w, s), addr) && (Live(After(w, s), addr) ==> DueRanked(After(w, s), addr))
  {
    hide Next, After, PinsSound, Careful, RevealOf;
    StepKeeps(w, s);
  }

  lemma LandOne(v: World, c: Computation) returns (u: World)
    requires c in v.inFlight && c.addr in v.results
    ensures u == Run(v, [Callback(c)])
         == v.(results := v.results[c.addr := v.results[c.addr].(podium := RevealOf(v.ledger, c.list), ready := true)],
               inFlight := v.inFlight - multiset{c})
  {
    u := After(v, Callback(c));
    assert [Callback(c)][1..] == [];
    assert Run(u, []) == u;
  }

  /** What the operator can check beforehand is enough: everything due was queued under this
  stamp, or over this list. */
  lemma NoOtherListIsSafe(w: World, s: Step)
    requires Inv(w) && Queues(s) && Next(w, s).Ok? && Careful(w, s)
    ensures Live(After(w, s), QueuedAddr(s)) ==> DueRanked(After(w, s), QueuedAddr(s))
  {
    hide Next, After, PinsSound, Careful, RevealOf;
    StepKeeps(w, s);
  }

  // ---- tier-1 stamps -----------------------------------------------------------------------

  /** Tier 1 is pinned, a shard queued, the account closed and pinned anew; then the shard's
  answer lands. */
  function PinQueueClosePin(first: Step, k: nat, list: seq<Key>, second: Step): seq<Step>
    requires first.PinTier1?
  {
    [first, QueueTier1(true, k, list), CloseTier1Account(true), second,
     Callback(Computation(ShardResult(k), list, first.slot % STAMPS))]
  }

  lemma AcceptedFive(w: World, s: seq<Step>)
    requires |s| == 5 && Accepted(w, s)
    ensures var w1 := After(w, s[0]); var w2 := After(w1, s[1]); var w3 := After(w2, s[2]); var w4 := After(w3, s[3]);
            && Next(w, s[0]).Ok? && Next(w1, s[1]).Ok? && Next(w2, s[2]).Ok? && Next(w3, s[3]).Ok? && Next(w4, s[4]).Ok?
            && Run(w, s) == After(w4, s[4])
  {
    hide Next, After, Run, Accepted;
    var w1 := After(w, s[0]);
    var w2 := After(w1, s[1]);
    var w3 := After(w2, s[2]);
    AcceptedCons(w, s);
    AcceptedCons(w1, s[1..]);
    AcceptedCons(w2, s[1..][1..]);
    AcceptedCons(w3, s[1..][1..][1..]);
    AcceptedCons(After(w3, s[3]), s[1..][1..][1..][1..]);
    assert s[1..][1..][1..][1..][1..] == [];
    RunEmpty(After(After(w3, s[3]), s[4]));
  }

  lemma AcceptedCons(w: World, s: seq<Step>)
    requires s != [] && Accepted(w, s)
    ensures Next(w, s[0]).Ok? && Accepted(After(w, s[0]), s[1..])
    ensures Run(w, s) == Run(After(w, s[0]), s[1..])
  {
  }

  lemma PinTier1Effect(w: World, s: Step)
    requires s.PinTier1? && Next(w, s).Ok?
    ensures TwoTier(w) && w.tier1.None? && After(w, s).tier1.Some?
    ensures var t := After(w, s).tier1.value;
            && t.generation == s.slot % STAMPS && !t.promoted && |t.layout.sizes| <= MAX_TIER1_SHARDS
            && After(w, s) == w.(tier1 := Some(t))
  {
    hide WinnersUpTo;
  }

  lemma CloseEffect(w: World, s: Step)
    requires s.CloseTier1Account? && Next(w, s).Ok?
    ensures After(w, s) == w.(tier1 := None)
  {
  }

  lemma QueueTier1InRange(w: World, s: Step)
    requires s.QueueTier1? && Next(w, s).Ok?
    ensures w.tier1.Some? && s.index < |w.tier1.value.layout.sizes|
  {
  }

  /** The stamp is the low half of the clock slot: what answered a question asked under the first
  pin passes for an answer under the second exactly when the two slots agree modulo 2^32. */
  lemma Tier1StampsCollide(w: World, first: Step, k: nat, list: seq<Key>, second: Step)
    requires first.PinTier1? && second.PinTier1?
    requires Accepted(w, PinQueueClosePin(first, k, list, second))
    ensures var v := Run(w, PinQueueClosePin(first, k, list, second));
            && v.tier1.Some? && ShardResult(k) in v.results
            && (RecordError(v.results[ShardResult(k)], v.tier1.value.generation) == None
                <==> first.slot % STAMPS == second.slot % STAMPS)
            && (Live(v, ShardResult(k)) <==> first.slot % STAMPS == second.slot % STAMPS)
  {
    hide Next, After, Run, Accepted, RevealOf;
    var s := PinQueueClosePin(first, k, list, second);
    AcceptedFive(w, s);
    PinTier1Effect(w, first);
    var w1 := After(w, first);
    QueueEffect(w1, s[1]);
    QueueTier1InRange(w1, s[1]);
    var w2 := After(w1, s[1]);
    CloseEffect(w2, s[2]);
    var w3 := After(w2, s[2]);
    PinTier1Effect(w3, second);
    LandingEffect(After(w3, second), s[4]);
    CallbackReady(After(w3, second), s[4]);
  }

  lemma CallbackReady(w: World, s: Step)
    requires s.Callback? && Next(w, s).Ok?
    ensures s.c.addr in w.results
    ensures After(w, s).results == w.results[s.c.addr := w.results[s.c.addr].(podium := RevealOf(w.ledger, s.c.list), ready := true)]
  {
  }
}
