/** Scores are secret, lists are not. Queueing over computations still due, or pinning over results
left behind, is safe whatever the scores are if and only if the lists still due - and the one already
answered - are lists the pins accept: nothing an operator cannot read decides it. */
module DueLists {
  import opened Ranking
  import opened Circuit
  import opened Partition
  import opened Accounts
  import opened Instructions
  import opened RevealRun
  import opened RevealInvariant
  import opened RevealSteps
  import opened RevealTheorem
  import opened RevealNecessity

  // ---- telling two lists apart by their answers --------------------------------------------

  /** The same entries with other scores. */
  predicate SameButScores(a: Ledger, b: Ledger) {
    a.Keys == b.Keys && forall x :: x in a ==> b[x] == a[x].(score := b[x].score)
  }

  /** The chosen entries score 255 and all others nothing. */
  function Favouring(ledger: Ledger, high: set<Key>): (scores: Ledger)
    ensures SameButScores(ledger, scores)
  {
    map x | x in ledger :: ledger[x].(score := if x in high then 255 else 0)
  }

  /** A list a call can rank. */
  predicate Rankable(ledger: Ledger, list: seq<Key>) {
    Ascending(list) && |list| <= SLOTS && forall x :: x in list ==> x in ledger
  }

  predicate Meets(list: seq<Key>, high: set<Key>) {
    exists x :: x in list && x in high
  }

  lemma FavouredWins(ledger: Ledger, high: set<Key>, list: seq<Key>)
    requires Rankable(ledger, list)
    ensures var out := RevealOf(Favouring(ledger, high), list);
            if Meets(list, high) then out.scores[0] == 255 && out.slots[0] < |list| && list[out.slots[0]] in high
            else out.scores[0] == 0
  {
    hide Favouring;
    var scores := Favouring(ledger, high);
    FavouredPoints(ledger, high);
    RevealNamesPodium(scores, list);
    var k, out := ListKeys(scores, list), RevealOf(scores, list);
    assert SlotPlaced(k, 0, out.slots[0]);
    if Meets(list, high) {
      var x :| x in list && x in high;
      var first := list[out.slots[0]];
      assert Placed(PointsOf(scores), Members(list), 0, first) && first in list;
      assert first !in high ==> x in Beaters(PointsOf(scores), Members(list), first);
    }
  }

  lemma FavouredPoints(ledger: Ledger, high: set<Key>)
    ensures var scores := Favouring(ledger, high);
            forall x :: x in ledger ==>
              && scores[x].score == (if x in high then 255 else 0)
              && At(PointsOf(scores), x) == Composite(scores[x].score, scores[x].rarity)
  {
  }

  lemma DifferentAnswers(ledger: Ledger, high: set<Key>, a: seq<Key>, b: seq<Key>)
    requires Rankable(ledger, a) && Rankable(ledger, b) && Meets(a, high) != Meets(b, high)
    ensures RevealOf(Favouring(ledger, high), a) != RevealOf(Favouring(ledger, high), b)
  {
    hide RevealOf, Rankable, Meets;
    FavouredWins(ledger, high, a);
    FavouredWins(ledger, high, b);
  }

  /** A longer list shows in the slot of its last entry. */
  lemma LongerAnswers(ledger: Ledger, a: seq<Key>, b: seq<Key>)
    requires Rankable(ledger, a) && Rankable(ledger, b) && |a| > |b|
    ensures var high := {a[|a| - 1]}; RevealOf(Favouring(ledger, high), a) != RevealOf(Favouring(ledger, high), b)
  {
    hide RevealOf;
    var high := {a[|a| - 1]};
    assert a[|a| - 1] in a;
    FavouredWins(ledger, high, a);
    FavouredWins(ledger, high, b);
  }

  /** For a list a shard's checks refuse, some scores give it an answer that no accepted list gives. */
  lemma RefusedShardList(ledger: Ledger, l: Layout, g: set<Key>, k: nat, list: seq<Key>) returns (scores: Ledger)
    requires WellFormed(l) && k < |l.bounds| && g <= ledger.Keys && Rankable(ledger, list)
    requires !Accepts(l, g, k, list)
    ensures SameButScores(ledger, scores)
    ensures forall d :: Accepts(l, g, k, d) ==> RevealOf(scores, d) != RevealOf(scores, list)
  {
    hide RevealOf, Favouring;
    var high := SeparatingEntries(ledger, l, g, k, list);
    scores := Favouring(ledger, high);
    forall d | Accepts(l, g, k, d) ensures RevealOf(scores, d) != RevealOf(scores, list) {
      assert Rankable(ledger, d);
      Separated(ledger, l, g, k, list, d);
    }
  }

  predicate Belongs(l: Layout, g: set<Key>, k: nat, x: Key)
    requires k < |l.bounds|
  {
    x in g && InInterval(l, k, x)
  }

  /** A stranger in the list, the missing first key, the last of too many, or all that a short list
  leaves out. */
  ghost function SeparatingEntries(ledger: Ledger, l: Layout, g: set<Key>, k: nat, list: seq<Key>): set<Key>
    requires k < |l.bounds|
  {
    if exists x :: x in list && !Belongs(l, g, k, x) then
      var x :| x in list && !Belongs(l, g, k, x);
      {x}
    else if list != [] && list[0] != l.bounds[k] then {l.bounds[k]}
    else if |list| > l.sizes[k] then {list[|list| - 1]}
    else ledger.Keys - Members(list)
  }

  lemma Separated(ledger: Ledger, l: Layout, g: set<Key>, k: nat, list: seq<Key>, d: seq<Key>)
    requires WellFormed(l) && k < |l.bounds| && Rankable(ledger, list) && Rankable(ledger, d)
    requires !Accepts(l, g, k, list) && Accepts(l, g, k, d)
    ensures var scores := Favouring(ledger, SeparatingEntries(ledger, l, g, k, list));
            RevealOf(scores, d) != RevealOf(scores, list)
  {
    hide RevealOf, Favouring;
    var high := SeparatingEntries(ledger, l, g, k, list);
    assert d[0] == l.bounds[k] && d[0] in d;
    if exists x :: x in list && !Belongs(l, g, k, x) {
      DifferentAnswers(ledger, high, d, list);
    } else if list != [] && list[0] != l.bounds[k] {
      assert list[0] in list && forall x :: x in list ==> list[0] <= x;
      DifferentAnswers(ledger, high, d, list);
    } else if |list| > l.sizes[k] {
      LongerAnswers(ledger, list, d);
    } else {
      assert forall i :: 0 <= i < |list| ==> list[i] in list;
      LeftOut(list, d);
      DifferentAnswers(ledger, high, d, list);
    }
  }

  lemma LeftOut(list: seq<Key>, d: seq<Key>)
    requires Ascending(d) && |list| < |d|
    ensures exists x :: x in d && x !in list
  {
    MembersSize(list);
    MembersSize(d);
    if forall x :: x in d ==> x in list {
      SubsetSize(Members(d), Members(list));
    }
  }

  lemma RefusedFinalList(ledger: Ledger, finalists: seq<Key>, list: seq<Key>) returns (scores: Ledger)
    requires Rankable(ledger, finalists) && Rankable(ledger, list) && list != finalists
    ensures SameButScores(ledger, scores) && RevealOf(scores, finalists) != RevealOf(scores, list)
  {
    hide RevealOf, Favouring;
    if Members(list) == Members(finalists) {
      AscendingUnique(list, finalists);
    }
    var x :| (x in list) != (x in finalists);
    DifferentAnswers(ledger, {x}, finalists, list);
    scores := Favouring(ledger, {x});
  }

  // ---- what the pins ask -------------------------------------------------------------------

  /** Well-formed layouts over entries of the ledger, and a queued final over a rankable list. */
  predicate Shaped(q: Pins, ledger: Ledger) {
    && q.entries <= ledger.Keys
    && (q.bracket.Some? ==>
          && WellFormed(q.bracket.value.layout) && q.ground <= ledger.Keys
          && (q.bracket.value.finalQueued ==> Rankable(ledger, q.bracket.value.finalists)))
    && (q.tier1.Some? ==> WellFormed(q.tier1.value.layout))
  }

  /** A list fits the pins if and only if its answer is one the pins would rank, whatever the scores. */
  lemma ListsDecide(q: Pins, ledger: Ledger, addr: Addr, list: seq<Key>)
    requires Shaped(q, ledger) && Rankable(ledger, list)
    ensures Fits(q, addr, list)
       <==> forall scores :: SameButScores(ledger, scores) ==> Ranked(q, scores, addr, RevealOf(scores, list))
  {
    hide RevealOf, SameButScores;
    if !Fits(q, addr, list) {
      var scores := UnfitAnswer(q, ledger, addr, list);
      assert !Ranked(q, scores, addr, RevealOf(scores, list));
    }
  }

  lemma UnfitAnswer(q: Pins, ledger: Ledger, addr: Addr, list: seq<Key>) returns (scores: Ledger)
    requires Shaped(q, ledger) && Rankable(ledger, list) && !Fits(q, addr, list)
    ensures SameButScores(ledger, scores)
    ensures forall d :: Fits(q, addr, d) ==> RevealOf(scores, d) != RevealOf(scores, list)
  {
    hide RevealOf, SameButScores, Accepts, Rankable, WellFormed;
    scores := Favouring(ledger, {});
    if IsFinal(addr) {
      if q.bracket.Some? && q.bracket.value.finalQueued {
        scores := RefusedFinalList(ledger, q.bracket.value.finalists, list);
      }
    } else if IsTier1(q, addr) {
      if q.tier1.Some? && addr.shard < |q.tier1.value.layout.bounds| {
        scores := RefusedShardList(ledger, q.tier1.value.layout, q.entries, addr.shard, list);
      }
    } else {
      var k := if addr.ShardResult? then addr.shard else addr.semi;
      if q.bracket.Some? && k < |q.bracket.value.layout.bounds| {
        scores := RefusedShardList(ledger, q.bracket.value.layout, q.ground, k, list);
      }
    }
  }

  // ---- records ------------------------------------------------------------------------------

  /** v with other scores: a result already at addr is what the list it answers would have got. */
  ghost function Rescored(v: World, addr: Addr, answered: seq<Key>, scores: Ledger): World {
    v.(ledger := scores,
       results := if addr in v.results && v.results[addr].ready
                  then v.results[addr := v.results[addr].(podium := RevealOf(scores, answered))] else v.results)
  }

  /** If the record reads as live, the list it answers and every list still due there fit the pins. */
  predicate ListsFit(v: World, addr: Addr, answered: seq<Key>) {
    Live(v, addr) ==>
      && (v.results[addr].ready ==> Fits(PinsOf(v), addr, answered))
      && forall c :: c in v.inFlight && c.addr == addr ==> Fits(PinsOf(v), addr, c.list)
  }

  /** A result at addr answers this list. */
  ghost predicate Answers(v: World, addr: Addr, list: seq<Key>) {
    addr in v.results && v.results[addr].ready ==>
      v.results[addr].podium == RevealOf(v.ledger, list) && Rankable(v.ledger, list)
  }

  predicate RankableDue(v: World) {
    forall c :: c in v.inFlight ==> Rankable(v.ledger, c.list)
  }

  lemma RescoredFrame(v: World, addr: Addr, answered: seq<Key>, scores: Ledger)
    requires SameButScores(v.ledger, scores)
    ensures var u := Rescored(v, addr, answered, scores);
            && PinsOf(u) == PinsOf(v) && u.inFlight == v.inFlight && u.ledger == scores && (Live(u, addr) <==> Live(v, addr))
    ensures Answers(v, addr, answered) && scores == v.ledger ==> Rescored(v, addr, answered, scores) == v
  {
    hide RevealOf, LiveStamp;
    assert RoundEntries(scores, v.round.key) == RoundEntries(v.ledger, v.round.key);
  }

  ghost predicate TrustedAnyhow(v: World, addr: Addr, answered: seq<Key>, scores: Ledger) {
    forall steps :: Landings(steps) ==> Trustworthy(Run(Rescored(v, addr, answered, scores), steps), addr)
  }

  lemma FittingIsTrusted(v: World, addr: Addr, answered: seq<Key>, scores: Ledger)
    requires ListsFit(v, addr, answered) && SameButScores(v.ledger, scores)
    ensures TrustedAnyhow(v, addr, answered, scores)
  {
    hide RevealOf, LiveStamp, Run, Fits, Landings, SameButScores, PinsOf;
    RescoredFrame(v, addr, answered, scores);
    TrustIsDecided(Rescored(v, addr, answered, scores), addr);
  }

  lemma TrustedMeansRanked(v: World, addr: Addr, answered: seq<Key>, scores: Ledger, list: seq<Key>)
    requires SameButScores(v.ledger, scores) && TrustedAnyhow(v, addr, answered, scores) && Live(v, addr)
    requires (v.results[addr].ready && list == answered) || exists c :: c in v.inFlight && c.addr == addr && c.list == list
    ensures Ranked(PinsOf(v), scores, addr, RevealOf(scores, list))
  {
    hide RevealOf, LiveStamp, Run, Fits, Ranked, Landings, SameButScores, PinsOf;
    RescoredFrame(v, addr, answered, scores);
    TrustIsDecided(Rescored(v, addr, answered, scores), addr);
  }

  lemma TrustedListFits(v: World, addr: Addr, answered: seq<Key>, list: seq<Key>)
    requires Shaped(PinsOf(v), v.ledger) && Rankable(v.ledger, list) && Live(v, addr)
    requires (v.results[addr].ready && list == answered) || exists c :: c in v.inFlight && c.addr == addr && c.list == list
    requires forall scores :: SameButScores(v.ledger, scores) ==> TrustedAnyhow(v, addr, answered, scores)
    ensures Fits(PinsOf(v), addr, list)
  {
    hide RevealOf, Fits, Ranked, Landings, SameButScores, PinsOf, TrustedAnyhow, Live, Shaped;
    forall scores | SameButScores(v.ledger, scores) ensures Ranked(PinsOf(v), scores, addr, RevealOf(scores, list)) {
      TrustedMeansRanked(v, addr, answered, scores, list);
    }
    ListsDecide(PinsOf(v), v.ledger, addr, list);
  }

  /** A record can be trusted, whatever the scores and whatever order the cluster answers in, if and
  only if the list it answers and the lists still due there are what the pins rank. */
  lemma TrustIsVisible(v: World, addr: Addr, answered: seq<Key>)
    requires Shaped(PinsOf(v), v.ledger) && RankableDue(v) && Answers(v, addr, answered)
    ensures ListsFit(v, addr, answered)
       <==> forall scores :: SameButScores(v.ledger, scores) ==> TrustedAnyhow(v, addr, answered, scores)
  {
    hide RevealOf, Fits, Ranked, SameButScores, PinsOf, TrustedAnyhow, LiveStamp, Rankable, Shaped;
    if ListsFit(v, addr, answered) {
      forall scores | SameButScores(v.ledger, scores) ensures TrustedAnyhow(v, addr, answered, scores) {
        FittingIsTrusted(v, addr, answered, scores);
      }
    } else if forall scores :: SameButScores(v.ledger, scores) ==> TrustedAnyhow(v, addr, answered, scores) {
      var list := if v.results[addr].ready && !Fits(PinsOf(v), addr, answered) then answered else UnfitDue(v, addr);
      TrustedListFits(v, addr, answered, list);
    }
  }

  ghost function UnfitDue(v: World, addr: Addr): (list: seq<Key>)
    requires exists c :: c in v.inFlight && c.addr == addr && !Fits(PinsOf(v), addr, c.list)
    ensures !Fits(PinsOf(v), addr, list) && exists c :: c in v.inFlight && c.addr == addr && c.list == list
  {
    var c :| c in v.inFlight && c.addr == addr && !Fits(PinsOf(v), addr, c.list);
    c.list
  }

  // ---- reachable states ---------------------------------------------------------------------

  /** Every usable result answers a scored run of this round's entries. */
  ghost predicate Answered(w: World) {
    forall a :: a in w.results && w.results[a].ready ==> AnsweredAt(w, w.results[a].podium)
  }

  ghost predicate AnsweredAt(w: World, podium: Podium) {
    exists list :: ScoredRun(w, list) && podium == RevealOf(w.ledger, list)
  }

  lemma ScoredIsRankable(w: World, list: seq<Key>)
    requires ScoredRun(w, list)
    ensures Rankable(w.ledger, list)
  {
  }

  lemma AnsweredStep(w: World, s: Step)
    requires OnlyScoredInFlight(w) && Answered(w)
    ensures Answered(After(w, s))
  {
    hide Next, After, ScoredRun, RevealOf;
    var v := After(w, s);
    StepFrame(w, s);
    ResultsWritten(w, s);
    forall a | a in v.results && v.results[a].ready ensures AnsweredAt(v, v.results[a].podium) {
      var list :| ScoredRun(w, list) && v.results[a].podium == RevealOf(w.ledger, list);
      SameEntries(w, v, list);
    }
  }

  /** A usable result was there before or is what a computation in flight has just answered. */
  lemma ResultsWritten(w: World, s: Step)
    ensures var v := After(w, s);
            forall a :: a in v.results && v.results[a].ready ==>
              || (a in w.results && w.results[a].ready && v.results[a].podium == w.results[a].podium)
              || exists c :: c in w.inFlight && v.results[a].podium == RevealOf(w.ledger, c.list)
  {
    hide RevealOf, Next, After;
    if Next(w, s).Err? {
      AfterErr(w, s);
    } else if s.Callback? {
      CallbackReady(w, s);
      InFlightBefore(w, s);
    } else if s.Abort? {
      LandingEffect(w, s);
    } else if Queues(s) {
      QueueEffect(w, s);
    } else {
      QuietEffect(w, s);
    }
  }

  lemma AfterErr(w: World, s: Step)
    requires Next(w, s).Err?
    ensures After(w, s) == w
  {
    hide Next;
  }

  lemma InFlightBefore(w: World, s: Step)
    requires s.Callback? && Next(w, s).Ok?
    ensures s.c in w.inFlight
  {
    hide RevealOf;
  }

  // ---- queueing -----------------------------------------------------------------------------

  /** What an operator reads off before queueing: every computation still due ranks the list about to
  be queued, or another list the pins accept there. */
  predicate DueListsFit(w: World, s: Step)
    requires Queues(s)
  {
    LiveStamp(PinsOf(w), QueuedAddr(s)) == Some(QueuedStamp(w, s)) ==>
      forall c :: c in w.inFlight && c.addr == QueuedAddr(s) ==>
        c.list == s.list || Fits(PinsOf(w), QueuedAddr(s), c.list)
  }

  /** Nothing in flight. */
  function Settled(w: World): World {
    w.(inFlight := multiset{})
  }

  /** The invariant of the reveal but for the stamps computations were queued under. */
  ghost predicate Sound(w: World) {
    && |Entrants(w)| == w.round.participantCount
    && PinsSound(Standings(w), PinsOf(w))
    && DueFit(PinsOf(w), w.results, w.inFlight) && ReadyFit(PinsOf(w), w.ledger, w.results)
    && (w.round.revealed ==> ExactTop(Standings(w), Entrants(w), w.round.top))
  }

  lemma InvIsSound(w: World)
    requires Inv(w)
    ensures Sound(w)
  {
  }

  lemma SettledIsSound(w: World)
    requires Sound(w)
    ensures Inv(Settled(w)) && PinsOf(Settled(w)) == PinsOf(w)
  {
    hide PinsSound, ReadyFit, ExactTop;
    assert PinsOf(Settled(w)) == PinsOf(w);
  }

  lemma SettledInv(w: World)
    requires Inv(w)
    ensures Inv(Settled(w))
  {
    hide Sound, Inv;
    InvIsSound(w);
    SettledIsSound(w);
  }

  lemma SettledQueue(w: World, s: Step)
    requires Queues(s) && Next(w, s).Ok?
    ensures Next(Settled(w), s).Ok? && Careful(Settled(w), s)
    ensures PinsOf(After(Settled(w), s)) == PinsOf(After(w, s)) && After(Settled(w), s).results == After(w, s).results
  {
    hide QueueShardReveal, QueueTier1ShardReveal, QueueSemifinalReveal;
    assert Settled(w).bracket == w.bracket && Settled(w).tier1 == w.tier1;
  }

  /** An accepted queue step ranks what the pins accept. */
  lemma QueuedListFits(w: World, s: Step)
    requires Inv(Settled(w)) && Queues(s) && Next(w, s).Ok? && Live(After(w, s), QueuedAddr(s))
    ensures Fits(PinsOf(After(w, s)), QueuedAddr(s), s.list)
  {
    hide Next, After, PinsSound, ReadyFit, QueuedFit, Fits, LiveStamp, Careful, PinsOf;
    SettledQueue(w, s);
    StepKeeps(Settled(w), s);
    QueueEffect(Settled(w), s);
    assert Computation(QueuedAddr(s), s.list, QueuedStamp(Settled(w), s)) in After(Settled(w), s).inFlight;
  }

  lemma QueueKeepsLive(w: World, s: Step)
    requires Queues(s) && Next(w, s).Ok?
    ensures Live(After(w, s), QueuedAddr(s)) <==> LiveStamp(PinsOf(w), QueuedAddr(s)) == Some(QueuedStamp(w, s))
    ensures !After(w, s).results[QueuedAddr(s)].ready
  {
    hide Next, After;
    QueueEffect(w, s);
  }

  /** What fits after a queue step is what fitted before, and the list just queued. */
  lemma FitsAfterQueue(w: World, s: Step, list: seq<Key>)
    requires Inv(Settled(w)) && Queues(s) && Next(w, s).Ok? && Live(After(w, s), QueuedAddr(s))
    ensures Fits(PinsOf(After(w, s)), QueuedAddr(s), list)
       <==> list == s.list || Fits(PinsOf(w), QueuedAddr(s), list)
  {
    hide Next, After, Inv, LiveStamp, Accepts;
    QueuedListFits(w, s);
    QueueEffect(w, s);
    if s.QueueShard? && s.index == FINAL_SHARD_INDEX && w.bracket.value.finalQueued {
      SettledQueue(w, s);
      FinalRequeueIsHarmless(Settled(w), s);
    }
  }

  lemma FinalListRankable(w: World)
    requires Inv(Settled(w)) && w.bracket.Some? && w.bracket.value.finalQueued
    ensures Rankable(w.ledger, w.bracket.value.finalists)
  {
    hide RecordsSound, Tier1Sound, ExactTop;
    var b := w.bracket.value;
    FinalistsCover(Standings(w), PinsOf(w), b);
    assert forall x :: x in b.finalists ==> x in Members(b.finalists);
  }

  lemma PinsAreShaped(w: World)
    requires Inv(Settled(w))
    ensures Shaped(PinsOf(w), w.ledger)
  {
    hide RecordsSound, ExactTop, Rankable, FinalistsSound, WinnersSound;
    if w.bracket.Some? && w.bracket.value.finalQueued {
      FinalListRankable(w);
    }
  }

  lemma QueueKeepsShape(w: World, s: Step)
    requires Inv(Settled(w)) && Queues(s) && Next(w, s).Ok?
    ensures Shaped(PinsOf(After(w, s)), After(w, s).ledger)
  {
    hide Inv, Next, After, Rankable;
    SettledQueue(w, s);
    StepKeeps(Settled(w), s);
    SettledInv(After(Settled(w), s));
    PinsAreShaped(After(Settled(w), s));
    StepFrame(w, s);
    StepFrame(Settled(w), s);
  }

  lemma ScoredAreRankable(w: World)
    requires OnlyScoredInFlight(w)
    ensures RankableDue(w)
  {
    hide ScoredRun, Rankable;
    forall c | c in w.inFlight ensures Rankable(w.ledger, c.list) {
      ScoredIsRankable(w, c.list);
    }
  }

  lemma ScoredStay(w: World, s: Step)
    requires Inv(Settled(w)) && OnlyScoredInFlight(w)
    ensures OnlyScoredInFlight(After(w, s))
  {
    hide Inv, ScoredRun, Next, After;
    var v := After(w, s);
    StepFrame(w, s);
    NewInFlight(w, s);
    if Queues(s) && Next(w, s).Ok? {
      SettledQueue(w, s);
      QueuedIsScored(Settled(w), s);
      SameEntries(w, Settled(w), s.list);
    }
    forall c | c in v.inFlight ensures ScoredRun(v, c.list) {
      SameEntries(w, v, c.list);
    }
  }

  lemma QueueListsFit(w: World, s: Step)
    requires Inv(Settled(w)) && Queues(s) && Next(w, s).Ok?
    ensures ListsFit(After(w, s), QueuedAddr(s), []) <==> DueListsFit(w, s)
  {
    hide Inv, Next, After, PinsOf, LiveStamp, Fits;
    var v := After(w, s);
    QueueKeepsLive(w, s);
    QueueEffect(w, s);
    if Live(v, QueuedAddr(s)) {
      forall list ensures Fits(PinsOf(v), QueuedAddr(s), list)
                     <==> list == s.list || Fits(PinsOf(w), QueuedAddr(s), list)
      {
        FitsAfterQueue(w, s, list);
      }
    }
  }

  /** Exactly when queueing is safe, in terms of what can be read before the call: the record stays
  trustworthy in every order the cluster may answer in, whatever the scores, if and only if every list
  still due there is the one queued or one the pins accept. */
  lemma QueueIsSafeByLists(w: World, s: Step)
    requires Sound(w) && OnlyScoredInFlight(w) && Queues(s) && Next(w, s).Ok?
    ensures DueListsFit(w, s)
       <==> forall scores :: SameButScores(w.ledger, scores) ==> TrustedAnyhow(After(w, s), QueuedAddr(s), [], scores)
  {
    hide Sound, Inv, Next, After, PinsOf, TrustedAnyhow, ListsFit, DueListsFit, SameButScores, OnlyScoredInFlight;
    var v := After(w, s);
    SettledIsSound(w);
    QueueKeepsLive(w, s);
    QueueKeepsShape(w, s);
    ScoredStay(w, s);
    ScoredAreRankable(v);
    QueueListsFit(w, s);
    StepFrame(w, s);
    TrustIsVisible(v, QueuedAddr(s), []);
  }

  // ---- pinning ------------------------------------------------------------------------------

  lemma PinKeepsShape(w: World, s: Step)
    requires Inv(Settled(w)) && PinsAnew(s) && Next(w, s).Ok?
    ensures Shaped(PinsOf(After(w, s)), After(w, s).ledger)
  {
    hide Inv, Rankable;
    PinsAreShaped(w);
    if s.PinBracket? {
      LayoutOkIsWellFormed(s.sizes, s.bounds, s.count, MAX_SHARDS, w.round.participantCount);
    } else if s.PinTier1? {
      LayoutOkIsWellFormed(s.sizes, s.bounds, s.count, MAX_TIER1_SHARDS, w.round.participantCount);
    } else {
      PromotedShape(w, s);
    }
  }

  lemma PromotedShape(w: World, s: Step)
    requires Inv(Settled(w)) && s.Promote? && Next(w, s).Ok?
    ensures var v := After(w, s);
            && v.ledger == w.ledger && Entrants(v) == Entrants(w) && v.bracket.Some? && v.tier1.Some?
            && WellFormed(v.bracket.value.layout) && !v.bracket.value.finalQueued
            && v.tier1.value.layout == w.tier1.value.layout && v.ground <= Entrants(w)
  {
    hide Next, After, RecordsSound, PromotedLayout, ExactTop, BracketSound, Kept, Filled;
    PromoteEffect(w, s);
    PromotedGround(Standings(w), Entrants(w), w.tier1.value);
  }

  /** Exactly when a pin is safe, in terms of lists: under the new stamp the result left behind and
  everything due there read as stale, or rank lists the new pins accept. */
  lemma PinIsSafeByLists(w: World, s: Step, addr: Addr, answered: seq<Key>)
    requires Sound(w) && OnlyScoredInFlight(w) && PinsAnew(s) && Next(w, s).Ok? && Answers(w, addr, answered)
    ensures ListsFit(After(w, s), addr, answered)
       <==> forall scores :: SameButScores(w.ledger, scores) ==> TrustedAnyhow(After(w, s), addr, answered, scores)
  {
    hide Sound, Inv, Next, After, PinsOf, TrustedAnyhow, ListsFit, SameButScores, OnlyScoredInFlight, RevealOf;
    var v := After(w, s);
    SettledIsSound(w);
    QuietEffect(w, s);
    PinKeepsShape(w, s);
    ScoredStay(w, s);
    ScoredAreRankable(v);
    StepFrame(w, s);
    TrustIsVisible(v, addr, answered);
  }
}
