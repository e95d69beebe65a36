/** The end of the automatic operator's run: the final over the collected finalists, unless there
was only one shard, and the result applied. */
module EndgameDriver {
  import opened Ranking
  import opened Accounts
  import opened Instructions
  import opened RevealRun
  import opened RevealInvariant
  import opened RevealTheorem
  import opened RevealProgress
  import opened TierDriver

  /** Every shard is collected, nothing is due, and nothing is applied. */
  ghost predicate AtEndgame(w: World) {
    && !w.round.revealed && AllScored(w) && w.inFlight == multiset{} && w.bracket.Some? && !w.bracket.value.applied
    && forall k :: 0 <= k < |w.bracket.value.layout.sizes| ==> k in w.bracket.value.collected
  }

  /** The final's job: the finalists in byte order. */
  ghost function FinalJob(b: Bracket): Computation {
    Computation(ShardResult(FINAL_SHARD_INDEX), Sorted(Members(b.finalists)), b.generation)
  }

  /** A final already queued is only waited for, never queued again. */
  ghost function EndgameSteps(w: World): seq<Step> {
    if w.bracket.None? then []
    else
      var b := w.bracket.value;
      if OneShard(b) then [ApplyResult(true, 0)]
      else if b.finalQueued then [ApplyResult(true, FINAL_SHARD_INDEX)]
      else [QueueShard(true, FINAL_SHARD_INDEX, FinalJob(b).list)] + [Callback(FinalJob(b))]
           + [ApplyResult(true, FINAL_SHARD_INDEX)]
  }

  /** The record that will be applied is current: the lone shard's, or that of a final queued
  earlier. A final still to be queued needs nothing. */
  predicate EndgameOpen(w: World) {
    w.bracket.Some? &&
    var b := w.bracket.value;
    var addr := ShardResult(if OneShard(b) then 0 else FINAL_SHARD_INDEX);
    OneShard(b) || b.finalQueued ==> addr in w.results && RecordError(w.results[addr], b.generation) == None
  }

  lemma FinalistsDistinct(p: Points, q: Pins, b: Bracket)
    requires BracketSound(p, q, b) && AllCollected(b)
    ensures Distinct(b.finalists) && Members(b.finalists) <= q.entries && |b.finalists| <= MAX_FINALISTS
  {
    FinalistsCover(p, q, b);
  }

  /** The finalists in their canonical order are always accepted as the final's accounts. */
  lemma FinalRunAccepted(w: World, b: Bracket)
    requires Inv(w) && w.bracket == Some(b) && AllCollected(b) && AllScored(w)
    ensures var list := Sorted(Members(b.finalists));
            && |list| == |b.finalists| <= MAX_FINALISTS
            && RunError(w.ledger, w.round.key, Among(b.finalists), true, list, 0) == None
  {
    hide RecordsSound, Tier1Sound, GroundSound, FinalistsSound, RunError, Distinct, Ascending;
    FinalistsDistinct(Standings(w), PinsOf(w), b);
    MembersSize(b.finalists);
    AscendingRunAccepted(w.ledger, w.round.key, b.finalists, Sorted(Members(b.finalists)));
  }

  lemma AscendingRunAccepted(ledger: Ledger, round: Key, finalists: seq<Key>, list: seq<Key>)
    requires Ascending(list) && Members(list) <= Members(finalists)
    requires forall x :: x in Members(finalists) ==> x in RoundEntries(ledger, round) && ledger[x].scored
    ensures RunError(ledger, round, Among(finalists), true, list, 0) == None
  {
    RunAccepted(ledger, round, Among(finalists), true, list, 0);
    forall i | 0 <= i < |list| ensures ElementError(ledger, round, Among(finalists), true, list, i) == None {
      assert list[i] in Members(list);
    }
  }

  /** Queueing the final is accepted, first or again, if and only if there is one to queue and the accounts
  are the finalists, all scored, in their one ascending order. */
  lemma FinalQueueIsDecided(w: World, b: Bracket, ok: bool, list: seq<Key>)
    requires Inv(w) && w.bracket == Some(b)
    ensures Next(w, QueueShard(ok, FINAL_SHARD_INDEX, list)).Ok?
       <==> && ok && !w.round.revealed && NeedsFinalReveal(b) && AllCollected(b) && !b.applied
            && list == Sorted(Members(b.finalists)) && forall x :: x in list ==> x in w.ledger && w.ledger[x].scored
  {
    hide RecordsSound, Tier1Sound, GroundSound, FinalistsSound, RunError, Distinct, Ascending, Queued;
    if AllCollected(b) {
      FinalistsDistinct(Standings(w), PinsOf(w), b);
      MembersSize(b.finalists);
      FinalRunDecided(w.ledger, w.round.key, b.finalists, list);
    }
  }

  lemma FinalRunDecided(ledger: Ledger, round: Key, finalists: seq<Key>, list: seq<Key>)
    requires Members(finalists) <= RoundEntries(ledger, round) && |Sorted(Members(finalists))| == |finalists|
    ensures |list| == |finalists| && RunError(ledger, round, Among(finalists), true, list, 0) == None
       <==> list == Sorted(Members(finalists)) && forall x :: x in list ==> x in ledger && ledger[x].scored
  {
    if list == Sorted(Members(finalists)) && forall x :: x in list ==> x in ledger && ledger[x].scored {
      assert forall x :: x in Members(list) ==> x in list;
      AscendingRunAccepted(ledger, round, finalists, list);
    } else if |list| == |finalists| && RunError(ledger, round, Among(finalists), true, list, 0) == None {
      FinalRunIsFinalistSet(ledger, round, finalists, list);
      RunIsScored(ledger, round, Among(finalists), list);
    }
  }

  /** Queued again, the final is accepted if and only if the round stands unrevealed and unapplied and
  the accounts are the recorded finalists, still scored; FinalRequeueIsHarmless says what it then changes. */
  lemma FinalRequeueIsDecided(w: World, b: Bracket, ok: bool, list: seq<Key>)
    requires Inv(w) && w.bracket == Some(b) && b.finalQueued
    ensures Next(w, QueueShard(ok, FINAL_SHARD_INDEX, list)).Ok?
       <==> && ok && !w.round.revealed && !b.applied
            && list == b.finalists && forall x :: x in list ==> x in w.ledger && w.ledger[x].scored
  {
    hide Next, RecordsSound, Tier1Sound, GroundSound, Kept;
    FinalQueueIsDecided(w, b, ok, list);
    AscendingUnique(b.finalists, Sorted(Members(b.finalists)));
  }

  lemma QueueFinalGoes(w: World, b: Bracket, list: seq<Key>)
    requires w.bracket == Some(b) && !w.round.revealed && AllCollected(b) && NeedsFinalReveal(b) && !b.applied
    requires |list| == |b.finalists| <= MAX_FINALISTS && w.inFlight == multiset{}
    requires RunError(w.ledger, w.round.key, Among(b.finalists), true, list, 0) == None
    ensures var s := QueueShard(true, FINAL_SHARD_INDEX, list); var v := After(w, s);
            && Next(w, s).Ok? && Careful(w, s)
            && v == Queued(w.(bracket := Some(b.(finalists := list, finalQueued := true))),
                           ShardResult(FINAL_SHARD_INDEX), list, b.generation)
  {
  }

  lemma SoundIsCollected(w: World, b: Bracket)
    requires Inv(w) && w.bracket == Some(b) && forall k :: 0 <= k < |b.layout.sizes| ==> k in b.collected
    ensures AllCollected(b) && (OneShard(b) <==> !NeedsFinalReveal(b))
  {
    AllCollectedIsEvery(Standings(w), w.ground, b);
  }

  /** The final, queued and answered. */
  lemma RunFinal(w: World, b: Bracket) returns (v: World)
    requires Inv(w) && AtEndgame(w) && w.bracket == Some(b) && !OneShard(b)
    ensures Reached(w, [QueueShard(true, FINAL_SHARD_INDEX, FinalJob(b).list)] + [Callback(FinalJob(b))], v) && Inv(v)
    ensures v.round == w.round && v.bracket.Some?
    ensures v.bracket.value == b.(finalists := v.bracket.value.finalists, finalQueued := true)
    ensures ShardResult(FINAL_SHARD_INDEX) in v.results
    ensures RecordError(v.results[ShardResult(FINAL_SHARD_INDEX)], b.generation) == None
  {
    hide Inv, Next, Careful, GoesThrough, Run, RevealOf, AllCollected, RunError, AllScored;
    var c := FinalJob(b);
    var s := QueueShard(true, FINAL_SHARD_INDEX, c.list);
    SoundIsCollected(w, b);
    FinalRunAccepted(w, b);
    QueueFinalGoes(w, b, c.list);
    LeadsNowhere(w, None);
    CleanStep(w, [], w, s);
    var w1 := After(w, s);
    CallbackGoes(w1, c);
    assert [] + [s] == [s];
    CleanStep(w, [s], w1, Callback(c));
    v := After(w1, Callback(c));
  }

  lemma ApplyIsCareful(w: World, s: Step)
    requires s.ApplyResult?
    ensures Careful(w, s)
  {
  }

  lemma ApplyLast(w0: World, steps: seq<Step>, w: World, s: Step)
    requires Reached(w0, steps, w) && Inv(w) && s.ApplyResult? && Applicable(w, s)
    ensures Reached(w0, steps + [s], After(w, s)) && Inv(After(w, s)) && After(w, s).round.revealed
  {
    hide Inv, Careful, GoesThrough, Run, Applicable;
    ApplyNeverJams(w, s);
    ApplyIsCareful(w, s);
    CleanStep(w0, steps, w, s);
    ApplyEffect(w, s);
  }

  /** Whatever has to be applied is there: the endgame is never refused and reveals the round. */
  lemma RunEndgame(w: World) returns (v: World)
    requires Inv(w) && AtEndgame(w) && EndgameOpen(w)
    ensures Reached(w, EndgameSteps(w), v) && Inv(v) && v.round.revealed
  {
    hide Inv, GoesThrough, Run, After;
    var b := w.bracket.value;
    SoundIsCollected(w, b);
    LeadsNowhere(w, None);
    if OneShard(b) || b.finalQueued {
      var s := ApplyResult(true, if OneShard(b) then 0 else FINAL_SHARD_INDEX);
      ApplyLast(w, [], w, s);
      assert [] + [s] == [s];
      v := After(w, s);
    } else {
      var u := RunFinal(w, b);
      var s := ApplyResult(true, FINAL_SHARD_INDEX);
      ApplyLast(w, [QueueShard(true, FINAL_SHARD_INDEX, FinalJob(b).list)] + [Callback(FinalJob(b))], u, s);
      v := After(u, s);
    }
  }

  /** And otherwise it is refused. */
  lemma EndgameGoesThrough(w: World)
    requires Inv(w) && AtEndgame(w)
    ensures Accepted(w, EndgameSteps(w)) <==> EndgameOpen(w)
  {
    hide Inv, After, Run, Next;
    if EndgameOpen(w) {
      var v := RunEndgame(w);
      CleanIsAdmissible(w, EndgameSteps(w));
    } else {
      var b := w.bracket.value;
      SoundIsCollected(w, b);
      var s := ApplyResult(true, if OneShard(b) then 0 else FINAL_SHARD_INDEX);
      ApplyNeverJams(w, s);
      RefusedFirst(w, [s]);
    }
  }

  // ---- the final asks for nothing but distinct, scored entries ------------------------------

  /** All shards collected, and the finalists are distinct scored entries of the round. */
  ghost predicate FinalReady(w: World, b: Bracket) {
    && w.bracket == Some(b) && !w.round.revealed && w.inFlight == multiset{}
    && AllCollected(b) && NeedsFinalReveal(b) && !b.applied
    && Distinct(b.finalists) && |b.finalists| <= MAX_FINALISTS
    && forall x :: x in b.finalists ==> x in Entrants(w) && w.ledger[x].scored
  }

  lemma ApplyFinalGoes(w: World, b: Bracket)
    requires w.bracket == Some(b) && !w.round.revealed && AllCollected(b) && NeedsFinalReveal(b) && !b.applied && b.finalQueued
    requires Ascending(b.finalists) && |b.finalists| <= MAX_FINALISTS && forall x :: x in b.finalists ==> x in w.ledger
    requires ShardResult(FINAL_SHARD_INDEX) in w.results
    requires w.results[ShardResult(FINAL_SHARD_INDEX)] == Record(true, RevealOf(w.ledger, b.finalists), 0, b.generation)
    ensures Next(w, ApplyResult(true, FINAL_SHARD_INDEX)).Ok? && After(w, ApplyResult(true, FINAL_SHARD_INDEX)).round.revealed
  {
    hide RevealOf, Picked;
    RevealNamesPodium(w.ledger, b.finalists);
  }

  /** Whatever was collected, right or wrong, is then ranked and applied without objection. */
  lemma FinalGoesRegardless(w: World, b: Bracket) returns (v: World)
    requires FinalReady(w, b)
    ensures Leads(w, [QueueShard(true, FINAL_SHARD_INDEX, FinalJob(b).list)] + [Callback(FinalJob(b))]
                     + [ApplyResult(true, FINAL_SHARD_INDEX)], v, None)
    ensures v.round.revealed
  {
    hide Next, Careful, GoesThrough, Run, RevealOf, AllCollected, RunError;
    var c, last := FinalJob(b), ApplyResult(true, FINAL_SHARD_INDEX);
    var s := QueueShard(true, FINAL_SHARD_INDEX, c.list);
    MembersSize(b.finalists);
    AscendingRunAccepted(w.ledger, w.round.key, b.finalists, c.list);
    QueueFinalGoes(w, b, c.list);
    LeadsNowhere(w, None);
    LeadsStep(w, [], w, s, None);
    assert [] + [s] == [s];
    var w1 := After(w, s);
    CallbackGoes(w1, c);
    LeadsStep(w, [s], w1, Callback(c), None);
    var w2 := After(w1, Callback(c));
    forall x | x in c.list ensures x in w2.ledger {
      assert x in Members(c.list);
    }
    SameShards(b, c.list);
    ApplyFinalGoes(w2, b.(finalists := c.list, finalQueued := true));
    ApplyIsCareful(w2, last);
    LeadsStep(w, [s] + [Callback(c)], w2, last, None);
    v := After(w2, last);
  }

  lemma SameShards(b: Bracket, list: seq<Key>)
    requires AllCollected(b) && NeedsFinalReveal(b)
    ensures AllCollected(b.(finalists := list, finalQueued := true)) && NeedsFinalReveal(b.(finalists := list, finalQueued := true))
  {
  }
}
