/** Exactly what the pin and queue instructions accept in a reachable state, told from the entries of the
round and the arguments supplied. RevealProgress does the same for collecting, promoting and applying. */
module RevealGates {
  import opened Ranking
  import opened Partition
  import opened Accounts
  import opened Instructions
  import opened RevealRun
  import opened RevealInvariant
  import opened RevealSteps
  import opened RevealTheorem
  import RevealProgress

  // ---- declared layouts --------------------------------------------------------------------

  /** The supplied arrays are this layout, padded to the account's width - the sizes with zeros. */
  predicate Declares(sizes: seq<nat>, bounds: seq<Key>, count: nat, width: nat, l: Layout) {
    && |sizes| == |bounds| == width && count == |l.sizes| <= width
    && l == Layout(sizes[..count], bounds[..count])
    && forall k :: count <= k < width ==> sizes[k] == 0
  }

  /** What a legal layout of `total` entries is: some shards of 1 to 13 entries that sum to the total,
  with strictly ascending first keys. */
  predicate LegalLayout(l: Layout, total: nat) {
    && l.sizes != [] && (forall k :: 0 <= k < |l.sizes| ==> 1 <= l.sizes[k] <= 13)
    && Sum(l.sizes) == total && Ascending(l.bounds)
  }

  lemma LayoutIsDecided(sizes: seq<nat>, bounds: seq<Key>, count: nat, width: nat, total: nat)
    ensures LayoutOk(sizes, bounds, count, width, total)
       <==> exists l: Layout :: Declares(sizes, bounds, count, width, l) && LegalLayout(l, total)
  {
    hide Sum;
    if LayoutOk(sizes, bounds, count, width, total) {
      var l: Layout := Layout(sizes[..count], bounds[..count]);
      assert Declares(sizes, bounds, count, width, l) && LegalLayout(l, total);
    }
  }

  /** A bracket can be pinned, first or again, if and only if the round is closed or finalized, not yet
  revealed and fully scored, and the arrays declare a legal layout of at most four shards of its entries. */
  lemma PinIsDecided(w: World, s: Step)
    requires |Entrants(w)| == w.round.participantCount && s.PinBracket?
    ensures Next(w, s).Ok?
       <==> && s.ok && w.round.status in {Closed, Finalized} && !w.round.revealed && w.round.scoredCount == |Entrants(w)|
            && exists l: Layout :: Declares(s.sizes, s.bounds, s.count, 4, l) && LegalLayout(l, |Entrants(w)|)
  {
    hide Declares, LegalLayout, LayoutOk, RoundEntries;
    LayoutIsDecided(s.sizes, s.bounds, s.count, MAX_SHARDS, w.round.participantCount);
  }

  /** Tier 1 can be pinned if and only if there is none, the round is as above with more than 52 entries, and
  the arrays declare a legal layout of at most seventeen shards of them; room for the winners there always is. */
  lemma Tier1PinIsDecided(w: World, s: Step)
    requires |Entrants(w)| == w.round.participantCount && s.PinTier1?
    ensures Next(w, s).Ok?
       <==> && s.ok && w.tier1.None? && w.round.status in {Closed, Finalized} && !w.round.revealed
            && w.round.scoredCount == |Entrants(w)| > 52
            && exists l: Layout :: Declares(s.sizes, s.bounds, s.count, 17, l) && LegalLayout(l, |Entrants(w)|)
  {
    hide LegalLayout, LayoutOk, RoundEntries, WinnersUpTo;
    LayoutIsDecided(s.sizes, s.bounds, s.count, MAX_TIER1_SHARDS, w.round.participantCount);
    if |s.sizes| == 17 && s.count <= 17 {
      WinnersAtMost(s.sizes[..s.count], s.count);
    }
  }

  lemma {:induction false} WinnersAtMost(sizes: seq<nat>, m: nat)
    requires m <= |sizes|
    ensures WinnersUpTo(sizes, m) <= SHARD_WINNERS * m
  {
    if m > 0 {
      WinnersAtMost(sizes, m - 1);
    }
  }

  // ---- queueing ----------------------------------------------------------------------------

  predicate ScoredHere(w: World, list: seq<Key>) {
    forall x :: x in list ==> x in Entrants(w) && w.ledger[x].scored
  }

  /** A shard of a bracket can be queued - before it is collected or after - if and only if the round is not
  revealed and the accounts are scored entries that pass the shard's checks. */
  lemma ShardQueueIsDecided(w: World, s: Step)
    requires Inv(w) && s.QueueShard? && s.index != FINAL_SHARD_INDEX
    ensures Next(w, s).Ok?
       <==> && s.ok && !w.round.revealed && w.bracket.Some? && s.index < |w.bracket.value.layout.sizes|
            && Accepts(w.bracket.value.layout, Entrants(w), s.index, s.list) && ScoredHere(w, s.list)
  {
    hide RunError, RecordsSound, FinalistsSound, Tier1Sound, Queued, AllCollected;
    if w.bracket.Some? && s.index < |w.bracket.value.layout.sizes| && |s.list| == w.bracket.value.layout.sizes[s.index] {
      ShardRunMeansAccepts(w.ledger, w.round.key, w.bracket.value.layout, s.index, true, s.list);
      AcceptedAreEntrants(w, w.bracket.value.layout, s.index, s.list);
    }
  }

  lemma AcceptedAreEntrants(w: World, l: Layout, k: nat, list: seq<Key>)
    requires k < |l.bounds|
    ensures Accepts(l, Entrants(w), k, list) ==> forall x :: x in list ==> x in Entrants(w)
  {
  }

  /** The same for tier 1, as long as it is not promoted. */
  lemma Tier1QueueIsDecided(w: World, s: Step)
    requires Inv(w) && s.QueueTier1?
    ensures Next(w, s).Ok?
       <==> && s.ok && !w.round.revealed && w.tier1.Some? && !w.tier1.value.promoted
            && s.index < |w.tier1.value.layout.sizes|
            && Accepts(w.tier1.value.layout, Entrants(w), s.index, s.list) && ScoredHere(w, s.list)
  {
    hide RunError, RecordsSound, BracketSound, Tier1Sound, Queued;
    if w.tier1.Some? && s.index < |w.tier1.value.layout.sizes| && |s.list| == w.tier1.value.layout.sizes[s.index] {
      ShardRunMeansAccepts(w.ledger, w.round.key, w.tier1.value.layout, s.index, true, s.list);
      AcceptedAreEntrants(w, w.tier1.value.layout, s.index, s.list);
    }
  }

  /** A semifinal can be queued if and only if tier 1 is promoted, the round is not revealed, and the accounts
  are the slice's winners in ascending order: the entries of its interval among the winners, all scored. */
  lemma SemifinalQueueIsDecided(w: World, s: Step)
    requires Inv(w) && s.QueueSemifinal?
    ensures Next(w, s).Ok?
       <==> && s.ok && !w.round.revealed && w.tier1.Some? && w.tier1.value.promoted
            && w.bracket.Some? && s.index < |w.bracket.value.layout.sizes|
            && s.list == Sorted(Cell(w.bracket.value.layout, Members(w.tier1.value.winners), s.index)) && ScoredHere(w, s.list)
  {
    hide RecordsSound, Inv, SemifinalSlice, RunError, Queued, RoundEntries;
    if w.tier1.Some? && w.tier1.value.promoted && w.bracket.Some? && s.index < |w.bracket.value.layout.sizes| {
      var slice := SemifinalSlice(w.tier1.value, w.bracket.value, s.index);
      SemifinalIsItsCell(w, s.index);
      if |s.list| == |slice| {
        SliceRunDecided(w.ledger, w.round.key, slice, s.list);
      }
    }
  }

  lemma SliceRunDecided(ledger: Ledger, round: Key, keys: seq<Key>, list: seq<Key>)
    requires |list| == |keys|
    ensures RunError(ledger, round, Exactly(keys), true, list, 0) == None
       <==> list == keys && forall x :: x in list ==> x in RoundEntries(ledger, round) && ledger[x].scored
  {
    RunAccepted(ledger, round, Exactly(keys), true, list, 0);
    if RunError(ledger, round, Exactly(keys), true, list, 0) == None {
      SliceRunIsSlice(ledger, round, keys, list);
      RunIsScored(ledger, round, Exactly(keys), list);
    } else if list == keys && forall x :: x in list ==> x in RoundEntries(ledger, round) && ledger[x].scored {
      assert forall i :: 0 <= i < |list| ==> list[i] in list;
    }
  }

  lemma SemifinalIsItsCell(w: World, k: nat)
    requires Inv(w) && w.tier1.Some? && w.tier1.value.promoted && w.bracket.Some? && k < |w.bracket.value.layout.sizes|
    ensures var t, b := w.tier1.value, w.bracket.value;
            && SemifinalSlice(t, b, k) == Sorted(Cell(b.layout, Members(t.winners), k))
            && SumTo(b.layout.sizes, k) + |SemifinalSlice(t, b, k)| <= MAX_TIER1_WINNERS
  {
    hide RecordsSound, SemifinalSlice;
    var t, b := w.tier1.value, w.bracket.value;
    SemifinalSliceAccepted(t, b, k);
    AcceptedFillsCell(b.layout, Members(t.winners), k, SemifinalSlice(t, b, k));
    RevealProgress.SliceInsideBuffer(t, b, k);
    RevealProgress.WinnersFitBuffer(Standings(w), Entrants(w), t);
  }

  /** Tier 1 can be closed, whatever has been done with it, if and only if the round is not revealed. */
  lemma CloseIsDecided(w: World, ok: bool)
    ensures Next(w, CloseTier1Account(ok)).Ok? <==> ok && w.tier1.Some? && !w.round.revealed
    ensures Next(w, CloseTier1Account(ok)).Ok? ==> After(w, CloseTier1Account(ok)) == w.(tier1 := None)
  {
  }
}
