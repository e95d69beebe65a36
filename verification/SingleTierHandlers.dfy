/** init_bracket, queue_shard_reveal, collect_shard_winners, apply_bracket_result and the reveal
callback. */
module SingleTierHandlers {
  import opened Ranking
  import opened Circuit
  import opened Partition
  import opened Accounts
  import opened Instructions
  import opened AccountState
  import opened Handlers

  method InitBracket(authorized: bool, round: CompetitionRound, bracket: BracketState,
                     sizes: seq<nat>, bounds: seq<Key>, count: nat) returns (e: Option<Error>)
    requires bracket.Valid() && |sizes| == |bounds| == MAX_SHARDS
    modifies bracket.Repr()
    ensures bracket.Valid()
    ensures Answers(e, Instructions.InitBracket(authorized, round.View(), Some(old(bracket.View())), sizes, bounds, count),
                    bracket.View())
  {
    if !authorized {
      return Some(NotAuthority);
    }
    if round.status == Open {
      return Some(RoundNotClosed);
    }
    if round.scoringRevealed {
      return Some(ScoringAlreadyRevealed);
    }
    if round.scoredCount != round.participantCount {
      return Some(ScoringIncomplete);
    }
    var ok := CheckLayout(sizes, bounds, count, MAX_SHARDS, round.participantCount);
    if !ok {
      return Some(InvalidShardLayout);
    }
    bracket.Pin(sizes, bounds, count);
    e := None;
  }

  /** Answers the computation's arguments; on success the result record is reset and stamped. */
  method QueueShardReveal(authorized: bool, round: CompetitionRound, ledger: Ledger, bracket: BracketState,
                          result: RevealResult, index: nat, list: seq<Key>)
    returns (e: Option<Error>, args: Arguments)
    requires bracket.Valid()
    modifies bracket.finalists, bracket`finalQueued, result
    ensures bracket.Valid()
    ensures Answers(e, Instructions.QueueShardReveal(authorized, round.View(), ledger, old(bracket.View()), index, list),
                    bracket.View())
    ensures e.None? ==>
              && args == ArgumentsOf(ledger, list) && |list| <= SLOTS
              && result.View() == Record(false, old(result.View()).podium, 0, bracket.generation)
  {
    args := Arguments([], 0, []);
    if !authorized {
      return Some(NotAuthority), args;
    }
    if round.scoringRevealed {
      return Some(ScoringAlreadyRevealed), args;
    }
    hide BitsOf, AllCollected, SizesInRange, RunError;
    var isFinal := index == FINAL_SHARD_INDEX;
    var n: nat;
    var all := bracket.AllShardsCollected();
    if isFinal {
      if bracket.shardCount <= 1 {
        return Some(FinalRevealNotApplicable), args;
      }
      if !all {
        return Some(BracketNotReady), args;
      }
      if bracket.applied {
        return Some(BracketAlreadyFinal), args;
      }
      n := bracket.finalistCount;
    } else {
      if index >= bracket.shardCount {
        return Some(InvalidShardIndex), args;
      }
      n := bracket.shardSizes[index];
    }
    if n > MAX_REVEAL_ACCOUNT_REFS {
      return Some(InvalidShardLayout), args;
    }
    if |list| != n {
      return Some(WrongEntryCount), args;
    }
    var admission := Among(bracket.finalists[..bracket.finalistCount]);
    if !isFinal {
      admission := BracketAdmission(bracket, index);
    }
    e := CheckRun(ledger, round.key, admission, true, list);
    if e.Some? {
      return;
    }
    args := BuildArguments(ledger, list);
    result.Reset(bracket.generation);
    if isFinal {
      bracket.StoreFinalOrder(list);
    }
  }

  method BracketAdmission(bracket: BracketState, k: nat) returns (a: Admission)
    requires bracket.Valid() && k < bracket.shardCount
    ensures a == ShardAdmission(bracket.View().layout, k)
  {
    var limit := if k + 1 < bracket.shardCount then Some(bracket.shardBounds[k + 1]) else None;
    a := Interval(bracket.shardBounds[k], limit);
  }

  /** The revealed slots, resolved to entries and appended one by one. */
  method PushWinners(bracket: BracketState, slots: seq<nat>, take: nat, list: seq<Key>) returns (e: Option<Error>)
    requires bracket.Valid() && take <= |slots|
    modifies bracket.finalists, bracket`finalistCount
    ensures bracket.Valid()
    ensures e == PushError(slots, take, |list|, old(bracket.finalistCount), MAX_FINALISTS)
    ensures e.None? ==>
              bracket.View() == old(bracket.View()).(finalists := old(bracket.View()).finalists + Picked(list, slots, take))
  {
    ghost var was := bracket.View();
    for r := 0 to take
      invariant bracket.Valid() && bracket.View() == was.(finalists := was.finalists + Picked(list, slots, r))
      invariant forall j :: 0 <= j < r ==> slots[j] < |list|
    {
      if slots[r] >= |list| {
        assert InRange(slots, take, |list|) == r;
        return Some(WrongEntryCount);
      }
      var room := bracket.PushFinalist(list[slots[r]]);
      if !room {
        assert InRange(slots, take, |list|) > r;
        return Some(InvalidShardLayout);
      }
      assert Picked(list, slots, r + 1) == Picked(list, slots, r) + [list[slots[r]]];
    }
    assert InRange(slots, take, |list|) == take;
    e := None;
  }

  method CollectShardWinners(authorized: bool, round: CompetitionRound, ledger: Ledger, bracket: BracketState,
                             result: RevealResult, index: nat, list: seq<Key>) returns (e: Option<Error>)
    requires bracket.Valid()
    modifies bracket.finalists, bracket`finalistCount, bracket`shardsCollected
    ensures bracket.Valid()
    ensures Answers(e, Instructions.CollectShardWinners(authorized, round.View(), ledger, old(bracket.View()),
                                                        result.View(), index, list),
                    bracket.View())
  {
    hide BitsOf, RunError, InRange, Picked, SizesInRange;
    if !authorized {
      return Some(NotAuthority);
    }
    if index >= bracket.shardCount {
      return Some(InvalidShardIndex);
    }
    e := CheckRecord(result, bracket.generation);
    if e.Some? {
      return;
    }
    var collected := bracket.IsCollected(index);
    if collected {
      return Some(ShardAlreadyCollected);
    }
    if |list| != bracket.shardSizes[index] {
      return Some(WrongEntryCount);
    }
    var admission := BracketAdmission(bracket, index);
    e := CheckRun(ledger, round.key, admission, false, list);
    if e.Some? {
      return;
    }
    var take := Min(SHARD_WINNERS, |list|);
    e := PushWinners(bracket, [result.slot1, result.slot2, result.slot3], take, list);
    if e.Some? {
      return;
    }
    bracket.MarkCollected(index);
  }

  /** One shard: the finalists verbatim, as far as there are any. */
  method ReadRankOrder(bracket: BracketState) returns (top: seq<Key>)
    requires bracket.Valid()
    ensures top == Picked(bracket.View().finalists, [0, 1, 2], REVEAL_TOP_K)
  {
    var n := bracket.finalistCount;
    top := seq<Key>(REVEAL_TOP_K, _ => DEFAULT_KEY);
    var k := 0;
    while k < REVEAL_TOP_K && k < n
      invariant k <= REVEAL_TOP_K && k <= n && |top| == REVEAL_TOP_K
      invariant forall j :: 0 <= j < REVEAL_TOP_K ==> top[j] == if j < k then bracket.finalists[j] else DEFAULT_KEY
    {
      top := top[k := bracket.finalists[k]];
      k := k + 1;
    }
  }

  /** Several shards: the final's slots index the stored order. */
  method ReadFinal(bracket: BracketState, slots: seq<nat>) returns (ok: bool, top: seq<Key>)
    requires bracket.Valid() && |slots| == REVEAL_TOP_K
    ensures var n := |bracket.View().finalists|; var m := Min(REVEAL_TOP_K, n);
            && ok == (forall q :: 0 <= q < m ==> slots[q] < n)
            && (ok ==> top == Picked(bracket.View().finalists, slots, m) + seq(REVEAL_TOP_K - m, _ => DEFAULT_KEY))
  {
    var n := bracket.finalistCount;
    top := seq<Key>(REVEAL_TOP_K, _ => DEFAULT_KEY);
    var k := 0;
    while k < REVEAL_TOP_K && k < n
      invariant k <= REVEAL_TOP_K && k <= n && |top| == REVEAL_TOP_K
      invariant forall q :: 0 <= q < k ==> slots[q] < n && top[q] == bracket.finalists[slots[q]]
      invariant forall q :: k <= q < REVEAL_TOP_K ==> top[q] == DEFAULT_KEY
    {
      if slots[k] >= n {
        return false, top;
      }
      top := top[k := bracket.finalists[slots[k]]];
      k := k + 1;
    }
    ok := true;
  }

  method ApplyBracketResult(authorized: bool, round: CompetitionRound, bracket: BracketState,
                            result: RevealResult, index: nat) returns (e: Option<Error>)
    requires bracket.Valid()
    modifies round, bracket`applied
    ensures bracket.Valid()
    ensures Answers(e, Instructions.ApplyBracketResult(authorized, old(round.View()), old(bracket.View()),
                                                       result.View(), index),
                    round.View())
    ensures e.None? ==> bracket.View() == old(bracket.View()).(applied := true)
  {
    hide BitsOf, Picked, SizesInRange, RecordError, AllCollected, WithTop;
    if !authorized {
      return Some(NotAuthority);
    }
    if bracket.applied {
      return Some(BracketAlreadyFinal);
    }
    var all := bracket.AllShardsCollected();
    if !all {
      return Some(BracketNotReady);
    }
    e := CheckRecord(result, bracket.generation);
    if e.Some? {
      return;
    }
    if round.scoringRevealed {
      return Some(ScoringAlreadyRevealed);
    }
    var top: seq<Key>;
    if bracket.shardCount == 1 {
      if index != 0 {
        return Some(InvalidShardIndex);
      }
      if bracket.finalQueued {
        return Some(FinalRevealNotApplicable);
      }
      top := ReadRankOrder(bracket);
    } else {
      if index != FINAL_SHARD_INDEX {
        return Some(InvalidShardIndex);
      }
      if !bracket.finalQueued {
        return Some(BracketNotReady);
      }
      var ok;
      ok, top := ReadFinal(bracket, [result.slot1, result.slot2, result.slot3]);
      if !ok {
        return Some(WrongEntryCount);
      }
    }
    round.Reveal(top);
    bracket.applied := true;
  }

  /** A verified output is stored; anything else is an error that stores nothing. */
  method RevealCallback(result: RevealResult, output: Option<Podium>) returns (e: Option<Error>)
    modifies result
    ensures e == if output.None? then Some(AbortedComputation) else None
    ensures result.View() == if output.None? then old(result.View())
                             else old(result.View()).(podium := output.value, ready := true)
  {
    if output.None? {
      return Some(AbortedComputation);
    }
    result.Land(output.value);
    e := None;
  }
}
