/** The bracket instructions as the program runs them: guards in order, loops over the supplied
accounts, and updates in place - each proved to answer and store what its specification says.
An error leaves whatever it leaves; the runtime discards the transaction. */
module Handlers {
  import opened Ranking
  import opened Circuit
  import opened Partition
  import opened Accounts
  import opened Instructions
  import opened AccountState

  /** The handler answers as specified, and on success the account holds the specified value. */
  ghost predicate Answers<T(!new)>(e: Option<Error>, spec: Outcome<T>, now: T) {
    if e.Some? then spec == Err(e.value) else spec == Ok(now)
  }

  // ---- shared loops ------------------------------------------------------------------------

  method CheckLayout(sizes: seq<nat>, bounds: seq<Key>, count: nat, max: nat, participants: nat) returns (ok: bool)
    requires |sizes| == |bounds| == max
    ensures ok == LayoutOk(sizes, bounds, count, max, participants)
  {
    if !(1 <= count <= max) {
      return false;
    }
    var total := 0;
    for k := 0 to count
      invariant SizesInRange(sizes[..k]) && total == SumTo(sizes[..count], k)
    {
      if !(MIN_SHARD_SIZE <= sizes[k] <= MAX_SHARD_SIZE) {
        assert sizes[..count][k] == sizes[k];
        return false;
      }
      total := total + sizes[k];
    }
    if total != participants {
      return false;
    }
    for k := count to max
      invariant forall j :: count <= j < k ==> sizes[j] == 0
    {
      if sizes[k] != 0 {
        return false;
      }
    }
    for k := 1 to count
      invariant forall i :: 0 < i < k ==> bounds[..count][i - 1] < bounds[..count][i]
    {
      if !(bounds[k] > bounds[k - 1]) {
        assert bounds[..count][k - 1] >= bounds[..count][k];
        return false;
      }
    }
    StepwiseAscending(bounds[..count]);
    ok := true;
  }

  /** The loop every queue and collect runs over the accounts it was given. */
  method CheckRun(ledger: Ledger, round: Key, a: Admission, needScored: bool, list: seq<Key>) returns (e: Option<Error>)
    ensures e == RunError(ledger, round, a, needScored, list, 0)
  {
    var prev := DEFAULT_KEY;
    var i := 0;
    while i < |list|
      invariant i <= |list| && (i > 0 ==> prev == list[i - 1])
      invariant RunError(ledger, round, a, needScored, list, 0) == RunError(ledger, round, a, needScored, list, i)
    {
      var key := list[i];
      if key !in ledger {
        return Some(NotAnEntry);
      }
      if ledger[key].round != round {
        return Some(WrongEntryCount);
      }
      if needScored && !ledger[key].scored {
        return Some(ScoringIncomplete);
      }
      match a {
        case Interval(first, limit) =>
          if i == 0 {
            if key != first {
              return Some(ShardEntriesOutOfRange);
            }
          } else if key <= prev {
            return Some(ShardEntriesOutOfRange);
          }
          if limit.Some? && key >= limit.value {
            return Some(ShardEntriesOutOfRange);
          }
        case Among(keys) =>
          if i > 0 && key <= prev {
            return Some(ShardEntriesOutOfRange);
          }
          if key !in keys {
            return Some(FinalistMismatch);
          }
        case Exactly(keys) =>
          if i >= |keys| || key != keys[i] {
            return Some(SemifinalSliceMismatch);
          }
      }
      prev := key;
      i := i + 1;
    }
    e := None;
  }

  /** The verified accounts, then the first of them again in every unused slot. */
  method BuildArguments(ledger: Ledger, list: seq<Key>) returns (args: Arguments)
    requires |list| <= SLOTS
    ensures args == ArgumentsOf(ledger, list)
  {
    var keys, rarities := new Key[SLOTS](_ => DEFAULT_KEY), new Byte[SLOTS](_ => 0);
    var n := |list|;
    for i := 0 to n
      invariant forall j :: 0 <= j < i ==> keys[j] == list[j] && rarities[j] == RarityOf(ledger, list[j])
      invariant forall j :: i <= j < SLOTS ==> keys[j] == DEFAULT_KEY
    {
      keys[i] := list[i];
      rarities[i] := RarityOf(ledger, list[i]);
    }
    for i := n to SLOTS
      invariant forall j :: 0 <= j < i ==> keys[j] == SlotKey(list, j)
      invariant forall j :: i <= j < SLOTS ==> i == 0 ==> keys[j] == DEFAULT_KEY
      invariant forall j :: 0 <= j < i ==> rarities[j] == RarityOf(ledger, SlotKey(list, j))
    {
      keys[i] := keys[0];
      rarities[i] := RarityOf(ledger, keys[0]);
    }
    assert keys[..] == ArgumentsOf(ledger, list).keys;
    assert rarities[..] == ArgumentsOf(ledger, list).rarities;
    args := Arguments(keys[..], n, rarities[..]);
  }

  /** The cluster's side: read the referenced scores and run the circuit. */
  method RunReveal(ledger: Ledger, args: Arguments, ghost list: seq<Key>) returns (out: Podium)
    requires args == ArgumentsOf(ledger, list)
    ensures out == RevealOf(ledger, list)
  {
    var scores: seq<Byte> := [];
    for i := 0 to SLOTS
      invariant scores == SlotScores(ledger, list)[..i]
    {
      scores := scores + [ScoreOf(ledger, args.keys[i])];
    }
    assert scores == SlotScores(ledger, list);
    hide IsPodium, SlotScores, SlotRarities, CompositeKeys, Masked;
    out := RevealTop3V5(scores, args.count, args.rarities);
    PodiumUnique(ListKeys(ledger, list), Masked(scores, |list|), out, RevealOf(ledger, list));
  }

  method CheckRecord(result: RevealResult, generation: nat) returns (e: Option<Error>)
    ensures e == RecordError(result.View(), generation)
  {
    if !result.ready {
      return Some(ShardResultNotReady);
    }
    if result.errorCode != 0 {
      return Some(AbortedComputation);
    }
    if result.generation != generation {
      return Some(StaleRevealResult);
    }
    e := None;
  }
}
