/** What every bracket instruction accepts, answers and changes, as functions on account values.
An instruction that answers an error changes nothing: the runtime rolls the transaction back. */
module Instructions {
  import opened Ranking
  import opened Circuit
  import opened Partition
  import opened Accounts

  // ---- the accounts supplied for a run of entries ------------------------------------------

  /** Which accounts an instruction admits: the interval of a shard, the recorded finalists,
  or exactly the given winners. */
  datatype Admission =
    | Interval(first: Key, limit: Option<Key>)
    | Among(keys: seq<Key>)
    | Exactly(keys: seq<Key>)

  function ShardAdmission(l: Layout, k: nat): Admission
    requires k < |l.bounds|
  {
    Interval(l.bounds[k], LimitOf(l, k))
  }

  /** The first objection to account i of a supplied run, in the order the checks are made. */
  function ElementError(ledger: Ledger, round: Key, a: Admission, needScored: bool, list: seq<Key>, i: nat): Option<Error>
    requires i < |list|
  {
    var key := list[i];
    if key !in ledger then Some(NotAnEntry)
    else if ledger[key].round != round then Some(WrongEntryCount)
    else if needScored && !ledger[key].scored then Some(ScoringIncomplete)
    else match a
      case Interval(first, limit) =>
        if (if i == 0 then key != first else key <= list[i - 1]) then Some(ShardEntriesOutOfRange)
        else if limit.Some? && key >= limit.value then Some(ShardEntriesOutOfRange)
        else None
      case Among(keys) =>
        if i > 0 && key <= list[i - 1] then Some(ShardEntriesOutOfRange)
        else if key !in keys then Some(FinalistMismatch)
        else None
      case Exactly(keys) =>
        if i >= |keys| || key != keys[i] then Some(SemifinalSliceMismatch)
        else None
  }

  /** The first objection to the accounts from i on. */
  function RunError(ledger: Ledger, round: Key, a: Admission, needScored: bool, list: seq<Key>, i: nat): Option<Error>
    requires i <= |list|
    decreases |list| - i
  {
    if i == |list| then None
    else
      var e := ElementError(ledger, round, a, needScored, list, i);
      if e.Some? then e else RunError(ledger, round, a, needScored, list, i + 1)
  }

  /** How many of the first `take` slots name a slot of a list of the given size before one does not. */
  function InRange(slots: seq<nat>, take: nat, size: nat): (q: nat)
    requires take <= |slots|
    ensures q <= take && (forall r :: 0 <= r < q ==> slots[r] < size)
    ensures q < take ==> slots[q] >= size
  {
    if take == 0 then 0
    else
      var q := InRange(slots, take - 1, size);
      if q == take - 1 && slots[q] < size then take else q
  }

  /** Slot by slot: a slot out of range, or no room behind `filled` others in the buffer. */
  function PushError(slots: seq<nat>, take: nat, size: nat, filled: nat, capacity: nat): Option<Error>
    requires take <= |slots|
  {
    var q := InRange(slots, take, size);
    if q > 0 && filled + q > capacity then Some(InvalidShardLayout)
    else if q < take then Some(WrongEntryCount)
    else None
  }

  /** The entries the first `take` slots of a list name. */
  function Picked(list: seq<Key>, slots: seq<nat>, take: nat): (w: seq<Key>)
    requires take <= |slots|
    ensures |w| == take
  {
    seq(take, r requires 0 <= r < take => if slots[r] < |list| then list[slots[r]] else DEFAULT_KEY)
  }

  // ---- single tier -------------------------------------------------------------------------

  function InitBracket(authorized: bool, round: Round, prior: Option<Bracket>,
                       sizes: seq<nat>, bounds: seq<Key>, count: nat): Outcome<Bracket>
  {
    if !authorized then Err(NotAuthority)
    else if round.status == Open then Err(RoundNotClosed)
    else if round.revealed then Err(ScoringAlreadyRevealed)
    else if round.scoredCount != round.participantCount then Err(ScoringIncomplete)
    else if !LayoutOk(sizes, bounds, count, MAX_SHARDS, round.participantCount) then Err(InvalidShardLayout)
    else Ok(FreshBracket(Layout(sizes[..count], bounds[..count]), prior))
  }

  /** A newly pinned bracket: nothing collected, and the next generation stamp. */
  function FreshBracket(layout: Layout, prior: Option<Bracket>): Bracket {
    var generation := if prior.Some? then prior.value.generation else 0;
    Bracket(layout, {}, [], false, false, NextStamp(generation))
  }

  ghost predicate AllCollected(b: Bracket) {
    b.collected == Below(|b.layout.sizes|)
  }

  predicate NeedsFinalReveal(b: Bracket) {
    |b.layout.sizes| > 1
  }

  predicate OneShard(b: Bracket) {
    |b.layout.sizes| == 1
  }

  ghost function QueueShardReveal(authorized: bool, round: Round, ledger: Ledger, b: Bracket,
                            index: nat, list: seq<Key>): Outcome<Bracket>
  {
    if !authorized then Err(NotAuthority)
    else if round.revealed then Err(ScoringAlreadyRevealed)
    else if index == FINAL_SHARD_INDEX then
      if !NeedsFinalReveal(b) then Err(FinalRevealNotApplicable)
      else if !AllCollected(b) then Err(BracketNotReady)
      else if b.applied then Err(BracketAlreadyFinal)
      else if |b.finalists| > MAX_REVEAL_ACCOUNT_REFS then Err(InvalidShardLayout)
      else if |list| != |b.finalists| then Err(WrongEntryCount)
      else match RunError(ledger, round.key, Among(b.finalists), true, list, 0)
        case Some(e) => Err(e)
        case None => Ok(b.(finalists := list, finalQueued := true))
    else if index >= |b.layout.sizes| then Err(InvalidShardIndex)
    else if b.layout.sizes[index] > MAX_REVEAL_ACCOUNT_REFS then Err(InvalidShardLayout)
    else if |list| != b.layout.sizes[index] then Err(WrongEntryCount)
    else match RunError(ledger, round.key, ShardAdmission(b.layout, index), true, list, 0)
      case Some(e) => Err(e)
      case None => Ok(b)
  }

  /** The objections to a result record that three instructions share. */
  function RecordError(r: Record, generation: nat): Option<Error> {
    if !r.ready then Some(ShardResultNotReady)
    else if r.errorCode != 0 then Some(AbortedComputation)
    else if r.generation != generation then Some(StaleRevealResult)
    else None
  }

  function CollectShardWinners(authorized: bool, round: Round, ledger: Ledger, b: Bracket,
                               r: Record, index: nat, list: seq<Key>): Outcome<Bracket>
  {
    if !authorized then Err(NotAuthority)
    else if index >= |b.layout.sizes| then Err(InvalidShardIndex)
    else match RecordError(r, b.generation)
      case Some(e) => Err(e)
      case None =>
        if index in b.collected then Err(ShardAlreadyCollected)
        else if |list| != b.layout.sizes[index] then Err(WrongEntryCount)
        else match RunError(ledger, round.key, ShardAdmission(b.layout, index), false, list, 0)
          case Some(e) => Err(e)
          case None =>
            var take := Min(SHARD_WINNERS, |list|);
            match PushError(r.podium.slots, take, |list|, |b.finalists|, MAX_FINALISTS)
            case Some(e) => Err(e)
            case None => Ok(WithWinners(b, index, Picked(list, r.podium.slots, take)))
  }

  function WithWinners(b: Bracket, index: nat, winners: seq<Key>): Bracket {
    b.(finalists := b.finalists + winners, collected := b.collected + {index})
  }

  ghost function ApplyBracketResult(authorized: bool, round: Round, b: Bracket, r: Record, index: nat): Outcome<Round> {
    if !authorized then Err(NotAuthority)
    else if b.applied then Err(BracketAlreadyFinal)
    else if !AllCollected(b) then Err(BracketNotReady)
    else match RecordError(r, b.generation)
      case Some(e) => Err(e)
      case None =>
        var n := |b.finalists|;
        if round.revealed then Err(ScoringAlreadyRevealed)
        else if OneShard(b) then
          if index != 0 then Err(InvalidShardIndex)
          else if b.finalQueued then Err(FinalRevealNotApplicable)
          else Ok(WithTop(round, Picked(b.finalists, [0, 1, 2], REVEAL_TOP_K)))
        else if index != FINAL_SHARD_INDEX then Err(InvalidShardIndex)
        else if !b.finalQueued then Err(BracketNotReady)
        else if exists q :: 0 <= q < Min(REVEAL_TOP_K, n) && r.podium.slots[q] >= n then Err(WrongEntryCount)
        else
          var winners := Picked(b.finalists, r.podium.slots, Min(REVEAL_TOP_K, n));
          Ok(WithTop(round, winners + seq(REVEAL_TOP_K - Min(REVEAL_TOP_K, n), _ => DEFAULT_KEY)))
  }

  function WithTop(round: Round, top: seq<Key>): Round {
    round.(top := top, revealed := true)
  }

  // ---- two tiers ---------------------------------------------------------------------------

  function InitTier1(authorized: bool, round: Round, sizes: seq<nat>, bounds: seq<Key>, count: nat, slot: nat): Outcome<Tier1> {
    if !authorized then Err(NotAuthority)
    else if round.status == Open then Err(RoundNotClosed)
    else if round.revealed then Err(ScoringAlreadyRevealed)
    else if round.scoredCount != round.participantCount then Err(ScoringIncomplete)
    else if round.participantCount <= SINGLE_TIER_CAPACITY then Err(WrongBracketTier)
    else if !LayoutOk(sizes, bounds, count, MAX_TIER1_SHARDS, round.participantCount) then Err(InvalidShardLayout)
    else if WinnersUpTo(sizes[..count], count) > MAX_TIER1_WINNERS then Err(InvalidShardLayout)
    else Ok(Tier1(Layout(sizes[..count], bounds[..count]), {}, [], false, slot % STAMPS))
  }

  /** How many winners the first m shards of a layout yield. */
  function WinnersUpTo(sizes: seq<nat>, m: nat): nat
    requires m <= |sizes|
  {
    if m == 0 then 0 else WinnersUpTo(sizes, m - 1) + Min(SHARD_WINNERS, sizes[m - 1])
  }

  predicate AllDone(t: Tier1) {
    forall k :: 0 <= k < |t.layout.sizes| ==> k in t.done
  }

  function CloseTier1(authorized: bool, round: Round): Outcome<Option<Tier1>> {
    if !authorized then Err(NotAuthority)
    else if round.revealed then Err(ScoringAlreadyRevealed)
    else Ok(None)
  }

  /** Answers the stamp to write on the result record. */
  function QueueTier1ShardReveal(authorized: bool, round: Round, ledger: Ledger, t: Tier1,
                                 index: nat, list: seq<Key>): Outcome<nat>
  {
    if !authorized then Err(NotAuthority)
    else if t.promoted then Err(Tier1AlreadyPromoted)
    else if round.revealed then Err(ScoringAlreadyRevealed)
    else if index >= |t.layout.sizes| then Err(InvalidShardIndex)
    else if |list| != t.layout.sizes[index] then Err(WrongEntryCount)
    else match RunError(ledger, round.key, ShardAdmission(t.layout, index), true, list, 0)
      case Some(e) => Err(e)
      case None => Ok(t.generation)
  }

  /** Insert one winner into an ascending list, refusing a full buffer or a repeated key. */
  ghost function InsertWinner(winners: seq<Key>, key: Key): Option<seq<Key>> {
    if |winners| >= MAX_TIER1_WINNERS || key in winners then None
    else Some(Sorted(Members(winners) + {key}))
  }

  ghost function InsertAll(winners: seq<Key>, keys: seq<Key>): Option<seq<Key>>
    decreases keys
  {
    if keys == [] then Some(winners)
    else match InsertWinner(winners, keys[0])
      case None => None
      case Some(more) => InsertAll(more, keys[1..])
  }

  ghost function CollectTier1Winners(authorized: bool, round: Round, ledger: Ledger, t: Tier1,
                                     r: Record, index: nat, list: seq<Key>): Outcome<Tier1>
  {
    if !authorized then Err(NotAuthority)
    else if !r.ready then Err(ShardResultNotReady)
    else if r.errorCode != 0 then Err(AbortedComputation)
    else if t.promoted then Err(Tier1AlreadyPromoted)
    else if r.generation != t.generation then Err(StaleRevealResult)
    else if index >= |t.layout.sizes| then Err(InvalidShardIndex)
    else if index in t.done then Err(ShardAlreadyCollected)
    else if |list| != t.layout.sizes[index] then Err(WrongEntryCount)
    else match RunError(ledger, round.key, ShardAdmission(t.layout, index), false, list, 0)
      case Some(e) => Err(e)
      case None =>
        var take := Min(SHARD_WINNERS, |list|);
        var q := InRange(r.podium.slots, take, |list|);
        match InsertAll(t.winners, Picked(list, r.podium.slots, q))
        case None => Err(Tier1WinnerRejected)
        case Some(winners) =>
          if q < take then Err(WrongEntryCount)
          else Ok(t.(winners := winners, done := t.done + {index}))
  }

  /** The semifinal partition is computed from the sorted winners, never supplied. */
  function PromotedLayout(winners: seq<Key>): Layout
    requires winners != []
  {
    BalancedSizesFit(|winners|, MAX_SHARD_SIZE);
    SliceLayout(winners, BalancedSizes(|winners|, MAX_SHARD_SIZE))
  }

  function PromoteTier1(authorized: bool, t: Tier1, prior: Option<Bracket>): Outcome<Bracket> {
    if !authorized then Err(NotAuthority)
    else if t.promoted then Err(Tier1AlreadyPromoted)
    else if !AllDone(t) then Err(Tier1NotReady)
    else if t.winners == [] then Err(Tier1NotReady)
    else if BalancedCount(|t.winners|, MAX_SHARD_SIZE) > MAX_SHARDS then Err(InvalidShardLayout)
    else Ok(FreshBracket(PromotedLayout(t.winners), prior))
  }

  /** A zeroed buffer read at i. */
  function BufferAt(filled: seq<Key>, i: nat): Key {
    if i < |filled| then filled[i] else DEFAULT_KEY
  }

  /** winners[start..start + size] as the program reads it from its zeroed buffer. */
  function SemifinalSlice(t: Tier1, b: Bracket, k: nat): (s: seq<Key>)
    requires k < |b.layout.sizes|
    ensures |s| == b.layout.sizes[k]
  {
    var start := SumTo(b.layout.sizes, k);
    seq<Key>(b.layout.sizes[k], (i: nat) requires i < b.layout.sizes[k] => BufferAt(t.winners, start + i))
  }

  function QueueSemifinalReveal(authorized: bool, round: Round, ledger: Ledger, t: Tier1, b: Bracket,
                                index: nat, list: seq<Key>): Outcome<nat>
  {
    if !authorized then Err(NotAuthority)
    else if !t.promoted then Err(SemifinalNotReady)
    else if round.revealed then Err(ScoringAlreadyRevealed)
    else if index >= |b.layout.sizes| then Err(InvalidShardIndex)
    else if |list| != b.layout.sizes[index] then Err(WrongEntryCount)
    else if SumTo(b.layout.sizes, index) + |list| > MAX_TIER1_WINNERS then Err(IndexPanic)
    else match RunError(ledger, round.key, Exactly(SemifinalSlice(t, b, index)), true, list, 0)
      case Some(e) => Err(e)
      case None => Ok(b.generation)
  }

  function CollectSemifinalWinners(authorized: bool, t: Tier1, b: Bracket, r: Record, index: nat): Outcome<Bracket> {
    if !authorized then Err(NotAuthority)
    else if !t.promoted then Err(SemifinalNotReady)
    else if index >= |b.layout.sizes| then Err(InvalidShardIndex)
    else match RecordError(r, b.generation)
      case Some(e) => Err(e)
      case None =>
        if index in b.collected then Err(ShardAlreadyCollected)
        else
          var slice := SemifinalSlice(t, b, index);
          var take := Min(SHARD_WINNERS, |slice|);
          if exists q :: 0 <= q < take && r.podium.slots[q] >= |slice| then Err(WrongEntryCount)
          else if exists q :: 0 <= q < take && SumTo(b.layout.sizes, index) + r.podium.slots[q] >= MAX_TIER1_WINNERS
          then Err(IndexPanic)
          else if |b.finalists| + take > MAX_FINALISTS then Err(InvalidShardLayout)
          else Ok(WithWinners(b, index, Picked(slice, r.podium.slots, take)))
  }

  // ---- what acceptance means ---------------------------------------------------------------

  lemma {:induction false} RunAccepted(ledger: Ledger, round: Key, a: Admission, needScored: bool, list: seq<Key>, i: nat)
    requires i <= |list|
    decreases |list| - i
    ensures RunError(ledger, round, a, needScored, list, i) == None
       <==> forall j :: i <= j < |list| ==> ElementError(ledger, round, a, needScored, list, j) == None
  {
    if i < |list| {
      RunAccepted(ledger, round, a, needScored, list, i + 1);
    }
  }

  lemma {:induction false} StepwiseAscending(list: seq<Key>)
    requires forall i :: 0 < i < |list| ==> list[i - 1] < list[i]
    ensures Ascending(list)
  {
    if |list| > 1 {
      var n := |list| - 1;
      StepwiseAscending(list[..n]);
      forall i, j | 0 <= i < j < |list| ensures list[i] < list[j] {
        if j == n {
          assert i == n - 1 || list[..n][i] < list[..n][n - 1];
        } else {
          assert list[..n][i] < list[..n][j];
        }
      }
    }
  }

  /** The element-by-element shard checks accept a list exactly when it fits the shard. */
  lemma ShardRunMeansAccepts(ledger: Ledger, round: Key, l: Layout, k: nat, needScored: bool, list: seq<Key>)
    requires k < |l.bounds| && |list| == l.sizes[k]
    ensures RunError(ledger, round, ShardAdmission(l, k), needScored, list, 0) == None
       <==> Accepts(l, RoundEntries(ledger, round), k, list)
            && (needScored ==> forall x :: x in list ==> ledger[x].scored)
  {
    var a := ShardAdmission(l, k);
    RunAccepted(ledger, round, a, needScored, list, 0);
    if RunError(ledger, round, a, needScored, list, 0) == None {
      forall i | 0 < i < |list| ensures list[i - 1] < list[i] {
        assert ElementError(ledger, round, a, needScored, list, i) == None;
      }
      StepwiseAscending(list);
      forall i | 0 <= i < |list|
        ensures list[i] in RoundEntries(ledger, round) && InInterval(l, k, list[i])
        ensures needScored ==> ledger[list[i]].scored
      {
        assert ElementError(ledger, round, a, needScored, list, i) == None;
        assert ElementError(ledger, round, a, needScored, list, 0) == None;
      }
    }
  }

  /** n strictly ascending finalists are all the finalists: nothing dropped, nothing repeated. */
  lemma FinalRunIsFinalistSet(ledger: Ledger, round: Key, finalists: seq<Key>, list: seq<Key>)
    requires |list| == |finalists|
    requires RunError(ledger, round, Among(finalists), true, list, 0) == None
    ensures Ascending(list) && Members(list) == Members(finalists) && list == Sorted(Members(finalists))
    ensures Members(list) <= RoundEntries(ledger, round)
    ensures Ascending(finalists) ==> list == finalists
  {
    RunAccepted(ledger, round, Among(finalists), true, list, 0);
    forall i | 0 < i < |list| ensures list[i - 1] < list[i] {
      assert ElementError(ledger, round, Among(finalists), true, list, i) == None;
    }
    StepwiseAscending(list);
    forall i | 0 <= i < |list| ensures list[i] in Members(finalists) && list[i] in RoundEntries(ledger, round) {
      assert ElementError(ledger, round, Among(finalists), true, list, i) == None;
    }
    MembersSize(list);
    MembersSize(finalists);
    SubsetSize(Members(list), Members(finalists));
    AscendingUnique(list, Sorted(Members(finalists)));
    if Ascending(finalists) {
      AscendingUnique(list, finalists);
    }
  }

  lemma SliceRunIsSlice(ledger: Ledger, round: Key, keys: seq<Key>, list: seq<Key>)
    requires |list| == |keys|
    requires RunError(ledger, round, Exactly(keys), true, list, 0) == None
    ensures list == keys
  {
    RunAccepted(ledger, round, Exactly(keys), true, list, 0);
    forall i | 0 <= i < |list| ensures list[i] == keys[i] {
      assert ElementError(ledger, round, Exactly(keys), true, list, i) == None;
    }
  }
}
