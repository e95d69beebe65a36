/** The tier-1 and semifinal instructions. */
module TwoTierHandlers {
  import opened Ranking
  import opened Partition
  import opened Accounts
  import opened Instructions
  import opened AccountState
  import opened Handlers

  method InitTier1Bracket(authorized: bool, round: CompetitionRound, tier1: Tier1State,
                          sizes: seq<nat>, bounds: seq<Key>, count: nat, slot: nat) returns (e: Option<Error>)
    requires tier1.Valid() && |sizes| == |bounds| == MAX_TIER1_SHARDS
    modifies tier1.Repr()
    ensures tier1.Valid()
    ensures Answers(e, InitTier1(authorized, round.View(), sizes, bounds, count, slot), tier1.View())
  {
    if !authorized {
      return Some(NotAuthority);
    }
    if round.status == Open {
      return Some(RoundNotClosed);
    }
    if round.scoringRevealed {
      return Some(ScoringAlreadyRevealed);
    }
    if round.scoredCount != round.participantCount {
      return Some(ScoringIncomplete);
    }
    if round.participantCount <= SINGLE_TIER_CAPACITY {
      return Some(WrongBracketTier);
    }
    var ok := CheckLayout(sizes, bounds, count, MAX_TIER1_SHARDS, round.participantCount);
    if !ok {
      return Some(InvalidShardLayout);
    }
    var maxWinners := 0;
    for k := 0 to count
      invariant maxWinners == WinnersUpTo(sizes[..count], k)
    {
      maxWinners := maxWinners + Min(SHARD_WINNERS, sizes[k]);
    }
    if maxWinners > MAX_TIER1_WINNERS {
      return Some(InvalidShardLayout);
    }
    tier1.Pin(sizes, bounds, count, slot % STAMPS);
    e := None;
  }

  method Tier1Admission(tier1: Tier1State, k: nat) returns (a: Admission)
    requires tier1.Valid() && k < tier1.shardCount
    ensures a == ShardAdmission(tier1.View().layout, k)
  {
    var limit := if k + 1 < tier1.shardCount then Some(tier1.shardBounds[k + 1]) else None;
    a := Interval(tier1.shardBounds[k], limit);
  }

  method QueueTier1ShardReveal(authorized: bool, round: CompetitionRound, ledger: Ledger, tier1: Tier1State,
                               result: RevealResult, index: nat, list: seq<Key>)
    returns (e: Option<Error>, args: Arguments)
    requires tier1.Valid()
    modifies result
    ensures Answers(e, Instructions.QueueTier1ShardReveal(authorized, round.View(), ledger, tier1.View(), index, list),
                    result.generation)
    ensures e.None? ==>
              && args == ArgumentsOf(ledger, list) && |list| <= SLOTS
              && result.View() == Record(false, old(result.View()).podium, 0, tier1.generation)
  {
    args := Arguments([], 0, []);
    if !authorized {
      return Some(NotAuthority), args;
    }
    if tier1.promoted != 0 {
      return Some(Tier1AlreadyPromoted), args;
    }
    if round.scoringRevealed {
      return Some(ScoringAlreadyRevealed), args;
    }
    if index >= tier1.shardCount {
      return Some(InvalidShardIndex), args;
    }
    if |list| != tier1.shardSizes[index] {
      return Some(WrongEntryCount), args;
    }
    assert tier1.shardSizes[..tier1.shardCount][index] == |list|;
    var admission := Tier1Admission(tier1, index);
    e := CheckRun(ledger, round.key, admission, true, list);
    if e.Some? {
      return;
    }
    args := BuildArguments(ledger, list);
    result.Reset(tier1.generation);
  }

  /** Every revealed slot, resolved and inserted in order; the first refusal ends it. */
  method InsertWinners(tier1: Tier1State, slots: seq<nat>, take: nat, list: seq<Key>) returns (e: Option<Error>)
    requires tier1.Valid() && take <= |slots|
    modifies tier1.winners, tier1`winnerCount
    ensures tier1.Valid()
    ensures var q := InRange(slots, take, |list|);
            var all := InsertAll(old(tier1.View()).winners, Picked(list, slots, q));
            && e == (if all.None? then Some(Tier1WinnerRejected) else if q < take then Some(WrongEntryCount) else None)
            && (e.None? ==> tier1.View() == old(tier1.View()).(winners := all.value))
  {
    ghost var was := tier1.View();
    ghost var q := InRange(slots, take, |list|);
    ghost var keys := Picked(list, slots, q);
    for r := 0 to take
      invariant tier1.Valid() && tier1.View() == was.(winners := tier1.View().winners)
      invariant r <= q && InsertAll(was.winners, keys) == InsertAll(tier1.View().winners, keys[r..])
    {
      if slots[r] >= |list| {
        assert q == r && keys[r..] == [];
        return Some(WrongEntryCount);
      }
      assert q > r && keys[r] == list[slots[r]];
      assert keys[r..][1..] == keys[r + 1..];
      var ok := tier1.InsertWinnerSorted(list[slots[r]]);
      if !ok {
        return Some(Tier1WinnerRejected);
      }
    }
    assert keys[take..] == [];
    e := None;
  }

  method CollectTier1Winners(authorized: bool, round: CompetitionRound, ledger: Ledger, tier1: Tier1State,
                             result: RevealResult, index: nat, list: seq<Key>) returns (e: Option<Error>)
    requires tier1.Valid()
    modifies tier1.winners, tier1`winnerCount, tier1.shardDone
    ensures tier1.Valid()
    ensures Answers(e, Instructions.CollectTier1Winners(authorized, round.View(), ledger, old(tier1.View()),
                                                        result.View(), index, list),
                    tier1.View())
  {
    hide RunError, InRange, Picked, SizesInRange, InsertAll, Ascending;
    if !authorized {
      return Some(NotAuthority);
    }
    if !result.ready {
      return Some(ShardResultNotReady);
    }
    if result.errorCode != 0 {
      return Some(AbortedComputation);
    }
    if tier1.promoted != 0 {
      return Some(Tier1AlreadyPromoted);
    }
    if result.generation != tier1.generation {
      return Some(StaleRevealResult);
    }
    if index >= tier1.shardCount {
      return Some(InvalidShardIndex);
    }
    var done := tier1.IsDone(index);
    if done {
      return Some(ShardAlreadyCollected);
    }
    if |list| != tier1.shardSizes[index] {
      return Some(WrongEntryCount);
    }
    var admission := Tier1Admission(tier1, index);
    e := CheckRun(ledger, round.key, admission, false, list);
    if e.Some? {
      return;
    }
    var take := Min(SHARD_WINNERS, |list|);
    e := InsertWinners(tier1, [result.slot1, result.slot2, result.slot3], take, list);
    if e.Some? {
      return;
    }
    tier1.MarkDone(index);
  }

  /** The balanced partition of the sorted winners, in buffers of the bracket's width. */
  method SemifinalPartition(tier1: Tier1State, count: nat) returns (sizes: seq<nat>, bounds: seq<Key>)
    requires tier1.Valid() && tier1.winnerCount >= 1
    requires count == BalancedCount(tier1.winnerCount, MAX_SHARD_SIZE) <= MAX_SHARDS
    ensures |sizes| == |bounds| == MAX_SHARDS && SizesInRange(sizes[..count])
    ensures Layout(sizes[..count], bounds[..count]) == PromotedLayout(tier1.View().winners)
  {
    hide PlannedSoFar, Ascending, SizesInRange, BalancedSizes, PromotedLayout;
    var n := tier1.winnerCount;
    ghost var w := tier1.View().winners;
    BalancedSizesFit(n, MAX_SHARD_SIZE);
    var base, extra := n / count, n % count;
    sizes, bounds := seq(MAX_SHARDS, _ => 0), seq<Key>(MAX_SHARDS, _ => DEFAULT_KEY);
    var cursor: nat := 0;
    PlannedStart(w, sizes, bounds);
    for k := 0 to count
      invariant |sizes| == |bounds| == MAX_SHARDS && PlannedSoFar(w, sizes, bounds, k, cursor)
    {
      var sz: nat := base + (if k < extra then 1 else 0);
      BalancedSizeAt(n, MAX_SHARD_SIZE, k);
      PlannedStep(w, sizes, bounds, k, cursor, sz);
      sizes := sizes[k := sz];
      bounds := bounds[k := tier1.winners[cursor]];
      cursor := cursor + sz;
    }
    PlannedIsPromoted(w, sizes, bounds, count, cursor);
  }

  /** The first k semifinals have their balanced size and start where the cursor stood. */
  ghost predicate PlannedSoFar(w: seq<Key>, sizes: seq<nat>, bounds: seq<Key>, k: nat, cursor: nat) {
    var planned := BalancedSizes(|w|, MAX_SHARD_SIZE);
    && w != [] && k <= |planned| && |sizes| == |bounds| == MAX_SHARDS && k <= MAX_SHARDS
    && cursor == SumTo(planned, k)
    && forall j :: 0 <= j < k ==>
         sizes[j] == planned[j] && SumTo(planned, j) < |w| && bounds[j] == w[SumTo(planned, j)]
  }

  lemma PlannedStart(w: seq<Key>, sizes: seq<nat>, bounds: seq<Key>)
    requires w != [] && |sizes| == |bounds| == MAX_SHARDS
    ensures PlannedSoFar(w, sizes, bounds, 0, 0)
  {
  }

  lemma PlannedStep(w: seq<Key>, sizes: seq<nat>, bounds: seq<Key>, k: nat, cursor: nat, sz: nat)
    requires PlannedSoFar(w, sizes, bounds, k, cursor) && k < |BalancedSizes(|w|, MAX_SHARD_SIZE)| <= MAX_SHARDS
    requires sz == BalancedSizes(|w|, MAX_SHARD_SIZE)[k]
    ensures cursor < |w|
    ensures PlannedSoFar(w, sizes[k := sz], bounds[k := w[cursor]], k + 1, cursor + sz)
  {
    hide BalancedSizes, BalancedCount;
    var planned := BalancedSizes(|w|, MAX_SHARD_SIZE);
    BalancedSizesFit(|w|, MAX_SHARD_SIZE);
    SumToStrict(planned, k, |planned|);
  }

  lemma PlannedIsPromoted(w: seq<Key>, sizes: seq<nat>, bounds: seq<Key>, count: nat, cursor: nat)
    requires PlannedSoFar(w, sizes, bounds, count, cursor) && count == BalancedCount(|w|, MAX_SHARD_SIZE)
    ensures |sizes| == |bounds| == MAX_SHARDS && SizesInRange(sizes[..count])
    ensures Layout(sizes[..count], bounds[..count]) == PromotedLayout(w)
  {
    BalancedSizesFit(|w|, MAX_SHARD_SIZE);
    assert sizes[..count] == PromotedLayout(w).sizes;
    assert bounds[..count] == PromotedLayout(w).bounds;
  }

  method PromoteTier1(authorized: bool, tier1: Tier1State, bracket: BracketState) returns (e: Option<Error>)
    requires tier1.Valid() && bracket.Valid() && tier1.Repr() !! bracket.Repr()
    modifies bracket.Repr(), tier1`promoted
    ensures bracket.Valid() && tier1.Valid()
    ensures Answers(e, Instructions.PromoteTier1(authorized, old(tier1.View()), Some(old(bracket.View()))), bracket.View())
    ensures e.None? ==> tier1.View() == old(tier1.View()).(promoted := true)
  {
    hide SizesInRange, Ascending, PromotedLayout, AllDone, BitsOf;
    if !authorized {
      return Some(NotAuthority);
    }
    if tier1.promoted != 0 {
      return Some(Tier1AlreadyPromoted);
    }
    var all := tier1.AllShardsCollected();
    if !all {
      return Some(Tier1NotReady);
    }
    var n := tier1.winnerCount;
    if n < 1 {
      return Some(Tier1NotReady);
    }
    var count := (n + MAX_SHARD_SIZE - 1) / MAX_SHARD_SIZE;
    if count > MAX_SHARDS {
      return Some(InvalidShardLayout);
    }
    var sizes, bounds := SemifinalPartition(tier1, count);
    bracket.Pin(sizes, bounds, count);
    tier1.promoted := 1;
    e := None;
  }

  method SliceStartOf(bracket: BracketState, k: nat) returns (start: nat)
    requires bracket.Valid() && k < bracket.shardCount
    ensures start == SumTo(bracket.View().layout.sizes, k)
  {
    start := 0;
    for j := 0 to k
      invariant start == SumTo(bracket.View().layout.sizes, j)
    {
      start := start + bracket.shardSizes[j];
    }
  }

  /** The accounts must be exactly winners[start..start + size]; the scan past the winners that
  are filled reads the zeroed rest of the buffer. */
  method SemifinalAdmission(tier1: Tier1State, bracket: BracketState, k: nat, start: nat) returns (a: Admission)
    requires tier1.Valid() && bracket.Valid() && k < bracket.shardCount
    requires start == SumTo(bracket.View().layout.sizes, k)
    requires start + bracket.shardSizes[k] <= MAX_TIER1_WINNERS
    ensures a == Exactly(SemifinalSlice(tier1.View(), bracket.View(), k))
  {
    a := Exactly(tier1.winners[start..start + bracket.shardSizes[k]]);
    forall i | 0 <= i < bracket.shardSizes[k]
      ensures a.keys[i] == BufferAt(tier1.View().winners, start + i) == SemifinalSlice(tier1.View(), bracket.View(), k)[i]
    {
      assert a.keys[i] == tier1.winners[start + i];
    }
  }

  method QueueSemifinalReveal(authorized: bool, round: CompetitionRound, ledger: Ledger, tier1: Tier1State,
                              bracket: BracketState, result: RevealResult, index: nat, list: seq<Key>)
    returns (e: Option<Error>, args: Arguments)
    requires tier1.Valid() && bracket.Valid()
    modifies result
    ensures Answers(e, Instructions.QueueSemifinalReveal(authorized, round.View(), ledger, tier1.View(),
                                                         bracket.View(), index, list),
                    result.generation)
    ensures e.None? ==>
              && args == ArgumentsOf(ledger, list) && |list| <= SLOTS
              && result.View() == Record(false, old(result.View()).podium, 0, bracket.generation)
  {
    args := Arguments([], 0, []);
    if !authorized {
      return Some(NotAuthority), args;
    }
    if tier1.promoted != 1 {
      return Some(SemifinalNotReady), args;
    }
    if round.scoringRevealed {
      return Some(ScoringAlreadyRevealed), args;
    }
    if index >= bracket.shardCount {
      return Some(InvalidShardIndex), args;
    }
    var size := bracket.shardSizes[index];
    var start := SliceStartOf(bracket, index);
    if |list| != size {
      return Some(WrongEntryCount), args;
    }
    if start + size > MAX_TIER1_WINNERS {
      return Some(IndexPanic), args;
    }
    assert bracket.shardSizes[..bracket.shardCount][index] == size;
    var admission := SemifinalAdmission(tier1, bracket, index, start);
    e := CheckRun(ledger, round.key, admission, true, list);
    if e.Some? {
      return;
    }
    args := BuildArguments(ledger, list);
    result.Reset(bracket.generation);
  }

  method AllBelow(slots: seq<nat>, take: nat, size: nat) returns (ok: bool)
    requires take <= |slots|
    ensures ok == forall q :: 0 <= q < take ==> slots[q] < size
  {
    for j := 0 to take
      invariant forall q :: 0 <= q < j ==> slots[q] < size
    {
      if slots[j] >= size {
        return false;
      }
    }
    ok := true;
  }

  lemma SliceIsBuffer(t: Tier1, b: Bracket, k: nat, i: nat)
    requires k < |b.layout.sizes| && i < b.layout.sizes[k]
    ensures SemifinalSlice(t, b, k)[i] == BufferAt(t.winners, SumTo(b.layout.sizes, k) + i)
  {
    hide SumTo, BufferAt;
  }

  /** The revealed slots of a semifinal, read off the sorted winners by index. */
  method PickFromSlice(tier1: Tier1State, bracket: BracketState, k: nat, slots: seq<nat>)
    returns (e: Option<Error>, picked: seq<Key>)
    requires tier1.Valid() && bracket.Valid() && k < bracket.shardCount && |slots| == SHARD_WINNERS
    ensures var slice := SemifinalSlice(tier1.View(), bracket.View(), k);
            var take := Min(SHARD_WINNERS, |slice|);
            var start := SumTo(bracket.View().layout.sizes, k);
            && e == (if exists q :: 0 <= q < take && slots[q] >= |slice| then Some(WrongEntryCount)
                     else if exists q :: 0 <= q < take && start + slots[q] >= MAX_TIER1_WINNERS then Some(IndexPanic)
                     else None)
            && (e.None? ==> picked == Picked(slice, slots, take))
  {
    hide SemifinalSlice, Picked, SumTo, Ascending, BitsOf, SizesInRange;
    var size := bracket.shardSizes[k];
    var start := SliceStartOf(bracket, k);
    var take := Min(SHARD_WINNERS, size);
    picked := [];
    var ok := AllBelow(slots, take, size);
    if !ok {
      return Some(WrongEntryCount), [];
    }
    ok, picked := ReadWinners(tier1, slots, take, start);
    if !ok {
      return Some(IndexPanic), [];
    }
    SlotsOfSlice(tier1.View(), bracket.View(), k, slots, take, picked);
    e := None;
  }

  method ReadWinners(tier1: Tier1State, slots: seq<nat>, take: nat, start: nat) returns (ok: bool, picked: seq<Key>)
    requires tier1.Valid() && take <= |slots|
    ensures ok == forall q :: 0 <= q < take ==> start + slots[q] < MAX_TIER1_WINNERS
    ensures ok ==> |picked| == take
                   && forall q :: 0 <= q < take ==> picked[q] == BufferAt(tier1.View().winners, start + slots[q])
  {
    picked := [];
    for j := 0 to take
      invariant |picked| == j
      invariant forall q :: 0 <= q < j ==>
                  start + slots[q] < MAX_TIER1_WINNERS && picked[q] == BufferAt(tier1.View().winners, start + slots[q])
    {
      if start + slots[j] >= MAX_TIER1_WINNERS {
        return false, [];
      }
      picked := picked + [tier1.winners[start + slots[j]]];
    }
    ok := true;
  }

  lemma SlotsOfSlice(t: Tier1, b: Bracket, k: nat, slots: seq<nat>, take: nat, picked: seq<Key>)
    requires k < |b.layout.sizes| && take <= |slots| && |picked| == take
    requires forall q :: 0 <= q < take ==> slots[q] < b.layout.sizes[k]
    requires forall q :: 0 <= q < take ==> picked[q] == BufferAt(t.winners, SumTo(b.layout.sizes, k) + slots[q])
    ensures picked == Picked(SemifinalSlice(t, b, k), slots, take)
  {
    hide SumTo, BufferAt, SemifinalSlice;
    forall q | 0 <= q < take ensures picked[q] == SemifinalSlice(t, b, k)[slots[q]] {
      SliceIsBuffer(t, b, k, slots[q]);
    }
  }

  method PushAll(bracket: BracketState, keys: seq<Key>) returns (ok: bool)
    requires bracket.Valid()
    modifies bracket.finalists, bracket`finalistCount
    ensures bracket.Valid() && ok == (|old(bracket.View()).finalists| + |keys| <= MAX_FINALISTS || keys == [])
    ensures ok ==> bracket.View() == old(bracket.View()).(finalists := old(bracket.View()).finalists + keys)
  {
    ghost var was := bracket.View();
    for j := 0 to |keys|
      invariant bracket.Valid() && bracket.View() == was.(finalists := was.finalists + keys[..j])
      invariant |was.finalists| + j <= MAX_FINALISTS
    {
      var room := bracket.PushFinalist(keys[j]);
      if !room {
        return false;
      }
      assert keys[..j + 1] == keys[..j] + [keys[j]];
    }
    assert keys[..|keys|] == keys;
    ok := true;
  }

  method CollectSemifinalWinners(authorized: bool, tier1: Tier1State, bracket: BracketState,
                                 result: RevealResult, index: nat) returns (e: Option<Error>)
    requires tier1.Valid() && bracket.Valid() && tier1.Repr() !! bracket.Repr()
    modifies bracket.finalists, bracket`finalistCount, bracket`shardsCollected
    ensures bracket.Valid()
    ensures Answers(e, Instructions.CollectSemifinalWinners(authorized, tier1.View(), old(bracket.View()),
                                                            result.View(), index),
                    bracket.View())
  {
    hide BitsOf, Ascending, SizesInRange, SumTo, SemifinalSlice, Picked;
    if !authorized {
      return Some(NotAuthority);
    }
    if tier1.promoted != 1 {
      return Some(SemifinalNotReady);
    }
    if index >= bracket.shardCount {
      return Some(InvalidShardIndex);
    }
    e := CheckRecord(result, bracket.generation);
    if e.Some? {
      return;
    }
    var collected := bracket.IsCollected(index);
    if collected {
      return Some(ShardAlreadyCollected);
    }
    var picked;
    e, picked := PickFromSlice(tier1, bracket, index, [result.slot1, result.slot2, result.slot3]);
    if e.Some? {
      return;
    }
    var ok := PushAll(bracket, picked);
    if !ok {
      return Some(InvalidShardLayout);
    }
    bracket.MarkCollected(index);
  }
}
