/** The accounts of one round as the objects the instructions update: fixed buffers with a
count, a bitmask, flags - and the value each of them stands for. */
module AccountState {
  import opened Ranking
  import opened Circuit
  import opened Partition
  import opened Accounts
  import opened Instructions

  class CompetitionRound {
    var key: Key
    var status: Status
    var participantCount: nat
    var scoredCount: nat
    var scoringRevealed: bool
    var top1: Key
    var top2: Key
    var top3: Key

    function View(): Round
      reads this
    {
      Round(key, status, participantCount, scoredCount, scoringRevealed, [top1, top2, top3])
    }

    /** The one write of a round's result. */
    method Reveal(top: seq<Key>)
      requires |top| == REVEAL_TOP_K
      modifies this
      ensures View() == WithTop(old(View()), top)
    {
      top1, top2, top3 := top[0], top[1], top[2];
      scoringRevealed := true;
    }
  }

  class RevealResult {
    var ready: bool
    var slot1: nat
    var slot2: nat
    var slot3: nat
    var score1: nat
    var score2: nat
    var score3: nat
    var errorCode: nat
    var generation: nat

    function View(): Record
      reads this
    {
      var slots, scores: seq<nat> := [slot1, slot2, slot3], [score1, score2, score3];
      Record(ready, Podium(slots, scores), errorCode, generation)
    }

    /** What every queue instruction writes; the old slots stay until the callback lands. */
    method Reset(stamp: nat)
      modifies this
      ensures View() == Record(false, old(View()).podium, 0, stamp)
    {
      ready := false;
      errorCode := 0;
      generation := stamp;
    }

    /** The callback: the revealed podium and the ready flag, never the stamp. */
    method Land(out: Podium)
      modifies this
      ensures View() == old(View()).(podium := out, ready := true)
    {
      slot1, score1 := out.slots[0], out.scores[0];
      slot2, score2 := out.slots[1], out.scores[1];
      slot3, score3 := out.slots[2], out.scores[2];
      ready := true;
    }
  }

  /** Write a whole fixed-size buffer, element by element. */
  method Fill(a: array<nat>, s: seq<nat>)
    requires |s| == a.Length
    modifies a
    ensures a[..] == s
  {
    for i := 0 to a.Length
      invariant a[..i] == s[..i]
    {
      a[i] := s[i];
    }
  }

  // ---- the bitmask of collected shards -----------------------------------------------------

  function Bit(k: nat): bv8
    requires k < 8
  {
    1 << k
  }

  function BitsOf(mask: bv8): set<nat> {
    set k: nat | k < 8 && mask & Bit(k) != 0
  }

  lemma BitValues()
    ensures Bit(0) == 1 && Bit(1) == 2 && Bit(2) == 4 && Bit(3) == 8
    ensures Bit(4) == 16 && Bit(5) == 32 && Bit(6) == 64 && Bit(7) == 128
  {
  }

  lemma SetBit(mask: bv8, k: nat)
    requires k < 8
    ensures BitsOf(mask | Bit(k)) == BitsOf(mask) + {k}
  {
    hide Bit;
    forall j: nat | j < 8 ensures (mask | Bit(k)) & Bit(j) != 0 <==> mask & Bit(j) != 0 || j == k {
      OrThenAnd(mask, Bit(k), Bit(j));
      BitsApart(k, j);
    }
  }

  lemma OrThenAnd(mask: bv8, b: bv8, c: bv8)
    ensures (mask | b) & c != 0 <==> mask & c != 0 || b & c != 0
  {
  }

  lemma BitsApart(k: nat, j: nat)
    requires k < 8 && j < 8
    ensures Bit(k) & Bit(j) != 0 <==> k == j
  {
    BitValues();
  }

  function FullMask(count: nat): bv8 {
    if count >= 8 then 255 else Bit(count) - 1
  }

  lemma FullMaskIsAll(mask: bv8, count: nat)
    requires count <= MAX_SHARDS
    ensures mask == FullMask(count) <==> BitsOf(mask) == Below(count)
  {
    BitValues();
    if BitsOf(mask) == Below(count) {
      forall k: nat | k < 8 ensures mask & Bit(k) != 0 <==> k < count {
        assert k in BitsOf(mask) <==> k in Below(count);
      }
      assert mask & Bit(0) != 0 <==> 0 < count;
      assert mask & Bit(1) != 0 <==> 1 < count;
      assert mask & Bit(2) != 0 <==> 2 < count;
      assert mask & Bit(3) != 0 <==> 3 < count;
      assert mask & Bit(4) == mask & Bit(5) == mask & Bit(6) == mask & Bit(7) == 0;
    }
  }

  // ---- the bracket -------------------------------------------------------------------------

  class BracketState {
    const shardSizes: array<nat>
    const shardBounds: array<Key>
    const finalists: array<Key>
    var shardCount: nat
    var shardsCollected: bv8
    var finalistCount: nat
    var finalQueued: bool
    var applied: bool
    var generation: nat

    ghost function Repr(): set<object> {
      {this, shardSizes, shardBounds, finalists}
    }

    ghost predicate Valid()
      reads Repr()
    {
      && shardSizes.Length == shardBounds.Length == MAX_SHARDS && finalists.Length == MAX_FINALISTS
      && shardSizes != shardBounds && shardSizes != finalists && shardBounds != finalists
      && shardCount <= MAX_SHARDS && finalistCount <= MAX_FINALISTS
      && SizesInRange(shardSizes[..shardCount])
    }

    ghost function View(): Bracket
      requires Valid()
      reads Repr()
    {
      Bracket(Layout(shardSizes[..shardCount], shardBounds[..shardCount]), BitsOf(shardsCollected),
              finalists[..finalistCount], finalQueued, applied, generation)
    }

    /** The zeroed account that init_if_needed creates. */
    constructor ()
      ensures Valid() && fresh(Repr()) && generation == 0
    {
      shardSizes := new nat[MAX_SHARDS](_ => 0);
      shardBounds := new Key[MAX_SHARDS](_ => DEFAULT_KEY);
      finalists := new Key[MAX_FINALISTS](_ => DEFAULT_KEY);
      shardCount, shardsCollected, finalistCount := 0, 0, 0;
      finalQueued, applied, generation := false, false, 0;
    }

    method AllShardsCollected() returns (all: bool)
      requires Valid()
      ensures all == AllCollected(View())
    {
      var full := if shardCount >= 8 then 255 else Bit(shardCount) - 1;
      all := shardsCollected == full;
      FullMaskIsAll(shardsCollected, shardCount);
    }

    /** Pin a partition: nothing is collected, and the stamp moves on. */
    method Pin(sizes: seq<nat>, bounds: seq<Key>, count: nat)
      requires Valid() && |sizes| == |bounds| == MAX_SHARDS && count <= MAX_SHARDS
      requires SizesInRange(sizes[..count])
      modifies Repr()
      ensures Valid() && View() == FreshBracket(Layout(sizes[..count], bounds[..count]), Some(old(View())))
    {
      shardCount, shardsCollected, finalistCount := count, 0, 0;
      finalQueued, applied := false, false;
      generation := (generation + 1) % STAMPS;
      Fill(shardSizes, sizes);
      Fill(shardBounds, bounds);
      Fill(finalists, seq(MAX_FINALISTS, _ => DEFAULT_KEY));
      assert shardSizes[..count] == shardSizes[..][..count] && shardBounds[..count] == shardBounds[..][..count];
      assert BitsOf(0) == {};
      assert finalists[..0] == [];
    }

    /** Append one winner, or refuse on a full buffer. */
    method PushFinalist(key: Key) returns (ok: bool)
      requires Valid()
      modifies finalists, this`finalistCount
      ensures Valid() && ok == (|old(View()).finalists| < MAX_FINALISTS)
      ensures View() == if ok then old(View()).(finalists := old(View()).finalists + [key]) else old(View())
    {
      ok := finalistCount < MAX_FINALISTS;
      if ok {
        finalists[finalistCount] := key;
        finalistCount := finalistCount + 1;
        assert finalists[..finalistCount] == old(finalists[..finalistCount]) + [key];
      }
    }

    method IsCollected(k: nat) returns (yes: bool)
      requires Valid() && k < 8
      ensures yes == (k in View().collected)
    {
      yes := shardsCollected & Bit(k) != 0;
    }

    method MarkCollected(k: nat)
      requires Valid() && k < 8
      modifies this`shardsCollected
      ensures Valid() && View() == old(View()).(collected := old(View()).collected + {k})
    {
      SetBit(shardsCollected, k);
      shardsCollected := shardsCollected | Bit(k);
    }

    /** The verified ascending order of a queued final replaces the collected order. */
    method StoreFinalOrder(list: seq<Key>)
      requires Valid() && |list| == finalistCount
      modifies finalists, this`finalQueued
      ensures Valid() && View() == old(View()).(finalists := list, finalQueued := true)
    {
      for i := 0 to |list|
        modifies finalists
        invariant finalists[..i] == list[..i]
      {
        finalists[i] := list[i];
      }
      finalQueued := true;
    }
  }

  // ---- tier 1 ------------------------------------------------------------------------------

  class Tier1State {
    const shardBounds: array<Key>
    const winners: array<Key>
    const shardSizes: array<nat>
    const shardDone: array<nat>
    var shardCount: nat
    var winnerCount: nat
    var promoted: nat
    var generation: nat

    ghost function Repr(): set<object> {
      {this, shardBounds, winners, shardSizes, shardDone}
    }

    ghost predicate Valid()
      reads Repr()
    {
      && shardBounds.Length == shardSizes.Length == shardDone.Length == MAX_TIER1_SHARDS
      && winners.Length == MAX_TIER1_WINNERS
      && shardBounds != winners && shardBounds != shardSizes && shardBounds != shardDone
      && winners != shardSizes && winners != shardDone && shardSizes != shardDone
      && shardCount <= MAX_TIER1_SHARDS && winnerCount <= MAX_TIER1_WINNERS && promoted <= 1
      && SizesInRange(shardSizes[..shardCount])
      && (forall k :: 0 <= k < MAX_TIER1_SHARDS ==> shardDone[k] <= 1)
      && Ascending(winners[..winnerCount])
      && (forall j :: winnerCount <= j < MAX_TIER1_WINNERS ==> winners[j] == DEFAULT_KEY)
    }

    ghost function View(): Tier1
      requires Valid()
      reads Repr()
    {
      Tier1(Layout(shardSizes[..shardCount], shardBounds[..shardCount]), DoneSet(),
            winners[..winnerCount], promoted == 1, generation)
    }

    ghost function DoneSet(): set<nat>
      requires shardCount <= shardDone.Length
      reads this, shardDone
    {
      set k: nat | k < shardCount && shardDone[k] == 1
    }

    /** The zeroed account that init creates. */
    constructor ()
      ensures Valid() && fresh(Repr())
    {
      shardBounds := new Key[MAX_TIER1_SHARDS](_ => DEFAULT_KEY);
      winners := new Key[MAX_TIER1_WINNERS](_ => DEFAULT_KEY);
      shardSizes := new nat[MAX_TIER1_SHARDS](_ => 0);
      shardDone := new nat[MAX_TIER1_SHARDS](_ => 0);
      shardCount, winnerCount, promoted, generation := 0, 0, 0, 0;
    }

    method AllShardsCollected() returns (all: bool)
      requires Valid()
      ensures all == AllDone(View())
    {
      all := true;
      for k := 0 to shardCount
        invariant all <==> forall j :: 0 <= j < k ==> shardDone[j] == 1
      {
        all := all && shardDone[k] == 1;
      }
      assert forall j: nat :: j < shardCount ==> (j in DoneSet() <==> shardDone[j] == 1);
    }

    method IsDone(k: nat) returns (yes: bool)
      requires Valid() && k < shardCount
      ensures yes == (k in View().done)
    {
      yes := shardDone[k] != 0;
    }

    method MarkDone(k: nat)
      requires Valid() && k < shardCount
      modifies shardDone
      ensures Valid() && View() == old(View()).(done := old(View()).done + {k})
    {
      shardDone[k] := 1;
    }

    method Pin(sizes: seq<nat>, bounds: seq<Key>, count: nat, stamp: nat)
      requires Valid() && |sizes| == |bounds| == MAX_TIER1_SHARDS && count <= MAX_TIER1_SHARDS
      requires SizesInRange(sizes[..count])
      modifies Repr()
      ensures Valid() && View() == Tier1(Layout(sizes[..count], bounds[..count]), {}, [], false, stamp)
    {
      shardCount, winnerCount, promoted, generation := count, 0, 0, stamp;
      Fill(shardSizes, sizes);
      Fill(shardBounds, bounds);
      Fill(shardDone, seq(MAX_TIER1_SHARDS, _ => 0));
      Fill(winners, seq(MAX_TIER1_WINNERS, _ => DEFAULT_KEY));
      assert shardSizes[..count] == shardSizes[..][..count] && shardBounds[..count] == shardBounds[..][..count];
      assert forall k :: 0 <= k < MAX_TIER1_SHARDS ==> shardDone[k] == shardDone[..][k];
      assert forall j :: 0 <= j < MAX_TIER1_WINNERS ==> winners[j] == winners[..][j];
    }

    /** Where key belongs among the ascending winners; none if it is one of them. The scan stops
    early and is still complete. */
    method FindPosition(key: Key) returns (pos: nat, present: bool)
      requires Valid()
      ensures present <==> key in winners[..winnerCount]
      ensures !present ==>
                && pos <= winnerCount
                && (forall j :: 0 <= j < pos ==> winners[j] < key)
                && (forall j :: pos <= j < winnerCount ==> key < winners[j])
    {
      pos, present := winnerCount, false;
      var i := 0;
      while i < winnerCount
        invariant i <= winnerCount && pos == winnerCount && !present
        invariant forall j :: 0 <= j < i ==> winners[j] < key
      {
        if winners[i] == key {
          assert winners[..winnerCount][i] == key;
          present := true;
          return;
        }
        if winners[i] > key {
          pos := i;
          forall j | i <= j < winnerCount ensures key < winners[j] {
            assert i < j ==> winners[..winnerCount][i] < winners[..winnerCount][j];
          }
          return;
        }
        i := i + 1;
      }
    }

    /** Open a gap at pos by moving the tail up one place, highest index first, and fill it. */
    method ShiftIn(key: Key, pos: nat)
      requires winners.Length == MAX_TIER1_WINNERS && pos <= winnerCount < MAX_TIER1_WINNERS
      modifies winners
      ensures winners[..winnerCount + 1] == old(winners[..pos]) + [key] + old(winners[pos..winnerCount])
      ensures forall j :: winnerCount < j < MAX_TIER1_WINNERS ==> winners[j] == old(winners[j])
    {
      ghost var was := winners[..];
      var i := winnerCount;
      while i > pos
        invariant pos <= i <= winnerCount
        invariant |was| == winners.Length
        invariant forall j :: 0 <= j <= i ==> winners[j] == was[j]
        invariant forall j :: i <= j < winnerCount ==> winners[j + 1] == was[j]
        invariant forall j :: winnerCount < j < MAX_TIER1_WINNERS ==> winners[j] == was[j]
      {
        winners[i] := winners[i - 1];
        i := i - 1;
      }
      winners[pos] := key;
      ShiftedIn(was, winners[..winnerCount + 1], key, pos, winnerCount);
    }

    /** In-place sorted insertion: the winners are the ascending list of one more key, or the
    buffer is untouched and the key refused. */
    method InsertWinnerSorted(key: Key) returns (ok: bool)
      requires Valid()
      modifies winners, this`winnerCount
      ensures Valid() && ok == InsertWinner(old(View()).winners, key).Some?
      ensures View() == if ok then old(View()).(winners := InsertWinner(old(View()).winners, key).value) else old(View())
    {
      hide Ascending, Members, Sorted, SizesInRange;
      var n := winnerCount;
      if n >= MAX_TIER1_WINNERS {
        return false;
      }
      var pos, present := FindPosition(key);
      if present {
        return false;
      }
      ghost var was := winners[..n];
      assert forall j :: 0 <= j < n ==> was[j] == winners[j];
      InsertedIsSorted(was, key, pos);
      assert winners[..pos] == was[..pos] && winners[pos..n] == was[pos..];
      ShiftIn(key, pos);
      winnerCount := winnerCount + 1;
      ok := true;
    }
  }

  /** What shifting leaves behind, slot by slot. */
  lemma ShiftedIn(was: seq<Key>, now: seq<Key>, key: Key, pos: nat, n: nat)
    requires pos <= n < |was| && |now| == n + 1 && now[pos] == key
    requires forall j :: 0 <= j < pos ==> now[j] == was[j]
    requires forall j :: pos <= j < n ==> now[j + 1] == was[j]
    ensures now == was[..pos] + [key] + was[pos..n]
  {
    var shifted := was[..pos] + [key] + was[pos..n];
    forall i | 0 <= i < |now| ensures now[i] == shifted[i] {
      if i > pos {
        assert now[(i - 1) + 1] == was[i - 1];
      }
    }
  }

  lemma InsertedIsSorted(was: seq<Key>, key: Key, pos: nat)
    requires Ascending(was) && pos <= |was|
    requires forall j :: 0 <= j < pos ==> was[j] < key
    requires forall j :: pos <= j < |was| ==> key < was[j]
    ensures var now := was[..pos] + [key] + was[pos..];
            Ascending(now) && now == Sorted(Members(was) + {key})
  {
    var now := was[..pos] + [key] + was[pos..];
    forall i, j | 0 <= i < j < |now| ensures now[i] < now[j] {
      assert pos < i ==> now[i] == was[i - 1];
      assert pos < j ==> now[j] == was[j - 1];
    }
    MembersConcat(was[..pos], [key]);
    MembersConcat(was[..pos] + [key], was[pos..]);
    MembersConcat(was[..pos], was[pos..]);
    assert was == was[..pos] + was[pos..];
    assert Members(now) == Members(was) + {key};
    AscendingUnique(now, Sorted(Members(was) + {key}));
  }
}
