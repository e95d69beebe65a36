/** The on-chain accounts of one round as values, and the limits and errors the program uses. */
module Accounts {
  import opened Ranking
  import opened Circuit
  import opened Partition

  const SLOTS := 16
  const MAX_REVEAL_ACCOUNT_REFS := 14
  const MAX_SHARDS := 4
  const MAX_FINALISTS := 12
  const MAX_TIER1_SHARDS := 17
  const MAX_TIER1_WINNERS := 51
  const SINGLE_TIER_CAPACITY := 52
  const TWO_TIER_CAPACITY := 221
  const FINAL_SHARD_INDEX := 255
  const DEFAULT_KEY: Key := 0
  const STAMPS := 0x1_0000_0000

  datatype Option<T> = None | Some(value: T)

  datatype Outcome<T> = Ok(value: T) | Err(error: Error)

  datatype Error =
    | NotAuthority | AccountConstraint | NotAnEntry
    | RoundNotClosed | ScoringAlreadyRevealed | ScoringIncomplete
    | InvalidShardLayout | InvalidShardIndex | WrongBracketTier
    | FinalRevealNotApplicable | BracketNotReady | BracketAlreadyFinal
    | WrongEntryCount | ShardEntriesOutOfRange | FinalistMismatch | SemifinalSliceMismatch
    | ShardResultNotReady | AbortedComputation | StaleRevealResult | ShardAlreadyCollected
    | Tier1AlreadyPromoted | Tier1NotReady | Tier1WinnerRejected | SemifinalNotReady | IndexPanic

  datatype Status = Open | Closed | Finalized

  /** A competition entry: which round and player it belongs to, and its score once known. */
  datatype Entry = Entry(round: Key, player: Key, scored: bool, score: Byte, rarity: Byte)

  type Ledger = map<Key, Entry>

  datatype Round = Round(
    key: Key, status: Status, participantCount: nat, scoredCount: nat, revealed: bool, top: seq<Key>)

  /** The result record of one reveal. The callback never touches the generation stamp. */
  datatype Record = Record(ready: bool, podium: Podium, errorCode: nat, generation: nat)

  datatype Bracket = Bracket(
    layout: Layout, collected: set<nat>, finalists: seq<Key>,
    finalQueued: bool, applied: bool, generation: nat)

  datatype Tier1 = Tier1(
    layout: Layout, done: set<nat>, winners: seq<Key>, promoted: bool, generation: nat)

  function RoundEntries(ledger: Ledger, round: Key): set<Key> {
    set x | x in ledger && ledger[x].round == round
  }

  /** The points every entry competes with. */
  function PointsOf(ledger: Ledger): Points {
    map x | x in ledger :: Composite(ledger[x].score, ledger[x].rarity)
  }

  function ScoreOf(ledger: Ledger, x: Key): Byte {
    if x in ledger then ledger[x].score else 0
  }

  function RarityOf(ledger: Ledger, x: Key): Byte {
    if x in ledger then ledger[x].rarity else 0
  }

  /** The argument in slot i: the list, then its first entry again as padding. */
  function SlotKey(list: seq<Key>, i: nat): Key {
    if i < |list| then list[i] else if list != [] then list[0] else DEFAULT_KEY
  }

  function SlotScores(ledger: Ledger, list: seq<Key>): (s: seq<Byte>)
    ensures |s| == SLOTS
  {
    seq(SLOTS, i requires 0 <= i < SLOTS => ScoreOf(ledger, SlotKey(list, i)))
  }

  function SlotRarities(ledger: Ledger, list: seq<Key>): (s: seq<Byte>)
    ensures |s| == SLOTS
  {
    seq(SLOTS, i requires 0 <= i < SLOTS => RarityOf(ledger, SlotKey(list, i)))
  }

  /** The plaintext arguments of a reveal: sixteen entry accounts to read scores from, how many
  of them are real, and sixteen rarities. */
  datatype Arguments = Arguments(keys: seq<Key>, count: nat, rarities: seq<Byte>)

  function ArgumentsOf(ledger: Ledger, list: seq<Key>): Arguments {
    Arguments(seq<Key>(SLOTS, i requires 0 <= i < SLOTS => SlotKey(list, i)), |list|, SlotRarities(ledger, list))
  }

  /** What the cluster computes for a queued list: the circuit on its sixteen padded slots. */
  ghost function RevealOf(ledger: Ledger, list: seq<Key>): Podium {
    PodiumOf(ListKeys(ledger, list), Masked(SlotScores(ledger, list), |list|))
  }

  function LimitOf(l: Layout, k: nat): Option<Key>
    requires k < |l.bounds|
  {
    if k + 1 < |l.bounds| then Some(l.bounds[k + 1]) else None
  }

  /** The declared arrays are a layout of `total` entries: a legal number of shards, sizes in
  range that sum to the total, zeroed unused slots and strictly ascending first keys. */
  predicate LayoutOk(sizes: seq<nat>, bounds: seq<Key>, count: nat, max: nat, total: nat) {
    && |sizes| == |bounds| == max
    && 1 <= count <= max
    && SizesInRange(sizes[..count])
    && Sum(sizes[..count]) == total
    && (forall k :: count <= k < max ==> sizes[k] == 0)
    && Ascending(bounds[..count])
  }

  function NextStamp(generation: nat): nat {
    (generation + 1) % STAMPS
  }

  // ---- from slots to entries ---------------------------------------------------------------

  /** slots name the first places among the members of an ascending list. */
  predicate NamesPodium(p: Points, list: seq<Key>, slots: seq<nat>) {
    |slots| == REVEAL_TOP_K &&
    forall r :: 0 <= r < REVEAL_TOP_K && r < |list| ==>
      slots[r] < |list| && Placed(p, Members(list), r, list[slots[r]])
  }

  ghost function ListKeys(ledger: Ledger, list: seq<Key>): (k: seq<nat>)
    ensures |k| == SLOTS
  {
    CompositeKeys(SlotScores(ledger, list), SlotRarities(ledger, list), |list|)
  }

  /** Real slots compare as their entries do, and padding never beats a real slot. */
  lemma SlotComparison(ledger: Ledger, list: seq<Key>, j: nat, i: nat)
    requires Ascending(list) && |list| <= SLOTS && i < |list| && j < SLOTS
    requires forall x :: x in list ==> x in ledger
    ensures Better(SlotPoints(ListKeys(ledger, list)), j, i)
       <==> j < |list| && Better(PointsOf(ledger), list[j], list[i])
  {
    var k := ListKeys(ledger, list);
    assert list[i] in ledger && k[i] == At(PointsOf(ledger), list[i]);
    if j < |list| {
      assert list[j] in ledger && k[j] == At(PointsOf(ledger), list[j]);
      if j < i {
        assert list[j] < list[i];
      } else if i < j {
        assert list[i] < list[j];
      }
    } else {
      assert k[j] == 0;
    }
    assert Better(SlotPoints(k), j, i) == Beats(k, j, i);
  }

  /** Slot order on an ascending list is the order of the entries themselves, padding included. */
  lemma SlotRankIsEntryRank(ledger: Ledger, list: seq<Key>, i: nat)
    requires Ascending(list) && |list| <= SLOTS && i < |list|
    requires forall x :: x in list ==> x in ledger
    ensures Rank(SlotPoints(ListKeys(ledger, list)), Below(SLOTS), i)
         == Rank(PointsOf(ledger), Members(list), list[i])
  {
    var slots := Beaters(SlotPoints(ListKeys(ledger, list)), Below(SLOTS), i);
    var entries := Beaters(PointsOf(ledger), Members(list), list[i]);
    forall j | j in slots ensures j < |list| && list[j] in entries {
      SlotComparison(ledger, list, j, i);
    }
    forall x | x in entries ensures exists j :: j in slots && SlotKey(list, j) == x {
      var j: nat :| j < |list| && list[j] == x;
      SlotComparison(ledger, list, j, i);
      assert j in slots && SlotKey(list, j) == x;
    }
    ImageSize(slots, j => SlotKey(list, j), entries);
  }

  lemma RevealNamesPodium(ledger: Ledger, list: seq<Key>)
    requires Ascending(list) && |list| <= SLOTS
    requires forall x :: x in list ==> x in ledger
    ensures NamesPodium(PointsOf(ledger), list, RevealOf(ledger, list).slots)
  {
    var scores, rarities := SlotScores(ledger, list), SlotRarities(ledger, list);
    var k := ListKeys(ledger, list);
    var out := RevealOf(ledger, list);
    forall r | 0 <= r < REVEAL_TOP_K && r < |list|
      ensures out.slots[r] < |list| && Placed(PointsOf(ledger), Members(list), r, list[out.slots[r]])
    {
      assert SlotPlaced(k, r, out.slots[r]);
      PaddingNeverPlaces(scores, rarities, |list|, r, out.slots[r]);
      SlotRankIsEntryRank(ledger, list, out.slots[r]);
    }
  }

  lemma PodiumSlotsDistinct(p: Points, list: seq<Key>, slots: seq<nat>, q: nat, r: nat)
    requires NamesPodium(p, list, slots)
    requires q < r < REVEAL_TOP_K && r < |list|
    ensures list[slots[q]] != list[slots[r]]
  {
    assert Placed(p, Members(list), q, list[slots[q]]);
    assert Placed(p, Members(list), r, list[slots[r]]);
  }
}
