/** What every admissible step of a reveal keeps, and the theorem it leads to: whenever a round
is marked revealed, top1..top3 are the first three of all its entries. */
module RevealInvariant {
  import opened Ranking
  import opened Circuit
  import opened Partition
  import opened Accounts
  import opened Instructions
  import opened RevealRun

  /** Everything that decides which records are current and what they may rank. */
  datatype Pins = Pins(
    twoTier: bool, entries: set<Key>, bracket: Option<Bracket>, tier1: Option<Tier1>, ground: set<Key>)

  function PinsOf(w: World): Pins {
    Pins(TwoTier(w), Entrants(w), w.bracket, w.tier1, w.ground)
  }

  // ---- records and computations ------------------------------------------------------------

  predicate IsFinal(addr: Addr) {
    addr.ShardResult? && addr.shard == FINAL_SHARD_INDEX
  }

  predicate IsTier1(q: Pins, addr: Addr) {
    q.twoTier && addr.ShardResult? && !IsFinal(addr)
  }

  /** The stamp under which the instructions would accept the record at addr now. */
  function LiveStamp(q: Pins, addr: Addr): Option<nat> {
    if IsTier1(q, addr) then
      if q.tier1.Some? then Some(q.tier1.value.generation) else None
    else
      if q.bracket.Some? then Some(q.bracket.value.generation) else None
  }

  /** list is what the current pins would rank into the record at addr. */
  predicate Fits(q: Pins, addr: Addr, list: seq<Key>) {
    if IsFinal(addr) then
      q.bracket.Some? && q.bracket.value.finalQueued && list == q.bracket.value.finalists
    else if IsTier1(q, addr) then
      && q.tier1.Some? && addr.shard < |q.tier1.value.layout.bounds|
      && Accepts(q.tier1.value.layout, q.entries, addr.shard, list)
    else
      var k := if addr.ShardResult? then addr.shard else addr.semi;
      && q.bracket.Some? && k < |q.bracket.value.layout.bounds|
      && Accepts(q.bracket.value.layout, q.ground, k, list)
  }

  ghost predicate Ranked(q: Pins, ledger: Ledger, addr: Addr, podium: Podium) {
    exists list :: Fits(q, addr, list) && podium == RevealOf(ledger, list)
  }

  /** Whatever can still be written to a record that reads as live fits the current pins. */
  predicate DueFit(q: Pins, results: map<Addr, Record>, inFlight: multiset<Computation>) {
    forall c :: c in inFlight ==>
      && c.addr in results
      && (LiveStamp(q, c.addr) == Some(results[c.addr].generation) ==> Fits(q, c.addr, c.list))
  }

  predicate QueuedFit(q: Pins, inFlight: multiset<Computation>) {
    forall c :: c in inFlight && LiveStamp(q, c.addr) == Some(c.stamp) ==> Fits(q, c.addr, c.list)
  }

  ghost predicate ReadyFit(q: Pins, ledger: Ledger, results: map<Addr, Record>) {
    forall a :: a in results && results[a].ready && LiveStamp(q, a) == Some(results[a].generation) ==>
      Ranked(q, ledger, a, results[a].podium)
  }

  ghost predicate RecordsSound(q: Pins, ledger: Ledger, results: map<Addr, Record>, inFlight: multiset<Computation>) {
    DueFit(q, results, inFlight) && QueuedFit(q, inFlight) && ReadyFit(q, ledger, results)
  }

  // ---- what has been collected -------------------------------------------------------------

  /** Exactly the first three of every collected cell have been kept. */
  ghost predicate Kept(p: Points, l: Layout, g: set<Key>, collected: set<nat>, out: set<Key>) {
    && (forall k :: k in collected ==> k < |l.bounds| && TopThree(p, Cell(l, g, k)) <= out)
    && (forall x :: x in out ==> exists k :: k in collected && k < |l.bounds| && x in TopThree(p, Cell(l, g, k)))
  }

  /** Every collected shard proved that its interval holds at least its share. */
  predicate Filled(l: Layout, g: set<Key>, collected: set<nat>) {
    forall k :: k in collected ==> k < |l.bounds| && |Cell(l, g, k)| >= l.sizes[k]
  }

  predicate InRankOrder(p: Points, g: set<Key>, finalists: seq<Key>) {
    && |finalists| == Min(SHARD_WINNERS, |g|)
    && forall r :: 0 <= r < |finalists| ==> Placed(p, g, r, finalists[r])
  }

  /** The pinned layout of a bracket, over the ground it was pinned on. */
  ghost predicate GroundSound(p: Points, entries: set<Key>, ground: set<Key>, twoTier: bool, l: Layout) {
    && WellFormed(l) && |l.bounds| <= MAX_SHARDS && Sum(l.sizes) == |ground|
    && Covers(p, entries, ground)
    && (if twoTier then Exact(l, ground) else ground == entries)
  }

  ghost predicate FinalistsSound(p: Points, ground: set<Key>, b: Bracket) {
    && b.collected <= Below(|b.layout.bounds|) && Filled(b.layout, ground, b.collected)
    && |b.finalists| <= SHARD_WINNERS * |b.collected|
    && (Exact(b.layout, ground) ==>
         && Kept(p, b.layout, ground, b.collected, Members(b.finalists)) && Distinct(b.finalists)
         && (|b.layout.bounds| == 1 && 0 in b.collected ==> InRankOrder(p, ground, b.finalists)))
    && (b.finalQueued ==> AllCollected(b) && NeedsFinalReveal(b) && Ascending(b.finalists))
  }

  ghost predicate BracketSound(p: Points, q: Pins, b: Bracket) {
    GroundSound(p, q.entries, q.ground, q.twoTier, b.layout) && FinalistsSound(p, q.ground, b)
  }

  /** How many winners the collected shards among the first m have yielded. */
  function WinnersOf(sizes: seq<nat>, done: set<nat>, m: nat): nat
    requires m <= |sizes|
  {
    if m == 0 then 0
    else WinnersOf(sizes, done, m - 1) + (if m - 1 in done then Min(SHARD_WINNERS, sizes[m - 1]) else 0)
  }

  predicate Tier1LayoutSound(entries: set<Key>, l: Layout) {
    WellFormed(l) && |l.bounds| <= MAX_TIER1_SHARDS && Sum(l.sizes) == |entries|
  }

  ghost predicate WinnersSound(p: Points, entries: set<Key>, t: Tier1) {
    && t.done <= Below(|t.layout.bounds|) && Filled(t.layout, entries, t.done)
    && Ascending(t.winners) && |t.winners| == WinnersOf(t.layout.sizes, t.done, |t.layout.sizes|)
    && (forall x :: x in t.winners ==>
          x in entries && exists k :: k in t.done && k < |t.layout.bounds| && InInterval(t.layout, k, x))
    && (Exact(t.layout, entries) ==> Kept(p, t.layout, entries, t.done, Members(t.winners)))
  }

  /** A promoted tier 1 is the one the bracket was computed from; stamps never coincide. */
  predicate Linked(q: Pins, t: Tier1) {
    && (t.promoted ==> && AllDone(t) && t.winners != []
                       && q.bracket.Some? && q.bracket.value.layout == PromotedLayout(t.winners)
                       && q.ground == Members(t.winners))
    && (q.bracket.Some? ==> q.bracket.value.generation != t.generation)
  }

  ghost predicate Tier1Sound(p: Points, q: Pins, t: Tier1) {
    && q.twoTier && Tier1LayoutSound(q.entries, t.layout) && WinnersSound(p, q.entries, t)
    && Linked(q, t)
  }

  ghost predicate PinsSound(p: Points, q: Pins) {
    && (q.bracket.Some? ==> BracketSound(p, q, q.bracket.value))
    && (q.tier1.Some? ==> Tier1Sound(p, q, q.tier1.value))
  }

  ghost predicate Inv(w: World) {
    && |Entrants(w)| == w.round.participantCount
    && PinsSound(Standings(w), PinsOf(w))
    && RecordsSound(PinsOf(w), w.ledger, w.results, w.inFlight)
    && (w.round.revealed ==> ExactTop(Standings(w), Entrants(w), w.round.top))
  }

  lemma UnstartedInv(w: World)
    requires Unstarted(w)
    ensures Inv(w)
  {
  }

  // ---- collecting one shard ----------------------------------------------------------------

  /** A list's podium slots pick out exactly the first three of its members, in rank order. */
  lemma PickedAreTopThree(p: Points, list: seq<Key>, slots: seq<nat>)
    requires Ascending(list) && NamesPodium(p, list, slots)
    ensures var picked := Picked(list, slots, Min(SHARD_WINNERS, |list|));
            && Members(picked) == TopThree(p, Members(list))
            && forall r :: 0 <= r < |picked| ==> Placed(p, Members(list), r, picked[r])
  {
    var take := Min(SHARD_WINNERS, |list|);
    var picked := Picked(list, slots, take);
    MembersSize(list);
    forall r | 0 <= r < take ensures Placed(p, Members(list), r, picked[r]) {
      assert slots[r] < |list|;
    }
    forall x | x in TopThree(p, Members(list)) ensures x in Members(picked) {
      RankInRange(p, Members(list), x);
      var r := Rank(p, Members(list), x);
      RankInjective(p, Members(list), x, picked[r]);
      assert picked[r] in picked;
    }
  }

  lemma KeptStep(p: Points, l: Layout, g: set<Key>, collected: set<nat>, out: set<Key>, k: nat, more: set<Key>)
    requires Kept(p, l, g, collected, out) && k < |l.bounds|
    requires more == TopThree(p, Cell(l, g, k))
    ensures Kept(p, l, g, collected + {k}, out + more)
  {
  }

  lemma KeptCovers(p: Points, l: Layout, g: set<Key>, collected: set<nat>, out: set<Key>)
    requires Exact(l, g) && Kept(p, l, g, collected, out)
    requires forall k :: 0 <= k < |l.bounds| ==> k in collected
    ensures Covers(p, g, out)
  {
    var cells := seq(|l.bounds|, k requires 0 <= k < |l.bounds| => Cell(l, g, k));
    forall x | x in g ensures exists k :: 0 <= k < |cells| && x in cells[k] {
      var k :| 0 <= k < |l.bounds| && InInterval(l, k, x);
      assert x in cells[k];
    }
    forall x | x in out ensures x in g {
      var k :| k in collected && k < |l.bounds| && x in TopThree(p, Cell(l, g, k));
      assert x in Cell(l, g, k);
    }
    TournamentCovers(p, g, cells, out);
  }

  /** Once every shard is collected the layout was a partition after all, and the kept keys
  cover the podium of the whole. */
  lemma AllCollectedCovers(p: Points, l: Layout, g: set<Key>, collected: set<nat>, out: set<Key>)
    requires WellFormed(l) && Sum(l.sizes) == |g|
    requires Filled(l, g, collected) && (forall k :: 0 <= k < |l.bounds| ==> k in collected)
    requires Exact(l, g) ==> Kept(p, l, g, collected, out)
    ensures Exact(l, g) && Covers(p, g, out)
  {
    ForcedPartition(l, g);
    KeptCovers(p, l, g, collected, out);
  }

  /** The record of a shard really ranked entries that shard's checks accept. */
  lemma RecordNamesPodium(q: Pins, ledger: Ledger, round: Key, results: map<Addr, Record>, addr: Addr,
                          l: Layout, g: set<Key>, k: nat) returns (ranked: seq<Key>)
    requires ReadyFit(q, ledger, results)
    requires addr in results && results[addr].ready && LiveStamp(q, addr) == Some(results[addr].generation)
    requires g <= RoundEntries(ledger, round) && WellFormed(l) && k < |l.bounds|
    requires forall list :: Fits(q, addr, list) ==> Accepts(l, g, k, list)
    ensures Accepts(l, g, k, ranked) && NamesPodium(PointsOf(ledger), ranked, results[addr].podium.slots)
  {
    ranked :| Fits(q, addr, ranked) && results[addr].podium == RevealOf(ledger, ranked);
    forall x | x in ranked ensures x in ledger {
      assert x in g;
    }
    RevealNamesPodium(ledger, ranked);
  }
}
