/** The bracket reveal as a state machine: accounts, result records and computations in flight,
with one step per instruction, callback or lost computation. */
module RevealRun {
  import opened Ranking
  import opened Circuit
  import opened Accounts
  import opened Instructions

  /** Where a result record lives: the shard namespace (255 is the final) or the semifinal one. */
  datatype Addr = ShardResult(shard: nat) | SemiResult(semi: nat)

  /** A queued computation: the record it will write, the entries it ranks, and the stamp its
  queue instruction wrote on the record. */
  datatype Computation = Computation(addr: Addr, list: seq<Key>, stamp: nat)

  /** One round's reveal. `ground` is a history variable: the entries the current bracket cuts
  up - all of the round's, or the tier-1 winners it was promoted from. */
  datatype World = World(
    round: Round, ledger: Ledger, bracket: Option<Bracket>, tier1: Option<Tier1>,
    results: map<Addr, Record>, inFlight: multiset<Computation>, ground: set<Key>)

  datatype Step =
    | PinBracket(ok: bool, sizes: seq<nat>, bounds: seq<Key>, count: nat)
    | QueueShard(ok: bool, index: nat, list: seq<Key>)
    | CollectShard(ok: bool, index: nat, list: seq<Key>)
    | ApplyResult(ok: bool, index: nat)
    | PinTier1(ok: bool, sizes: seq<nat>, bounds: seq<Key>, count: nat, slot: nat)
    | CloseTier1Account(ok: bool)
    | QueueTier1(ok: bool, index: nat, list: seq<Key>)
    | CollectTier1(ok: bool, index: nat, list: seq<Key>)
    | Promote(ok: bool)
    | QueueSemifinal(ok: bool, index: nat, list: seq<Key>)
    | CollectSemifinal(ok: bool, index: nat)
    | Callback(c: Computation)
    | Abort(c: Computation)

  function Entrants(w: World): set<Key> {
    RoundEntries(w.ledger, w.round.key)
  }

  function Standings(w: World): Points {
    PointsOf(w.ledger)
  }

  predicate TwoTier(w: World) {
    w.round.participantCount > SINGLE_TIER_CAPACITY
  }

  /** Queueing resets the record, stamps it and puts the computation in flight. */
  function Queued(w: World, addr: Addr, list: seq<Key>, stamp: nat): World {
    var podium := if addr in w.results then w.results[addr].podium else Podium([0, 0, 0], [0, 0, 0]);
    w.(results := w.results[addr := Record(false, podium, 0, stamp)],
       inFlight := w.inFlight + multiset{Computation(addr, list, stamp)})
  }

  ghost function Next(w: World, s: Step): Outcome<World> {
    match s
    case PinBracket(ok, sizes, bounds, count) =>
      (match InitBracket(ok, w.round, w.bracket, sizes, bounds, count)
       case Err(e) => Err(e)
       case Ok(b) => Ok(w.(bracket := Some(b), ground := Entrants(w))))
    case QueueShard(ok, index, list) =>
      if w.bracket.None? then Err(AccountConstraint) else
      (match QueueShardReveal(ok, w.round, w.ledger, w.bracket.value, index, list)
       case Err(e) => Err(e)
       case Ok(b) => Ok(Queued(w.(bracket := Some(b)), ShardResult(index), list, b.generation)))
    case CollectShard(ok, index, list) =>
      if w.bracket.None? || ShardResult(index) !in w.results then Err(AccountConstraint) else
      (match CollectShardWinners(ok, w.round, w.ledger, w.bracket.value, w.results[ShardResult(index)], index, list)
       case Err(e) => Err(e)
       case Ok(b) => Ok(w.(bracket := Some(b))))
    case ApplyResult(ok, index) =>
      if w.bracket.None? || ShardResult(index) !in w.results then Err(AccountConstraint) else
      (match ApplyBracketResult(ok, w.round, w.bracket.value, w.results[ShardResult(index)], index)
       case Err(e) => Err(e)
       case Ok(r) => Ok(w.(round := r, bracket := Some(w.bracket.value.(applied := true)))))
    case PinTier1(ok, sizes, bounds, count, slot) =>
      if w.tier1.Some? then Err(AccountConstraint) else
      (match InitTier1(ok, w.round, sizes, bounds, count, slot)
       case Err(e) => Err(e)
       case Ok(t) => Ok(w.(tier1 := Some(t))))
    case CloseTier1Account(ok) =>
      if w.tier1.None? then Err(AccountConstraint) else
      (match CloseTier1(ok, w.round)
       case Err(e) => Err(e)
       case Ok(t) => Ok(w.(tier1 := t)))
    case QueueTier1(ok, index, list) =>
      if w.tier1.None? then Err(AccountConstraint) else
      (match QueueTier1ShardReveal(ok, w.round, w.ledger, w.tier1.value, index, list)
       case Err(e) => Err(e)
       case Ok(stamp) => Ok(Queued(w, ShardResult(index), list, stamp)))
    case CollectTier1(ok, index, list) =>
      if w.tier1.None? || ShardResult(index) !in w.results then Err(AccountConstraint) else
      (match CollectTier1Winners(ok, w.round, w.ledger, w.tier1.value, w.results[ShardResult(index)], index, list)
       case Err(e) => Err(e)
       case Ok(t) => Ok(w.(tier1 := Some(t))))
    case Promote(ok) =>
      if w.tier1.None? then Err(AccountConstraint) else
      (match PromoteTier1(ok, w.tier1.value, w.bracket)
       case Err(e) => Err(e)
       case Ok(b) => Ok(w.(bracket := Some(b), tier1 := Some(w.tier1.value.(promoted := true)),
                           ground := Members(w.tier1.value.winners))))
    case QueueSemifinal(ok, index, list) =>
      if w.tier1.None? || w.bracket.None? then Err(AccountConstraint) else
      (match QueueSemifinalReveal(ok, w.round, w.ledger, w.tier1.value, w.bracket.value, index, list)
       case Err(e) => Err(e)
       case Ok(stamp) => Ok(Queued(w, SemiResult(index), list, stamp)))
    case CollectSemifinal(ok, index) =>
      if w.tier1.None? || w.bracket.None? || SemiResult(index) !in w.results then Err(AccountConstraint) else
      (match CollectSemifinalWinners(ok, w.tier1.value, w.bracket.value, w.results[SemiResult(index)], index)
       case Err(e) => Err(e)
       case Ok(b) => Ok(w.(bracket := Some(b))))
    case Callback(c) =>
      if c !in w.inFlight || c.addr !in w.results then Err(AccountConstraint) else
      var r := w.results[c.addr].(podium := RevealOf(w.ledger, c.list), ready := true);
      Ok(w.(results := w.results[c.addr := r], inFlight := w.inFlight - multiset{c}))
    case Abort(c) =>
      if c !in w.inFlight then Err(AccountConstraint) else Ok(w.(inFlight := w.inFlight - multiset{c}))
  }

  /** A refused instruction leaves the world as it was. */
  ghost function After(w: World, s: Step): World {
    var next := Next(w, s);
    if next.Ok? then next.value else w
  }

  ghost function Run(w: World, steps: seq<Step>): World
    decreases |steps|
  {
    if steps == [] then w else Run(After(w, steps[0]), steps[1..])
  }

  lemma AfterOk(w: World, s: Step)
    requires Next(w, s).Ok?
    ensures After(w, s) == Next(w, s).value
  {
  }

  lemma RunEmpty(w: World)
    ensures Run(w, []) == w
  {
  }

  /** The record of c now holds the given podium. */
  function Landed(w: World, c: Computation, podium: Podium): World
    requires c.addr in w.results
  {
    w.(results := w.results[c.addr := w.results[c.addr].(podium := podium, ready := true)],
       inFlight := w.inFlight - multiset{c})
  }

  // ---- what the operator must respect ------------------------------------------------------

  /** No usable result carries stamp g, nothing still due carries or answers under it, and neither
  tracker does. */
  predicate FreshStamp(w: World, g: nat) {
    && (forall a :: a in w.results && w.results[a].ready ==> w.results[a].generation != g)
    && (forall c :: c in w.inFlight ==> c.stamp != g && (c.addr in w.results ==> w.results[c.addr].generation != g))
    && (w.bracket.Some? ==> w.bracket.value.generation != g)
    && (w.tier1.Some? ==> w.tier1.value.generation != g)
  }

  /** Every computation still due at addr was queued under the stamp about to be written, or
  ranks the very list about to be queued. */
  predicate NoOtherListDue(w: World, addr: Addr, list: seq<Key>, stamp: nat) {
    forall c :: c in w.inFlight && c.addr == addr ==> c.stamp == stamp || c.list == list
  }

  function BracketStamp(w: World): nat {
    if w.bracket.Some? then w.bracket.value.generation else 0
  }

  function Tier1Stamp(w: World): nat {
    if w.tier1.Some? then w.tier1.value.generation else 0
  }

  /** The three things the program leaves to its operator: a new pin takes a stamp that nothing usable
  or due carries, a record is queued again only when no older computation over another list can still
  write it, and a promoted bracket is collected by the semifinal instruction. */
  predicate Careful(w: World, s: Step) {
    match s
    case PinBracket(_, _, _, _) => FreshStamp(w, NextStamp(BracketStamp(w)))
    case Promote(_) => FreshStamp(w, NextStamp(BracketStamp(w)))
    case PinTier1(_, _, _, _, slot) => FreshStamp(w, slot % STAMPS)
    case QueueShard(_, index, list) => NoOtherListDue(w, ShardResult(index), list, BracketStamp(w))
    case QueueSemifinal(_, index, list) => NoOtherListDue(w, SemiResult(index), list, BracketStamp(w))
    case QueueTier1(_, index, list) => NoOtherListDue(w, ShardResult(index), list, Tier1Stamp(w))
    case CollectShard(_, _, _) => !TwoTier(w)
    case _ => true
  }

  /** A refused instruction may be anything at all. */
  ghost predicate Admissible(w: World, s: Step) {
    Next(w, s).Ok? ==> Careful(w, s)
  }

  ghost predicate AdmissibleRun(w: World, steps: seq<Step>)
    decreases |steps|
  {
    steps != [] ==> Admissible(w, steps[0]) && AdmissibleRun(After(w, steps[0]), steps[1..])
  }

  // ---- runs in which nothing is refused ----------------------------------------------------

  lemma CallbackGoes(w: World, c: Computation)
    requires c in w.inFlight && c.addr in w.results
    ensures Next(w, Callback(c)) == Ok(Landed(w, c, RevealOf(w.ledger, c.list))) && Careful(w, Callback(c))
  {
  }

  ghost predicate Accepted(w: World, steps: seq<Step>)
    decreases |steps|
  {
    steps != [] ==> Next(w, steps[0]).Ok? && Accepted(After(w, steps[0]), steps[1..])
  }

  /** The three conditions, by what breaks them. */
  datatype Duty = FreshPins | SettledQueues | SemifinalCollects

  function DutyOf(s: Step): Option<Duty> {
    match s
    case PinBracket(_, _, _, _) => Some(FreshPins)
    case Promote(_) => Some(FreshPins)
    case PinTier1(_, _, _, _, _) => Some(FreshPins)
    case QueueShard(_, _, _) => Some(SettledQueues)
    case QueueSemifinal(_, _, _) => Some(SettledQueues)
    case QueueTier1(_, _, _) => Some(SettledQueues)
    case CollectShard(_, _, _) => Some(SemifinalCollects)
    case _ => None
  }

  /** The step is accepted, and careful unless it is the exempted duty that it neglects. */
  ghost predicate Goes(w: World, s: Step, exempt: Option<Duty>) {
    Next(w, s).Ok? && (Careful(w, s) || (exempt.Some? && DutyOf(s) == exempt))
  }

  ghost predicate GoesThrough(w: World, steps: seq<Step>, exempt: Option<Duty>)
    decreases |steps|
  {
    steps != [] ==> Goes(w, steps[0], exempt) && GoesThrough(After(w, steps[0]), steps[1..], exempt)
  }

  ghost predicate Leads(w0: World, steps: seq<Step>, w: World, exempt: Option<Duty>) {
    GoesThrough(w0, steps, exempt) && w == Run(w0, steps)
  }

  lemma LeadsNowhere(w: World, exempt: Option<Duty>)
    ensures Leads(w, [], w, exempt)
  {
  }

  lemma {:induction false} LeadsConcat(w0: World, a: seq<Step>, w1: World, b: seq<Step>, w2: World, exempt: Option<Duty>)
    requires Leads(w0, a, w1, exempt) && Leads(w1, b, w2, exempt)
    ensures Leads(w0, a + b, w2, exempt)
    decreases |a|
  {
    hide Goes, After;
    if a == [] {
      assert a + b == b;
    } else {
      LeadsConcat(After(w0, a[0]), a[1..], w1, b, w2, exempt);
      assert (a + b)[1..] == a[1..] + b;
    }
  }

  lemma LeadsStep(w0: World, steps: seq<Step>, w: World, s: Step, exempt: Option<Duty>)
    requires Leads(w0, steps, w, exempt) && Goes(w, s, exempt)
    ensures Leads(w0, steps + [s], After(w, s), exempt)
  {
    hide Goes, After;
    assert [s][1..] == [];
    LeadsNowhere(After(w, s), exempt);
    LeadsConcat(w0, steps, w, [s], After(w, s), exempt);
  }

  /** Careful all along is careful in any one respect. */
  lemma {:induction false} CarefulGoes(w0: World, steps: seq<Step>, w: World, exempt: Option<Duty>)
    requires Leads(w0, steps, w, None)
    ensures Leads(w0, steps, w, exempt)
    decreases |steps|
  {
    hide After;
    if steps != [] {
      CarefulGoes(After(w0, steps[0]), steps[1..], w, exempt);
    }
  }

  // ---- the promise -------------------------------------------------------------------------

  /** top holds the first three of all the entries, and the default key where there is no such entry. */
  predicate ExactTop(p: Points, entries: set<Key>, top: seq<Key>) {
    && |top| == REVEAL_TOP_K
    && forall r :: 0 <= r < REVEAL_TOP_K ==>
         if r < |entries| then Placed(p, entries, r, top[r]) else top[r] == DEFAULT_KEY
  }

  /** Before a reveal: nothing pinned, nothing queued, and the count is the number of entries. */
  predicate Unstarted(w: World) {
    && |Entrants(w)| == w.round.participantCount
    && !w.round.revealed
    && w.bracket.None? && w.tier1.None?
    && w.results == map[] && w.inFlight == multiset{}
  }
}
