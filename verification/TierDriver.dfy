/** The automatic operator: plan, pin, queue every shard, wait, collect every shard, promote, and
again, then the final. It may start from wherever an earlier run stopped. This module makes one pass
over one tier, EndgameDriver runs the final, BracketDriver joins them. */
module TierDriver {
  import opened Ranking
  import opened Circuit
  import opened Partition
  import opened Accounts
  import opened Instructions
  import opened RevealRun
  import opened RevealInvariant
  import opened RevealSteps
  import opened RevealTheorem
  import opened RevealProgress

  // ---- runs that are never refused ---------------------------------------------------------

  /** Every step is accepted and respects the operator conditions. */
  ghost predicate CleanRun(w: World, steps: seq<Step>) {
    GoesThrough(w, steps, None)
  }

  ghost predicate Reached(w0: World, steps: seq<Step>, w: World) {
    Leads(w0, steps, w, None)
  }

  lemma {:induction false} CleanIsAdmissible(w: World, steps: seq<Step>)
    requires CleanRun(w, steps)
    ensures AdmissibleRun(w, steps) && Accepted(w, steps)
    decreases |steps|
  {
    hide Next, After, Careful;
    if steps != [] {
      CleanIsAdmissible(After(w, steps[0]), steps[1..]);
    }
  }

  lemma {:induction false} AcceptedConcat(w: World, a: seq<Step>, b: seq<Step>)
    ensures Run(w, a + b) == Run(Run(w, a), b)
    ensures Accepted(w, a + b) <==> Accepted(w, a) && Accepted(Run(w, a), b)
    decreases |a|
  {
    hide Next, After;
    if a == [] {
      assert a + b == b;
    } else {
      AcceptedConcat(After(w, a[0]), a[1..], b);
      assert (a + b)[1..] == a[1..] + b;
    }
  }

  // ---- the three tiers have one shape ------------------------------------------------------

  datatype Tier = Shards | Tier1Shards | Semifinals

  function AddrOf(t: Tier, k: nat): Addr {
    if t == Semifinals then SemiResult(k) else ShardResult(k)
  }

  function QueueOf(t: Tier, k: nat, list: seq<Key>): Step {
    match t
    case Shards => QueueShard(true, k, list)
    case Tier1Shards => QueueTier1(true, k, list)
    case Semifinals => QueueSemifinal(true, k, list)
  }

  function CollectOf(t: Tier, k: nat, list: seq<Key>): Step {
    match t
    case Shards => CollectShard(true, k, list)
    case Tier1Shards => CollectTier1(true, k, list)
    case Semifinals => CollectSemifinal(true, k)
  }

  predicate AllScored(w: World) {
    forall x :: x in Entrants(w) ==> w.ledger[x].scored
  }

  /** The tier is pinned and unfinished, and lists[k] is what its shard k ranks. */
  ghost predicate Pinned(t: Tier, w: World, lists: seq<seq<Key>>) {
    && !w.round.revealed && AllScored(w)
    && match t
       case Shards =>
         && !TwoTier(w) && w.bracket.Some? && |lists| == |w.bracket.value.layout.bounds| <= MAX_SHARDS
         && forall k :: 0 <= k < |lists| ==> Accepts(w.bracket.value.layout, Entrants(w), k, lists[k])
       case Tier1Shards =>
         && w.tier1.Some? && !w.tier1.value.promoted && |lists| == |w.tier1.value.layout.bounds| <= MAX_TIER1_SHARDS
         && forall k :: 0 <= k < |lists| ==> Accepts(w.tier1.value.layout, Entrants(w), k, lists[k])
       case Semifinals =>
         && w.tier1.Some? && w.tier1.value.promoted && w.bracket.Some? && |lists| == |w.bracket.value.layout.sizes|
         && forall k :: 0 <= k < |lists| ==> lists[k] == SemifinalSlice(w.tier1.value, w.bracket.value, k)
  }

  function StampOf(t: Tier, w: World): nat {
    if t == Tier1Shards then Tier1Stamp(w) else BracketStamp(w)
  }

  function CollectedBy(t: Tier, w: World): set<nat> {
    if t == Tier1Shards then (if w.tier1.Some? then w.tier1.value.done else {})
    else (if w.bracket.Some? then w.bracket.value.collected else {})
  }

  /** Nothing differs but what collecting adds. */
  predicate SameTier(t: Tier, w: World, v: World) {
    && v.round == w.round && v.ledger == w.ledger && v.ground == w.ground
    && (if t == Tier1Shards then
          && v.bracket == w.bracket && w.tier1.Some? && v.tier1.Some?
          && v.tier1.value == w.tier1.value.(winners := v.tier1.value.winners, done := v.tier1.value.done)
        else
          && v.tier1 == w.tier1 && w.bracket.Some? && v.bracket.Some?
          && v.bracket.value == w.bracket.value.(finalists := v.bracket.value.finalists, collected := v.bracket.value.collected))
  }

  lemma SameTierPinned(t: Tier, w: World, v: World, lists: seq<seq<Key>>)
    requires Pinned(t, w, lists) && SameTier(t, w, v)
    ensures Pinned(t, v, lists) && StampOf(t, v) == StampOf(t, w)
  {
  }

  // ---- one queue, one answer, one collect --------------------------------------------------

  lemma SliceRunAccepted(ledger: Ledger, round: Key, keys: seq<Key>)
    requires forall x :: x in keys ==> x in RoundEntries(ledger, round) && ledger[x].scored
    ensures RunError(ledger, round, Exactly(keys), true, keys, 0) == None
  {
    RunAccepted(ledger, round, Exactly(keys), true, keys, 0);
    forall j | 0 <= j < |keys| ensures ElementError(ledger, round, Exactly(keys), true, keys, j) == None {
      assert keys[j] in keys;
    }
  }

  /** A semifinal's slice is made of scored entries of the round. */
  lemma SliceIsEntries(w: World, k: nat)
    requires Inv(w) && AllScored(w) && w.tier1.Some? && w.tier1.value.promoted && w.bracket.Some?
    requires k < |w.bracket.value.layout.sizes|
    ensures var slice := SemifinalSlice(w.tier1.value, w.bracket.value, k);
            && (forall x :: x in slice ==> x in Entrants(w) && w.ledger[x].scored)
            && SumTo(w.bracket.value.layout.sizes, k) + |slice| <= MAX_TIER1_WINNERS
  {
    hide RecordsSound, Kept;
    var t, b := w.tier1.value, w.bracket.value;
    SemifinalSliceAccepted(t, b, k);
    SliceInsideBuffer(t, b, k);
    WinnersFitBuffer(Standings(w), Entrants(w), t);
    forall x | x in SemifinalSlice(t, b, k) ensures x in Entrants(w) && w.ledger[x].scored {
      assert x in Members(t.winners);
    }
  }

  lemma QueueSemifinalAccepted(w: World, k: nat, list: seq<Key>)
    requires w.tier1.Some? && w.tier1.value.promoted && w.bracket.Some? && !w.round.revealed
    requires k < |w.bracket.value.layout.sizes| && list == SemifinalSlice(w.tier1.value, w.bracket.value, k)
    requires SumTo(w.bracket.value.layout.sizes, k) + |list| <= MAX_TIER1_WINNERS
    requires RunError(w.ledger, w.round.key, Exactly(list), true, list, 0) == None
    ensures Next(w, QueueSemifinal(true, k, list)) == Ok(Queued(w, SemiResult(k), list, BracketStamp(w)))
  {
  }

  lemma QueueSemifinalGoes(w: World, lists: seq<seq<Key>>, k: nat)
    requires Inv(w) && Pinned(Semifinals, w, lists) && k < |lists|
    ensures Next(w, QueueSemifinal(true, k, lists[k])) == Ok(Queued(w, SemiResult(k), lists[k], BracketStamp(w)))
  {
    hide Inv, Next, SemifinalSlice, SumTo, RunError;
    SliceIsEntries(w, k);
    SliceRunAccepted(w.ledger, w.round.key, lists[k]);
    QueueSemifinalAccepted(w, k, lists[k]);
  }

  lemma QueueGoes(t: Tier, w: World, lists: seq<seq<Key>>, k: nat)
    requires Inv(w) && Pinned(t, w, lists) && k < |lists|
    requires forall c :: c in w.inFlight ==> c.stamp == StampOf(t, w)
    ensures var s := QueueOf(t, k, lists[k]);
            && Next(w, s).Ok? && Careful(w, s)
            && After(w, s) == Queued(w, AddrOf(t, k), lists[k], StampOf(t, w))
  {
    match t
    case Shards =>
      ShardRunMeansAccepts(w.ledger, w.round.key, w.bracket.value.layout, k, true, lists[k]);
    case Tier1Shards =>
      ShardRunMeansAccepts(w.ledger, w.round.key, w.tier1.value.layout, k, true, lists[k]);
    case Semifinals =>
      QueueSemifinalGoes(w, lists, k);
  }

  ghost predicate CollectsCleanly(t: Tier, w: World, k: nat, list: seq<Key>) {
    var s := CollectOf(t, k, list);
    var v := After(w, s);
    && Next(w, s).Ok? && Careful(w, s)
    && SameTier(t, w, v) && v.results == w.results && v.inFlight == w.inFlight
    && CollectedBy(t, v) == CollectedBy(t, w) + {k}
  }

  lemma CollectShardEffect(w: World, s: Step)
    requires s.CollectShard? && Next(w, s).Ok?
    ensures w.bracket.Some? && After(w, s).bracket.Some?
    ensures var b, c := w.bracket.value, After(w, s).bracket.value;
            && After(w, s) == w.(bracket := Some(c))
            && c == b.(finalists := c.finalists, collected := b.collected + {s.index})
  {
  }

  lemma CollectTier1Effect(w: World, s: Step)
    requires s.CollectTier1? && Next(w, s).Ok?
    ensures w.tier1.Some? && After(w, s).tier1.Some?
    ensures var t, u := w.tier1.value, After(w, s).tier1.value;
            && After(w, s) == w.(tier1 := Some(u))
            && u == t.(winners := u.winners, done := t.done + {s.index})
  {
  }

  lemma CollectShardGoes(w: World, lists: seq<seq<Key>>, k: nat)
    requires Inv(w) && Pinned(Shards, w, lists) && k < |lists| && k !in CollectedBy(Shards, w)
    requires ShardResult(k) in w.results && RecordError(w.results[ShardResult(k)], StampOf(Shards, w)) == None
    ensures CollectsCleanly(Shards, w, k, lists[k])
  {
    hide Inv, Next, After, RunError, RecordError, Accepts;
    var s := CollectOf(Shards, k, lists[k]);
    AcceptedRun(w.ledger, w.round.key, w.bracket.value.layout, k, lists[k]);
    ShardCollectNeverJams(w, s);
    CollectShardEffect(w, s);
  }

  lemma AcceptedRun(ledger: Ledger, round: Key, l: Layout, k: nat, list: seq<Key>)
    requires k < |l.bounds| && Accepts(l, RoundEntries(ledger, round), k, list)
    ensures |list| == l.sizes[k] && RunError(ledger, round, ShardAdmission(l, k), false, list, 0) == None
  {
    ShardRunMeansAccepts(ledger, round, l, k, false, list);
  }

  lemma CollectTier1Goes(w: World, lists: seq<seq<Key>>, k: nat)
    requires Inv(w) && Pinned(Tier1Shards, w, lists) && k < |lists| && k !in CollectedBy(Tier1Shards, w)
    requires ShardResult(k) in w.results && RecordError(w.results[ShardResult(k)], StampOf(Tier1Shards, w)) == None
    ensures CollectsCleanly(Tier1Shards, w, k, lists[k])
  {
    hide Inv, Next, After, RunError, RecordError, Accepts;
    var s := CollectOf(Tier1Shards, k, lists[k]);
    AcceptedRun(w.ledger, w.round.key, w.tier1.value.layout, k, lists[k]);
    Tier1CollectNeverJams(w, s);
    CollectTier1Effect(w, s);
  }

  lemma CollectSemifinalGoes(w: World, lists: seq<seq<Key>>, k: nat)
    requires Inv(w) && Pinned(Semifinals, w, lists) && k < |lists| && k !in CollectedBy(Semifinals, w)
    requires SemiResult(k) in w.results && RecordError(w.results[SemiResult(k)], StampOf(Semifinals, w)) == None
    ensures CollectsCleanly(Semifinals, w, k, lists[k])
  {
    hide Inv, Next, After, RecordError, SemifinalSlice, Picked;
    var s := CollectOf(Semifinals, k, lists[k]);
    SemifinalCollectNeverJams(w, s);
    CollectSemifinalEffect(w, s);
  }

  lemma CollectGoes(t: Tier, w: World, lists: seq<seq<Key>>, k: nat)
    requires Inv(w) && Pinned(t, w, lists) && k < |lists| && k !in CollectedBy(t, w)
    requires AddrOf(t, k) in w.results && RecordError(w.results[AddrOf(t, k)], StampOf(t, w)) == None
    ensures CollectsCleanly(t, w, k, lists[k])
  {
    hide Inv, Pinned, CollectsCleanly, RecordError;
    match t
    case Shards => CollectShardGoes(w, lists, k);
    case Tier1Shards => CollectTier1Goes(w, lists, k);
    case Semifinals => CollectSemifinalGoes(w, lists, k);
  }

  // ---- a pass over one tier ----------------------------------------------------------------

  /** The callback has written a usable result. */
  predicate ResultReady(w: World, addr: Addr) {
    addr in w.results && w.results[addr].ready && w.results[addr].errorCode == 0
  }

  predicate Within(ks: seq<nat>, n: nat) {
    forall i :: 0 <= i < |ks| ==> ks[i] < n
  }

  /** A finite set of indices in ascending order. */
  ghost function Listed(s: set<nat>): (l: seq<nat>)
    ensures Ascending(l) && forall k :: k in l <==> k in s
    ensures forall i :: 0 <= i < |l| ==> l[i] in s
  {
    var l := Sorted(s);
    assert forall k :: k in l <==> k in Members(l);
    l
  }

  /** The shards a pass queues: those without a usable result - all of them after a re-pin. */
  ghost function ToQueue(t: Tier, w: World, n: nat, force: bool): (need: seq<nat>)
    ensures Ascending(need) && Within(need, n)
    ensures forall k :: k in need <==> 0 <= k < n && (force || !ResultReady(w, AddrOf(t, k)))
  {
    Listed(set k: nat | k < n && (force || !ResultReady(w, AddrOf(t, k))))
  }

  ghost function ToCollect(t: Tier, w: World, n: nat): (due: seq<nat>)
    ensures Ascending(due) && Within(due, n)
    ensures forall k :: k in due <==> 0 <= k < n && k !in CollectedBy(t, w)
  {
    Listed(set k: nat | k < n && k !in CollectedBy(t, w))
  }

  function QueueSteps(t: Tier, lists: seq<seq<Key>>, need: seq<nat>): (steps: seq<Step>)
    requires Within(need, |lists|)
    ensures |steps| == |need|
  {
    seq(|need|, i requires 0 <= i < |need| => QueueOf(t, need[i], lists[need[i]]))
  }

  function Jobs(t: Tier, w: World, lists: seq<seq<Key>>, need: seq<nat>): (jobs: seq<Computation>)
    requires Within(need, |lists|)
    ensures |jobs| == |need|
  {
    seq(|need|, i requires 0 <= i < |need| => Computation(AddrOf(t, need[i]), lists[need[i]], StampOf(t, w)))
  }

  function CallbackSteps(jobs: seq<Computation>): (steps: seq<Step>)
    ensures |steps| == |jobs|
  {
    seq(|jobs|, i requires 0 <= i < |jobs| => Callback(jobs[i]))
  }

  function CollectSteps(t: Tier, lists: seq<seq<Key>>, due: seq<nat>): (steps: seq<Step>)
    requires Within(due, |lists|)
    ensures |steps| == |due|
  {
    seq(|due|, i requires 0 <= i < |due| => CollectOf(t, due[i], lists[due[i]]))
  }

  /** Queue what has no usable result, wait for the answers, collect what is not yet collected. */
  ghost function Pass(t: Tier, w: World, lists: seq<seq<Key>>, force: bool): seq<Step> {
    var need := ToQueue(t, w, |lists|, force);
    QueueSteps(t, lists, need) + CallbackSteps(Jobs(t, w, lists, need)) + CollectSteps(t, lists, ToCollect(t, w, |lists|))
  }

  /** A usable result from another pin, which a pass takes for a current one. */
  predicate Stale(t: Tier, w: World, k: nat) {
    ResultReady(w, AddrOf(t, k)) && w.results[AddrOf(t, k)].generation != StampOf(t, w)
  }

  predicate Usable(t: Tier, w: World, n: nat, force: bool) {
    force || forall k :: 0 <= k < n && k !in CollectedBy(t, w) ==> !Stale(t, w, k)
  }

  /** One more accepted step, invariant included. */
  lemma CleanStep(w0: World, steps: seq<Step>, w: World, s: Step)
    requires Reached(w0, steps, w) && Inv(w) && Next(w, s).Ok? && Careful(w, s)
    ensures Reached(w0, steps + [s], After(w, s)) && Inv(After(w, s))
  {
    hide Inv, Next, After, Careful, GoesThrough, Run;
    LeadsStep(w0, steps, w, s, None);
    StepKeeps(w, s);
  }

  predicate Waiting(t: Tier, w: World, k: nat) {
    && AddrOf(t, k) in w.results
    && w.results[AddrOf(t, k)].errorCode == 0 && w.results[AddrOf(t, k)].generation == StampOf(t, w)
  }

  predicate Answered(t: Tier, w: World, k: nat) {
    Waiting(t, w, k) && w.results[AddrOf(t, k)].ready
  }

  /** Only records and computations differ. */
  predicate SamePins(w: World, v: World) {
    v == w.(results := v.results, inFlight := v.inFlight)
  }

  /** Records new in v carry the given stamp. */
  predicate OnlyStamped(w: World, v: World, stamp: nat) {
    forall a :: a in v.results ==>
      v.results[a].generation == stamp || (a in w.results && v.results[a].generation == w.results[a].generation)
  }

  predicate Addressed(t: Tier, need: seq<nat>, a: Addr) {
    exists k :: k in need && a == AddrOf(t, k)
  }

  /** The records of no other shard have changed. */
  ghost predicate OthersKept(t: Tier, need: seq<nat>, w: World, v: World) {
    forall a :: !Addressed(t, need, a) ==> (a in v.results <==> a in w.results) && (a in w.results ==> v.results[a] == w.results[a])
  }

  /** The first n jobs are queued and nothing else is in flight. */
  ghost predicate QueuedUpTo(t: Tier, w: World, lists: seq<seq<Key>>, need: seq<nat>, v: World, n: nat) {
    && Within(need, |lists|) && n <= |need|
    && SamePins(w, v) && OnlyStamped(w, v, StampOf(t, w)) && OthersKept(t, need, w, v)
    && v.inFlight == multiset(Jobs(t, w, lists, need)[..n])
    && forall i :: 0 <= i < n ==> Waiting(t, v, need[i])
  }

  lemma JobsSplit(jobs: seq<Computation>, n: nat)
    requires n < |jobs|
    ensures multiset(jobs[..n + 1]) == multiset(jobs[..n]) + multiset{jobs[n]}
    ensures multiset(jobs[n..]) - multiset{jobs[n]} == multiset(jobs[n + 1..])
    ensures jobs[n] in multiset(jobs[n..])
  {
    assert jobs[..n + 1] == jobs[..n] + [jobs[n]];
    assert jobs[n..] == [jobs[n]] + jobs[n + 1..];
  }

  lemma JobsStamped(t: Tier, w: World, lists: seq<seq<Key>>, need: seq<nat>, n: nat, c: Computation)
    requires Within(need, |lists|) && n <= |need| && c in multiset(Jobs(t, w, lists, need)[..n])
    ensures c.stamp == StampOf(t, w)
  {
    assert c in Jobs(t, w, lists, need)[..n];
  }

  lemma QueuedKeepsOthers(t: Tier, need: seq<nat>, w: World, v: World, addr: Addr, list: seq<Key>, stamp: nat)
    requires OthersKept(t, need, w, v) && OnlyStamped(w, v, stamp) && Addressed(t, need, addr)
    ensures OthersKept(t, need, w, Queued(v, addr, list, stamp)) && OnlyStamped(w, Queued(v, addr, list, stamp), stamp)
  {
  }

  lemma QueuedOneMore(t: Tier, w: World, lists: seq<seq<Key>>, need: seq<nat>, v: World, n: nat)
    requires QueuedUpTo(t, w, lists, need, v, n) && n < |need|
    ensures forall c :: c in v.inFlight ==> c.stamp == StampOf(t, v)
    ensures QueuedUpTo(t, w, lists, need, Queued(v, AddrOf(t, need[n]), lists[need[n]], StampOf(t, v)), n + 1)
  {
    var jobs := Jobs(t, w, lists, need);
    assert StampOf(t, v) == StampOf(t, w);
    assert jobs[n] == Computation(AddrOf(t, need[n]), lists[need[n]], StampOf(t, w));
    hide Jobs, StampOf;
    JobsSplit(jobs, n);
    forall c | c in v.inFlight ensures c.stamp == StampOf(t, v) {
      JobsStamped(t, w, lists, need, n, c);
    }
    assert need[n] in need && Addressed(t, need, AddrOf(t, need[n]));
    hide OthersKept, OnlyStamped, Waiting, Addressed;
    QueuedKeepsOthers(t, need, w, v, AddrOf(t, need[n]), lists[need[n]], StampOf(t, v));
    QueuedKeepsWaiting(t, v, need, n, lists[need[n]]);
  }

  lemma QueuedKeepsWaiting(t: Tier, v: World, need: seq<nat>, n: nat, list: seq<Key>)
    requires n < |need| && forall i :: 0 <= i < n ==> Waiting(t, v, need[i])
    ensures forall i :: 0 <= i < n + 1 ==> Waiting(t, Queued(v, AddrOf(t, need[n]), list, StampOf(t, v)), need[i])
  {
    var u := Queued(v, AddrOf(t, need[n]), list, StampOf(t, v));
    forall i | 0 <= i < n + 1 ensures Waiting(t, u, need[i]) {
      assert i < n ==> Waiting(t, v, need[i]);
    }
  }

  lemma QueueAll(t: Tier, w: World, lists: seq<seq<Key>>, need: seq<nat>) returns (v: World)
    requires Inv(w) && Pinned(t, w, lists) && w.inFlight == multiset{} && Within(need, |lists|)
    ensures Reached(w, QueueSteps(t, lists, need), v) && Inv(v)
    ensures SamePins(w, v) && OnlyStamped(w, v, StampOf(t, w)) && OthersKept(t, need, w, v)
    ensures v.inFlight == multiset(Jobs(t, w, lists, need))
    ensures forall i :: 0 <= i < |need| ==> Waiting(t, v, need[i])
  {
    hide Inv, Next, After, Careful, GoesThrough, Run, Pinned, Queued, Waiting, OthersKept, OnlyStamped;
    var steps := QueueSteps(t, lists, need);
    v := w;
    LeadsNowhere(w, None);
    NothingTouched(t, w, lists, need);
    for n := 0 to |need|
      invariant Reached(w, steps[..n], v) && Inv(v) && QueuedUpTo(t, w, lists, need, v, n)
    {
      PinsKeepTier(t, w, v, lists);
      QueuedOneMore(t, w, lists, need, v, n);
      QueueGoes(t, v, lists, need[n]);
      CleanStep(w, steps[..n], v, steps[n]);
      assert steps[..n + 1] == steps[..n] + [steps[n]];
      v := After(v, steps[n]);
    }
    assert steps[..|need|] == steps;
    assert Jobs(t, w, lists, need)[..|need|] == Jobs(t, w, lists, need);
  }

  lemma NothingTouched(t: Tier, w: World, lists: seq<seq<Key>>, need: seq<nat>)
    requires w.inFlight == multiset{} && Within(need, |lists|)
    ensures QueuedUpTo(t, w, lists, need, w, 0)
  {
  }

  lemma PinsKeepTier(t: Tier, w: World, v: World, lists: seq<seq<Key>>)
    requires Pinned(t, w, lists) && SamePins(w, v)
    ensures Pinned(t, v, lists) && StampOf(t, v) == StampOf(t, w) && CollectedBy(t, v) == CollectedBy(t, w)
  {
  }

  /** The first n computations have landed and the others are still due. */
  ghost predicate AnsweredUpTo(t: Tier, w: World, lists: seq<seq<Key>>, need: seq<nat>, v: World, n: nat) {
    && Within(need, |lists|) && n <= |need|
    && SamePins(w, v) && OnlyStamped(w, v, StampOf(t, w)) && OthersKept(t, need, w, v)
    && v.inFlight == multiset(Jobs(t, w, lists, need)[n..])
    && (forall i :: 0 <= i < |need| ==> Waiting(t, v, need[i]))
    && (forall i :: 0 <= i < n ==> Answered(t, v, need[i]))
  }

  lemma LandedKeepsWaiting(t: Tier, v: World, c: Computation, podium: Podium, need: seq<nat>, n: nat)
    requires n < |need| && c.addr == AddrOf(t, need[n]) && c.addr in v.results
    requires forall i :: 0 <= i < |need| ==> Waiting(t, v, need[i])
    requires forall i :: 0 <= i < n ==> Answered(t, v, need[i])
    ensures forall i :: 0 <= i < |need| ==> Waiting(t, Landed(v, c, podium), need[i])
    ensures forall i :: 0 <= i < n + 1 ==> Answered(t, Landed(v, c, podium), need[i])
  {
    var u := Landed(v, c, podium);
    forall i | 0 <= i < |need| ensures Waiting(t, u, need[i]) {
      assert Waiting(t, v, need[i]);
    }
    forall i | 0 <= i < n + 1 ensures Answered(t, u, need[i]) {
      assert Waiting(t, u, need[i]) && (i < n ==> Answered(t, v, need[i]));
    }
  }

  lemma LandedKeepsOthers(t: Tier, need: seq<nat>, w: World, v: World, c: Computation, podium: Podium, stamp: nat)
    requires OthersKept(t, need, w, v) && OnlyStamped(w, v, stamp)
    requires Addressed(t, need, c.addr) && c.addr in v.results
    ensures OthersKept(t, need, w, Landed(v, c, podium)) && OnlyStamped(w, Landed(v, c, podium), stamp)
  {
  }

  lemma AnsweredOneMore(t: Tier, w: World, lists: seq<seq<Key>>, need: seq<nat>, v: World, n: nat, podium: Podium)
    requires AnsweredUpTo(t, w, lists, need, v, n) && n < |need|
    ensures var c := Jobs(t, w, lists, need)[n];
            c in v.inFlight && c.addr in v.results && AnsweredUpTo(t, w, lists, need, Landed(v, c, podium), n + 1)
  {
    var jobs := Jobs(t, w, lists, need);
    assert jobs[n].addr == AddrOf(t, need[n]);
    assert Waiting(t, v, need[n]);
    assert need[n] in need && Addressed(t, need, AddrOf(t, need[n]));
    hide Jobs, OthersKept, OnlyStamped, Waiting, Answered, Addressed, StampOf;
    JobsSplit(jobs, n);
    LandedKeepsOthers(t, need, w, v, jobs[n], podium, StampOf(t, w));
    LandedKeepsWaiting(t, v, jobs[n], podium, need, n);
  }

  lemma AnswerAll(t: Tier, w: World, lists: seq<seq<Key>>, need: seq<nat>) returns (v: World)
    requires Inv(w) && Within(need, |lists|) && w.inFlight == multiset(Jobs(t, w, lists, need))
    requires forall i :: 0 <= i < |need| ==> Waiting(t, w, need[i])
    ensures Reached(w, CallbackSteps(Jobs(t, w, lists, need)), v) && Inv(v) && v.inFlight == multiset{}
    ensures SamePins(w, v) && OnlyStamped(w, v, StampOf(t, w)) && OthersKept(t, need, w, v)
    ensures forall i :: 0 <= i < |need| ==> Answered(t, v, need[i])
  {
    hide Inv, Next, Careful, GoesThrough, Run, Answered, Waiting, RevealOf, OthersKept, OnlyStamped;
    var jobs := Jobs(t, w, lists, need);
    var steps := CallbackSteps(jobs);
    v := w;
    LeadsNowhere(w, None);
    AllStillDue(t, w, lists, need);
    for n := 0 to |need|
      invariant Reached(w, steps[..n], v) && Inv(v) && AnsweredUpTo(t, w, lists, need, v, n)
    {
      AnsweredOneMore(t, w, lists, need, v, n, RevealOf(v.ledger, jobs[n].list));
      CallbackGoes(v, jobs[n]);
      CleanStep(w, steps[..n], v, steps[n]);
      assert steps[..n + 1] == steps[..n] + [steps[n]];
      v := After(v, steps[n]);
    }
    assert steps[..|need|] == steps;
  }

  lemma AllStillDue(t: Tier, w: World, lists: seq<seq<Key>>, need: seq<nat>)
    requires Within(need, |lists|) && w.inFlight == multiset(Jobs(t, w, lists, need))
    requires forall i :: 0 <= i < |need| ==> Waiting(t, w, need[i])
    ensures AnsweredUpTo(t, w, lists, need, w, 0)
  {
    assert Jobs(t, w, lists, need)[0..] == Jobs(t, w, lists, need);
  }

  lemma CollectAll(t: Tier, w: World, lists: seq<seq<Key>>, due: seq<nat>) returns (v: World)
    requires Inv(w) && Pinned(t, w, lists) && Within(due, |lists|) && Ascending(due)
    requires forall i :: 0 <= i < |due| ==> due[i] !in CollectedBy(t, w) && Answered(t, w, due[i])
    ensures Reached(w, CollectSteps(t, lists, due), v) && Inv(v) && SameTier(t, w, v)
    ensures v.results == w.results && v.inFlight == w.inFlight
    ensures CollectedBy(t, v) == CollectedBy(t, w) + Members(due)
  {
    hide Inv, Next, After, Careful, GoesThrough, Run, SameTier, Pinned, Answered;
    var steps := CollectSteps(t, lists, due);
    SameAsItself(t, w, lists);
    v := w;
    LeadsNowhere(w, None);
    assert due[..0] == [];
    for n := 0 to |due|
      invariant Reached(w, steps[..n], v) && Inv(v) && SameTier(t, w, v)
      invariant v.results == w.results && v.inFlight == w.inFlight
      invariant CollectedBy(t, v) == CollectedBy(t, w) + Members(due[..n])
    {
      SameTierPinned(t, w, v, lists);
      StillAnswered(t, w, v, due[n]);
      CollectGoes(t, v, lists, due[n]);
      CleanStep(w, steps[..n], v, steps[n]);
      SameTierOn(t, w, v, After(v, steps[n]));
      assert steps[..n + 1] == steps[..n] + [steps[n]];
      assert due[..n + 1] == due[..n] + [due[n]];
      v := After(v, steps[n]);
    }
    assert steps[..|due|] == steps && due[..|due|] == due;
  }

  lemma SameAsItself(t: Tier, w: World, lists: seq<seq<Key>>)
    requires Pinned(t, w, lists)
    ensures SameTier(t, w, w)
  {
  }

  lemma SameTierOn(t: Tier, w: World, u: World, v: World)
    requires SameTier(t, w, u) && SameTier(t, u, v)
    ensures SameTier(t, w, v)
  {
  }

  lemma StillAnswered(t: Tier, w: World, v: World, k: nat)
    requires Answered(t, w, k) && v.results == w.results && StampOf(t, v) == StampOf(t, w)
    ensures AddrOf(t, k) in v.results && RecordError(v.results[AddrOf(t, k)], StampOf(t, v)) == None
  {
  }

  /** What is due is answered: queued just now, or left with a current result. */
  lemma DueIsAnswered(t: Tier, w: World, v: World, n: nat, force: bool, k: nat)
    requires Usable(t, w, n, force) && StampOf(t, v) == StampOf(t, w)
    requires OthersKept(t, ToQueue(t, w, n, force), w, v)
    requires forall i :: 0 <= i < |ToQueue(t, w, n, force)| ==> Answered(t, v, ToQueue(t, w, n, force)[i])
    requires k < n
    ensures ResultReady(v, AddrOf(t, k)) && (Stale(t, v, k) <==> !force && Stale(t, w, k))
    ensures k !in CollectedBy(t, w) ==> Answered(t, v, k)
  {
    var need := ToQueue(t, w, n, force);
    if k in need {
      var i :| 0 <= i < |need| && need[i] == k;
      assert Answered(t, v, need[i]);
      assert !Stale(t, w, k) || force;
    } else {
      assert !Addressed(t, need, AddrOf(t, k));
    }
  }

  lemma PassSplits(t: Tier, w: World, lists: seq<seq<Key>>, force: bool, w1: World, w2: World, v: World)
    requires var need := ToQueue(t, w, |lists|, force);
             && Reached(w, QueueSteps(t, lists, need), w1) && Reached(w1, CallbackSteps(Jobs(t, w, lists, need)), w2)
             && Reached(w2, CollectSteps(t, lists, ToCollect(t, w, |lists|)), v)
    ensures Reached(w, Pass(t, w, lists, force), v)
  {
    hide Leads;
    var need := ToQueue(t, w, |lists|, force);
    var a, b := QueueSteps(t, lists, need), CallbackSteps(Jobs(t, w, lists, need));
    LeadsConcat(w, a, w1, b, w2, None);
    LeadsConcat(w, a + b, w2, CollectSteps(t, lists, ToCollect(t, w, |lists|)), v, None);
  }

  /** A pass in which every usable result left uncollected is current is never refused, and leaves
  every shard collected. */
  lemma RunTier(t: Tier, w: World, lists: seq<seq<Key>>, force: bool) returns (v: World)
    requires Inv(w) && Pinned(t, w, lists) && w.inFlight == multiset{} && Usable(t, w, |lists|, force)
    ensures Reached(w, Pass(t, w, lists, force), v) && Inv(v) && SameTier(t, w, v) && v.inFlight == multiset{}
    ensures OnlyStamped(w, v, StampOf(t, w)) && OthersKept(t, ToQueue(t, w, |lists|, force), w, v)
    ensures forall k :: 0 <= k < |lists| ==> k in CollectedBy(t, v) && ResultReady(v, AddrOf(t, k))
    ensures forall k :: 0 <= k < |lists| ==> (Stale(t, v, k) <==> !force && Stale(t, w, k))
  {
    hide Inv, Leads, Answered, OthersKept, OnlyStamped, Stale, Usable, ResultReady, SameTier, Pinned, Pass;
    var need, due := ToQueue(t, w, |lists|, force), ToCollect(t, w, |lists|);
    var w1 := QueueAll(t, w, lists, need);
    PinsKeepTier(t, w, w1, lists);
    JobsKept(t, w, w1, lists, need);
    var w2 := AnswerAll(t, w1, lists, need);
    PinsKeepTier(t, w1, w2, lists);
    OthersKeptTwice(t, need, w, w1, w2);
    OnlyStampedTwice(w, w1, w2, StampOf(t, w));
    forall k | 0 <= k < |lists|
      ensures ResultReady(w2, AddrOf(t, k)) && (Stale(t, w2, k) <==> !force && Stale(t, w, k))
      ensures k in due ==> Answered(t, w2, k)
    {
      DueIsAnswered(t, w, w2, |lists|, force, k);
    }
    v := CollectAll(t, w2, lists, due);
    SameResults(t, w2, v);
    OthersKeptTwice(t, need, w, w2, v);
    OnlyStampedTwice(w, w2, v, StampOf(t, w));
    SameTierTwice(t, w, w2, v);
    SameTierPinned(t, w2, v, lists);
    PassSplits(t, w, lists, force, w1, w2, v);
    forall k | 0 <= k < |lists|
      ensures k in CollectedBy(t, v) && ResultReady(v, AddrOf(t, k)) && (Stale(t, v, k) <==> !force && Stale(t, w, k))
    {
      assert k in due ==> k in Members(due);
      StaleKept(t, w2, v, k);
    }
  }

  lemma JobsKept(t: Tier, w: World, v: World, lists: seq<seq<Key>>, need: seq<nat>)
    requires Within(need, |lists|) && StampOf(t, v) == StampOf(t, w)
    ensures Jobs(t, v, lists, need) == Jobs(t, w, lists, need)
  {
  }

  lemma OthersKeptTwice(t: Tier, need: seq<nat>, w: World, u: World, v: World)
    requires OthersKept(t, need, w, u) && OthersKept(t, need, u, v)
    ensures OthersKept(t, need, w, v)
  {
  }

  lemma OnlyStampedTwice(w: World, u: World, v: World, stamp: nat)
    requires OnlyStamped(w, u, stamp) && OnlyStamped(u, v, stamp)
    ensures OnlyStamped(w, v, stamp)
  {
  }

  lemma SameResults(t: Tier, w: World, v: World)
    requires v.results == w.results
    ensures forall need :: OthersKept(t, need, w, v)
    ensures forall stamp :: OnlyStamped(w, v, stamp)
    ensures forall k :: ResultReady(v, k) == ResultReady(w, k)
  {
  }

  lemma StaleKept(t: Tier, w: World, v: World, k: nat)
    requires v.results == w.results && StampOf(t, v) == StampOf(t, w)
    ensures Stale(t, v, k) == Stale(t, w, k)
  {
  }

  lemma SameTierTwice(t: Tier, w: World, u: World, v: World)
    requires SamePins(w, u) && SameTier(t, u, v)
    ensures SameTier(t, w, v)
  {
  }

  /** One shard on its own: queued, answered, collected. */
  lemma RunOneShard(t: Tier, w0: World, steps: seq<Step>, w: World, lists: seq<seq<Key>>, k: nat)
    returns (more: seq<Step>, v: World)
    requires Reached(w0, steps, w) && Inv(w) && Pinned(t, w, lists) && w.inFlight == multiset{}
    requires k < |lists| && k !in CollectedBy(t, w)
    ensures Reached(w0, more, v) && Inv(v) && SameTier(t, w, v) && v.inFlight == multiset{}
    ensures CollectedBy(t, v) == CollectedBy(t, w) + {k}
  {
    hide Inv, Leads, Pinned, SameTier, OthersKept, OnlyStamped, Answered, Waiting, AddrOf;
    var one := [k];
    var w2 := QueueAll(t, w, lists, one);
    PinsKeepTier(t, w, w2, lists);
    JobsKept(t, w, w2, lists, one);
    var w3 := AnswerAll(t, w2, lists, one);
    PinsKeepTier(t, w2, w3, lists);
    var a, b, c := QueueSteps(t, lists, one), CallbackSteps(Jobs(t, w2, lists, one)), CollectSteps(t, lists, one);
    v := CollectAll(t, w3, lists, one);
    assert Members(one) == {k};
    SameTierTwice(t, w, w3, v);
    LeadsConcat(w0, steps, w, a, w2, None);
    LeadsConcat(w0, steps + a, w2, b, w3, None);
    LeadsConcat(w0, steps + a + b, w3, c, v, None);
    more := steps + a + b + c;
  }

  // ---- and one that meets a stale result is refused ----------------------------------------

  /** The record's stamp is not the tracker's. */
  predicate Outdated(t: Tier, w: World, k: nat) {
    AddrOf(t, k) in w.results && w.results[AddrOf(t, k)].generation != StampOf(t, w)
  }

  predicate Collects(s: Step) {
    s.CollectShard? || s.CollectTier1? || s.CollectSemifinal?
  }

  /** A step of a pass, other than queueing shard k. */
  predicate LeavesShard(t: Tier, s: Step, k: nat) {
    || s.Callback? || Collects(s)
    || (Queues(s) && QueuedAddr(s) != AddrOf(t, k) && (s.QueueShard? ==> s.index != FINAL_SHARD_INDEX))
  }

  lemma CollectKeepsStamps(w: World, s: Step)
    requires Collects(s) && Next(w, s).Ok?
    ensures After(w, s).results == w.results
    ensures BracketStamp(After(w, s)) == BracketStamp(w) && Tier1Stamp(After(w, s)) == Tier1Stamp(w)
  {
    QuietEffect(w, s);
    if s.CollectShard? {
      CollectShardEffect(w, s);
    } else if s.CollectTier1? {
      CollectTier1Effect(w, s);
    } else {
      hide Picked;
      CollectSemifinalEffect(w, s);
    }
  }

  lemma OutdatedStays(t: Tier, w: World, s: Step, k: nat)
    requires Outdated(t, w, k) && LeavesShard(t, s, k)
    ensures Outdated(t, After(w, s), k)
  {
    hide Next;
    if Next(w, s).Ok? {
      if Queues(s) {
        hide After;
        QueueEffect(w, s);
      } else if Collects(s) {
        hide After;
        CollectKeepsStamps(w, s);
      } else {
        LandingKeepsStamps(w, s);
      }
    }
  }

  lemma LandingKeepsStamps(w: World, s: Step)
    requires s.Callback?
    ensures var v := After(w, s);
            && SamePins(w, v) && (forall a :: a in w.results <==> a in v.results)
            && (forall a :: a in w.results ==> v.results[a].generation == w.results[a].generation)
  {
  }

  lemma {:induction false} OutdatedThroughout(t: Tier, w: World, steps: seq<Step>, k: nat)
    requires Outdated(t, w, k) && forall i :: 0 <= i < |steps| ==> LeavesShard(t, steps[i], k)
    ensures Outdated(t, Run(w, steps), k)
    decreases |steps|
  {
    hide After, Outdated, LeavesShard;
    if steps != [] {
      OutdatedStays(t, w, steps[0], k);
      OutdatedThroughout(t, After(w, steps[0]), steps[1..], k);
    }
  }

  lemma OutdatedIsRefused(t: Tier, w: World, k: nat, list: seq<Key>)
    requires Outdated(t, w, k)
    ensures Next(w, CollectOf(t, k, list)).Err?
  {
    hide RunError, Picked, InRange, PushError, InsertAll, SemifinalSlice, ShardAdmission;
  }

  lemma StepsLeaveShard(t: Tier, w: World, lists: seq<seq<Key>>, need: seq<nat>, due: seq<nat>, k: nat)
    requires Within(need, |lists|) && Within(due, |lists|) && |lists| <= FINAL_SHARD_INDEX && k !in need
    ensures var steps := QueueSteps(t, lists, need) + CallbackSteps(Jobs(t, w, lists, need)) + CollectSteps(t, lists, due);
            forall i :: 0 <= i < |steps| ==> LeavesShard(t, steps[i], k)
  {
    var a, b, c := QueueSteps(t, lists, need), CallbackSteps(Jobs(t, w, lists, need)), CollectSteps(t, lists, due);
    forall i | 0 <= i < |a + b + c| ensures LeavesShard(t, (a + b + c)[i], k) {
      if i < |a| {
        assert (a + b + c)[i] == QueueOf(t, need[i], lists[need[i]]) && need[i] in need;
      } else if i >= |a| + |b| {
        var j := i - |a| - |b|;
        assert (a + b + c)[i] == CollectOf(t, due[j], lists[due[j]]);
      }
    }
  }

  /** A usable but stale result left uncollected is neither queued again nor accepted. */
  lemma StaleBlocksPass(t: Tier, w: World, lists: seq<seq<Key>>)
    requires |lists| <= FINAL_SHARD_INDEX && !Usable(t, w, |lists|, false)
    ensures !Accepted(w, Pass(t, w, lists, false))
  {
    hide Next, After, Run, Accepted, LeavesShard, QueueSteps, CallbackSteps, Jobs, CollectedBy;
    var k :| 0 <= k < |lists| && k !in CollectedBy(t, w) && Stale(t, w, k);
    var need, due := ToQueue(t, w, |lists|, false), ToCollect(t, w, |lists|);
    var i := IndexOf(due, k);
    var a, c := QueueSteps(t, lists, need) + CallbackSteps(Jobs(t, w, lists, need)), CollectSteps(t, lists, due);
    StepsLeaveShard(t, w, lists, need, due, k);
    var before := a + c[..i];
    PrefixOf(a, c, i);
    OutdatedThroughout(t, w, before, k);
    OutdatedIsRefused(t, Run(w, before), k, lists[k]);
    AcceptedConcat(w, before, c[i..]);
    RefusedFirst(Run(w, before), c[i..]);
  }

  lemma IndexOf(l: seq<nat>, k: nat) returns (i: nat)
    requires k in l
    ensures i < |l| && l[i] == k
  {
    i :| i < |l| && l[i] == k;
  }

  lemma PrefixOf(a: seq<Step>, c: seq<Step>, i: nat)
    requires i <= |c|
    ensures a + c == (a + c[..i]) + c[i..]
    ensures forall j :: 0 <= j < |a + c[..i]| ==> (a + c[..i])[j] == (a + c)[j]
  {
  }

  lemma RefusedFirst(w: World, steps: seq<Step>)
    requires steps != [] && Next(w, steps[0]).Err?
    ensures !Accepted(w, steps)
  {
  }

  /** Exactly when a pass is never refused. */
  lemma PassGoesThrough(t: Tier, w: World, lists: seq<seq<Key>>, force: bool)
    requires Inv(w) && Pinned(t, w, lists) && w.inFlight == multiset{}
    ensures Accepted(w, Pass(t, w, lists, force)) <==> Usable(t, w, |lists|, force)
  {
    hide Inv, Pass, Accepted;
    if Usable(t, w, |lists|, force) {
      var v := RunTier(t, w, lists, force);
      CleanIsAdmissible(w, Pass(t, w, lists, force));
    } else {
      FewLists(t, w, lists);
      StaleBlocksPass(t, w, lists);
    }
  }

  lemma FewLists(t: Tier, w: World, lists: seq<seq<Key>>)
    requires Inv(w) && Pinned(t, w, lists)
    ensures |lists| <= FINAL_SHARD_INDEX
  {
  }

  // ---- the wait before a pass ----------------------------------------------------------------

  /** Whatever is in flight can land; the pins stay as they are. */
  lemma {:induction false} LetLand(w: World) returns (steps: seq<Step>, v: World)
    requires Inv(w)
    ensures Reached(w, steps, v) && Inv(v) && SamePins(w, v) && v.inFlight == multiset{}
    decreases |w.inFlight|
  {
    hide Inv, Next, After, GoesThrough, Run, RevealOf;
    LeadsNowhere(w, None);
    if w.inFlight == multiset{} {
      steps, v := [], w;
    } else {
      var c :| c in w.inFlight;
      DueHasRecord(w, c);
      CallbackGoes(w, c);
      CleanStep(w, [], w, Callback(c));
      AfterCallback(w, c);
      var rest, u := LetLand(After(w, Callback(c)));
      LeadsConcat(w, [] + [Callback(c)], After(w, Callback(c)), rest, u, None);
      steps, v := [] + [Callback(c)] + rest, u;
    }
  }

  lemma DueHasRecord(w: World, c: Computation)
    requires Inv(w) && c in w.inFlight
    ensures c.addr in w.results
  {
  }

  lemma AfterCallback(w: World, c: Computation)
    requires c in w.inFlight && c.addr in w.results
    ensures After(w, Callback(c)) == Landed(w, c, RevealOf(w.ledger, c.list))
  {
  }
}
