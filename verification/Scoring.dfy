/** Scoring a round's entries: queued, answered, aborted, timed out, queued again - with any number
of computations in flight for one entry - and what the reveal's gate may conclude from the count. */
module Scoring {
  import opened Ranking
  import opened Circuit
  import opened Accounts

  const SCORE_TIMEOUT := 600
  const SCORE_ERROR_ABORTED := 1
  const MAX_COUNT := 65_535

  datatype ScoreError =
    | NoPermission | NotClosed | NotOpen | RoundFull | AlreadyEntered | NoSuchEntry | NoSuchComputation
    | AlreadyScored | AlreadyQueued | NotQueued | NotYetTimedOut

  datatype Scored<T> = Fine(value: T) | Fail(error: ScoreError)

  /** The scoring side of an entry: the score is none until a computation has delivered it. */
  datatype Card = Card(score: Option<Byte>, queued: bool, queuedAt: int, errorCode: nat)

  const FRESH_CARD := Card(None, false, 0, 0)

  /** One round: its cards, its two counters, and the computations not yet answered. */
  datatype Board = Board(
    status: Status, capacity: nat, participants: nat, scoredCount: nat,
    cards: map<Key, Card>, inFlight: multiset<Key>)

  datatype Step =
    | Enter(entry: Key)
    | CloseRound(ok: bool)
    | FinalizeRound(ok: bool)
    | QueueScore(ok: bool, entry: Key, now: int)
    | Answer(entry: Key, output: Option<Byte>)
    | Lose(entry: Key)
    | CancelStuck(entry: Key, now: int)

  // ---- the instructions --------------------------------------------------------------------

  function QueueScoreEntry(authorized: bool, status: Status, c: Card, now: int): Scored<Card> {
    if c.score.Some? then Fail(AlreadyScored)
    else if c.queued then Fail(AlreadyQueued)
    else if !authorized then Fail(NoPermission)
    else if status != Closed then Fail(NotClosed)
    else Fine(c.(queued := true, queuedAt := now))
  }

  /** What a callback makes of the card and the round's count; an entry already scored is left
  alone, whatever the computation says. */
  function ScoreCallback(c: Card, scoredCount: nat, output: Option<Byte>): (r: (Card, nat)) {
    if c.score.Some? then (c, scoredCount)
    else match output
      case Some(score) => (c.(score := Some(score), queued := false), Min(scoredCount + 1, MAX_COUNT))
      case None => (c.(errorCode := SCORE_ERROR_ABORTED, queued := false), scoredCount)
  }

  function CancelStuckScore(c: Card, now: int): Scored<Card> {
    if c.score.Some? then Fail(AlreadyScored)
    else if !c.queued then Fail(NotQueued)
    else if now - c.queuedAt < SCORE_TIMEOUT then Fail(NotYetTimedOut)
    else Fine(c.(queued := false))
  }

  function Next(b: Board, s: Step): Scored<Board> {
    match s
    case Enter(entry) =>
      if b.status != Open then Fail(NotOpen)
      else if b.participants >= b.capacity then Fail(RoundFull)
      else if entry in b.cards then Fail(AlreadyEntered)
      else Fine(b.(cards := b.cards[entry := FRESH_CARD], participants := b.participants + 1))
    case CloseRound(ok) =>
      if !ok then Fail(NoPermission) else if b.status != Open then Fail(NotOpen) else Fine(b.(status := Closed))
    case FinalizeRound(ok) =>
      if !ok then Fail(NoPermission) else if b.status != Closed then Fail(NotClosed) else Fine(b.(status := Finalized))
    case QueueScore(ok, entry, now) =>
      if entry !in b.cards then Fail(NoSuchEntry)
      else (match QueueScoreEntry(ok, b.status, b.cards[entry], now)
            case Fail(e) => Fail(e)
            case Fine(c) => Fine(b.(cards := b.cards[entry := c], inFlight := b.inFlight + multiset{entry})))
    case Answer(entry, output) =>
      if entry !in b.inFlight || entry !in b.cards then Fail(NoSuchComputation)
      else
        var (card, count) := ScoreCallback(b.cards[entry], b.scoredCount, output);
        Fine(b.(cards := b.cards[entry := card], scoredCount := count, inFlight := b.inFlight - multiset{entry}))
    case Lose(entry) =>
      if entry !in b.inFlight then Fail(NoSuchComputation) else Fine(b.(inFlight := b.inFlight - multiset{entry}))
    case CancelStuck(entry, now) =>
      if entry !in b.cards then Fail(NoSuchEntry)
      else (match CancelStuckScore(b.cards[entry], now)
            case Fail(e) => Fail(e)
            case Fine(c) => Fine(b.(cards := b.cards[entry := c])))
  }

  function After(b: Board, s: Step): Board {
    var next := Next(b, s);
    if next.Fine? then next.value else b
  }

  function Run(b: Board, steps: seq<Step>): Board
    decreases |steps|
  {
    if steps == [] then b else Run(After(b, steps[0]), steps[1..])
  }

  predicate Opened(b: Board) {
    && b.status == Open && b.capacity <= MAX_COUNT && b.participants == 0 && b.scoredCount == 0
    && b.cards == map[] && b.inFlight == multiset{}
  }

  // ---- counted once ------------------------------------------------------------------------

  function ScoredEntries(b: Board): set<Key> {
    set x | x in b.cards && b.cards[x].score.Some?
  }

  /** The counters are the sets they count; only unscored entries are marked in flight. */
  predicate Tallied(b: Board) {
    && b.capacity <= MAX_COUNT && b.participants <= b.capacity
    && b.participants == |b.cards.Keys|
    && b.scoredCount == |ScoredEntries(b)|
    && (forall x :: x in b.cards && b.cards[x].queued ==> b.cards[x].score.None?)
    && (forall x :: x in b.inFlight ==> x in b.cards)
  }

  lemma ScoredAtMostAll(b: Board)
    ensures |ScoredEntries(b)| <= |b.cards.Keys|
    ensures |ScoredEntries(b)| == |b.cards.Keys| <==> forall x :: x in b.cards ==> b.cards[x].score.Some?
  {
    SubsetSize(ScoredEntries(b), b.cards.Keys);
    if forall x :: x in b.cards ==> b.cards[x].score.Some? {
      assert ScoredEntries(b) == b.cards.Keys;
    }
  }

  /** Rewriting one card changes the set of scored entries by that entry only. */
  lemma ScoredAfter(b: Board, entry: Key, c: Card, d: Board)
    requires entry in b.cards && d.cards == b.cards[entry := c]
    requires b.cards[entry].score.Some? ==> c.score == b.cards[entry].score
    ensures |ScoredEntries(d)| == |ScoredEntries(b)| + (if c.score.Some? && b.cards[entry].score.None? then 1 else 0)
    ensures d.cards.Keys == b.cards.Keys
  {
    assert d.cards.Keys == b.cards.Keys;
    if c.score.Some? && b.cards[entry].score.None? {
      assert entry !in ScoredEntries(b);
      assert ScoredEntries(d) == ScoredEntries(b) + {entry};
    } else {
      assert ScoredEntries(d) == ScoredEntries(b);
    }
  }

  lemma EnterKeeps(b: Board, s: Step)
    requires Tallied(b) && s.Enter? && Next(b, s).Fine?
    ensures Tallied(After(b, s))
  {
    var d := After(b, s);
    assert d.cards.Keys == b.cards.Keys + {s.entry};
    assert ScoredEntries(d) == ScoredEntries(b);
  }

  /** The one place the count moves: by one, exactly when the entry had no score before. */
  lemma AnswerKeeps(b: Board, s: Step)
    requires Tallied(b) && s.Answer? && Next(b, s).Fine?
    ensures Tallied(After(b, s))
  {
    hide ScoredEntries;
    var d := After(b, s);
    ScoredAfter(b, s.entry, d.cards[s.entry], d);
    ScoredAtMostAll(b);
    ScoredAtMostAll(d);
    assert !d.cards[s.entry].queued;
  }

  lemma SameCards(b: Board, d: Board)
    requires d.cards == b.cards
    ensures ScoredEntries(d) == ScoredEntries(b)
  {
  }

  /** Queueing and cancelling rewrite one card and not its score. */
  lemma CardStepKeeps(b: Board, s: Step)
    requires Tallied(b) && (s.QueueScore? || s.CancelStuck?) && Next(b, s).Fine?
    ensures Tallied(After(b, s))
  {
    hide ScoredEntries;
    var d := After(b, s);
    ScoredAfter(b, s.entry, d.cards[s.entry], d);
  }

  lemma OtherStepKeeps(b: Board, s: Step)
    requires Tallied(b) && (s.CloseRound? || s.FinalizeRound? || s.Lose?) && Next(b, s).Fine?
    ensures Tallied(After(b, s))
  {
    hide ScoredEntries;
    var d := After(b, s);
    assert d == b.(status := d.status, inFlight := d.inFlight) && d.inFlight <= b.inFlight by {
      hide Tallied;
    }
    hide Next, After;
    SameCards(b, d);
    assert forall x :: x in d.inFlight ==> x in b.inFlight;
  }

  lemma StepKeeps(b: Board, s: Step)
    requires Tallied(b)
    ensures Tallied(After(b, s))
  {
    hide Tallied, Next;
    if Next(b, s).Fine? {
      match s
      case Enter(_) => EnterKeeps(b, s);
      case Answer(_, _) => AnswerKeeps(b, s);
      case QueueScore(_, _, _) => CardStepKeeps(b, s);
      case CancelStuck(_, _) => CardStepKeeps(b, s);
      case CloseRound(_) => OtherStepKeeps(b, s);
      case FinalizeRound(_) => OtherStepKeeps(b, s);
      case Lose(_) => OtherStepKeeps(b, s);
    }
  }

  lemma {:induction false} RunKeeps(b: Board, steps: seq<Step>)
    requires Tallied(b)
    ensures Tallied(Run(b, steps))
    decreases |steps|
  {
    hide Tallied, After;
    if steps != [] {
      StepKeeps(b, steps[0]);
      RunKeeps(After(b, steps[0]), steps[1..]);
    }
  }

  /** However often an entry is cancelled and queued again: counted once, and the saturating
  counter never saturates. */
  lemma ScoredCountIsTrue(b: Board, steps: seq<Step>)
    requires Opened(b)
    ensures var c := Run(b, steps);
            c.scoredCount == |ScoredEntries(c)| <= c.participants == |c.cards.Keys| <= MAX_COUNT
  {
    assert ScoredEntries(b) == {};
    RunKeeps(b, steps);
    ScoredAtMostAll(Run(b, steps));
  }

  /** The reveal's gate - as many scored as entered - is open exactly when every entry is scored. */
  lemma GateMeansAllScored(b: Board, steps: seq<Step>)
    requires Opened(b)
    ensures var c := Run(b, steps);
            c.scoredCount == c.participants <==> forall x :: x in c.cards ==> c.cards[x].score.Some?
  {
    assert ScoredEntries(b) == {};
    RunKeeps(b, steps);
    ScoredAtMostAll(Run(b, steps));
  }

  /** A step touches the card of the entry it names and no other, and never a scored one. */
  lemma CardAfter(b: Board, s: Step, x: Key)
    requires x in b.cards
    ensures x in After(b, s).cards
    ensures After(b, s).cards[x] != b.cards[x] ==>
              b.cards[x].score.None? && (s.QueueScore? || s.Answer? || s.CancelStuck?) && s.entry == x && Next(b, s).Fine?
  {
  }

  /** A stored score never changes. */
  lemma {:induction false} ScoreIsFinal(b: Board, steps: seq<Step>, x: Key)
    requires x in b.cards && b.cards[x].score.Some?
    ensures x in Run(b, steps).cards && Run(b, steps).cards[x] == b.cards[x]
    decreases |steps|
  {
    hide After, Next;
    if steps != [] {
      CardAfter(b, steps[0], x);
      ScoreIsFinal(After(b, steps[0]), steps[1..], x);
    }
  }

  function StoredScore(b: Board, x: Key): Option<Byte> {
    if x in b.cards then b.cards[x].score else None
  }

  /** What the first computation that answered for x with a score delivered. */
  function FirstAnswer(b: Board, steps: seq<Step>, x: Key): Option<Byte>
    decreases |steps|
  {
    if steps == [] then None
    else if steps[0].Answer? && steps[0].entry == x && steps[0].output.Some? && x in b.inFlight then steps[0].output
    else FirstAnswer(After(b, steps[0]), steps[1..], x)
  }

  lemma StepStores(b: Board, s: Step, x: Key)
    requires Tallied(b)
    ensures StoredScore(After(b, s), x)
         == if StoredScore(b, x).None? && s.Answer? && s.entry == x && x in b.inFlight then s.output else StoredScore(b, x)
  {
  }

  /** Over every run: the stored score is exactly what the first successful answer delivered, and none
  before that. */
  lemma {:induction false} ScoreIsFirstAnswer(b: Board, steps: seq<Step>, x: Key)
    requires Tallied(b)
    ensures StoredScore(Run(b, steps), x)
         == if StoredScore(b, x).Some? then StoredScore(b, x) else FirstAnswer(b, steps, x)
    decreases |steps|
  {
    hide After, Next, Tallied, StoredScore;
    if steps != [] {
      StepStores(b, steps[0], x);
      StepKeeps(b, steps[0]);
      ScoreIsFirstAnswer(After(b, steps[0]), steps[1..], x);
    }
  }

  /** A failed answer stores nothing and gives the entry back: it can be queued again at once. */
  lemma FailedAnswerFrees(b: Board, x: Key, now: int)
    requires Tallied(b) && x in b.inFlight && b.cards[x].score.None? && b.status == Closed
    ensures var c := After(b, Answer(x, None));
            && c.cards[x] == b.cards[x].(queued := false, errorCode := 1) && c.scoredCount == b.scoredCount
            && Next(c, QueueScore(true, x, now)).Fine?
  {
  }

  // ---- exactly what is accepted, and what it changes ---------------------------------------

  /** An entry can be queued if and only if the round is closed and the entry unscored and free; then it is
  queued since that moment, and one computation more is due for it. */
  lemma QueueIsDecided(b: Board, ok: bool, x: Key, now: int)
    requires Tallied(b)
    ensures Next(b, QueueScore(ok, x, now)).Fine?
       <==> ok && b.status == Closed && x in b.cards && b.cards[x].score.None? && !b.cards[x].queued
    ensures Next(b, QueueScore(ok, x, now)).Fine? ==>
              var c := b.cards[x].(queued := true, queuedAt := now);
              After(b, QueueScore(ok, x, now)) == b.(cards := b.cards[x := c], inFlight := b.inFlight[x := b.inFlight[x] + 1])
  {
  }

  /** A queued entry can be given back by hand if and only if its computation is 600 seconds overdue; the
  computation itself stays due. */
  lemma CancelIsDecided(b: Board, x: Key, now: int)
    requires Tallied(b)
    ensures Next(b, CancelStuck(x, now)).Fine? <==> x in b.cards && b.cards[x].queued && now - b.cards[x].queuedAt >= 600
    ensures Next(b, CancelStuck(x, now)).Fine? ==>
              After(b, CancelStuck(x, now)) == b.(cards := b.cards[x := b.cards[x].(queued := false)])
  {
  }

  /** An address can be entered if and only if the round is open, not full, and the address new. */
  lemma EnterIsDecided(b: Board, x: Key)
    requires Tallied(b)
    ensures Next(b, Enter(x)).Fine? <==> b.status == Open && |b.cards.Keys| < b.capacity && x !in b.cards
    ensures Next(b, Enter(x)).Fine? ==>
              After(b, Enter(x)) == b.(cards := b.cards[x := Card(None, false, 0, 0)], participants := b.participants + 1)
  {
  }

  /** A round only ever goes from open to closed to finalized, one authorised step each. */
  lemma StatusAdvances(b: Board, s: Step)
    ensures After(b, s).status
         == if s == CloseRound(true) && b.status == Open then Closed
            else if s == FinalizeRound(true) && b.status == Closed then Finalized
            else b.status
  {
  }

  /** Computations started for x by a run, and computations that ended: answered or lost. */
  function Started(b: Board, steps: seq<Step>, x: Key): nat
    decreases |steps|
  {
    if steps == [] then 0
    else (if steps[0].QueueScore? && steps[0].entry == x && Next(b, steps[0]).Fine? then 1 else 0)
         + Started(After(b, steps[0]), steps[1..], x)
  }

  function Ended(b: Board, steps: seq<Step>, x: Key): nat
    decreases |steps|
  {
    if steps == [] then 0
    else (if (steps[0].Answer? || steps[0].Lose?) && steps[0].entry == x && x in b.inFlight then 1 else 0)
         + Ended(After(b, steps[0]), steps[1..], x)
  }

  lemma DueAfter(b: Board, s: Step, x: Key)
    requires Tallied(b)
    ensures After(b, s).inFlight[x]
         == b.inFlight[x] + (if s.QueueScore? && s.entry == x && Next(b, s).Fine? then 1 else 0)
            - (if (s.Answer? || s.Lose?) && s.entry == x && x in b.inFlight then 1 else 0)
  {
  }

  /** No computation is forgotten or made up: what is due for an entry is what was started for it less
  what has been answered or lost. */
  lemma {:induction false} DueIsStartedLessEnded(b: Board, steps: seq<Step>, x: Key)
    requires Tallied(b)
    ensures Run(b, steps).inFlight[x] + Ended(b, steps, x) == b.inFlight[x] + Started(b, steps, x)
    decreases |steps|
  {
    hide After, Next, Tallied;
    if steps != [] {
      DueAfter(b, steps[0], x);
      StepKeeps(b, steps[0]);
      DueIsStartedLessEnded(After(b, steps[0]), steps[1..], x);
    }
  }

  lemma OpenGateStays(b: Board, s: Step)
    requires b.status != Open && forall x :: x in b.cards ==> b.cards[x].score.Some?
    ensures var d := After(b, s);
            d.cards == b.cards && d.status != Open && d.scoredCount == b.scoredCount && d.participants == b.participants
  {
  }

  /** Once open on a closed round, the gate stays open, over the same entries and scores. */
  lemma {:induction false} GateStaysOpen(b: Board, steps: seq<Step>)
    requires Tallied(b) && b.status != Open && b.scoredCount == b.participants
    ensures var c := Run(b, steps);
            c.scoredCount == c.participants == b.participants && c.cards == b.cards && c.status != Open
    decreases |steps|
  {
    if steps != [] {
      ScoredAtMostAll(b);
      StepKeeps(b, steps[0]);
      OpenGateStays(b, steps[0]);
      hide After, Tallied;
      GateStaysOpen(After(b, steps[0]), steps[1..]);
    }
  }

  /** While the round is closed, an entry without a score can always be brought back into flight. */
  lemma StuckScoreIsRecoverable(b: Board, x: Key, now: int)
    requires Tallied(b) && b.status == Closed && x in b.cards && b.cards[x].score.None?
    requires b.cards[x].queued ==> now - b.cards[x].queuedAt >= SCORE_TIMEOUT
    ensures var c := if b.cards[x].queued then After(b, CancelStuck(x, now)) else b;
            Next(c, QueueScore(true, x, now)).Fine? && x in After(c, QueueScore(true, x, now)).inFlight
  {
  }

  /** What gives a queued entry back: its computation's answer, or a cancel that comes late enough. */
  predicate Releases(s: Step, x: Key, since: int) {
    || (s.Answer? && s.entry == x)
    || (s.CancelStuck? && s.entry == x && s.now - since >= SCORE_TIMEOUT)
  }

  /** Until then it stays queued, whatever else happens, and cannot be queued a second time. */
  lemma {:induction false} QueuedUntilReleased(b: Board, steps: seq<Step>, x: Key, since: int)
    requires x in b.cards && b.cards[x].queued && b.cards[x].queuedAt == since
    requires forall i :: 0 <= i < |steps| ==> !Releases(steps[i], x, since)
    ensures var c := Run(b, steps);
            && x in c.cards && c.cards[x] == b.cards[x]
            && forall ok, now :: Next(c, QueueScore(ok, x, now)).Fail?
    decreases |steps|
  {
    hide After, Next, Releases;
    forall ok, now ensures Next(b, QueueScore(ok, x, now)).Fail? {
      QueuedIsNotQueued(b, x, ok, now);
    }
    if steps != [] {
      UnreleasedStays(b, steps[0], x, since);
      QueuedUntilReleased(After(b, steps[0]), steps[1..], x, since);
    }
  }

  lemma QueuedIsNotQueued(b: Board, x: Key, ok: bool, now: int)
    requires x in b.cards && b.cards[x].queued
    ensures Next(b, QueueScore(ok, x, now)).Fail?
  {
  }

  lemma UnreleasedStays(b: Board, s: Step, x: Key, since: int)
    requires x in b.cards && b.cards[x].queued && b.cards[x].queuedAt == since && !Releases(s, x, since)
    ensures x in After(b, s).cards && After(b, s).cards[x] == b.cards[x]
  {
    hide After;
    CardAfter(b, s, x);
  }

  /** After finalization nothing can be queued any more: an entry without a score and with nothing in
  flight stays so, and the gate stays shut. */
  lemma {:induction false} UnscoredAtFinalizationIsFinal(b: Board, steps: seq<Step>, x: Key)
    requires Tallied(b) && b.status == Finalized && x in b.cards && b.cards[x].score.None? && x !in b.inFlight
    ensures var c := Run(b, steps);
            x in c.cards && c.cards[x].score.None? && x !in c.inFlight && c.scoredCount < c.participants
    decreases |steps|
  {
    ScoredAtMostAll(b);
    hide After, Next;
    if steps != [] {
      StepKeeps(b, steps[0]);
      FinalizedStays(b, steps[0], x);
      UnscoredAtFinalizationIsFinal(After(b, steps[0]), steps[1..], x);
    }
  }

  lemma FinalizedStays(b: Board, s: Step, x: Key)
    requires b.status == Finalized && x in b.cards && b.cards[x].score.None? && x !in b.inFlight
    ensures var d := After(b, s);
            d.status == Finalized && x in d.cards && d.cards[x].score.None? && x !in d.inFlight
  {
  }

  /** Everything without a score has a computation in flight. */
  predicate AllDue(b: Board) {
    forall x :: x in b.cards && b.cards[x].score.None? ==> x in b.inFlight
  }

  lemma AnswerOne(b: Board, x: Key)
    requires Tallied(b) && AllDue(b) && x in b.cards && b.cards[x].score.None?
    ensures var d := After(b, Answer(x, Some(0)));
            AllDue(d) && d.status == b.status && d.participants == b.participants && d.scoredCount == b.scoredCount + 1
  {
    var s := Answer(x, Some(0));
    AnswerKeeps(b, s);
    var d := After(b, s);
    ScoredAfter(b, x, d.cards[x], d);
  }

  /** What is due can all come back. */
  lemma {:induction false} AnswerAllDue(b: Board) returns (steps: seq<Step>)
    requires Tallied(b) && AllDue(b)
    ensures Run(b, steps).scoredCount == Run(b, steps).participants
    decreases b.participants - b.scoredCount
  {
    ScoredAtMostAll(b);
    if b.scoredCount == b.participants {
      steps := [];
    } else {
      var x :| x in b.cards && b.cards[x].score.None?;
      AnswerOne(b, x);
      StepKeeps(b, Answer(x, Some(0)));
      var rest := AnswerAllDue(After(b, Answer(x, Some(0))));
      steps := [Answer(x, Some(0))] + rest;
      assert steps[1..] == rest;
    }
  }

  /** A finalized round can still get all its scores if and only if everything it lacks is in flight:
  callbacks ask for no status. */
  lemma FinalizedGateCanOpen(b: Board)
    requires Tallied(b) && b.status == Finalized
    ensures AllDue(b) <==> exists steps :: Run(b, steps).scoredCount == Run(b, steps).participants
  {
    if AllDue(b) {
      var steps := AnswerAllDue(b);
    } else {
      var x :| x in b.cards && b.cards[x].score.None? && x !in b.inFlight;
      forall steps ensures Run(b, steps).scoredCount != Run(b, steps).participants {
        UnscoredAtFinalizationIsFinal(b, steps, x);
      }
    }
  }
}
