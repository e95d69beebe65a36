/** queue_score_entry, score_entry_v2_callback and cancel_stuck_score as the program runs them, on the
accounts of one round. Each is a step of the scoring state machine and keeps its counters true. */
module ScoringHandlers {
  import opened Circuit
  import opened Ranking
  import opened Accounts
  import opened AccountState
  import opened Scoring

  class CompetitionEntry {
    var scored: bool
    var encryptedScore: Byte
    var scoreErrorCode: nat
    var scoreQueued: bool
    var queuedAt: int

    function View(): Card
      reads this
    {
      Card(if scored then Some(encryptedScore) else None, scoreQueued, queuedAt, scoreErrorCode)
    }

    constructor ()
      ensures View() == FRESH_CARD
    {
      scored, scoreErrorCode, scoreQueued, queuedAt := false, 0, false, 0;
    }

    /** A second answer for one entry finds it scored and leaves it alone. */
    method Land(output: Option<Byte>, round: CompetitionRound)
      modifies this, round`scoredCount
      ensures (View(), round.scoredCount) == ScoreCallback(old(View()), old(round.scoredCount), output)
    {
      if !scored {
        match output {
          case Some(score) =>
            encryptedScore, scored, scoreQueued := score, true, false;
            round.scoredCount := if round.scoredCount + 1 > MAX_COUNT then MAX_COUNT else round.scoredCount + 1;
          case None =>
            scoreErrorCode, scoreQueued := SCORE_ERROR_ABORTED, false;
        }
      }
    }
  }

  /** A round, its entry accounts by address, and the computations the cluster still owes it. */
  class ScoredRound {
    const capacity: nat
    var round: CompetitionRound
    var entries: map<Key, CompetitionEntry>
    ghost var inFlight: multiset<Key>

    function Cards(): map<Key, Card>
      reads `entries, entries.Values
    {
      map x | x in entries :: entries[x].View()
    }

    ghost function View(): Board
      reads this, round, entries.Values
    {
      Board(round.status, capacity, round.participantCount, round.scoredCount, Cards(), inFlight)
    }

    /** Every address holds an account of its own, and the counters are the sets they count. */
    ghost predicate Valid()
      reads this, round, entries.Values
    {
      Tallied(View()) && forall x, y :: x in entries && y in entries && x != y ==> entries[x] != entries[y]
    }

    constructor (emptyRound: CompetitionRound, capacity: nat)
      requires emptyRound.status == Open && emptyRound.participantCount == 0 && emptyRound.scoredCount == 0
      requires capacity <= MAX_COUNT
      ensures Valid() && round == emptyRound && Opened(View())
    {
      this.capacity := capacity;
      round, entries, inFlight := emptyRound, map[], multiset{};
      new;
      assert ScoredEntries(View()) == {};
    }

    /** What an entry means for scoring; its fee is PotRun's. */
    method SubmitEntry(x: Key) returns (e: Option<ScoreError>)
      requires Valid()
      modifies `entries, round`participantCount
      ensures Valid() && round == old(round)
      ensures Next(old(View()), Enter(x)) == if e.Some? then Fail(e.value) else Fine(View())
      ensures e.Some? ==> View() == old(View())
    {
      hide Tallied, ScoredEntries;
      if round.status != Open {
        return Some(NotOpen);
      }
      if round.participantCount >= capacity {
        return Some(RoundFull);
      }
      if x in entries {
        return Some(AlreadyEntered);
      }
      var entry := new CompetitionEntry();
      entries := entries[x := entry];
      round.participantCount := round.participantCount + 1;
      assert View().cards == old(View()).cards[x := FRESH_CARD];
      StepKeeps(old(View()), Enter(x));
      e := None;
    }

    /** Only the account at x was written. */
    twostate lemma OneCardWritten(x: Key)
      requires x in entries && entries == old(entries)
      requires forall y :: y in entries && y != x ==> entries[y].View() == old(entries[y].View())
      ensures Cards() == old(Cards())[x := entries[x].View()]
      ensures x in old(Cards()) && old(Cards()[x]) == old(entries[x].View())
    {
    }

    lemma DueIsEntered(x: Key)
      requires Valid() && x in inFlight
      ensures x in entries
    {
    }

    method QueueScoreEntry(authorized: bool, x: Key, now: int) returns (e: Option<ScoreError>)
      requires Valid()
      modifies `inFlight, entries.Values
      ensures Valid() && entries == old(entries) && round == old(round)
      ensures Next(old(View()), QueueScore(authorized, x, now)) == if e.Some? then Fail(e.value) else Fine(View())
      ensures e.Some? ==> View() == old(View())
    {
      hide Tallied, ScoredEntries;
      if x !in entries {
        return Some(NoSuchEntry);
      }
      var entry := entries[x];
      if entry.scored {
        return Some(AlreadyScored);
      }
      if entry.scoreQueued {
        return Some(AlreadyQueued);
      }
      if !authorized {
        return Some(NoPermission);
      }
      if round.status != Closed {
        return Some(NotClosed);
      }
      entry.scoreQueued := true;
      entry.queuedAt := now;
      inFlight := inFlight + multiset{x};
      OneCardWritten(x);
      StepKeeps(old(View()), QueueScore(authorized, x, now));
      e := None;
    }

    method ScoreEntryCallback(x: Key, output: Option<Byte>)
      requires Valid() && x in inFlight
      modifies `inFlight, entries.Values, round`scoredCount
      ensures Valid() && entries == old(entries) && round == old(round)
      ensures Next(old(View()), Answer(x, output)) == Fine(View())
    {
      DueIsEntered(x);
      hide Tallied, ScoredEntries, ScoreCallback, Next, Cards;
      ghost var before := View();
      inFlight := inFlight - multiset{x};
      entries[x].Land(output, round);
      OneCardWritten(x);
      AnswerIs(before, x, output, entries[x].View(), round.scoredCount);
      StepKeeps(before, Answer(x, output));
    }

    method CancelStuckScore(x: Key, now: int) returns (e: Option<ScoreError>)
      requires Valid()
      modifies entries.Values
      ensures Valid()
      ensures Next(old(View()), CancelStuck(x, now)) == if e.Some? then Fail(e.value) else Fine(View())
      ensures e.Some? ==> View() == old(View())
    {
      hide Tallied, ScoredEntries;
      if x !in entries {
        return Some(NoSuchEntry);
      }
      var entry := entries[x];
      if entry.scored {
        return Some(AlreadyScored);
      }
      if !entry.scoreQueued {
        return Some(NotQueued);
      }
      if now - entry.queuedAt < SCORE_TIMEOUT {
        return Some(NotYetTimedOut);
      }
      entry.scoreQueued := false;
      OneCardWritten(x);
      StepKeeps(old(View()), CancelStuck(x, now));
      e := None;
    }
  }

  lemma AnswerIs(b: Board, x: Key, output: Option<Byte>, card: Card, count: nat)
    requires x in b.inFlight && x in b.cards && ScoreCallback(b.cards[x], b.scoredCount, output) == (card, count)
    ensures After(b, Answer(x, output))
         == b.(cards := b.cards[x := card], scoredCount := count, inFlight := b.inFlight - multiset{x})
    ensures Next(b, Answer(x, output)).Fine?
  {
  }
}
