/** One round end to end: scoring opens the gate, the reveal names the podium, the pot pays it. */
module RoundLife {
  import opened Ranking
  import opened Circuit
  import opened Accounts
  import opened Planner
  import RevealRun
  import RevealTheorem
  import SingleTierDriver
  import BracketDriver
  import Scoring
  import opened Settlement
  import PotRun
  import PotTheorem

  // ---- scoring to reveal -------------------------------------------------------------------

  /** The reveal's round and ledger are the scoring board's, entry by entry. */
  predicate Mirrors(w: RevealRun.World, b: Scoring.Board) {
    && w.round.status == b.status
    && w.round.participantCount == b.participants && w.round.scoredCount == b.scoredCount
    && RevealRun.Entrants(w) == b.cards.Keys
    && forall x :: x in b.cards ==>
         w.ledger[x].scored == b.cards[x].score.Some?
         && (b.cards[x].score.Some? ==> w.ledger[x].score == b.cards[x].score.value)
  }

  /** Whatever scoring went through, once the counters meet on a closed round the reveal may
  start, and every entry it ranks is scored. */
  lemma GateOpensReveal(b0: Scoring.Board, steps: seq<Scoring.Step>, w: RevealRun.World)
    requires Scoring.Opened(b0) && Mirrors(w, Scoring.Run(b0, steps))
    requires w.round.status != Open && w.round.scoredCount == w.round.participantCount
    requires !w.round.revealed && w.bracket.None? && w.tier1.None? && w.results == map[] && w.inFlight == multiset{}
    ensures BracketDriver.ReadyToReveal(w)
  {
    Scoring.ScoredCountIsTrue(b0, steps);
    Scoring.GateMeansAllScored(b0, steps);
  }

  /** From there the automatic operator reaches the exact podium of all the entries. */
  lemma ScoredRoundIsRevealed(b0: Scoring.Board, scoring: seq<Scoring.Step>, w: RevealRun.World, plan: BracketPlan, slot: nat)
    requires Scoring.Opened(b0) && Mirrors(w, Scoring.Run(b0, scoring))
    requires w.round.status != Open && w.round.scoredCount == w.round.participantCount
    requires !w.round.revealed && w.bracket.None? && w.tier1.None? && w.results == map[] && w.inFlight == multiset{}
    requires PlansFor(plan, Sorted(RevealRun.Entrants(w))) && slot % STAMPS != 1
    ensures SingleTierDriver.FitsWidth(plan) && BracketDriver.CleanReveal(w, BracketDriver.OperatorSteps(w, plan, slot))
  {
    GateOpensReveal(b0, scoring, w);
    BracketDriver.ReadyIsResumable(w, plan, slot);
    var v := BracketDriver.RunBracketReveal(w, plan, slot);
  }

  // ---- reveal to payout --------------------------------------------------------------------

  /** An exact podium names distinct entries for as many places as there are entries. */
  lemma ExactTopNamesWinners(p: Points, entries: set<Key>, top: seq<Key>)
    requires RevealRun.ExactTop(p, entries, top)
    ensures PotRun.NamesWinners(entries, top)
  {
    forall q, r | 0 <= q < r < REVEAL_TOP_K && r < |entries| ensures top[q] != top[r] {
      assert Placed(p, entries, q, top[q]) && Placed(p, entries, r, top[r]);
    }
  }

  /** Every reveal an admissible run can end in is one the pot accepts. */
  lemma RevealFeedsPot(w: RevealRun.World, steps: seq<RevealRun.Step>, b: PotRun.Books)
    requires RevealRun.Unstarted(w) && RevealRun.AdmissibleRun(w, steps) && RevealRun.Run(w, steps).round.revealed
    requires PotRun.BooksSound(b) && PotRun.Entrants(b) == RevealRun.Entrants(w)
    requires b.round.status != Open && !b.round.revealed && b.round.participants > 0
    ensures var s := PotRun.RevealRound(RevealRun.Run(w, steps).round.top);
            && PotRun.Next(b, s).Done?
            && PotRun.After(b, s) == b.(round := b.round.(revealed := true, top := RevealRun.Run(w, steps).round.top))
  {
    RevealTheorem.RevealIsExact(w, steps);
    ExactTopNamesWinners(RevealRun.Standings(w), RevealRun.Entrants(w), RevealRun.Run(w, steps).round.top);
  }

  /** The i-th payment of a distribution goes to the player whose entry holds place i among all
  the entries of the round. */
  lemma PodiumIsPaid(w: RevealRun.World, steps: seq<RevealRun.Step>, b: PotRun.Books, s: PotRun.PotStep, i: nat)
    requires RevealRun.Unstarted(w) && RevealRun.AdmissibleRun(w, steps) && RevealRun.Run(w, steps).round.revealed
    requires PotRun.BooksSound(b) && PotRun.Entrants(b) == RevealRun.Entrants(w)
    requires b.round.revealed && b.round.top == RevealRun.Run(w, steps).round.top
    requires s.Distribute? && PotRun.Next(b, s).Done? && i < REVEAL_TOP_K && i < |RevealRun.Entrants(w)|
    ensures var paid := PotRun.After(b, s).payouts;
            && |paid| == Min(REVEAL_TOP_K, |RevealRun.Entrants(w)|)
            && Placed(RevealRun.Standings(w), RevealRun.Entrants(w), i, paid[i].entry)
            && paid[i].to == PlayerOf(b.ledger, paid[i].entry) && paid[i].mint == b.mint
  {
    RevealTheorem.RevealIsExact(w, steps);
    PotTheorem.DistributionDrains(b, s);
    var paid := PotRun.After(b, s).payouts;
    assert Entries(paid)[i] == paid[i].entry;
  }
}
