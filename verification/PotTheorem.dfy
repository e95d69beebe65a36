/** What every run of a pot keeps and promises: conservation, exclusion, exactly-once refunds
whatever the batches, and a payout that drains the vault. */
module PotTheorem {
  import opened Ranking
  import opened Circuit
  import opened Partition
  import opened Accounts
  import opened Settlement
  import opened PotRun

  lemma RefundKeeps(b: Books, s: PotStep)
    requires BooksSound(b) && s.Refund? && Next(b, s).Done?
    ensures BooksSound(After(b, s))
  {
    hide BatchError, Ascending, Entries, BatchPayments, NamesWinners, RoundEntries, PayBatch, FreezeTerms;
    var n := b.round.participants;
    var terms := if b.settlement.Some? then b.settlement.value else FreezeTerms(n, b.vault.value, s.now);
    if b.settlement.None? {
      FrozenFee(b, s.now);
      NothingRefundedYet(b, terms);
    }
    if terms.state == PotRefunded {
      assert b.refunds + [] == b.refunds;
    } else {
      var f := PayBatch(b.ledger, b.round.key, b.mint, s.now, terms, b.vault.value, s.accounts).value;
      BatchExtends(b, terms, s.now, s.accounts, f);
      TotalConcat(b.refunds, f.paid);
      BatchKeeps(b, terms, f);
    }
  }

  /** What a batch does to the books. */
  lemma BatchKeeps(b: Books, terms: SettlementRecord, f: Effect)
    requires BooksSound(b) && b.vault.Some? && b.round.status == Finalized && b.round.participants > 0
    requires b.payouts == [] && b.swept == 0 && !b.round.revealed && terms.state == RefundPending
    requires Total(b.refunds + f.paid) == Total(b.refunds) + Total(f.paid)
    requires Total(f.paid) == b.vault.value - f.vault && f.vault <= b.vault.value
    requires RefundsSound(b.(refunds := b.refunds + f.paid), f.record)
    requires |b.refunds| + |f.paid| <= b.round.participants
    requires f.record.state == if |b.refunds| + |f.paid| == b.round.participants then PotRefunded else RefundPending
    requires f.record.state == RefundPending ==> f.record.settledAt == 0
    ensures BooksSound(b.(settlement := Some(f.record), vault := Some(f.vault), refunds := b.refunds + f.paid))
  {
    hide Entries, Ascending, NamesWinners, RoundEntries, PlayerOf;
    var c := b.(settlement := Some(f.record), vault := Some(f.vault), refunds := b.refunds + f.paid);
    assert RefundsSound(c, f.record);
  }

  lemma NothingRefundedYet(b: Books, terms: SettlementRecord)
    requires b.refunds == [] && terms.entrantCount == b.round.participants && terms.recipientCount == 0
    requires terms.totalSettled == 0 && terms.cursor == DEFAULT_KEY
    requires terms.perEntrant == if b.round.participants > 0 then ENTRY_FEE else 0
    ensures RefundsSound(b, terms)
  {
  }

  // ---- paying winners ----------------------------------------------------------------------

  lemma WinnersOfNamed(entries: set<Key>, top: seq<Key>)
    requires NamesWinners(entries, top) && DEFAULT_KEY !in entries
    ensures Winners(top) == top[..Min(REVEAL_TOP_K, |entries|)]
    ensures |Winners(top)| == Min(REVEAL_TOP_K, |entries|) && Distinct(Winners(top))
    ensures forall x :: x in Winners(top) ==> x in entries
  {
    var t1, t2 := top[1..], top[2..];
    assert t1[1..] == t2 && t2[1..] == top[3..] == [];
    assert Winners(t2) == if t2[0] == DEFAULT_KEY then [] else [t2[0]];
    assert Winners(t1) == if t1[0] == DEFAULT_KEY then Winners(t2) else [t1[0]] + Winners(t2);
    assert top == [top[0], top[1], top[2]];
  }

  /** Before anything is decided, the vault of an entered round holds all that ever came in. */
  lemma UndecidedPot(b: Books)
    requires BooksSound(b) && b.settlement.None? && b.round.participants > 0
    ensures b.vault.Some? && b.vault.value == b.fees + b.donated >= ENTRY_FEE
  {
  }

  lemma DistributeKeeps(b: Books, s: PotStep)
    requires BooksSound(b) && s.Distribute? && Next(b, s).Done?
    ensures BooksSound(After(b, s))
  {
    var winners := Winners(b.round.top);
    WinnersOfNamed(Entrants(b), b.round.top);
    UndecidedPot(b);
    SharesExhaustPot(winners, s.accounts, b.vault.value);
    TotalConcat(b.payouts, Payouts(winners, s.accounts, b.vault.value));
  }

  lemma QuietStepKeeps(b: Books, s: PotStep)
    requires BooksSound(b) && Next(b, s).Done? && !s.Enter? && !s.Refund? && !s.Distribute?
    ensures BooksSound(After(b, s))
  {
    if s.CloseVault? {
      CloseVaultKeeps(b, s);
    } else if s.Donate? || s.RecreateVault? {
      VaultStepKeeps(b, s);
    } else {
      RoundStepKeeps(b, s);
    }
  }

  lemma CloseVaultKeeps(b: Books, s: PotStep)
    requires BooksSound(b) && s.CloseVault? && Next(b, s).Done?
    ensures BooksSound(After(b, s))
  {
    hide NamesWinners, RoundEntries, Ascending, Entries;
  }

  lemma VaultStepKeeps(b: Books, s: PotStep)
    requires BooksSound(b) && (s.Donate? || s.RecreateVault?) && Next(b, s).Done?
    ensures BooksSound(After(b, s))
  {
    hide NamesWinners, RoundEntries, Ascending, Entries;
  }

  lemma RoundStepKeeps(b: Books, s: PotStep)
    requires BooksSound(b) && (s.CloseRound? || s.FinalizeRound? || s.RevealRound?) && Next(b, s).Done?
    ensures BooksSound(After(b, s))
  {
    hide NamesWinners, RoundEntries, Ascending, Entries;
  }

  lemma StepKeeps(b: Books, s: PotStep)
    requires BooksSound(b)
    ensures BooksSound(After(b, s))
  {
    if Next(b, s).Done? {
      if s.Enter? {
        EnterKeeps(b, s);
      } else if s.Refund? {
        RefundKeeps(b, s);
      } else if s.Distribute? {
        DistributeKeeps(b, s);
      } else {
        QuietStepKeeps(b, s);
      }
    }
  }

  /** In every reachable state: fees + donations == vault + paid + refunded + swept, every entry
  was charged the fixed fee, and payouts and refunds never both happened. */
  lemma {:induction false} RunKeeps(b: Books, steps: seq<PotStep>)
    requires BooksSound(b)
    ensures BooksSound(Run(b, steps))
    decreases |steps|
  {
    if steps != [] {
      StepKeeps(b, steps[0]);
      RunKeeps(After(b, steps[0]), steps[1..]);
    }
  }

  lemma PotIsConserved(b: Books, steps: seq<PotStep>)
    requires Opened(b)
    ensures var c := Run(b, steps);
            && c.fees + c.donated == Balance(c) + Total(c.payouts) + Total(c.refunds) + c.swept
            && c.fees == ENTRY_FEE * c.round.participants == ENTRY_FEE * |Entrants(c)|
            && (c.payouts == [] || c.refunds == [])
  {
    OpenedIsSound(b);
    RunKeeps(b, steps);
  }

  // ---- settled is settled ------------------------------------------------------------------

  predicate Terminal(b: Books) {
    b.settlement.Some? && b.settlement.value.state != RefundPending
  }

  lemma {:induction false} SettledForever(b: Books, steps: seq<PotStep>)
    requires Terminal(b)
    ensures var c := Run(b, steps);
            c.settlement == b.settlement && c.refunds == b.refunds && c.payouts == b.payouts
    decreases |steps|
  {
    if steps != [] {
      SettledForever(After(b, steps[0]), steps[1..]);
    }
  }

  // ---- refunds -----------------------------------------------------------------------------

  /** The refunds a finished refund has paid, whatever the batches and the donations between them:
  every entry of the round, once, in order, the fee, to an account of its player in the game's mint. */
  ghost function FullRefund(b: Books): seq<Payment> {
    var keys := Sorted(Entrants(b));
    seq(|keys|, i requires 0 <= i < |keys| =>
      Payment(keys[i], PlayerOf(b.ledger, keys[i]), b.mint, ENTRY_FEE))
  }

  lemma RefundedPaysEachOnce(b: Books)
    requires BooksSound(b) && b.settlement.Some? && b.settlement.value.state == PotRefunded
    ensures b.refunds == FullRefund(b)
    ensures b.settlement.value.totalSettled == Total(b.refunds) == ENTRY_FEE * b.round.participants
    ensures Balance(b) + b.swept == b.donated
  {
    var keys := Entries(b.refunds);
    MembersSize(keys);
    forall x | x in Members(keys) ensures x in Entrants(b) {
      var i :| 0 <= i < |keys| && keys[i] == x;
      assert b.refunds[i].entry in Entrants(b);
    }
    SubsetSize(Members(keys), Entrants(b));
    AscendingUnique(keys, Sorted(Entrants(b)));
    forall i | 0 <= i < |b.refunds| ensures b.refunds[i] == FullRefund(b)[i] {
      assert keys[i] == b.refunds[i].entry;
    }
    TotalFlat(b.refunds, ENTRY_FEE);
  }

  /** Nothing about the round or its entries moves once it is finalized. */
  lemma {:induction false} FinalizedIsFixed(b: Books, steps: seq<PotStep>)
    requires b.round.status == Finalized
    ensures var c := Run(b, steps);
            c.ledger == b.ledger && c.mint == b.mint && c.round.key == b.round.key && c.round.status == Finalized
            && c.round.participants == b.round.participants
    decreases |steps|
  {
    if steps != [] {
      FinalizedIsFixed(After(b, steps[0]), steps[1..]);
    }
  }

  /** At every moment of a refund the account's own figures are the truth. */
  lemma RefundFiguresAgree(b: Books, steps: seq<PotStep>)
    requires Opened(b)
    ensures var c := Run(b, steps);
            c.settlement.Some? && c.settlement.value.state != PotPaid ==>
              && c.settlement.value.recipientCount == |c.refunds|
              && c.settlement.value.totalSettled == Total(c.refunds)
              && c.settlement.value.totalSettled == c.settlement.value.perEntrant * c.settlement.value.recipientCount
  {
    OpenedIsSound(b);
    RunKeeps(b, steps);
    TotalFlat(Run(b, steps).refunds, ENTRY_FEE);
  }

  /** Two refunds of one finalized round, cut into batches in any two ways with any donations in
  between, have paid exactly the same. */
  lemma BatchShapeIsIrrelevant(b: Books, one: seq<PotStep>, other: seq<PotStep>)
    requires BooksSound(b) && b.round.status == Finalized
    requires var c, d := Run(b, one), Run(b, other);
             && c.settlement.Some? && c.settlement.value.state == PotRefunded
             && d.settlement.Some? && d.settlement.value.state == PotRefunded
    ensures Run(b, one).refunds == Run(b, other).refunds == FullRefund(b)
  {
    RunKeeps(b, one);
    RunKeeps(b, other);
    FinalizedIsFixed(b, one);
    FinalizedIsFixed(b, other);
    RefundedPaysEachOnce(Run(b, one));
    RefundedPaysEachOnce(Run(b, other));
  }

  lemma {:induction false} BatchNeverInsolvent(ledger: Ledger, round: Key, mint: Key, accounts: seq<Supplied>,
                                               i: nat, cursor: Key, vault: nat, per: nat)
    requires 2 * i <= |accounts| && |accounts| % 2 == 0
    requires (|accounts| / 2 - i) * per <= vault
    ensures BatchError(ledger, round, mint, accounts, i, cursor, vault, per) !in {Some(PotTooSmall), Some(MathOverflow)}
    decreases |accounts| - 2 * i
  {
    if 2 * i < |accounts| {
      var left := |accounts| / 2 - i;
      assert left * per == (left - 1) * per + per;
      if vault >= per {
        BatchNeverInsolvent(ledger, round, mint, accounts, i + 1, accounts[2 * i].key, vault - per, per);
      } else {
        MulMonotone(1, left, per);
      }
    }
  }

  lemma PendingVaultCovers(b: Books, r: SettlementRecord)
    requires BooksSound(b) && b.settlement == Some(r) && r.state == RefundPending
    ensures b.vault.Some? && b.vault.value == ENTRY_FEE * (r.entrantCount - r.recipientCount) + b.donated
  {
    TotalFlat(b.refunds, ENTRY_FEE);
  }

  /** A refund never runs out of money and its closing arithmetic never fails. */
  lemma RefundStaysSolvent(b: Books, s: PotStep)
    requires BooksSound(b) && s.Refund?
    ensures Next(b, s) != Refused(PotTooSmall) && Next(b, s) != Refused(MathOverflow)
  {
    if b.vault.Some? && (b.settlement.None? || b.settlement.value.state == RefundPending) {
      var n := b.round.participants;
      var terms := if b.settlement.Some? then b.settlement.value else FreezeTerms(n, b.vault.value, s.now);
      if b.settlement.None? {
        FrozenFee(b, s.now);
      } else {
        PendingVaultCovers(b, terms);
      }
      var batch := |s.accounts| / 2;
      if terms.state == RefundPending && |s.accounts| % 2 == 0 && terms.recipientCount + batch <= terms.entrantCount {
        assert batch * terms.perEntrant == batch * ENTRY_FEE;
        assert terms.perEntrant * terms.entrantCount == ENTRY_FEE * terms.entrantCount;
        MulMonotone(batch, terms.entrantCount - terms.recipientCount, ENTRY_FEE);
        BatchNeverInsolvent(b.ledger, b.round.key, b.mint, s.accounts, 0, terms.cursor, b.vault.value, ENTRY_FEE);
      }
    }
  }

  /** An unpaid entry the cursor has already passed. */
  predicate Skipped(b: Books, x: Key) {
    && b.settlement.Some? && b.settlement.value.state == RefundPending
    && x in Entrants(b) && x <= b.settlement.value.cursor && x !in Entries(b.refunds)
  }

  lemma SkippedStays(b: Books, s: PotStep, x: Key)
    requires BooksSound(b) && Skipped(b, x)
    ensures Skipped(After(b, s), x)
  {
    if Next(b, s).Done? && s.Refund? {
      var r := b.settlement.value;
      var f := PayBatch(b.ledger, b.round.key, b.mint, s.now, r, b.vault.value, s.accounts).value;
      StepKeeps(b, s);
      BatchPays(b.ledger, b.round.key, b.mint, s.accounts, r.cursor, b.vault.value);
      EntriesConcat(b.refunds, f.paid);
      assert forall i :: 0 <= i < |f.paid| ==> Entries(f.paid)[i] == f.paid[i].entry;
      assert x !in Entries(f.paid);
      if f.record.state == PotRefunded {
        RefundedIncludes(After(b, s), x);
      }
    }
  }

  lemma RefundedIncludes(b: Books, x: Key)
    requires BooksSound(b) && b.settlement.Some? && b.settlement.value.state == PotRefunded
    requires x in Entrants(b)
    ensures x in Entries(b.refunds)
  {
    RefundedPaysEachOnce(b);
    var keys := Sorted(Entrants(b));
    assert x in Members(keys);
    var i :| 0 <= i < |keys| && keys[i] == x;
    assert Entries(b.refunds)[i] == x;
  }

  /** A skipped player is never absorbed: no continuation completes the refund, and the vault can
  never be closed over them. */
  lemma {:induction false} SkippedNeverRefunded(b: Books, steps: seq<PotStep>, x: Key)
    requires BooksSound(b) && Skipped(b, x)
    ensures Skipped(Run(b, steps), x)
    ensures forall ok :: Next(Run(b, steps), CloseVault(ok)).Refused?
    decreases |steps|
  {
    if steps != [] {
      StepKeeps(b, steps[0]);
      SkippedStays(b, steps[0], x);
      SkippedNeverRefunded(After(b, steps[0]), steps[1..], x);
    }
  }

  /** A reveal that lands in the middle of a refund stops both ways out, for good: nothing more
  is refunded, nothing is distributed, and the vault stays open with the rest. */
  lemma {:induction false} LateRevealStopsBoth(b: Books, steps: seq<PotStep>)
    requires b.settlement.Some? && b.settlement.value.state == RefundPending && b.round.revealed && b.vault.Some?
    ensures var c := Run(b, steps);
            c.settlement == b.settlement && c.refunds == b.refunds && c.payouts == b.payouts
            && c.vault.Some? && Balance(c) >= Balance(b)
    decreases |steps|
  {
    if steps != [] {
      LateRevealStopsBoth(After(b, steps[0]), steps[1..]);
    }
  }

  function TwoPlayerPot(): Books {
    Books(PotRound(7, Open, 0, false, [0, 0, 0], 0), 5, 10, map[], Some(0), None, 0, 0, 0, [], [])
  }

  /** Two entries, one of them refunded when the reveal lands. */
  function LateReveal(): seq<PotStep> {
    [Enter(-1, 1, 11, 0, true), Enter(-1, 2, 12, 0, true), CloseRound(true), FinalizeRound(true),
     Refund(true, POT_REFUND_MIN_AGE, [Supplied(1, None), Supplied(21, Some((11, 5)))]), RevealRound([1, 2, 0])]
  }

  /** And such a reveal can land: the player not yet refunded is stuck with it. */
  lemma LateRevealIsReachable()
    ensures Opened(TwoPlayerPot())
    ensures var c := Run(TwoPlayerPot(), LateReveal());
            && c.settlement.Some? && c.settlement.value.state == RefundPending && c.round.revealed && c.vault.Some?
            && Entries(c.refunds) == [1] && Entrants(c) == {1, 2}
  {
    hide PayBatch, Run;
    var b, s := TwoPlayerPot(), LateReveal();
    var b4 := After(After(After(After(b, s[0]), s[1]), s[2]), s[3]);
    assert Entrants(b4) == {1, 2} && b4.vault == Some(2 * ENTRY_FEE);
    LateBatch(b4);
    var b6 := After(After(b4, s[4]), s[5]);
    RunSix(b, s);
  }

  lemma LateBatch(b: Books)
    requires b.round == PotRound(7, Finalized, 2, false, [0, 0, 0], 0) && b.mint == 5 && b.settlement.None?
    requires b.vault == Some(2 * ENTRY_FEE) && b.refunds == []
    requires b.ledger == map[1 := Entry(7, 11, false, 0, 0), 2 := Entry(7, 12, false, 0, 0)]
    ensures var c := After(b, LateReveal()[4]);
            && c == b.(settlement := c.settlement, vault := c.vault, refunds := c.refunds) && c.vault.Some?
            && c.settlement.Some? && c.settlement.value.state == RefundPending && Entries(c.refunds) == [1]
  {
    var terms, accounts := FreezeTerms(2, 2 * ENTRY_FEE, POT_REFUND_MIN_AGE), LateReveal()[4].accounts;
    assert terms.perEntrant == ENTRY_FEE;
    assert BatchError(b.ledger, 7, 5, accounts, 1, 1, ENTRY_FEE, ENTRY_FEE) == None;
    assert BatchError(b.ledger, 7, 5, accounts, 0, 0, 2 * ENTRY_FEE, ENTRY_FEE) == None;
  }

  lemma RunSix(b: Books, s: seq<PotStep>)
    requires |s| == 6
    ensures Run(b, s) == After(After(After(After(After(After(b, s[0]), s[1]), s[2]), s[3]), s[4]), s[5])
  {
    hide After, Run;
    RunThree(b, s);
    RunThree(After(After(After(b, s[0]), s[1]), s[2]), s[3..]);
    assert s[3..][3..] == [];
    RunNone(After(After(After(After(After(After(b, s[0]), s[1]), s[2]), s[3]), s[4]), s[5]));
  }

  /** The second of two entries is refunded first. */
  function SkippingRefund(): seq<PotStep> {
    [Enter(-1, 1, 11, 0, true), Enter(-1, 2, 12, 0, true), CloseRound(true), FinalizeRound(true),
     Refund(true, POT_REFUND_MIN_AGE, [Supplied(2, None), Supplied(22, Some((12, 5)))])]
  }

  /** A batch may begin anywhere past the cursor: then the first player is out for good. */
  lemma SkippedIsReachable()
    ensures Opened(TwoPlayerPot()) && Skipped(Run(TwoPlayerPot(), SkippingRefund()), 1)
  {
    hide PayBatch, Run;
    var b, s := TwoPlayerPot(), SkippingRefund();
    var b4 := After(After(After(After(b, s[0]), s[1]), s[2]), s[3]);
    assert Entrants(b4) == {1, 2} && b4.vault == Some(2 * ENTRY_FEE);
    SkippingBatch(b4);
    RunThree(b, s);
    RunTwo(After(After(After(b, s[0]), s[1]), s[2]), s[3..]);
  }

  lemma SkippingBatch(b: Books)
    requires b.round == PotRound(7, Finalized, 2, false, [0, 0, 0], 0) && b.mint == 5 && b.settlement.None?
    requires b.vault == Some(2 * ENTRY_FEE) && b.refunds == []
    requires b.ledger == map[1 := Entry(7, 11, false, 0, 0), 2 := Entry(7, 12, false, 0, 0)]
    ensures Skipped(After(b, SkippingRefund()[4]), 1)
  {
    var terms, accounts := FreezeTerms(2, 2 * ENTRY_FEE, POT_REFUND_MIN_AGE), SkippingRefund()[4].accounts;
    assert terms.perEntrant == ENTRY_FEE;
    assert BatchError(b.ledger, 7, 5, accounts, 1, 2, ENTRY_FEE, ENTRY_FEE) == None;
    assert BatchError(b.ledger, 7, 5, accounts, 0, 0, 2 * ENTRY_FEE, ENTRY_FEE) == None;
  }

  lemma RunTwo(b: Books, s: seq<PotStep>)
    requires |s| == 2
    ensures Run(b, s) == After(After(b, s[0]), s[1])
  {
    hide After;
    assert s[1..] == [s[1]];
    RunOne(After(b, s[0]), s[1]);
  }

  lemma RunOne(b: Books, s: PotStep)
    ensures Run(b, [s]) == After(b, s)
  {
    hide After;
    RunNone(After(b, s));
    assert [s][1..] == [];
  }

  lemma RunNone(b: Books)
    ensures Run(b, []) == b
  {
  }

  lemma RunThree(b: Books, s: seq<PotStep>)
    requires |s| >= 3
    ensures Run(b, s) == Run(After(After(After(b, s[0]), s[1]), s[2]), s[3..])
  {
    hide After;
    assert s[1..][1..] == s[2..] && s[2..][1..] == s[3..];
    assert Run(b, s) == Run(After(b, s[0]), s[1..]);
    assert Run(After(b, s[0]), s[1..]) == Run(After(After(b, s[0]), s[1]), s[2..]);
  }

  // ---- exactly what is accepted ------------------------------------------------------------

  /** The last entry refunded so far: where the next batch has to start after. */
  function LastRefunded(b: Books): Key {
    if b.refunds == [] then DEFAULT_KEY else b.refunds[|b.refunds| - 1].entry
  }

  /** Pairs of an entry of this round and its player's account, ascending past the last refunded entry,
  no more than there are entries left. */
  predicate NextBatch(b: Books, accounts: seq<Supplied>) {
    && |accounts| % 2 == 0 && 0 < |accounts| / 2 <= b.round.participants - |b.refunds|
    && (forall j :: 0 <= j < |accounts| / 2 ==>
          && LastRefunded(b) < accounts[2 * j].key && accounts[2 * j].key in Entrants(b)
          && PlayersAccount(b.ledger, b.mint, accounts[2 * j].key, accounts[2 * j + 1]))
    && (forall j, k :: 0 <= j < k < |accounts| / 2 ==> accounts[2 * j].key < accounts[2 * k].key)
  }

  /** In every reachable state a refund batch goes through if and only if the round ended unrevealed a week
  ago, nothing else has been decided, and the batch is a next one. */
  lemma RefundIsDecided(b: Books, s: PotStep)
    requires BooksSound(b) && s.Refund?
    ensures Next(b, s).Done?
       <==> && s.isAuthority && b.vault.Some? && b.mint != DEFAULT_KEY
            && b.round.status == Finalized && !b.round.revealed && s.now >= b.round.endTime + 7 * 24 * 60 * 60
            && (b.settlement.Some? ==> b.settlement.value.state == RefundPending)
            && (b.round.participants > 0 ==> NextBatch(b, s.accounts))
  {
    hide BatchError, FreezeTerms, NamesWinners, RoundEntries, BatchPayments, Ascending, Conserved;
    if b.vault.Some? && (b.settlement.Some? ==> b.settlement.value.state == RefundPending) {
      var terms := if b.settlement.Some? then b.settlement.value else FreezeTerms(b.round.participants, b.vault.value, s.now);
      if b.settlement.None? {
        FrozenFee(b, s.now);
      } else {
        PendingVaultCovers(b, terms);
      }
      if b.round.participants > 0 && |s.accounts| % 2 == 0 {
        BatchDecided(b.ledger, b.round.key, b.mint, s.accounts, 0, terms.cursor, b.vault.value, ENTRY_FEE);
        RefundStaysSolvent(b, s);
        BatchAffordable(b, terms, |s.accounts| / 2);
      }
    }
  }

  lemma BatchAffordable(b: Books, terms: SettlementRecord, n: nat)
    requires BooksSound(b) && b.vault.Some? && terms.entrantCount == b.round.participants
    requires if b.settlement.Some? then terms == b.settlement.value && terms.state == RefundPending
             else terms.recipientCount == 0 && b.round.participants > 0
    ensures n <= terms.entrantCount - terms.recipientCount ==> n * ENTRY_FEE <= b.vault.value
  {
    if b.settlement.Some? {
      PendingVaultCovers(b, terms);
    } else {
      UndecidedPot(b);
    }
  }

  /** What the settlement account says after a refund batch: how far the refund has come, and for how much
  of which pot. */
  lemma RefundRecord(b: Books, s: PotStep)
    requires BooksSound(b) && s.Refund? && Next(b, s).Done?
    ensures var c, n := After(b, s), b.round.participants;
            && c.settlement.Some?
            && var r := c.settlement.value;
               && (|c.refunds| == n ==> r.state == PotRefunded && r.settledAt == s.now)
               && (|c.refunds| < n ==> r.state == RefundPending && r.settledAt == 0)
               && r.entrantCount == n && r.perEntrant == (if n == 0 then 0 else ENTRY_FEE)
               && r.recipientCount == |c.refunds| && r.totalSettled == ENTRY_FEE * |c.refunds| && r.cursor == LastRefunded(c)
               && (if b.settlement.Some? then
                     var was := b.settlement.value;
                     r.totalPot == was.totalPot && r.surplus == was.surplus && r.startedAt == was.startedAt
                   else
                     r.totalPot == b.vault.value && r.surplus == r.totalPot - ENTRY_FEE * n && r.startedAt == s.now)
  {
    hide NamesWinners, RoundEntries, Ascending, FreezeTerms, BatchError, BatchPayments;
    StepKeeps(b, s);
    if b.settlement.None? {
      FrozenFee(b, s.now);
    }
  }

  /** In every reachable state a distribution goes through if and only if the finalized round is revealed,
  nothing has been decided, and each of its winners in turn is beside an account of its own player. */
  lemma DistributionIsDecided(b: Books, s: PotStep)
    requires BooksSound(b) && s.Distribute?
    ensures Next(b, s).Done?
       <==> && s.ok && b.vault.Some? && b.mint != DEFAULT_KEY && b.settlement.None?
            && b.round.status == Finalized && b.round.revealed
            && |s.accounts| == 2 * Min(REVEAL_TOP_K, b.round.participants)
            && forall i :: 0 <= i < |s.accounts| / 2 ==>
                 && s.accounts[2 * i].key == b.round.top[i]
                 && PlayersAccount(b.ledger, b.mint, b.round.top[i], s.accounts[2 * i + 1])
  {
    hide Winners, PayoutError, Payouts, Entries;
    if b.round.revealed && b.settlement.None? {
      WinnersOfNamed(Entrants(b), b.round.top);
      UndecidedPot(b);
      var winners := Winners(b.round.top);
      if |s.accounts| == 2 * |winners| {
        PayoutDecided(b.ledger, b.mint, winners, s.accounts, 0);
      }
    }
  }

  /** In every reachable state the vault can be closed if and only if payout or refund is complete, or the
  finalized round had no entrants; and then the whole balance is swept. */
  lemma CloseIsDecided(b: Books, ok: bool)
    requires BooksSound(b)
    ensures Next(b, CloseVault(ok)).Done?
       <==> ok && b.vault.Some? && (Terminal(b) || (b.settlement.None? && b.round.status == Finalized && b.round.participants == 0))
    ensures Next(b, CloseVault(ok)).Done? ==>
              && After(b, CloseVault(ok)).vault == None && After(b, CloseVault(ok)).swept == b.swept + b.vault.value
  {
    hide NamesWinners, RoundEntries, Ascending, Entries;
  }

  /** A second settlement is turned away by the name of the first. */
  lemma SettledOnce(b: Books, s: PotStep)
    requires BooksSound(b) && b.settlement.Some? && b.vault.Some? && b.mint != DEFAULT_KEY
    ensures s.Distribute? && s.ok ==>
              Next(b, s) == Refused(if b.settlement.value.state == PotPaid then AlreadyDistributed else AlreadyRefunded)
    ensures s.Refund? && s.isAuthority && !b.round.revealed && s.now >= b.round.endTime + 7 * 24 * 60 * 60 ==>
              (b.settlement.value.state == PotRefunded ==> Next(b, s) == Refused(AlreadyRefunded))
    ensures b.settlement.value.state == RefundPending ==> Next(b, CloseVault(true)) == Refused(RefundIncomplete)
  {
    hide NamesWinners, RoundEntries, Ascending, Entries;
  }

  /** A round only ever goes from open to closed to finalized, one authorised step each. */
  lemma StatusAdvances(b: Books, s: PotStep)
    ensures After(b, s).round.status
         == if s == CloseRound(true) && b.round.status == Open then Closed
            else if s == FinalizeRound(true) && b.round.status == Closed then Finalized
            else b.round.status
  {
    hide RefundUnrevealedPot, DistributePot, ClosePotVault, NamesWinners;
  }

  // ---- who entered, and who is paid for it -------------------------------------------------

  /** In every reachable state an entry is accepted if and only if the round is open, its deadline not reached
  and not full, the address new, and the fee there; it then belongs to its player. */
  lemma EnterIsDecided(b: Books, s: PotStep)
    requires BooksSound(b) && s.Enter?
    ensures Next(b, s).Done?
       <==> && s.funded && b.vault.Some? && b.mint != DEFAULT_KEY && s.entry != DEFAULT_KEY && s.entry !in b.ledger
            && b.round.status == Open && s.now < b.round.endTime && |Entrants(b)| < b.capacity
    ensures Next(b, s).Done? ==>
              && Entrants(After(b, s)) == Entrants(b) + {s.entry} && PlayerOf(After(b, s).ledger, s.entry) == s.player
              && After(b, s).vault == Some(b.vault.value + 100_000_000)
  {
    hide SettlementSound, NamesWinners;
  }

  /** Who entered x in a run, before the deadline and within the capacity. */
  function EnteredBy(b: Books, steps: seq<PotStep>, x: Key): Option<Key>
    decreases |steps|
  {
    if steps == [] then None
    else if steps[0].Enter? && steps[0].entry == x && Next(b, steps[0]).Done? then Some(steps[0].player)
    else EnteredBy(After(b, steps[0]), steps[1..], x)
  }

  lemma LedgerAfter(b: Books, s: PotStep, x: Key)
    requires BooksSound(b)
    ensures var c := After(b, s);
            && c.round.key == b.round.key
            && (x in Entrants(b) ==> x in Entrants(c) && PlayerOf(c.ledger, x) == PlayerOf(b.ledger, x))
            && (x !in b.ledger && s.Enter? && s.entry == x && Next(b, s).Done? ==>
                  x in Entrants(c) && PlayerOf(c.ledger, x) == s.player)
            && (x !in b.ledger && !(s.Enter? && s.entry == x && Next(b, s).Done?) ==> x !in c.ledger)
  {
    hide SettlementSound, NamesWinners, RefundUnrevealedPot, DistributePot, ClosePotVault;
  }

  /** Over every run: the round's entries are exactly the accepted ones, each its own player's - the player
  that RefundedPaysEachOnce and DistributionDrains pay. */
  lemma {:induction false} EntriesAreEntered(b: Books, steps: seq<PotStep>, x: Key)
    requires BooksSound(b) && x !in b.ledger
    ensures var c := Run(b, steps);
            && (x in Entrants(c) <==> EnteredBy(b, steps, x).Some?)
            && (x in Entrants(c) ==> Some(PlayerOf(c.ledger, x)) == EnteredBy(b, steps, x))
    decreases |steps|
  {
    hide After, Next, BooksSound, PlayerOf, RoundEntries;
    if steps == [] {
      NotAnEntrant(b, x);
    } else {
      StepKeeps(b, steps[0]);
      LedgerAfter(b, steps[0], x);
      if steps[0].Enter? && steps[0].entry == x && Next(b, steps[0]).Done? {
        EntryStays(After(b, steps[0]), steps[1..], x);
      } else {
        EntriesAreEntered(After(b, steps[0]), steps[1..], x);
      }
    }
  }

  lemma NotAnEntrant(b: Books, x: Key)
    requires x !in b.ledger
    ensures x !in Entrants(b)
  {
  }

  lemma {:induction false} EntryStays(b: Books, steps: seq<PotStep>, x: Key)
    requires BooksSound(b) && x in Entrants(b)
    ensures x in Entrants(Run(b, steps)) && PlayerOf(Run(b, steps).ledger, x) == PlayerOf(b.ledger, x)
    decreases |steps|
  {
    hide After, Next, BooksSound, PlayerOf, RoundEntries;
    if steps != [] {
      StepKeeps(b, steps[0]);
      LedgerAfter(b, steps[0], x);
      EntryStays(After(b, steps[0]), steps[1..], x);
    }
  }

  // ---- when a refund can finish ------------------------------------------------------------

  function Unpaid(b: Books): set<Key> {
    set x | x in Entrants(b) && x !in Entries(b.refunds)
  }

  /** What the operator can read off the accounts: no reveal, and nobody unpaid behind the cursor. */
  predicate RefundOpen(b: Books)
    requires b.settlement.Some?
  {
    !b.round.revealed && b.mint != DEFAULT_KEY && forall x :: x in Unpaid(b) ==> b.settlement.value.cursor < x
  }

  /** Each entry followed by its player's token account. */
  function RefundPairs(b: Books, keys: seq<Key>): (accounts: seq<Supplied>)
    ensures |accounts| == 2 * |keys|
  {
    seq(2 * |keys|, i requires 0 <= i < 2 * |keys| =>
      if i % 2 == 0 then Supplied(keys[i / 2], None)
      else Supplied(PlayerOf(b.ledger, keys[i / 2]), Some((PlayerOf(b.ledger, keys[i / 2]), b.mint))))
  }

  lemma PairAt(b: Books, keys: seq<Key>, i: nat)
    requires i < |keys|
    ensures var accounts := RefundPairs(b, keys);
            && accounts[2 * i].key == keys[i]
            && accounts[2 * i + 1].token == Some((PlayerOf(b.ledger, keys[i]), b.mint))
  {
  }

  lemma PairsAccepted(b: Books, keys: seq<Key>, cursor: Key, vault: nat)
    requires Ascending(keys) && (keys != [] ==> cursor < keys[0])
    requires Members(keys) <= Entrants(b) && ENTRY_FEE * |keys| <= vault
    ensures BatchError(b.ledger, b.round.key, b.mint, RefundPairs(b, keys), 0, cursor, vault, ENTRY_FEE) == None
  {
    hide RefundPairs;
    var accounts := RefundPairs(b, keys);
    forall i | 0 <= i < |keys|
      ensures accounts[2 * i].key == keys[i] && cursor < keys[i] && keys[i] in Entrants(b)
      ensures PlayersAccount(b.ledger, b.mint, keys[i], accounts[2 * i + 1])
    {
      PairAt(b, keys, i);
      assert keys[i] in Members(keys) && keys[0] <= keys[i];
    }
    BatchDecided(b.ledger, b.round.key, b.mint, accounts, 0, cursor, vault, ENTRY_FEE);
  }

  lemma UnpaidSize(b: Books)
    requires BooksSound(b) && b.settlement.Some? && b.settlement.value.state == RefundPending
    ensures |Unpaid(b)| == b.round.participants - |b.refunds| > 0
  {
    var paid := Members(Entries(b.refunds));
    MembersSize(Entries(b.refunds));
    forall x | x in paid ensures x in Entrants(b) {
      var i :| 0 <= i < |b.refunds| && Entries(b.refunds)[i] == x;
      assert b.refunds[i].entry in Entrants(b);
    }
    assert Unpaid(b) == Entrants(b) - paid;
    assert Entrants(b) == Unpaid(b) + paid;
  }

  /** One batch over everyone still unpaid closes an open refund. */
  ghost function LastBatch(b: Books): PotStep {
    Refund(true, b.round.endTime + POT_REFUND_MIN_AGE, RefundPairs(b, Sorted(Unpaid(b))))
  }

  lemma LastBatchFinishes(b: Books)
    requires BooksSound(b) && b.settlement.Some? && b.settlement.value.state == RefundPending && RefundOpen(b)
    ensures Next(b, LastBatch(b)).Done? && Terminal(After(b, LastBatch(b)))
  {
    hide Entries, BatchError, FreezeTerms, NamesWinners, Conserved, RefundPairs, BatchPayments;
    var keys, r := Sorted(Unpaid(b)), b.settlement.value;
    UnpaidSize(b);
    MembersSize(keys);
    PendingVaultCovers(b, r);
    assert keys[0] in Members(keys);
    PairsAccepted(b, keys, r.cursor, b.vault.value);
    RefundStaysSolvent(b, LastBatch(b));
  }

  lemma StuckStays(b: Books, steps: seq<PotStep>)
    requires BooksSound(b) && b.settlement.Some? && b.settlement.value.state == RefundPending && !RefundOpen(b)
    ensures !Terminal(Run(b, steps))
  {
    if b.round.revealed {
      LateRevealStopsBoth(b, steps);
    } else if b.mint == DEFAULT_KEY {
      NoMintNoRefund(b, steps);
    } else {
      var x :| x in Unpaid(b) && x <= b.settlement.value.cursor;
      SkippedNeverRefunded(b, steps, x);
    }
  }

  lemma {:induction false} NoMintNoRefund(b: Books, steps: seq<PotStep>)
    requires b.settlement.Some? && b.settlement.value.state == RefundPending && b.mint == DEFAULT_KEY
    ensures Run(b, steps).settlement == b.settlement
    decreases |steps|
  {
    if steps != [] {
      NoMintNoRefund(After(b, steps[0]), steps[1..]);
    }
  }

  /** A refund under way can still be completed if and only if nothing was revealed meanwhile and
  every unpaid entry lies past the cursor: there is no third way to get stuck. */
  lemma RefundCanFinish(b: Books)
    requires BooksSound(b) && b.settlement.Some? && b.settlement.value.state == RefundPending
    ensures RefundOpen(b) <==> exists steps :: Terminal(Run(b, steps))
  {
    hide *;
    if RefundOpen(b) {
      LastBatchFinishes(b);
      RunOne(b, LastBatch(b));
      assert Terminal(Run(b, [LastBatch(b)]));
    } else {
      forall steps ensures !Terminal(Run(b, steps)) {
        StuckStays(b, steps);
      }
    }
  }

  // ---- distribution ------------------------------------------------------------------------

  /** A distribution pays the revealed winners, each at least one unit, and drains the vault. */
  lemma DistributionDrains(b: Books, s: PotStep)
    requires BooksSound(b) && s.Distribute? && Next(b, s).Done?
    ensures var c, k := After(b, s), Min(REVEAL_TOP_K, |Entrants(b)|);
            && k >= 1 && c.vault == Some(0) && |c.payouts| == k
            && c.settlement == Some(Settled(PotPaid, b.vault.value, k, s.now, 0, 0, 0, 0, DEFAULT_KEY, 0))
            && Entries(c.payouts) == b.round.top[..k] && Distinct(Entries(c.payouts))
            && Total(c.payouts) == b.vault.value == b.fees + b.donated
            && (forall i :: 0 <= i < k ==>
                  && c.payouts[i].entry in Entrants(b)
                  && c.payouts[i].to == PlayerOf(b.ledger, c.payouts[i].entry) && c.payouts[i].mint == b.mint
                  && c.payouts[i].amount >= 1)
            && (forall i :: 0 <= i < k - 1 ==> c.payouts[i].amount == c.payouts[0].amount)
            && c.payouts[0].amount <= c.payouts[k - 1].amount < c.payouts[0].amount + k
  {
    hide Next, After, Winners, SettlementSound, NamesWinners;
    DistributeEffect(b, s);
    var winners, pot := Winners(b.round.top), b.vault.value;
    SharesExhaustPot(winners, s.accounts, pot);
    PayoutsAreFair(b.ledger, b.mint, winners, s.accounts, pot);
  }

  lemma DistributeEffect(b: Books, s: PotStep)
    requires BooksSound(b) && s.Distribute? && Next(b, s).Done?
    ensures b.vault.Some?
    ensures var winners := Winners(b.round.top);
            && |winners| == Min(REVEAL_TOP_K, |Entrants(b)|) <= |b.round.top|
            && winners == b.round.top[..Min(REVEAL_TOP_K, |Entrants(b)|)] && Distinct(winners)
            && 0 < |winners| <= b.vault.value == b.fees + b.donated
            && (forall x :: x in winners ==> x in Entrants(b))
            && |s.accounts| == 2 * |winners| && PayoutError(b.ledger, b.mint, winners, s.accounts, 0) == None
            && After(b, s).vault == Some(0) && After(b, s).payouts == Payouts(winners, s.accounts, b.vault.value)
            && After(b, s).settlement == Some(PaidRecord(b.vault.value, |winners|, s.now))
  {
    var winners, pot := Winners(b.round.top), b.vault.value;
    WinnersOfNamed(Entrants(b), b.round.top);
    UndecidedPot(b);
    assert After(b, s).payouts == [] + Payouts(winners, s.accounts, pot) == Payouts(winners, s.accounts, pot);
  }

  lemma PayoutsAreFair(ledger: Ledger, mint: Key, winners: seq<Key>, accounts: seq<Supplied>, pot: nat)
    requires 0 < |winners| <= pot && |accounts| == 2 * |winners|
    requires PayoutError(ledger, mint, winners, accounts, 0) == None
    ensures var p, k := Payouts(winners, accounts, pot), |winners|;
            && Entries(p) == winners
            && (forall i :: 0 <= i < k ==>
                  p[i].entry in winners && p[i].to == PlayerOf(ledger, p[i].entry) && p[i].mint == mint && p[i].amount >= 1)
            && (forall i :: 0 <= i < k - 1 ==> p[i].amount == p[0].amount)
            && p[0].amount <= p[k - 1].amount < p[0].amount + k
  {
    var p := Payouts(winners, accounts, pot);
    PayoutDecided(ledger, mint, winners, accounts, 0);
    forall i | 0 <= i < |winners| ensures p[i].amount >= 1 && p[i].entry in winners {
      SharesAreFair(pot, |winners|, i);
      assert winners[i] in winners;
    }
    SharesAreFair(pot, |winners|, 0);
  }

  lemma {:induction false} PayoutErrorKinds(ledger: Ledger, mint: Key, winners: seq<Key>, accounts: seq<Supplied>, i: nat)
    requires i <= |winners| && |accounts| == 2 * |winners|
    ensures PayoutError(ledger, mint, winners, accounts, i) != Some(PotTooSmall)
    decreases |winners| - i
  {
    if i < |winners| {
      PayoutErrorKinds(ledger, mint, winners, accounts, i + 1);
    }
  }

  /** In any state at all, reachable or not: a distribution pays everything or nothing. Without a winner or
  without a balance it settles for nothing; a balance of fewer units than winners is refused; and else each
  winner gets at least one unit and nothing is left. */
  lemma DistributionPaysAllOrNothing(round: PotRound, mint: Key, now: int, ledger: Ledger, vault: nat, accounts: seq<Supplied>)
    requires round.status == Finalized && round.revealed && mint != DEFAULT_KEY
    ensures var k, d := |Winners(round.top)|, DistributePot(true, round, mint, now, ledger, None, vault, accounts);
            && (k == 0 || vault == 0 ==> d == Done(Effect(Settled(PotPaid, 0, 0, now, 0, 0, 0, 0, DEFAULT_KEY, 0), vault, [])))
            && (0 < vault < k ==> d == Refused(PotTooSmall))
            && (0 < k <= vault && d.Done? ==>
                  && Total(d.value.paid) == vault && d.value.vault == 0 && |d.value.paid| == k
                  && forall i :: 0 <= i < k ==> d.value.paid[i].amount >= 1)
            && (d == Refused(PotTooSmall) ==> 0 < vault < k)
  {
    hide Winners, PayoutError;
    var winners := Winners(round.top);
    if 0 < |winners| <= vault && |accounts| == 2 * |winners| {
      SharesExhaustPot(winners, accounts, vault);
      forall i | 0 <= i < |winners| ensures ShareOf(vault, |winners|, i) >= 1 {
        SharesAreFair(vault, |winners|, i);
      }
      PayoutErrorKinds(ledger, mint, winners, accounts, 0);
    }
  }

  /** The pot is never too small to split. */
  lemma DistributionNeverTooSmall(b: Books, s: PotStep)
    requires BooksSound(b) && s.Distribute?
    ensures Next(b, s) != Refused(PotTooSmall)
  {
    if b.round.revealed {
      WinnersOfNamed(Entrants(b), b.round.top);
      if b.settlement.None? {
        UndecidedPot(b);
      }
      if |s.accounts| == 2 * |Winners(b.round.top)| {
        PayoutErrorKinds(b.ledger, b.mint, Winners(b.round.top), s.accounts, 0);
      }
    }
  }
}
