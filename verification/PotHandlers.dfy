/** refund_unrevealed_pot, distribute_pot and close_pot_vault as the program runs them: one
settlement account updated field by field, one vault drawn down transfer by transfer. */
module PotHandlers {
  import opened Ranking
  import opened Accounts
  import opened Settlement

  const STATE_NONE := 0
  const STATE_PENDING := 1
  const STATE_PAID := 2
  const STATE_REFUNDED := 3

  class TokenVault {
    var amount: nat

    /** A signed transfer out of the vault; the token program refuses to overdraw it. */
    method Transfer(quantity: nat)
      requires quantity <= amount
      modifies this
      ensures amount == old(amount) - quantity
    {
      amount := amount - quantity;
    }
  }

  function StateOf(state: nat): SettlementState {
    if state == STATE_PAID then PotPaid else if state == STATE_REFUNDED then PotRefunded else RefundPending
  }

  /** A zero round id marks an account that no instruction has written yet. */
  class RoundSettlement {
    var roundId: nat
    var state: nat
    var totalSettled: nat
    var recipientCount: nat
    var settledAt: int
    var entrantCount: nat
    var perEntrant: nat
    var totalPot: nat
    var surplus: nat
    var cursor: Key
    var startedAt: int

    predicate Valid()
      reads this
    {
      && state <= STATE_REFUNDED
      && (roundId == 0 ==> state == STATE_NONE && entrantCount == perEntrant == totalPot == surplus == 0
                           && cursor == DEFAULT_KEY && startedAt == 0)
      && (roundId != 0 ==> state != STATE_NONE)
    }

    function Fields(): SettlementRecord
      reads this
    {
      Settled(StateOf(state), totalSettled, recipientCount, settledAt, entrantCount, perEntrant, totalPot, surplus, cursor, startedAt)
    }

    function View(): Option<SettlementRecord>
      reads this
    {
      if roundId == 0 then None else Some(Fields())
    }

    method Freeze(participants: nat, vault: nat, now: int)
      modifies this
      ensures Fields() == FreezeTerms(participants, vault, now) && roundId == old(roundId)
      ensures state == if FreezeTerms(participants, vault, now).state == PotRefunded then STATE_REFUNDED else STATE_PENDING
    {
      state := STATE_PENDING;
      entrantCount, recipientCount := participants, 0;
      totalPot, totalSettled := vault, 0;
      cursor, startedAt, settledAt := DEFAULT_KEY, now, 0;
      var affordable := if participants == 0 then 0 else vault / participants;
      perEntrant := Min(ENTRY_FEE, affordable);
      var owed := perEntrant * participants;
      if participants > 0 {
        ShareFits(vault, participants, perEntrant);
      }
      surplus := vault - owed;
      if participants == 0 || perEntrant == 0 {
        state, settledAt := STATE_REFUNDED, now;
      }
    }

    method MarkPaid(total: nat, k: nat, now: int)
      modifies this
      ensures state == STATE_PAID && roundId == old(roundId)
      ensures Fields() == old(Fields()).(state := PotPaid, totalSettled := total, recipientCount := k, settledAt := now)
    {
      state, totalSettled, recipientCount, settledAt := STATE_PAID, total, k, now;
    }
  }

  method CheckToken(ledger: Ledger, mint: Key, entry: Key, account: Supplied, stranger: PotError) returns (e: Option<PotError>)
    requires entry in ledger
    ensures e == TokenError(ledger, mint, entry, account, stranger)
  {
    if account.token.None? {
      return Some(NotATokenAccount);
    }
    if account.token.value.0 != ledger[entry].player {
      return Some(stranger);
    }
    if account.token.value.1 != mint {
      return Some(WrongMint);
    }
    e := None;
  }

  /** One pair: checked, paid and booked, or answered with its first objection. */
  method PayEntrant(settlement: RoundSettlement, vault: TokenVault, ledger: Ledger, round: Key, mint: Key,
                    entry: Supplied, account: Supplied) returns (e: Option<PotError>)
    modifies settlement, vault
    ensures e == PairError(ledger, round, mint, entry, account,
                           old(settlement.cursor), old(vault.amount), old(settlement.perEntrant))
    ensures settlement.roundId == old(settlement.roundId) && settlement.state == old(settlement.state)
    ensures e.None? ==>
              && entry.key in ledger && old(settlement.perEntrant) <= old(vault.amount)
              && vault.amount == old(vault.amount) - old(settlement.perEntrant)
              && settlement.Fields() == old(settlement.Fields()).(
                   totalSettled := old(settlement.totalSettled) + old(settlement.perEntrant),
                   recipientCount := old(settlement.recipientCount) + 1,
                   cursor := entry.key)
  {
    if entry.key <= settlement.cursor {
      return Some(OrderInvalid);
    }
    if entry.key !in ledger {
      return Some(UnknownEntry);
    }
    if ledger[entry.key].round != round {
      return Some(WrongRound);
    }
    e := CheckToken(ledger, mint, entry.key, account, WrongOwner);
    if e.Some? {
      return;
    }
    if vault.amount < settlement.perEntrant {
      return Some(PotTooSmall);
    }
    vault.Transfer(settlement.perEntrant);
    settlement.totalSettled := settlement.totalSettled + settlement.perEntrant;
    settlement.recipientCount := settlement.recipientCount + 1;
    settlement.cursor := entry.key;
  }

  /** The settlement after n paid pairs of a batch. */
  function Advanced(was: SettlementRecord, accounts: seq<Supplied>, n: nat): SettlementRecord
    requires 2 * n <= |accounts|
  {
    was.(totalSettled := was.totalSettled + n * was.perEntrant,
         recipientCount := was.recipientCount + n,
         cursor := if n == 0 then was.cursor else accounts[2 * (n - 1)].key)
  }

  /** The batch loop pays pair after pair and stops at the first objection. */
  method PayBatchInPlace(settlement: RoundSettlement, vault: TokenVault, ledger: Ledger, round: Key, mint: Key,
                         accounts: seq<Supplied>, batch: nat) returns (e: Option<PotError>, paid: seq<Payment>)
    requires |accounts| == 2 * batch
    modifies settlement, vault
    ensures var was, per := old(settlement.Fields()), old(settlement.perEntrant);
            && e == BatchError(ledger, round, mint, accounts, 0, was.cursor, old(vault.amount), per)
            && settlement.roundId == old(settlement.roundId) && settlement.state == old(settlement.state)
            && (e.None? ==>
                  && paid == BatchPayments(accounts, per, batch)
                  && batch * per <= old(vault.amount) && vault.amount == old(vault.amount) - batch * per
                  && settlement.Fields() == Advanced(was, accounts, batch))
  {
    hide PairError;
    ghost var was, start := settlement.Fields(), vault.amount;
    var per := settlement.perEntrant;
    paid := [];
    for i := 0 to batch
      invariant settlement.roundId == old(settlement.roundId) && settlement.state == old(settlement.state)
      invariant i * per <= start && vault.amount == start - i * per
      invariant settlement.Fields() == Advanced(was, accounts, i)
      invariant BatchError(ledger, round, mint, accounts, 0, was.cursor, start, per)
             == BatchError(ledger, round, mint, accounts, i, settlement.cursor, vault.amount, per)
      invariant paid == BatchPayments(accounts, per, i)
    {
      e := PayEntrant(settlement, vault, ledger, round, mint, accounts[2 * i], accounts[2 * i + 1]);
      if e.Some? {
        return e, [];
      }
      assert (i + 1) * per == i * per + per;
      paid := paid + [Credit(accounts[2 * i].key, accounts[2 * i + 1], per)];
    }
    e := None;
  }

  /** Meets its specification: the same answer, and on success the same settlement, balance and
  transfers. */
  ghost predicate Settles(e: Option<PotError>, spec: PotOutcome<Effect>, settlement: Option<SettlementRecord>,
                          vault: nat, paid: seq<Payment>) {
    if e.Some? then spec == Refused(e.value)
    else settlement.Some? && spec == Done(Effect(settlement.value, vault, paid))
  }

  method RefundUnrevealedPot(isAuthority: bool, round: PotRound, roundId: nat, mint: Key, now: int, ledger: Ledger,
                             settlement: RoundSettlement, vault: TokenVault, accounts: seq<Supplied>)
    returns (e: Option<PotError>, paid: seq<Payment>)
    requires settlement.Valid() && roundId != 0
    modifies settlement, vault
    ensures Settles(e, Settlement.RefundUnrevealedPot(isAuthority, round, mint, now, ledger,
                                                      old(settlement.View()), old(vault.amount), accounts),
                    settlement.View(), vault.amount, paid)
    ensures e.None? ==> settlement.Valid()
  {
    paid := [];
    if !isAuthority {
      return Some(NotPermitted), paid;
    }
    if round.status != Finalized {
      return Some(NotFinalized), paid;
    }
    if round.revealed {
      return Some(AlreadyRevealed), paid;
    }
    if now < round.endTime + POT_REFUND_MIN_AGE {
      return Some(RefundTooEarly), paid;
    }
    if mint == DEFAULT_KEY {
      return Some(MintNotSet), paid;
    }
    if settlement.roundId == 0 {
      settlement.roundId := roundId;
    }
    if settlement.state == STATE_PAID {
      return Some(AlreadyDistributed), paid;
    }
    if settlement.state == STATE_REFUNDED {
      return Some(AlreadyRefunded), paid;
    }
    if settlement.state == STATE_NONE {
      settlement.Freeze(round.participants, vault.amount, now);
      if settlement.state == STATE_REFUNDED {
        return None, paid;
      }
    }
    ghost var terms := settlement.Fields();
    if |accounts| % 2 != 0 || |accounts| == 0 {
      return Some(WrongAccountCount), paid;
    }
    var batch := |accounts| / 2;
    if settlement.recipientCount > settlement.entrantCount {
      return Some(MathOverflow), paid;
    }
    if batch > settlement.entrantCount - settlement.recipientCount {
      return Some(BatchTooLong), paid;
    }
    e, paid := PayBatchInPlace(settlement, vault, ledger, round.key, mint, accounts, batch);
    if e.Some? {
      return;
    }
    if settlement.recipientCount == settlement.entrantCount {
      settlement.state, settlement.settledAt := STATE_REFUNDED, now;
      if settlement.totalSettled != settlement.perEntrant * settlement.entrantCount {
        return Some(MathOverflow), paid;
      }
    }
  }

  method WinnersOf(top: seq<Key>) returns (winners: seq<Key>)
    ensures winners == Winners(top)
  {
    winners := [];
    for i := 0 to |top|
      invariant Winners(top) == winners + Winners(top[i..])
    {
      assert top[i..][1..] == top[i + 1..];
      if top[i] != DEFAULT_KEY {
        winners := winners + [top[i]];
      }
    }
    assert top[|top|..] == [];
  }

  /** The payout loop: exactly the revealed winners, in rank order, to their players' accounts. */
  method PayWinners(vault: TokenVault, ledger: Ledger, mint: Key, winners: seq<Key>, accounts: seq<Supplied>)
    returns (e: Option<PotError>, paid: seq<Payment>, totalPaid: nat)
    requires winners != [] && |accounts| == 2 * |winners|
    modifies vault
    ensures e == PayoutError(ledger, mint, winners, accounts, 0)
    ensures e.None? ==> paid == Payouts(winners, accounts, old(vault.amount)) && totalPaid == old(vault.amount) && vault.amount == 0
  {
    var k, pot := |winners|, vault.amount;
    ghost var all := Payouts(winners, accounts, pot);
    var share := pot / k;
    var last := LastShare(pot, k);
    paid, totalPaid := [], 0;
    for i := 0 to k
      invariant PayoutError(ledger, mint, winners, accounts, 0) == PayoutError(ledger, mint, winners, accounts, i)
      invariant paid == all[..i] && totalPaid == Total(all[..i]) && vault.amount == pot - totalPaid
    {
      var entry, ata := accounts[2 * i], accounts[2 * i + 1];
      if entry.key != winners[i] {
        return Some(EntryMismatch), [], 0;
      }
      if entry.key !in ledger {
        return Some(UnknownEntry), [], 0;
      }
      e := CheckToken(ledger, mint, entry.key, ata, WrongMint);
      if e.Some? {
        return e, [], 0;
      }
      var amount := if i == k - 1 then last else share;
      PayoutFits(winners, accounts, pot, i);
      vault.Transfer(amount);
      paid := paid + [Credit(entry.key, ata, amount)];
      totalPaid := totalPaid + amount;
    }
    assert all[..k] == all;
    SharesExhaustPot(winners, accounts, pot);
    e := None;
  }

  /** Transfers never sum to more than the balance. */
  lemma PayoutFits(winners: seq<Key>, accounts: seq<Supplied>, pot: nat, i: nat)
    requires i < |winners| && |accounts| == 2 * |winners|
    ensures var all := Payouts(winners, accounts, pot);
            Total(all[..i + 1]) == Total(all[..i]) + all[i].amount <= pot
  {
    var all := Payouts(winners, accounts, pot);
    assert all[..i + 1][..i] == all[..i];
    assert all == all[..i + 1] + all[i + 1..];
    TotalConcat(all[..i + 1], all[i + 1..]);
    SharesExhaustPot(winners, accounts, pot);
  }

  method DistributePot(authorized: bool, round: PotRound, roundId: nat, mint: Key, now: int, ledger: Ledger,
                       settlement: RoundSettlement, vault: TokenVault, accounts: seq<Supplied>)
    returns (e: Option<PotError>, paid: seq<Payment>)
    requires settlement.Valid() && roundId != 0
    modifies settlement, vault
    ensures Settles(e, Settlement.DistributePot(authorized, round, mint, now, ledger,
                                                old(settlement.View()), old(vault.amount), accounts),
                    settlement.View(), vault.amount, paid)
    ensures e.None? ==> settlement.Valid()
  {
    paid := [];
    if !authorized {
      return Some(NotPermitted), paid;
    }
    if mint == DEFAULT_KEY {
      return Some(MintNotSet), paid;
    }
    if settlement.roundId == 0 {
      settlement.roundId := roundId;
    }
    if settlement.state == STATE_PAID {
      return Some(AlreadyDistributed), paid;
    }
    if settlement.state != STATE_NONE {
      return Some(AlreadyRefunded), paid;
    }
    if round.status != Finalized {
      return Some(NotFinalized), paid;
    }
    if !round.revealed {
      return Some(NotRevealed), paid;
    }
    var winners := WinnersOf(round.top);
    var k, pot := |winners|, vault.amount;
    if k == 0 || pot == 0 {
      settlement.MarkPaid(0, 0, now);
      return None, paid;
    }
    if pot < k {
      return Some(PotTooSmall), paid;
    }
    if |accounts| != 2 * k {
      return Some(WrongAccountCount), paid;
    }
    var totalPaid;
    e, paid, totalPaid := PayWinners(vault, ledger, mint, winners, accounts);
    if e.Some? {
      return;
    }
    settlement.MarkPaid(totalPaid, k, now);
  }

  method ClosePotVault(authorized: bool, round: PotRound, settlement: RoundSettlement, vault: TokenVault)
    returns (e: Option<PotError>, swept: nat)
    requires settlement.Valid()
    modifies vault
    ensures Settlement.ClosePotVault(authorized, round, settlement.View(), old(vault.amount))
         == if e.Some? then Refused(e.value) else Done(swept)
    ensures e.None? ==> vault.amount == 0
  {
    swept := 0;
    if !authorized {
      return Some(NotPermitted), 0;
    }
    if settlement.roundId == 0 {
      if round.status != Finalized {
        return Some(NotSettled), 0;
      }
      if round.participants != 0 {
        return Some(HadEntrants), 0;
      }
    } else if settlement.state == STATE_PENDING {
      return Some(RefundIncomplete), 0;
    }
    var leftover := vault.amount;
    if leftover > 0 {
      vault.Transfer(leftover);
      swept := leftover;
    }
    e := None;
  }
}
