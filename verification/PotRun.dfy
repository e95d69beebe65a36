/** The life of a round's pot as a state machine: entry fees, donations at any time, the reveal,
refund batches, distribution, closing the vault - and anybody recreating it. */
module PotRun {
  import opened Ranking
  import opened Circuit
  import opened Partition
  import opened Accounts
  import opened Settlement

  /** The accounts, and the books nobody keeps on chain: what came in and what went where. */
  datatype Books = Books(
    round: PotRound, mint: Key, capacity: nat, ledger: Ledger,
    vault: Option<nat>, settlement: Option<SettlementRecord>,
    fees: nat, donated: nat, swept: nat, refunds: seq<Payment>, payouts: seq<Payment>)

  datatype PotStep =
    | Enter(now: int, entry: Key, player: Key, rarity: Byte, funded: bool)
    | CloseRound(ok: bool)
    | FinalizeRound(ok: bool)
    | RevealRound(top: seq<Key>)
    | Donate(amount: nat)
    | RecreateVault
    | Refund(isAuthority: bool, now: int, accounts: seq<Supplied>)
    | Distribute(ok: bool, now: int, accounts: seq<Supplied>)
    | CloseVault(ok: bool)

  function Entrants(b: Books): set<Key> {
    RoundEntries(b.ledger, b.round.key)
  }

  function Balance(b: Books): nat {
    if b.vault.Some? then b.vault.value else 0
  }

  /** top names the round's winners: distinct entries for as many places as there are entries. */
  predicate NamesWinners(entries: set<Key>, top: seq<Key>) {
    && |top| == REVEAL_TOP_K
    && (forall r :: 0 <= r < REVEAL_TOP_K ==> if r < |entries| then top[r] in entries else top[r] == DEFAULT_KEY)
    && (forall q, r :: 0 <= q < r < REVEAL_TOP_K && r < |entries| ==> top[q] != top[r])
  }

  /** submit_entry, as far as the pot sees it: one entry per address, the fixed fee, and no entry
  address is the default key. */
  function EnterRound(b: Books, s: PotStep): PotOutcome<Books>
    requires s.Enter?
  {
    if b.round.status != Open || s.now >= b.round.endTime || b.round.participants >= b.capacity
       || b.mint == DEFAULT_KEY || s.entry in b.ledger || s.entry == DEFAULT_KEY || !s.funded then Refused(NotPermitted)
    else if b.vault.None? then Refused(NoVault)
    else Done(b.(ledger := b.ledger[s.entry := Entry(b.round.key, s.player, false, 0, s.rarity)],
                 round := b.round.(participants := b.round.participants + 1),
                 vault := Some(b.vault.value + ENTRY_FEE), fees := b.fees + ENTRY_FEE))
  }

  function Next(b: Books, s: PotStep): PotOutcome<Books> {
    match s
    case Enter(_, _, _, _, _) => EnterRound(b, s)
    case CloseRound(ok) =>
      if !ok || b.round.status != Open then Refused(NotPermitted) else Done(b.(round := b.round.(status := Closed)))
    case FinalizeRound(ok) =>
      if !ok || b.round.status != Closed then Refused(NotPermitted) else Done(b.(round := b.round.(status := Finalized)))
    case RevealRound(top) =>
      if b.round.status == Open || b.round.revealed || b.round.participants == 0 || !NamesWinners(Entrants(b), top)
      then Refused(NotPermitted)
      else Done(b.(round := b.round.(revealed := true, top := top)))
    case Donate(amount) =>
      if b.vault.None? then Refused(NoVault)
      else Done(b.(vault := Some(b.vault.value + amount), donated := b.donated + amount))
    case RecreateVault =>
      if b.vault.Some? then Refused(NotPermitted) else Done(b.(vault := Some(0)))
    case Refund(isAuthority, now, accounts) =>
      if b.vault.None? then Refused(NoVault) else
      (match RefundUnrevealedPot(isAuthority, b.round, b.mint, now, b.ledger, b.settlement, b.vault.value, accounts)
       case Refused(e) => Refused(e)
       case Done(f) => Done(b.(settlement := Some(f.record), vault := Some(f.vault), refunds := b.refunds + f.paid)))
    case Distribute(ok, now, accounts) =>
      if b.vault.None? then Refused(NoVault) else
      (match DistributePot(ok, b.round, b.mint, now, b.ledger, b.settlement, b.vault.value, accounts)
       case Refused(e) => Refused(e)
       case Done(f) => Done(b.(settlement := Some(f.record), vault := Some(f.vault), payouts := b.payouts + f.paid)))
    case CloseVault(ok) =>
      if b.vault.None? then Refused(NoVault) else
      (match ClosePotVault(ok, b.round, b.settlement, b.vault.value)
       case Refused(e) => Refused(e)
       case Done(leftover) => Done(b.(vault := None, swept := b.swept + leftover)))
  }

  function After(b: Books, s: PotStep): Books {
    var next := Next(b, s);
    if next.Done? then next.value else b
  }

  function Run(b: Books, steps: seq<PotStep>): Books
    decreases |steps|
  {
    if steps == [] then b else Run(After(b, steps[0]), steps[1..])
  }

  /** open_round: nobody entered, nothing decided; the vault may exist already, holding donations. */
  predicate Opened(b: Books) {
    && b.round.status == Open && b.round.participants == 0 && !b.round.revealed
    && Entrants(b) == {} && DEFAULT_KEY !in b.ledger
    && b.vault == Some(b.donated) && b.settlement.None?
    && b.fees == 0 && b.swept == 0 && b.refunds == [] && b.payouts == []
  }

  // ---- the invariant -----------------------------------------------------------------------

  /** Every base unit that came in is in the vault or went somewhere known. */
  predicate Conserved(b: Books) {
    b.fees + b.donated == Balance(b) + Total(b.payouts) + Total(b.refunds) + b.swept
  }

  /** Entries refunded so far: ascending, each an entry of the round, each paid its player the fee. */
  predicate RefundsSound(b: Books, r: SettlementRecord) {
    && r.entrantCount == b.round.participants && r.recipientCount == |b.refunds|
    && r.perEntrant == (if b.round.participants > 0 then ENTRY_FEE else 0)
    && r.totalSettled == ENTRY_FEE * r.recipientCount
    && Ascending(Entries(b.refunds))
    && (forall i :: 0 <= i < |b.refunds| ==>
          && b.refunds[i].entry in Entrants(b) && b.refunds[i].amount == ENTRY_FEE
          && b.refunds[i].to == PlayerOf(b.ledger, b.refunds[i].entry) && b.refunds[i].mint == b.mint)
    && r.cursor == (if b.refunds == [] then DEFAULT_KEY else b.refunds[|b.refunds| - 1].entry)
  }

  predicate SettlementSound(b: Books) {
    match b.settlement
    case None =>
      && b.refunds == [] && b.payouts == []
      && (b.round.participants > 0 || b.round.status != Finalized ==> b.vault.Some? && b.swept == 0)
    case Some(r) =>
      && b.round.status == Finalized
      && match r.state
         case RefundPending =>
           && b.payouts == [] && RefundsSound(b, r) && |b.refunds| < b.round.participants && r.settledAt == 0
           && b.vault.Some? && b.swept == 0
         case PotRefunded => b.payouts == [] && RefundsSound(b, r) && |b.refunds| == b.round.participants
         case PotPaid => b.refunds == [] && b.round.revealed
  }

  predicate BooksSound(b: Books) {
    && |Entrants(b)| == b.round.participants <= b.capacity && DEFAULT_KEY !in b.ledger
    && Conserved(b) && b.fees == ENTRY_FEE * b.round.participants
    && (b.round.revealed ==> b.round.status != Open && b.round.participants > 0 && NamesWinners(Entrants(b), b.round.top))
    && SettlementSound(b)
  }

  // ---- every step keeps it -----------------------------------------------------------------

  lemma OpenedIsSound(b: Books)
    requires Opened(b)
    ensures BooksSound(b)
  {
  }

  lemma EnterKeeps(b: Books, s: PotStep)
    requires BooksSound(b) && s.Enter? && Next(b, s).Done?
    ensures BooksSound(After(b, s))
  {
    var c := After(b, s);
    assert Entrants(c) == Entrants(b) + {s.entry};
  }

  lemma FrozenFee(b: Books, now: int)
    requires BooksSound(b) && b.settlement.None? && b.vault.Some?
    ensures var t := FreezeTerms(b.round.participants, b.vault.value, now);
            && t.entrantCount == b.round.participants && t.recipientCount == 0 && t.totalSettled == 0
            && t.cursor == DEFAULT_KEY
            && t.totalPot == b.vault.value && t.startedAt == now
            && (b.round.participants > 0 ==>
                  t.perEntrant == ENTRY_FEE && t.state == RefundPending && t.surplus == b.donated && t.settledAt == 0)
            && (b.round.participants == 0 ==>
                  t.perEntrant == 0 && t.state == PotRefunded && t.surplus == b.vault.value && t.settledAt == now)
  {
    var n := b.round.participants;
    if n > 0 {
      assert b.vault.value == ENTRY_FEE * n + b.donated;
      DivModBack(b.vault.value, n);
      if b.vault.value / n < ENTRY_FEE {
        MulMonotone(b.vault.value / n, ENTRY_FEE - 1, n);
      }
    }
  }

  // ---- one refund batch --------------------------------------------------------------------

  lemma AscendingConcat(a: seq<Key>, b: seq<Key>)
    requires Ascending(a) && Ascending(b)
    requires a != [] && b != [] ==> a[|a| - 1] < b[0]
    ensures Ascending(a + b)
  {
    forall i, j | 0 <= i < j < |a + b| ensures (a + b)[i] < (a + b)[j] {
      if i < |a| <= j {
        assert a[i] <= a[|a| - 1] && b[0] <= b[j - |a|];
      }
    }
  }

  lemma EntriesConcat(a: seq<Payment>, b: seq<Payment>)
    ensures Entries(a + b) == Entries(a) + Entries(b)
  {
  }

  lemma BatchExtends(b: Books, terms: SettlementRecord, now: int, accounts: seq<Supplied>, f: Effect)
    requires RefundsSound(b, terms) && b.round.participants > 0 && b.vault.Some?
    requires PayBatch(b.ledger, b.round.key, b.mint, now, terms, b.vault.value, accounts) == Done(f)
    ensures RefundsSound(b.(refunds := b.refunds + f.paid), f.record)
    ensures Total(f.paid) == b.vault.value - f.vault && f.vault <= b.vault.value
    ensures |b.refunds| + |f.paid| <= b.round.participants
    ensures terms.state == RefundPending ==>
              && f.record.state == (if |b.refunds| + |f.paid| == b.round.participants then PotRefunded else RefundPending)
              && (f.record.state == RefundPending ==> f.record.settledAt == terms.settledAt)
  {
    hide RoundEntries, BatchError, Ascending;
    var n := |accounts| / 2;
    BatchPays(b.ledger, b.round.key, b.mint, accounts, terms.cursor, b.vault.value);
    TotalFlat(f.paid, ENTRY_FEE);
    EntriesConcat(b.refunds, f.paid);
    AscendingConcat(Entries(b.refunds), Entries(f.paid));
  }

  /** What an accepted batch pays: entries of the round past the cursor, ascending, each one's player. */
  lemma BatchPays(ledger: Ledger, round: Key, mint: Key, accounts: seq<Supplied>, cursor: Key, vault: nat)
    requires |accounts| % 2 == 0 && BatchError(ledger, round, mint, accounts, 0, cursor, vault, ENTRY_FEE) == None
    ensures var paid := BatchPayments(accounts, ENTRY_FEE, |accounts| / 2);
            && Ascending(Entries(paid))
            && forall i :: 0 <= i < |paid| ==>
                 && cursor < paid[i].entry && paid[i].entry in RoundEntries(ledger, round)
                 && paid[i] == Payment(accounts[2 * i].key, PlayerOf(ledger, paid[i].entry), mint, ENTRY_FEE)
  {
    BatchDecided(ledger, round, mint, accounts, 0, cursor, vault, ENTRY_FEE);
    var paid := BatchPayments(accounts, ENTRY_FEE, |accounts| / 2);
    forall j, k | 0 <= j < k < |paid| ensures Entries(paid)[j] < Entries(paid)[k] {
      assert Entries(paid)[j] == accounts[2 * j].key && Entries(paid)[k] == accounts[2 * k].key;
    }
  }
}
