/** What becomes of a round's pot: the three settlement instructions as functions on account
values. An error changes nothing: the runtime discards the transaction. Amounts are unbounded
naturals; everything computed stays within the vault's own balance. */
module Settlement {
  import opened Ranking
  import opened Partition
  import opened Accounts

  const ENTRY_FEE := 100_000_000
  const POT_REFUND_MIN_AGE := 7 * 86_400

  datatype PotError =
    | NotPermitted | MintNotSet | NotFinalized | AlreadyRevealed | NotRevealed | RefundTooEarly
    | AlreadyDistributed | AlreadyRefunded | NotSettled | RefundIncomplete | HadEntrants
    | WrongAccountCount | BatchTooLong | OrderInvalid | UnknownEntry | WrongRound | EntryMismatch
    | NotATokenAccount | WrongOwner | WrongMint | PotTooSmall | MathOverflow | NoVault

  datatype PotOutcome<T> = Done(value: T) | Refused(error: PotError)

  datatype SettlementState = RefundPending | PotPaid | PotRefunded

  /** The settlement account once it exists; before that nothing has been decided. */
  datatype SettlementRecord = Settled(
    state: SettlementState, totalSettled: nat, recipientCount: nat, settledAt: int,
    entrantCount: nat, perEntrant: nat, totalPot: nat, surplus: nat, cursor: Key, startedAt: int)

  /** What the instructions read of the round. */
  datatype PotRound = PotRound(
    key: Key, status: Status, participants: nat, revealed: bool, top: seq<Key>, endTime: int)

  /** A supplied account: its address, and the owner and mint if it is a token account. */
  datatype Supplied = Supplied(key: Key, token: Option<(Key, Key)>)

  /** A transfer out of the vault on behalf of an entry: whose account it credits, and in which mint. */
  datatype Payment = Payment(entry: Key, to: Key, mint: Key, amount: nat)

  /** The transfer to a supplied account, whoever owns it. */
  function Credit(entry: Key, account: Supplied, amount: nat): Payment {
    if account.token.None? then Payment(entry, DEFAULT_KEY, DEFAULT_KEY, amount)
    else Payment(entry, account.token.value.0, account.token.value.1, amount)
  }

  /** What a successful instruction writes: the settlement, the vault balance, the transfers. */
  datatype Effect = Effect(record: SettlementRecord, vault: nat, paid: seq<Payment>)

  function Total(payments: seq<Payment>): nat {
    if payments == [] then 0 else Total(payments[..|payments| - 1]) + payments[|payments| - 1].amount
  }

  function Entries(payments: seq<Payment>): (keys: seq<Key>)
    ensures |keys| == |payments|
  {
    seq(|payments|, i requires 0 <= i < |payments| => payments[i].entry)
  }

  function PlayerOf(ledger: Ledger, x: Key): Key {
    if x in ledger then ledger[x].player else DEFAULT_KEY
  }

  /** The account beside an entry must be its player's token account, in the game's mint. The two
  instructions name a stranger's account differently. */
  function TokenError(ledger: Ledger, mint: Key, entry: Key, account: Supplied, stranger: PotError): Option<PotError> {
    if account.token.None? then Some(NotATokenAccount)
    else if account.token.value.0 != PlayerOf(ledger, entry) then Some(stranger)
    else if account.token.value.1 != mint then Some(WrongMint)
    else None
  }

  // ---- refund ------------------------------------------------------------------------------

  lemma ShareFits(total: nat, n: nat, per: nat)
    requires n > 0 && per <= total / n
    ensures per * n <= total
  {
    MulMonotone(per, total / n, n);
    DivModBack(total, n);
  }

  /** The first batch fixes the terms once and for all. */
  function FreezeTerms(participants: nat, vault: nat, now: int): SettlementRecord {
    var affordable := if participants == 0 then 0 else vault / participants;
    var per := Min(ENTRY_FEE, affordable);
    var nothing := participants == 0 || per == 0;
    var owed := per * participants;
    assert owed <= vault by {
      if participants > 0 {
        ShareFits(vault, participants, per);
      }
    }
    Settled(if nothing then PotRefunded else RefundPending, 0, 0, if nothing then now else 0,
            participants, per, vault, vault - owed, DEFAULT_KEY, now)
  }

  /** Whatever the vault holds: everybody is owed the same, the fee or the most that the vault can pay all of
  them, the rest is surplus, and a refund of nothing is over at once. */
  lemma FrozenTermsAreFair(participants: nat, vault: nat, now: int)
    ensures var t := FreezeTerms(participants, vault, now);
            && t.entrantCount == participants && t.totalPot == vault == t.perEntrant * participants + t.surplus
            && t.perEntrant <= 100_000_000
            && (participants > 0 ==> t.perEntrant == 100_000_000 || (t.perEntrant + 1) * participants > vault)
            && (participants == 0 ==> t.perEntrant == 0)
            && t.state == (if participants == 0 || vault < participants then PotRefunded else RefundPending)
            && t.settledAt == (if t.state == PotRefunded then now else 0) && t.startedAt == now
  {
    if participants > 0 {
      DivModBack(vault, participants);
      assert (vault / participants + 1) * participants == participants * (vault / participants) + participants;
      if vault / participants > 0 {
        MulMonotone(1, vault / participants, participants);
      }
    }
  }

  /** The first objection to one pair: order, membership, destination, solvency. */
  function PairError(ledger: Ledger, round: Key, mint: Key, entry: Supplied, account: Supplied,
                     cursor: Key, vault: nat, per: nat): Option<PotError>
  {
    if entry.key <= cursor then Some(OrderInvalid)
    else if entry.key !in ledger then Some(UnknownEntry)
    else if ledger[entry.key].round != round then Some(WrongRound)
    else
      var e := TokenError(ledger, mint, entry.key, account, WrongOwner);
      if e.Some? then e
      else if vault < per then Some(PotTooSmall)
      else None
  }

  /** The first objection to the pairs from i on, each checked against the one before it. */
  function BatchError(ledger: Ledger, round: Key, mint: Key, accounts: seq<Supplied>,
                      i: nat, cursor: Key, vault: nat, per: nat): Option<PotError>
    requires 2 * i <= |accounts| && |accounts| % 2 == 0
    decreases |accounts| - 2 * i
  {
    if 2 * i == |accounts| then None
    else
      var e := PairError(ledger, round, mint, accounts[2 * i], accounts[2 * i + 1], cursor, vault, per);
      if e.Some? then e
      else BatchError(ledger, round, mint, accounts, i + 1, accounts[2 * i].key, vault - per, per)
  }

  /** The account takes the game's tokens for the player who placed the entry. */
  predicate PlayersAccount(ledger: Ledger, mint: Key, entry: Key, account: Supplied) {
    entry in ledger && account.token == Some((ledger[entry].player, mint))
  }

  /** Exactly which pairs a refund batch lets through: this round's entries in strictly ascending order
  past the cursor, each beside an account of its own player, and no more of them than the vault can pay. */
  lemma {:induction false} BatchDecided(ledger: Ledger, round: Key, mint: Key, accounts: seq<Supplied>,
                                        i: nat, cursor: Key, vault: nat, per: nat)
    requires 2 * i <= |accounts| && |accounts| % 2 == 0
    ensures BatchError(ledger, round, mint, accounts, i, cursor, vault, per) == None
       <==> && (|accounts| / 2 - i) * per <= vault
            && (forall j :: i <= j < |accounts| / 2 ==>
                  && cursor < accounts[2 * j].key && accounts[2 * j].key in RoundEntries(ledger, round)
                  && PlayersAccount(ledger, mint, accounts[2 * j].key, accounts[2 * j + 1]))
            && (forall j, k :: i <= j < k < |accounts| / 2 ==> accounts[2 * j].key < accounts[2 * k].key)
    decreases |accounts| - 2 * i
  {
    if 2 * i < |accounts| {
      var left := |accounts| / 2 - i;
      assert left * per == (left - 1) * per + per;
      MulMonotone(1, left, per);
      if vault >= per {
        BatchDecided(ledger, round, mint, accounts, i + 1, accounts[2 * i].key, vault - per, per);
      }
    }
  }

  function BatchPayments(accounts: seq<Supplied>, per: nat, n: nat): (paid: seq<Payment>)
    requires 2 * n <= |accounts|
    ensures |paid| == n
  {
    seq(n, i requires 0 <= i < n => Credit(accounts[2 * i].key, accounts[2 * i + 1], per))
  }

  function PayBatch(ledger: Ledger, round: Key, mint: Key, now: int, terms: SettlementRecord, vault: nat,
                    accounts: seq<Supplied>): PotOutcome<Effect>
  {
    if |accounts| % 2 != 0 || |accounts| == 0 then Refused(WrongAccountCount)
    else if terms.recipientCount > terms.entrantCount then Refused(MathOverflow)
    else
      var batch, per := |accounts| / 2, terms.perEntrant;
      if terms.recipientCount + batch > terms.entrantCount then Refused(BatchTooLong)
      else match BatchError(ledger, round, mint, accounts, 0, terms.cursor, vault, per)
        case Some(e) => Refused(e)
        case None =>
          var paid := terms.(totalSettled := terms.totalSettled + batch * per,
                             recipientCount := terms.recipientCount + batch,
                             cursor := accounts[2 * (batch - 1)].key);
          var complete := paid.recipientCount == paid.entrantCount;
          var after := if complete then paid.(state := PotRefunded, settledAt := now) else paid;
          assert batch * per <= vault by {
            BatchDecided(ledger, round, mint, accounts, 0, terms.cursor, vault, per);
          }
          if complete && after.totalSettled != per * after.entrantCount then Refused(MathOverflow)
          else Done(Effect(after, vault - batch * per, BatchPayments(accounts, per, batch)))
  }

  function RefundUnrevealedPot(isAuthority: bool, round: PotRound, mint: Key, now: int, ledger: Ledger,
                               s: Option<SettlementRecord>, vault: nat, accounts: seq<Supplied>): PotOutcome<Effect>
  {
    if !isAuthority then Refused(NotPermitted)
    else if round.status != Finalized then Refused(NotFinalized)
    else if round.revealed then Refused(AlreadyRevealed)
    else if now < round.endTime + POT_REFUND_MIN_AGE then Refused(RefundTooEarly)
    else if mint == DEFAULT_KEY then Refused(MintNotSet)
    else if s.Some? && s.value.state == PotPaid then Refused(AlreadyDistributed)
    else if s.Some? && s.value.state == PotRefunded then Refused(AlreadyRefunded)
    else
      var terms := if s.Some? then s.value else FreezeTerms(round.participants, vault, now);
      if terms.state == PotRefunded then Done(Effect(terms, vault, []))
      else PayBatch(ledger, round.key, mint, now, terms, vault, accounts)
  }

  // ---- distribution ------------------------------------------------------------------------

  /** The places the reveal filled, in rank order. */
  function Winners(top: seq<Key>): seq<Key> {
    if top == [] then []
    else if top[0] == DEFAULT_KEY then Winners(top[1..])
    else [top[0]] + Winners(top[1..])
  }

  /** Equal shares; the last winner takes what truncation leaves. */
  function ShareOf(pot: nat, k: nat, i: nat): nat
    requires i < k
  {
    if i == k - 1 then LastShare(pot, k) else pot / k
  }

  function LastShare(pot: nat, k: nat): nat
    requires k > 0
  {
    ShareFits(pot, k, pot / k);
    assert (pot / k) * (k - 1) <= (pot / k) * k by {
      MulMonotone(k - 1, k, pot / k);
    }
    pot - (pot / k) * (k - 1)
  }

  function PayoutError(ledger: Ledger, mint: Key, winners: seq<Key>, accounts: seq<Supplied>, i: nat): Option<PotError>
    requires i <= |winners| && |accounts| == 2 * |winners|
    decreases |winners| - i
  {
    if i == |winners| then None
    else if accounts[2 * i].key != winners[i] then Some(EntryMismatch)
    else if winners[i] !in ledger then Some(UnknownEntry)
    else
      var e := TokenError(ledger, mint, winners[i], accounts[2 * i + 1], WrongMint);
      if e.Some? then e else PayoutError(ledger, mint, winners, accounts, i + 1)
  }

  function Payouts(winners: seq<Key>, accounts: seq<Supplied>, pot: nat): (paid: seq<Payment>)
    requires |accounts| == 2 * |winners|
    ensures |paid| == |winners|
  {
    seq(|winners|, i requires 0 <= i < |winners| => Credit(winners[i], accounts[2 * i + 1], ShareOf(pot, |winners|, i)))
  }

  function PaidRecord(total: nat, k: nat, now: int): SettlementRecord {
    Settled(PotPaid, total, k, now, 0, 0, 0, 0, DEFAULT_KEY, 0)
  }

  function DistributePot(authorized: bool, round: PotRound, mint: Key, now: int, ledger: Ledger,
                         s: Option<SettlementRecord>, vault: nat, accounts: seq<Supplied>): PotOutcome<Effect>
  {
    if !authorized then Refused(NotPermitted)
    else if mint == DEFAULT_KEY then Refused(MintNotSet)
    else if s.Some? && s.value.state == PotPaid then Refused(AlreadyDistributed)
    else if s.Some? then Refused(AlreadyRefunded)
    else if round.status != Finalized then Refused(NotFinalized)
    else if !round.revealed then Refused(NotRevealed)
    else
      var winners := Winners(round.top);
      var k := |winners|;
      if k == 0 || vault == 0 then Done(Effect(PaidRecord(0, 0, now), vault, []))
      else if vault < k then Refused(PotTooSmall)
      else if |accounts| != 2 * k then Refused(WrongAccountCount)
      else match PayoutError(ledger, mint, winners, accounts, 0)
        case Some(e) => Refused(e)
        case None => Done(Effect(PaidRecord(vault, k, now), 0, Payouts(winners, accounts, vault)))
  }

  // ---- closing -----------------------------------------------------------------------------

  /** Answers what is swept to the authority before the vault account is closed. */
  function ClosePotVault(authorized: bool, round: PotRound, s: Option<SettlementRecord>, vault: nat): PotOutcome<nat> {
    if !authorized then Refused(NotPermitted)
    else match s
      case None =>
        if round.status != Finalized then Refused(NotSettled)
        else if round.participants != 0 then Refused(HadEntrants)
        else Done(vault)
      case Some(r) =>
        if r.state == RefundPending then Refused(RefundIncomplete) else Done(vault)
  }

  // ---- what the checks let through ---------------------------------------------------------

  /** Exactly which accounts a distribution lets through: the winners' entries in rank order, each beside
  an account of its own player. */
  lemma {:induction false} PayoutDecided(ledger: Ledger, mint: Key, winners: seq<Key>, accounts: seq<Supplied>, i: nat)
    requires i <= |winners| && |accounts| == 2 * |winners|
    ensures PayoutError(ledger, mint, winners, accounts, i) == None
       <==> forall j :: i <= j < |winners| ==>
              accounts[2 * j].key == winners[j] && PlayersAccount(ledger, mint, winners[j], accounts[2 * j + 1])
    decreases |winners| - i
  {
    if i < |winners| {
      PayoutDecided(ledger, mint, winners, accounts, i + 1);
    }
  }

  // ---- what the pieces add up to -----------------------------------------------------------

  lemma {:induction false} TotalConcat(a: seq<Payment>, b: seq<Payment>)
    ensures Total(a + b) == Total(a) + Total(b)
  {
    if b == [] {
      assert a + b == a;
    } else {
      TotalConcat(a, b[..|b| - 1]);
      assert (a + b)[..|a + b| - 1] == a + b[..|b| - 1];
    }
  }

  lemma {:induction false} TotalFlat(p: seq<Payment>, per: nat)
    requires forall i :: 0 <= i < |p| ==> p[i].amount == per
    ensures Total(p) == |p| * per
  {
    if p != [] {
      TotalFlat(p[..|p| - 1], per);
    }
  }

  /** The split is exact: whatever the pot, the shares sum to all of it. */
  lemma SharesExhaustPot(winners: seq<Key>, accounts: seq<Supplied>, pot: nat)
    requires winners != [] && |accounts| == 2 * |winners|
    ensures Total(Payouts(winners, accounts, pot)) == pot
  {
    var p, k := Payouts(winners, accounts, pot), |winners|;
    TotalFlat(p[..k - 1], pot / k);
    assert (k - 1) * (pot / k) == (pot / k) * (k - 1);
  }

  /** Nobody is paid zero, and the last share exceeds the others by less than the number of winners. */
  lemma SharesAreFair(pot: nat, k: nat, i: nat)
    requires 0 < k <= pot && i < k
    ensures ShareOf(pot, k, i) >= 1
    ensures pot / k <= LastShare(pot, k) < pot / k + k
  {
    var q := pot / k;
    DivModBack(pot, k);
    OneLess(q, k);
    AtLeastOnce(q, pot % k, k);
  }

  lemma OneLess(q: nat, k: nat)
    ensures q * (k - 1) == k * q - q
  {
  }

  lemma AtLeastOnce(q: nat, r: nat, k: nat)
    requires k <= k * q + r && r < k
    ensures q >= 1
  {
    assert q == 0 ==> k * q == 0;
  }
}
