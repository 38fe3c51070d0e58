/** The shared ledger: its state, its two commands and its own expiry of pending transfers. */
module Ledger {
  import opened TigerBeetle

  const SECOND: nat := 1_000_000_000

  /** `released` holds the pending transfers whose timeout the ledger has already acted on.
      `clock` is the last ledger timestamp, in nanoseconds. Balances do not wrap. */
  datatype State = State(
    accounts: map<Id, Account>, transfers: map<Id, Transfer>, failed: set<Id>, released: set<Id>, clock: nat)

  const EMPTY := State(map[], map[], {}, {}, 0)

  function CompareAccounts(existing: Account, account: Account): AccountStatus {
    if existing.flags != account.flags then AccountExistsWithDifferent(AFlags)
    else if existing.userData128 != account.userData128 then AccountExistsWithDifferent(AUserData128)
    else if existing.userData64 != account.userData64 then AccountExistsWithDifferent(AUserData64)
    else if existing.userData32 != account.userData32 then AccountExistsWithDifferent(AUserData32)
    else if existing.ledger != account.ledger then AccountExistsWithDifferent(ALedger)
    else if existing.code != account.code then AccountExistsWithDifferent(ACode)
    else AccountExists
  }

  function CreateAccount(s: State, account: Account): (State, AccountResult) {
    if account.id in s.accounts then
      var existing := s.accounts[account.id];
      var status := CompareAccounts(existing, account);
      (s, AccountResult(status, if status.AccountExists? then existing.timestamp else 0))
    else
      var clock := s.clock + 1;
      (s.(accounts := s.accounts[account.id := account.(timestamp := clock)], clock := clock),
       AccountResult(AccountCreated, clock))
  }

  function CompareTransfers(existing: Transfer, t: Transfer): TransferStatus {
    if existing.flags != t.flags then TransferExistsWithDifferent(TFlags)
    else if existing.timeout != t.timeout then TransferExistsWithDifferent(TTimeout)
    else if existing.debit != t.debit then TransferExistsWithDifferent(TDebit)
    else if existing.credit != t.credit then TransferExistsWithDifferent(TCredit)
    else if existing.amount != t.amount then TransferExistsWithDifferent(TAmount)
    else if existing.userData128 != t.userData128 then TransferExistsWithDifferent(TUserData128)
    else if existing.userData64 != t.userData64 then TransferExistsWithDifferent(TUserData64)
    else if existing.userData32 != t.userData32 then TransferExistsWithDifferent(TUserData32)
    else if existing.pendingID != t.pendingID then TransferExistsWithDifferent(TPendingID)
    else if existing.ledger != t.ledger then TransferExistsWithDifferent(TLedger)
    else if existing.code != t.code then TransferExistsWithDifferent(TCode)
    else TransferExists
  }

  /** A rejected transfer burns its ID. */
  function Burn(s: State, id: Id): State {
    s.(failed := s.failed + {id})
  }

  function Debited(account: Account, t: Transfer): Account {
    if t.flags.pending then account.(debitsPending := account.debitsPending + t.amount)
    else account.(debitsPosted := account.debitsPosted + t.amount)
  }

  function Credited(account: Account, t: Transfer): Account {
    if t.flags.pending then account.(creditsPending := account.creditsPending + t.amount)
    else account.(creditsPosted := account.creditsPosted + t.amount)
  }

  /** Both account rows are read before either is written, and the credit row is written last. */
  function Commit(s: State, t: Transfer): State
    requires t.debit in s.accounts && t.credit in s.accounts
  {
    var debit, credit := s.accounts[t.debit], s.accounts[t.credit];
    var clock := s.clock + 1;
    s.(accounts := s.accounts[debit.id := Debited(debit, t)][credit.id := Credited(credit, t)],
       transfers := s.transfers[t.id := t.(timestamp := clock)],
       clock := clock)
  }

  /** The verdict on a transfer whose ID is new. */
  function Judge(s: State, t: Transfer): TransferStatus {
    if t.debit !in s.accounts then TransferDebitAccountNotFound
    else if t.credit !in s.accounts then TransferCreditAccountNotFound
    else if t.amount >= UINT64 then TransferOverflowsDebits
    else
      var debit, credit := s.accounts[t.debit], s.accounts[t.credit];
      if debit.flags.debitsMustNotExceedCredits
         && debit.debitsPending + debit.debitsPosted + t.amount > debit.creditsPosted
      then TransferExceedsCredits
      else if credit.flags.creditsMustNotExceedDebits
         && credit.creditsPending + credit.creditsPosted + t.amount > credit.debitsPosted
      then TransferExceedsDebits
      else TransferCreated
  }

  function CreateTransfer(s: State, t: Transfer): (State, TransferResult) {
    if t.id in s.failed then (s, TransferResult(TransferIDAlreadyFailed, 0))
    else if t.id in s.transfers then
      var existing := s.transfers[t.id];
      var status := CompareTransfers(existing, t);
      (s, TransferResult(status, if status.TransferExists? then existing.timestamp else 0))
    else
      var status := Judge(s, t);
      match status
      case TransferCreated => (Commit(s, t), TransferResult(TransferCreated, s.clock + 1))
      case TransferOverflowsDebits => (s, TransferResult(status, 0))
      case _ => (Burn(s, t.id), TransferResult(status, 0))
  }

  /** A hold that the ledger may release now: pending, not yet released, and past its own timeout. */
  predicate Due(s: State, id: Id) {
    && id in s.transfers && id !in s.released
    && var t := s.transfers[id];
       && t.flags.pending && t.timeout != 0 && s.clock >= t.timestamp + t.timeout * SECOND
       && t.debit in s.accounts && t.credit in s.accounts
       && s.accounts[t.debit].debitsPending >= t.amount && s.accounts[t.credit].creditsPending >= t.amount
  }

  function Release(s: State, id: Id): State
    requires Due(s, id)
  {
    var t := s.transfers[id];
    var debit := s.accounts[t.debit];
    var credit := s.accounts[t.credit];
    s.(accounts := s.accounts
         [t.debit := debit.(debitsPending := debit.debitsPending - t.amount)]
         [t.credit := credit.(creditsPending := credit.creditsPending - t.amount)],
       released := s.released + {id})
  }
}
