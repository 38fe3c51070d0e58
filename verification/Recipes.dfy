/** The six transfer recipes, and what it means for a transfer to be one of them in a given ledger. */
module Recipes {
  import opened Wrappers
  import opened TigerBeetle
  import opened AccountModel
  import opened Ledger

  const TOP_UP: nat := 1001
  const WITHDRAWAL: nat := 1002
  const ALLOCATION: nat := 1201
  const CARD_RETURN: nat := 1202
  const AUTHORIZATION: nat := 1101
  const INCREMENT: nat := 1102

  const POSTED := TransferFlags(false, 0)
  const PENDING := TransferFlags(true, 0)

  function PostedTransfer(ledger: nat, code: nat, id: Id, debit: Id, credit: Id, amount: nat): Transfer {
    Transfer(id, debit, credit, amount, 0, 0, 0, 0, 0, ledger, code, POSTED, 0)
  }

  /** The hold of a new authorization; it is its own group. */
  function AuthorizationTransfer(
    ledger: nat, id: Id, card: Id, amount: nat, merchant64: nat, merchant32: nat, timeout: nat): Transfer
  {
    Transfer(id, card, SETTLEMENT, amount, 0, id, merchant64, merchant32, timeout, ledger, AUTHORIZATION, PENDING, 0)
  }

  /** A further hold in the group of `original`, stored under `group`. */
  function IncrementTransfer(
    ledger: nat, id: Id, group: Id, original: Transfer, amount: nat, timeout: nat): Transfer
  {
    Transfer(id, original.debit, original.credit, amount, 0, group, original.userData64, original.userData32,
             timeout, ledger, INCREMENT, PENDING, 0)
  }

  predicate SameTransferExceptTimeout(left: Transfer, right: Transfer) {
    && left.id == right.id
    && left.debit == right.debit
    && left.credit == right.credit
    && left.amount == right.amount
    && left.pendingID == right.pendingID
    && left.userData128 == right.userData128
    && left.userData64 == right.userData64
    && left.userData32 == right.userData32
    && left.ledger == right.ledger
    && left.code == right.code
    && left.flags == right.flags
  }

  predicate SameTransfer(left: Transfer, right: Transfer) {
    left.timeout == right.timeout && SameTransferExceptTimeout(left, right)
  }

  /** The ledger number that the provisioned cash account fixes; zero before provisioning. */
  function LedgerOf(s: State): nat {
    if CASH in s.accounts then s.accounts[CASH].ledger else 0
  }

  /** What an uncached lookup says about an account. */
  function MetadataIn(s: State, id: Id): Option<Metadata> {
    if id in s.accounts then MetadataForAccount(LedgerOf(s), s.accounts[id]) else None
  }

  predicate IsCorporate(s: State, id: Id) {
    MetadataIn(s, id) == Some(Metadata(CorporateWallet, 0))
  }

  predicate IsCard(s: State, id: Id) {
    MetadataIn(s, id).Some? && MetadataIn(s, id).value.kind == CardWallet
  }

  predicate IsCardOf(s: State, id: Id, corporate: Id) {
    MetadataIn(s, id) == Some(Metadata(CardWallet, corporate))
  }

  predicate IsAuthorization(s: State, id: Id) {
    id in s.transfers && s.transfers[id].code == AUTHORIZATION
  }

  /** `t` is one of the six recipes over accounts that exist in `s` with the right kinds. */
  predicate Recipe(s: State, t: Transfer) {
    && CASH in s.accounts && SETTLEMENT in s.accounts
    && ValidID(t.id) && 0 < t.amount < UINT64
    && var ledger := LedgerOf(s);
       if t.code == TOP_UP then
         && SameTransfer(t, PostedTransfer(ledger, TOP_UP, t.id, CASH, t.credit, t.amount))
         && IsCorporate(s, t.credit)
       else if t.code == WITHDRAWAL then
         && SameTransfer(t, PostedTransfer(ledger, WITHDRAWAL, t.id, t.debit, CASH, t.amount))
         && IsCorporate(s, t.debit)
       else if t.code == ALLOCATION then
         && SameTransfer(t, PostedTransfer(ledger, ALLOCATION, t.id, t.debit, t.credit, t.amount))
         && IsCorporate(s, t.debit) && IsCardOf(s, t.credit, t.debit)
       else if t.code == CARD_RETURN then
         && SameTransfer(t, PostedTransfer(ledger, CARD_RETURN, t.id, t.debit, t.credit, t.amount))
         && IsCorporate(s, t.credit) && IsCardOf(s, t.debit, t.credit)
       else if t.code == AUTHORIZATION then
         && SameTransfer(t, AuthorizationTransfer(ledger, t.id, t.debit, t.amount, t.userData64, t.userData32, t.timeout))
         && IsCard(s, t.debit) && 0 < t.timeout < UINT32
       else if t.code == INCREMENT then
         && IsAuthorization(s, t.userData128)
         && var original := s.transfers[t.userData128];
            && SameTransferExceptTimeout(t, IncrementTransfer(ledger, t.id, t.userData128, original, t.amount, 0))
            && t.credit == SETTLEMENT && t.timeout <= original.timeout && IsCard(s, t.debit)
       else false
  }
}
