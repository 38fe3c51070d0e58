/** The four account recipes and the metadata that the service reads back from a stored account. */
module AccountModel {
  import opened Wrappers
  import opened TigerBeetle

  /** The kind string of a request; `OtherKind` is any string outside the four known ones. */
  datatype AccountKind = SafeguardedCash | CorporateWallet | CardWallet | CardSettlementPayable | OtherKind(name: string)

  datatype RecipeError = UnsupportedKind | ZeroAccountID | ZeroLedgerID | ParentNotAllowed | ParentRequired | OwnParent

  datatype Metadata = Metadata(kind: AccountKind, parent: Id)

  const CASH_CODE: nat := 1001
  const CORPORATE_CODE: nat := 2001
  const CARD_CODE: nat := 2002
  const SETTLEMENT_CODE: nat := 2003

  const CASH: Id := 1
  const SETTLEMENT: Id := 2

  const DEBIT_LIMITED := AccountFlags(true, false, 0)
  const CREDIT_LIMITED := AccountFlags(false, true, 0)

  predicate IsSystemAccountID(id: Id) {
    id == CASH || id == SETTLEMENT
  }

  /** IDs accepted from callers: 128-bit, neither zero nor the maximum. */
  predicate ValidID(id: Id) {
    0 < id < UINT128_MAX
  }

  predicate ValidAccountID(id: Id) {
    ValidID(id) && !IsSystemAccountID(id)
  }

  function NewAccount(id: Id, parent: Id, ledger: nat, code: nat, flags: AccountFlags): Account {
    Account(id, 0, 0, 0, 0, parent, 0, 0, ledger, code, flags, 0)
  }

  /** The recipe constructor. */
  function AccountRecipe(kind: AccountKind, id: Id, parent: Id, ledger: nat): Result<Account, RecipeError> {
    if kind.OtherKind? then Err(UnsupportedKind)
    else if id == 0 then Err(ZeroAccountID)
    else if ledger == 0 then Err(ZeroLedgerID)
    else match kind
      case SafeguardedCash =>
        if parent != 0 then Err(ParentNotAllowed) else Ok(NewAccount(id, parent, ledger, CASH_CODE, CREDIT_LIMITED))
      case CorporateWallet =>
        if parent != 0 then Err(ParentNotAllowed) else Ok(NewAccount(id, parent, ledger, CORPORATE_CODE, DEBIT_LIMITED))
      case CardWallet =>
        if parent == 0 then Err(ParentRequired)
        else if parent == id then Err(OwnParent)
        else Ok(NewAccount(id, parent, ledger, CARD_CODE, DEBIT_LIMITED))
      case CardSettlementPayable =>
        if parent != 0 then Err(ParentNotAllowed) else Ok(NewAccount(id, parent, ledger, SETTLEMENT_CODE, DEBIT_LIMITED))
  }

  function KindOfCode(code: nat): Option<AccountKind> {
    if code == CASH_CODE then Some(SafeguardedCash)
    else if code == CORPORATE_CODE then Some(CorporateWallet)
    else if code == CARD_CODE then Some(CardWallet)
    else if code == SETTLEMENT_CODE then Some(CardSettlementPayable)
    else None
  }

  /** The ID range that each kind may occupy. */
  predicate IDFitsKind(kind: AccountKind, id: Id) {
    match kind
    case SafeguardedCash => id == CASH
    case CardSettlementPayable => id == SETTLEMENT
    case CorporateWallet | CardWallet => !IsSystemAccountID(id)
    case OtherKind(_) => false
  }

  /** The service's reading of a stored account, for a service bound to `ledger`. */
  function MetadataForAccount(ledger: nat, account: Account): Option<Metadata> {
    var kind := KindOfCode(account.code);
    if kind.None? || account.ledger != ledger then None
    else if !IDFitsKind(kind.value, account.id) then None
    else
      var expected := AccountRecipe(kind.value, account.id, account.userData128, ledger);
      if expected.Err? || account.flags != expected.value.flags || account.userData64 != 0 || account.userData32 != 0
      then None
      else Some(Metadata(kind.value, account.userData128))
  }

  /** The immutable part of an account: everything but balances and timestamp. */
  function Definition(account: Account): Account {
    account.(debitsPending := 0, debitsPosted := 0, creditsPending := 0, creditsPosted := 0, timestamp := 0)
  }

  /** Reading an account recovers a kind and parent exactly when the account is, on every immutable field, the
      recipe of that kind and parent at an ID that the kind may occupy. */
  lemma MetadataInvertsRecipe(ledger: nat, account: Account, kind: AccountKind, parent: Id)
    ensures MetadataForAccount(ledger, account) == Some(Metadata(kind, parent))
       <==> IDFitsKind(kind, account.id) && AccountRecipe(kind, account.id, parent, ledger) == Ok(Definition(account))
  {
  }

  /** Metadata depends on the immutable part alone. */
  lemma MetadataOfDefinition(ledger: nat, left: Account, right: Account)
    requires Definition(left) == Definition(right)
    ensures MetadataForAccount(ledger, left) == MetadataForAccount(ledger, right)
  {
  }

  /** The posted and available balance that the service reports. */
  function Balances(account: Account, kind: AccountKind): (int, int) {
    if kind == SafeguardedCash then
      var posted := account.debitsPosted - account.creditsPosted;
      (posted, posted - account.creditsPending)
    else
      var posted := account.creditsPosted - account.debitsPosted;
      (posted, posted - account.debitsPending)
  }
}
