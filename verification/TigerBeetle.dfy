/** The records and result codes of the ledger client, as the service uses them. */
module TigerBeetle {

  /** A 128-bit identifier. Zero stands for "absent". */
  type Id = nat

  const UINT32: nat := 0x1_0000_0000
  const UINT64: nat := 0x1_0000_0000_0000_0000
  const UINT128_MAX: nat := 0xffff_ffff_ffff_ffff_ffff_ffff_ffff_ffff

  type Uint64 = n: nat | n < UINT64

  /** `rest` stands for the flag bits that this service never sets. */
  datatype AccountFlags = AccountFlags(debitsMustNotExceedCredits: bool, creditsMustNotExceedDebits: bool, rest: nat)
  datatype TransferFlags = TransferFlags(pending: bool, rest: nat)

  datatype Account = Account(
    id: Id,
    debitsPending: nat, debitsPosted: nat, creditsPending: nat, creditsPosted: nat,
    userData128: Id, userData64: nat, userData32: nat,
    ledger: nat, code: nat, flags: AccountFlags, timestamp: nat)

  datatype Transfer = Transfer(
    id: Id, debit: Id, credit: Id, amount: nat, pendingID: Id,
    userData128: Id, userData64: nat, userData32: nat,
    timeout: nat, ledger: nat, code: nat, flags: TransferFlags, timestamp: nat)

  datatype AccountField = AFlags | AUserData128 | AUserData64 | AUserData32 | ALedger | ACode
  datatype AccountStatus = AccountCreated | AccountExists | AccountExistsWithDifferent(accountField: AccountField)
  datatype AccountResult = AccountResult(status: AccountStatus, timestamp: nat)

  datatype TransferField =
    | TFlags | TTimeout | TDebit | TCredit | TAmount | TUserData128 | TUserData64 | TUserData32
    | TPendingID | TLedger | TCode
  datatype TransferStatus =
    | TransferCreated
    | TransferExists
    | TransferExistsWithDifferent(transferField: TransferField)
    | TransferIDAlreadyFailed
    | TransferDebitAccountNotFound
    | TransferCreditAccountNotFound
    | TransferOverflowsDebits
    | TransferExceedsCredits
    | TransferExceedsDebits
  datatype TransferResult = TransferResult(status: TransferStatus, timestamp: nat)
}
