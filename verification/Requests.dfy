/** Each service operation as a small program: the points at which it touches the shared ledger or the instance's
    cache, and what it does with each answer. Other requests may run between any two of these points. */
module Requests {
  import opened Wrappers
  import opened TigerBeetle
  import opened AccountModel
  import opened Ledger
  import opened Recipes
  import opened Timeouts
  import opened MetadataCache

  // ----- Configuration -----

  datatype Settings = Settings(ledgerID: nat, authorizationTimeout: int, riskLimit: nat, cacheSize: int)

  predicate Accepted(settings: Settings) {
    && 0 < settings.ledgerID < UINT32
    && AcceptedTimeout(settings.authorizationTimeout)
    && 0 < settings.riskLimit < UINT64
    && 0 <= settings.cacheSize <= 10_000_000
  }

  datatype Config = Config(ledgerID: nat, authorizationTimeout: int, riskLimit: nat)

  function New(settings: Settings): Config {
    Config(settings.ledgerID, RoundedTimeout(settings.authorizationTimeout), settings.riskLimit)
  }

  // ----- Requests and responses -----

  /** Requests after their IDs have been parsed; a malformed ID is zero. `merchant64` and `merchant32` are the
      fingerprint of the merchant ID. `Provision` is the start-up of an instance. */
  datatype Request =
    | Provision
    | OpenAccount(account: Id, kind: AccountKind, parent: Option<Id>)
    | ReadBalance(account: Id)
    | TopUp(id: Id, account: Id, amount: Uint64)
    | Withdraw(id: Id, account: Id, amount: Uint64)
    | MoveFunds(id: Id, account: Id, card: Id, amount: Uint64, back: bool)
    | Authorize(id: Id, card: Id, merchant64: nat, merchant32: nat, amount: Uint64)
    | IncrementAuthorization(id: Id, authorization: Id, amount: Uint64)
  {
    predicate MovesMoney() {
      TopUp? || Withdraw? || MoveFunds? || Authorize? || IncrementAuthorization?
    }
  }

  datatype Error =
    | InvalidRequest | AccountNotFound | AuthorizationNotFound | IdempotencyConflict | ProvisioningFailed
    | Unavailable   // the ledger call returned an error; whether it committed is unknown
    | Cancelled     // the caller went away during risk evaluation

  datatype Outcome = Posted | Approved | Declined | Rejected

  datatype Code =
    | NoCode | InsufficientFunds | MissingAccount | PreviousAttemptFailed | LedgerInvariantViolation
    | RiskLimitExceeded | AuthorizationNotOpen

  /** `ledgerStatus` is None when nothing was submitted. */
  datatype Response =
    | Refused(error: Error)
    | Provisioned
    | AccountReady(created: bool, timestamp: nat)
    | Balance(metadata: Metadata, posted: int, available: int, row: Account)
    | Reply(outcome: Outcome, ledgerStatus: Option<TransferStatus>, timestamp: nat, expiresAt: Option<int>,
            code: Code, http: nat)
  {
    predicate Succeeded() {
      Reply? && (outcome == Posted || outcome == Approved)
    }

    /** No verdict was reached: the same request has to be retried. */
    predicate Interrupted() {
      Refused? && (error == Unavailable || error == Cancelled)
    }
  }

  predicate WellFormedRequest(request: Request) {
    match request
    case Provision => true
    case OpenAccount(account, kind, parent) =>
      && ValidAccountID(account)
      && (match kind
          case CorporateWallet => parent.None?
          case CardWallet => parent.Some? && ValidAccountID(parent.value) && parent.value != account
          case _ => false)
    case ReadBalance(account) => ValidID(account)
    case TopUp(id, account, amount) => ValidAccountID(account) && amount > 0 && ValidID(id)
    case Withdraw(id, account, amount) => ValidAccountID(account) && amount > 0 && ValidID(id)
    case MoveFunds(id, account, card, amount, _) =>
      ValidAccountID(account) && ValidAccountID(card) && amount > 0 && ValidID(id)
    case Authorize(id, card, _, _, amount) => ValidAccountID(card) && amount > 0 && ValidID(id)
    case IncrementAuthorization(id, authorization, amount) =>
      ValidID(authorization) && amount > 0 && ValidID(id) && id != authorization
  }

  /** The transfer of a request whose recipe does not depend on the ledger. */
  function TransferOf(cfg: Config, request: Request): Transfer
    requires request.MovesMoney() && !request.IncrementAuthorization?
  {
    match request
    case TopUp(id, account, amount) => PostedTransfer(cfg.ledgerID, TOP_UP, id, CASH, account, amount)
    case Withdraw(id, account, amount) => PostedTransfer(cfg.ledgerID, WITHDRAWAL, id, account, CASH, amount)
    case MoveFunds(id, account, card, amount, back) =>
      if back then PostedTransfer(cfg.ledgerID, CARD_RETURN, id, card, account, amount)
      else PostedTransfer(cfg.ledgerID, ALLOCATION, id, account, card, amount)
    case Authorize(id, card, merchant64, merchant32, amount) =>
      AuthorizationTransfer(cfg.ledgerID, id, card, amount, merchant64, merchant32,
                            StoredTimeout(cfg.authorizationTimeout))
  }

  function AccountOf(cfg: Config, request: Request): Result<Account, RecipeError>
    requires request.OpenAccount?
  {
    AccountRecipe(request.kind, request.account, if request.parent.Some? then request.parent.value else 0, cfg.ledgerID)
  }

  // ----- Reading ledger results -----

  predicate IsIdempotencyConflict(status: TransferStatus) {
    status.TransferExistsWithDifferent?
  }

  function ErrorCode(status: TransferStatus): (Code, nat) {
    match status
    case TransferExceedsCredits | TransferExceedsDebits => (InsufficientFunds, 422)
    case TransferDebitAccountNotFound | TransferCreditAccountNotFound => (MissingAccount, 404)
    case TransferIDAlreadyFailed => (PreviousAttemptFailed, 409)
    case _ => (LedgerInvariantViolation, 500)
  }

  /** The response to a submitted transfer. */
  function Answer(cfg: Config, t: Transfer, r: TransferResult): Response {
    var hold := t.code == AUTHORIZATION || t.code == INCREMENT;
    if IsIdempotencyConflict(r.status) then Refused(IdempotencyConflict)
    else if r.status.TransferCreated? || r.status.TransferExists? then
      Reply(if hold then Approved else Posted, Some(r.status), r.timestamp,
            if t.code == AUTHORIZATION then Some(r.timestamp + cfg.authorizationTimeout) else None, NoCode, 200)
    else
      var (code, http) := ErrorCode(r.status);
      if hold && code == InsufficientFunds then Reply(Declined, Some(r.status), r.timestamp, None, code, 200)
      else Reply(Rejected, Some(r.status), r.timestamp, None, code, http)
  }

  /** The check that an increment makes on the transfer it names. */
  predicate OpenAuthorization(cfg: Config, original: Transfer) {
    && original.flags == PENDING
    && original.code == AUTHORIZATION
    && original.ledger == cfg.ledgerID
    && original.credit == SETTLEMENT
    && original.userData128 == original.id
    && original.pendingID == 0
    && original.timeout != 0
  }

  const NOT_OPEN := Reply(Declined, None, 0, None, AuthorizationNotOpen, 409)
  const OVER_LIMIT := Reply(Declined, None, 0, None, RiskLimitExceeded, 200)

  /** What an uncached lookup by this instance says about an account. */
  function LookupMetadata(ledger: nat, s: State, id: Id): Option<Metadata> {
    if id in s.accounts then MetadataForAccount(ledger, s.accounts[id]) else None
  }

  // ----- Program points -----

  /** What follows a successful account-kind check. */
  datatype Next =
    | ThenSubmit(transfer: Transfer)
    | ThenCheckCard(card: Id, account: Id, transfer: Transfer)
    | ThenMove(account: Id, transfer: Transfer)
    | ThenRisk(transfer: Transfer)
    | ThenIncrementRisk(order: Order, original: Transfer)
    | ThenOpen(row: Account)

  datatype Order = Order(id: Id, authorization: Id, amount: Uint64)

  datatype Point =
    | Received
    | Probe(id: Id, expected: AccountKind, next: Next)
    | LookupRow(id: Id, expected: AccountKind, next: Next)
    | KeepMetadata(id: Id, metadata: Metadata, next: Next)
    | EvaluateRisk(transfer: Transfer)
    | FindAuthorization(transfer: Transfer)
    | ReadOriginal(order: Order)
    | EvaluateIncrementRisk(order: Order, original: Transfer)
    | ReadClock(order: Order, original: Transfer)
    | FindIncrement(order: Order, original: Transfer, expired: bool)
    | Submit(transfer: Transfer)
    | Recover(transfer: Transfer)
    | SubmitAccount(row: Account)
    | KeepAccount(row: Account, result: AccountResult)
    | LookupBalance(id: Id)
    | KeepBalance(row: Account, metadata: Metadata)
    | Done(response: Response)

  /** What the environment decides at a step: whether a ledger call loses its request or its response, whether the
      caller cancels, and what the instance's clock reads. */
  datatype Fault = Fine | LostBefore | LostAfter
  datatype Choice = Choice(fault: Fault, cancelled: bool, now: int)

  datatype Moved = Moved(point: Point, cache: Ring, ledger: State)

  function Start(cfg: Config, request: Request): Point {
    if !WellFormedRequest(request) then Done(Refused(InvalidRequest))
    else match request
      case Provision =>
        var cash := AccountRecipe(SafeguardedCash, CASH, 0, cfg.ledgerID);
        if cash.Err? then Done(Refused(ProvisioningFailed)) else SubmitAccount(cash.value)
      case OpenAccount(_, kind, parent) =>
        var row := AccountOf(cfg, request);
        if row.Err? then Done(Refused(InvalidRequest))
        else if kind.CardWallet? && parent.Some? then Probe(parent.value, CorporateWallet, ThenOpen(row.value))
        else SubmitAccount(row.value)
      case ReadBalance(account) => LookupBalance(account)
      case TopUp(_, account, _) => Probe(account, CorporateWallet, ThenSubmit(TransferOf(cfg, request)))
      case Withdraw(_, account, _) => Probe(account, CorporateWallet, ThenSubmit(TransferOf(cfg, request)))
      case MoveFunds(_, account, card, _, _) =>
        Probe(account, CorporateWallet, ThenCheckCard(card, account, TransferOf(cfg, request)))
      case Authorize(_, card, _, _, _) => Probe(card, CardWallet, ThenRisk(TransferOf(cfg, request)))
      case IncrementAuthorization(id, authorization, amount) => ReadOriginal(Order(id, authorization, amount))
  }

  function Resume(next: Next, metadata: Metadata): Point {
    match next
    case ThenSubmit(t) => Submit(t)
    case ThenCheckCard(card, account, t) => Probe(card, CardWallet, ThenMove(account, t))
    case ThenMove(account, t) => if metadata.parent != account then Done(Refused(InvalidRequest)) else Submit(t)
    case ThenRisk(t) => EvaluateRisk(t)
    case ThenIncrementRisk(order, original) => EvaluateIncrementRisk(order, original)
    case ThenOpen(row) => SubmitAccount(row)
  }

  function WrongKind(next: Next): Point {
    if next.ThenIncrementRisk? then Done(NOT_OPEN) else Done(Refused(AccountNotFound))
  }

  function Remember(cfg: Config, cache: Ring, row: Account): Ring {
    var metadata := MetadataForAccount(cfg.ledgerID, row);
    if metadata.None? then cache else Store(cache, row.id, metadata.value)
  }

  // ----- One step at each kind of point -----

  function StepProbe(cache: Ring, id: Id, expected: AccountKind, next: Next): Point {
    var cached := Load(cache, id);
    if cached.None? then LookupRow(id, expected, next)
    else if cached.value.kind == expected then Resume(next, cached.value)
    else WrongKind(next)
  }

  function StepLookupRow(cfg: Config, s: State, id: Id, expected: AccountKind, next: Next): Point {
    var found := LookupMetadata(cfg.ledgerID, s, id);
    if found.None? || found.value.kind != expected then WrongKind(next) else KeepMetadata(id, found.value, next)
  }

  function StepFindAuthorization(cfg: Config, s: State, t: Transfer): Response {
    if t.id !in s.transfers then OVER_LIMIT
    else
      var existing := s.transfers[t.id];
      if !SameTransfer(existing, t) then Refused(IdempotencyConflict)
      else Reply(Approved, Some(TransferExists), existing.timestamp,
                 Some(existing.timestamp + cfg.authorizationTimeout), NoCode, 200)
  }

  function StepReadOriginal(cfg: Config, s: State, order: Order): Point {
    if order.authorization !in s.transfers then Done(Refused(AuthorizationNotFound))
    else
      var original := s.transfers[order.authorization];
      if !OpenAuthorization(cfg, original) then Done(NOT_OPEN)
      else Probe(original.debit, CardWallet, ThenIncrementRisk(order, original))
  }

  function StepReadClock(cfg: Config, order: Order, original: Transfer, now: int): Point {
    var remaining := Remaining(Expiry(original.timestamp, original.timeout), now);
    if original.timeout != 0 && remaining <= 0 then FindIncrement(order, original, true)
    else Submit(IncrementTransfer(cfg.ledgerID, order.id, order.authorization, original, order.amount,
                                  DerivedTimeout(remaining, original.timeout)))
  }

  function StepFindIncrement(cfg: Config, s: State, order: Order, original: Transfer, expired: bool): Response {
    if order.id !in s.transfers then (if expired then NOT_OPEN else OVER_LIMIT)
    else
      var existing := s.transfers[order.id];
      var expected := IncrementTransfer(cfg.ledgerID, order.id, order.authorization, original, order.amount, 0);
      if !SameTransferExceptTimeout(existing, expected) then Refused(IdempotencyConflict)
      else Reply(Approved, Some(TransferExists), existing.timestamp, None, NoCode, 200)
  }

  function AfterSubmit(cfg: Config, t: Transfer, r: TransferResult): Point {
    if t.code == INCREMENT && r.status == TransferExistsWithDifferent(TTimeout) then Recover(t)
    else Done(Answer(cfg, t, r))
  }

  function StepRecover(cfg: Config, s: State, t: Transfer): Response {
    if t.id in s.transfers && SameTransferExceptTimeout(s.transfers[t.id], t)
    then Answer(cfg, t, TransferResult(TransferExists, s.transfers[t.id].timestamp))
    else Answer(cfg, t, TransferResult(TransferExistsWithDifferent(TTimeout), 0))
  }

  function AfterSubmitAccount(request: Request, row: Account, r: AccountResult): Point {
    if r.status.AccountCreated? || r.status.AccountExists? then KeepAccount(row, r)
    else Done(Refused(if request.Provision? then ProvisioningFailed else IdempotencyConflict))
  }

  function AfterKeepAccount(cfg: Config, request: Request, row: Account, r: AccountResult): Point {
    if !request.Provision? then Done(AccountReady(r.status.AccountCreated?, r.timestamp))
    else if row.id != CASH then Done(Provisioned)
    else
      var settlement := AccountRecipe(CardSettlementPayable, SETTLEMENT, 0, cfg.ledgerID);
      if settlement.Err? then Done(Refused(ProvisioningFailed)) else SubmitAccount(settlement.value)
  }

  function StepLookupBalance(cfg: Config, s: State, id: Id): Point {
    if LookupMetadata(cfg.ledgerID, s, id).None? then Done(Refused(AccountNotFound))
    else KeepBalance(s.accounts[id], LookupMetadata(cfg.ledgerID, s, id).value)
  }

  function BalanceOf(row: Account, metadata: Metadata): Response {
    var (posted, available) := Balances(row, metadata.kind);
    Balance(metadata, posted, available, row)
  }

  const LOST := Done(Refused(Unavailable))

  /** One atomic step of a request. */
  function Step(cfg: Config, request: Request, point: Point, cache: Ring, s: State, choice: Choice): Moved {
    var fine := choice.fault.Fine?;
    match point
    case Received => Moved(Start(cfg, request), cache, s)
    case Probe(id, expected, next) => Moved(StepProbe(cache, id, expected, next), cache, s)
    case LookupRow(id, expected, next) => Moved(if fine then StepLookupRow(cfg, s, id, expected, next) else LOST, cache, s)
    case KeepMetadata(id, metadata, next) => Moved(Resume(next, metadata), Store(cache, id, metadata), s)
    case EvaluateRisk(t) =>
      Moved(if choice.cancelled then Done(Refused(Cancelled))
            else if t.amount <= cfg.riskLimit then Submit(t) else FindAuthorization(t), cache, s)
    case FindAuthorization(t) => Moved(if fine then Done(StepFindAuthorization(cfg, s, t)) else LOST, cache, s)
    case ReadOriginal(order) => Moved(if fine then StepReadOriginal(cfg, s, order) else LOST, cache, s)
    case EvaluateIncrementRisk(order, original) =>
      Moved(if choice.cancelled then Done(Refused(Cancelled))
            else if order.amount <= cfg.riskLimit then ReadClock(order, original)
            else FindIncrement(order, original, false), cache, s)
    case ReadClock(order, original) => Moved(StepReadClock(cfg, order, original, choice.now), cache, s)
    case FindIncrement(order, original, expired) =>
      Moved(if fine then Done(StepFindIncrement(cfg, s, order, original, expired)) else LOST, cache, s)
    case Submit(t) =>
      if choice.fault.LostBefore? then Moved(LOST, cache, s)
      else Moved(if fine then AfterSubmit(cfg, t, CreateTransfer(s, t).1) else LOST, cache, CreateTransfer(s, t).0)
    case Recover(t) => Moved(if fine then Done(StepRecover(cfg, s, t)) else LOST, cache, s)
    case SubmitAccount(row) =>
      if choice.fault.LostBefore? then Moved(LOST, cache, s)
      else Moved(if fine then AfterSubmitAccount(request, row, CreateAccount(s, row).1) else LOST,
                 cache, CreateAccount(s, row).0)
    case KeepAccount(row, r) => Moved(AfterKeepAccount(cfg, request, row, r), Remember(cfg, cache, row), s)
    case LookupBalance(id) => Moved(if fine then StepLookupBalance(cfg, s, id) else LOST, cache, s)
    case KeepBalance(row, metadata) => Moved(Done(BalanceOf(row, metadata)), Remember(cfg, cache, row), s)
    case Done(_) => Moved(point, cache, s)
  }
}
