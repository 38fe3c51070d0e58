/** What a request knows at each of its program points, and why other requests cannot falsify it. */
module RequestFacts {
  import opened Wrappers
  import opened TigerBeetle
  import opened AccountModel
  import opened Ledger
  import opened Recipes
  import opened Timeouts
  import opened LedgerInvariant
  import opened LedgerSteps
  import opened Requests

  /** The instance works on the ledger that the provisioned system accounts belong to. */
  predicate Bound(cfg: Config, s: State) {
    CASH in s.accounts && SETTLEMENT in s.accounts && LedgerOf(s) == cfg.ledgerID
  }

  predicate ValidConfig(cfg: Config) {
    && 0 < cfg.ledgerID
    && 0 < StoredTimeout(cfg.authorizationTimeout) < UINT32
    && cfg.authorizationTimeout == StoredTimeout(cfg.authorizationTimeout) * SECOND
  }

  lemma NewIsValid(settings: Settings)
    requires Accepted(settings)
    ensures ValidConfig(New(settings))
    ensures settings.authorizationTimeout <= New(settings).authorizationTimeout < settings.authorizationTimeout + SECOND
    ensures New(settings).ledgerID == settings.ledgerID && New(settings).riskLimit == settings.riskLimit
  {
  }

  /** `t` is the transfer that the request asks for: exactly its recipe, or for an increment its recipe in the group
      of the stored authorization, up to the timeout. */
  predicate Wanted(cfg: Config, request: Request, s: State, t: Transfer) {
    if request.IncrementAuthorization? then
      && IsAuthorization(s, request.authorization)
      && SameTransferExceptTimeout(t, IncrementTransfer(cfg.ledgerID, request.id, request.authorization,
                                                        s.transfers[request.authorization], request.amount, 0))
    else request.MovesMoney() && SameTransfer(t, TransferOf(cfg, request))
  }

  predicate Holds(request: Request) {
    request.Authorize? || request.IncrementAuthorization?
  }

  /** A hold is submitted only within the automatic approval limit. */
  predicate WithinLimit(cfg: Config, t: Transfer) {
    t.code == AUTHORIZATION || t.code == INCREMENT ==> t.amount <= cfg.riskLimit
  }

  /** A response that the ledger state bears out. */
  predicate Truthful(cfg: Config, request: Request, r: Response, s: State) {
    match r
    case Refused(error) =>
      // A reported conflict is real: the ID is taken by another payload.
      error == IdempotencyConflict && request.MovesMoney() ==>
        && request.id in s.transfers && !Wanted(cfg, request, s, s.transfers[request.id])
        && (request.IncrementAuthorization? ==> IsAuthorization(s, request.authorization))
    case Provisioned => request.Provision? && Bound(cfg, s)
    case AccountReady(_, timestamp) =>
      && request.OpenAccount? && request.account in s.accounts
      && AccountOf(cfg, request) == Ok(Definition(s.accounts[request.account]))
      && timestamp == s.accounts[request.account].timestamp
    case Balance(metadata, posted, available, row) =>
      && request == ReadBalance(row.id) && row.id in s.accounts && Definition(row) == Definition(s.accounts[row.id])
      && MetadataIn(s, row.id) == Some(metadata)
      && posted == (if metadata.kind == SafeguardedCash then row.debitsPosted - row.creditsPosted
                    else row.creditsPosted - row.debitsPosted)
      && available == posted - (if metadata.kind == SafeguardedCash then row.creditsPending else row.debitsPending)
      && available >= 0
    case Reply(outcome, ledgerStatus, timestamp, expiresAt, code, http) =>
      && request.MovesMoney()
      && (r.Succeeded() ==>
            && code == NoCode && http == 200
            && ledgerStatus.Some? && (ledgerStatus.value.TransferCreated? || ledgerStatus.value.TransferExists?)
            && request.id in s.transfers
            && Wanted(cfg, request, s, s.transfers[request.id])
            && timestamp == s.transfers[request.id].timestamp
            && (outcome == Approved <==> Holds(request))
            && expiresAt == (if request.Authorize? then Some(timestamp + cfg.authorizationTimeout) else None))
      // Nothing that failed has a ledger timestamp or an expiry.
      && (!r.Succeeded() ==> timestamp == 0 && expiresAt.None?)
      // A ledger rejection is for lack of funds or repeats one, and its ID is burnt.
      && (!r.Succeeded() && ledgerStatus.Some? ==>
            && (ledgerStatus.value.TransferExceedsCredits? || ledgerStatus.value.TransferIDAlreadyFailed?)
            && request.id in s.failed
            && (if ledgerStatus.value.TransferIDAlreadyFailed?
                then outcome == Rejected && code == PreviousAttemptFailed && http == 409
                else code == InsufficientFunds && (if Holds(request) then outcome == Declined && http == 200
                                                   else outcome == Rejected && http == 422)))
      // A hold declined without a submission is over the limit, or an increment of a stored transfer. What the lookup
      // found at that moment can change later, so Linearization states it of one moment of the run.
      && (!r.Succeeded() && ledgerStatus.None? ==>
            && outcome == Declined
            && (|| (code == RiskLimitExceeded && Holds(request) && request.amount > cfg.riskLimit && http == 200)
                || (code == AuthorizationNotOpen && request.IncrementAuthorization? && http == 409
                    && request.authorization in s.transfers)))
  }

  predicate OrderOf(request: Request, order: Order) {
    request == IncrementAuthorization(order.id, order.authorization, order.amount) && WellFormedRequest(request)
  }

  predicate OriginalIs(s: State, order: Order, original: Transfer) {
    && IsAuthorization(s, order.authorization) && s.transfers[order.authorization] == original
  }

  predicate Asks(cfg: Config, request: Request, t: Transfer) {
    && WellFormedRequest(request) && request.MovesMoney() && !request.IncrementAuthorization?
    && t == TransferOf(cfg, request)
  }

  /** What is known while an account is being checked. */
  predicate NextFacts(cfg: Config, request: Request, id: Id, expected: AccountKind, next: Next, s: State) {
    match next
    case ThenSubmit(t) =>
      Asks(cfg, request, t) && (request.TopUp? || request.Withdraw?) && id == request.account && expected == CorporateWallet
    case ThenCheckCard(card, account, t) =>
      && Asks(cfg, request, t) && request.MoveFunds?
      && id == account == request.account && card == request.card && expected == CorporateWallet
    case ThenMove(account, t) =>
      && Asks(cfg, request, t) && request.MoveFunds?
      && id == request.card && account == request.account && expected == CardWallet && IsCorporate(s, account)
    case ThenRisk(t) =>
      Asks(cfg, request, t) && request.Authorize? && id == request.card && expected == CardWallet
    case ThenIncrementRisk(order, original) =>
      OrderOf(request, order) && OriginalIs(s, order, original) && id == original.debit && expected == CardWallet
    case ThenOpen(row) =>
      && WellFormedRequest(request) && request.OpenAccount? && request.kind.CardWallet? && request.parent == Some(id)
      && AccountOf(cfg, request) == Ok(row) && expected == CorporateWallet
  }

  /** The account definition that the request asks for. */
  predicate AsksAccount(cfg: Config, request: Request, row: Account) {
    if request.Provision? then row.ledger == cfg.ledgerID && IsSystemAccountID(row.id)
    else request.OpenAccount? && WellFormedRequest(request) && AccountOf(cfg, request) == Ok(row)
  }

  /** What a request knows at a point, in any ledger state that others may have grown meanwhile. */
  predicate Facts(cfg: Config, request: Request, point: Point, s: State) {
    match point
    case Received => true
    case Probe(id, expected, next) => NextFacts(cfg, request, id, expected, next, s)
    case LookupRow(id, expected, next) => NextFacts(cfg, request, id, expected, next, s)
    case KeepMetadata(id, metadata, next) =>
      NextFacts(cfg, request, id, metadata.kind, next, s) && MetadataIn(s, id) == Some(metadata)
    case EvaluateRisk(t) => Asks(cfg, request, t) && request.Authorize? && Recipe(s, t)
    case FindAuthorization(t) => Asks(cfg, request, t) && request.Authorize? && Recipe(s, t) && t.amount > cfg.riskLimit
    case ReadOriginal(order) => OrderOf(request, order)
    case EvaluateIncrementRisk(order, original) => OrderOf(request, order) && OriginalIs(s, order, original)
    case ReadClock(order, original) =>
      OrderOf(request, order) && OriginalIs(s, order, original) && order.amount <= cfg.riskLimit
    case FindIncrement(order, original, expired) =>
      OrderOf(request, order) && OriginalIs(s, order, original) && (expired <==> order.amount <= cfg.riskLimit)
    case Submit(t) => Recipe(s, t) && Wanted(cfg, request, s, t) && WithinLimit(cfg, t)
    case Recover(t) => Recipe(s, t) && Wanted(cfg, request, s, t) && t.id in s.transfers && request.IncrementAuthorization?
    case SubmitAccount(row) => LegalAccount(s, row) && AsksAccount(cfg, request, row)
    case KeepAccount(row, r) =>
      && AsksAccount(cfg, request, row) && row.id in s.accounts && Definition(s.accounts[row.id]) == row
      && r.timestamp == s.accounts[row.id].timestamp
      && (request.Provision? && row.id != CASH ==> Bound(cfg, s))
    case LookupBalance(id) => request == ReadBalance(id)
    case KeepBalance(row, metadata) =>
      && request == ReadBalance(row.id) && row.id in s.accounts && Definition(row) == Definition(s.accounts[row.id])
      && MetadataIn(s, row.id) == Some(metadata) && WithinLimits(row)
    case Done(r) => Truthful(cfg, request, r, s)
  }

  // ----- Stability under the steps of others -----

  lemma BoundStable(cfg: Config, s: State, s': State)
    requires Extends(s, s') && Bound(cfg, s)
    ensures Bound(cfg, s')
  {
  }

  lemma WantedStable(cfg: Config, request: Request, s: State, s': State, t: Transfer)
    requires Extends(s, s')
    ensures Wanted(cfg, request, s, t) ==> Wanted(cfg, request, s', t)
    ensures (request.IncrementAuthorization? ==> IsAuthorization(s, request.authorization)) ==>
            (Wanted(cfg, request, s, t) <==> Wanted(cfg, request, s', t))
  {
  }

  lemma TruthfulStable(cfg: Config, request: Request, r: Response, s: State, s': State)
    requires Extends(s, s') && Truthful(cfg, request, r, s) && (request.Provision? || CASH in s.accounts)
    ensures Truthful(cfg, request, r, s')
  {
  }

  lemma NextFactsStable(cfg: Config, request: Request, id: Id, expected: AccountKind, next: Next, s: State, s': State)
    requires Extends(s, s') && NextFacts(cfg, request, id, expected, next, s)
    requires request.Provision? || CASH in s.accounts
    ensures NextFacts(cfg, request, id, expected, next, s') && CASH in s.accounts
  {
  }

  /** Account checks, account creation and balance reads. */
  lemma AccountFactsStable(cfg: Config, request: Request, point: Point, s: State, s': State)
    requires Extends(s, s') && Facts(cfg, request, point, s) && (request.Provision? || CASH in s.accounts)
    requires point.Probe? || point.LookupRow? || point.KeepMetadata? || point.KeepAccount? || point.KeepBalance?
    ensures Facts(cfg, request, point, s')
  {
    hide NextFacts, AsksAccount, Definition, MetadataIn;
    match point
    case Probe(id, expected, next) => NextFactsStable(cfg, request, id, expected, next, s, s');
    case LookupRow(id, expected, next) => NextFactsStable(cfg, request, id, expected, next, s, s');
    case KeepMetadata(id, metadata, next) =>
      NextFactsStable(cfg, request, id, metadata.kind, next, s, s');
      MetadataKept(s, s', id);
    case KeepAccount(row, r) => if Bound(cfg, s) { BoundStable(cfg, s, s'); }
    case KeepBalance(row, metadata) => MetadataKept(s, s', row.id);
  }

  lemma MetadataKept(s: State, s': State, id: Id)
    requires Extends(s, s') && CASH in s.accounts && MetadataIn(s, id).Some?
    ensures MetadataIn(s', id) == MetadataIn(s, id)
  {
    MetadataStable(s, s', id);
  }

  lemma FactsStable(cfg: Config, request: Request, point: Point, s: State, s': State)
    requires Extends(s, s') && Facts(cfg, request, point, s)
    requires request.Provision? || CASH in s.accounts
    ensures Facts(cfg, request, point, s')
  {
    hide NextFacts, Truthful, LegalAccount, Recipe, Wanted, Asks, AsksAccount, OrderOf, Definition, Bound;
    match point
    case EvaluateRisk(t) => RecipeStable(s, s', t);
    case FindAuthorization(t) => RecipeStable(s, s', t);
    case Submit(t) => RecipeStable(s, s', t); WantedStable(cfg, request, s, s', t);
    case Recover(t) => RecipeStable(s, s', t); WantedStable(cfg, request, s, s', t);
    case SubmitAccount(row) => LegalAccountStable(s, s', row);
    case Done(r) => TruthfulStable(cfg, request, r, s, s');
    case Probe(_, _, _) => hide Facts, Extends; AccountFactsStable(cfg, request, point, s, s');
    case LookupRow(_, _, _) => hide Facts, Extends; AccountFactsStable(cfg, request, point, s, s');
    case KeepMetadata(_, _, _) => hide Facts, Extends; AccountFactsStable(cfg, request, point, s, s');
    case KeepAccount(_, _) => hide Facts, Extends; AccountFactsStable(cfg, request, point, s, s');
    case KeepBalance(_, _) => hide Facts, Extends; AccountFactsStable(cfg, request, point, s, s');
    case _ =>
  }
}
