/** Every step of every request keeps the ledger invariant, its own facts and the truth of its instance's cache. */
module RequestSteps {
  import opened Wrappers
  import opened TigerBeetle
  import opened AccountModel
  import opened Ledger
  import opened Recipes
  import opened Timeouts
  import opened MetadataCache
  import opened LedgerInvariant
  import opened LedgerSteps
  import opened Requests
  import opened RequestFacts

  // ----- The cache -----

  /** Everything cached is what a lookup would say now. */
  predicate CacheSound(cfg: Config, cache: Ring, s: State) {
    forall id :: id in cache.entries ==> LookupMetadata(cfg.ledgerID, s, id) == Some(cache.entries[id])
  }

  lemma LookupStable(ledger: nat, s: State, s': State, id: Id)
    requires Extends(s, s') && id in s.accounts
    ensures LookupMetadata(ledger, s', id) == LookupMetadata(ledger, s, id)
  {
  }

  lemma CacheSoundStable(cfg: Config, cache: Ring, s: State, s': State)
    requires Extends(s, s') && CacheSound(cfg, cache, s)
    ensures CacheSound(cfg, cache, s')
  {
  }

  lemma StoreSound(cfg: Config, cache: Ring, id: Id, metadata: Metadata, s: State)
    requires CacheSound(cfg, cache, s) && LookupMetadata(cfg.ledgerID, s, id) == Some(metadata)
    ensures CacheSound(cfg, Store(cache, id, metadata), s)
  {
    hide WellFormed, LookupMetadata;
  }

  lemma RememberSound(cfg: Config, cache: Ring, row: Account, s: State)
    requires CacheSound(cfg, cache, s) && row.id in s.accounts && Definition(row) == Definition(s.accounts[row.id])
    ensures CacheSound(cfg, Remember(cfg, cache, row), s)
  {
    MetadataOfDefinition(cfg.ledgerID, row, s.accounts[row.id]);
    hide MetadataForAccount, Store;
    if MetadataForAccount(cfg.ledgerID, row).Some? {
      StoreSound(cfg, cache, row.id, MetadataForAccount(cfg.ledgerID, row).value, s);
    }
  }

  // ----- Recipes that the requests build -----

  /** A request whose accounts have the right kinds builds a recipe. */
  lemma AskedIsRecipe(cfg: Config, request: Request, t: Transfer, s: State)
    requires AccountsOK(s) && Bound(cfg, s) && ValidConfig(cfg) && Asks(cfg, request, t)
    requires request.TopUp? || request.Withdraw? || request.MoveFunds? ==> IsCorporate(s, request.account)
    requires request.MoveFunds? ==> IsCardOf(s, request.card, request.account)
    requires request.Authorize? ==> IsCard(s, request.card)
    ensures Recipe(s, t)
    ensures Wanted(cfg, request, s, t)
  {
  }

  lemma CorporateHasNoParent(s: State, id: Id)
    requires MetadataIn(s, id).Some? && MetadataIn(s, id).value.kind == CorporateWallet
    ensures IsCorporate(s, id)
  {
  }

  lemma ResumeFacts(cfg: Config, request: Request, id: Id, metadata: Metadata, next: Next, s: State)
    requires AccountsOK(s) && Bound(cfg, s) && ValidConfig(cfg)
    requires NextFacts(cfg, request, id, metadata.kind, next, s) && MetadataIn(s, id) == Some(metadata)
    ensures Facts(cfg, request, Resume(next, metadata), s)
  {
    if metadata.kind == CorporateWallet { CorporateHasNoParent(s, id); }
    hide Recipe, Wanted, AccountsOK, Bound, MetadataIn, ValidConfig;
    match next
    case ThenSubmit(t) => AskedIsRecipe(cfg, request, t, s);
    case ThenMove(account, t) => if metadata.parent == account { AskedIsRecipe(cfg, request, t, s); }
    case ThenRisk(t) => AskedIsRecipe(cfg, request, t, s);
    case ThenOpen(row) => OpenIsLegal(cfg, request, row, s);
    case _ =>
  }

  lemma OpenIsLegal(cfg: Config, request: Request, row: Account, s: State)
    requires Bound(cfg, s) && WellFormedRequest(request) && request.OpenAccount? && AccountOf(cfg, request) == Ok(row)
    requires request.kind.CardWallet? ==> request.parent.Some? && IsCorporate(s, request.parent.value)
    ensures LegalAccount(s, row) && AsksAccount(cfg, request, row)
  {
  }

  lemma StartFacts(cfg: Config, request: Request, s: State)
    requires ValidConfig(cfg) && (request.Provision? || Bound(cfg, s))
    ensures Facts(cfg, request, Start(cfg, request), s)
  {
  }

  lemma WrongKindFacts(cfg: Config, request: Request, id: Id, expected: AccountKind, next: Next, s: State)
    requires NextFacts(cfg, request, id, expected, next, s)
    ensures Facts(cfg, request, WrongKind(next), s)
  {
  }

  // ----- Lookups -----

  lemma ProbeFacts(cfg: Config, request: Request, cache: Ring, id: Id, expected: AccountKind, next: Next, s: State)
    requires AccountsOK(s) && Bound(cfg, s) && ValidConfig(cfg) && CacheSound(cfg, cache, s)
    requires NextFacts(cfg, request, id, expected, next, s)
    ensures Facts(cfg, request, StepProbe(cache, id, expected, next), s)
  {
    WrongKindFacts(cfg, request, id, expected, next, s);
    hide Facts, AccountsOK, NextFacts, ValidConfig, WrongKind, Resume;
    if Load(cache, id).None? {
      LookupKeepsFacts(cfg, request, id, expected, next, s);
    } else if Load(cache, id).value.kind == expected {
      ResumeFacts(cfg, request, id, Load(cache, id).value, next, s);
    }
  }

  lemma LookupKeepsFacts(cfg: Config, request: Request, id: Id, expected: AccountKind, next: Next, s: State)
    requires NextFacts(cfg, request, id, expected, next, s)
    ensures Facts(cfg, request, LookupRow(id, expected, next), s)
  {
  }

  lemma LookupRowFacts(cfg: Config, request: Request, id: Id, expected: AccountKind, next: Next, s: State)
    requires Bound(cfg, s) && NextFacts(cfg, request, id, expected, next, s)
    ensures Facts(cfg, request, StepLookupRow(cfg, s, id, expected, next), s)
  {
    WrongKindFacts(cfg, request, id, expected, next, s);
    hide NextFacts, WrongKind, MetadataForAccount;
  }

  lemma FindAuthorizationFacts(cfg: Config, request: Request, t: Transfer, s: State)
    requires TransfersOK(s) && Asks(cfg, request, t) && request.Authorize? && t.amount > cfg.riskLimit
    ensures Truthful(cfg, request, StepFindAuthorization(cfg, s, t), s)
  {
  }

  lemma ReadOriginalFacts(cfg: Config, request: Request, order: Order, s: State)
    requires OrderOf(request, order)
    ensures Facts(cfg, request, StepReadOriginal(cfg, s, order), s)
  {
  }

  /** Among stored transfers, the increment's check accepts exactly the authorizations. */
  lemma OpenIsAuthorization(cfg: Config, s: State, id: Id)
    requires TransfersOK(s) && Bound(cfg, s) && id in s.transfers
    ensures OpenAuthorization(cfg, s.transfers[id]) <==> IsAuthorization(s, id)
    ensures IsAuthorization(s, id) ==> IsCard(s, s.transfers[id].debit)
  {
    hide MetadataIn, IsCard;
    assert StoredOK(s, id);
  }

  lemma IncrementIsRecipe(cfg: Config, request: Request, order: Order, original: Transfer, timeout: nat, s: State)
    requires TransfersOK(s) && Bound(cfg, s) && OrderOf(request, order) && OriginalIs(s, order, original)
    requires timeout <= original.timeout
    ensures var t := IncrementTransfer(cfg.ledgerID, order.id, order.authorization, original, order.amount, timeout);
              Recipe(s, t) && Wanted(cfg, request, s, t)
  {
    assert StoredOK(s, order.authorization);
    hide MetadataIn, TransfersOK;
  }

  lemma ReadClockFacts(cfg: Config, request: Request, order: Order, original: Transfer, now: int, s: State)
    requires TransfersOK(s) && Bound(cfg, s) && OrderOf(request, order) && OriginalIs(s, order, original)
    requires order.amount <= cfg.riskLimit
    ensures Facts(cfg, request, StepReadClock(cfg, order, original, now), s)
  {
    var remaining := Remaining(Expiry(original.timestamp, original.timeout), now);
    hide TransfersOK, Bound, OriginalIs, OrderOf, Recipe, Wanted, Remaining;
    assert DerivedTimeout(remaining, original.timeout) <= original.timeout;
    hide DerivedTimeout;
    IncrementIsRecipe(cfg, request, order, original, DerivedTimeout(remaining, original.timeout), s);
  }

  /** A new increment is submitted exactly while the original has life left on the instance's clock. */
  lemma ExpiredIsNotSubmitted(cfg: Config, order: Order, original: Transfer, now: int)
    requires original.timeout != 0
    ensures StepReadClock(cfg, order, original, now).Submit? <==> now < Expiry(original.timestamp, original.timeout)
  {
  }

  lemma FindIncrementFacts(cfg: Config, request: Request, order: Order, original: Transfer, expired: bool, s: State)
    requires OrderOf(request, order) && OriginalIs(s, order, original) && (expired <==> order.amount <= cfg.riskLimit)
    ensures Truthful(cfg, request, StepFindIncrement(cfg, s, order, original, expired), s)
  {
  }

  lemma BalanceFacts(cfg: Config, request: Request, id: Id, s: State)
    requires AccountsOK(s) && LimitsOK(s) && Bound(cfg, s) && request == ReadBalance(id)
    ensures Facts(cfg, request, StepLookupBalance(cfg, s, id), s)
  {
    if id in s.accounts { assert RowOK(s, id) && WithinLimits(s.accounts[id]); }
    hide MetadataForAccount;
  }

  /** The reported available balance is never negative. */
  lemma AvailableIsNonNegative(ledger: nat, row: Account, metadata: Metadata)
    requires MetadataForAccount(ledger, row) == Some(metadata) && WithinLimits(row)
    ensures Balances(row, metadata.kind).1 >= 0
  {
  }

  // ----- Submissions -----

  /** The ledger's comparison with a stored transfer of the same ID, read as equality of payloads. */
  lemma CompareIsExact(existing: Transfer, t: Transfer)
    requires existing.id == t.id
    ensures CompareTransfers(existing, t).TransferExists? <==> SameTransfer(existing, t)
    ensures SameTransferExceptTimeout(existing, t) && !SameTransfer(existing, t) ==>
            CompareTransfers(existing, t) == TransferExistsWithDifferent(TTimeout)
    ensures CompareTransfers(existing, t).TransferExists? || CompareTransfers(existing, t).TransferExistsWithDifferent?
  {
  }

  /** Two transfers that a request wants differ at most in timestamp, and for an increment in timeout. */
  lemma WantedIsUnique(cfg: Config, request: Request, s: State, t: Transfer, u: Transfer)
    requires Wanted(cfg, request, s, t)
    ensures t.id == request.id
    ensures request.Authorize? <==> t.code == AUTHORIZATION
    ensures request.IncrementAuthorization? <==> t.code == INCREMENT
    ensures if t.code == INCREMENT then Wanted(cfg, request, s, u) <==> SameTransferExceptTimeout(u, t)
            else Wanted(cfg, request, s, u) <==> SameTransfer(u, t)
  {
  }

  /** How every ledger rejection is told to the caller, those included that no run produces. */
  lemma RejectionsAreTold(cfg: Config, t: Transfer, r: TransferResult)
    requires !r.status.TransferCreated? && !r.status.TransferExists? && !r.status.TransferExistsWithDifferent?
    ensures (var hold := t.code == 1101 || t.code == 1102;
             var poor := r.status.TransferExceedsCredits? || r.status.TransferExceedsDebits?;
             var missing := r.status.TransferDebitAccountNotFound? || r.status.TransferCreditAccountNotFound?;
             var again := r.status.TransferIDAlreadyFailed?;
             Answer(cfg, t, r)
             == Reply(if hold && poor then Declined else Rejected, Some(r.status), r.timestamp, None,
                      if poor then InsufficientFunds else if missing then MissingAccount
                      else if again then PreviousAttemptFailed else LedgerInvariantViolation,
                      if hold && poor then 200 else if poor then 422 else if missing then 404 else if again then 409 else 500))
  {
  }

  lemma AnswerSuccess(cfg: Config, request: Request, t: Transfer, r: TransferResult, s: State)
    requires Wanted(cfg, request, s, t) && request.MovesMoney() && request.id in s.transfers
    requires Wanted(cfg, request, s, s.transfers[request.id])
    requires (r.status.TransferCreated? || r.status.TransferExists?) && r.timestamp == s.transfers[request.id].timestamp
    ensures Truthful(cfg, request, Answer(cfg, t, r), s) && Answer(cfg, t, r).Succeeded()
  {
  }

  lemma AnswerRejection(cfg: Config, request: Request, t: Transfer, status: TransferStatus, s: State)
    requires Wanted(cfg, request, s, t) && request.MovesMoney() && request.id in s.failed
    requires status.TransferExceedsCredits? || status.TransferIDAlreadyFailed?
    ensures Truthful(cfg, request, Answer(cfg, t, TransferResult(status, 0)), s)
  {
  }

  lemma SubmitStored(cfg: Config, request: Request, t: Transfer, s: State)
    requires TransfersOK(s) && IDsOK(s) && Recipe(s, t) && Wanted(cfg, request, s, t) && t.id in s.transfers
    ensures CreateTransfer(s, t).0 == s
    ensures Facts(cfg, request, AfterSubmit(cfg, t, CreateTransfer(s, t).1), s)
  {
    assert StoredOK(s, t.id);
    var existing := s.transfers[t.id];
    CompareIsExact(existing, t);
    WantedIsUnique(cfg, request, s, t, existing);
    hide Recipe, CompareTransfers, StoredOK, TransfersOK;
    if Wanted(cfg, request, s, existing) && CreateTransfer(s, t).1.status.TransferExists? {
      hide Wanted;
      AnswerSuccess(cfg, request, t, CreateTransfer(s, t).1, s);
    }
  }

  lemma SubmitNew(cfg: Config, request: Request, t: Transfer, s: State)
    requires Inv(s) && Recipe(s, t) && Wanted(cfg, request, s, t) && t.id !in s.transfers && t.id !in s.failed
    ensures var s' := CreateTransfer(s, t).0; Facts(cfg, request, AfterSubmit(cfg, t, CreateTransfer(s, t).1), s')
  {
    hide Inv, Recipe, Extends;
    OnlyFundsReject(s, t);
    CreateTransferInv(s, t);
    var s', r := CreateTransfer(s, t).0, CreateTransfer(s, t).1;
    WantedStable(cfg, request, s, s', t);
    WantedIsUnique(cfg, request, s', t, t.(timestamp := s'.clock));
    hide Wanted, Judge, Truthful;
    if r.status.TransferCreated? {
      assert s'.transfers[t.id] == t.(timestamp := s'.clock);
      hide Commit;
      AnswerSuccess(cfg, request, t, r, s');
    } else {
      AnswerRejection(cfg, request, t, r.status, s');
    }
  }

  lemma SubmitFacts(cfg: Config, request: Request, t: Transfer, s: State)
    requires Inv(s) && Recipe(s, t) && Wanted(cfg, request, s, t)
    ensures var s' := CreateTransfer(s, t).0; Facts(cfg, request, AfterSubmit(cfg, t, CreateTransfer(s, t).1), s')
  {
    hide Recipe, AccountsOK, TransfersOK, JournalOK, LimitsOK, SolventOK, BalancedOK, FamiliesOK;
    if t.id in s.failed {
      WantedIsUnique(cfg, request, s, t, t);
      hide Wanted;
      AnswerRejection(cfg, request, t, TransferIDAlreadyFailed, s);
    } else if t.id in s.transfers {
      hide Facts;
      SubmitStored(cfg, request, t, s);
    } else {
      hide Facts;
      SubmitNew(cfg, request, t, s);
    }
  }

  lemma RecoverFacts(cfg: Config, request: Request, t: Transfer, s: State)
    requires Wanted(cfg, request, s, t) && t.id in s.transfers && request.IncrementAuthorization?
    ensures Truthful(cfg, request, StepRecover(cfg, s, t), s)
  {
  }

  lemma SubmitAccountFacts(cfg: Config, request: Request, row: Account, s: State)
    requires Inv(s) && LegalAccount(s, row) && AsksAccount(cfg, request, row)
    requires request.Provision? || Bound(cfg, s)
    ensures var s' := CreateAccount(s, row).0;
              Facts(cfg, request, AfterSubmitAccount(request, row, CreateAccount(s, row).1), s')
  {
    hide Inv, LegalAccount, Extends, Definition, AccountOf, LedgerOf;
    CreateAccountOutcome(s, row);
    CreateAccountInv(s, row);
    var s' := CreateAccount(s, row).0;
    if request.Provision? && row.id != CASH && row.id in s'.accounts && Definition(s'.accounts[row.id]) == row {
      ProvisionedBound(cfg, s, s', row);
    }
    hide CreateAccount;
  }

  /** An instance that has been told both system accounts exist is bound to their ledger. */
  lemma ProvisionedBound(cfg: Config, s: State, s': State, row: Account)
    requires Extends(s, s') && LegalAccount(s, row) && row.id == SETTLEMENT && row.ledger == cfg.ledgerID
    requires SETTLEMENT in s'.accounts
    ensures Bound(cfg, s')
  {
  }

  lemma KeepAccountFacts(cfg: Config, request: Request, row: Account, r: AccountResult, s: State)
    requires ValidConfig(cfg) && Facts(cfg, request, KeepAccount(row, r), s)
    ensures Facts(cfg, request, AfterKeepAccount(cfg, request, row, r), s)
  {
  }

  lemma KeepBalanceFacts(cfg: Config, request: Request, row: Account, metadata: Metadata, s: State)
    requires Facts(cfg, request, KeepBalance(row, metadata), s)
    ensures Truthful(cfg, request, BalanceOf(row, metadata), s)
  {
    MetadataOfDefinition(LedgerOf(s), row, s.accounts[row.id]);
    AvailableIsNonNegative(LedgerOf(s), row, metadata);
    hide MetadataForAccount, WithinLimits;
  }

  // ----- One step of any request -----

  /** Past validation, a request is well formed. */
  predicate Formed(request: Request, point: Point) {
    point.Received? || WellFormedRequest(request) || point == Done(Refused(InvalidRequest))
  }

  /** What must hold around a request for it to take a step. */
  ghost predicate Ready(cfg: Config, request: Request, point: Point, s: State) {
    && Inv(s) && ValidConfig(cfg) && Facts(cfg, request, point, s) && Formed(request, point)
    && (request.Provision? || Bound(cfg, s))
  }

  lemma StepGrowsLedger(cfg: Config, request: Request, point: Point, cache: Ring, s: State, choice: Choice)
    requires Ready(cfg, request, point, s)
    ensures var s' := Step(cfg, request, point, cache, s, choice).ledger; Inv(s') && Extends(s, s')
  {
    hide Inv, Recipe, Wanted, LegalAccount, NextFacts, Truthful, CreateTransfer, CreateAccount, AsksAccount, Asks,
      ValidConfig, Bound, OrderOf, OriginalIs, Store, Remember, Definition, MetadataIn;
    hide StepProbe, StepLookupRow, StepFindAuthorization, StepReadOriginal, StepReadClock, StepFindIncrement, StepRecover,
      StepLookupBalance, BalanceOf, AfterKeepAccount, AfterSubmit, AfterSubmitAccount, Start, Resume;
    assert Extends(s, s);
    hide Extends;
    match point
    case Submit(t) => CreateTransferInv(s, t);
    case SubmitAccount(row) => CreateAccountInv(s, row);
    case _ =>
  }

  lemma StepCacheSound(cfg: Config, request: Request, point: Point, cache: Ring, s: State, choice: Choice)
    requires Ready(cfg, request, point, s) && CacheSound(cfg, cache, s)
    ensures CacheSound(cfg, Step(cfg, request, point, cache, s, choice).cache, s)
  {
    hide CacheSound, Store, Remember, Inv, Recipe, Wanted, LegalAccount, Truthful, CreateTransfer, CreateAccount;
    hide StepProbe, StepLookupRow, StepFindAuthorization, StepReadOriginal, StepReadClock, StepFindIncrement, StepRecover,
      StepLookupBalance, BalanceOf, AfterKeepAccount, AfterSubmit, AfterSubmitAccount, Start, Resume;
    match point
    case KeepMetadata(id, metadata, next) =>
      assert Bound(cfg, s);
      assert LookupMetadata(cfg.ledgerID, s, id) == MetadataIn(s, id);
      StoreSound(cfg, cache, id, metadata, s);
    case KeepAccount(row, r) => KeptRow(s, row); RememberSound(cfg, cache, row, s);
    case KeepBalance(row, metadata) => RememberSound(cfg, cache, row, s);
    case _ =>
  }

  lemma KeptRow(s: State, row: Account)
    requires row.id in s.accounts && Definition(s.accounts[row.id]) == row
    ensures Definition(row) == row
  {
  }

  /** Points of account checks, account creation and balance reads. */
  predicate AccountPoint(point: Point) {
    point.Received? || point.Probe? || point.LookupRow? || point.KeepMetadata? || point.KeepAccount?
    || point.LookupBalance? || point.KeepBalance?
  }

  lemma AccountPointFacts(cfg: Config, request: Request, point: Point, cache: Ring, s: State, choice: Choice)
    requires Ready(cfg, request, point, s) && CacheSound(cfg, cache, s) && AccountPoint(point)
    ensures var m := Step(cfg, request, point, cache, s, choice); m.ledger == s && Facts(cfg, request, m.point, s)
  {
    hide AccountsOK, TransfersOK, LimitsOK, IDsOK, JournalOK, SolventOK, BalancedOK, FamiliesOK;
    hide CacheSound, Store, Remember, Recipe, Wanted, LegalAccount, Bound, ValidConfig, NextFacts, Truthful, Asks, Definition;
    hide StepProbe, StepLookupRow, StepFindAuthorization, StepReadOriginal, StepReadClock, StepFindIncrement, StepRecover,
      StepLookupBalance, BalanceOf, AfterKeepAccount, AfterSubmit, AfterSubmitAccount, Start, Resume;
    match point
    case Received => StartFacts(cfg, request, s);
    case Probe(id, expected, next) =>
      Checking(cfg, request, id, expected, next, s);
      ProbeFacts(cfg, request, cache, id, expected, next, s);
    case LookupRow(id, expected, next) =>
      Checking(cfg, request, id, expected, next, s);
      LookupRowFacts(cfg, request, id, expected, next, s);
      LostFacts(cfg, request, s);
    case KeepMetadata(id, metadata, next) =>
      Checking(cfg, request, id, metadata.kind, next, s);
      ResumeFacts(cfg, request, id, metadata, next, s);
    case KeepAccount(row, r) => KeepAccountFacts(cfg, request, row, r, s);
    case LookupBalance(id) => BalanceFacts(cfg, request, id, s); LostFacts(cfg, request, s);
    case KeepBalance(row, metadata) => KeepBalanceFacts(cfg, request, row, metadata, s);
  }

  lemma TransferPointFacts(cfg: Config, request: Request, point: Point, cache: Ring, s: State, choice: Choice)
    requires Ready(cfg, request, point, s) && !AccountPoint(point) && !point.Submit? && !point.SubmitAccount?
    ensures var m := Step(cfg, request, point, cache, s, choice); m.ledger == s && Facts(cfg, request, m.point, s)
  {
    hide AccountsOK, TransfersOK, LimitsOK, IDsOK, JournalOK, SolventOK, BalancedOK, FamiliesOK;
    hide Recipe, Wanted, LegalAccount, Bound, ValidConfig, Asks, OrderOf, OriginalIs;
    hide StepProbe, StepLookupRow, StepFindAuthorization, StepReadOriginal, StepReadClock, StepFindIncrement, StepRecover,
      StepLookupBalance, BalanceOf, AfterKeepAccount, AfterSubmit, AfterSubmitAccount, Start, Resume;
    LostFacts(cfg, request, s);
    match point
    case EvaluateRisk(t) => AskedIsWanted(cfg, request, t, s);
    case FindAuthorization(t) => FindAuthorizationFacts(cfg, request, t, s);
    case ReadOriginal(order) => ReadOriginalFacts(cfg, request, order, s);
    case ReadClock(order, original) =>
      Ordering(request, order);
      ReadClockFacts(cfg, request, order, original, choice.now, s);
    case FindIncrement(order, original, expired) => FindIncrementFacts(cfg, request, order, original, expired, s);
    case Recover(t) => RecoverFacts(cfg, request, t, s);
    case _ =>
  }

  lemma Checking(cfg: Config, request: Request, id: Id, expected: AccountKind, next: Next, s: State)
    requires NextFacts(cfg, request, id, expected, next, s)
    ensures !request.Provision?
  {
  }

  lemma Ordering(request: Request, order: Order)
    requires OrderOf(request, order)
    ensures !request.Provision?
  {
  }

  lemma AskedIsWanted(cfg: Config, request: Request, t: Transfer, s: State)
    requires Asks(cfg, request, t)
    ensures Wanted(cfg, request, s, t)
  {
  }

  /** The step of one request: the ledger grows and keeps its invariant, the cache stays true, and the request's own
      facts hold at its new point. */
  lemma StepKeepsAll(cfg: Config, request: Request, point: Point, cache: Ring, s: State, choice: Choice)
    requires Ready(cfg, request, point, s) && CacheSound(cfg, cache, s)
    ensures (var m := Step(cfg, request, point, cache, s, choice);
             && Extends(s, m.ledger)
             && CacheSound(cfg, m.cache, m.ledger)
             && Ready(cfg, request, m.point, m.ledger))
  {
    hide Inv, CacheSound, Extends, Recipe, Wanted, LegalAccount, AsksAccount, NextFacts, Truthful, ValidConfig, Formed;
    hide CreateTransfer, CreateAccount, AfterSubmit, AfterSubmitAccount;
    var m := Step(cfg, request, point, cache, s, choice);
    StepKeepsFormed(cfg, request, point, cache, s, choice);
    StepGrowsLedger(cfg, request, point, cache, s, choice);
    StepCacheSound(cfg, request, point, cache, s, choice);
    CacheSoundStable(cfg, m.cache, s, m.ledger);
    if Bound(cfg, s) { BoundStable(cfg, s, m.ledger); }
    hide Bound;
    match point
    case Submit(t) => SubmitFacts(cfg, request, t, s); LostFacts(cfg, request, m.ledger);
    case SubmitAccount(row) => SubmitAccountFacts(cfg, request, row, s); LostFacts(cfg, request, m.ledger);
    case _ =>
      if AccountPoint(point) {
        AccountPointFacts(cfg, request, point, cache, s, choice);
      } else {
        TransferPointFacts(cfg, request, point, cache, s, choice);
      }
  }

  lemma StepKeepsFormed(cfg: Config, request: Request, point: Point, cache: Ring, s: State, choice: Choice)
    requires Formed(request, point)
    ensures Formed(request, Step(cfg, request, point, cache, s, choice).point)
  {
  }

  lemma LostFacts(cfg: Config, request: Request, s: State)
    ensures Facts(cfg, request, LOST, s)
  {
  }
}
