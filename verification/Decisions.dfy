/** The step at which a request settles on its answer gives exactly the promised answer, with the promised effect. */
module Decisions {
  import opened Wrappers
  import opened TigerBeetle
  import opened AccountModel
  import opened Ledger
  import opened Recipes
  import opened Timeouts
  import opened MetadataCache
  import opened LedgerInvariant
  import opened LedgerSteps
  import opened Requests
  import opened RequestFacts
  import opened RequestSteps
  import opened Promises

  // ----- The service's own terms and the promised ones -----

  /** The configuration of an instance with these settings. */
  predicate ConfigFor(settings: Settings, cfg: Config) {
    && ValidConfig(cfg) && cfg.ledgerID == settings.ledgerID && cfg.riskLimit == settings.riskLimit
    && StoredTimeout(cfg.authorizationTimeout) == HoldSeconds(settings)
    && cfg.authorizationTimeout == HoldSeconds(settings) * 1_000_000_000
  }

  lemma NewConfig(settings: Settings)
    requires Accepted(settings)
    ensures ConfigFor(settings, New(settings))
  {
    NewIsValid(settings);
    RoundingIsExact(settings.authorizationTimeout, 0);
  }

  /** The stored timeout of an authorization is the least whole number of seconds covering the configured one. */
  lemma HoldSecondsAreLeast(settings: Settings)
    ensures forall n: nat :: Reaching(0, n, settings.authorizationTimeout) <==> n >= HoldSeconds(settings)
  {
  }

  lemma AcceptedIs(settings: Settings)
    ensures Accepted(settings) <==> Permitted(settings)
  {
  }

  lemma FormedIs(request: Request)
    ensures WellFormedRequest(request) <==> !Malformed(request)
  {
  }

  lemma KindsAre(s: State, id: Id)
    requires AccountsOK(s)
    ensures IsCorporate(s, id) <==> Corporate(s, id)
    ensures IsCard(s, id) <==> Card(s, id)
    ensures MetadataIn(s, id).Some? <==> id in s.accounts
    ensures MetadataIn(s, id).Some? ==> MetadataIn(s, id).value.parent == s.accounts[id].userData128
  {
    if id in s.accounts { assert RowOK(s, id); }
  }

  lemma MatchesIs(settings: Settings, cfg: Config, request: Request, s: State, t: Transfer)
    requires ConfigFor(settings, cfg)
    requires request.IncrementAuthorization? ==>
               IsAuthorization(s, request.authorization) && s.transfers[request.authorization].credit == SETTLEMENT
    ensures Wanted(cfg, request, s, t) <==> Matches(settings, request, s, t)
  {
    hide StoredTimeout;
  }

  lemma OriginalsCredit(s: State, id: Id)
    requires TransfersOK(s) && IsAuthorization(s, id)
    ensures s.transfers[id].credit == SETTLEMENT && s.transfers[id].timeout > 0
    ensures IsCard(s, s.transfers[id].debit)
  {
    assert StoredOK(s, id);
  }

  // ----- When an answer is settled -----

  /** The answer that a point is bound to give. */
  function Settled(request: Request, point: Point): Option<Response> {
    match point
    case Done(r) => Some(r)
    case KeepBalance(row, metadata) => Some(BalanceOf(row, metadata))
    case KeepAccount(_, r) =>
      if request.OpenAccount? then Some(AccountReady(r.status.AccountCreated?, r.timestamp)) else None
    case _ => None
  }

  /** The answer and the effect are the promised ones. */
  predicate Decides(settings: Settings, request: Request, s: State, s': State, r: Response, now: int) {
    r == Expected(settings, request, s, now) && Effect(settings, request, s, s', r, now)
  }

  /** What the clock read as `now` has led to: an increment found expired, or submitted with a timeout derived from it. */
  predicate Clocked(point: Point, s: State, now: int) {
    match point
    case FindIncrement(_, original, expired) => expired ==> now >= ExpiryAt(original)
    case Submit(t) =>
      t.code == INCREMENT ==>
        && t.userData128 in s.transfers
        && var original := s.transfers[t.userData128];
           && now < ExpiryAt(original)
           && t.timeout == DerivedTimeout(Remaining(ExpiryAt(original), now), original.timeout)
    case _ => true
  }

  // ----- Account checks -----

  lemma StartDecides(settings: Settings, cfg: Config, request: Request, s: State, now: int)
    requires ConfigFor(settings, cfg) && Start(cfg, request).Done?
    ensures Decides(settings, request, s, s, Start(cfg, request).response, now)
  {
    FormedIs(request);
    hide Malformed;
  }

  lemma WrongKindDecides(settings: Settings, cfg: Config, request: Request, id: Id, expected: AccountKind, next: Next, s: State,
                         now: int)
    requires AccountsOK(s) && TransfersOK(s) && NextFacts(cfg, request, id, expected, next, s)
    requires MetadataIn(s, id).None? || MetadataIn(s, id).value.kind != expected
    ensures WrongKind(next).Done? && Decides(settings, request, s, s, WrongKind(next).response, now)
  {
    hide AccountsOK, TransfersOK, MetadataIn;
    FormedIs(request);
    KindsAre(s, id);
    if next.ThenIncrementRisk? { OriginalsCredit(s, next.order.authorization); }
    hide Malformed, WellFormedRequest;
    if next.ThenMove? { KindsAre(s, next.account); }
  }

  lemma ResumeDecides(settings: Settings, cfg: Config, request: Request, id: Id, metadata: Metadata, next: Next, s: State,
                      now: int)
    requires AccountsOK(s) && NextFacts(cfg, request, id, metadata.kind, next, s) && MetadataIn(s, id) == Some(metadata)
    requires Resume(next, metadata).Done?
    ensures Decides(settings, request, s, s, Resume(next, metadata).response, now)
  {
    hide AccountsOK, MetadataIn;
    FormedIs(request);
    KindsAre(s, id);
    hide Malformed, WellFormedRequest;
    if next.ThenMove? { KindsAre(s, next.account); }
  }

  // ----- Lookups -----

  lemma FindAuthorizationDecides(settings: Settings, cfg: Config, request: Request, t: Transfer, s: State, now: int)
    requires ConfigFor(settings, cfg) && AccountsOK(s)
    requires Asks(cfg, request, t) && request.Authorize? && Recipe(s, t) && t.amount > cfg.riskLimit
    ensures Decides(settings, request, s, s, StepFindAuthorization(cfg, s, t), now)
  {
    hide AccountsOK, StoredTimeout, ValidConfig;
    FormedIs(request);
    KindsAre(s, request.card);
    if request.id in s.transfers { MatchesIs(settings, cfg, request, s, s.transfers[request.id]); }
    hide Malformed, WellFormedRequest, MetadataIn, Matches;
  }

  lemma ReadOriginalDecides(settings: Settings, cfg: Config, request: Request, order: Order, s: State, now: int)
    requires TransfersOK(s) && Bound(cfg, s) && OrderOf(request, order) && StepReadOriginal(cfg, s, order).Done?
    ensures Decides(settings, request, s, s, StepReadOriginal(cfg, s, order).response, now)
  {
    hide TransfersOK, Bound, OpenAuthorization;
    FormedIs(request);
    hide Malformed, WellFormedRequest;
    if order.authorization in s.transfers { OpenIsAuthorization(cfg, s, order.authorization); }
  }

  lemma FindIncrementDecides(settings: Settings, cfg: Config, request: Request, order: Order, original: Transfer,
                             expired: bool, s: State, now: int)
    requires ConfigFor(settings, cfg) && TransfersOK(s) && OrderOf(request, order) && OriginalIs(s, order, original)
    requires (expired <==> order.amount <= cfg.riskLimit) && (expired ==> now >= ExpiryAt(original))
    ensures Decides(settings, request, s, s, StepFindIncrement(cfg, s, order, original, expired), now)
  {
    hide TransfersOK, ValidConfig, StoredTimeout;
    FormedIs(request);
    hide Malformed, WellFormedRequest;
    OriginalsCredit(s, order.authorization);
    if order.id in s.transfers { MatchesIs(settings, cfg, request, s, s.transfers[order.id]); }
    hide Matches;
  }

  lemma LookupBalanceDecides(settings: Settings, cfg: Config, request: Request, id: Id, s: State, now: int)
    requires AccountsOK(s) && Bound(cfg, s) && request == ReadBalance(id) && WellFormedRequest(request)
    requires Settled(request, StepLookupBalance(cfg, s, id)).Some?
    ensures Decides(settings, request, s, s, Settled(request, StepLookupBalance(cfg, s, id)).value, now)
  {
    FormedIs(request);
    if id in s.accounts { assert RowOK(s, id); }
    hide Malformed, WellFormedRequest;
  }

  // ----- Submissions -----

  /** A checked request about to submit passes every promised check. */
  lemma SubmitsUnrefused(settings: Settings, cfg: Config, request: Request, t: Transfer, s: State)
    requires AccountsOK(s) && TransfersOK(s) && ConfigFor(settings, cfg) && WellFormedRequest(request)
    requires Recipe(s, t) && Wanted(cfg, request, s, t)
    ensures request.MovesMoney() && RefusalOf(settings, request, s).None?
    ensures request.IncrementAuthorization? ==> s.transfers[request.authorization].code == 1101
    ensures Matches(settings, request, s, t)
  {
    hide AccountsOK, TransfersOK, MetadataIn;
    FormedIs(request);
    hide Malformed, WellFormedRequest, StoredTimeout, ValidConfig;
    KindsAre(s, t.debit);
    KindsAre(s, t.credit);
    if request.IncrementAuthorization? { OriginalsCredit(s, request.authorization); }
    MatchesIs(settings, cfg, request, s, t);
  }

  /** A request that gets as far as its submission is not stopped by limit or clock. */
  lemma SubmitsVerdict(settings: Settings, cfg: Config, request: Request, t: Transfer, s: State, now: int)
    requires AccountsOK(s) && TransfersOK(s) && ConfigFor(settings, cfg) && WellFormedRequest(request)
    requires Recipe(s, t) && Wanted(cfg, request, s, t) && WithinLimit(cfg, t) && Clocked(Submit(t), s, now)
    ensures request.MovesMoney() && Matches(settings, request, s, t)
    ensures Expected(settings, request, s, now) == Verdict(settings, request, s)
  {
    SubmitsUnrefused(settings, cfg, request, t, s);
    hide AccountsOK, TransfersOK, MetadataIn, RefusalOf, Verdict, Recipe, WellFormedRequest, ValidConfig, StoredTimeout,
      DerivedTimeout;
  }

  lemma DebitIsDrawnOn(settings: Settings, request: Request, t: Transfer, s: State)
    requires Matches(settings, request, s, t) && AccountsOK(s) && Recipe(s, t)
    ensures Short(request, s) <==> t.debit != CASH && t.debit in s.accounts && t.amount > Available(s.accounts[t.debit])
  {
    hide AccountsOK;
    RecipeEndpoints(s, t);
    hide Recipe, HoldSeconds;
  }

  lemma StoredDecides(settings: Settings, cfg: Config, request: Request, t: Transfer, s: State, now: int)
    requires Inv(s) && ConfigFor(settings, cfg) && WellFormedRequest(request) && t.id in s.transfers
    requires Recipe(s, t) && Wanted(cfg, request, s, t) && WithinLimit(cfg, t) && Clocked(Submit(t), s, now)
    requires AfterSubmit(cfg, t, CreateTransfer(s, t).1).Done?
    ensures CreateTransfer(s, t).0 == s
    ensures Decides(settings, request, s, s, AfterSubmit(cfg, t, CreateTransfer(s, t).1).response, now)
  {
    hide AccountsOK, JournalOK, LimitsOK, SolventOK, BalancedOK, FamiliesOK, MetadataIn, ValidConfig, StoredTimeout;
    hide WellFormedRequest, Expected;
    SubmitsVerdict(settings, cfg, request, t, s, now);
    SubmitStored(cfg, request, t, s);
    WantedIsUnique(cfg, request, s, t, s.transfers[t.id]);
    assert StoredOK(s, t.id);
    CompareIsExact(s.transfers[t.id], t);
    if request.IncrementAuthorization? { OriginalsCredit(s, request.authorization); }
    MatchesIs(settings, cfg, request, s, s.transfers[t.id]);
    hide Recipe, StoredOK, TransfersOK, Wanted, Matches, CompareTransfers, Truthful, Facts;
  }

  lemma BurntDecides(settings: Settings, cfg: Config, request: Request, t: Transfer, s: State, now: int)
    requires Inv(s) && ConfigFor(settings, cfg) && WellFormedRequest(request) && t.id in s.failed
    requires Recipe(s, t) && Wanted(cfg, request, s, t) && WithinLimit(cfg, t) && Clocked(Submit(t), s, now)
    ensures CreateTransfer(s, t).0 == s && AfterSubmit(cfg, t, CreateTransfer(s, t).1).Done?
    ensures Decides(settings, request, s, s, AfterSubmit(cfg, t, CreateTransfer(s, t).1).response, now)
  {
    hide AccountsOK, TransfersOK, JournalOK, LimitsOK, SolventOK, BalancedOK, FamiliesOK, MetadataIn, ValidConfig,
      StoredTimeout, WellFormedRequest, Expected, Recipe;
    SubmitsVerdict(settings, cfg, request, t, s, now);
    WantedIsUnique(cfg, request, s, t, t);
    hide Wanted, Matches;
  }

  /** The timeout of what is submitted is the promised one. */
  lemma TimeoutIs(settings: Settings, request: Request, t: Transfer, s: State, now: int)
    requires Matches(settings, request, s, t) && Clocked(Submit(t), s, now)
    ensures t.timeout == TimeoutOf(settings, request, s, now)
  {
    hide ReadSeconds, DerivedTimeout, Remaining;
    if request.IncrementAuthorization? {
      var original := s.transfers[request.authorization];
      DerivedTimeoutIsRead(ExpiryAt(original), now, original.timeout);
    }
  }

  lemma NewDecides(settings: Settings, cfg: Config, request: Request, t: Transfer, s: State, now: int)
    requires Inv(s) && ConfigFor(settings, cfg) && WellFormedRequest(request) && t.id !in s.transfers && t.id !in s.failed
    requires Recipe(s, t) && Wanted(cfg, request, s, t) && WithinLimit(cfg, t) && Clocked(Submit(t), s, now)
    ensures AfterSubmit(cfg, t, CreateTransfer(s, t).1).Done?
    ensures Decides(settings, request, s, CreateTransfer(s, t).0, AfterSubmit(cfg, t, CreateTransfer(s, t).1).response, now)
  {
    hide AccountsOK, TransfersOK, IDsOK, JournalOK, LimitsOK, SolventOK, BalancedOK, FamiliesOK;
    hide MetadataIn, ValidConfig, StoredTimeout, WellFormedRequest, Expected;
    SubmitsVerdict(settings, cfg, request, t, s, now);
    DebitIsDrawnOn(settings, request, t, s);
    OnlyFundsReject(s, t);
    RecipeEndpoints(s, t);
    TimeoutIs(settings, request, t, s, now);
    WantedIsUnique(cfg, request, s, t, t);
    hide Recipe, Wanted, Short, TimeoutOf, Clocked, Judge, Endpoints;
    if Judge(s, t).TransferCreated? {
      CommitFulfils(settings, request, t, s);
      hide Commit, Matches;
    } else {
      hide Matches;
    }
  }

  lemma CommitFulfils(settings: Settings, request: Request, t: Transfer, s: State)
    requires Matches(settings, request, s, t) && t.debit in s.accounts && t.credit in s.accounts
    ensures (var s' := Commit(s, t);
             && t.id in s'.transfers
             && var t' := s'.transfers[t.id];
                && Matches(settings, request, s, t') && t'.timestamp == s.clock + 1 && t'.timeout == t.timeout
                && t'.debit == t.debit && t'.credit == t.credit && Commit(s, t') == s')
  {
  }

  lemma SubmitDecides(settings: Settings, cfg: Config, request: Request, t: Transfer, s: State, now: int)
    requires Inv(s) && ConfigFor(settings, cfg) && WellFormedRequest(request)
    requires Recipe(s, t) && Wanted(cfg, request, s, t) && WithinLimit(cfg, t) && Clocked(Submit(t), s, now)
    ensures var point, s' := AfterSubmit(cfg, t, CreateTransfer(s, t).1), CreateTransfer(s, t).0;
              if point.Done? then Decides(settings, request, s, s', point.response, now) else s' == s
  {
    hide Recipe, Wanted, WellFormedRequest, AccountsOK, TransfersOK, JournalOK, LimitsOK, SolventOK, BalancedOK, FamiliesOK,
      ConfigFor, Clocked, WithinLimit, AfterSubmit, CreateTransfer, Decides;
    if t.id in s.failed {
      BurntDecides(settings, cfg, request, t, s, now);
    } else if t.id !in s.transfers {
      NewDecides(settings, cfg, request, t, s, now);
    } else {
      SubmitStored(cfg, request, t, s);
      if AfterSubmit(cfg, t, CreateTransfer(s, t).1).Done? { StoredDecides(settings, cfg, request, t, s, now); }
    }
  }

  lemma RecoverDecides(settings: Settings, cfg: Config, request: Request, t: Transfer, s: State, now: int)
    requires Inv(s) && ConfigFor(settings, cfg) && WellFormedRequest(request) && request.IncrementAuthorization?
    requires Recipe(s, t) && Wanted(cfg, request, s, t) && t.id in s.transfers
    ensures Decides(settings, request, s, s, StepRecover(cfg, s, t), now)
  {
    hide AccountsOK, JournalOK, LimitsOK, SolventOK, BalancedOK, FamiliesOK, MetadataIn, StoredTimeout, ValidConfig;
    SubmitsUnrefused(settings, cfg, request, t, s);
    OriginalsCredit(s, request.authorization);
    MatchesIs(settings, cfg, request, s, s.transfers[t.id]);
    WantedIsUnique(cfg, request, s, t, s.transfers[t.id]);
    hide Recipe, Wanted, Matches, WellFormedRequest, TransfersOK, RefusalOf, SameTransferExceptTimeout;
  }

  // ----- Accounts -----

  lemma OpenDecides(settings: Settings, cfg: Config, request: Request, row: Account, s: State, now: int)
    requires AccountsOK(s) && Bound(cfg, s) && ConfigFor(settings, cfg) && request.OpenAccount?
    requires LegalAccount(s, row) && AsksAccount(cfg, request, row)
    ensures var r := Settled(request, AfterSubmitAccount(request, row, CreateAccount(s, row).1));
              r.Some? && Decides(settings, request, s, CreateAccount(s, row).0, r.value, now)
  {
    hide ValidConfig, StoredTimeout;
    FormedIs(request);
    if request.parent.Some? { KindsAre(s, request.parent.value); }
    if row.id in s.accounts { assert RowOK(s, row.id); }
    hide Malformed, AccountsOK;
  }

  lemma ProvisionDecides(settings: Settings, cfg: Config, row: Account, s: State, now: int)
    requires AccountsOK(s) && ConfigFor(settings, cfg) && LegalAccount(s, row) && AsksAccount(cfg, Provision, row)
    requires AfterSubmitAccount(Provision, row, CreateAccount(s, row).1).Done?
    ensures Decides(settings, Provision, s, CreateAccount(s, row).0,
                    AfterSubmitAccount(Provision, row, CreateAccount(s, row).1).response, now)
  {
    if row.id in s.accounts { assert RowOK(s, row.id); }
    hide AccountsOK, ValidConfig, StoredTimeout;
  }

  // ----- Any step -----

  /** A step that is not disturbed: no call is lost and the caller stays. */
  function Calm(now: int): Choice {
    Choice(Fine, false, now)
  }

  /** Where a step leads to an answer it is the promised one, and before that it leaves the ledger alone; only provisioning
      creates its accounts one by one. */
  predicate Good(settings: Settings, request: Request, s: State, m: Moved, now: int) {
    var r := Settled(request, m.point);
    if r.Some? then Decides(settings, request, s, m.ledger, r.value, now) else m.ledger == s || request.Provision?
  }

  lemma ChecksDecide(settings: Settings, cfg: Config, request: Request, point: Point, cache: Ring, s: State, now: int)
    requires ConfigFor(settings, cfg) && Ready(cfg, request, point, s) && CacheSound(cfg, cache, s)
    requires point.Probe? || point.LookupRow? || point.KeepMetadata?
    ensures Good(settings, request, s, Step(cfg, request, point, cache, s, Calm(now)), now)
  {
    hide IDsOK, JournalOK, LimitsOK, SolventOK, BalancedOK, FamiliesOK, AccountsOK, TransfersOK;
    hide ConfigFor, ValidConfig, NextFacts, Expected, Effect, MetadataForAccount, Store;
    match point
    case Probe(id, expected, next) =>
      Checking(cfg, request, id, expected, next, s);
      if Load(cache, id).Some? {
        if Load(cache, id).value.kind != expected {
          WrongKindDecides(settings, cfg, request, id, expected, next, s, now);
        } else if Resume(next, Load(cache, id).value).Done? {
          ResumeDecides(settings, cfg, request, id, Load(cache, id).value, next, s, now);
        }
      }
    case LookupRow(id, expected, next) =>
      Checking(cfg, request, id, expected, next, s);
      if MetadataIn(s, id).None? || MetadataIn(s, id).value.kind != expected {
        WrongKindDecides(settings, cfg, request, id, expected, next, s, now);
      }
    case KeepMetadata(id, metadata, next) =>
      if Resume(next, metadata).Done? { ResumeDecides(settings, cfg, request, id, metadata, next, s, now); }
  }

  lemma LookupsDecide(settings: Settings, cfg: Config, request: Request, point: Point, cache: Ring, s: State, now: int)
    requires ConfigFor(settings, cfg) && Ready(cfg, request, point, s) && Clocked(point, s, now)
    requires point.FindAuthorization? || point.ReadOriginal? || point.FindIncrement? || point.Recover? || point.LookupBalance?
    ensures Good(settings, request, s, Step(cfg, request, point, cache, s, Calm(now)), now)
  {
    hide AccountsOK, TransfersOK, IDsOK, JournalOK, LimitsOK, SolventOK, BalancedOK, FamiliesOK;
    hide ConfigFor, ValidConfig, Bound, Recipe, Wanted, Asks, WellFormedRequest, Decides;
    hide StepFindAuthorization, StepFindIncrement, StepRecover;
    match point
    case FindAuthorization(t) => FindAuthorizationDecides(settings, cfg, request, t, s, now);
    case ReadOriginal(order) =>
      if StepReadOriginal(cfg, s, order).Done? { ReadOriginalDecides(settings, cfg, request, order, s, now); }
    case FindIncrement(order, original, expired) =>
      FindIncrementDecides(settings, cfg, request, order, original, expired, s, now);
    case Recover(t) => RecoverDecides(settings, cfg, request, t, s, now);
    case LookupBalance(id) => LookupBalanceDecides(settings, cfg, request, id, s, now);
  }

  lemma KeptDecides(settings: Settings, cfg: Config, row: Account, r: AccountResult, cache: Ring, s: State, now: int)
    requires ConfigFor(settings, cfg) && Facts(cfg, Provision, KeepAccount(row, r), s)
    ensures Good(settings, Provision, s, Step(cfg, Provision, KeepAccount(row, r), cache, s, Calm(now)), now)
  {
    hide StoredTimeout, Remember;
  }

  lemma SubmissionsDecide(settings: Settings, cfg: Config, request: Request, point: Point, cache: Ring, s: State, now: int)
    requires ConfigFor(settings, cfg) && Ready(cfg, request, point, s) && Clocked(point, s, now)
    requires Settled(request, point).None? && (point.Submit? || point.SubmitAccount? || point.KeepAccount?)
    ensures Good(settings, request, s, Step(cfg, request, point, cache, s, Calm(now)), now)
  {
    hide AccountsOK, TransfersOK, IDsOK, JournalOK, LimitsOK, SolventOK, BalancedOK, FamiliesOK;
    hide ConfigFor, ValidConfig, Bound, Recipe, Wanted, WellFormedRequest, LegalAccount, Decides, Definition, AccountOf;
    hide CreateTransfer, CreateAccount, Clocked, WithinLimit;
    match point
    case Submit(t) => SubmitDecides(settings, cfg, request, t, s, now);
    case SubmitAccount(row) =>
      if request.OpenAccount? {
        OpenDecides(settings, cfg, request, row, s, now);
      } else if AfterSubmitAccount(request, row, CreateAccount(s, row).1).Done? {
        ProvisionDecides(settings, cfg, row, s, now);
      }
    case KeepAccount(row, r) => KeptDecides(settings, cfg, row, r, cache, s, now);
  }

  lemma RestDecides(settings: Settings, cfg: Config, request: Request, point: Point, cache: Ring, s: State, now: int)
    requires ConfigFor(settings, cfg)
    requires point.Received? || point.EvaluateRisk? || point.EvaluateIncrementRisk? || point.ReadClock?
    ensures Good(settings, request, s, Step(cfg, request, point, cache, s, Calm(now)), now)
  {
    hide Decides, DerivedTimeout, ConfigFor;
    if point.Received? && Start(cfg, request).Done? { StartDecides(settings, cfg, request, s, now); }
    hide WellFormedRequest, TransferOf, AccountRecipe;
  }

  /** Every undisturbed step of every request, in any state in which it may be: exactly the promised answer and effect. */
  lemma StepDecides(settings: Settings, cfg: Config, request: Request, point: Point, cache: Ring, s: State, now: int)
    requires ConfigFor(settings, cfg) && Ready(cfg, request, point, s) && CacheSound(cfg, cache, s)
    requires Settled(request, point).None? && Clocked(point, s, now)
    ensures Good(settings, request, s, Step(cfg, request, point, cache, s, Calm(now)), now)
  {
    hide Step, Good, Ready, ConfigFor, CacheSound, Clocked;
    if point.Probe? || point.LookupRow? || point.KeepMetadata? {
      ChecksDecide(settings, cfg, request, point, cache, s, now);
    } else if point.Submit? || point.SubmitAccount? || point.KeepAccount? {
      SubmissionsDecide(settings, cfg, request, point, cache, s, now);
    } else if point.Received? || point.EvaluateRisk? || point.EvaluateIncrementRisk? || point.ReadClock? {
      RestDecides(settings, cfg, request, point, cache, s, now);
    } else {
      LookupsDecide(settings, cfg, request, point, cache, s, now);
    }
  }

  // ----- Disturbances -----

  predicate EvaluatesRisk(point: Point) {
    point.EvaluateRisk? || point.EvaluateIncrementRisk?
  }

  predicate CallsLedger(point: Point) {
    point.LookupRow? || point.FindAuthorization? || point.ReadOriginal? || point.FindIncrement? || point.Submit?
    || point.Recover? || point.SubmitAccount? || point.LookupBalance?
  }

  lemma LookupsAreReported(cfg: Config, request: Request, point: Point, cache: Ring, s: State, choice: Choice)
    requires CallsLedger(point) && !point.Submit? && !point.SubmitAccount?
    ensures (var m := Step(cfg, request, point, cache, s, choice);
             var calm := Step(cfg, request, point, cache, s, Calm(choice.now));
             && calm.ledger == s && calm.cache == cache && (if choice.fault.Fine? then m == calm else m == Moved(LOST, cache, s)))
  {
    hide StepLookupRow, StepFindAuthorization, StepReadOriginal, StepFindIncrement, StepRecover, StepLookupBalance;
    match point
    case LookupRow(id, expected, next) =>
    case FindAuthorization(t) =>
    case ReadOriginal(order) =>
    case FindIncrement(order, original, expired) =>
    case Recover(t) =>
    case LookupBalance(id) =>
  }

  lemma CallsAreReported(cfg: Config, request: Request, point: Point, cache: Ring, s: State, choice: Choice)
    requires CallsLedger(point)
    ensures (var m := Step(cfg, request, point, cache, s, choice);
             var calm := Step(cfg, request, point, cache, s, Calm(choice.now));
             if choice.fault.Fine? then m == calm
             else m == Moved(Done(Refused(Unavailable)), cache, if choice.fault.LostBefore? then s else calm.ledger))
  {
    if point.Submit? || point.SubmitAccount? {
      hide AfterSubmit, AfterSubmitAccount, CreateTransfer, CreateAccount;
    } else {
      hide Step;
      LookupsAreReported(cfg, request, point, cache, s, choice);
    }
  }

  lemma OtherStepsAreCalm(cfg: Config, request: Request, point: Point, cache: Ring, s: State, choice: Choice)
    requires !CallsLedger(point)
    ensures (var m := Step(cfg, request, point, cache, s, choice);
             if EvaluatesRisk(point) && choice.cancelled then m == Moved(Done(Refused(Cancelled)), cache, s)
             else m == Step(cfg, request, point, cache, s, Calm(choice.now)))
  {
    hide Start, StepProbe, StepReadClock, AfterKeepAccount, Resume, Store, Remember, BalanceOf;
  }

  /** Every other step is a cancelled risk evaluation, which ends the request, or a lost ledger call, which ends it too and
      whose effect is nothing or that of the undisturbed call. */
  lemma DisturbancesAreReported(cfg: Config, request: Request, point: Point, cache: Ring, s: State, choice: Choice)
    ensures (var m := Step(cfg, request, point, cache, s, choice);
             var calm := Step(cfg, request, point, cache, s, Calm(choice.now));
             if EvaluatesRisk(point) && choice.cancelled then m == Moved(Done(Refused(Cancelled)), cache, s)
             else if CallsLedger(point) && !choice.fault.Fine? then
               m == Moved(Done(Refused(Unavailable)), cache, if choice.fault.LostBefore? then s else calm.ledger)
             else m == calm)
  {
    hide Step;
    if CallsLedger(point) {
      CallsAreReported(cfg, request, point, cache, s, choice);
    } else {
      OtherStepsAreCalm(cfg, request, point, cache, s, choice);
    }
  }

  lemma CallsIgnoreClock(cfg: Config, request: Request, point: Point, cache: Ring, s: State, now: int, now': int)
    requires CallsLedger(point)
    ensures Step(cfg, request, point, cache, s, Calm(now)) == Step(cfg, request, point, cache, s, Calm(now'))
  {
    hide StepLookupRow, StepFindAuthorization, StepReadOriginal, StepFindIncrement, StepRecover, StepLookupBalance,
      AfterSubmit, AfterSubmitAccount, CreateTransfer, CreateAccount;
    match point
    case LookupRow(id, expected, next) =>
    case FindAuthorization(t) =>
    case ReadOriginal(order) =>
    case FindIncrement(order, original, expired) =>
    case Submit(t) =>
    case Recover(t) =>
    case SubmitAccount(row) =>
    case LookupBalance(id) =>
  }

  lemma OthersIgnoreClock(cfg: Config, request: Request, point: Point, cache: Ring, s: State, now: int, now': int)
    requires !CallsLedger(point) && !point.ReadClock?
    ensures Step(cfg, request, point, cache, s, Calm(now)) == Step(cfg, request, point, cache, s, Calm(now'))
  {
    hide Start, StepProbe, StepReadClock, AfterKeepAccount, Resume, Store, Remember, BalanceOf;
  }

  lemma ClockIsReadOnce(cfg: Config, request: Request, point: Point, cache: Ring, s: State, now: int, now': int)
    requires !point.ReadClock?
    ensures Step(cfg, request, point, cache, s, Calm(now)) == Step(cfg, request, point, cache, s, Calm(now'))
  {
    hide Step;
    if CallsLedger(point) {
      CallsIgnoreClock(cfg, request, point, cache, s, now, now');
    } else {
      OthersIgnoreClock(cfg, request, point, cache, s, now, now');
    }
  }
}
