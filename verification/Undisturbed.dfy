/** What a request achieves when nothing gets in its way: the promised answer and effect on the ledger as it found it. */
module Undisturbed {
  import opened TigerBeetle
  import opened AccountModel
  import opened Ledger
  import opened Recipes
  import opened Timeouts
  import opened MetadataCache
  import opened LedgerInvariant
  import opened LedgerSteps
  import opened Requests
  import opened RequestFacts
  import opened RequestSteps
  import opened Progress
  import opened Runs
  import opened OutcomeTheorems
  import opened History
  import opened Lifetimes
  import opened Promises
  import opened Decisions
  import opened Linearization

  /** The rest of a request, alone, with every call answered and the clock standing at `now`. */
  ghost function Finish(cfg: Config, request: Request, point: Point, cache: Ring, s: State, now: int): Moved
    decreases StepsLeft(point)
  {
    if point.Done? then Moved(point, cache, s)
    else
      StepAdvances(cfg, request, point, cache, s, Calm(now));
      var m := Step(cfg, request, point, cache, s, Calm(now));
      Finish(cfg, request, m.point, m.cache, m.ledger, now)
  }

  lemma FinishUnfolds(cfg: Config, request: Request, point: Point, cache: Ring, s: State, now: int)
    requires !point.Done?
    ensures var m := Step(cfg, request, point, cache, s, Calm(now));
              Finish(cfg, request, point, cache, s, now) == Finish(cfg, request, m.point, m.cache, m.ledger, now)
  {
    hide Step, StepsLeft;
  }

  lemma FinishDone(cfg: Config, request: Request, r: Response, cache: Ring, s: State, now: int)
    ensures Finish(cfg, request, Done(r), cache, s, now) == Moved(Done(r), cache, s)
  {
  }

  // ----- The answer and the effect -----

  lemma FinishSettled(cfg: Config, request: Request, point: Point, cache: Ring, s: State, now: int)
    requires Settled(request, point).Some?
    ensures var m := Finish(cfg, request, point, cache, s, now);
              m.point == Done(Settled(request, point).value) && m.ledger == s
  {
    hide Finish, Step, BalanceOf;
    if point.Done? {
      FinishDone(cfg, request, point.response, cache, s, now);
    } else {
      var m := Step(cfg, request, point, cache, s, Calm(now));
      SettledStep(cfg, request, point, cache, s, Calm(now));
      FinishUnfolds(cfg, request, point, cache, s, now);
      FinishDone(cfg, request, m.point.response, m.cache, m.ledger, now);
    }
  }

  /** An undisturbed step carries on with the reading of its clock. */
  lemma CalmStepClocked(cfg: Config, request: Request, point: Point, cache: Ring, s: State, now: int)
    requires Ready(cfg, request, point, s)
    ensures (var m := Step(cfg, request, point, cache, s, Calm(now));
             m.point != point ==> Clocked(m.point, s, now))
  {
    hide Step, Inv, DerivedTimeout, Remaining, StepReadClock, Ready;
    var m := Step(cfg, request, point, cache, s, Calm(now));
    if m.point.FindIncrement? && m.point.expired && m.point != point {
      LateIsAfterClock(cfg, request, point, cache, s, Calm(now));
    } else if m.point.Submit? && m.point.transfer.code == INCREMENT {
      SubmittedAfterReading(cfg, request, point, cache, s, Calm(now));
      ReadyOriginal(cfg, request, point, s);
      ReadTransfer(cfg, point.order, point.original, now);
    }
  }

  lemma ReadyOriginal(cfg: Config, request: Request, point: Point, s: State)
    requires Ready(cfg, request, point, s) && point.ReadClock?
    ensures OriginalIs(s, point.order, point.original) && point.original.timeout != 0
  {
    hide Inv, Formed, ValidConfig, Bound;
    OriginalIsSound(cfg, request, point, s);
  }

  /** From any point on, what a request does alone is what is promised for the ledger as it is. */
  lemma {:induction false} FinishDecides(settings: Settings, cfg: Config, request: Request, point: Point, cache: Ring, s: State,
                                         now: int)
    requires ConfigFor(settings, cfg) && Ready(cfg, request, point, s) && CacheSound(cfg, cache, s)
    requires Settled(request, point).None? && Clocked(point, s, now) && !request.Provision?
    ensures (var m := Finish(cfg, request, point, cache, s, now);
             && m.point == Done(Expected(settings, request, s, now))
             && Effect(settings, request, s, m.ledger, Expected(settings, request, s, now), now))
    decreases StepsLeft(point)
  {
    hide Finish, Step, StepsLeft, ConfigFor, Ready, CacheSound, Clocked, Expected, Effect, BalanceOf, Extends;
    var m := Step(cfg, request, point, cache, s, Calm(now));
    StepDecides(settings, cfg, request, point, cache, s, now);
    FinishUnfolds(cfg, request, point, cache, s, now);
    if Settled(request, m.point).Some? {
      FinishSettled(cfg, request, m.point, m.cache, m.ledger, now);
    } else {
      StepKeepsAll(cfg, request, point, cache, s, Calm(now));
      StepAdvances(cfg, request, point, cache, s, Calm(now));
      CalmStepClocked(cfg, request, point, cache, s, now);
      FinishDecides(settings, cfg, request, m.point, m.cache, s, now);
    }
  }

  /** A request left alone gets the promised answer with the promised effect, whatever the cache holds. */
  lemma UndisturbedOutcome(settings: Settings, cfg: Config, request: Request, cache: Ring, s: State, now: int)
    requires Inv(s) && ConfigFor(settings, cfg) && Bound(cfg, s) && CacheSound(cfg, cache, s) && !request.Provision?
    ensures (var m := Finish(cfg, request, Received, cache, s, now);
             && m.point == Done(Expected(settings, request, s, now))
             && Effect(settings, request, s, m.ledger, Expected(settings, request, s, now), now))
  {
    hide Inv, Bound, CacheSound, Finish, Expected, Effect;
    FinishDecides(settings, cfg, request, Received, cache, s, now);
  }

  /** With an unused ID that answer is a success if and only if nothing is wrong with the request, the wallet it draws on
      covers it, and for a hold the limit and the time allow it. */
  lemma SucceedsExactlyIf(settings: Settings, request: Request, s: State, now: int)
    requires request.MovesMoney() && request.id !in s.transfers && request.id !in s.failed
    ensures Expected(settings, request, s, now).Succeeded()
       <==> && RefusalOf(settings, request, s).None? && !Short(request, s)
            && (request.Authorize? || request.IncrementAuthorization? ==> request.amount <= settings.riskLimit)
            && (request.IncrementAuthorization? ==>
                  && s.transfers[request.authorization].code == 1101
                  && now < ExpiryAt(s.transfers[request.authorization]))
  {
    hide Malformed, Short, Matches, Corporate, Card;
  }

  // ----- Provisioning -----

  lemma SystemAccountIsTaken(row: Account, s: State)
    requires AccountsOK(s) && LegalAccount(s, row) && IsSystemAccountID(row.id)
    ensures (var s', r := CreateAccount(s, row).0, CreateAccount(s, row).1;
             if row.id in s.accounts && s.accounts[row.id].ledger != row.ledger
             then s' == s && r.status.AccountExistsWithDifferent?
             else s' == WithRow(s, row) && (r.status.AccountCreated? || r.status.AccountExists?))
  {
    if row.id in s.accounts { assert RowOK(s, row.id); }
  }

  /** One system account: created if it is missing, accepted if it is the same, and kept. */
  lemma FinishSystemAccount(cfg: Config, row: Account, cache: Ring, s: State, now: int) returns (cache': Ring)
    requires AccountsOK(s) && LegalAccount(s, row) && IsSystemAccountID(row.id)
    ensures row.id in s.accounts && s.accounts[row.id].ledger != row.ledger ==>
              Finish(cfg, Provision, SubmitAccount(row), cache, s, now) == Moved(Done(Refused(ProvisioningFailed)), cache, s)
    ensures row.id !in s.accounts || s.accounts[row.id].ledger == row.ledger ==>
              exists r :: Finish(cfg, Provision, SubmitAccount(row), cache, s, now)
                       == Finish(cfg, Provision, AfterKeepAccount(cfg, Provision, row, r), cache', WithRow(s, row), now)
  {
    hide Finish, Remember, CreateAccount, AccountsOK, LegalAccount, AfterKeepAccount, WithRow, Step;
    cache' := Remember(cfg, cache, row);
    SystemAccountIsTaken(row, s);
    var s', r := CreateAccount(s, row).0, CreateAccount(s, row).1;
    RowSteps(cfg, row, r, cache, s, s', now);
    FinishUnfolds(cfg, Provision, SubmitAccount(row), cache, s, now);
    if r.status.AccountExistsWithDifferent? {
      FinishDone(cfg, Provision, Refused(ProvisioningFailed), cache, s, now);
    } else {
      FinishUnfolds(cfg, Provision, KeepAccount(row, r), cache, s', now);
    }
  }

  lemma RowSteps(cfg: Config, row: Account, r: AccountResult, cache: Ring, s: State, s': State, now: int)
    ensures Step(cfg, Provision, SubmitAccount(row), cache, s, Calm(now))
         == Moved(AfterSubmitAccount(Provision, row, CreateAccount(s, row).1), cache, CreateAccount(s, row).0)
    ensures Step(cfg, Provision, KeepAccount(row, r), cache, s', Calm(now))
         == Moved(AfterKeepAccount(cfg, Provision, row, r), Remember(cfg, cache, row), s')
  {
    hide CreateAccount, AfterSubmitAccount, AfterKeepAccount, Remember;
  }

  /** Provisioning alone succeeds unless the cash account belongs to another ledger number, and then both system accounts
      are stored. */
  lemma UndisturbedProvisioning(settings: Settings, cfg: Config, cache: Ring, s: State, now: int)
    requires Inv(s) && ConfigFor(settings, cfg)
    ensures (var m := Finish(cfg, Provision, Received, cache, s, now);
             && m.point == Done(Expected(settings, Provision, s, now))
             && m.ledger == if m.point == Done(Provisioned) then ProvisionedState(settings, s) else s)
  {
    hide Finish, TransfersOK, IDsOK, JournalOK, LimitsOK, SolventOK, BalancedOK, FamiliesOK, StoredTimeout, MetadataIn;
    var cash := NewAccount(CASH, 0, cfg.ledgerID, CASH_CODE, CREDIT_LIMITED);
    var settlement := NewAccount(SETTLEMENT, 0, cfg.ledgerID, SETTLEMENT_CODE, DEBIT_LIMITED);
    FinishUnfolds(cfg, Provision, Received, cache, s, now);
    var cache' := FinishSystemAccount(cfg, cash, cache, s, now);
    if CASH !in s.accounts || s.accounts[CASH].ledger == cfg.ledgerID {
      var s' := WithRow(s, cash);
      CreateAccountInv(s, cash);
      SettlementFits(s', cfg.ledgerID);
      var cache'' := FinishSystemAccount(cfg, settlement, cache', s', now);
      FinishDone(cfg, Provision, Provisioned, cache'', ProvisionedState(settings, s), now);
    }
  }

  lemma SettlementFits(s: State, ledger: nat)
    requires AccountsOK(s) && CASH in s.accounts && s.accounts[CASH].ledger == ledger
    ensures SETTLEMENT in s.accounts ==> s.accounts[SETTLEMENT].ledger == ledger
  {
    if SETTLEMENT in s.accounts { assert RowOK(s, SETTLEMENT); }
  }

  // ----- The cache fill -----

  /** What a request has looked up last is in the cache, or will be. */
  predicate Remembering(request: Request, point: Point, cache: Ring, s: State) {
    match point
    case Received => true
    case Probe(id, _, next) => next.ThenCheckCard? || next.ThenOpen? || id == LastAccount(request, s)
    case LookupRow(id, _, next) => next.ThenCheckCard? || next.ThenOpen? || id == LastAccount(request, s)
    case KeepMetadata(id, _, next) => next.ThenCheckCard? || next.ThenOpen? || id == LastAccount(request, s)
    case ReadOriginal(_) => true
    case LookupBalance(_) => true
    case SubmitAccount(_) => true
    case KeepAccount(row, _) => row.id == LastAccount(request, s)
    case KeepBalance(row, _) => row.id == LastAccount(request, s)
    case Done(r) => r.Refused? || r == CLOSED || LastAccount(request, s) in cache.entries
    case _ => LastAccount(request, s) in cache.entries
  }

  lemma StoredIsCached(cache: Ring, id: Id, metadata: Metadata)
    requires cache.limit > 0
    ensures id in Store(cache, id, metadata).entries
  {
  }

  lemma RowIsCached(cfg: Config, cache: Ring, row: Account, s: State)
    requires cache.limit > 0 && AccountsOK(s) && Bound(cfg, s) && row.id in s.accounts
    requires Definition(row) == Definition(s.accounts[row.id])
    ensures row.id in Remember(cfg, cache, row).entries
  {
    assert RowOK(s, row.id);
    MetadataOfDefinition(cfg.ledgerID, row, s.accounts[row.id]);
    hide MetadataForAccount, Store;
    StoredIsCached(cache, row.id, MetadataForAccount(cfg.ledgerID, row).value);
  }

  lemma ResumeRemembers(cfg: Config, request: Request, id: Id, metadata: Metadata, next: Next, cache: Ring, s: State)
    requires NextFacts(cfg, request, id, metadata.kind, next, s) && id in cache.entries
    requires next.ThenCheckCard? || next.ThenOpen? || id == LastAccount(request, s)
    ensures Remembering(request, Resume(next, metadata), cache, s)
  {
    hide Asks, AccountOf, IsCorporate, OriginalIs;
  }

  lemma StartRemembering(cfg: Config, request: Request, cache: Ring, s: State)
    ensures Remembering(request, Start(cfg, request), cache, s)
  {
    hide AccountRecipe, TransferOf, WellFormedRequest;
  }

  lemma ChecksRemember(cfg: Config, request: Request, point: Point, cache: Ring, s: State, now: int)
    requires Ready(cfg, request, point, s) && Remembering(request, point, cache, s) && cache.limit > 0
    requires point.Received? || point.Probe? || point.LookupRow? || point.KeepMetadata?
    ensures var m := Step(cfg, request, point, cache, s, Calm(now)); Remembering(request, m.point, m.cache, s)
  {
    hide Inv, Formed, ValidConfig, Bound, NextFacts, MetadataIn, LookupMetadata, Store, Start, Resume, LastAccount;
    match point
    case Received => StartRemembering(cfg, request, cache, s);
    case Probe(id, expected, next) =>
      var cached := Load(cache, id);
      if cached.Some? && cached.value.kind == expected {
        ResumeRemembers(cfg, request, id, cached.value, next, cache, s);
      }
    case LookupRow(id, expected, next) =>
    case KeepMetadata(id, metadata, next) =>
      StoredIsCached(cache, id, metadata);
      ResumeRemembers(cfg, request, id, metadata, next, Store(cache, id, metadata), s);
  }

  lemma RowsRemember(cfg: Config, request: Request, point: Point, cache: Ring, s: State, now: int)
    requires Ready(cfg, request, point, s) && cache.limit > 0 && !request.Provision?
    requires point.SubmitAccount? || point.LookupBalance?
    ensures var m := Step(cfg, request, point, cache, s, Calm(now)); Remembering(request, m.point, m.cache, s)
  {
    hide AccountsOK, TransfersOK, IDsOK, JournalOK, LimitsOK, SolventOK, BalancedOK, FamiliesOK, ValidConfig, Bound,
      LegalAccount, CreateAccount, WellFormedRequest, MetadataIn, MetadataForAccount, AsksAccount;
    match point
    case SubmitAccount(row) => AsksItsAccount(cfg, request, row);
    case LookupBalance(id) => if id in s.accounts { StatementIs(s, id); }
  }

  lemma KeptRemember(cfg: Config, request: Request, point: Point, cache: Ring, s: State, now: int)
    requires Ready(cfg, request, point, s) && Remembering(request, point, cache, s) && cache.limit > 0 && !request.Provision?
    requires point.KeepAccount? || point.KeepBalance?
    ensures var m := Step(cfg, request, point, cache, s, Calm(now)); Remembering(request, m.point, m.cache, s)
  {
    hide AccountsOK, TransfersOK, IDsOK, JournalOK, LimitsOK, SolventOK, BalancedOK, FamiliesOK, ValidConfig, Bound,
      Remember, WellFormedRequest, MetadataIn, BalanceOf, Definition, AsksAccount, LastAccount;
    if point.KeepAccount? { KeptRow(s, point.row); } else { BalanceIsNoRefusal(point.row, point.metadata); }
    RowIsCached(cfg, cache, point.row, s);
  }

  lemma AsksItsAccount(cfg: Config, request: Request, row: Account)
    requires AsksAccount(cfg, request, row) && !request.Provision?
    ensures request.OpenAccount? && row.id == request.account
  {
  }

  lemma BalanceIsNoRefusal(row: Account, metadata: Metadata)
    ensures BalanceOf(row, metadata).Balance?
  {
  }

  lemma TransfersRemember(cfg: Config, request: Request, point: Point, cache: Ring, s: State, now: int)
    requires Ready(cfg, request, point, s) && Remembering(request, point, cache, s)
    requires !point.Received? && !point.Probe? && !point.LookupRow? && !point.KeepMetadata? && !point.SubmitAccount?
    requires !point.KeepAccount? && !point.LookupBalance? && !point.KeepBalance?
    ensures var m := Step(cfg, request, point, cache, s, Calm(now)); Remembering(request, m.point, m.cache, s) && m.cache == cache
  {
    hide Inv, ValidConfig, Bound, Recipe, Wanted, Asks, WellFormedRequest, Truthful, OriginalIs, OpenAuthorization,
      CreateTransfer, DerivedTimeout, StepFindAuthorization, StepFindIncrement, StepRecover, Answer, SameTransfer;
  }

  lemma StepRemembers(cfg: Config, request: Request, point: Point, cache: Ring, s: State, now: int)
    requires Ready(cfg, request, point, s) && Remembering(request, point, cache, s) && cache.limit > 0
    requires !request.Provision? && !point.Done?
    ensures var m := Step(cfg, request, point, cache, s, Calm(now)); Remembering(request, m.point, m.cache, m.ledger)
  {
    hide Step, Ready, Remembering, LastAccount, Extends;
    if point.Received? || point.Probe? || point.LookupRow? || point.KeepMetadata? {
      ChecksRemember(cfg, request, point, cache, s, now);
    } else if point.SubmitAccount? || point.LookupBalance? {
      RowsRemember(cfg, request, point, cache, s, now);
    } else if point.KeepAccount? || point.KeepBalance? {
      KeptRemember(cfg, request, point, cache, s, now);
    } else {
      TransfersRemember(cfg, request, point, cache, s, now);
    }
    var m := Step(cfg, request, point, cache, s, Calm(now));
    ReadyGrows(cfg, request, point, cache, s, now);
    RememberingGrows(request, m.point, m.cache, s, m.ledger);
  }

  lemma ReadyGrows(cfg: Config, request: Request, point: Point, cache: Ring, s: State, now: int)
    requires Ready(cfg, request, point, s)
    ensures Extends(s, Step(cfg, request, point, cache, s, Calm(now)).ledger)
    ensures (var m := Step(cfg, request, point, cache, s, Calm(now));
             m.ledger == s || !request.IncrementAuthorization? || request.authorization in s.transfers)
  {
    hide Inv, Step, Extends, Formed, ValidConfig, Bound;
    StepGrowsLedger(cfg, request, point, cache, s, Calm(now));
    if !point.Submit? {
      OnlySubmissionsWrite(cfg, request, point, cache, s, now);
    }
    hide Recipe, Truthful, NextFacts, LegalAccount;
  }

  lemma OnlySubmissionsWrite(cfg: Config, request: Request, point: Point, cache: Ring, s: State, now: int)
    requires !point.Submit?
    ensures point.SubmitAccount? || Step(cfg, request, point, cache, s, Calm(now)).ledger == s
  {
    hide Start, StepProbe, StepLookupRow, StepFindAuthorization, StepReadOriginal, StepReadClock, StepFindIncrement, StepRecover,
      StepLookupBalance, AfterSubmit, AfterSubmitAccount, AfterKeepAccount, Resume, Store, Remember, BalanceOf, CreateAccount;
  }

  lemma RememberingGrows(request: Request, point: Point, cache: Ring, s: State, s': State)
    requires Remembering(request, point, cache, s) && Extends(s, s')
    requires s' == s || !request.IncrementAuthorization? || request.authorization in s.transfers
    ensures Remembering(request, point, cache, s')
  {
    assert LastAccount(request, s') == LastAccount(request, s);
  }

  lemma {:induction false} FinishRemembers(cfg: Config, request: Request, point: Point, cache: Ring, s: State, now: int)
    requires Ready(cfg, request, point, s) && CacheSound(cfg, cache, s) && Remembering(request, point, cache, s)
    requires cache.limit > 0 && !request.Provision?
    ensures var m := Finish(cfg, request, point, cache, s, now); m.point.Done? && Remembering(request, m.point, m.cache, m.ledger)
    decreases StepsLeft(point)
  {
    hide Finish, Step, StepsLeft, Ready, CacheSound, Remembering, Extends;
    if point.Done? {
      FinishDone(cfg, request, point.response, cache, s, now);
    } else {
      var m := Step(cfg, request, point, cache, s, Calm(now));
      StepRemembers(cfg, request, point, cache, s, now);
      StepKeepsAll(cfg, request, point, cache, s, Calm(now));
      StepAdvances(cfg, request, point, cache, s, Calm(now));
      StepKeepsLimit(cfg, request, point, cache, s, Calm(now));
      FinishUnfolds(cfg, request, point, cache, s, now);
      FinishRemembers(cfg, request, m.point, m.cache, m.ledger, now);
    }
  }

  // ----- As runs -----

  function Turns(thread: nat, now: int, n: nat): seq<Event> {
    seq(n, _ => Advance(thread, Calm(now)))
  }

  /** What is still to come for a thread, alone. */
  ghost function Rest(w: World, thread: nat, now: int): Moved
    requires thread in w.threads && w.threads[thread].instance in w.instances
  {
    var t, i := w.threads[thread], w.instances[w.threads[thread].instance];
    Finish(i.cfg, t.request, t.point, i.cache, w.ledger, now)
  }

  predicate Serving(w: World, thread: nat)
    requires thread in w.threads && w.threads[thread].instance in w.instances
  {
    w.instances[w.threads[thread].instance].serving
  }

  lemma TurnKeepsRest(w: World, thread: nat, now: int)
    requires thread in w.threads && w.threads[thread].instance in w.instances
    ensures (var w' := Apply(w, Advance(thread, Calm(now)));
             && thread in w'.threads && w'.threads[thread].instance == w.threads[thread].instance
             && w'.threads[thread].instance in w'.instances && w'.threads[thread].request == w.threads[thread].request
             && Rest(w', thread, now) == Rest(w, thread, now)
             && (w.threads[thread].point.Done? ==> w'.threads[thread].point == w.threads[thread].point)
             && (Serving(w', thread) <==> Serving(w, thread) || w'.threads[thread].point == Done(Provisioned)))
  {
    hide Step, Finish;
    var t, i := w.threads[thread], w.instances[w.threads[thread].instance];
    if t.point.Done? {
      StepOfDone(i.cfg, t.request, t.point, i.cache, w.ledger, now);
    } else {
      FinishUnfolds(i.cfg, t.request, t.point, i.cache, w.ledger, now);
    }
  }

  lemma StepOfDone(cfg: Config, request: Request, point: Point, cache: Ring, s: State, now: int)
    requires point.Done?
    ensures Step(cfg, request, point, cache, s, Calm(now)) == Moved(point, cache, s)
  {
  }

  lemma {:induction false} TurnsKeepRest(w: World, thread: nat, now: int, n: nat)
    requires thread in w.threads && w.threads[thread].instance in w.instances
    ensures (var w' := Run(w, Turns(thread, now, n));
             && thread in w'.threads && w'.threads[thread].instance == w.threads[thread].instance
             && w'.threads[thread].instance in w'.instances && w'.threads[thread].request == w.threads[thread].request
             && Rest(w', thread, now) == Rest(w, thread, now)
             && (n > 0 ==> (Serving(w', thread) <==> Serving(w, thread) || w'.threads[thread].point == Done(Provisioned))))
    ensures OwnSteps(Turns(thread, now, n), thread) == n
  {
    hide Apply, Rest, Serving;
    if n > 0 {
      assert Turns(thread, now, n)[..n - 1] == Turns(thread, now, n - 1);
      TurnsKeepRest(w, thread, now, n - 1);
      TurnKeepsRest(Run(w, Turns(thread, now, n - 1)), thread, now);
    }
  }

  /** Twelve turns finish a request: its thread has answered, and the ledger and the cache are as the request alone leaves
      them. */
  lemma TurnsFinish(w: World, thread: nat, now: int)
    requires thread in w.threads && w.threads[thread].instance in w.instances
    ensures (var w' := Run(w, Turns(thread, now, 12));
             var m := Rest(w, thread, now);
             && thread in w'.threads && w'.threads[thread].request == w.threads[thread].request
             && w'.threads[thread].point.Done? && w'.threads[thread].point == m.point && w'.ledger == m.ledger
             && w.threads[thread].instance in w'.instances && w'.instances[w.threads[thread].instance].cache == m.cache
             && (w'.instances[w.threads[thread].instance].serving
                 <==> w.instances[w.threads[thread].instance].serving || m.point == Done(Provisioned)))
  {
    hide Run, Finish;
    TurnsKeepRest(w, thread, now, 12);
    RequestsAreAnswered(w, Turns(thread, now, 12), thread);
    var w' := Run(w, Turns(thread, now, 12));
    var i := w'.instances[w'.threads[thread].instance];
    FinishDone(i.cfg, w'.threads[thread].request, w'.threads[thread].point.response, i.cache, w'.ledger, now);
  }

  /** A request comes in, and gets its turns with nobody else about. */
  function Alone(w: World, thread: nat, instance: nat, request: Request, now: int): World {
    Run(Apply(w, Arrive(thread, instance, request)), Turns(thread, now, 12))
  }

  /** Every request is served: in every reachable world, on every serving instance, a request that is left alone gets the
      promised answer with the promised effect, and leaves the account it looked up last in the cache, if there is one. */
  lemma RequestsAreServed(events: seq<Event>, instance: nat, thread: nat, request: Request, now: int)
    requires (var w := Run(INITIAL, events);
              instance in w.instances && w.instances[instance].serving && thread !in w.threads && !request.Provision?)
    ensures exists k, settings :: Boots(events, k, instance, settings) &&
              (var w := Run(INITIAL, events);
               var w', r := Alone(w, thread, instance, request, now), Expected(settings, request, w.ledger, now);
               && Answered(w', thread, request, r) && Effect(settings, request, w.ledger, w'.ledger, r, now)
               && instance in w'.instances
               && (settings.cacheSize > 0 && !r.Refused? && r != CLOSED ==>
                     LastAccount(request, w'.ledger) in w'.instances[instance].cache.entries))
  {
    hide Run, Finish, WorldOK, New, Expected, Effect, LastAccount, ConfigFor, Inv, CacheSound, Bound, ValidConfig, Turns;
    var w := Run(INITIAL, events);
    Reachable(events);
    var k, settings := InstanceWasBooted(events, instance);
    NewConfig(settings);
    ServingIsReady(w, instance);
    var i := w.instances[instance];
    UndisturbedOutcome(settings, i.cfg, request, i.cache, w.ledger, now);
    if i.cache.limit > 0 { StartRemembers(i.cfg, request, i.cache, w.ledger, now); }
    TurnsFinish(Apply(w, Arrive(thread, instance, request)), thread, now);
    assert Boots(events, k, instance, settings);
  }

  lemma ServingIsReady(w: World, instance: nat)
    requires WorldOK(w) && instance in w.instances
    ensures (var i := w.instances[instance];
             && Inv(w.ledger) && ValidConfig(i.cfg) && CacheSound(i.cfg, i.cache, w.ledger)
             && (i.serving ==> Bound(i.cfg, w.ledger)))
  {
    hide Inv, CacheSound, ValidConfig, Bound;
    assert InstanceOK(w, instance);
  }

  lemma StartRemembers(cfg: Config, request: Request, cache: Ring, s: State, now: int)
    requires Inv(s) && ValidConfig(cfg) && Bound(cfg, s) && CacheSound(cfg, cache, s)
    requires cache.limit > 0 && !request.Provision?
    ensures (var m := Finish(cfg, request, Received, cache, s, now);
             && m.point.Done?
             && (!m.point.response.Refused? && m.point.response != CLOSED ==> LastAccount(request, m.ledger) in m.cache.entries))
  {
    hide Inv, Bound, CacheSound, Finish, ValidConfig, LastAccount;
    FinishRemembers(cfg, request, Received, cache, s, now);
  }

  /** Every instance comes up: booted with permitted settings and left alone to provision, it serves if and only if the
      cash account is absent or of its ledger number, and then both system accounts are stored. */
  lemma InstancesComeUp(events: seq<Event>, instance: nat, settings: Settings, thread: nat, now: int)
    requires var w := Run(INITIAL, events); instance !in w.instances && thread !in w.threads && Permitted(settings)
    ensures (var w := Run(INITIAL, events);
             var w' := Alone(Apply(w, Boot(instance, settings)), thread, instance, Provision, now);
             var fits := 1 in w.ledger.accounts ==> w.ledger.accounts[1].ledger == settings.ledgerID;
             && Answered(w', thread, Provision, if fits then Provisioned else Refused(ProvisioningFailed))
             && instance in w'.instances && (w'.instances[instance].serving <==> fits)
             && w'.ledger == if fits then ProvisionedState(settings, w.ledger) else w.ledger)
  {
    hide Run, Finish, WorldOK, New, ConfigFor, ProvisionedState, Accepted, Permitted;
    AcceptedIs(settings);
    var w := Run(INITIAL, events);
    Reachable(events);
    NewConfig(settings);
    WorldHasInv(w);
    var cache := Empty(settings.cacheSize);
    UndisturbedProvisioning(settings, New(settings), cache, w.ledger, now);
    TurnsFinish(Apply(Apply(w, Boot(instance, settings)), Arrive(thread, instance, Provision)), thread, now);
  }
}
