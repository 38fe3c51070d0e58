/** What the ledger holds in every run, field by field, and on whose request. */
module WrittenOut {
  import opened Wrappers
  import opened TigerBeetle
  import opened AccountModel
  import opened Ledger
  import opened Recipes
  import opened Timeouts
  import opened MetadataCache
  import opened LedgerInvariant
  import opened Requests
  import opened RequestFacts
  import opened RequestSteps
  import opened Runs
  import opened OutcomeTheorems
  import opened MoneyTheorems
  import opened History
  import opened Promises
  import opened Decisions

  /** A thread whose request arrived at an instance booted with these settings. */
  ghost predicate ArrivedOn(events: seq<Event>, thread: nat, request: Request, settings: Settings) {
    var w := Run(INITIAL, events);
    && thread in w.threads && w.threads[thread].request == request
    && exists k :: Boots(events, k, w.threads[thread].instance, settings)
  }

  lemma ThreadRunsOn(events: seq<Event>, thread: nat) returns (settings: Settings)
    requires var w := Run(INITIAL, events); thread in w.threads && w.threads[thread].instance in w.instances
    ensures ArrivedOn(events, thread, Run(INITIAL, events).threads[thread].request, settings)
    ensures ConfigFor(settings, ConfigOf(Run(INITIAL, events), thread))
  {
    hide Run, New, ConfigFor;
    var k;
    k, settings := InstanceWasBooted(events, Run(INITIAL, events).threads[thread].instance);
    NewConfig(settings);
  }

  // ----- Transfers -----

  /** Everything about a stored transfer that does not depend on who asked for it. */
  predicate SoundTransfer(s: State, t: Transfer) {
    && 1 in s.accounts && t.debit in s.accounts && t.credit in s.accounts && t.debit != t.credit
    && t.ledger == s.accounts[1].ledger == s.accounts[t.debit].ledger == s.accounts[t.credit].ledger
    && 0 < t.amount < 0x1_0000_0000_0000_0000
    && t.pendingID == 0 && t.flags.rest == 0
    && (!t.flags.pending ==> Bare(t))
  }

  lemma StoredIsSound(s: State, id: Id)
    requires Inv(s) && id in s.transfers
    ensures SoundTransfer(s, s.transfers[id]) && s.transfers[id].id == id && s.transfers[id].timestamp <= s.clock
  {
    hide IDsOK, JournalOK, LimitsOK, SolventOK, BalancedOK, FamiliesOK;
    assert StoredOK(s, id);
    StoredEndpoints(s, id);
    var t := s.transfers[id];
    assert RowOK(s, t.debit) && RowOK(s, t.credit);
  }

  /** The least whole number of seconds that covers the configured timeout. */
  ghost predicate IsHoldTimeout(settings: Settings, timeout: nat) {
    forall n: nat :: Reaching(0, n, settings.authorizationTimeout) <==> n >= timeout
  }

  /** Some request that has arrived asked for exactly this transfer. */
  ghost predicate AskedFor(events: seq<Event>, thread: nat, settings: Settings, request: Request, t: Transfer) {
    && ArrivedOn(events, thread, request, settings) && !Malformed(request)
    && Matches(settings, request, Run(INITIAL, events).ledger, t)
    && (request.Authorize? ==> IsHoldTimeout(settings, t.timeout))
  }

  /** Whatever a run has stored is of the one ledger, carries nothing but what its kind needs, and spells out, field by
      field, what one request asked for. */
  lemma StoredTransferIsSpelledOut(events: seq<Event>, id: Id)
    requires id in LedgerAfter(events).transfers
    ensures (var s := LedgerAfter(events);
             var t := s.transfers[id];
             && SoundTransfer(s, t) && t.id == id && 0 < t.timestamp <= s.clock
             && exists thread, settings, request :: AskedFor(events, thread, settings, request, t))
  {
    hide Run, Inv, SoundTransfer, Wanted, WellFormedRequest, Malformed, Matches, ArrivedOn, ConfigFor, IsHoldTimeout, Step;
    var w := Run(INITIAL, events);
    Reachable(events);
    StoredIsSound(w.ledger, id);
    var k, _ := TransferWasSubmitted(events, id);
    MoneyMovesOnRequest(events, id);
    var thread :| Asked(w, thread, id);
    var request := w.threads[thread].request;
    var settings := ThreadRunsOn(events, thread);
    WantedIsSpelledOut(settings, ConfigOf(w, thread), request, w.ledger, w.ledger.transfers[id]);
    FormedIs(request);
    assert AskedFor(events, thread, settings, request, w.ledger.transfers[id]);
  }

  lemma WantedIsSpelledOut(settings: Settings, cfg: Config, request: Request, s: State, t: Transfer)
    requires Inv(s) && ConfigFor(settings, cfg) && Wanted(cfg, request, s, t)
    ensures Matches(settings, request, s, t)
    ensures request.Authorize? ==> IsHoldTimeout(settings, t.timeout)
  {
    hide AccountsOK, TransfersOK, IDsOK, JournalOK, LimitsOK, SolventOK, BalancedOK, FamiliesOK;
    if request.IncrementAuthorization? { OriginalsCredit(s, request.authorization); }
    MatchesIs(settings, cfg, request, s, t);
    HoldSecondsAreLeast(settings);
    hide Wanted, ConfigFor, HoldSeconds, Spells;
  }

  /** And a success reports a transfer that spells out, field by field, what that very request asked for. */
  lemma SuccessIsSpelledOut(events: seq<Event>, later: seq<Event>, thread: nat, request: Request, r: Response)
    requires Answered(Run(INITIAL, events), thread, request, r) && r.Succeeded()
    ensures (var s := Run(Run(INITIAL, events), later).ledger;
             && request.MovesMoney() && request.id in s.transfers && !Malformed(request)
             && var t := s.transfers[request.id];
                && r.timestamp == t.timestamp && r.http == 200 && r.code == NoCode
                && (r.outcome == Approved <==> t.flags.pending) && (r.outcome == Posted <==> !t.flags.pending)
                && (r.expiresAt == if request.Authorize? then Some(ExpiryAt(t)) else None)
                && exists settings ::
                     && ArrivedOn(events, thread, request, settings) && Matches(settings, request, s, t)
                     && (request.Authorize? ==> IsHoldTimeout(settings, t.timeout)))
  {
    hide Run, WorldOK, Inv, Wanted, WellFormedRequest, Malformed, ArrivedOn, IsHoldTimeout, Bound, Extends, ConfigFor;
    var w := Run(INITIAL, events);
    var s := Run(w, later).ledger;
    Reachable(events);
    RunKeeps(w, later);
    WorldIsInv(Run(w, later));
    Reported(w, thread, request, r);
    SuccessIsStored(events, later, thread, request, r);
    var settings := ThreadRunsOn(events, thread);
    WantedIsSpelledOut(settings, ConfigOf(w, thread), request, s, s.transfers[request.id]);
    FormedIs(request);
    ReportIsSpelledOut(settings, ConfigOf(w, thread), request, r, w.ledger, s.transfers[request.id], s);
    assert Matches(settings, request, s, s.transfers[request.id]);
  }

  lemma WorldIsInv(w: World)
    requires WorldOK(w)
    ensures Inv(w.ledger)
  {
    hide Inv;
  }

  lemma ReportIsSpelledOut(settings: Settings, cfg: Config, request: Request, r: Response, s: State, t: Transfer, s': State)
    requires ConfigFor(settings, cfg) && Truthful(cfg, request, r, s) && r.Succeeded() && request.MovesMoney()
    requires r.timestamp == t.timestamp && Matches(settings, request, s', t)
    ensures r.http == 200 && r.code == NoCode
    ensures (r.outcome == Approved <==> t.flags.pending) && (r.outcome == Posted <==> !t.flags.pending)
    ensures r.expiresAt == if request.Authorize? then Some(ExpiryAt(t)) else None
  {
    hide Wanted, HoldSeconds, StoredTimeout;
  }

  // ----- Accounts -----

  /** The two system accounts and the two kinds of wallets, in every immutable field. */
  predicate SoundRow(s: State, row: Account) {
    && 1 in s.accounts && row.ledger == s.accounts[1].ledger && row.userData64 == 0 && row.userData32 == 0 && row.flags.rest == 0
    && (row.flags.creditsMustNotExceedDebits <==> row.id == 1) && (row.flags.debitsMustNotExceedCredits <==> row.id != 1)
    && (row.id == 1 <==> row.code == 1001) && (row.id == 2 <==> row.code == 2003)
    && (row.id > 2 ==> row.code == 2001 || row.code == 2002)
    && (row.code != 2002 ==> row.userData128 == 0)
    && (row.code == 2002 ==> Corporate(s, row.userData128))
  }

  lemma RowIsSound(s: State, id: Id)
    requires Inv(s) && id in s.accounts
    ensures SoundRow(s, s.accounts[id]) && s.accounts[id].id == id
  {
    hide TransfersOK, IDsOK, JournalOK, LimitsOK, SolventOK, BalancedOK, FamiliesOK;
    assert RowOK(s, id);
    if IsCard(s, id) { KindsAre(s, s.accounts[id].userData128); }
  }

  /** The request asks for this account. */
  predicate AsksForRow(request: Request, row: Account) {
    match request
    case Provision => row.id == 1 || row.id == 2
    case OpenAccount(account, kind, parent) =>
      && row.id == account && (kind == CorporateWallet || kind == CardWallet)
      && row.code == (if kind == CardWallet then 2002 else 2001)
      && row.userData128 == (if parent.Some? then parent.value else 0)
    case _ => false
  }

  predicate AskedForRow(w: World, thread: nat, row: Account) {
    thread in w.threads && AsksForRow(w.threads[thread].request, row)
  }

  /** A step opens at most the account it submits. */
  lemma StepOpens(cfg: Config, request: Request, point: Point, cache: Ring, s: State, choice: Choice, id: Id)
    requires id in Step(cfg, request, point, cache, s, choice).ledger.accounts && id !in s.accounts
    requires point.Submit? ==> point.transfer.debit in s.accounts && point.transfer.credit in s.accounts
    requires point.Submit? ==>
               s.accounts[point.transfer.debit].id in s.accounts && s.accounts[point.transfer.credit].id in s.accounts
    ensures point.SubmitAccount? && point.row.id == id
    ensures Definition(Step(cfg, request, point, cache, s, choice).ledger.accounts[id]) == Definition(point.row)
  {
    hide StepProbe, StepLookupRow, StepFindAuthorization, StepReadOriginal, StepReadClock, StepFindIncrement, StepRecover,
      StepLookupBalance, BalanceOf, AfterKeepAccount, AfterSubmit, AfterSubmitAccount, Start, Resume, Store, Remember,
      Judge, CompareAccounts, CompareTransfers;
  }

  lemma SubmitsAskedRow(cfg: Config, request: Request, row: Account, s: State)
    requires Facts(cfg, request, SubmitAccount(row), s)
    ensures AsksForRow(request, row)
  {
  }

  lemma OpenedIsAsked(w: World, thread: nat, choice: Choice, id: Id)
    requires WorldOK(w) && thread in w.threads && w.threads[thread].instance in w.instances && id !in w.ledger.accounts
    requires id in AdvanceThread(w, thread, choice).ledger.accounts
    ensures AsksForRow(w.threads[thread].request, AdvanceThread(w, thread, choice).ledger.accounts[id])
  {
    hide IDsOK, JournalOK, LimitsOK, SolventOK, BalancedOK, FamiliesOK, AccountsOK, TransfersOK, Formed, CacheSound, Step,
      Facts, Bound, ValidConfig;
    var t, i := w.threads[thread], w.instances[w.threads[thread].instance];
    assert ThreadOK(w, thread);
    if t.point.Submit? { SubmitHasEndpoints(i.cfg, t.request, t.point, w.ledger); }
    StepOpens(i.cfg, t.request, t.point, i.cache, w.ledger, choice, id);
    SubmitsAskedRow(i.cfg, t.request, t.point.row, w.ledger);
  }

  lemma SubmitHasEndpoints(cfg: Config, request: Request, point: Point, s: State)
    requires AccountsOK(s) && point.Submit? && Facts(cfg, request, point, s)
    ensures point.transfer.debit in s.accounts && point.transfer.credit in s.accounts
    ensures s.accounts[point.transfer.debit].id in s.accounts && s.accounts[point.transfer.credit].id in s.accounts
  {
    hide AccountsOK, Recipe, Wanted;
    RecipeEndpoints(s, point.transfer);
  }

  lemma OthersOpenNothing(w: World, e: Event, id: Id)
    requires !e.Advance? && id in Apply(w, e).ledger.accounts
    ensures id in w.ledger.accounts
  {
  }

  lemma {:induction false} RowWasAsked(events: seq<Event>, id: Id) returns (thread: nat)
    requires id in Run(INITIAL, events).ledger.accounts
    ensures AskedForRow(Run(INITIAL, events), thread, Run(INITIAL, events).ledger.accounts[id])
    ensures Run(INITIAL, events).threads[thread].instance in Run(INITIAL, events).instances
    decreases |events|
  {
    hide WorldOK, AdvanceThread, AsksForRow;
    var n := |events| - 1;
    var before, last := Run(INITIAL, events[..n]), events[n];
    Reachable(events[..n]);
    if id in before.ledger.accounts {
      thread := RowWasAsked(events[..n], id);
      hide Apply;
      ApplyKeeps(before, last);
      ApplyKeepsThread(before, last, thread);
      AsksForDefinition(before.threads[thread].request, before.ledger.accounts[id], Run(INITIAL, events).ledger.accounts[id]);
    } else if !last.Advance? {
      OthersOpenNothing(before, last, id);
    } else {
      thread := last.running;
      OpenedIsAsked(before, thread, last.choice, id);
      ApplyKeepsThread(before, last, thread);
    }
  }

  lemma AsksForDefinition(request: Request, row: Account, row': Account)
    requires AsksForRow(request, row) && Definition(row') == Definition(row)
    ensures AsksForRow(request, row')
  {
  }

  /** Every stored account is one of the four kinds, in every immutable field, and one request asked for it. */
  lemma StoredAccountIsSpelledOut(events: seq<Event>, id: Id)
    requires id in LedgerAfter(events).accounts
    ensures (var s := LedgerAfter(events);
             && SoundRow(s, s.accounts[id]) && s.accounts[id].id == id
             && exists thread :: AskedForRow(Run(INITIAL, events), thread, s.accounts[id]))
  {
    hide Run, Inv, SoundRow, AsksForRow;
    Reachable(events);
    RowIsSound(Run(INITIAL, events).ledger, id);
    var thread := RowWasAsked(events, id);
  }
}
