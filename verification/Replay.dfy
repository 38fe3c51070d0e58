/** Retries: once an ID is stored, the answer to any later request with that ID is decided by the payload alone. */
module Replay {
  import opened TigerBeetle
  import opened AccountModel
  import opened Ledger
  import opened Recipes
  import opened MetadataCache
  import opened LedgerInvariant
  import opened LedgerSteps
  import opened Requests
  import opened RequestFacts
  import opened RequestSteps

  /** A validated request: well formed, over accounts of the right kinds; an increment names a stored authorization. */
  predicate Admissible(s: State, request: Request) {
    && WellFormedRequest(request)
    && match request
       case TopUp(_, account, _) => IsCorporate(s, account)
       case Withdraw(_, account, _) => IsCorporate(s, account)
       case MoveFunds(_, account, card, _, _) => IsCorporate(s, account) && IsCardOf(s, card, account)
       case Authorize(_, card, _, _, _) => IsCard(s, card)
       case IncrementAuthorization(_, authorization, _) => IsAuthorization(s, authorization)
       case _ => false
  }

  /** The three ways a request over a stored ID can end. */
  predicate Decided(r: Response) {
    r.Interrupted() || r.Succeeded() || r == Refused(IdempotencyConflict)
  }

  predicate Passes(s: State, id: Id, expected: AccountKind, next: Next) {
    && MetadataIn(s, id).Some? && MetadataIn(s, id).value.kind == expected
    && (next.ThenMove? ==> MetadataIn(s, id).value.parent == next.account)
  }

  /** No program point on the way of such a request leads to any other end. */
  predicate OnTrack(request: Request, point: Point, s: State) {
    match point
    case Probe(id, expected, next) => Passes(s, id, expected, next)
    case LookupRow(id, expected, next) => Passes(s, id, expected, next)
    case KeepMetadata(id, metadata, next) => next.ThenMove? ==> metadata.parent == next.account
    case Done(r) => Decided(r)
    case _ => true
  }

  lemma OnTrackStable(request: Request, point: Point, s: State, s': State)
    requires Extends(s, s') && CASH in s.accounts && OnTrack(request, point, s)
    ensures OnTrack(request, point, s')
  {
  }

  lemma AdmissibleStable(request: Request, s: State, s': State)
    requires Extends(s, s') && CASH in s.accounts && Admissible(s, request)
    ensures Admissible(s', request)
  {
  }

  // ----- One step of such a request -----

  /** The situation of a request whose ID is already stored. */
  ghost predicate Retrying(cfg: Config, request: Request, point: Point, s: State) {
    && Ready(cfg, request, point, s) && request.MovesMoney() && Bound(cfg, s)
    && Admissible(s, request) && request.id in s.transfers && OnTrack(request, point, s)
  }

  lemma TrackStart(cfg: Config, request: Request, s: State)
    requires Admissible(s, request)
    ensures OnTrack(request, Start(cfg, request), s)
  {
  }

  lemma TrackResume(cfg: Config, request: Request, id: Id, metadata: Metadata, next: Next, s: State)
    requires NextFacts(cfg, request, id, metadata.kind, next, s) && Admissible(s, request)
    requires next.ThenMove? ==> metadata.parent == next.account
    ensures OnTrack(request, Resume(next, metadata), s)
  {
  }

  lemma TrackProbe(cfg: Config, request: Request, cache: Ring, id: Id, expected: AccountKind, next: Next, s: State)
    requires NextFacts(cfg, request, id, expected, next, s) && Admissible(s, request) && Bound(cfg, s)
    requires CacheSound(cfg, cache, s) && Passes(s, id, expected, next)
    ensures OnTrack(request, StepProbe(cache, id, expected, next), s)
  {
  }

  lemma TrackLookupRow(cfg: Config, request: Request, id: Id, expected: AccountKind, next: Next, s: State)
    requires Bound(cfg, s) && Passes(s, id, expected, next)
    ensures OnTrack(request, StepLookupRow(cfg, s, id, expected, next), s)
  {
  }

  lemma TrackReadOriginal(cfg: Config, request: Request, order: Order, s: State)
    requires TransfersOK(s) && Bound(cfg, s) && OrderOf(request, order) && Admissible(s, request)
    ensures OnTrack(request, StepReadOriginal(cfg, s, order), s)
  {
    hide TransfersOK, OpenAuthorization, MetadataIn, WellFormedRequest;
    OpenIsAuthorization(cfg, s, order.authorization);
  }

  lemma TrackSubmit(cfg: Config, request: Request, t: Transfer, s: State)
    requires TransfersOK(s) && IDsOK(s) && Wanted(cfg, request, s, t) && request.id in s.transfers
    ensures CreateTransfer(s, t).0 == s && OnTrack(request, AfterSubmit(cfg, t, CreateTransfer(s, t).1), s)
  {
  }

  lemma TrackFind(cfg: Config, request: Request, t: Transfer, order: Order, original: Transfer, expired: bool, s: State)
    requires request.MovesMoney() && request.id in s.transfers
    ensures Asks(cfg, request, t) ==> Decided(StepFindAuthorization(cfg, s, t))
    ensures OrderOf(request, order) ==> Decided(StepFindIncrement(cfg, s, order, original, expired))
    ensures Decided(StepRecover(cfg, s, t))
  {
  }

  lemma TrackAccountPoint(cfg: Config, request: Request, point: Point, cache: Ring, s: State, choice: Choice)
    requires Retrying(cfg, request, point, s) && CacheSound(cfg, cache, s) && AccountPoint(point)
    ensures OnTrack(request, Step(cfg, request, point, cache, s, choice).point, s)
  {
    hide Inv, CacheSound, Admissible, Bound, ValidConfig, NextFacts, Passes, Store, Remember, Recipe;
    hide StepProbe, StepLookupRow, Start, Resume;
    match point
    case Received => TrackStart(cfg, request, s);
    case Probe(id, expected, next) => TrackProbe(cfg, request, cache, id, expected, next, s);
    case LookupRow(id, expected, next) => TrackLookupRow(cfg, request, id, expected, next, s);
    case KeepMetadata(id, metadata, next) => TrackResume(cfg, request, id, metadata, next, s);
    case KeepAccount(row, r) => NotAnAccount(cfg, request, row);
    case _ =>
  }

  lemma NotAnAccount(cfg: Config, request: Request, row: Account)
    requires request.MovesMoney()
    ensures !AsksAccount(cfg, request, row)
  {
  }

  lemma TrackTransferPoint(cfg: Config, request: Request, point: Point, cache: Ring, s: State, choice: Choice)
    requires Retrying(cfg, request, point, s) && !AccountPoint(point)
    ensures var m := Step(cfg, request, point, cache, s, choice); m.ledger == s && OnTrack(request, m.point, s)
  {
    hide AccountsOK, TransfersOK, IDsOK, JournalOK, LimitsOK, SolventOK, BalancedOK, FamiliesOK;
    hide Admissible, Bound, ValidConfig, Recipe, Wanted, Asks, OrderOf, OriginalIs, LegalAccount, Passes, AsksAccount;
    hide CreateTransfer, AfterSubmit, StepFindAuthorization, StepFindIncrement, StepRecover, StepReadOriginal,
      CreateAccount, AfterSubmitAccount;
    match point
    case ReadOriginal(order) => TrackReadOriginal(cfg, request, order, s);
    case Submit(t) => TrackSubmit(cfg, request, t, s);
    case FindAuthorization(t) => TrackFind(cfg, request, t, Order(0, 0, 0), t, false, s);
    case Recover(t) => TrackFind(cfg, request, t, Order(0, 0, 0), t, false, s);
    case FindIncrement(order, original, expired) => TrackFind(cfg, request, original, order, original, expired, s);
    case SubmitAccount(row) => NotAnAccount(cfg, request, row);
    case _ =>
  }

  /** A retry takes no step that changes the ledger, and stays on its way to a decided answer. */
  lemma RetryStep(cfg: Config, request: Request, point: Point, cache: Ring, s: State, choice: Choice)
    requires Retrying(cfg, request, point, s) && CacheSound(cfg, cache, s)
    ensures var m := Step(cfg, request, point, cache, s, choice); m.ledger == s && OnTrack(request, m.point, s)
  {
    if AccountPoint(point) {
      hide OnTrack, Facts, Inv, Bound, Admissible, CacheSound;
      TrackAccountPoint(cfg, request, point, cache, s, choice);
    } else {
      hide OnTrack, Facts, Inv, Bound, Admissible, Step, CacheSound;
      TrackTransferPoint(cfg, request, point, cache, s, choice);
    }
  }
}
