/** What callers are told, over every run: truthful answers, stable retries, final rejections, transparent caching. */
module OutcomeTheorems {
  import opened Wrappers
  import opened TigerBeetle
  import opened AccountModel
  import opened Ledger
  import opened Recipes
  import opened Timeouts
  import opened MetadataCache
  import opened LedgerInvariant
  import opened Requests
  import opened RequestFacts
  import opened RequestSteps
  import opened Runs
  import opened Replay
  import opened Promises
  import opened Decisions

  /** The response that a thread has given in `w`, if it has finished. */
  predicate Answered(w: World, thread: nat, request: Request, r: Response) {
    thread in w.threads && w.threads[thread].request == request && w.threads[thread].point == Done(r)
  }

  /** The configuration of the instance that runs a thread. */
  function ConfigOf(w: World, thread: nat): Config
    requires thread in w.threads && w.threads[thread].instance in w.instances
  {
    w.instances[w.threads[thread].instance].cfg
  }

  lemma Reported(w: World, thread: nat, request: Request, r: Response)
    requires WorldOK(w) && Answered(w, thread, request, r)
    ensures w.threads[thread].instance in w.instances && Truthful(ConfigOf(w, thread), request, r, w.ledger)
    ensures Formed(request, Done(r)) && ValidConfig(ConfigOf(w, thread))
    ensures !request.Provision? ==> Bound(ConfigOf(w, thread), w.ledger)
  {
    hide Inv, Truthful, Bound, CacheSound, WellFormedRequest, ValidConfig;
    assert ThreadOK(w, thread) && InstanceOK(w, w.threads[thread].instance);
  }

  /** A malformed request is refused as invalid and gets no further. */
  lemma MalformedIsRefused(events: seq<Event>, thread: nat)
    requires var w := Run(INITIAL, events); thread in w.threads && Malformed(w.threads[thread].request)
    ensures var point := Run(INITIAL, events).threads[thread].point;
              point.Received? || point == Done(Refused(InvalidRequest))
  {
    hide Run, Inv, Facts, WellFormedRequest, Malformed;
    Reachable(events);
    FormedIs(Run(INITIAL, events).threads[thread].request);
    assert ThreadOK(Run(INITIAL, events), thread);
  }

  // ----- Truthful outcomes -----

  /** Posted or approved means stored: the ledger holds, under the request's ID, exactly the transfer the request asks
      for, with the reported timestamp; and it holds it ever after. */
  lemma SuccessIsStored(events: seq<Event>, later: seq<Event>, thread: nat, request: Request, r: Response)
    requires Answered(Run(INITIAL, events), thread, request, r) && r.Succeeded()
    ensures (var w := Run(INITIAL, events);
             var s := Run(w, later).ledger;
             && w.threads[thread].instance in w.instances
             && request.MovesMoney() && request.id in s.transfers && request.id !in s.failed
             && Wanted(ConfigOf(w, thread), request, s, s.transfers[request.id])
             && r.timestamp == s.transfers[request.id].timestamp)
  {
    var w := Run(INITIAL, events);
    Reachable(events);
    RunKeeps(w, later);
    Reported(w, thread, request, r);
    StoredForGood(ConfigOf(w, thread), request, r, w.ledger, Run(w, later).ledger);
    hide Run, WorldOK;
  }

  lemma StoredForGood(cfg: Config, request: Request, r: Response, s: State, s': State)
    requires Extends(s, s') && IDsOK(s') && Truthful(cfg, request, r, s) && r.Succeeded()
    ensures request.MovesMoney() && request.id in s'.transfers && request.id !in s'.failed
    ensures Wanted(cfg, request, s', s'.transfers[request.id]) && r.timestamp == s'.transfers[request.id].timestamp
  {
  }

  /** Two successes under one ID, on any two instances, are of one and the same payload and report the same stored
      transfer. */
  lemma SuccessesAgree(events: seq<Event>, one: nat, other: nat, request: Request, request': Request, r: Response, r': Response)
    requires var w := Run(INITIAL, events); Answered(w, one, request, r) && Answered(w, other, request', r')
    requires r.Succeeded() && r'.Succeeded() && request.MovesMoney() && request'.MovesMoney() && request.id == request'.id
    ensures request == request' && r.timestamp == r'.timestamp && r.outcome == r'.outcome
  {
    hide Run, WorldOK, Wanted, Bound, ValidConfig, WellFormedRequest;
    var w := Run(INITIAL, events);
    Reachable(events);
    Reported(w, one, request, r);
    Reported(w, other, request', r');
    SuccessIsWanted(ConfigOf(w, one), request, r, w.ledger);
    SuccessIsWanted(ConfigOf(w, other), request', r', w.ledger);
    WantedIsPayload(ConfigOf(w, one), ConfigOf(w, other), request, request', w.ledger, w.ledger.transfers[request.id]);
  }

  /** A transfer tells who can have asked for it. */
  lemma WantedIsPayload(cfg: Config, cfg': Config, request: Request, request': Request, s: State, t: Transfer)
    requires Wanted(cfg, request, s, t) && Wanted(cfg', request', s, t)
    ensures request == request'
  {
  }

  lemma SuccessIsWanted(cfg: Config, request: Request, r: Response, s: State)
    requires Truthful(cfg, request, r, s) && r.Succeeded()
    ensures request.MovesMoney() && request.id in s.transfers && r.timestamp == s.transfers[request.id].timestamp
    ensures Wanted(cfg, request, s, s.transfers[request.id])
    ensures request.amount == s.transfers[request.id].amount
    ensures r.outcome == (if s.transfers[request.id].code == AUTHORIZATION || s.transfers[request.id].code == INCREMENT
                          then Approved else Posted)
  {
  }

  /** Finality: once the ledger has rejected an ID, whether or not the answer got through, it is never stored, and no
      operation ever reports success for it. */
  lemma RejectionIsFinal(events: seq<Event>, later: seq<Event>, id: Id, thread: nat, request: Request, r: Response)
    requires id in Run(INITIAL, events).ledger.failed
    requires Answered(Run(Run(INITIAL, events), later), thread, request, r)
    ensures id in Run(Run(INITIAL, events), later).ledger.failed && id !in Run(Run(INITIAL, events), later).ledger.transfers
    ensures request.MovesMoney() && request.id == id ==> !r.Succeeded()
  {
    hide Wanted, Bound, ValidConfig, WellFormedRequest, Run;
    var w := Run(INITIAL, events);
    Reachable(events);
    RunKeeps(w, later);
    Reported(Run(w, later), thread, request, r);
    hide AccountsOK, TransfersOK, JournalOK, LimitsOK, SolventOK, BalancedOK, FamiliesOK;
  }

  /** A rejection by the ledger that was answered has burnt the ID. */
  lemma RejectionBurnsID(events: seq<Event>, thread: nat, request: Request, r: Response)
    requires Answered(Run(INITIAL, events), thread, request, r)
    requires r.Reply? && !r.Succeeded() && r.ledgerStatus.Some?
    ensures request.MovesMoney() && request.id in Run(INITIAL, events).ledger.failed
  {
    hide Wanted, Bound, ValidConfig, WellFormedRequest, Run, WorldOK;
    Reachable(events);
    Reported(Run(INITIAL, events), thread, request, r);
  }

  // ----- Retries over whole runs -----

  predicate Tracked(w: World, thread: nat, request: Request) {
    thread in w.threads && w.threads[thread].request == request ==>
      OnTrack(request, w.threads[thread].point, w.ledger)
  }

  ghost predicate Taken(w: World, request: Request) {
    && WorldOK(w) && request.MovesMoney() && Admissible(w.ledger, request) && request.id in w.ledger.transfers
  }

  lemma TakenIsProvisioned(w: World, request: Request)
    requires Taken(w, request)
    ensures CASH in w.ledger.accounts
  {
  }

  lemma ThreadIsRetrying(w: World, thread: nat, request: Request)
    requires Taken(w, request) && Tracked(w, thread, request)
    requires thread in w.threads && w.threads[thread].request == request
    ensures w.threads[thread].instance in w.instances
    ensures Retrying(ConfigOf(w, thread), request, w.threads[thread].point, w.ledger)
    ensures CacheSound(ConfigOf(w, thread), w.instances[w.threads[thread].instance].cache, w.ledger)
  {
    hide Inv, Facts, Formed, Bound, Admissible, OnTrack, CacheSound, ValidConfig;
    assert ThreadOK(w, thread) && InstanceOK(w, w.threads[thread].instance);
  }

  lemma TrackApply(w: World, e: Event, thread: nat, request: Request)
    requires Taken(w, request) && Tracked(w, thread, request)
    ensures Taken(Apply(w, e), request) && Tracked(Apply(w, e), thread, request)
  {
    hide Inv, OnTrack, Admissible, Retrying, CacheSound, InstanceOK, ThreadOK, Step;
    var w' := Apply(w, e);
    ApplyKeeps(w, e);
    TakenIsProvisioned(w, request);
    AdmissibleStable(request, w.ledger, w'.ledger);
    assert request.id in w'.ledger.transfers;
    if thread in w.threads && w.threads[thread].request == request {
      if e.Advance? && e.running == thread && w.threads[thread].instance in w.instances {
        ThreadIsRetrying(w, thread, request);
        RetryStep(ConfigOf(w, thread), request, w.threads[thread].point,
                  w.instances[w.threads[thread].instance].cache, w.ledger, e.choice);
      } else {
        hide WorldOK, Extends;
        OnTrackStable(request, w.threads[thread].point, w.ledger, w'.ledger);
      }
    } else {
      ReceivedIsOnTrack(request, w'.ledger);
    }
  }

  lemma ReceivedIsOnTrack(request: Request, s: State)
    ensures OnTrack(request, Received, s)
  {
  }

  lemma {:induction false} TrackRun(w: World, events: seq<Event>, thread: nat, request: Request)
    requires Taken(w, request) && Tracked(w, thread, request)
    ensures Taken(Run(w, events), request) && Tracked(Run(w, events), thread, request)
    decreases |events|
  {
    hide Taken, Tracked, Apply;
    if events != [] {
      TrackRun(w, events[..|events| - 1], thread, request);
      TrackApply(Run(w, events[..|events| - 1]), events[|events| - 1], thread, request);
    }
  }

  /** A thread that has not begun in `w`: it has not arrived, or nothing has been done for it yet. */
  predicate NotBegun(w: World, thread: nat) {
    thread !in w.threads || w.threads[thread].point.Received?
  }

  /** Conflict detection is exact, on every path and under every interleaving. When an ID is stored, a validated request
      that arrives afterwards and is not interrupted succeeds if and only if the stored transfer is the one it asks for
      (for an increment: up to the timeout); otherwise it reports a conflict. Its success repeats the stored
      timestamp. Neither the clock, the risk limit, the cache nor any other request has a say. */
  lemma StoredIDIsDecided(events: seq<Event>, later: seq<Event>, thread: nat, request: Request, r: Response)
    requires (var w := Run(INITIAL, events);
              && request.MovesMoney() && request.id in w.ledger.transfers && Admissible(w.ledger, request)
              && NotBegun(w, thread))
    requires Answered(Run(Run(INITIAL, events), later), thread, request, r) && !r.Interrupted()
    ensures (var w := Run(INITIAL, events);
             var w' := Run(w, later);
             var t := w.ledger.transfers[request.id];
             && w'.threads[thread].instance in w'.instances
             && (r.Succeeded() <==> Wanted(ConfigOf(w', thread), request, w.ledger, t))
             && (!r.Succeeded() <==> r == Refused(IdempotencyConflict))
             && (r.Succeeded() ==> r.timestamp == t.timestamp))
  {
    hide OnTrack, Admissible, Run, Wanted;
    var w := Run(INITIAL, events);
    var w' := Run(w, later);
    Reachable(events);
    ReceivedIsOnTrack(request, w.ledger);
    TrackRun(w, later, thread, request);
    RunKeeps(w, later);
    Reported(w', thread, request, r);
    DoneIsDecided(request, r, w'.ledger);
    hide WorldOK, Bound, ValidConfig;
    AdmissibleNamesAuthorization(w.ledger, request);
    WantedStable(ConfigOf(w', thread), request, w.ledger, w'.ledger, w.ledger.transfers[request.id]);
  }

  lemma DoneIsDecided(request: Request, r: Response, s: State)
    requires OnTrack(request, Done(r), s)
    ensures Decided(r)
  {
  }

  lemma AdmissibleNamesAuthorization(s: State, request: Request)
    requires Admissible(s, request)
    ensures request.IncrementAuthorization? ==> IsAuthorization(s, request.authorization)
  {
  }

  /** Such a request never changes the ledger: each of its steps leaves every row, transfer and failed ID as it was. */
  lemma StoredIDIsInert(events: seq<Event>, later: seq<Event>, thread: nat, request: Request, choice: Choice)
    requires (var w := Run(INITIAL, events);
              && request.MovesMoney() && request.id in w.ledger.transfers && Admissible(w.ledger, request)
              && NotBegun(w, thread))
    requires var w' := Run(Run(INITIAL, events), later); thread in w'.threads && w'.threads[thread].request == request
    ensures var w' := Run(Run(INITIAL, events), later); Apply(w', Advance(thread, choice)).ledger == w'.ledger
  {
    hide OnTrack, Admissible, Run, WorldOK, Retrying, CacheSound, Step;
    var w := Run(INITIAL, events);
    var w' := Run(w, later);
    Reachable(events);
    ReceivedIsOnTrack(request, w.ledger);
    TrackRun(w, later, thread, request);
    ThreadIsRetrying(w', thread, request);
    RetryStep(ConfigOf(w', thread), request, w'.threads[thread].point,
              w'.instances[w'.threads[thread].instance].cache, w'.ledger, choice);
  }

  // ----- Retries of successes -----

  /** A request that has succeeded once is validated for good. */
  lemma SuccessIsAdmissible(cfg: Config, request: Request, s: State)
    requires TransfersOK(s) && Bound(cfg, s) && WellFormedRequest(request) && request.MovesMoney()
    requires request.id in s.transfers && Wanted(cfg, request, s, s.transfers[request.id])
    ensures Admissible(s, request)
  {
    hide MetadataIn, WellFormedRequest;
    assert StoredOK(s, request.id);
  }

  /** Apart from the configured timeout of an authorization, what a request wants does not depend on the instance. */
  lemma WantedByAny(cfg: Config, cfg': Config, request: Request, s: State, t: Transfer)
    requires cfg.ledgerID == cfg'.ledgerID
    requires request.Authorize? ==> cfg.authorizationTimeout == cfg'.authorizationTimeout
    ensures Wanted(cfg, request, s, t) == Wanted(cfg', request, s, t)
  {
  }

  lemma BoundAlike(cfg: Config, cfg': Config, s: State, s': State)
    requires Extends(s, s') && Bound(cfg, s) && Bound(cfg', s')
    ensures cfg.ledgerID == cfg'.ledgerID
  {
  }

  /** Replay is stable. Once a request has succeeded, every later retry of the same payload that is not interrupted
      succeeds with the same outcome and the same ledger timestamp, on any instance, at any clock value, under any risk
      limit, and after any other activity. For an authorization the instances must share the configured timeout, and
      the reported expiry is then the same too. */
  lemma ReplayIsStable(events: seq<Event>, later: seq<Event>, first: nat, retry: nat, request: Request, r: Response, r': Response)
    requires Answered(Run(INITIAL, events), first, request, r) && r.Succeeded()
    requires NotBegun(Run(INITIAL, events), retry)
    requires Answered(Run(Run(INITIAL, events), later), retry, request, r') && !r'.Interrupted()
    requires (var w := Run(INITIAL, events);
              var w' := Run(w, later);
              request.Authorize? && w.threads[first].instance in w.instances && w'.threads[retry].instance in w'.instances
              ==> ConfigOf(w, first).authorizationTimeout == ConfigOf(w', retry).authorizationTimeout)
    ensures r'.Succeeded() && r'.timestamp == r.timestamp && r'.outcome == r.outcome && r'.expiresAt == r.expiresAt
  {
    hide Run, WorldOK, Wanted, Admissible, Bound, ValidConfig, Extends, Truthful;
    var w := Run(INITIAL, events);
    var w' := Run(w, later);
    Reachable(events);
    RunKeeps(w, later);
    SuccessIsRetriable(w, first, request, r);
    Reported(w, first, request, r);
    Reported(w', retry, request, r');
    var cfg, cfg' := ConfigOf(w, first), ConfigOf(w', retry);
    BoundAlike(cfg, cfg', w.ledger, w'.ledger);
    WantedByAny(cfg, cfg', request, w.ledger, w.ledger.transfers[request.id]);
    StoredIDIsDecided(events, later, retry, request, r');
    AlikeAnswers(cfg, cfg', request, r, r', w.ledger, w'.ledger);
  }

  lemma SuccessIsRetriable(w: World, thread: nat, request: Request, r: Response)
    requires WorldOK(w) && Answered(w, thread, request, r) && r.Succeeded()
    ensures request.MovesMoney() && request.id in w.ledger.transfers && Admissible(w.ledger, request)
    ensures r.timestamp == w.ledger.transfers[request.id].timestamp
    ensures w.threads[thread].instance in w.instances
    ensures Wanted(ConfigOf(w, thread), request, w.ledger, w.ledger.transfers[request.id])
    ensures !request.Provision?
  {
    hide Wanted, Admissible, Bound, ValidConfig, WellFormedRequest, TransfersOK, Truthful;
    Reported(w, thread, request, r);
    SuccessIsWanted(ConfigOf(w, thread), request, r, w.ledger);
    SuccessIsAdmissible(ConfigOf(w, thread), request, w.ledger);
  }

  lemma AlikeAnswers(cfg: Config, cfg': Config, request: Request, r: Response, r': Response, s: State, s': State)
    requires Truthful(cfg, request, r, s) && Truthful(cfg', request, r', s')
    requires r.Succeeded() && r'.Succeeded() && r.timestamp == r'.timestamp
    requires request.Authorize? ==> cfg.authorizationTimeout == cfg'.authorizationTimeout
    ensures r'.outcome == r.outcome && r'.expiresAt == r.expiresAt
  {
  }

  /** End to end, the expiry reported for an authorization is the one the increment path computes from the stored
      transfer. */
  lemma ReportedExpiryIsStored(events: seq<Event>, thread: nat, request: Request, r: Response)
    requires Answered(Run(INITIAL, events), thread, request, r) && r.Succeeded() && request.Authorize?
    ensures (var s := Run(INITIAL, events).ledger;
             && request.id in s.transfers
             && 0 < s.transfers[request.id].timeout < UINT32
             && r.expiresAt == Some(Expiry(s.transfers[request.id].timestamp, s.transfers[request.id].timeout)))
  {
    hide Run, WorldOK, Bound, WellFormedRequest;
    var w := Run(INITIAL, events);
    Reachable(events);
    Reported(w, thread, request, r);
    SuccessIsWanted(ConfigOf(w, thread), request, r, w.ledger);
  }

  // ----- The cache -----

  /** Where an uncached account check leads. */
  function UncachedCheck(cfg: Config, s: State, id: Id, expected: AccountKind, next: Next): Point {
    var found := LookupMetadata(cfg.ledgerID, s, id);
    if found.Some? && found.value.kind == expected then Resume(next, found.value) else WrongKind(next)
  }

  /** Where the check leads through the cache, when its lookup does not fail: a hit decides at once, a miss looks the
      account up and then stores what it found. */
  function CachedCheck(cfg: Config, cache: Ring, s: State, id: Id, expected: AccountKind, next: Next): Point {
    var probed := StepProbe(cache, id, expected, next);
    if Load(cache, id).Some? then probed
    else match StepLookupRow(cfg, s, id, expected, next)
      case KeepMetadata(_, metadata, _) => Resume(next, metadata)
      case point => point
  }

  /** Cache transparency: in every reachable world, for every instance and every cache size, an account check leads
      where a direct ledger lookup would. */
  lemma CacheIsTransparent(events: seq<Event>, instance: nat, id: Id, expected: AccountKind, next: Next)
    requires instance in Run(INITIAL, events).instances
    ensures var w := Run(INITIAL, events);
            var i := w.instances[instance];
              CachedCheck(i.cfg, i.cache, w.ledger, id, expected, next) == UncachedCheck(i.cfg, w.ledger, id, expected, next)
  {
    hide Run, Inv, LookupMetadata, Resume;
    var w := Run(INITIAL, events);
    Reachable(events);
    assert InstanceOK(w, instance);
  }

  /** Nothing cached goes stale: what a lookup finds once, it finds ever after. */
  lemma MetadataNeverChanges(events: seq<Event>, later: seq<Event>, ledger: nat, id: Id)
    requires LookupMetadata(ledger, Run(INITIAL, events).ledger, id).Some?
    ensures LookupMetadata(ledger, Run(Run(INITIAL, events), later).ledger, id)
         == LookupMetadata(ledger, Run(INITIAL, events).ledger, id)
  {
    var w := Run(INITIAL, events);
    Reachable(events);
    RunKeeps(w, later);
    hide Run, WorldOK, MetadataForAccount;
    LookupStable(ledger, w.ledger, Run(w, later).ledger, id);
  }
}
