/** The service's operations as sequential code over the shared ledger and the instance's cache, with other parties
    running before every call. */
module ServiceObject {
  import opened Wrappers
  import opened TigerBeetle
  import opened AccountModel
  import opened Recipes
  import opened Timeouts
  import opened MetadataCache
  import opened LedgerInvariant
  import opened Requests
  import opened RequestFacts
  import opened RequestSteps
  import opened SharedLedger
  import opened Progress
  import opened Decisions
  import opened Linearization
  import opened Undisturbed
  import L = Ledger

  /** What happens around one step of a request: other parties' ledger commands, other requests' cache fills, and the
      fate of the step itself. */
  datatype Turn = Turn(others: seq<Command>, fills: seq<Id>, choice: Choice)

  class Environment {
    const script: nat -> Turn
    var at: nat

    constructor (script: nat -> Turn)
      ensures this.script == script && at == 0
    {
      this.script := script;
      at := 0;
    }

    method Next() returns (turn: Turn)
      modifies this
      ensures turn == script(old(at)) && at == old(at) + 1
    {
      turn := script(at);
      at := at + 1;
    }
  }

  /** What one step of a request saw. */
  datatype Seen = Seen(cache: Ring, ledger: L.State, choice: Choice)

  /** The program point that a request reaches through what its steps saw. */
  ghost function Follow(cfg: Config, request: Request, log: seq<Seen>): Point
    decreases |log|
  {
    if log == [] then Received
    else
      var seen := log[|log| - 1];
      Step(cfg, request, Follow(cfg, request, log[..|log| - 1]), seen.cache, seen.ledger, seen.choice).point
  }

  /** Where a request began: the ledger it found and the turn it was at. */
  datatype Origin = Origin(ledger: L.State, at: nat)

  /** The ledger right after the last step of a request. */
  ghost function After(cfg: Config, request: Request, log: seq<Seen>, o: Origin): L.State {
    if log == [] then o.ledger
    else
      var seen := log[|log| - 1];
      Step(cfg, request, Follow(cfg, request, log[..|log| - 1]), seen.cache, seen.ledger, seen.choice).ledger
  }

  /** The log is what really happened: every step after validation met the fate its turn prescribed, over a true cache and
      on a ledger that others had only grown since the step before. */
  ghost predicate Woven(cfg: Config, script: nat -> Turn, request: Request, log: seq<Seen>, o: Origin)
    decreases |log|
  {
    log != [] ==>
      && Woven(cfg, script, request, log[..|log| - 1], o)
      && Extends(After(cfg, request, log[..|log| - 1], o), log[|log| - 1].ledger)
      && CacheSound(cfg, log[|log| - 1].cache, log[|log| - 1].ledger)
      && Ready(cfg, request, Follow(cfg, request, log[..|log| - 1]), log[|log| - 1].ledger)
      && (|log| > 1 ==> log[|log| - 1].choice == script(o.at + |log| - 2).choice)
  }

  /** A request in progress, over the given cache and ledger contents. */
  ghost predicate HeldIn(cfg: Config, script: nat -> Turn, request: Request, log: seq<Seen>, o: Origin,
                         cache: Ring, s: L.State)
  {
    && CacheSound(cfg, cache, s)
    && Ready(cfg, request, Follow(cfg, request, log), s)
    && Extends(o.ledger, s)
    && Woven(cfg, script, request, log, o)
    && Extends(After(cfg, request, log, o), s)
  }

  lemma LogGrows(cfg: Config, script: nat -> Turn, request: Request, log: seq<Seen>, o: Origin, seen: Seen)
    requires Woven(cfg, script, request, log, o) && Extends(After(cfg, request, log, o), seen.ledger)
    requires CacheSound(cfg, seen.cache, seen.ledger) && Ready(cfg, request, Follow(cfg, request, log), seen.ledger)
    requires log != [] ==> seen.choice == script(o.at + |log| - 1).choice
    ensures (var m := Step(cfg, request, Follow(cfg, request, log), seen.cache, seen.ledger, seen.choice);
             && Follow(cfg, request, log + [seen]) == m.point
             && After(cfg, request, log + [seen], o) == m.ledger)
    ensures Woven(cfg, script, request, log + [seen], o)
  {
    hide Extends, Step, After, Follow, Woven, CacheSound, Ready;
    assert (log + [seen])[..|log|] == log;
    FollowUnfolds(cfg, request, log + [seen], o);
    WovenUnfolds(cfg, script, request, log + [seen], o);
  }

  lemma FollowUnfolds(cfg: Config, request: Request, log: seq<Seen>, o: Origin)
    requires log != []
    ensures (var seen := log[|log| - 1];
             var m := Step(cfg, request, Follow(cfg, request, log[..|log| - 1]), seen.cache, seen.ledger, seen.choice);
             Follow(cfg, request, log) == m.point && After(cfg, request, log, o) == m.ledger)
  {
    hide Step;
  }

  lemma WovenUnfolds(cfg: Config, script: nat -> Turn, request: Request, log: seq<Seen>, o: Origin)
    requires log != []
    ensures Woven(cfg, script, request, log, o) <==>
              && Woven(cfg, script, request, log[..|log| - 1], o)
              && Extends(After(cfg, request, log[..|log| - 1], o), log[|log| - 1].ledger)
              && CacheSound(cfg, log[|log| - 1].cache, log[|log| - 1].ledger)
              && Ready(cfg, request, Follow(cfg, request, log[..|log| - 1]), log[|log| - 1].ledger)
              && (|log| > 1 ==> log[|log| - 1].choice == script(o.at + |log| - 2).choice)
  {
    hide Extends, After, CacheSound, Ready, Follow;
  }

  // ----- The log and the promised answer -----

  /** The step at position `k` of the log found the answer `r` promised for the ledger it saw, and left that ledger with
      the promised effect; the clock is what the step before it read. */
  ghost predicate PromisedAt(settings: Settings, cfg: Config, request: Request, log: seq<Seen>, o: Origin, r: Response, k: nat)
  {
    && k < |log|
    && Decides(settings, request, log[k].ledger, After(cfg, request, log[..k + 1], o), r,
               if k > 0 then log[k - 1].choice.now else 0)
  }

  lemma ClockedStable(point: Point, s: L.State, s': L.State, now: int)
    requires Clocked(point, s, now) && Extends(s, s')
    ensures Clocked(point, s', now)
  {
    hide DerivedTimeout, Remaining;
  }

  /** A step that leaves the request unsettled hands its clock reading on. */
  lemma HandsClockOn(cfg: Config, request: Request, point: Point, seen: Seen, s: L.State)
    requires Ready(cfg, request, point, seen.ledger)
    requires (var m := Step(cfg, request, point, seen.cache, seen.ledger, seen.choice);
              Settled(request, m.point).None? && Extends(m.ledger, s))
    ensures Clocked(Step(cfg, request, point, seen.cache, seen.ledger, seen.choice).point, s, seen.choice.now)
  {
    hide Step, Ready, Extends, Clocked;
    var m := Step(cfg, request, point, seen.cache, seen.ledger, seen.choice);
    DisturbancesAreReported(cfg, request, point, seen.cache, seen.ledger, seen.choice);
    StepAdvances(cfg, request, point, seen.cache, seen.ledger, seen.choice);
    CalmStepClocked(cfg, request, point, seen.cache, seen.ledger, seen.choice.now);
    StepGrowsLedger(cfg, request, point, seen.cache, seen.ledger, seen.choice);
    ExtendsTransitive(seen.ledger, m.ledger, s);
    ClockedStable(m.point, seen.ledger, s, seen.choice.now);
  }

  lemma LastIsClocked(cfg: Config, script: nat -> Turn, request: Request, log: seq<Seen>, o: Origin)
    requires log != [] && Woven(cfg, script, request, log, o)
    requires Settled(request, Follow(cfg, request, log[..|log| - 1])).None?
    ensures Clocked(Follow(cfg, request, log[..|log| - 1]), log[|log| - 1].ledger,
                    if |log| > 1 then log[|log| - 2].choice.now else 0)
  {
    hide Step, Ready, Extends, CacheSound, Clocked, Woven, Follow, After, Settled;
    var before := log[..|log| - 1];
    WovenUnfolds(cfg, script, request, log, o);
    if before == [] {
      EmptyFollows(cfg, request, log[0].ledger);
    } else {
      WovenUnfolds(cfg, script, request, before, o);
      FollowUnfolds(cfg, request, before, o);
      HandsClockOn(cfg, request, Follow(cfg, request, before[..|before| - 1]), before[|before| - 1], log[|log| - 1].ledger);
    }
  }

  lemma EmptyFollows(cfg: Config, request: Request, s: L.State)
    ensures Clocked(Follow(cfg, request, []), s, 0)
  {
  }

  /** Whatever others did in between, an answer that is not an interruption was promised for a ledger that one of the
      request's own steps saw. */
  lemma {:induction false} LogDecides(settings: Settings, cfg: Config, script: nat -> Turn, request: Request, log: seq<Seen>,
                                      o: Origin)
    requires Woven(cfg, script, request, log, o) && ConfigFor(settings, cfg)
    requires Settled(request, Follow(cfg, request, log)).Some? && !Settled(request, Follow(cfg, request, log)).value.Interrupted()
    ensures exists k :: PromisedAt(settings, cfg, request, log, o, Settled(request, Follow(cfg, request, log)).value, k)
    decreases |log|
  {
    hide Step, Ready, Extends, CacheSound, Clocked, Woven, Follow, After, ConfigFor, Decides, BalanceOf;
    if log == [] {
      NothingFollowed(cfg, request);
    } else {
      var before, seen := log[..|log| - 1], log[|log| - 1];
      var point := Follow(cfg, request, before);
      WovenUnfolds(cfg, script, request, log, o);
      FollowUnfolds(cfg, request, log, o);
      if Settled(request, point).Some? {
        SettledStep(cfg, request, point, seen.cache, seen.ledger, seen.choice);
        LogDecides(settings, cfg, script, request, before, o);
        var k: nat :| PromisedAt(settings, cfg, request, before, o, Settled(request, point).value, k);
        assert before[..k + 1] == log[..k + 1];
        assert PromisedAt(settings, cfg, request, log, o, Settled(request, Follow(cfg, request, log)).value, k);
      } else {
        LastIsClocked(cfg, script, request, log, o);
        LastDecides(settings, cfg, request, point, seen, if |log| > 1 then log[|log| - 2].choice.now else 0);
        assert log[..|log|] == log;
        assert PromisedAt(settings, cfg, request, log, o, Settled(request, Follow(cfg, request, log)).value, |log| - 1);
      }
    }
  }

  lemma NothingFollowed(cfg: Config, request: Request)
    ensures Follow(cfg, request, []) == Received
  {
  }

  lemma LastDecides(settings: Settings, cfg: Config, request: Request, point: Point, seen: Seen, now: int)
    requires ConfigFor(settings, cfg) && Ready(cfg, request, point, seen.ledger) && CacheSound(cfg, seen.cache, seen.ledger)
    requires Settled(request, point).None? && Clocked(point, seen.ledger, now)
    requires (var r := Settled(request, Step(cfg, request, point, seen.cache, seen.ledger, seen.choice).point);
              r.Some? && !r.value.Interrupted())
    ensures (var m := Step(cfg, request, point, seen.cache, seen.ledger, seen.choice);
             Decides(settings, request, seen.ledger, m.ledger, Settled(request, m.point).value, now))
  {
    hide Step, Ready, CacheSound, Clocked, ConfigFor, Decides, BalanceOf;
    DisturbancesAreReported(cfg, request, point, seen.cache, seen.ledger, seen.choice);
    if point.ReadClock? {
      ReadingChangesNothing(cfg, request, point, seen.cache, seen.ledger, seen.choice);
    } else {
      ClockIsReadOnce(cfg, request, point, seen.cache, seen.ledger, seen.choice.now, now);
      StepDecides(settings, cfg, request, point, seen.cache, seen.ledger, now);
    }
  }

  /** A request in progress takes its next step. */
  lemma Took(cfg: Config, script: nat -> Turn, request: Request, log: seq<Seen>, o: Origin, seen: Seen)
    requires HeldIn(cfg, script, request, log, o, seen.cache, seen.ledger)
    requires log != [] ==> seen.choice == script(o.at + |log| - 1).choice
    ensures (var m := Step(cfg, request, Follow(cfg, request, log), seen.cache, seen.ledger, seen.choice);
             && Follow(cfg, request, log + [seen]) == m.point
             && HeldIn(cfg, script, request, log + [seen], o, m.cache, m.ledger))
  {
    hide Ready, CacheSound, Extends, Step, Follow, After, Woven;
    var m := Step(cfg, request, Follow(cfg, request, log), seen.cache, seen.ledger, seen.choice);
    LogGrows(cfg, script, request, log, o, seen);
    StepKeepsAll(cfg, request, Follow(cfg, request, log), seen.cache, seen.ledger, seen.choice);
    ExtendsTransitive(o.ledger, seen.ledger, m.ledger);
    ExtendsReflexive(m.ledger);
  }

  /** A request in progress stays in progress while others grow the ledger. */
  lemma HeldGrows(cfg: Config, script: nat -> Turn, request: Request, log: seq<Seen>, o: Origin,
                  cache: Ring, s: L.State, s': L.State)
    requires HeldIn(cfg, script, request, log, o, cache, s) && Extends(s, s') && Inv(s')
    ensures HeldIn(cfg, script, request, log, o, cache, s')
  {
    hide Ready, CacheSound, Extends, Follow, Woven, After, Inv;
    ReadyStable(cfg, request, Follow(cfg, request, log), s, s');
    CacheSoundStable(cfg, cache, s, s');
    ExtendsTransitive(o.ledger, s, s');
    ExtendsTransitive(After(cfg, request, log, o), s, s');
  }

  lemma HeldHasInv(cfg: Config, script: nat -> Turn, request: Request, log: seq<Seen>, o: Origin, cache: Ring, s: L.State)
    requires HeldIn(cfg, script, request, log, o, cache, s)
    ensures Inv(s) && CacheSound(cfg, cache, s)
  {
    hide CacheSound, Extends, Follow, Woven, After;
  }

  lemma HeldWithCache(cfg: Config, script: nat -> Turn, request: Request, log: seq<Seen>, o: Origin,
                      cache: Ring, cache': Ring, s: L.State)
    requires HeldIn(cfg, script, request, log, o, cache, s) && CacheSound(cfg, cache', s)
    ensures HeldIn(cfg, script, request, log, o, cache', s)
  {
  }

  lemma ReadyStable(cfg: Config, request: Request, point: Point, s: L.State, s': L.State)
    requires Ready(cfg, request, point, s) && Extends(s, s') && Inv(s')
    ensures Ready(cfg, request, point, s')
  {
    hide Inv, Facts, Formed, ValidConfig, Extends;
    if Bound(cfg, s) { BoundStable(cfg, s, s'); }
    FactsStable(cfg, request, point, s, s');
  }

  class Service {
    const cfg: Config
    const ledger: Tables
    const cache: Cache
    const env: Environment

    /** A request in progress, before its next turn. */
    ghost predicate Amid(request: Request, log: seq<Seen>, o: Origin)
      reads ledger, cache, env
    {
      && cache.Valid()
      && HeldIn(cfg, env.script, request, log, o, cache.Value(), ledger.Value())
      && env.at == o.at + (if log == [] then 0 else |log| - 1)
    }

    /** A request in progress, at the turn that decides `choice`. */
    ghost predicate Turning(request: Request, log: seq<Seen>, o: Origin, choice: Choice)
      reads ledger, cache, env
    {
      && cache.Valid() && log != []
      && HeldIn(cfg, env.script, request, log, o, cache.Value(), ledger.Value())
      && env.at == o.at + |log| && choice == env.script(o.at + |log| - 1).choice
    }

    ghost function Here(): Origin
      reads ledger, env
    {
      Origin(ledger.Value(), env.at)
    }

    constructor (settings: Settings, ledger: Tables, env: Environment)
      requires Accepted(settings) && Inv(ledger.Value())
      ensures cfg == New(settings) && this.ledger == ledger && this.env == env && fresh(cache)
      ensures Amid(Provision, [], Here())
    {
      this.cfg := New(settings);
      this.ledger := ledger;
      this.env := env;
      this.cache := new Cache(settings.cacheSize);
      new;
      NewIsValid(settings);
      ExtendsReflexive(ledger.Value());
    }

    /** Others run; whatever they do, this request's knowledge survives. */
    method Yield(ghost request: Request, ghost log: seq<Seen>, ghost o: Origin) returns (choice: Choice)
      requires Amid(request, log, o) && log != []
      modifies ledger, cache, env
      ensures Turning(request, log, o, choice)
    {
      hide HeldIn;
      var turn := env.Next();
      choice := turn.choice;
      for i := 0 to |turn.others|
        invariant Turning(request, log, o, choice)
      {
        LetLedgerChange(turn.others[i], request, log, o, choice);
      }
      for i := 0 to |turn.fills|
        invariant Turning(request, log, o, choice)
      {
        LetCacheChange(turn.fills[i], request, log, o, choice);
      }
    }

    method LetLedgerChange(command: Command, ghost request: Request, ghost log: seq<Seen>, ghost o: Origin,
                           ghost choice: Choice)
      requires Turning(request, log, o, choice)
      modifies ledger
      ensures Turning(request, log, o, choice)
    {
      hide HeldIn, Inv, Extends;
      ghost var s := ledger.Value();
      HeldHasInv(cfg, env.script, request, log, o, cache.Value(), s);
      ledger.Obey(command);
      HeldGrows(cfg, env.script, request, log, o, cache.Value(), s, ledger.Value());
    }

    method LetCacheChange(id: Id, ghost request: Request, ghost log: seq<Seen>, ghost o: Origin, ghost choice: Choice)
      requires Turning(request, log, o, choice)
      modifies cache
      ensures Turning(request, log, o, choice)
    {
      hide HeldIn, CacheSound, MetadataForAccount, Store, Inv;
      if id in ledger.accounts {
        var metadata := MetadataForAccount(cfg.ledgerID, ledger.accounts[id]);
        if metadata.Some? {
          ghost var before := cache.Value();
          HeldHasInv(cfg, env.script, request, log, o, before, ledger.Value());
          StoreSound(cfg, before, id, metadata.value, ledger.Value());
          cache.Put(id, metadata.value);
          HeldWithCache(cfg, env.script, request, log, o, before, cache.Value(), ledger.Value());
        }
      }
    }

    // ----- Single calls -----

    /** A step that touches neither the ledger nor the cache. */
    ghost method Think(request: Request, log0: seq<Seen>, o: Origin, choice: Choice) returns (log: seq<Seen>)
      requires Turning(request, log0, o, choice)
      requires var m := Step(cfg, request, Follow(cfg, request, log0), cache.Value(), ledger.Value(), choice);
               m.ledger == ledger.Value() && m.cache == cache.Value()
      ensures Amid(request, log, o) && log != []
      ensures Follow(cfg, request, log)
           == Step(cfg, request, Follow(cfg, request, log0), cache.Value(), ledger.Value(), choice).point
    {
      hide HeldIn, Step, Follow;
      var seen := Seen(cache.Value(), ledger.Value(), choice);
      Took(cfg, env.script, request, log0, o, seen);
      log := log0 + [seen];
    }

    /** The ledger's create command; None when its request or its response is lost. */
    method CreateTransfer(t: Transfer, ghost request: Request, ghost log0: seq<Seen>, ghost o: Origin)
      returns (result: Option<TransferResult>, ghost log: seq<Seen>)
      requires Amid(request, log0, o) && log0 != [] && Follow(cfg, request, log0) == Submit(t)
      modifies ledger, cache, env
      ensures Amid(request, log, o) && log != []
      ensures Follow(cfg, request, log) == if result.None? then LOST else AfterSubmit(cfg, t, result.value)
    {
      hide HeldIn, Follow, L.CreateTransfer, AfterSubmit;
      var choice := Yield(request, log0, o);
      ghost var seen := Seen(cache.Value(), ledger.Value(), choice);
      Took(cfg, env.script, request, log0, o, seen);
      log := log0 + [seen];
      result := None;
      if !choice.fault.LostBefore? {
        var r := ledger.CreateTransfer(t);
        if choice.fault.Fine? {
          result := Some(r);
        }
      }
    }

    method CreateRow(row: Account, ghost request: Request, ghost log0: seq<Seen>, ghost o: Origin)
      returns (result: Option<AccountResult>, ghost log: seq<Seen>)
      requires Amid(request, log0, o) && log0 != [] && Follow(cfg, request, log0) == SubmitAccount(row)
      modifies ledger, cache, env
      ensures Amid(request, log, o) && log != []
      ensures Follow(cfg, request, log) == if result.None? then LOST else AfterSubmitAccount(request, row, result.value)
    {
      hide HeldIn, Follow, L.CreateAccount, AfterSubmitAccount;
      var choice := Yield(request, log0, o);
      ghost var seen := Seen(cache.Value(), ledger.Value(), choice);
      Took(cfg, env.script, request, log0, o, seen);
      log := log0 + [seen];
      result := None;
      if !choice.fault.LostBefore? {
        var r := ledger.CreateAccount(row);
        if choice.fault.Fine? {
          result := Some(r);
        }
      }
    }

    /** The points at which a request looks a transfer up. */
    static ghost predicate LooksUp(point: Point, id: Id) {
      match point
      case FindAuthorization(t) => t.id == id
      case ReadOriginal(order) => order.authorization == id
      case FindIncrement(order, _, _) => order.id == id
      case Recover(t) => t.id == id
      case _ => false
    }

    method LookupTransfer(id: Id, ghost request: Request, ghost log0: seq<Seen>, ghost o: Origin)
      returns (found: Result<Option<Transfer>, Error>, ghost log: seq<Seen>)
      requires Amid(request, log0, o) && log0 != [] && LooksUp(Follow(cfg, request, log0), id)
      modifies ledger, cache, env
      ensures Amid(request, log, o) && log != []
      ensures found.Err? ==> found.error == Unavailable && Follow(cfg, request, log) == LOST
      ensures found.Ok? ==>
                && log != []
                && (var seen := log[|log| - 1];
                    && seen.choice.fault.Fine?
                    && found.value == (if id in seen.ledger.transfers then Some(seen.ledger.transfers[id]) else None)
                    && Follow(cfg, request, log)
                       == Step(cfg, request, Follow(cfg, request, log0), seen.cache, seen.ledger, seen.choice).point)
    {
      hide HeldIn, Follow, Step;
      var choice := Yield(request, log0, o);
      ghost var seen := Seen(cache.Value(), ledger.Value(), choice);
      Took(cfg, env.script, request, log0, o, seen);
      LookupsAreReported(cfg, request, Follow(cfg, request, log0), seen.cache, seen.ledger, choice);
      log := log0 + [seen];
      if !choice.fault.Fine? {
        found := Err(Unavailable);
      } else {
        found := Ok(if id in ledger.transfers then Some(ledger.transfers[id]) else None);
      }
    }

    method LookupAccount(id: Id, ghost request: Request, ghost log0: seq<Seen>, ghost o: Origin)
      returns (found: Result<Option<Account>, Error>, ghost log: seq<Seen>)
      requires Amid(request, log0, o) && log0 != []
      requires var point := Follow(cfg, request, log0); (point.LookupRow? && point.id == id) || point == LookupBalance(id)
      modifies ledger, cache, env
      ensures Amid(request, log, o) && log != []
      ensures found.Err? ==> found.error == Unavailable && Follow(cfg, request, log) == LOST
      ensures found.Ok? ==>
                && log != []
                && (var seen := log[|log| - 1];
                    && seen.choice.fault.Fine?
                    && found.value == (if id in seen.ledger.accounts then Some(seen.ledger.accounts[id]) else None)
                    && Follow(cfg, request, log)
                       == Step(cfg, request, Follow(cfg, request, log0), seen.cache, seen.ledger, seen.choice).point)
    {
      hide HeldIn, Follow, Step;
      var choice := Yield(request, log0, o);
      ghost var seen := Seen(cache.Value(), ledger.Value(), choice);
      Took(cfg, env.script, request, log0, o, seen);
      LookupsAreReported(cfg, request, Follow(cfg, request, log0), seen.cache, seen.ledger, choice);
      log := log0 + [seen];
      if !choice.fault.Fine? {
        found := Err(Unavailable);
      } else {
        found := Ok(if id in ledger.accounts then Some(ledger.accounts[id]) else None);
      }
    }

    // ----- Account checks -----

    method RememberAccount(row: Account, ghost request: Request, ghost log0: seq<Seen>, ghost o: Origin)
      returns (ghost log: seq<Seen>)
      requires Amid(request, log0, o) && log0 != []
      requires var point := Follow(cfg, request, log0); (point.KeepAccount? || point.KeepBalance?) && point.row == row
      modifies ledger, cache, env
      ensures Amid(request, log, o) && log != []
      ensures var point := Follow(cfg, request, log0);
                Follow(cfg, request, log) == (if point.KeepBalance? then Done(BalanceOf(row, point.metadata))
                                              else AfterKeepAccount(cfg, request, row, point.result))
    {
      hide HeldIn, Follow, MetadataForAccount, BalanceOf, AfterKeepAccount, Store, WellFormed;
      var choice := Yield(request, log0, o);
      ghost var seen := Seen(cache.Value(), ledger.Value(), choice);
      Took(cfg, env.script, request, log0, o, seen);
      log := log0 + [seen];
      var metadata := MetadataForAccount(cfg.ledgerID, row);
      if metadata.Some? {
        cache.Put(row.id, metadata.value);
      }
    }

    method KeepInCache(id: Id, metadata: Metadata, ghost next: Next,
                       ghost request: Request, ghost log0: seq<Seen>, ghost o: Origin)
      returns (ghost log: seq<Seen>)
      requires Amid(request, log0, o) && log0 != [] && Follow(cfg, request, log0) == KeepMetadata(id, metadata, next)
      modifies ledger, cache, env
      ensures Amid(request, log, o) && log != [] && Follow(cfg, request, log) == Resume(next, metadata)
    {
      hide HeldIn, Follow, Resume, Store;
      var choice := Yield(request, log0, o);
      ghost var seen := Seen(cache.Value(), ledger.Value(), choice);
      Took(cfg, env.script, request, log0, o, seen);
      log := log0 + [seen];
      cache.Put(id, metadata);
    }

    method ProbeCache(id: Id, expected: AccountKind, ghost next: Next,
                      ghost request: Request, ghost log0: seq<Seen>, ghost o: Origin)
      returns (cached: Option<Metadata>, ghost log: seq<Seen>)
      requires Amid(request, log0, o) && log0 != [] && Follow(cfg, request, log0) == Probe(id, expected, next)
      modifies ledger, cache, env
      ensures Amid(request, log, o) && log != []
      ensures Follow(cfg, request, log) == (if cached.None? then LookupRow(id, expected, next)
                                            else if cached.value.kind == expected then Resume(next, cached.value)
                                            else WrongKind(next))
    {
      hide HeldIn, Follow, Resume, WrongKind;
      var choice := Yield(request, log0, o);
      cached := cache.Get(id);
      log := Think(request, log0, o, choice);
    }

    method RequireAccountKind(id: Id, expected: AccountKind, ghost next: Next,
                              ghost request: Request, ghost log0: seq<Seen>, ghost o: Origin)
      returns (found: Result<Metadata, Error>, ghost log: seq<Seen>)
      requires Amid(request, log0, o) && log0 != [] && Follow(cfg, request, log0) == Probe(id, expected, next)
      modifies ledger, cache, env
      ensures Amid(request, log, o) && log != []
      ensures found.Ok? ==> Follow(cfg, request, log) == Resume(next, found.value)
      ensures found.Err? ==> || (found.error == AccountNotFound && Follow(cfg, request, log) == WrongKind(next))
                             || (found.error == Unavailable && Follow(cfg, request, log) == LOST)
    {
      hide Amid, Follow, Resume, WrongKind, MetadataForAccount;
      var cached;
      cached, log := ProbeCache(id, expected, next, request, log0, o);
      if cached.Some? {
        if cached.value.kind == expected {
          return Ok(cached.value), log;
        }
        return Err(AccountNotFound), log;
      }
      var looked;
      looked, log := LookupAccount(id, request, log, o);
      if looked.Err? {
        return Err(looked.error), log;
      }
      var metadata := if looked.value.None? then None else MetadataForAccount(cfg.ledgerID, looked.value.value);
      if metadata.None? || metadata.value.kind != expected {
        return Err(AccountNotFound), log;
      }
      log := KeepInCache(id, metadata.value, next, request, log, o);
      found := Ok(metadata.value);
    }

    // ----- Operations -----

    /** Between requests: the instance is provisioned and its cache tells the truth. */
    ghost predicate Idle()
      reads ledger, cache
    {
      && cache.Valid() && CacheSound(cfg, cache.Value(), ledger.Value())
      && Inv(ledger.Value()) && ValidConfig(cfg) && Bound(cfg, ledger.Value())
    }

    /** A request has ended with `r`: it is the answer that the request's program gives when its steps meet the fates
        their turns prescribe, on ledgers that others grow in between; the ledger bears the answer out, and has only
        grown since the request began. */
    ghost predicate Ended(request: Request, log: seq<Seen>, r: Response, o: Origin)
      reads ledger, cache, env
    {
      && Idle()
      && log != [] && env.at == o.at + |log| - 1
      && Woven(cfg, env.script, request, log, o) && Extends(After(cfg, request, log, o), ledger.Value())
      && Extends(o.ledger, ledger.Value())
      && Follow(cfg, request, log) == Done(r) && Truthful(cfg, request, r, ledger.Value())
      && Promised(request, log, r, o)
    }

    /** The answer, unless it is an interruption, is the promised one on a ledger that one of the steps saw. */
    ghost predicate Promised(request: Request, log: seq<Seen>, r: Response, o: Origin) {
      !r.Interrupted() ==>
        forall settings :: ConfigFor(settings, cfg) ==> exists k :: PromisedAt(settings, cfg, request, log, o, r, k)
    }

    lemma LogIsPromised(request: Request, log: seq<Seen>, r: Response, o: Origin)
      requires Woven(cfg, env.script, request, log, o) && Follow(cfg, request, log) == Done(r)
      ensures Promised(request, log, r, o)
    {
      hide Follow, Woven, ConfigFor, PromisedAt;
      if !r.Interrupted() {
        forall settings | ConfigFor(settings, cfg)
          ensures exists k :: PromisedAt(settings, cfg, request, log, o, r, k)
        {
          LogDecides(settings, cfg, env.script, request, log, o);
        }
      }
    }

    lemma EndsHere(request: Request, log: seq<Seen>, r: Response, o: Origin)
      requires Amid(request, log, o) && log != [] && Follow(cfg, request, log) == Done(r) && !request.Provision?
      ensures Ended(request, log, r, o)
    {
      hide Inv, CacheSound, Extends, Truthful, ValidConfig, Bound, Formed, Follow, Woven, After, Promised;
      LogIsPromised(request, log, r, o);
    }

    /** Receives and validates a request. */
    ghost method Receive(request: Request) returns (log: seq<Seen>)
      requires request.Provision? ==> Amid(request, [], Here())
      requires !request.Provision? ==> Idle()
      ensures Amid(request, log, Here()) && log != [] && Follow(cfg, request, log) == Start(cfg, request)
    {
      hide Inv, CacheSound, ValidConfig, Bound, Start, Extends;
      ExtendsReflexive(ledger.Value());
      var seen := Seen(cache.Value(), ledger.Value(), Choice(Fine, false, 0));
      assert HeldIn(cfg, env.script, request, [], Here(), seen.cache, seen.ledger);
      hide HeldIn;
      Took(cfg, env.script, request, [], Here(), seen);
      log := [] + [seen];
    }

    method ExecuteTransaction(t: Transfer, ghost request: Request, ghost log0: seq<Seen>, ghost o: Origin)
      returns (r: Response, ghost log: seq<Seen>)
      requires Amid(request, log0, o) && log0 != [] && Follow(cfg, request, log0) == Submit(t) && t.flags == POSTED
      requires t.code != AUTHORIZATION && t.code != INCREMENT
      modifies ledger, cache, env
      ensures Amid(request, log, o) && log != [] && Follow(cfg, request, log) == Done(r)
    {
      hide Amid, Follow;
      var result;
      result, log := CreateTransfer(t, request, log0, o);
      if result.None? {
        return Refused(Unavailable), log;
      }
      var status := result.value.status;
      if IsIdempotencyConflict(status) {
        return Refused(IdempotencyConflict), log;
      }
      if status.TransferCreated? || status.TransferExists? {
        r := Reply(Posted, Some(status), result.value.timestamp, None, NoCode, 200);
      } else {
        var (code, http) := ErrorCode(status);
        r := Reply(Rejected, Some(status), result.value.timestamp, None, code, http);
      }
    }

    method TopUp(id: Id, account: Id, amount: Uint64) returns (r: Response, ghost log: seq<Seen>)
      requires Idle()
      modifies ledger, cache, env
      ensures Ended(Request.TopUp(id, account, amount), log, r, old(Here()))
    {
      hide Idle, Amid, Follow, Ended;
      ghost var request, o := Request.TopUp(id, account, amount), Here();
      log := Receive(request);
      if !ValidAccountID(account) || amount == 0 || !ValidID(id) {
        r := Refused(InvalidRequest);
      } else {
        var t := PostedTransfer(cfg.ledgerID, TOP_UP, id, CASH, account, amount);
        var checked;
        checked, log := RequireAccountKind(account, CorporateWallet, ThenSubmit(t), request, log, o);
        if checked.Err? {
          r := Refused(checked.error);
        } else {
          r, log := ExecuteTransaction(t, request, log, o);
        }
      }
      EndsHere(request, log, r, o);
    }

    method Withdraw(id: Id, account: Id, amount: Uint64) returns (r: Response, ghost log: seq<Seen>)
      requires Idle()
      modifies ledger, cache, env
      ensures Ended(Request.Withdraw(id, account, amount), log, r, old(Here()))
    {
      hide Idle, Amid, Follow, Ended;
      ghost var request, o := Request.Withdraw(id, account, amount), Here();
      log := Receive(request);
      if !ValidAccountID(account) || amount == 0 || !ValidID(id) {
        r := Refused(InvalidRequest);
      } else {
        var t := PostedTransfer(cfg.ledgerID, WITHDRAWAL, id, account, CASH, amount);
        var checked;
        checked, log := RequireAccountKind(account, CorporateWallet, ThenSubmit(t), request, log, o);
        if checked.Err? {
          r := Refused(checked.error);
        } else {
          r, log := ExecuteTransaction(t, request, log, o);
        }
      }
      EndsHere(request, log, r, o);
    }

    /** Allocation to a card, or the return from it. */
    method MoveCardFunds(id: Id, account: Id, card: Id, amount: Uint64, back: bool)
      returns (r: Response, ghost log: seq<Seen>)
      requires Idle()
      modifies ledger, cache, env
      ensures Ended(MoveFunds(id, account, card, amount, back), log, r, old(Here()))
    {
      hide Idle, Amid, Follow, Ended;
      ghost var request, o := MoveFunds(id, account, card, amount, back), Here();
      log := Receive(request);
      if !ValidAccountID(account) || !ValidAccountID(card) || amount == 0 || !ValidID(id) {
        r := Refused(InvalidRequest);
        EndsHere(request, log, r, o);
        return;
      }
      var debit, credit, code := account, card, ALLOCATION;
      if back {
        debit, credit, code := card, account, CARD_RETURN;
      }
      var t := PostedTransfer(cfg.ledgerID, code, id, debit, credit, amount);
      var checked;
      checked, log := RequireAccountKind(account, CorporateWallet, ThenCheckCard(card, account, t), request, log, o);
      if checked.Err? {
        r := Refused(checked.error);
      } else {
        checked, log := RequireAccountKind(card, CardWallet, ThenMove(account, t), request, log, o);
        if checked.Err? {
          r := Refused(checked.error);
        } else if checked.value.parent != account {
          r := Refused(InvalidRequest);
        } else {
          r, log := ExecuteTransaction(t, request, log, o);
        }
      }
      EndsHere(request, log, r, o);
    }

    method EvaluateRisk(amount: Uint64, ghost request: Request, ghost log0: seq<Seen>, ghost o: Origin)
      returns (approved: Result<bool, Error>, ghost log: seq<Seen>)
      requires Amid(request, log0, o) && log0 != []
      requires var point := Follow(cfg, request, log0);
               || (point.EvaluateRisk? && point.transfer.amount == amount)
               || (point.EvaluateIncrementRisk? && point.order.amount == amount)
      modifies ledger, cache, env
      ensures Amid(request, log, o) && log != []
      ensures approved.Err? ==> approved.error == Cancelled && Follow(cfg, request, log) == Done(Refused(Cancelled))
      ensures var point := Follow(cfg, request, log0);
              approved.Ok? ==>
                Follow(cfg, request, log)
                == (if point.EvaluateRisk?
                    then (if approved.value then Submit(point.transfer) else FindAuthorization(point.transfer))
                    else (if approved.value then Point.ReadClock(point.order, point.original)
                          else FindIncrement(point.order, point.original, false)))
    {
      hide HeldIn, Follow;
      var choice := Yield(request, log0, o);
      log := Think(request, log0, o, choice);
      if choice.cancelled {
        approved := Err(Cancelled);
      } else {
        approved := Ok(amount <= cfg.riskLimit);
      }
    }

    /** The answer to a submitted hold. */
    method AnswerHold(t: Transfer, result: TransferResult) returns (r: Response)
      requires t.code == AUTHORIZATION || t.code == INCREMENT
      ensures r == Answer(cfg, t, result)
    {
      if IsIdempotencyConflict(result.status) {
        return Refused(IdempotencyConflict);
      }
      if result.status.TransferCreated? || result.status.TransferExists? {
        var expiresAt := if t.code == AUTHORIZATION then Some(result.timestamp + cfg.authorizationTimeout) else None;
        return Reply(Approved, Some(result.status), result.timestamp, expiresAt, NoCode, 200);
      }
      var (code, http) := ErrorCode(result.status);
      if code == InsufficientFunds {
        return Reply(Declined, Some(result.status), result.timestamp, None, code, 200);
      }
      return Reply(Rejected, Some(result.status), result.timestamp, None, code, http);
    }

    /** Submits a checked authorization, or looks its ID up when risk declines it. */
    method SubmitAuthorization(t: Transfer, ghost request: Request, ghost log0: seq<Seen>, ghost o: Origin)
      returns (r: Response, ghost log: seq<Seen>)
      requires Amid(request, log0, o) && log0 != [] && Follow(cfg, request, log0) == Point.EvaluateRisk(t)
      requires t.code == AUTHORIZATION && t.amount < UINT64
      modifies ledger, cache, env
      ensures Amid(request, log, o) && log != [] && Follow(cfg, request, log) == Done(r)
    {
      hide Amid, Follow, Answer;
      var approved;
      approved, log := EvaluateRisk(t.amount, request, log0, o);
      if approved.Err? {
        return Refused(Cancelled), log;
      }
      if !approved.value {
        var found;
        found, log := LookupTransfer(t.id, request, log, o);
        if found.Err? {
          return Refused(found.error), log;
        }
        if found.value.None? {
          return OVER_LIMIT, log;
        }
        var existing := found.value.value;
        if !SameTransfer(existing, t) {
          return Refused(IdempotencyConflict), log;
        }
        r := Reply(Approved, Some(TransferExists), existing.timestamp,
                   Some(existing.timestamp + cfg.authorizationTimeout), NoCode, 200);
        return;
      }
      var result;
      result, log := CreateTransfer(t, request, log, o);
      if result.None? {
        return Refused(Unavailable), log;
      }
      r := AnswerHold(t, result.value);
    }

    method Authorize(id: Id, card: Id, merchant64: nat, merchant32: nat, amount: Uint64)
      returns (r: Response, ghost log: seq<Seen>)
      requires Idle()
      modifies ledger, cache, env
      ensures Ended(Request.Authorize(id, card, merchant64, merchant32, amount), log, r, old(Here()))
    {
      hide Idle, Amid, Follow, Ended, StoredTimeout;
      ghost var request, o := Request.Authorize(id, card, merchant64, merchant32, amount), Here();
      log := Receive(request);
      if !ValidAccountID(card) || amount == 0 || !ValidID(id) {
        r := Refused(InvalidRequest);
      } else {
        var t := AuthorizationTransfer(cfg.ledgerID, id, card, amount, merchant64, merchant32,
                                       StoredTimeout(cfg.authorizationTimeout));
        var checked;
        checked, log := RequireAccountKind(card, CardWallet, ThenRisk(t), request, log, o);
        if checked.Err? {
          r := Refused(checked.error);
        } else {
          r, log := SubmitAuthorization(t, request, log, o);
        }
      }
      EndsHere(request, log, r, o);
    }

    /** Finds the increment that an earlier attempt stored; the answer is None when there is none. */
    method LookupExistingIncrement(order: Order, original: Transfer, ghost expired: bool,
                                   ghost request: Request, ghost log0: seq<Seen>, ghost o: Origin)
      returns (r: Option<Response>, ghost log: seq<Seen>)
      requires Amid(request, log0, o) && log0 != [] && Follow(cfg, request, log0) == FindIncrement(order, original, expired)
      modifies ledger, cache, env
      ensures Amid(request, log, o) && log != []
      ensures Follow(cfg, request, log) == Done(if r.Some? then r.value else if expired then NOT_OPEN else OVER_LIMIT)
    {
      hide Amid, Follow;
      var found;
      found, log := LookupTransfer(order.id, request, log0, o);
      if found.Err? {
        return Some(Refused(found.error)), log;
      }
      if found.value.None? {
        return None, log;
      }
      var existing := found.value.value;
      var expected := IncrementTransfer(cfg.ledgerID, order.id, order.authorization, original, order.amount, 0);
      if !SameTransferExceptTimeout(existing, expected) {
        return Some(Refused(IdempotencyConflict)), log;
      }
      r := Some(Reply(Approved, Some(TransferExists), existing.timestamp, None, NoCode, 200));
    }

    /** Submits an increment and recovers from a drifted timeout. */
    method SubmitIncrement(t: Transfer, ghost request: Request, ghost log0: seq<Seen>, ghost o: Origin)
      returns (r: Response, ghost log: seq<Seen>)
      requires Amid(request, log0, o) && log0 != [] && Follow(cfg, request, log0) == Submit(t) && t.code == INCREMENT
      modifies ledger, cache, env
      ensures Amid(request, log, o) && log != [] && Follow(cfg, request, log) == Done(r)
    {
      hide Amid, Follow, Answer;
      var result;
      result, log := CreateTransfer(t, request, log0, o);
      if result.None? {
        return Refused(Unavailable), log;
      }
      var outcome := result.value;
      if outcome.status == TransferExistsWithDifferent(TTimeout) {
        var found;
        found, log := LookupTransfer(t.id, request, log, o);
        if found.Err? {
          return Refused(found.error), log;
        }
        if found.value.Some? && SameTransferExceptTimeout(found.value.value, t) {
          outcome := TransferResult(TransferExists, found.value.value.timestamp);
        } else {
          outcome := TransferResult(TransferExistsWithDifferent(TTimeout), 0);
        }
      }
      r := AnswerHold(t, outcome);
    }

    method ReadClock(original: Transfer, ghost order: Order, ghost request: Request, ghost log0: seq<Seen>, ghost o: Origin)
      returns (now: int, ghost log: seq<Seen>)
      requires Amid(request, log0, o) && log0 != [] && Follow(cfg, request, log0) == Point.ReadClock(order, original)
      modifies ledger, cache, env
      ensures Amid(request, log, o) && log != [] && Follow(cfg, request, log) == StepReadClock(cfg, order, original, now)
    {
      hide HeldIn, Follow, StepReadClock;
      var choice := Yield(request, log0, o);
      log := Think(request, log0, o, choice);
      now := choice.now;
    }

    method IncrementChecked(order: Order, original: Transfer, ghost request: Request, ghost log0: seq<Seen>, ghost o: Origin)
      returns (r: Response, ghost log: seq<Seen>)
      requires Amid(request, log0, o) && log0 != [] && Follow(cfg, request, log0) == EvaluateIncrementRisk(order, original)
      modifies ledger, cache, env
      ensures Amid(request, log, o) && log != [] && Follow(cfg, request, log) == Done(r)
    {
      hide Amid, Follow, Remaining, DerivedTimeout;
      var approved;
      approved, log := EvaluateRisk(order.amount, request, log0, o);
      if approved.Err? {
        return Refused(Cancelled), log;
      }
      var earlier;
      if !approved.value {
        earlier, log := LookupExistingIncrement(order, original, false, request, log, o);
        return if earlier.Some? then earlier.value else OVER_LIMIT, log;
      }
      var now;
      now, log := ReadClock(original, order, request, log, o);
      var remaining := Remaining(Expiry(original.timestamp, original.timeout), now);
      if original.timeout != 0 && remaining <= 0 {
        earlier, log := LookupExistingIncrement(order, original, true, request, log, o);
        return if earlier.Some? then earlier.value else NOT_OPEN, log;
      }
      var t := IncrementTransfer(cfg.ledgerID, order.id, order.authorization, original, order.amount,
                                 DerivedTimeout(remaining, original.timeout));
      r, log := SubmitIncrement(t, request, log, o);
    }

    method IncrementAuthorization(id: Id, authorization: Id, amount: Uint64) returns (r: Response, ghost log: seq<Seen>)
      requires Idle()
      modifies ledger, cache, env
      ensures Ended(Request.IncrementAuthorization(id, authorization, amount), log, r, old(Here()))
    {
      hide Idle, Amid, Follow, Ended, OpenAuthorization;
      ghost var request, o := Request.IncrementAuthorization(id, authorization, amount), Here();
      log := Receive(request);
      if !ValidID(authorization) || amount == 0 || !ValidID(id) || id == authorization {
        r := Refused(InvalidRequest);
        EndsHere(request, log, r, o);
        return;
      }
      r, log := IncrementNamed(Order(id, authorization, amount), request, log, o);
      EndsHere(request, log, r, o);
    }

    /** Reads and checks the named transfer before anything else. */
    method IncrementNamed(order: Order, ghost request: Request, ghost log0: seq<Seen>, ghost o: Origin)
      returns (r: Response, ghost log: seq<Seen>)
      requires Amid(request, log0, o) && log0 != [] && Follow(cfg, request, log0) == ReadOriginal(order)
      modifies ledger, cache, env
      ensures Amid(request, log, o) && log != [] && Follow(cfg, request, log) == Done(r)
    {
      hide Amid, Follow, OpenAuthorization;
      var found;
      found, log := LookupTransfer(order.authorization, request, log0, o);
      if found.Err? {
        return Refused(found.error), log;
      }
      if found.value.None? {
        return Refused(AuthorizationNotFound), log;
      }
      var original := found.value.value;
      if !OpenAuthorization(cfg, original) {
        return NOT_OPEN, log;
      }
      var checked;
      checked, log := RequireAccountKind(original.debit, CardWallet, ThenIncrementRisk(order, original), request, log, o);
      if checked.Err? {
        return if checked.error == AccountNotFound then NOT_OPEN else Refused(checked.error), log;
      }
      r, log := IncrementChecked(order, original, request, log, o);
    }

    method CreateAccount(account: Id, kind: AccountKind, parent: Option<Id>) returns (r: Response, ghost log: seq<Seen>)
      requires Idle()
      modifies ledger, cache, env
      ensures Ended(OpenAccount(account, kind, parent), log, r, old(Here()))
    {
      hide Idle, Amid, Follow, Ended;
      ghost var request, o := OpenAccount(account, kind, parent), Here();
      log := Receive(request);
      if !ValidAccountID(account) || (kind != CorporateWallet && kind != CardWallet)
         || (kind == CardWallet && (parent.None? || !ValidAccountID(parent.value) || parent.value == account))
         || (kind == CorporateWallet && parent.Some?) {
        r := Refused(InvalidRequest);
        EndsHere(request, log, r, o);
        return;
      }
      var row := AccountRecipe(kind, account, if parent.Some? then parent.value else 0, cfg.ledgerID);
      if row.Err? {
        r := Refused(InvalidRequest);
        EndsHere(request, log, r, o);
        return;
      }
      if kind == CardWallet {
        r, log := OpenCard(parent.value, row.value, request, log, o);
      } else {
        r, log := SubmitRow(row.value, request, log, o);
      }
      EndsHere(request, log, r, o);
    }

    method OpenCard(parent: Id, row: Account, ghost request: Request, ghost log0: seq<Seen>, ghost o: Origin)
      returns (r: Response, ghost log: seq<Seen>)
      requires Amid(request, log0, o) && log0 != [] && !request.Provision?
      requires Follow(cfg, request, log0) == Probe(parent, CorporateWallet, ThenOpen(row))
      modifies ledger, cache, env
      ensures Amid(request, log, o) && log != [] && Follow(cfg, request, log) == Done(r)
    {
      hide Amid, Follow;
      var checked;
      checked, log := RequireAccountKind(parent, CorporateWallet, ThenOpen(row), request, log0, o);
      if checked.Err? {
        return Refused(checked.error), log;
      }
      r, log := SubmitRow(row, request, log, o);
    }

    method SubmitRow(row: Account, ghost request: Request, ghost log0: seq<Seen>, ghost o: Origin)
      returns (r: Response, ghost log: seq<Seen>)
      requires Amid(request, log0, o) && log0 != [] && Follow(cfg, request, log0) == SubmitAccount(row) && !request.Provision?
      modifies ledger, cache, env
      ensures Amid(request, log, o) && log != [] && Follow(cfg, request, log) == Done(r)
    {
      hide Amid, Follow;
      var result;
      result, log := CreateRow(row, request, log0, o);
      if result.None? {
        return Refused(Unavailable), log;
      }
      if !result.value.status.AccountCreated? && !result.value.status.AccountExists? {
        return Refused(IdempotencyConflict), log;
      }
      log := RememberAccount(row, request, log, o);
      r := AccountReady(result.value.status.AccountCreated?, result.value.timestamp);
    }

    method Balance(account: Id) returns (r: Response, ghost log: seq<Seen>)
      requires Idle()
      modifies ledger, cache, env
      ensures Ended(ReadBalance(account), log, r, old(Here()))
    {
      hide Idle, Amid, Follow, Ended, MetadataForAccount;
      ghost var request, o := ReadBalance(account), Here();
      log := Receive(request);
      if !ValidID(account) {
        r := Refused(InvalidRequest);
        EndsHere(request, log, r, o);
        return;
      }
      var found;
      found, log := LookupAccount(account, request, log, o);
      if found.Err? {
        r := Refused(found.error);
      } else if found.value.None? {
        r := Refused(AccountNotFound);
      } else {
        var row := found.value.value;
        var metadata := MetadataForAccount(cfg.ledgerID, row);
        if metadata.None? {
          r := Refused(AccountNotFound);
        } else {
          log := RememberAccount(row, request, log, o);
          var (posted, available) := Balances(row, metadata.value.kind);
          r := Response.Balance(metadata.value, posted, available, row);
        }
      }
      EndsHere(request, log, r, o);
    }

    /** Start-up: both system accounts exist afterwards, or an error is returned. */
    method EnsureSystemAccounts() returns (r: Response, ghost log: seq<Seen>)
      requires Amid(Provision, [], Here())
      modifies ledger, cache, env
      ensures Follow(cfg, Provision, log) == Done(r) && Woven(cfg, env.script, Provision, log, old(Here()))
      ensures r.Provisioned? ==> Idle()
      ensures Promised(Provision, log, r, old(Here()))
      ensures Inv(ledger.Value()) && Extends(old(ledger.Value()), ledger.Value())
    {
      ghost var o := Here();
      hide Amid, Follow, AccountRecipe, Start, Idle, Woven, Extends, Inv, Promised;
      log := Receive(Provision);
      var kinds := [(SafeguardedCash, CASH), (CardSettlementPayable, SETTLEMENT)];
      r := Provisioned;
      for i := 0 to 2
        invariant Amid(Provision, log, o) && log != []
        invariant r == Provisioned && Follow(cfg, Provision, log) == ProvisionPoint(i)
      {
        r, log := ProvisionOne(i, kinds[i].0, kinds[i].1, log, o);
        if r != Provisioned {
          break;
        }
      }
      ProvisionEnds(log, o);
      LogIsPromised(Provision, log, r, o);
    }

    method ProvisionOne(ghost i: nat, kind: AccountKind, id: Id, ghost log0: seq<Seen>, ghost o: Origin)
      returns (r: Response, ghost log: seq<Seen>)
      requires (i == 0 && kind == SafeguardedCash && id == CASH) || (i == 1 && kind == CardSettlementPayable && id == SETTLEMENT)
      requires Amid(Provision, log0, o) && log0 != [] && Follow(cfg, Provision, log0) == ProvisionPoint(i)
      modifies ledger, cache, env
      ensures Amid(Provision, log, o) && log != []
      ensures r == Provisioned ==> Follow(cfg, Provision, log) == ProvisionPoint(i + 1)
      ensures r != Provisioned ==> Follow(cfg, Provision, log) == Done(r)
    {
      hide Amid, Follow;
      var row := AccountRecipe(kind, id, 0, cfg.ledgerID);
      if row.Err? {
        return Refused(ProvisioningFailed), log0;
      }
      var result;
      result, log := CreateRow(row.value, Provision, log0, o);
      if result.None? {
        return Refused(Unavailable), log;
      }
      if !result.value.status.AccountCreated? && !result.value.status.AccountExists? {
        return Refused(ProvisioningFailed), log;
      }
      log := RememberAccount(row.value, Provision, log, o);
      r := Provisioned;
    }

    /** Where provisioning stands after `i` of the two system accounts. */
    ghost function ProvisionPoint(i: nat): Point {
      if i == 0 then Start(cfg, Provision)
      else if i == 1 then
        var settlement := AccountRecipe(CardSettlementPayable, SETTLEMENT, 0, cfg.ledgerID);
        if settlement.Err? then Done(Refused(ProvisioningFailed)) else SubmitAccount(settlement.value)
      else Done(Provisioned)
    }

    lemma ProvisionEnds(log: seq<Seen>, o: Origin)
      requires Amid(Provision, log, o) && Follow(cfg, Provision, log).Done?
      ensures Inv(ledger.Value()) && Extends(o.ledger, ledger.Value()) && Woven(cfg, env.script, Provision, log, o)
      ensures Follow(cfg, Provision, log) == Done(Provisioned) ==> Idle()
    {
      hide Inv, CacheSound, Extends, ValidConfig, Bound, Follow, Woven, After;
    }
  }
}
