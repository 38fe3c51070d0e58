/** How long the holds of one authorization group last, over whole runs. */
module Lifetimes {
  import opened TigerBeetle
  import opened AccountModel
  import opened Ledger
  import opened Recipes
  import opened Timeouts
  import opened MetadataCache
  import opened LedgerInvariant
  import opened LedgerSteps
  import opened Requests
  import opened RequestFacts
  import opened RequestSteps
  import opened Runs
  import opened History

  function ExpiryOf(t: Transfer): int {
    Expiry(t.timestamp, t.timeout)
  }

  // ----- Clock readings that are good enough -----

  /** The reading leaves no seconds, so that the hold never ends, or enough of them to reach the original's expiry when
      counted from the next ledger timestamp. */
  predicate TimelyReading(s: State, original: Transfer, now: int) {
    now < ExpiryOf(original) ==> LastsUntil(s.clock + 1, ReadSeconds(ExpiryOf(original), now), ExpiryOf(original))
  }

  predicate TimelyEvent(w: World, e: Event) {
    e.Advance? && e.running in w.threads && w.threads[e.running].point.ReadClock? ==>
      TimelyReading(w.ledger, w.threads[e.running].point.original, e.choice.now)
  }

  ghost predicate TimelyRun(events: seq<Event>) {
    forall k :: 0 <= k < |events| ==> TimelyEvent(Before(events, k), events[k])
  }

  /** The condition is exact: a reading leads to a submission if and only if the original has not expired, and the
      submitted increment, stamped next, lasts as long as its original if and only if the reading is timely. */
  lemma TimelyIsExact(events: seq<Event>, thread: nat, choice: Choice)
    requires var w := Run(INITIAL, events);
             thread in w.threads && w.threads[thread].point.ReadClock? && w.threads[thread].instance in w.instances
    ensures (var w := Run(INITIAL, events);
             var original := w.threads[thread].point.original;
             var point := Apply(w, Advance(thread, choice)).threads[thread].point;
             && (point.Submit? <==> choice.now < ExpiryOf(original))
             && (point.Submit? ==>
                   (LastsUntil(w.ledger.clock + 1, point.transfer.timeout, ExpiryOf(original))
                    <==> TimelyReading(w.ledger, original, choice.now))))
  {
    var w := Run(INITIAL, events);
    Reachable(events);
    hide Inv, Run, Facts, Formed, CacheSound, ReadSeconds, DerivedTimeout, Remaining;
    assert ThreadOK(w, thread);
    var cfg, point := w.instances[w.threads[thread].instance].cfg, w.threads[thread].point;
    OriginalIsSound(cfg, w.threads[thread].request, point, w.ledger);
    ExpiredIsNotSubmitted(cfg, point.order, point.original, choice.now);
    if choice.now < ExpiryOf(point.original) {
      CoverageIsExact(point.original.timestamp, point.original.timeout, choice.now, w.ledger.clock + 1);
    }
  }

  lemma OriginalIsSound(cfg: Config, request: Request, point: Point, s: State)
    requires Inv(s) && Facts(cfg, request, point, s) && point.ReadClock?
    ensures OriginalIs(s, point.order, point.original)
    ensures point.original.id == point.order.authorization
    ensures point.original.timestamp <= s.clock && 0 < point.original.timeout < UINT32
  {
    hide MetadataIn, JournalOK, LimitsOK, SolventOK, BalancedOK, FamiliesOK, AccountsOK, IDsOK, IsCard, WellFormedRequest;
    assert StoredOK(s, point.order.authorization);
  }

  /** Every reading that is not ahead of the ledger's next timestamp is timely, however far behind the original it is,
      unless the conversion to 32 bits does harm. */
  lemma HarmlessIsTimely(s: State, original: Transfer, now: int)
    requires original.timestamp <= s.clock && now <= s.clock + 1
    requires ConversionIsHarmless(ExpiryOf(original), original.timeout, now)
    ensures TimelyReading(s, original, now)
  {
    if now < ExpiryOf(original) {
      HarmlessConversionCovers(original.timestamp, original.timeout, now, s.clock + 1);
    }
  }

  // ----- The reading behind a stored increment -----

  /** At position `k` the thread, which is to store `t`, reads the clock as `now` before the expiry of the original, and
      derives the timeout of `t` from that. */
  ghost predicate ReadFor(events: seq<Event>, k: nat, thread: nat, t: Transfer, original: Transfer, now: int) {
    && Steps(events, k, thread)
    && var point := Stepping(events, k, thread).point;
       && point.ReadClock? && point.original == original
       && point.order.id == t.id && point.order.authorization == t.userData128 && point.order.amount == t.amount
       && events[k].choice.now == now < ExpiryOf(original)
       && t.timeout == DerivedTimeout(Remaining(ExpiryOf(original), now), original.timeout)
       && original.timestamp <= Before(events, k).ledger.clock < t.timestamp
  }

  /** An increment is submitted only after a clock reading. */
  lemma SubmittedAfterReading(cfg: Config, request: Request, point: Point, cache: Ring, s: State, choice: Choice)
    requires Ready(cfg, request, point, s)
    ensures (var m := Step(cfg, request, point, cache, s, choice);
             m.point.Submit? && m.point.transfer.code == INCREMENT ==>
               && point.ReadClock?
               && m.point == StepReadClock(cfg, point.order, point.original, choice.now))
  {
    if point.Submit? {
      hide Inv, Step;
      SubmitStaysNot(cfg, request, point, cache, s, choice);
    } else if point.EvaluateRisk? {
      hide Inv, Recipe, WellFormedRequest;
    } else if point.Received? {
      StartDoesNotSubmit(cfg, request);
      hide Start, Inv;
    } else if point.Probe? || point.LookupRow? || point.KeepMetadata? {
      hide Inv, Step;
      ChecksSubmit(cfg, request, point, cache, s, choice);
    } else {
      hide Inv, Step;
      OtherSubmits(cfg, request, point, cache, s, choice);
    }
  }

  /** A submission does not lead to a submission. */
  lemma SubmitStaysNot(cfg: Config, request: Request, point: Point, cache: Ring, s: State, choice: Choice)
    requires point.Submit?
    ensures !Step(cfg, request, point, cache, s, choice).point.Submit?
  {
    hide CreateTransfer, Answer;
  }

  lemma StartDoesNotSubmit(cfg: Config, request: Request)
    ensures !Start(cfg, request).Submit?
  {
  }

  /** Every other way to a submission starts from a checked account, and none of those is an increment. */
  lemma ChecksSubmit(cfg: Config, request: Request, point: Point, cache: Ring, s: State, choice: Choice)
    requires Facts(cfg, request, point, s) && (point.Probe? || point.LookupRow? || point.KeepMetadata?)
    ensures (var m := Step(cfg, request, point, cache, s, choice);
             m.point.Submit? ==> m.point.transfer.code != INCREMENT)
  {
    hide WellFormedRequest, AccountOf, LookupMetadata, MetadataIn, Store, StoredTimeout;
  }

  lemma OtherSubmits(cfg: Config, request: Request, point: Point, cache: Ring, s: State, choice: Choice)
    requires !point.EvaluateRisk? && !point.Received? && !point.Submit?
    requires !point.Probe? && !point.LookupRow? && !point.KeepMetadata?
    ensures (var m := Step(cfg, request, point, cache, s, choice);
             m.point.Submit? ==> point.ReadClock? && m.point == StepReadClock(cfg, point.order, point.original, choice.now))
  {
    hide CreateAccount, LookupMetadata, Remember, Answer, StepFindAuthorization, StepFindIncrement, StepRecover, BalanceOf,
      StepReadClock, AccountRecipe, OpenAuthorization;
  }

  /** The transfer that a reading leads to. */
  lemma ReadTransfer(cfg: Config, order: Order, original: Transfer, now: int)
    requires original.timeout != 0 && StepReadClock(cfg, order, original, now).Submit?
    ensures now < ExpiryOf(original)
    ensures var t := StepReadClock(cfg, order, original, now).transfer;
              && t.id == order.id && t.userData128 == order.authorization && t.amount == order.amount
              && t.timeout == DerivedTimeout(Remaining(ExpiryOf(original), now), original.timeout)
  {
    hide DerivedTimeout;
  }

  ghost predicate StoredIncrement(events: seq<Event>, id: Id) {
    var s := Run(INITIAL, events).ledger; id in s.transfers && s.transfers[id].code == INCREMENT
  }

  /** Every stored increment was submitted by a request that had read its clock before. */
  lemma IncrementWasRead(events: seq<Event>, id: Id) returns (k: nat, n: nat, thread: nat)
    requires StoredIncrement(events, id)
    ensures (var s := Run(INITIAL, events).ledger;
             var t := s.transfers[id];
             && IsAuthorization(s, t.userData128)
             && var original := s.transfers[t.userData128];
                && k < n < |events| && events[k].Advance?
                && Submits(events, n, thread, t) && ReadFor(events, k, thread, t, original, events[k].choice.now)
                && original.timeout > 0)
  {
    hide WorldOK, Apply, Step, Extends, Run, DerivedTimeout, Remaining;
    n, thread := TransferWasSubmitted(events, id);
    k := PointWasReached(events[..n], thread);
    assert events[..n][..k] == events[..k];
    Onward(events[..n], k, thread);
    Onward(events, k, thread);
    var w, point := Before(events, k), Stepping(events, k, thread).point;
    ReadAtStep(w, thread, events[k].choice, Stepping(events, n, thread).point);
    OriginalIsKept(w.ledger, Run(INITIAL, events).ledger, point.order, point.original);
    ClockGrows(w.ledger, Before(events, n).ledger);
  }

  lemma ReadAtStep(w: World, thread: nat, choice: Choice, next: Point)
    requires WorldOK(w) && thread in w.threads && w.threads[thread].instance in w.instances
    requires next.Submit? && next.transfer.code == INCREMENT && w.threads[thread].point != next
    requires var instance := w.instances[w.threads[thread].instance];
             Step(instance.cfg, w.threads[thread].request, w.threads[thread].point, instance.cache, w.ledger, choice).point
             == next
    ensures w.threads[thread].point.ReadClock?
    ensures (var point, t := w.threads[thread].point, next.transfer;
             && OriginalIs(w.ledger, point.order, point.original) && point.original.timeout > 0
             && t.id == point.order.id && t.userData128 == point.order.authorization && t.amount == point.order.amount
             && point.original.timestamp <= w.ledger.clock && choice.now < ExpiryOf(point.original)
             && t.timeout == DerivedTimeout(Remaining(ExpiryOf(point.original), choice.now), point.original.timeout))
  {
    hide Inv, Facts, Formed, CacheSound, ValidConfig, Bound, Step, StepReadClock, OriginalIs, DerivedTimeout, Remaining;
    var request, point := w.threads[thread].request, w.threads[thread].point;
    var instance := w.instances[w.threads[thread].instance];
    assert ThreadOK(w, thread) && InstanceOK(w, w.threads[thread].instance);
    SubmittedAfterReading(instance.cfg, request, point, instance.cache, w.ledger, choice);
    OriginalIsSound(instance.cfg, request, point, w.ledger);
    ReadTransfer(instance.cfg, point.order, point.original, choice.now);
  }

  lemma OriginalIsKept(s: State, s': State, order: Order, original: Transfer)
    requires Extends(s, s') && OriginalIs(s, order, original)
    ensures OriginalIs(s', order, original)
  {
  }

  lemma ClockGrows(s: State, s': State)
    requires Extends(s, s')
    ensures s.clock <= s'.clock
  {
  }

  // ----- Releases -----

  /** Only a hold with a timeout that has passed is ever released. */
  predicate ReleasedOnTime(s: State) {
    forall id :: id in s.released ==>
      id in s.transfers && s.transfers[id].timeout != 0 && s.clock >= ExpiryOf(s.transfers[id])
  }

  lemma ApplyReleases(w: World, e: Event)
    requires ReleasedOnTime(w.ledger) && Extends(w.ledger, Apply(w, e).ledger)
    ensures ReleasedOnTime(Apply(w, e).ledger)
  {
    if e.Advance? && e.running in w.threads && w.threads[e.running].instance in w.instances {
      hide Step;
      var instance := w.instances[w.threads[e.running].instance];
      StepStores(instance.cfg, w.threads[e.running].request, w.threads[e.running].point, instance.cache, w.ledger, e.choice, 0);
    }
  }

  lemma {:induction false} RunReleases(w: World, events: seq<Event>)
    requires WorldOK(w) && ReleasedOnTime(w.ledger)
    ensures ReleasedOnTime(Run(w, events).ledger)
    decreases |events|
  {
    if events != [] {
      hide WorldOK, Apply, ReleasedOnTime;
      RunReleases(w, events[..|events| - 1]);
      RunKeeps(w, events[..|events| - 1]);
      ApplyKeeps(Run(w, events[..|events| - 1]), events[|events| - 1]);
      ApplyReleases(Run(w, events[..|events| - 1]), events[|events| - 1]);
    }
  }

  lemma ReachableReleases(events: seq<Event>)
    ensures ReleasedOnTime(Run(INITIAL, events).ledger)
  {
    Reachable([]);
    RunReleases(INITIAL, events);
  }

  /** The world continues through `later`, and the ledger has then released the hold before the moment `until`. */
  ghost predicate ReleasedBefore(w: World, later: seq<Event>, id: Id, until: int) {
    id in Run(w, later).ledger.released && Run(w, later).ledger.clock < until
  }

  /** Waiting for a hold's expiry and then letting it expire. */
  function Awaiting(s: State, id: Id): seq<Event>
    requires id in s.transfers
  {
    var expiry := ExpiryOf(s.transfers[id]);
    [Tick(if s.clock < expiry then expiry else s.clock), Expire(id)]
  }

  lemma AwaitedIsReleased(w: World, id: Id)
    requires WorldOK(w) && id in w.ledger.transfers && id !in w.ledger.released
    requires w.ledger.transfers[id].flags.pending && w.ledger.transfers[id].timeout != 0
    ensures var s := Run(w, Awaiting(w.ledger, id)).ledger;
              id in s.released && s.clock == if w.ledger.clock < ExpiryOf(w.ledger.transfers[id])
                                             then ExpiryOf(w.ledger.transfers[id]) else w.ledger.clock
  {
    hide WorldOK, Run, Inv, Apply, Due, Extends;
    var events := Awaiting(w.ledger, id);
    var waited := Apply(w, events[0]);
    RunTwo(w, events[0], events[1]);
    Waits(w, events[0].clock);
    ApplyKeeps(w, events[0]);
    WorldHasInv(waited);
    ExpiredHoldIsDue(waited.ledger, id);
    Expires(waited, id);
  }

  lemma Waits(w: World, clock: nat)
    requires w.ledger.clock <= clock
    ensures Apply(w, Tick(clock)).ledger == w.ledger.(clock := clock)
  {
  }

  lemma Expires(w: World, id: Id)
    requires Due(w.ledger, id)
    ensures var s := Apply(w, Expire(id)).ledger; id in s.released && s.clock == w.ledger.clock
  {
  }

  lemma RunTwo(w: World, first: Event, second: Event)
    ensures Run(w, [first, second]) == Apply(Apply(w, first), second)
  {
    hide Apply;
    assert [first, second][..1] == [first] && [first][..0] == [];
    assert Run(w, [first]) == Apply(w, first);
  }

  lemma WorldHasInv(w: World)
    requires WorldOK(w)
    ensures Inv(w.ledger)
  {
    hide Inv;
  }

  /** What it means operationally: a pending transfer whose end has not come by `until` is never released before then, and
      any other can be. */
  lemma ReleasableExactlyIf(events: seq<Event>, id: Id, until: int)
    requires (var s := Run(INITIAL, events).ledger;
              id in s.transfers && s.transfers[id].flags.pending && s.clock < until)
    ensures (var w := Run(INITIAL, events);
             var t := w.ledger.transfers[id];
             (exists later :: ReleasedBefore(w, later, id, until)) <==> !LastsUntil(t.timestamp, t.timeout, until))
  {
    hide Run, WorldOK, Apply, Awaiting;
    var w := Run(INITIAL, events);
    Reachable(events);
    ReachableReleases(events);
    if later :| ReleasedBefore(w, later, id, until) {
      RunReleases(w, later);
      RunKeeps(w, later);
    }
    if !LastsUntil(w.ledger.transfers[id].timestamp, w.ledger.transfers[id].timeout, until) {
      if id in w.ledger.released {
        NothingRuns(w);
        assert ReleasedBefore(w, [], id, until);
      } else {
        AwaitedIsReleased(w, id);
        assert ReleasedBefore(w, Awaiting(w.ledger, id), id, until);
      }
    }
  }

  lemma NothingRuns(w: World)
    ensures Run(w, []) == w
  {
  }

  /** And it can be released at some time if and only if it has a timeout at all. */
  lemma EndsExactlyIf(events: seq<Event>, id: Id)
    requires var s := Run(INITIAL, events).ledger; id in s.transfers && s.transfers[id].flags.pending
    ensures (var w := Run(INITIAL, events);
             (exists later, until :: ReleasedBefore(w, later, id, until)) <==> w.ledger.transfers[id].timeout != 0)
  {
    hide Run, WorldOK;
    var w := Run(INITIAL, events);
    var t := w.ledger.transfers[id];
    if later, until :| ReleasedBefore(w, later, id, until) {
      Reachable(events);
      ReachableReleases(events);
      RunReleases(w, later);
      RunKeeps(w, later);
    }
    if t.timeout != 0 {
      var until := 1 + if w.ledger.clock < ExpiryOf(t) then ExpiryOf(t) else w.ledger.clock;
      ReleasableExactlyIf(events, id, until);
    }
  }

  // ----- The theorems -----

  /** How long any stored increment of any run lasts, whatever the clocks: the request that submitted it had read its
      clock before the original's expiry, and that reading decides. If it left no seconds, no continuation of the run ever
      releases the increment. If it left some, one does; and one does before the original's expiry if and only if those
      seconds, counted from the increment's own stamp, do not reach it. */
  lemma IncrementLifetimeIsExact(events: seq<Event>, id: Id)
    requires StoredIncrement(events, id)
    ensures (var w := Run(INITIAL, events);
             var t := w.ledger.transfers[id];
             && IsAuthorization(w.ledger, t.userData128)
             && var original := w.ledger.transfers[t.userData128];
                exists k, n, thread, now ::
                  && k < n && ReadFor(events, k, thread, t, original, now) && Submits(events, n, thread, t)
                  && LifetimeIs(w, id, ReadSeconds(ExpiryOf(original), now), ExpiryOf(original)))
  {
    hide Run, ReadSeconds, DerivedTimeout, Remaining, Stepping, LifetimeIs;
    var k, n, thread := IncrementWasRead(events, id);
    var s, now := Run(INITIAL, events).ledger, events[k].choice.now;
    var t := s.transfers[id];
    var original := s.transfers[t.userData128];
    CoverageIsExact(original.timestamp, original.timeout, now, t.timestamp);
    DerivedTimeoutIsRead(ExpiryOf(original), now, original.timeout);
    LifetimeHolds(events, id, ReadSeconds(ExpiryOf(original), now), ExpiryOf(original));
    assert ReadFor(events, k, thread, t, original, now) && Submits(events, n, thread, t);
  }

  /** The hold's end, both as the stored fields say and as the ledger can act on it: `seconds` of zero are no end at all,
      and `expiry` comes first exactly when the seconds from the stamp reach it. */
  ghost predicate LifetimeIs(w: World, id: Id, seconds: nat, expiry: int)
    requires id in w.ledger.transfers
  {
    var t := w.ledger.transfers[id];
    && (LastsUntil(t.timestamp, t.timeout, expiry) <==> seconds == 0 || Expiry(t.timestamp, seconds) >= expiry)
    && ((exists later, until :: ReleasedBefore(w, later, id, until)) <==> seconds > 0)
    && (w.ledger.clock < expiry ==>
          ((exists later :: ReleasedBefore(w, later, id, expiry))
           <==> seconds > 0 && Expiry(t.timestamp, seconds) < expiry))
  }

  lemma LifetimeHolds(events: seq<Event>, id: Id, seconds: nat, expiry: int)
    requires StoredIncrement(events, id)
    requires (var t := Run(INITIAL, events).ledger.transfers[id];
              && (t.timeout == 0 <==> seconds == 0)
              && (LastsUntil(t.timestamp, t.timeout, expiry) <==> seconds == 0 || Expiry(t.timestamp, seconds) >= expiry))
    ensures LifetimeIs(Run(INITIAL, events), id, seconds, expiry)
  {
    hide Run, LastsUntil, ReleasedBefore;
    var w := Run(INITIAL, events);
    IncrementsArePending(events, id);
    EndsExactlyIf(events, id);
    if w.ledger.clock < expiry { ReleasableExactlyIf(events, id, expiry); }
  }

  lemma IncrementsArePending(events: seq<Event>, id: Id)
    requires StoredIncrement(events, id)
    ensures Run(INITIAL, events).ledger.transfers[id].flags.pending
  {
    hide Run, Inv;
    Reachable(events);
    StoredIsPending(Run(INITIAL, events).ledger, id);
  }

  lemma StoredIsPending(s: State, id: Id)
    requires Inv(s) && id in s.transfers && s.transfers[id].code == INCREMENT
    ensures s.transfers[id].flags.pending
  {
    hide AccountsOK, IDsOK, JournalOK, LimitsOK, SolventOK, BalancedOK, FamiliesOK, MetadataIn;
    assert StoredOK(s, id);
  }

  /** In every run with timely clock readings, an increment's hold lasts at least as long as the authorization it belongs
      to: it has no earlier end, the ledger has not released it while the original's life was still running, and no
      continuation of the run will. */
  lemma IncrementsOutliveTheirOriginal(events: seq<Event>, id: Id)
    requires TimelyRun(events) && StoredIncrement(events, id)
    ensures (var w := Run(INITIAL, events);
             var t := w.ledger.transfers[id];
             && IsAuthorization(w.ledger, t.userData128)
             && var original := w.ledger.transfers[t.userData128];
                && LastsUntil(t.timestamp, t.timeout, ExpiryOf(original))
                && forall later :: !ReleasedBefore(w, later, id, ExpiryOf(original)))
  {
    hide Run, ReadSeconds, DerivedTimeout, Remaining, WorldOK;
    var k, _, thread := IncrementWasRead(events, id);
    var w := Run(INITIAL, events);
    var t := w.ledger.transfers[id];
    var original := w.ledger.transfers[t.userData128];
    assert TimelyEvent(Before(events, k), events[k]);
    CoverageIsExact(original.timestamp, original.timeout, events[k].choice.now, t.timestamp);
    Reachable(events);
    ReachableReleases(events);
    forall later
      ensures !ReleasedBefore(w, later, id, ExpiryOf(original))
    {
      RunReleases(w, later);
      RunKeeps(w, later);
    }
  }
}
