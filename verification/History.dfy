/** Looking back over a run: when a request got to where it is, and when a transfer was stored. */
module History {
  import opened TigerBeetle
  import opened Ledger
  import opened LedgerInvariant
  import opened MetadataCache
  import opened Requests
  import opened Progress
  import opened Runs

  /** The world in which the event at position `k` happens. */
  ghost function Before(events: seq<Event>, k: nat): World
    requires k <= |events|
  {
    Run(INITIAL, events[..k])
  }

  /** At position `k` an existing thread takes a step. */
  ghost predicate Steps(events: seq<Event>, k: nat, thread: nat) {
    && k < |events| && events[k].Advance? && events[k].running == thread
    && thread in Before(events, k).threads && Before(events, k).threads[thread].instance in Before(events, k).instances
  }

  /** The thread as it is before that step, its configuration, and where the step leads. */
  ghost function Stepping(events: seq<Event>, k: nat, thread: nat): Thread
    requires Steps(events, k, thread)
  {
    Before(events, k).threads[thread]
  }

  ghost function SteppingOn(events: seq<Event>, k: nat, thread: nat): Instance
    requires Steps(events, k, thread)
  {
    Before(events, k).instances[Stepping(events, k, thread).instance]
  }

  ghost function Leads(events: seq<Event>, k: nat, thread: nat): Moved
    requires Steps(events, k, thread)
  {
    var i := SteppingOn(events, k, thread);
    var t := Stepping(events, k, thread);
    Step(i.cfg, t.request, t.point, i.cache, Before(events, k).ledger, events[k].choice)
  }

  /** A later world has the same thread, on the same configuration. */
  predicate SameThread(w: World, w': World, id: nat) {
    id in w.threads && w.threads[id].instance in w.instances ==>
      && id in w'.threads && w'.threads[id].instance in w'.instances
      && w'.threads[id].request == w.threads[id].request
      && w'.instances[w'.threads[id].instance].cfg == w.instances[w.threads[id].instance].cfg
  }

  lemma ApplyKeepsThread(w: World, e: Event, id: nat)
    ensures SameThread(w, Apply(w, e), id)
  {
    hide Step, Due, Release, New, Accepted;
  }

  lemma PrefixOfPrefix(events: seq<Event>, k: nat)
    requires k < |events|
    ensures Before(events[..|events| - 1], k) == Before(events, k)
  {
    assert events[..|events| - 1][..k] == events[..k];
  }

  /** From any position of a run to its end the ledger only grows and a thread keeps its request and configuration. */
  lemma {:induction false} Onward(events: seq<Event>, k: nat, thread: nat)
    requires k <= |events|
    ensures WorldOK(Before(events, k)) && WorldOK(Run(INITIAL, events))
    ensures Extends(Before(events, k).ledger, Run(INITIAL, events).ledger)
    ensures SameThread(Before(events, k), Run(INITIAL, events), thread)
    decreases |events|
  {
    hide WorldOK, Apply;
    Reachable(events[..k]);
    Reachable(events);
    if k == |events| {
      assert events[..k] == events;
      ExtendsReflexive(Run(INITIAL, events).ledger);
    } else {
      var before, last := Run(INITIAL, events[..|events| - 1]), events[|events| - 1];
      PrefixOfPrefix(events, k);
      Onward(events[..|events| - 1], k, thread);
      ApplyKeeps(before, last);
      ApplyKeepsThread(before, last, thread);
      ExtendsTransitive(Before(events, k).ledger, before.ledger, Run(INITIAL, events).ledger);
    }
  }

  // ----- Where a thread came from -----

  /** At position `k` the thread gets to `point` from another. */
  ghost predicate Reaches(events: seq<Event>, k: nat, thread: nat, point: Point) {
    && Steps(events, k, thread)
    && Stepping(events, k, thread).point != point && Leads(events, k, thread).point == point
  }

  /** A thread that has begun got to its point by one of its own steps. */
  lemma {:induction false} PointWasReached(events: seq<Event>, thread: nat) returns (k: nat)
    requires thread in Run(INITIAL, events).threads && !Run(INITIAL, events).threads[thread].point.Received?
    ensures Reaches(events, k, thread, Run(INITIAL, events).threads[thread].point)
    decreases |events|
  {
    var n := |events| - 1;
    var before, last := Run(INITIAL, events[..n]), events[n];
    var point := Run(INITIAL, events).threads[thread].point;
    hide Step, Due, Release, New, Accepted;
    assert Before(events, n) == before;
    if last.Advance? && last.running == thread && before.threads[thread].instance in before.instances
       && before.threads[thread].point != point {
      k := n;
    } else {
      assert thread in before.threads && before.threads[thread].point == point;
      k := PointWasReached(events[..n], thread);
      PrefixOfPrefix(events, k);
    }
  }

  /** The same for the point from which a step is taken. */
  lemma StepWasReached(events: seq<Event>, k: nat, thread: nat) returns (j: nat)
    requires Steps(events, k, thread) && !Stepping(events, k, thread).point.Received?
    ensures j < k && Reaches(events, j, thread, Stepping(events, k, thread).point)
  {
    hide Run, Step;
    j := PointWasReached(events[..k], thread);
    assert events[..k][..j] == events[..j];
  }

  // ----- Where a transfer came from -----

  /** At position `k` the thread submits the transfer that is then stored as `t`. */
  ghost predicate Submits(events: seq<Event>, k: nat, thread: nat, t: Transfer) {
    && Steps(events, k, thread)
    && Stepping(events, k, thread).point.Submit?
    && t.id !in Before(events, k).ledger.transfers
    && t == Stepping(events, k, thread).point.transfer.(timestamp := Before(events, k).ledger.clock + 1)
  }

  /** A step stores at most the transfer it submits, stamped just after the ledger's clock, and releases nothing. */
  lemma StepStores(cfg: Config, request: Request, point: Point, cache: Ring, s: State, choice: Choice, id: Id)
    ensures (var s' := Step(cfg, request, point, cache, s, choice).ledger;
             && s'.released == s.released
             && (id in s'.transfers ==>
                   || (id in s.transfers && s'.transfers[id] == s.transfers[id])
                   || (point.Submit? && point.transfer.id == id
                       && s'.transfers[id] == point.transfer.(timestamp := s.clock + 1))))
  {
    hide StepProbe, StepLookupRow, StepFindAuthorization, StepReadOriginal, StepReadClock, StepFindIncrement, StepRecover,
      StepLookupBalance, BalanceOf, AfterKeepAccount, AfterSubmit, AfterSubmitAccount, Start, Resume, Store, Remember,
      Judge, CompareAccounts, CompareTransfers;
  }

  /** What an event adds to the ledger, a request's submission adds. */
  lemma ApplyStores(w: World, e: Event, id: Id)
    requires id in Apply(w, e).ledger.transfers && id !in w.ledger.transfers
    ensures e.Advance? && e.running in w.threads && w.threads[e.running].instance in w.instances
    ensures var point := w.threads[e.running].point;
              && point.Submit? && point.transfer.id == id
              && Apply(w, e).ledger.transfers[id] == point.transfer.(timestamp := w.ledger.clock + 1)
  {
    hide Step, Due, New, Accepted;
    if e.Advance? && e.running in w.threads && w.threads[e.running].instance in w.instances {
      var instance := w.instances[w.threads[e.running].instance];
      StepStores(instance.cfg, w.threads[e.running].request, w.threads[e.running].point, instance.cache, w.ledger, e.choice, id);
    }
  }

  /** Nothing enters the ledger but by a request's own submission. */
  lemma {:induction false} TransferWasSubmitted(events: seq<Event>, id: Id) returns (k: nat, thread: nat)
    requires id in Run(INITIAL, events).ledger.transfers
    ensures Submits(events, k, thread, Run(INITIAL, events).ledger.transfers[id])
    decreases |events|
  {
    hide WorldOK, Apply;
    var n := |events| - 1;
    var before, last := Run(INITIAL, events[..n]), events[n];
    assert Before(events, n) == before;
    if id in before.ledger.transfers {
      Reachable(events[..n]);
      ApplyKeeps(before, last);
      k, thread := TransferWasSubmitted(events[..n], id);
      PrefixOfPrefix(events, k);
    } else {
      ApplyStores(before, last, id);
      k, thread := n, last.running;
    }
  }

  // ----- Where an instance came from -----

  /** At position `k` the instance boots. */
  ghost predicate Boots(events: seq<Event>, k: nat, i: nat, settings: Settings) {
    k < |events| && events[k] == Boot(i, settings) && Accepted(settings) && i !in Before(events, k).instances
  }

  lemma ApplyKeepsInstance(w: World, e: Event, i: nat)
    requires i in w.instances
    ensures i in Apply(w, e).instances
    ensures var i', i0 := Apply(w, e).instances[i], w.instances[i]; i'.cfg == i0.cfg && i'.cache.limit == i0.cache.limit
  {
    if e.Advance? && e.running in w.threads && w.threads[e.running].instance == i {
      var thread := w.threads[e.running];
      StepKeepsLimit(w.instances[i].cfg, thread.request, thread.point, w.instances[i].cache, w.ledger, e.choice);
    }
    hide Step, Due, New, Accepted;
  }

  lemma StepKeepsLimit(cfg: Config, request: Request, point: Point, cache: Ring, s: State, choice: Choice)
    ensures Step(cfg, request, point, cache, s, choice).cache.limit == cache.limit
  {
    hide StepProbe, StepLookupRow, StepFindAuthorization, StepReadOriginal, StepReadClock, StepFindIncrement, StepRecover,
      StepLookupBalance, BalanceOf, AfterKeepAccount, AfterSubmit, AfterSubmitAccount, Start, Resume, CreateTransfer,
      CreateAccount, WellFormed;
  }

  lemma ApplyBoots(w: World, e: Event, i: nat)
    requires i !in w.instances && i in Apply(w, e).instances
    ensures e.Boot? && e.instance == i && Accepted(e.settings)
    ensures Apply(w, e).instances[i].cfg == New(e.settings) && Apply(w, e).instances[i].cache.limit == e.settings.cacheSize
  {
    hide Step, Due, New;
  }

  /** Every instance runs on the settings it was booted with. */
  lemma {:induction false} InstanceWasBooted(events: seq<Event>, i: nat) returns (k: nat, settings: Settings)
    requires i in Run(INITIAL, events).instances
    ensures Boots(events, k, i, settings)
    ensures (var instance := Run(INITIAL, events).instances[i];
             instance.cfg == New(settings) && instance.cache.limit == settings.cacheSize)
    decreases |events|
  {
    hide Apply, New, Accepted;
    var n := |events| - 1;
    var before, last := Run(INITIAL, events[..n]), events[n];
    assert Before(events, n) == before;
    if i in before.instances {
      ApplyKeepsInstance(before, last, i);
      k, settings := InstanceWasBooted(events[..n], i);
      PrefixOfPrefix(events, k);
    } else {
      ApplyBoots(before, last, i);
      k, settings := n, last.settings;
    }
  }

  // ----- The order of a thread's steps -----

  lemma StepsOn(events: seq<Event>, k: nat, thread: nat)
    requires Steps(events, k, thread)
    ensures (var w := Before(events, k + 1);
             && thread in w.threads && w.threads[thread].instance in w.instances
             && w.threads[thread].request == Stepping(events, k, thread).request
             && w.threads[thread].point == Leads(events, k, thread).point && w.ledger == Leads(events, k, thread).ledger)
  {
    assert events[..k + 1][..k] == events[..k];
    hide Step;
  }

  /** After a step a thread is never further from its end than where that step led. */
  lemma {:induction false} Descends(events: seq<Event>, j: nat, k: nat, thread: nat)
    requires Steps(events, j, thread) && j < k <= |events|
    ensures (var w := Before(events, k);
             && thread in w.threads && w.threads[thread].instance in w.instances
             && w.threads[thread].request == Stepping(events, j, thread).request
             && StepsLeft(w.threads[thread].point) <= StepsLeft(Leads(events, j, thread).point))
    decreases k
  {
    hide Step, StepsLeft, Apply;
    if k == j + 1 {
      StepsOn(events, j, thread);
    } else {
      Descends(events, j, k - 1, thread);
      assert events[..k][..k - 1] == events[..k - 1];
      ApplyAdvances(Before(events, k - 1), events[k - 1], thread);
      DoneIsEnd(Before(events, k - 1).threads[thread].point, Before(events, k).threads[thread].point);
    }
  }

  lemma DoneIsEnd(point: Point, point': Point)
    ensures point.Done? && point'.Done? ==> StepsLeft(point') <= StepsLeft(point)
  {
  }

  /** So no step is taken twice from points equally far from the end. */
  lemma StepsDescend(events: seq<Event>, j: nat, k: nat, thread: nat)
    requires Steps(events, j, thread) && Steps(events, k, thread) && j < k && !Stepping(events, j, thread).point.Done?
    ensures StepsLeft(Stepping(events, k, thread).point) < StepsLeft(Stepping(events, j, thread).point)
    ensures Stepping(events, k, thread).request == Stepping(events, j, thread).request
  {
    hide Step, StepsLeft, Run;
    Descends(events, j, k, thread);
    var i, t := SteppingOn(events, j, thread), Stepping(events, j, thread);
    StepAdvances(i.cfg, t.request, t.point, i.cache, Before(events, j).ledger, events[j].choice);
  }
}
