/** Any number of instances and in-flight requests over one ledger, interleaved step by step. */
module Runs {
  import opened TigerBeetle
  import opened Ledger
  import opened Recipes
  import opened MetadataCache
  import opened LedgerInvariant
  import opened LedgerSteps
  import opened Requests
  import opened RequestFacts
  import opened RequestSteps

  /** `serving` is set once both system accounts have been provisioned. */
  datatype Instance = Instance(cfg: Config, cache: Ring, serving: bool)
  datatype Thread = Thread(instance: nat, request: Request, point: Point)
  datatype World = World(ledger: State, instances: map<nat, Instance>, threads: map<nat, Thread>)

  /** The ledger starts empty and only service instances write to it. */
  const INITIAL := World(EMPTY, map[], map[])

  datatype Event =
    | Boot(instance: nat, settings: Settings)
    | Arrive(thread: nat, onInstance: nat, request: Request)
    | Advance(running: nat, choice: Choice)
    | Expire(hold: Id)
    | Tick(clock: nat)

  function AdvanceThread(w: World, id: nat, choice: Choice): World
    requires id in w.threads && w.threads[id].instance in w.instances
  {
    var thread := w.threads[id];
    var instance := w.instances[thread.instance];
    var m := Step(instance.cfg, thread.request, thread.point, instance.cache, w.ledger, choice);
    World(m.ledger,
          w.instances[thread.instance :=
            Instance(instance.cfg, m.cache, instance.serving || m.point == Done(Provisioned))],
          w.threads[id := thread.(point := m.point)])
  }

  /** What one event does; an event that is not enabled does nothing. */
  function Apply(w: World, e: Event): World {
    match e
    case Boot(i, settings) =>
      if i in w.instances || !Accepted(settings) then w
      else w.(instances := w.instances[i := Instance(New(settings), Empty(settings.cacheSize), false)])
    case Arrive(id, i, request) =>
      if id in w.threads || i !in w.instances || !(request.Provision? || w.instances[i].serving) then w
      else w.(threads := w.threads[id := Thread(i, request, Received)])
    case Advance(id, choice) =>
      if id in w.threads && w.threads[id].instance in w.instances then AdvanceThread(w, id, choice) else w
    case Expire(hold) => if Due(w.ledger, hold) then w.(ledger := Release(w.ledger, hold)) else w
    case Tick(clock) => if w.ledger.clock <= clock then w.(ledger := w.ledger.(clock := clock)) else w
  }

  /** The world after a sequence of events, in order. */
  function Run(w: World, events: seq<Event>): World
    decreases |events|
  {
    if events == [] then w else Apply(Run(w, events[..|events| - 1]), events[|events| - 1])
  }

  // ----- The invariant of every reachable world -----

  predicate InstanceOK(w: World, i: nat)
    requires i in w.instances
  {
    var instance := w.instances[i];
    && ValidConfig(instance.cfg) && CacheSound(instance.cfg, instance.cache, w.ledger)
    && (instance.serving ==> Bound(instance.cfg, w.ledger))
  }

  predicate ThreadOK(w: World, id: nat)
    requires id in w.threads
  {
    var thread := w.threads[id];
    && thread.instance in w.instances
    && (thread.request.Provision? || w.instances[thread.instance].serving)
    && Formed(thread.request, thread.point)
    && Facts(w.instances[thread.instance].cfg, thread.request, thread.point, w.ledger)
  }

  ghost predicate WorldOK(w: World) {
    && Inv(w.ledger)
    && (forall i {:trigger InstanceOK(w, i)} :: i in w.instances ==> InstanceOK(w, i))
    && (forall id {:trigger ThreadOK(w, id)} :: id in w.threads ==> ThreadOK(w, id))
  }

  /** Replacing the ledger by a grown one keeps every instance and every thread. */
  lemma GrowthKeeps(w: World, ledger: State)
    requires WorldOK(w) && Inv(ledger) && Extends(w.ledger, ledger)
    ensures WorldOK(w.(ledger := ledger))
  {
    hide Inv, Facts, Formed, CacheSound, Extends, ValidConfig, Bound;
    var w' := w.(ledger := ledger);
    forall i | i in w'.instances
      ensures InstanceOK(w', i)
    {
      assert InstanceOK(w, i);
      InstanceGrows(w, w', i);
    }
    forall id | id in w'.threads
      ensures ThreadOK(w', id)
    {
      assert ThreadOK(w, id);
      ThreadGrows(w, w', id);
    }
  }

  lemma InstanceGrows(w: World, w': World, i: nat)
    requires Extends(w.ledger, w'.ledger) && i in w.instances && InstanceOK(w, i)
    requires i in w'.instances && w'.instances[i] == w.instances[i]
    ensures InstanceOK(w', i)
  {
  }

  lemma ThreadGrows(w: World, w': World, id: nat)
    requires Extends(w.ledger, w'.ledger) && id in w.threads && ThreadOK(w, id)
    requires id in w'.threads && w'.threads[id] == w.threads[id]
    requires forall i :: i in w.instances ==> InstanceOK(w, i)
    requires var i := w.threads[id].instance;
             i in w'.instances && w'.instances[i].cfg == w.instances[i].cfg
             && (w.instances[i].serving ==> w'.instances[i].serving)
    ensures ThreadOK(w', id)
  {
    hide Facts, Formed, Extends;
    var thread := w.threads[id];
    assert InstanceOK(w, thread.instance);
    FactsStable(w.instances[thread.instance].cfg, thread.request, thread.point, w.ledger, w'.ledger);
  }

  lemma AdvanceKeeps(w: World, id: nat, choice: Choice)
    requires WorldOK(w) && id in w.threads && w.threads[id].instance in w.instances
    ensures var w' := AdvanceThread(w, id, choice); WorldOK(w') && Extends(w.ledger, w'.ledger)
  {
    hide Inv, Facts, Formed, CacheSound, Extends, ValidConfig, Bound, Step, Truthful;
    var w' := AdvanceThread(w, id, choice);
    var thread := w.threads[id];
    var cfg := w.instances[thread.instance].cfg;
    assert ThreadOK(w, id) && InstanceOK(w, thread.instance);
    StepKeepsAll(cfg, thread.request, thread.point, w.instances[thread.instance].cache, w.ledger, choice);
    if w'.threads[id].point == Done(Provisioned) {
      ProvisionedIsBound(cfg, thread.request, w'.ledger);
    }
    forall i | i in w'.instances
      ensures InstanceOK(w', i)
    {
      assert InstanceOK(w, i);
      if i != thread.instance {
        InstanceGrows(w, w', i);
      } else if w.instances[i].serving {
        BoundStable(cfg, w.ledger, w'.ledger);
      }
    }
    forall other | other in w'.threads
      ensures ThreadOK(w', other)
    {
      assert ThreadOK(w, other);
      if other != id {
        ThreadGrows(w, w', other);
      }
    }
  }

  lemma ProvisionedIsBound(cfg: Config, request: Request, s: State)
    requires Facts(cfg, request, Done(Provisioned), s)
    ensures Bound(cfg, s)
  {
  }

  lemma ApplyKeeps(w: World, e: Event)
    requires WorldOK(w)
    ensures WorldOK(Apply(w, e)) && Extends(w.ledger, Apply(w, e).ledger)
  {
    assert Extends(w.ledger, w.ledger);
    match e
    case Boot(i, settings) => BootKeeps(w, i, settings);
    case Arrive(id, i, request) => ArriveKeeps(w, id, i, request);
    case Advance(id, choice) =>
      hide WorldOK, Extends, AdvanceThread;
      if id in w.threads && w.threads[id].instance in w.instances { AdvanceKeeps(w, id, choice); }
    case Expire(hold) =>
      hide Inv, InstanceOK, ThreadOK, Extends;
      if Due(w.ledger, hold) {
        ReleaseInv(w.ledger, hold);
        GrowthKeeps(w, Release(w.ledger, hold));
      }
    case Tick(clock) =>
      if w.ledger.clock <= clock {
        SameRowsInv(w.ledger, w.ledger.(clock := clock));
        hide Inv, InstanceOK, ThreadOK, Extends;
        GrowthKeeps(w, w.ledger.(clock := clock));
      }
  }

  lemma BootKeeps(w: World, i: nat, settings: Settings)
    requires WorldOK(w)
    ensures var w' := Apply(w, Boot(i, settings)); WorldOK(w') && w'.ledger == w.ledger
  {
    hide Inv, Facts, CacheSound, ValidConfig, Bound;
    var w' := Apply(w, Boot(i, settings));
    if w' != w {
      NewIsValid(settings);
      EmptyIsSound(New(settings), settings.cacheSize, w.ledger);
      forall j | j in w'.instances
        ensures InstanceOK(w', j)
      {
        if j != i { assert InstanceOK(w, j); }
      }
      forall id | id in w'.threads
        ensures ThreadOK(w', id)
      {
        assert ThreadOK(w, id);
      }
    }
  }

  lemma EmptyIsSound(cfg: Config, size: int, s: State)
    ensures CacheSound(cfg, Empty(size), s)
  {
  }

  lemma ArriveKeeps(w: World, id: nat, i: nat, request: Request)
    requires WorldOK(w)
    ensures var w' := Apply(w, Arrive(id, i, request)); WorldOK(w') && w'.ledger == w.ledger
  {
    hide Inv, CacheSound, ValidConfig, Bound, NextFacts, Truthful, Recipe, LegalAccount;
    var w' := Apply(w, Arrive(id, i, request));
    if w' != w {
      forall j | j in w'.instances
        ensures InstanceOK(w', j)
      {
        assert InstanceOK(w, j);
      }
      forall other | other in w'.threads
        ensures ThreadOK(w', other)
      {
        if other != id { assert ThreadOK(w, other); }
      }
    }
  }

  /** Every run from a good world leads to a good world whose ledger has only grown. */
  lemma {:induction false} RunKeeps(w: World, events: seq<Event>)
    requires WorldOK(w)
    ensures WorldOK(Run(w, events)) && Extends(w.ledger, Run(w, events).ledger)
    decreases |events|
  {
    if events == [] {
      assert Extends(w.ledger, w.ledger);
    } else {
      hide WorldOK, Apply;
      var before := Run(w, events[..|events| - 1]);
      RunKeeps(w, events[..|events| - 1]);
      ApplyKeeps(before, events[|events| - 1]);
      ExtendsTransitive(w.ledger, before.ledger, Run(w, events).ledger);
    }
  }

  lemma Reachable(events: seq<Event>)
    ensures WorldOK(Run(INITIAL, events))
  {
    EmptyLedger();
    RunKeeps(INITIAL, events);
  }
}
