/** Tracking of ledger calls in flight: the start of the oldest one, kept up to date without rescanning when possible. */
module Health {

  /** Clock readings; zero is the zero time, which no clock reads. */
  type Time = nat

  const DEFAULT_STALL_THRESHOLD: int := 2_000_000_000

  /** What matters about the calls in flight. */
  datatype Calls = Calls(nextID: nat, active: map<nat, Time>)

  function Begun(c: Calls, started: Time): Calls {
    Calls(c.nextID + 1, c.active[c.nextID + 1 := started])
  }

  function Ended(c: Calls, id: nat): Calls {
    c.(active := c.active - {id})
  }

  predicate WellNumbered(c: Calls) {
    forall id :: id in c.active ==> 0 < id <= c.nextID && c.active[id] > 0
  }

  /** Every call in flight is younger than the threshold. */
  predicate AllYoung(c: Calls, now: Time, threshold: int) {
    forall id :: id in c.active ==> now - c.active[id] < threshold
  }

  /** `oldest` is the start of a longest-running call, and zero exactly when there is none. */
  predicate IsOldest(c: Calls, oldest: Time) {
    if c.active == map[] then oldest == 0
    else (exists id :: id in c.active && c.active[id] == oldest) && forall id :: id in c.active ==> oldest <= c.active[id]
  }

  /** The oldest start alone decides whether every call is young. */
  lemma OldestDecides(c: Calls, oldest: Time, now: Time, threshold: int)
    requires WellNumbered(c) && IsOldest(c, oldest) && threshold > 0
    ensures (oldest == 0 || now - oldest < threshold) <==> AllYoung(c, now, threshold)
    ensures oldest == 0 <==> c.active == map[]
  {
  }

  /** The boundary: with `id` a longest-running call, the tracker turns unready at the very moment that call becomes as old
      as the threshold, not only after it. */
  lemma UnreadyAtThreshold(c: Calls, id: nat, now: Time, threshold: int)
    requires id in c.active && IsOldest(c, c.active[id])
    ensures now == c.active[id] + threshold ==> !AllYoung(c, now, threshold)
    ensures now == c.active[id] + threshold - 1 ==> AllYoung(c, now, threshold)
  {
  }

  class CallTracker {
    const stallThreshold: int
    var nextID: nat
    var active: map<nat, Time>
    var oldestID: nat
    var oldestStarted: Time
    var lastSuccess: Time

    ghost function Value(): Calls
      reads this
    {
      Calls(nextID, active)
    }

    ghost predicate Valid()
      reads this
    {
      && 0 < stallThreshold
      && WellNumbered(Value())
      && OldestTracked()
    }

    /** The tracked start is exact, and the tracked ID is a call that started then. */
    ghost predicate OldestTracked()
      reads this
    {
      && IsOldest(Value(), oldestStarted)
      && (if active == map[] then oldestID == 0 else oldestID in active && active[oldestID] == oldestStarted)
    }

    constructor (threshold: int)
      ensures Valid() && Value() == Calls(0, map[]) && lastSuccess == 0
      ensures stallThreshold == if threshold <= 0 then 2_000_000_000 else threshold
    {
      stallThreshold := if threshold <= 0 then DEFAULT_STALL_THRESHOLD else threshold;
      nextID, active, oldestID, oldestStarted, lastSuccess := 0, map[], 0, 0, 0;
    }

    method Begin(started: Time) returns (id: nat)
      requires Valid() && started > 0
      modifies this
      ensures Valid() && Value() == Begun(old(Value()), started)
      ensures id == nextID == old(nextID) + 1 && id !in old(active) && active == old(active)[id := started]
      ensures lastSuccess == old(lastSuccess)
    {
      nextID := nextID + 1;
      id := nextID;
      active := active[id := started];
      if oldestStarted == 0 || started < oldestStarted {
        oldestID := id;
        oldestStarted := started;
      }
      assert oldestID in active && active[oldestID] == oldestStarted;
    }

    method Complete(id: nat, failed: bool, completed: Time)
      requires Valid()
      modifies this
      ensures Valid() && Value() == Ended(old(Value()), id)
      ensures nextID == old(nextID) && active == old(active) - {id}
      ensures lastSuccess == if failed then old(lastSuccess) else completed
    {
      active := active - {id};
      if !failed {
        lastSuccess := completed;
      }
      if id == oldestID {
        FindOldest();
      } else {
        assert oldestID in old(active) ==> oldestID in active && active[oldestID] == oldestStarted;
        assert active == map[] ==> old(active) == map[];
      }
    }

    /** Rescans the calls in an arbitrary order. */
    method FindOldest()
      requires 0 < stallThreshold && WellNumbered(Value())
      modifies this`oldestID, this`oldestStarted
      ensures Valid()
    {
      oldestID, oldestStarted := 0, 0;
      var rest := active.Keys;
      while rest != {}
        invariant rest <= active.Keys
        invariant if rest == active.Keys then oldestID == 0 && oldestStarted == 0
                  else oldestID in active && active[oldestID] == oldestStarted
        invariant forall id :: id in active && id !in rest ==> oldestStarted <= active[id]
        decreases rest
      {
        var id :| id in rest;
        if oldestStarted == 0 || active[id] < oldestStarted {
          oldestID, oldestStarted := id, active[id];
        }
        rest := rest - {id};
      }
      assert active != map[] ==> oldestID in active;
      assert active == map[] <==> active.Keys == {};
    }

    method Report(now: Time) returns (ready: bool, inFlight: nat, oldest: int)
      requires Valid()
      ensures ready <==> AllYoung(Value(), now, stallThreshold)
      ensures inFlight == |active|
      ensures active == map[] ==> oldest == 0
      ensures active != map[] ==> exists id :: id in active && now - active[id] == oldest
      ensures forall id :: id in active ==> now - active[id] <= oldest
    {
      inFlight := |active|;
      oldest := 0;
      if oldestStarted != 0 {
        oldest := now - oldestStarted;
      }
      ready := oldest < stallThreshold;
      OldestDecides(Value(), oldestStarted, now, stallThreshold);
    }
  }
}
