/** Bounded admission in front of the handlers, composed with the tracking of their ledger calls. */
module Admission {
  import opened Health

  datatype Verdict = Admitted | Stalled | Overloaded

  function Judged(ready: bool, slots: nat, limit: nat): Verdict {
    if !ready then Stalled else if slots < limit then Admitted else Overloaded
  }

  /** The slots of the admission controller: a buffered channel of capacity `limit`. The elements in it are all alike, so
      which requests hold a slot is known only to the proof. */
  class Controller {
    const limit: nat
    var slots: nat
    ghost var holders: set<nat>

    ghost predicate Valid()
      reads this
    {
      slots == |holders| <= limit
    }

    constructor (limit: nat)
      ensures Valid() && holders == {} && this.limit == limit
    {
      this.limit := limit;
      slots, holders := 0, {};
    }

    /** The check and the non-blocking send that precede the handler. */
    method Enter(ghost request: nat, ready: bool) returns (verdict: Verdict)
      requires Valid() && request !in holders
      modifies this
      ensures Valid() && holders == old(holders) + (if verdict == Admitted then {request} else {})
      ensures verdict == Stalled <==> !ready
      ensures verdict == Overloaded <==> ready && |old(holders)| == limit
    {
      if !ready {
        return Stalled;
      }
      if slots < limit {
        slots, holders := slots + 1, holders + {request};
        return Admitted;
      }
      return Overloaded;
    }

    /** The deferred receive: the request that runs it gives its own slot back, and holds none afterwards. It never blocks,
        because the channel is not empty. */
    method Leave(ghost request: nat)
      requires Valid() && request in holders
      modifies this
      ensures Valid() && holders == old(holders) - {request} && old(slots) > 0
    {
      slots, holders := slots - 1, holders - {request};
    }
  }

  // ----- Every interleaving of requests -----

  /** Where a request is: before the readiness check, between it and the slot, inside its handler with or without a
      ledger call in flight, or answered. */
  datatype Phase = Arrived | Checked(ready: bool) | Handling | Calling(call: nat) | Answered | Turned(verdict: Verdict)

  datatype Server = Server(limit: nat, threshold: int, slots: nat, calls: Calls, requests: map<nat, Phase>)

  datatype Action =
    | Come(request: nat)
    | CheckReady(request: nat, now: Time)
    | TakeSlot(request: nat)
    | BeginCall(request: nat, started: Time)
    | EndCall(request: nat)
    | Finish(request: nat)

  predicate At(v: Server, request: nat, phase: Phase) {
    request in v.requests && v.requests[request] == phase
  }

  function Move(v: Server, request: nat, phase: Phase): Server {
    v.(requests := v.requests[request := phase])
  }

  /** One action; one that is not enabled does nothing. A handler makes its ledger calls one at a time. */
  function Act(v: Server, a: Action): Server {
    match a
    case Come(request) => if request in v.requests then v else Move(v, request, Arrived)
    case CheckReady(request, now) =>
      if !At(v, request, Arrived) then v else Move(v, request, Checked(AllYoung(v.calls, now, v.threshold)))
    case TakeSlot(request) =>
      if request !in v.requests || !v.requests[request].Checked? then v
      else
        var verdict := Judged(v.requests[request].ready, v.slots, v.limit);
        if verdict == Admitted then Move(v, request, Handling).(slots := v.slots + 1) else Move(v, request, Turned(verdict))
    case BeginCall(request, started) =>
      if !At(v, request, Handling) || started == 0 then v
      else Move(v, request, Calling(v.calls.nextID + 1)).(calls := Begun(v.calls, started))
    case EndCall(request) =>
      if request !in v.requests || !v.requests[request].Calling? then v
      else Move(v, request, Handling).(calls := Ended(v.calls, v.requests[request].call))
    case Finish(request) =>
      if !At(v, request, Handling) || v.slots == 0 then v else Move(v, request, Answered).(slots := v.slots - 1)
  }

  function ActAll(v: Server, actions: seq<Action>): Server
    decreases |actions|
  {
    if actions == [] then v else Act(ActAll(v, actions[..|actions| - 1]), actions[|actions| - 1])
  }

  const NO_CALLS := Calls(0, map[])

  function Open(limit: nat, threshold: int): Server {
    Server(limit, threshold, 0, NO_CALLS, map[])
  }

  function Callers(v: Server): set<nat> {
    set r | r in v.requests && v.requests[r].Calling?
  }

  function Holders(v: Server): set<nat> {
    set r | r in v.requests && (v.requests[r].Calling? || v.requests[r].Handling?)
  }

  predicate ServerOK(v: Server) {
    && v.slots == |Holders(v)| <= v.limit
    && |v.calls.active| == |Callers(v)|
    && WellNumbered(v.calls)
    && (forall r :: r in v.requests && v.requests[r].Calling? ==> v.requests[r].call in v.calls.active)
    && (forall r, q :: r in v.requests && q in v.requests && v.requests[r].Calling? && v.requests[q].Calling? && r != q ==>
          v.requests[r].call != v.requests[q].call)
  }

  lemma BeginCallKeeps(v: Server, r: nat, started: Time)
    requires ServerOK(v) && At(v, r, Handling) && started > 0
    ensures ServerOK(Act(v, BeginCall(r, started)))
  {
    var v' := Act(v, BeginCall(r, started));
    assert Holders(v') == Holders(v) && Callers(v') == Callers(v) + {r};
    assert v.calls.nextID + 1 !in v.calls.active;
  }

  lemma EndCallKeeps(v: Server, r: nat)
    requires ServerOK(v) && r in v.requests && v.requests[r].Calling?
    ensures ServerOK(Act(v, EndCall(r)))
  {
    var v' := Act(v, EndCall(r));
    assert Holders(v') == Holders(v) && Callers(v') == Callers(v) - {r};
    assert v'.calls.active.Keys == v.calls.active.Keys - {v.requests[r].call};
  }

  lemma TakeSlotKeeps(v: Server, r: nat)
    requires ServerOK(v) && r in v.requests && v.requests[r].Checked?
    ensures ServerOK(Act(v, TakeSlot(r)))
  {
    var v' := Act(v, TakeSlot(r));
    assert Callers(v') == Callers(v);
    assert Holders(v') == if v'.requests[r].Handling? then Holders(v) + {r} else Holders(v);
  }

  lemma FinishKeeps(v: Server, r: nat)
    requires ServerOK(v) && At(v, r, Handling)
    ensures v.slots > 0 && ServerOK(Act(v, Finish(r)))
  {
    assert r in Holders(v);
    var v' := Act(v, Finish(r));
    assert Callers(v') == Callers(v) && Holders(v') == Holders(v) - {r};
  }

  lemma ActKeeps(v: Server, a: Action)
    requires ServerOK(v)
    ensures ServerOK(Act(v, a)) && Act(v, a).limit == v.limit
  {
    match a
    case BeginCall(r, started) => if At(v, r, Handling) && started > 0 { BeginCallKeeps(v, r, started); }
    case EndCall(r) => if r in v.requests && v.requests[r].Calling? { EndCallKeeps(v, r); }
    case TakeSlot(r) => if r in v.requests && v.requests[r].Checked? { TakeSlotKeeps(v, r); }
    case Finish(r) => if At(v, r, Handling) { FinishKeeps(v, r); }
    case _ => assert Holders(Act(v, a)) == Holders(v) && Callers(Act(v, a)) == Callers(v);
  }

  lemma {:induction false} ActAllKeeps(v: Server, actions: seq<Action>)
    requires ServerOK(v)
    ensures ServerOK(ActAll(v, actions)) && ActAll(v, actions).limit == v.limit
    decreases |actions|
  {
    if actions != [] {
      ActAllKeeps(v, actions[..|actions| - 1]);
      ActKeeps(ActAll(v, actions[..|actions| - 1]), actions[|actions| - 1]);
    }
  }

  lemma SubsetSize<T>(small: set<T>, large: set<T>)
    requires small <= large
    ensures |small| <= |large|
  {
    if small != {} {
      var x :| x in small;
      SubsetSize(small - {x}, large - {x});
    }
  }

  /** Admission bounds the load on the ledger: in every interleaving the slots taken are those of the requests inside
      their handlers, they never exceed the limit, and there are never more ledger calls in flight than slots taken. */
  lemma LoadIsBounded(limit: nat, threshold: int, actions: seq<Action>)
    ensures (var v := ActAll(Open(limit, threshold), actions);
             |v.calls.active| <= v.slots == |Holders(v)| <= limit)
  {
    ActAllKeeps(Open(limit, threshold), actions);
    var v := ActAll(Open(limit, threshold), actions);
    SubsetSize(Callers(v), Holders(v));
  }

  /** The gate is exact: between its readiness check and its slot, a request is turned away as stalled when the check saw
      a call at least as old as the threshold, as overloaded when every slot is held, and admitted otherwise. */
  lemma GateIsExact(v: Server, request: nat, now: Time, between: seq<Action>)
    requires ServerOK(v) && At(v, request, Arrived)
    requires forall i :: 0 <= i < |between| ==> between[i].request != request
    ensures (var young := forall id :: id in v.calls.active ==> now - v.calls.active[id] < v.threshold;
             var v' := ActAll(Act(v, CheckReady(request, now)), between);
             var after := Act(v', TakeSlot(request));
             && (At(after, request, Turned(Stalled)) <==> !young)
             && (At(after, request, Turned(Overloaded)) <==> young && |Holders(v')| == v.limit)
             && (At(after, request, Handling) <==> young && |Holders(v')| < v.limit))
  {
    var checked := Act(v, CheckReady(request, now));
    ActKeeps(v, CheckReady(request, now));
    ActAllKeeps(checked, between);
    OthersLeaveAlone(checked, between, request);
    assert AllYoung(v.calls, now, v.threshold) == (forall id :: id in v.calls.active ==> now - v.calls.active[id] < v.threshold);
  }

  lemma {:induction false} OthersLeaveAlone(v: Server, actions: seq<Action>, request: nat)
    requires request in v.requests && forall i :: 0 <= i < |actions| ==> actions[i].request != request
    ensures request in ActAll(v, actions).requests && ActAll(v, actions).requests[request] == v.requests[request]
    decreases |actions|
  {
    if actions != [] {
      OthersLeaveAlone(v, actions[..|actions| - 1], request);
    }
  }

  /** Giving a slot back never blocks: a request inside its handler finds a slot to free. */
  lemma FinishNeverBlocks(limit: nat, threshold: int, actions: seq<Action>, request: nat)
    requires At(ActAll(Open(limit, threshold), actions), request, Handling)
    ensures (var v := ActAll(Open(limit, threshold), actions);
             var v' := Act(v, Finish(request));
             At(v', request, Answered) && v'.slots == v.slots - 1)
  {
    ActAllKeeps(Open(limit, threshold), actions);
    assert request in Holders(ActAll(Open(limit, threshold), actions));
  }

  /** Every admitted request gives its slot back exactly once: when no request is inside its handler, all are free. */
  lemma SlotsAreReturned(limit: nat, threshold: int, actions: seq<Action>)
    requires var v := ActAll(Open(limit, threshold), actions);
             forall r :: r in v.requests ==> !v.requests[r].Handling? && !v.requests[r].Calling?
    ensures var v := ActAll(Open(limit, threshold), actions); v.slots == 0 && v.calls.active == map[]
  {
    var v := ActAll(Open(limit, threshold), actions);
    LoadIsBounded(limit, threshold, actions);
    assert Holders(v) == {};
  }

  // ----- What the tracker holds -----

  /** At position `k` the request's call began, and it is still in flight under this number. */
  ghost predicate BeganAt(v: Server, actions: seq<Action>, k: nat, request: nat, call: nat) {
    && k < |actions| && ActAll(v, actions[..k]).calls.nextID + 1 == call
    && call in ActAll(v, actions).calls.active
    && actions[k] == BeginCall(request, ActAll(v, actions).calls.active[call])
  }

  /** Every call in flight is tracked with the time at which the handler making it began it. */
  lemma {:induction false} CallsAreTimed(limit: nat, threshold: int, actions: seq<Action>, request: nat, call: nat)
    requires At(ActAll(Open(limit, threshold), actions), request, Calling(call))
    ensures exists k :: BeganAt(Open(limit, threshold), actions, k, request, call)
    decreases |actions|
  {
    hide ServerOK, Act;
    var v := Open(limit, threshold);
    OpenIsOK(limit, threshold);
    var n := |actions| - 1;
    var before, last := ActAll(v, actions[..n]), actions[n];
    ActAllKeeps(v, actions[..n]);
    if At(before, request, Calling(call)) {
      CallsAreTimed(limit, threshold, actions[..n], request, call);
      var k: nat :| BeganAt(v, actions[..n], k, request, call);
      assert actions[..n][..k] == actions[..k];
      OthersKeepCall(before, last, request, call);
      assert BeganAt(v, actions, k, request, call);
    } else {
      CallBegins(before, last, request, call);
      assert BeganAt(v, actions, n, request, call);
    }
  }

  lemma OpenIsOK(limit: nat, threshold: int)
    ensures ServerOK(Open(limit, threshold))
  {
  }

  lemma CallBegins(v: Server, a: Action, request: nat, call: nat)
    requires !At(v, request, Calling(call)) && At(Act(v, a), request, Calling(call))
    ensures a.BeginCall? && a.request == request && call == v.calls.nextID + 1
    ensures call in Act(v, a).calls.active && Act(v, a).calls.active[call] == a.started
  {
  }

  lemma OthersKeepCall(v: Server, a: Action, request: nat, call: nat)
    requires ServerOK(v) && At(v, request, Calling(call)) && At(Act(v, a), request, Calling(call))
    ensures call in v.calls.active && call in Act(v, a).calls.active
    ensures Act(v, a).calls.active[call] == v.calls.active[call]
  {
  }
}
