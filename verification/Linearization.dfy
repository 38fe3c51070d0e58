/** Every answer of every run, under any interleaving, is the promised one at one moment between arrival and answer. */
module Linearization {
  import opened Wrappers
  import opened TigerBeetle
  import opened AccountModel
  import opened Ledger
  import opened Recipes
  import opened Sums
  import opened Timeouts
  import opened MetadataCache
  import opened LedgerInvariant
  import opened Requests
  import opened RequestFacts
  import opened RequestSteps
  import opened Runs
  import opened OutcomeTheorems
  import opened MoneyTheorems
  import opened History
  import opened Lifetimes
  import opened Promises
  import opened Decisions

  // ----- Settled answers stay -----

  lemma SettledStep(cfg: Config, request: Request, point: Point, cache: Ring, s: State, choice: Choice)
    requires Settled(request, point).Some?
    ensures (var m := Step(cfg, request, point, cache, s, choice);
             m.ledger == s && m.point.Done? && Settled(request, m.point) == Settled(request, point))
  {
    hide Remember, Balances;
  }

  /** The answer that a thread is bound to give, if any. */
  function Bond(w: World, thread: nat): Option<Response>
    requires thread in w.threads
  {
    Settled(w.threads[thread].request, w.threads[thread].point)
  }

  lemma ApplySettled(w: World, e: Event, thread: nat)
    requires thread in w.threads && w.threads[thread].instance in w.instances && Bond(w, thread).Some?
    ensures (var w' := Apply(w, e);
             thread in w'.threads && w'.threads[thread].instance in w'.instances && Bond(w', thread) == Bond(w, thread))
  {
    hide Step, Settled, New, Accepted, Due, Release;
    if e.Advance? && e.running == thread {
      var instance := w.instances[w.threads[thread].instance];
      SettledStep(instance.cfg, w.threads[thread].request, w.threads[thread].point, instance.cache, w.ledger, e.choice);
    }
  }

  /** From the step that settles it on, a thread's answer stays. */
  lemma {:induction false} SettledStays(events: seq<Event>, j: nat, k: nat, thread: nat)
    requires Steps(events, j, thread) && j < k <= |events|
    requires Settled(Stepping(events, j, thread).request, Leads(events, j, thread).point).Some?
    ensures (var w := Before(events, k);
             && thread in w.threads && w.threads[thread].instance in w.instances
             && Bond(w, thread) == Settled(Stepping(events, j, thread).request, Leads(events, j, thread).point))
    decreases k
  {
    hide Step, Apply, Settled;
    if k == j + 1 {
      StepsOn(events, j, thread);
    } else {
      SettledStays(events, j, k - 1, thread);
      assert events[..k][..k - 1] == events[..k - 1];
      ApplySettled(Before(events, k - 1), events[k - 1], thread);
    }
  }

  /** At position `k` a thread settles on the answer `r`. */
  ghost predicate SettlesOn(events: seq<Event>, k: nat, thread: nat, r: Response) {
    && Steps(events, k, thread) && Settled(Stepping(events, k, thread).request, Stepping(events, k, thread).point).None?
    && Settled(Stepping(events, k, thread).request, Leads(events, k, thread).point) == Some(r)
  }

  lemma AnswerWasSettled(events: seq<Event>, thread: nat, request: Request, r: Response) returns (k: nat)
    requires Answered(Run(INITIAL, events), thread, request, r)
    ensures SettlesOn(events, k, thread, r) && Stepping(events, k, thread).request == request
  {
    hide Run, Step, BalanceOf;
    k := PointWasReached(events, thread);
    var instance, from := SteppingOn(events, k, thread), Stepping(events, k, thread);
    SameRequest(events, k, thread);
    if Settled(request, from.point).Some? {
      SettledStep(instance.cfg, request, from.point, instance.cache, Before(events, k).ledger, events[k].choice);
      k := StepWasReached(events, k, thread);
      SameRequest(events, k, thread);
      var instance', from' := SteppingOn(events, k, thread), Stepping(events, k, thread);
      if Settled(request, from'.point).Some? {
        SettledStep(instance'.cfg, request, from'.point, instance'.cache, Before(events, k).ledger, events[k].choice);
      }
    }
  }

  lemma SameRequest(events: seq<Event>, k: nat, thread: nat)
    requires Steps(events, k, thread)
    ensures thread in Run(INITIAL, events).threads
    ensures Run(INITIAL, events).threads[thread].request == Stepping(events, k, thread).request
  {
    hide Run, WorldOK, Extends;
    Onward(events, k, thread);
  }

  // ----- The clock reading of a request -----

  ghost predicate ReadsClock(events: seq<Event>, k: nat, thread: nat) {
    Steps(events, k, thread) && Stepping(events, k, thread).point.ReadClock?
  }

  /** `now` is what the thread has read, if it has read its clock before position `k`. */
  ghost predicate ClockIs(events: seq<Event>, k: nat, thread: nat, now: int) {
    forall j: nat :: j < k && ReadsClock(events, j, thread) ==> events[j].choice.now == now
  }

  lemma ClockReadOnce(events: seq<Event>, j: nat, k: nat, thread: nat)
    requires ReadsClock(events, j, thread) && ReadsClock(events, k, thread)
    ensures j == k
  {
    hide Run, Step;
    if j < k { StepsDescend(events, j, k, thread); }
    if k < j { StepsDescend(events, k, j, thread); }
  }

  lemma ChecksAreNotLate(cfg: Config, request: Request, point: Point, cache: Ring, s: State, choice: Choice)
    requires point.Received? || point.Probe? || point.LookupRow? || point.KeepMetadata?
    ensures !Step(cfg, request, point, cache, s, choice).point.FindIncrement?
  {
    hide LookupMetadata, Store, AccountRecipe, WellFormedRequest, TransferOf;
    match point
    case Received =>
    case Probe(id, expected, next) =>
    case LookupRow(id, expected, next) =>
    case KeepMetadata(id, metadata, next) =>
  }

  lemma LateIsAfterClock(cfg: Config, request: Request, point: Point, cache: Ring, s: State, choice: Choice)
    requires (var next := Step(cfg, request, point, cache, s, choice).point;
              next.FindIncrement? && next.expired && next != point)
    ensures point.ReadClock?
    ensures Step(cfg, request, point, cache, s, choice).point == FindIncrement(point.order, point.original, true)
    ensures choice.now >= ExpiryAt(point.original)
  {
    if point.Received? || point.Probe? || point.LookupRow? || point.KeepMetadata? {
      hide Step;
      ChecksAreNotLate(cfg, request, point, cache, s, choice);
    } else {
      hide CreateTransfer, CreateAccount, Store, Remember, Answer, DerivedTimeout, LookupMetadata, StepFindAuthorization,
        StepFindIncrement, StepRecover, BalanceOf, AccountRecipe, OpenAuthorization, Start, StepProbe, StepLookupRow, Resume;
    }
  }

  /** There is one reading that says what the clock has led to. */
  lemma ClockWasRead(events: seq<Event>, k: nat, thread: nat) returns (now: int)
    requires Steps(events, k, thread)
    ensures ClockIs(events, k, thread, now) && Clocked(Stepping(events, k, thread).point, Before(events, k).ledger, now)
  {
    hide Run, Step, Clocked, DerivedTimeout, Remaining;
    now := 0;
    if j: nat :| j < k && ReadsClock(events, j, thread) {
      now := events[j].choice.now;
      forall j': nat | j' < k && ReadsClock(events, j', thread)
        ensures j' == j
      {
        ClockReadOnce(events, j', j, thread);
      }
    }
    var point := Stepping(events, k, thread).point;
    if point.FindIncrement? && point.expired {
      LateReading(events, k, thread, now);
    } else if point.Submit? && point.transfer.code == INCREMENT {
      SubmittedReading(events, k, thread, now);
    } else {
      NotClocked(point, Before(events, k).ledger, now);
    }
  }

  lemma NotClocked(point: Point, s: State, now: int)
    requires !(point.FindIncrement? && point.expired) && !(point.Submit? && point.transfer.code == INCREMENT)
    ensures Clocked(point, s, now)
  {
  }

  lemma LateReading(events: seq<Event>, k: nat, thread: nat, now: int)
    requires Steps(events, k, thread) && ClockIs(events, k, thread, now)
    requires Stepping(events, k, thread).point.FindIncrement? && Stepping(events, k, thread).point.expired
    ensures Clocked(Stepping(events, k, thread).point, Before(events, k).ledger, now)
  {
    hide Run, Step, DerivedTimeout, Remaining;
    var j := StepWasReached(events, k, thread);
    var i, from := SteppingOn(events, j, thread), Stepping(events, j, thread);
    LateIsAfterClock(i.cfg, from.request, from.point, i.cache, Before(events, j).ledger, events[j].choice);
    assert ReadsClock(events, j, thread);
  }

  lemma SubmittedReading(events: seq<Event>, k: nat, thread: nat, now: int)
    requires Steps(events, k, thread) && ClockIs(events, k, thread, now)
    requires Stepping(events, k, thread).point.Submit? && Stepping(events, k, thread).point.transfer.code == INCREMENT
    ensures Clocked(Stepping(events, k, thread).point, Before(events, k).ledger, now)
  {
    hide Run, Step, DerivedTimeout, Remaining, WorldOK, Extends;
    var j := StepWasReached(events, k, thread);
    assert events[..k][..j] == events[..j];
    Onward(events[..k], j, thread);
    var from := Stepping(events, j, thread).point;
    ReadAtStep(Before(events, j), thread, events[j].choice, Stepping(events, k, thread).point);
    OriginalIsKept(Before(events, j).ledger, Before(events, k).ledger, from.order, from.original);
    assert ReadsClock(events, j, thread);
  }

  // ----- Changes of the ledger -----

  ghost predicate Changes(events: seq<Event>, k: nat, thread: nat) {
    Steps(events, k, thread) && Leads(events, k, thread).ledger != Before(events, k).ledger
  }

  /** The settings of the instance that takes the step. */
  ghost predicate RunsOn(events: seq<Event>, k: nat, thread: nat, settings: Settings) {
    Steps(events, k, thread) && exists b: nat :: b < k && Boots(events, b, Stepping(events, k, thread).instance, settings)
  }

  lemma StepRunsOn(events: seq<Event>, k: nat, thread: nat) returns (settings: Settings)
    requires Steps(events, k, thread)
    ensures RunsOn(events, k, thread, settings) && ConfigFor(settings, SteppingOn(events, k, thread).cfg)
  {
    hide Run, New, ConfigFor;
    var b: nat;
    b, settings := InstanceWasBooted(events[..k], Stepping(events, k, thread).instance);
    assert events[..k][..b] == events[..b];
    NewConfig(settings);
    assert Boots(events, b, Stepping(events, k, thread).instance, settings);
  }

  lemma StepIsReady(events: seq<Event>, k: nat, thread: nat)
    requires Steps(events, k, thread)
    ensures Ready(SteppingOn(events, k, thread).cfg, Stepping(events, k, thread).request, Stepping(events, k, thread).point,
                  Before(events, k).ledger)
    ensures CacheSound(SteppingOn(events, k, thread).cfg, SteppingOn(events, k, thread).cache, Before(events, k).ledger)
  {
    hide Inv, Facts, Formed, CacheSound, ValidConfig, Bound, Run;
    var w := Before(events, k);
    Reachable(events[..k]);
    assert ThreadOK(w, thread) && InstanceOK(w, w.threads[thread].instance);
  }

  /** The step as it would be undisturbed. */
  ghost function CalmStep(events: seq<Event>, k: nat, thread: nat, now: int): Moved
    requires Steps(events, k, thread)
  {
    var i, t := SteppingOn(events, k, thread), Stepping(events, k, thread);
    Step(i.cfg, t.request, t.point, i.cache, Before(events, k).ledger, Calm(now))
  }

  /** What any step of any run does: it is the undisturbed step, a cancelled risk evaluation or a lost call. */
  lemma StepOrDisturbance(events: seq<Event>, k: nat, thread: nat)
    requires Steps(events, k, thread)
    ensures (var m, calm := Leads(events, k, thread), CalmStep(events, k, thread, events[k].choice.now);
             var point, s := Stepping(events, k, thread).point, Before(events, k).ledger;
             if EvaluatesRisk(point) && events[k].choice.cancelled then m.point == Done(Refused(Cancelled)) && m.ledger == s
             else if CallsLedger(point) && !events[k].choice.fault.Fine? then
               m.point == Done(Refused(Unavailable)) && (m.ledger == s || m.ledger == calm.ledger)
             else m == calm)
  {
    hide Run, Step;
    var i, t := SteppingOn(events, k, thread), Stepping(events, k, thread);
    DisturbancesAreReported(i.cfg, t.request, t.point, i.cache, Before(events, k).ledger, events[k].choice);
  }

  /** An undisturbed unsettled step is good, at the reading of the request's clock. */
  lemma CalmStepIsGood(events: seq<Event>, k: nat, thread: nat) returns (settings: Settings, now: int)
    requires Steps(events, k, thread)
    requires Settled(Stepping(events, k, thread).request, Stepping(events, k, thread).point).None?
    ensures RunsOn(events, k, thread, settings) && ClockIs(events, k, thread, now)
    ensures Good(settings, Stepping(events, k, thread).request, Before(events, k).ledger,
                 CalmStep(events, k, thread, now), now)
    ensures !Stepping(events, k, thread).point.ReadClock? ==>
              CalmStep(events, k, thread, now) == CalmStep(events, k, thread, events[k].choice.now)
  {
    hide Run, Step, Ready, CacheSound, ConfigFor, Clocked, Settled, Good, ClockIs, RunsOn;
    settings := StepRunsOn(events, k, thread);
    now := ClockWasRead(events, k, thread);
    StepIsReady(events, k, thread);
    var i, t := SteppingOn(events, k, thread), Stepping(events, k, thread);
    StepDecides(settings, i.cfg, t.request, t.point, i.cache, Before(events, k).ledger, now);
    if !t.point.ReadClock? {
      ClockIsReadOnce(i.cfg, t.request, t.point, i.cache, Before(events, k).ledger, now, events[k].choice.now);
    }
  }

  lemma ReadingChangesNothing(cfg: Config, request: Request, point: Point, cache: Ring, s: State, choice: Choice)
    requires point.ReadClock?
    ensures Step(cfg, request, point, cache, s, choice).ledger == s
    ensures Settled(request, Step(cfg, request, point, cache, s, choice).point).None?
  {
    hide DerivedTimeout;
  }

  /** A change of the ledger by a request's step is the promised effect of the promised answer, told to the caller or
      lost; and it settles the request. */
  lemma ChangesAreEffects(events: seq<Event>, k: nat, thread: nat)
    requires Changes(events, k, thread) && !Stepping(events, k, thread).request.Provision?
    ensures Settled(Stepping(events, k, thread).request, Leads(events, k, thread).point).Some?
    ensures exists settings, now ::
              && RunsOn(events, k, thread, settings) && ClockIs(events, k, thread, now)
              && (var request, s := Stepping(events, k, thread).request, Before(events, k).ledger;
                  Effect(settings, request, s, Leads(events, k, thread).ledger, Expected(settings, request, s, now), now))
  {
    hide Run, Step, Effect, Expected, ClockIs, RunsOn, BalanceOf;
    var i, t, s := SteppingOn(events, k, thread), Stepping(events, k, thread), Before(events, k).ledger;
    if Settled(t.request, t.point).Some? {
      SettledStep(i.cfg, t.request, t.point, i.cache, s, events[k].choice);
    } else if t.point.ReadClock? {
      ReadingChangesNothing(i.cfg, t.request, t.point, i.cache, s, events[k].choice);
    } else {
      StepOrDisturbance(events, k, thread);
      var settings, now := CalmStepIsGood(events, k, thread);
      assert Effect(settings, t.request, s, Leads(events, k, thread).ledger, Expected(settings, t.request, s, now), now);
    }
  }

  /** No request changes the ledger twice, nor after it has settled on its answer. */
  lemma ChangesOnce(events: seq<Event>, j: nat, k: nat, thread: nat)
    requires Steps(events, j, thread) && j < k && !Stepping(events, j, thread).request.Provision?
    requires Changes(events, j, thread) || Settled(Stepping(events, j, thread).request, Leads(events, j, thread).point).Some?
    ensures !Changes(events, k, thread)
    ensures Steps(events, k, thread) ==> Settled(Stepping(events, k, thread).request, Stepping(events, k, thread).point).Some?
  {
    hide Run, Step, Settled;
    if Changes(events, j, thread) { ChangesAreEffects(events, j, thread); }
    if Steps(events, k, thread) {
      SettledStays(events, j, k, thread);
      SameRequest(events, j, thread);
      SameRequest(events, k, thread);
      var i, t := SteppingOn(events, k, thread), Stepping(events, k, thread);
      SettledStep(i.cfg, t.request, t.point, i.cache, Before(events, k).ledger, events[k].choice);
    }
  }

  // ----- Linearizability -----

  /** At position `k` the request takes effect: the answer `r` is the one promised for the ledger found there, so is the
      change it makes, and it makes no other change at any time. */
  ghost predicate TakesEffect(events: seq<Event>, k: nat, thread: nat, settings: Settings, request: Request, r: Response,
                              now: int)
  {
    && Steps(events, k, thread) && Stepping(events, k, thread).request == request
    && RunsOn(events, k, thread, settings) && ClockIs(events, k, thread, now)
    && Decides(settings, request, Before(events, k).ledger, Leads(events, k, thread).ledger, r, now)
    && (!request.Provision? ==> forall j: nat :: j != k ==> !Changes(events, j, thread))
  }

  /** Linearizability. Whatever runs in between, every answer that is not an interruption is exactly the answer, with
      exactly the effect, that the request would have had alone at one moment of its own, read on its own clock. */
  lemma AnswersAreLinearizable(events: seq<Event>, thread: nat, request: Request, r: Response)
    requires Answered(Run(INITIAL, events), thread, request, r) && !r.Interrupted()
    ensures exists k, settings, now :: TakesEffect(events, k, thread, settings, request, r, now)
  {
    hide Run, Step, Decides, ClockIs, RunsOn, BalanceOf;
    var k := AnswerWasSettled(events, thread, request, r);
    var i, t, s := SteppingOn(events, k, thread), Stepping(events, k, thread), Before(events, k).ledger;
    StepOrDisturbance(events, k, thread);
    if t.point.ReadClock? {
      ReadingChangesNothing(i.cfg, t.request, t.point, i.cache, s, events[k].choice);
    } else {
      var settings, now := CalmStepIsGood(events, k, thread);
      OtherStepsAreSilent(events, k, thread, request, r);
      assert TakesEffect(events, k, thread, settings, request, r, now);
    }
  }

  lemma OtherStepsAreSilent(events: seq<Event>, k: nat, thread: nat, request: Request, r: Response)
    requires SettlesOn(events, k, thread, r) && Stepping(events, k, thread).request == request
    ensures !request.Provision? ==> forall j: nat :: j != k ==> !Changes(events, j, thread)
  {
    hide Run, Step, Settled;
    if !request.Provision? {
      forall j: nat | j != k
        ensures !Changes(events, j, thread)
      {
        if k < j {
          ChangesOnce(events, k, j, thread);
        } else if Changes(events, j, thread) {
          SameRequest(events, j, thread);
          SameRequest(events, k, thread);
          ChangesOnce(events, j, k, thread);
        }
      }
    }
  }

  // ----- Interruptions -----

  /** A caller that leaves during risk evaluation gets no hold: the request ends there, for good, and neither before nor
      afterwards has it submitted anything. */
  lemma CancelledIsFinal(events: seq<Event>, k: nat, thread: nat)
    requires Steps(events, k, thread) && EvaluatesRisk(Stepping(events, k, thread).point) && events[k].choice.cancelled
    ensures thread in Run(INITIAL, events).threads
    ensures Run(INITIAL, events).threads[thread].point == Done(Refused(Cancelled))
    ensures forall n: nat, t :: !Submits(events, n, thread, t)
  {
    hide Run, Step;
    StepOrDisturbance(events, k, thread);
    EndsFor(events, k, |events|, thread);
    assert events[..|events|] == events;
    forall n: nat, t
      ensures !Submits(events, n, thread, t)
    {
      if Submits(events, n, thread, t) {
        if n < k { StepsDescend(events, n, k, thread); }
        if k < n { EndsFor(events, k, n, thread); }
      }
    }
  }

  /** A request whose ledger call is lost reports that, for good, and the ledger shows nothing of the call or its whole
      effect. */
  lemma LostCallIsFinal(events: seq<Event>, k: nat, thread: nat)
    requires Steps(events, k, thread) && CallsLedger(Stepping(events, k, thread).point) && !events[k].choice.fault.Fine?
    ensures thread in Run(INITIAL, events).threads
    ensures Run(INITIAL, events).threads[thread].point == Done(Refused(Unavailable))
    ensures events[k].choice.fault.LostBefore? ==> !Changes(events, k, thread)
    ensures events[k].choice.fault.LostAfter? ==>
              Leads(events, k, thread).ledger == CalmStep(events, k, thread, events[k].choice.now).ledger
  {
    hide Run, Step;
    var i, t := SteppingOn(events, k, thread), Stepping(events, k, thread);
    DisturbancesAreReported(i.cfg, t.request, t.point, i.cache, Before(events, k).ledger, events[k].choice);
    EndsFor(events, k, |events|, thread);
    assert events[..|events|] == events;
  }

  /** An answer once given stands. */
  lemma EndsFor(events: seq<Event>, j: nat, k: nat, thread: nat)
    requires Steps(events, j, thread) && Leads(events, j, thread).point.Done? && j < k <= |events|
    ensures thread in Before(events, k).threads
    ensures Before(events, k).threads[thread].point == Leads(events, j, thread).point
  {
    hide Run, Step, BalanceOf;
    SettledStays(events, j, k, thread);
    Descends(events, j, k, thread);
  }

  // ----- What follows for single answers -----

  /** A request is answered as invalid if and only if an ID or its amount is out of range, its parts do not fit together,
      or its card belongs to another wallet. */
  lemma InvalidExactlyIf(settings: Settings, request: Request, s: State, now: int)
    ensures Expected(settings, request, s, now) == Refused(InvalidRequest)
       <==> || Malformed(request)
            || (request.MoveFunds? && Corporate(s, request.account) && Card(s, request.card)
                && s.accounts[request.card].userData128 != request.account)
  {
    hide Malformed, Matches, Short;
  }

  /** The balance of an account according to the journal: what was credited minus what was debited, and that less the live
      holds; on the cash account the sides are exchanged. */
  ghost predicate JournalSays(s: State, id: Id, posted: int, available: int) {
    var funded := Sum(s.transfers, PostedCredits(id)) - Sum(s.transfers, PostedDebits(id));
    if id == 1 then available == posted == -funded
    else posted == funded && available == posted - Sum(s.transfers - s.released, PendingDebits(id))
  }

  /** A reported balance was the row's, and the journal's, at one moment between the request's arrival and its answer. */
  lemma ReportedBalanceWasTheJournals(events: seq<Event>, thread: nat, request: Request, r: Response)
    requires Answered(Run(INITIAL, events), thread, request, r) && r.Balance?
    ensures request == ReadBalance(r.row.id)
    ensures exists k: nat ::
              && Steps(events, k, thread) && r.row.id in Before(events, k).ledger.accounts
              && r.row == Before(events, k).ledger.accounts[r.row.id]
              && JournalSays(Before(events, k).ledger, r.row.id, r.posted, r.available)
  {
    hide Run, Sum, Step, Stepping, TakesEffect;
    AnswersAreLinearizable(events, thread, request, r);
    var k: nat, settings, now :| TakesEffect(events, k, thread, settings, request, r, now);
    EffectReadsRow(events, k, thread, settings, request, r, now);
    Reachable(events[..k]);
    NoOverdraft(events[..k], request.account);
    StatementIs(Before(events, k).ledger, request.account);
    assert JournalSays(Before(events, k).ledger, r.row.id, r.posted, r.available);
  }

  lemma EffectReadsRow(events: seq<Event>, k: nat, thread: nat, settings: Settings, request: Request, r: Response, now: int)
    requires TakesEffect(events, k, thread, settings, request, r, now) && r.Balance?
    ensures Steps(events, k, thread) && request.ReadBalance? && request.account in Before(events, k).ledger.accounts
    ensures r == StatementOf(Before(events, k).ledger.accounts[request.account])
  {
    hide Run, Step, Malformed, Matches, Short, StatementOf, Effect, ClockIs, RunsOn;
    StatementsAreBalances();
  }

  lemma StatementsAreBalances()
    ensures forall row :: StatementOf(row).Balance? && StatementOf(row).row == row
  {
  }

  /** The promised statement has the balances of the row's kind. */
  lemma StatementIs(s: State, id: Id)
    requires AccountsOK(s) && id in s.accounts
    ensures s.accounts[id].id == id
    ensures (var r := StatementOf(s.accounts[id]);
             && MetadataIn(s, id) == Some(r.metadata) && (r.posted, r.available) == Balances(s.accounts[id], r.metadata.kind))
  {
    assert RowOK(s, id);
  }
}
