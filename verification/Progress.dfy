/** Every request ends after a bounded number of its own steps, whatever the environment does. */
module Progress {
  import opened TigerBeetle
  import opened AccountModel
  import opened Ledger
  import opened MetadataCache
  import opened Requests
  import opened Runs

  /** The longest way from a program point to its end. */
  function StepsLeft(point: Point): nat {
    match point
    case Received => 12
    case Probe(_, _, next) => 3 + StepsAfter(next)
    case LookupRow(_, _, next) => 2 + StepsAfter(next)
    case KeepMetadata(_, _, next) => 1 + StepsAfter(next)
    case ReadOriginal(_) => 9
    case EvaluateRisk(_) => 3
    case EvaluateIncrementRisk(_, _) => 4
    case ReadClock(_, _) => 3
    case FindAuthorization(_) => 1
    case FindIncrement(_, _, _) => 1
    case Submit(_) => 2
    case Recover(_) => 1
    case SubmitAccount(row) => if row.id == CASH then 4 else 2
    case KeepAccount(row, _) => if row.id == CASH then 3 else 1
    case LookupBalance(_) => 2
    case KeepBalance(_, _) => 1
    case Done(_) => 0
  }

  function StepsAfter(next: Next): nat {
    match next
    case ThenSubmit(_) => 2
    case ThenCheckCard(_, _, _) => 5
    case ThenMove(_, _) => 2
    case ThenRisk(_) => 3
    case ThenIncrementRisk(_, _) => 4
    case ThenOpen(_) => 4
  }

  lemma StartIsShort(cfg: Config, request: Request)
    ensures StepsLeft(Start(cfg, request)) < 12
  {
  }

  lemma ResumeIsShort(next: Next, metadata: Metadata)
    ensures StepsLeft(Resume(next, metadata)) <= StepsAfter(next)
    ensures StepsLeft(WrongKind(next)) == 0
  {
  }

  lemma ChecksAreShort(cfg: Config, cache: Ring, s: State, id: Id, expected: AccountKind, next: Next)
    ensures StepsLeft(StepProbe(cache, id, expected, next)) < 3 + StepsAfter(next)
    ensures StepsLeft(StepLookupRow(cfg, s, id, expected, next)) < 2 + StepsAfter(next)
  {
  }

  lemma OriginalIsShort(cfg: Config, s: State, order: Order)
    ensures StepsLeft(StepReadOriginal(cfg, s, order)) < 9
  {
  }

  lemma ClockIsShort(cfg: Config, order: Order, original: Transfer, now: int)
    ensures StepsLeft(StepReadClock(cfg, order, original, now)) < 3
  {
  }

  lemma AccountsAreShort(cfg: Config, request: Request, row: Account, r: AccountResult)
    ensures StepsLeft(AfterSubmitAccount(request, row, r)) < StepsLeft(SubmitAccount(row))
    ensures StepsLeft(AfterKeepAccount(cfg, request, row, r)) < StepsLeft(KeepAccount(row, r))
  {
  }

  lemma SubmitIsShort(cfg: Config, t: Transfer, r: TransferResult)
    ensures StepsLeft(AfterSubmit(cfg, t, r)) < 2
  {
  }

  lemma BalanceIsShort(cfg: Config, s: State, id: Id)
    ensures StepsLeft(StepLookupBalance(cfg, s, id)) < 2
  {
  }

  /** Points whose step needs one look at a helper of its own. */
  predicate Branching(point: Point) {
    point.Received? || point.Probe? || point.LookupRow? || point.KeepMetadata? || point.ReadOriginal? || point.ReadClock?
    || point.LookupBalance? || point.SubmitAccount? || point.KeepAccount? || point.Submit?
  }

  lemma CheckAdvances(cfg: Config, request: Request, point: Point, cache: Ring, s: State, choice: Choice)
    requires point.Received? || point.Probe? || point.LookupRow? || point.KeepMetadata?
    ensures StepsLeft(Step(cfg, request, point, cache, s, choice).point) < StepsLeft(point)
  {
    hide Store, Start, Resume, StepProbe, StepLookupRow, StepsAfter;
    match point
    case Received => StartIsShort(cfg, request);
    case Probe(id, expected, next) => ChecksAreShort(cfg, cache, s, id, expected, next);
    case LookupRow(id, expected, next) => ChecksAreShort(cfg, cache, s, id, expected, next);
    case KeepMetadata(id, metadata, next) => ResumeIsShort(next, metadata);
  }

  lemma AccountAdvances(cfg: Config, request: Request, point: Point, cache: Ring, s: State, choice: Choice)
    requires point.SubmitAccount? || point.KeepAccount? || point.LookupBalance?
    ensures StepsLeft(Step(cfg, request, point, cache, s, choice).point) < StepsLeft(point)
  {
    hide CreateAccount, Remember, AfterSubmitAccount, AfterKeepAccount, StepLookupBalance;
    match point
    case SubmitAccount(row) => AccountsAreShort(cfg, request, row, CreateAccount(s, row).1);
    case KeepAccount(row, r) => AccountsAreShort(cfg, request, row, r);
    case LookupBalance(id) => BalanceIsShort(cfg, s, id);
  }

  lemma TransferAdvances(cfg: Config, request: Request, point: Point, cache: Ring, s: State, choice: Choice)
    requires point.ReadOriginal? || point.ReadClock? || point.Submit?
    ensures StepsLeft(Step(cfg, request, point, cache, s, choice).point) < StepsLeft(point)
  {
    hide CreateTransfer, StepReadOriginal, StepReadClock, AfterSubmit;
    match point
    case ReadOriginal(order) => OriginalIsShort(cfg, s, order);
    case ReadClock(order, original) => ClockIsShort(cfg, order, original, choice.now);
    case Submit(t) => SubmitIsShort(cfg, t, CreateTransfer(s, t).1);
  }

  lemma BranchingAdvances(cfg: Config, request: Request, point: Point, cache: Ring, s: State, choice: Choice)
    requires Branching(point)
    ensures StepsLeft(Step(cfg, request, point, cache, s, choice).point) < StepsLeft(point)
  {
    hide Step, StepsLeft;
    if point.Received? || point.Probe? || point.LookupRow? || point.KeepMetadata? {
      CheckAdvances(cfg, request, point, cache, s, choice);
    } else if point.SubmitAccount? || point.KeepAccount? || point.LookupBalance? {
      AccountAdvances(cfg, request, point, cache, s, choice);
    } else {
      TransferAdvances(cfg, request, point, cache, s, choice);
    }
  }

  lemma PlainAdvances(cfg: Config, request: Request, point: Point, cache: Ring, s: State, choice: Choice)
    requires !Branching(point) && !point.Done?
    ensures StepsLeft(Step(cfg, request, point, cache, s, choice).point) < StepsLeft(point)
  {
    hide Remember, BalanceOf, StepFindAuthorization, StepFindIncrement, StepRecover;
    match point
    case EvaluateRisk(t) =>
    case FindAuthorization(t) =>
    case EvaluateIncrementRisk(order, original) =>
    case FindIncrement(order, original, expired) =>
    case Recover(t) =>
    case KeepBalance(row, metadata) =>
  }

  lemma DoneStays(cfg: Config, request: Request, point: Point, cache: Ring, s: State, choice: Choice)
    requires point.Done?
    ensures Step(cfg, request, point, cache, s, choice).point == point
  {
  }

  /** Each step of a request that has not ended brings it closer to its end. */
  lemma StepAdvances(cfg: Config, request: Request, point: Point, cache: Ring, s: State, choice: Choice)
    ensures (var point' := Step(cfg, request, point, cache, s, choice).point;
             if point.Done? then point' == point else StepsLeft(point') < StepsLeft(point))
  {
    hide Step, StepsLeft;
    if Branching(point) {
      BranchingAdvances(cfg, request, point, cache, s, choice);
    } else if point.Done? {
      DoneStays(cfg, request, point, cache, s, choice);
    } else {
      PlainAdvances(cfg, request, point, cache, s, choice);
    }
  }

  function OwnSteps(events: seq<Event>, thread: nat): nat
    decreases |events|
  {
    if events == [] then 0
    else OwnSteps(events[..|events| - 1], thread)
         + (if events[|events| - 1].Advance? && events[|events| - 1].running == thread then 1 else 0)
  }

  lemma ApplyAdvances(w: World, e: Event, thread: nat)
    requires thread in w.threads && w.threads[thread].instance in w.instances
    ensures (var w' := Apply(w, e);
             && thread in w'.threads && w'.threads[thread].instance in w'.instances
             && w'.threads[thread].request == w.threads[thread].request
             && (w.threads[thread].point.Done? ==> w'.threads[thread].point.Done?)
             && (!w.threads[thread].point.Done? ==>
                   StepsLeft(w'.threads[thread].point) + (if e.Advance? && e.running == thread then 1 else 0)
                   <= StepsLeft(w.threads[thread].point)))
  {
    hide Step, StepsLeft, New, Accepted, Due, Release;
    if e.Advance? && e.running == thread {
      var instance := w.instances[w.threads[thread].instance];
      StepAdvances(instance.cfg, w.threads[thread].request, w.threads[thread].point, instance.cache, w.ledger, e.choice);
    }
  }

  lemma {:induction false} RequestsEnd(w: World, events: seq<Event>, thread: nat)
    requires thread in w.threads && w.threads[thread].instance in w.instances
    ensures thread in Run(w, events).threads && Run(w, events).threads[thread].instance in Run(w, events).instances
    ensures Run(w, events).threads[thread].request == w.threads[thread].request
    ensures StepsLeft(Run(w, events).threads[thread].point) + OwnSteps(events, thread) <= StepsLeft(w.threads[thread].point)
            || Run(w, events).threads[thread].point.Done?
    decreases |events|
  {
    if events != [] {
      hide Apply, StepsLeft;
      RequestsEnd(w, events[..|events| - 1], thread);
      ApplyAdvances(Run(w, events[..|events| - 1]), events[|events| - 1], thread);
    }
  }

  /** Whatever else happens, a request that gets twelve turns has given its answer. */
  lemma RequestsAreAnswered(w: World, events: seq<Event>, thread: nat)
    requires thread in w.threads && w.threads[thread].instance in w.instances
    requires OwnSteps(events, thread) >= 12
    ensures thread in Run(w, events).threads && Run(w, events).threads[thread].point.Done?
  {
    hide Run, OwnSteps;
    RequestsEnd(w, events, thread);
  }
}
