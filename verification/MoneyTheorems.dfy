/** What every run of the service keeps true of the money. */
module MoneyTheorems {
  import opened TigerBeetle
  import opened AccountModel
  import opened Ledger
  import opened Recipes
  import opened Sums
  import opened LedgerInvariant
  import opened LedgerSteps
  import opened Requests
  import opened RequestFacts
  import opened RequestSteps
  import opened Runs
  import opened History

  ghost function LedgerAfter(events: seq<Event>): State {
    Run(INITIAL, events).ledger
  }

  lemma ReachableLedger(events: seq<Event>)
    ensures Inv(LedgerAfter(events))
  {
    hide Inv;
    Reachable(events);
  }

  /** Solvency: safeguarded cash holds exactly what all wallets together are owed, and nothing is posted to the
      settlement account. */
  lemma ClientMoneyIsBacked(events: seq<Event>)
    ensures var s := LedgerAfter(events);
              && (CASH in s.accounts ==>
                    Sum(s.accounts, WalletPosted()) == s.accounts[CASH].debitsPosted - s.accounts[CASH].creditsPosted)
              && (SETTLEMENT in s.accounts ==> PostedBalance(s.accounts[SETTLEMENT]) == 0)
  {
    ReachableLedger(events);
    hide AccountsOK, TransfersOK, IDsOK, JournalOK, LimitsOK, BalancedOK, FamiliesOK, Sum, Run;
  }

  function CardsPosted(corporate: Id): Account -> int {
    (a: Account) => if a.id != corporate && a.code == CARD_CODE && a.userData128 == corporate then PostedBalance(a) else 0
  }

  function OwnPosted(corporate: Id): Account -> int {
    (a: Account) => if a.id == corporate then PostedBalance(a) else 0
  }

  function TopUps(corporate: Id): Transfer -> int {
    (t: Transfer) => if t.code == TOP_UP && t.credit == corporate then t.amount else 0
  }

  function Withdrawals(corporate: Id): Transfer -> int {
    (t: Transfer) => if t.code == WITHDRAWAL && t.debit == corporate then t.amount else 0
  }

  lemma OneRow(rows: map<Id, Account>, id: Id)
    requires id in rows && forall i :: i in rows ==> rows[i].id == i
    ensures Sum(rows, OwnPosted(id)) == PostedBalance(rows[id])
  {
    SumRemove(rows, id, OwnPosted(id));
    SumZero(rows - {id}, OwnPosted(id));
  }

  /** Per-client conservation: a corporate wallet and its cards together hold what was topped up for that client minus
      what was withdrawn for it, whatever was allocated, returned or held in between. */
  lemma ClientMoneyIsConserved(events: seq<Event>, corporate: Id)
    requires IsCorporate(LedgerAfter(events), corporate)
    ensures var s := LedgerAfter(events);
              PostedBalance(s.accounts[corporate]) + Sum(s.accounts, CardsPosted(corporate))
              == Sum(s.transfers, TopUps(corporate)) - Sum(s.transfers, Withdrawals(corporate))
  {
    var s := LedgerAfter(events);
    ReachableLedger(events);
    RowIDs(s);
    OneRow(s.accounts, corporate);
    hide AccountsOK, TransfersOK, IDsOK, JournalOK, LimitsOK, BalancedOK, SolventOK, LedgerAfter;
    SumAdd(s.accounts, OwnPosted(corporate), CardsPosted(corporate), FamilyPosted(corporate));
    SumAdd(s.transfers, NetFunding(corporate), Withdrawals(corporate), TopUps(corporate));
  }

  lemma RowIDs(s: State)
    requires AccountsOK(s)
    ensures forall id :: id in s.accounts ==> s.accounts[id].id == id
  {
    forall id | id in s.accounts
      ensures s.accounts[id].id == id
    {
      assert RowOK(s, id);
    }
  }

  /** The incrementally kept balances are the journal's: each field of each row is a sum over stored transfers, debits
      equal credits overall, and the settlement account's pending credits are the cards' pending debits. */
  lemma BalancesAreTheJournal(events: seq<Event>, id: Id)
    requires id in LedgerAfter(events).accounts
    ensures var s := LedgerAfter(events);
              && s.accounts[id].debitsPosted == Sum(s.transfers, PostedDebits(id))
              && s.accounts[id].creditsPosted == Sum(s.transfers, PostedCredits(id))
              && s.accounts[id].debitsPending == Sum(s.transfers - s.released, PendingDebits(id))
              && s.accounts[id].creditsPending == Sum(s.transfers - s.released, PendingCredits(id))
              && Sum(s.accounts, NetPosted()) == 0 && Sum(s.accounts, NetPending()) == 0
              && (SETTLEMENT in s.accounts ==> s.accounts[SETTLEMENT].creditsPending == Sum(s.accounts, CardHolds()))
  {
    ReachableLedger(events);
    assert Journalled(LedgerAfter(events), id);
    hide AccountsOK, TransfersOK, IDsOK, LimitsOK, FamiliesOK, Sum, Run;
  }

  /** No overdraft, and the reported balances are the journal's: on every account but cash the posted balance is credits
      minus debits, the available balance further takes off the live holds, and it is never negative; on cash the sides
      are exchanged. */
  lemma NoOverdraft(events: seq<Event>, id: Id)
    requires id in LedgerAfter(events).accounts
    ensures (var s := LedgerAfter(events);
             && MetadataIn(s, id).Some?
             && var (posted, available) := Balances(s.accounts[id], MetadataIn(s, id).value.kind);
                var funded := Sum(s.transfers, PostedCredits(id)) - Sum(s.transfers, PostedDebits(id));
                && 0 <= available <= posted
                && (id != CASH ==> posted == funded && available == posted - Sum(s.transfers - s.released, PendingDebits(id)))
                && (id == CASH ==> available == posted == -funded))
  {
    hide Sum, LedgerAfter, AccountsOK, LimitsOK, SolventOK, WithinLimits, Balances;
    BalancesAreTheJournal(events, id);
    ReachableLedger(events);
    RowIsCovered(LedgerAfter(events), id);
  }

  lemma RowIsCovered(s: State, id: Id)
    requires AccountsOK(s) && LimitsOK(s) && SolventOK(s) && id in s.accounts
    ensures MetadataIn(s, id).Some?
    ensures var (posted, available) := Balances(s.accounts[id], MetadataIn(s, id).value.kind);
            var row := s.accounts[id];
              && 0 <= available <= posted
              && (id != CASH ==> posted == row.creditsPosted - row.debitsPosted && available == posted - row.debitsPending)
              && (id == CASH ==> available == posted == row.debitsPosted - row.creditsPosted)
  {
    assert RowOK(s, id) && WithinLimits(s.accounts[id]);
    AvailableIsNonNegative(LedgerOf(s), s.accounts[id], MetadataIn(s, id).value);
    hide WithinLimits;
  }

  /** Whatever a request is about to submit, the ledger's verdict is one of five: a new transfer is rejected only, and
      always, when it exceeds the available balance of the wallet it debits. Missing accounts, overflow and the
      constraint of the cash account never decide. */
  lemma OnlyFundsDecide(events: seq<Event>, thread: nat)
    requires var w := Run(INITIAL, events); thread in w.threads && w.threads[thread].point.Submit?
    ensures (var s, t := LedgerAfter(events), Run(INITIAL, events).threads[thread].point.transfer;
             var status := CreateTransfer(s, t).1.status;
             && t.debit in s.accounts
             && (|| status.TransferCreated? || status.TransferExists? || status.TransferExistsWithDifferent?
                 || status.TransferIDAlreadyFailed? || status.TransferExceedsCredits?)
             && (t.id !in s.transfers && t.id !in s.failed ==>
                   (status.TransferExceedsCredits? <==> t.debit != CASH && t.amount > Available(s.accounts[t.debit]))))
  {
    hide Run, Wanted, Inv, Recipe, Judge;
    var w := Run(INITIAL, events);
    Reachable(events);
    assert ThreadOK(w, thread);
    OnlyFundsReject(w.ledger, w.threads[thread].point.transfer);
  }

  /** A request that has arrived, is well formed, and asks for exactly the transfer stored under `id`. */
  predicate Asked(w: World, thread: nat, id: Id) {
    && thread in w.threads && w.threads[thread].instance in w.instances && id in w.ledger.transfers
    && var request := w.threads[thread].request;
       && request.MovesMoney() && WellFormedRequest(request) && request.id == id
       && Wanted(w.instances[w.threads[thread].instance].cfg, request, w.ledger, w.ledger.transfers[id])
  }

  /** Money moves only on request: whatever the ledger stores, some request asked for. */
  lemma MoneyMovesOnRequest(events: seq<Event>, id: Id)
    requires id in LedgerAfter(events).transfers
    ensures exists thread :: Asked(Run(INITIAL, events), thread, id)
  {
    hide Run, WorldOK, Wanted, WellFormedRequest, Extends, Step;
    var k, thread := TransferWasSubmitted(events, id);
    Onward(events, k, thread);
    var w, w' := Before(events, k), Run(INITIAL, events);
    SubmittedIsWanted(w, thread);
    var cfg, request := SteppingOn(events, k, thread).cfg, Stepping(events, k, thread).request;
    WantedStable(cfg, request, w.ledger, w'.ledger, w.threads[thread].point.transfer);
    WantedIgnoresTimestamp(cfg, request, w'.ledger, w.threads[thread].point.transfer, w'.ledger.transfers[id].timestamp);
    StoredUnderID(events, id);
    assert Asked(w', thread, id);
  }

  lemma SubmittedIsWanted(w: World, thread: nat)
    requires WorldOK(w) && thread in w.threads && w.threads[thread].instance in w.instances
    requires w.threads[thread].point.Submit?
    ensures (var request := w.threads[thread].request;
             && request.MovesMoney() && WellFormedRequest(request)
             && Wanted(w.instances[w.threads[thread].instance].cfg, request, w.ledger, w.threads[thread].point.transfer)
             && request.id == w.threads[thread].point.transfer.id)
  {
    hide Inv, Recipe, WellFormedRequest;
    assert ThreadOK(w, thread);
  }

  lemma WantedIgnoresTimestamp(cfg: Config, request: Request, s: State, t: Transfer, timestamp: nat)
    ensures Wanted(cfg, request, s, t.(timestamp := timestamp)) == Wanted(cfg, request, s, t)
  {
  }

  lemma StoredUnderID(events: seq<Event>, id: Id)
    requires id in LedgerAfter(events).transfers
    ensures LedgerAfter(events).transfers[id].id == id
  {
    hide LedgerAfter;
    ReachableLedger(events);
    assert StoredOK(LedgerAfter(events), id);
  }

  /** Risk policy: no instance submits a hold above its automatic approval limit. */
  lemma NothingOverLimitIsSubmitted(events: seq<Event>, thread: nat)
    requires var w := Run(INITIAL, events); thread in w.threads && w.threads[thread].point.Submit?
    ensures (var w := Run(INITIAL, events);
             && w.threads[thread].instance in w.instances
             && var t := w.threads[thread].point.transfer;
                t.flags.pending ==> t.amount <= w.instances[w.threads[thread].instance].cfg.riskLimit)
  {
    hide Run, Inv, Wanted, MetadataIn;
    var w := Run(INITIAL, events);
    Reachable(events);
    assert ThreadOK(w, thread);
  }

  /** Group integrity: a stored increment names a stored authorization with the same parties, merchant fingerprint and
      pending flag, and asks for no longer a hold. */
  lemma IncrementsShareTheirAuthorization(events: seq<Event>, id: Id)
    requires var s := LedgerAfter(events); id in s.transfers && s.transfers[id].code == INCREMENT
    ensures (var s := LedgerAfter(events);
             var t := s.transfers[id];
             && IsAuthorization(s, t.userData128)
             && var original := s.transfers[t.userData128];
                && original.id == original.userData128 == t.userData128
                && t.debit == original.debit && t.credit == original.credit == SETTLEMENT
                && t.userData64 == original.userData64 && t.userData32 == original.userData32
                && t.flags == original.flags == PENDING && t.timeout <= original.timeout)
  {
    hide TransfersOK, LedgerAfter;
    ReachableLedger(events);
    IncrementGroup(LedgerAfter(events), id);
  }

  lemma IncrementGroup(s: State, id: Id)
    requires TransfersOK(s) && id in s.transfers && s.transfers[id].code == INCREMENT
    ensures (var t := s.transfers[id];
             && IsAuthorization(s, t.userData128)
             && var original := s.transfers[t.userData128];
                && original.id == original.userData128 == t.userData128
                && t.debit == original.debit && t.credit == original.credit == SETTLEMENT
                && t.userData64 == original.userData64 && t.userData32 == original.userData32
                && t.flags == original.flags == PENDING && t.timeout <= original.timeout)
  {
    hide MetadataIn;
    assert StoredOK(s, id);
    assert StoredOK(s, s.transfers[id].userData128);
  }

  /** The check that guards increments accepts exactly the transfers that the authorize operation stored: no increment,
      top-up, withdrawal, allocation or return can itself be incremented, and every authorization can. */
  lemma OnlyAuthorizationsAreIncrementable(events: seq<Event>, instance: nat, id: Id)
    requires var w := Run(INITIAL, events);
             id in w.ledger.transfers && instance in w.instances && w.instances[instance].serving
    ensures (var w := Run(INITIAL, events);
             OpenAuthorization(w.instances[instance].cfg, w.ledger.transfers[id]) <==> IsAuthorization(w.ledger, id))
  {
    hide Run, TransfersOK, OpenAuthorization, CacheSound, ValidConfig;
    var w := Run(INITIAL, events);
    Reachable(events);
    assert InstanceOK(w, instance);
    OpenIsAuthorization(w.instances[instance].cfg, w.ledger, id);
  }

  /** Every card's parent is a stored corporate wallet of the same ledger. */
  lemma CardParentsExist(events: seq<Event>, card: Id)
    requires IsCard(LedgerAfter(events), card)
    ensures var s := LedgerAfter(events); IsCorporate(s, s.accounts[card].userData128)
  {
    var s := LedgerAfter(events);
    ReachableLedger(events);
    assert RowOK(s, card);
    hide Inv, LedgerAfter;
  }

  /** Instances that serve at the same time work on the same ledger: one with another ledger number never gets past
      provisioning. */
  lemma ServingInstancesShareLedger(events: seq<Event>, one: nat, other: nat)
    requires var w := Run(INITIAL, events);
             && one in w.instances && other in w.instances
             && w.instances[one].serving && w.instances[other].serving
    ensures var w := Run(INITIAL, events);
              && CASH in w.ledger.accounts && SETTLEMENT in w.ledger.accounts
              && w.instances[one].cfg.ledgerID == w.instances[other].cfg.ledgerID == w.ledger.accounts[CASH].ledger
  {
    hide Run, Inv, CacheSound, ValidConfig;
    var w := Run(INITIAL, events);
    Reachable(events);
    assert InstanceOK(w, one) && InstanceOK(w, other);
  }

  /** The ledger is append-only: no step of any run changes a stored transfer or an account's definition, frees a failed
      ID, or lets an ID be both stored and failed. */
  lemma LedgerIsAppendOnly(events: seq<Event>, later: seq<Event>, id: Id)
    ensures (var s, s' := LedgerAfter(events), Run(Run(INITIAL, events), later).ledger;
             && (id in s.transfers ==> id in s'.transfers && s'.transfers[id] == s.transfers[id] && id !in s'.failed)
             && (id in s.failed ==> id in s'.failed && id !in s'.transfers)
             && (id in s.accounts ==> id in s'.accounts && Definition(s'.accounts[id]) == Definition(s.accounts[id])))
  {
    hide Run, AccountsOK, TransfersOK, JournalOK, LimitsOK, SolventOK, BalancedOK, FamiliesOK, Definition;
    Reachable(events);
    RunKeeps(Run(INITIAL, events), later);
  }
}
