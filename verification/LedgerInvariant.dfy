/** What every ledger state reached through the service satisfies, stated over the stored rows. */
module LedgerInvariant {
  import opened TigerBeetle
  import opened AccountModel
  import opened Ledger
  import opened Recipes
  import opened Sums

  // ----- Weights: what one stored transfer, or one account row, contributes to a sum -----

  function PostedDebits(a: Id): Transfer -> int { (t: Transfer) => if t.debit == a && !t.flags.pending then t.amount else 0 }
  function PostedCredits(a: Id): Transfer -> int { (t: Transfer) => if t.credit == a && !t.flags.pending then t.amount else 0 }
  function PendingDebits(a: Id): Transfer -> int { (t: Transfer) => if t.debit == a && t.flags.pending then t.amount else 0 }
  function PendingCredits(a: Id): Transfer -> int { (t: Transfer) => if t.credit == a && t.flags.pending then t.amount else 0 }

  /** Top-ups into, minus withdrawals from, one corporate wallet. */
  function NetFunding(corporate: Id): Transfer -> int {
    (t: Transfer) =>
      if t.code == TOP_UP && t.credit == corporate then t.amount
      else if t.code == WITHDRAWAL && t.debit == corporate then 0 - (t.amount as int)
      else 0
  }

  function PostedBalance(account: Account): int { account.creditsPosted - account.debitsPosted }

  /** Credits not yet debited or held. */
  function Available(row: Account): int {
    row.creditsPosted - row.debitsPosted - row.debitsPending
  }

  predicate IsWallet(account: Account) { account.code == CORPORATE_CODE || account.code == CARD_CODE }

  function WalletPosted(): Account -> int { (a: Account) => if IsWallet(a) then PostedBalance(a) else 0 }

  /** The corporate wallet itself and every card whose parent it is. */
  function FamilyPosted(corporate: Id): Account -> int {
    (a: Account) =>
      if a.id == corporate || (a.code == CARD_CODE && a.userData128 == corporate) then PostedBalance(a) else 0
  }

  function CardHolds(): Account -> int { (a: Account) => if a.code == CARD_CODE then a.debitsPending else 0 }

  function NetPosted(): Account -> int { (a: Account) => a.debitsPosted - a.creditsPosted }
  function NetPending(): Account -> int { (a: Account) => a.debitsPending - a.creditsPending }

  // ----- The invariant -----

  /** A row is a recipe of the provisioned ledger; a card's parent is a stored corporate wallet. */
  predicate RowOK(s: State, id: Id)
    requires id in s.accounts
  {
    && s.accounts[id].id == id
    && MetadataIn(s, id).Some?
    && (IsCard(s, id) ==>
          MetadataIn(s, id).value.parent in s.accounts && IsCorporate(s, MetadataIn(s, id).value.parent))
  }

  predicate AccountsOK(s: State) {
    && (s.accounts != map[] ==> CASH in s.accounts)
    && forall id {:trigger RowOK(s, id)} :: id in s.accounts ==> RowOK(s, id)
  }

  /** A stored transfer is one of the six recipes. */
  predicate StoredOK(s: State, id: Id)
    requires id in s.transfers
  {
    s.transfers[id].id == id && s.transfers[id].timestamp <= s.clock && Recipe(s, s.transfers[id])
  }

  predicate TransfersOK(s: State) {
    forall id {:trigger StoredOK(s, id)} :: id in s.transfers ==> StoredOK(s, id)
  }

  predicate IDsOK(s: State) {
    && s.transfers.Keys !! s.failed
    && s.released <= s.transfers.Keys
    && forall id :: id in s.released ==> s.transfers[id].flags.pending
  }

  function Live(s: State): map<Id, Transfer> { s.transfers - s.released }

  /** The four balance fields of a row are the sums of the journal entries that touch it. */
  ghost predicate Journalled(s: State, id: Id)
    requires id in s.accounts
  {
    && s.accounts[id].debitsPosted == Sum(s.transfers, PostedDebits(id))
    && s.accounts[id].creditsPosted == Sum(s.transfers, PostedCredits(id))
    && s.accounts[id].debitsPending == Sum(Live(s), PendingDebits(id))
    && s.accounts[id].creditsPending == Sum(Live(s), PendingCredits(id))
  }

  ghost predicate JournalOK(s: State) {
    forall id :: id in s.accounts ==> Journalled(s, id)
  }

  /** No account breaks the constraint its flags state. */
  predicate WithinLimits(account: Account) {
    && (account.flags.debitsMustNotExceedCredits ==>
          account.debitsPending + account.debitsPosted <= account.creditsPosted)
    && (account.flags.creditsMustNotExceedDebits ==>
          account.creditsPending + account.creditsPosted <= account.debitsPosted)
  }

  predicate LimitsOK(s: State) {
    forall id :: id in s.accounts ==> WithinLimits(s.accounts[id])
  }

  /** Client money is fully backed by safeguarded cash, and holds by the settlement account. */
  ghost predicate SolventOK(s: State) {
    && (CASH in s.accounts ==>
          && s.accounts[CASH].debitsPending == 0 && s.accounts[CASH].creditsPending == 0
          && Sum(s.accounts, WalletPosted()) == -PostedBalance(s.accounts[CASH]))
    && (SETTLEMENT in s.accounts ==>
          && s.accounts[SETTLEMENT].debitsPosted == 0 && s.accounts[SETTLEMENT].creditsPosted == 0
          && s.accounts[SETTLEMENT].debitsPending == 0
          && s.accounts[SETTLEMENT].creditsPending == Sum(s.accounts, CardHolds()))
    && (SETTLEMENT !in s.accounts ==> s.transfers == map[] && Sum(s.accounts, CardHolds()) == 0)
  }

  /** Every debit is somebody's credit. */
  ghost predicate BalancedOK(s: State) {
    Sum(s.accounts, NetPosted()) == 0 && Sum(s.accounts, NetPending()) == 0
  }

  /** What a client family holds is what was paid in for it minus what was paid out. */
  ghost predicate FamiliesOK(s: State) {
    forall c :: c in s.accounts && IsCorporate(s, c) ==>
      Sum(s.accounts, FamilyPosted(c)) == Sum(s.transfers, NetFunding(c))
  }

  ghost predicate Inv(s: State) {
    && AccountsOK(s) && TransfersOK(s) && IDsOK(s)
    && JournalOK(s) && LimitsOK(s) && SolventOK(s) && BalancedOK(s) && FamiliesOK(s)
  }

  lemma EmptyLedger()
    ensures Inv(EMPTY)
  {
  }

  // ----- Growth: what no step undoes -----

  predicate Extends(s: State, s': State) {
    && (forall id :: id in s.accounts ==>
          id in s'.accounts && Definition(s'.accounts[id]) == Definition(s.accounts[id])
          && s'.accounts[id].timestamp == s.accounts[id].timestamp)
    && (forall id :: id in s.transfers ==> id in s'.transfers && s'.transfers[id] == s.transfers[id])
    && s.failed <= s'.failed
    && s.released <= s'.released
    && s.clock <= s'.clock
  }

  lemma ExtendsReflexive(s: State)
    ensures Extends(s, s)
  {
  }

  lemma ExtendsTransitive(s: State, s': State, s'': State)
    requires Extends(s, s') && Extends(s', s'')
    ensures Extends(s, s'')
  {
  }

  /** What the service has learned about an account stays true. */
  lemma MetadataStable(s: State, s': State, id: Id)
    requires Extends(s, s') && CASH in s.accounts && id in s.accounts
    ensures MetadataIn(s', id) == MetadataIn(s, id) && LedgerOf(s') == LedgerOf(s)
  {
  }

  lemma RecipeStable(s: State, s': State, t: Transfer)
    requires Extends(s, s') && Recipe(s, t)
    ensures Recipe(s', t)
  {
  }

  /** Growth that adds no account keeps every account a recipe. */
  lemma AccountsStable(s: State, s': State)
    requires Extends(s, s') && AccountsOK(s) && s'.accounts.Keys == s.accounts.Keys
    ensures AccountsOK(s')
    ensures forall id :: id in s.accounts ==> MetadataIn(s', id) == MetadataIn(s, id)
  {
    forall id | id in s.accounts
      ensures MetadataIn(s', id) == MetadataIn(s, id) && RowOK(s', id)
    {
      RowStable(s, s', id);
    }
  }

  lemma RowStable(s: State, s': State, id: Id)
    requires Extends(s, s') && CASH in s.accounts && id in s.accounts && RowOK(s, id)
    ensures MetadataIn(s', id) == MetadataIn(s, id) && RowOK(s', id)
  {
  }

  /** Transfers stored before the growth are still recipes after it. */
  lemma TransfersStable(s: State, s': State)
    requires Extends(s, s') && TransfersOK(s)
    ensures forall id :: id in s.transfers ==> StoredOK(s', id)
  {
    hide Recipe;
    forall id | id in s.transfers
      ensures StoredOK(s', id)
    {
      assert StoredOK(s, id);
      RecipeStable(s, s', s.transfers[id]);
    }
  }

  lemma RecipeIgnoresTimestamp(s: State, t: Transfer, timestamp: nat)
    ensures Recipe(s, t.(timestamp := timestamp)) == Recipe(s, t)
  {
  }

  // ----- Endpoints of a recipe -----

  /** A recipe always joins two different stored rows, whose kinds the code fixes. */
  predicate Endpoints(s: State, t: Transfer) {
    && t.debit in s.accounts && t.credit in s.accounts && t.debit != t.credit
    && s.accounts[t.debit].id == t.debit && s.accounts[t.credit].id == t.credit
    && var debit, credit := s.accounts[t.debit], s.accounts[t.credit];
       || (t.code == TOP_UP && !t.flags.pending && t.debit == CASH && credit.code == CORPORATE_CODE && t.credit != SETTLEMENT)
       || (t.code == WITHDRAWAL && !t.flags.pending && t.credit == CASH && debit.code == CORPORATE_CODE && t.debit != SETTLEMENT)
       || (t.code == ALLOCATION && !t.flags.pending && debit.code == CORPORATE_CODE && credit.code == CARD_CODE
           && credit.userData128 == t.debit && !IsSystemAccountID(t.debit) && !IsSystemAccountID(t.credit))
       || (t.code == CARD_RETURN && !t.flags.pending && debit.code == CARD_CODE && credit.code == CORPORATE_CODE
           && debit.userData128 == t.credit && !IsSystemAccountID(t.debit) && !IsSystemAccountID(t.credit))
       || ((t.code == AUTHORIZATION || t.code == INCREMENT) && t.flags.pending && debit.code == CARD_CODE
           && t.credit == SETTLEMENT && !IsSystemAccountID(t.debit))
  }

  lemma RecipeEndpoints(s: State, t: Transfer)
    requires AccountsOK(s) && Recipe(s, t)
    ensures Endpoints(s, t)
  {
    if t.debit in s.accounts { assert RowOK(s, t.debit); }
    if t.credit in s.accounts { assert RowOK(s, t.credit); }
  }

  lemma StoredEndpoints(s: State, id: Id)
    requires AccountsOK(s) && TransfersOK(s) && id in s.transfers
    ensures Endpoints(s, s.transfers[id])
  {
    hide Recipe, Endpoints;
    assert StoredOK(s, id);
    RecipeEndpoints(s, s.transfers[id]);
  }

  lemma SystemCodes(s: State)
    requires AccountsOK(s)
    ensures CASH in s.accounts ==> s.accounts[CASH].code == CASH_CODE && s.accounts[CASH].flags == CREDIT_LIMITED
    ensures SETTLEMENT in s.accounts ==> s.accounts[SETTLEMENT].code == SETTLEMENT_CODE
  {
    assert CASH in s.accounts ==> RowOK(s, CASH);
    assert SETTLEMENT in s.accounts ==> RowOK(s, SETTLEMENT);
  }
}
