/** Every ledger command that a well-behaved caller can issue keeps the ledger invariant. */
module LedgerSteps {
  import opened Wrappers
  import opened TigerBeetle
  import opened AccountModel
  import opened Ledger
  import opened Recipes
  import opened Sums
  import opened LedgerInvariant

  // ----- Committing a transfer -----

  /** Any sum over the rows changes by what the two touched rows change. */
  lemma CommitSum(s: State, t: Transfer, weight: Account -> int)
    requires Endpoints(s, t)
    ensures Sum(Commit(s, t).accounts, weight)
         == Sum(s.accounts, weight)
            - weight(s.accounts[t.debit]) + weight(Debited(s.accounts[t.debit], t))
            - weight(s.accounts[t.credit]) + weight(Credited(s.accounts[t.credit], t))
  {
    SumUpdate(s.accounts, t.debit, Debited(s.accounts[t.debit], t), weight);
    SumUpdate(s.accounts[t.debit := Debited(s.accounts[t.debit], t)], t.credit, Credited(s.accounts[t.credit], t), weight);
  }

  lemma CommitExtends(s: State, t: Transfer)
    requires Endpoints(s, t) && t.id !in s.transfers
    ensures Extends(s, Commit(s, t))
    ensures Commit(s, t).accounts.Keys == s.accounts.Keys
  {
  }

  lemma CommitRows(s: State, t: Transfer)
    requires AccountsOK(s) && TransfersOK(s) && IDsOK(s) && Recipe(s, t) && t.id !in s.transfers && t.id !in s.failed
    ensures var s' := Commit(s, t); AccountsOK(s') && TransfersOK(s') && IDsOK(s')
  {
    RecipeEndpoints(s, t);
    CommitExtends(s, t);
    hide Recipe, Endpoints;
    var s' := Commit(s, t);
    AccountsStable(s, s');
    TransfersStable(s, s');
    RecipeStable(s, s', t);
    RecipeIgnoresTimestamp(s', t, s'.clock);
  }

  lemma CommitJournal(s: State, t: Transfer)
    requires Endpoints(s, t) && IDsOK(s) && JournalOK(s) && t.id !in s.transfers
    ensures JournalOK(Commit(s, t))
  {
    var s' := Commit(s, t);
    forall id | id in s'.accounts
      ensures Journalled(s', id)
    {
      CommitJournalled(s, t, id);
    }
  }

  lemma CommitJournalled(s: State, t: Transfer, id: Id)
    requires Endpoints(s, t) && IDsOK(s) && t.id !in s.transfers && id in s.accounts && Journalled(s, id)
    ensures id in Commit(s, t).accounts && Journalled(Commit(s, t), id)
  {
    var s' := Commit(s, t);
    var entry := s'.transfers[t.id];
    assert Live(s') == Live(s)[t.id := entry];
    SumInsert(s.transfers, t.id, entry, PostedDebits(id));
    SumInsert(s.transfers, t.id, entry, PostedCredits(id));
    SumInsert(Live(s), t.id, entry, PendingDebits(id));
    SumInsert(Live(s), t.id, entry, PendingCredits(id));
  }

  lemma CommitLimits(s: State, t: Transfer)
    requires Endpoints(s, t) && LimitsOK(s) && Judge(s, t).TransferCreated?
    ensures LimitsOK(Commit(s, t))
  {
  }

  lemma CommitSolvent(s: State, t: Transfer)
    requires AccountsOK(s) && SolventOK(s) && Recipe(s, t)
    ensures var s' := (RecipeEndpoints(s, t); Commit(s, t)); SolventOK(s')
  {
    RecipeEndpoints(s, t);
    SystemCodes(s);
    CommitSum(s, t, WalletPosted());
    CommitSum(s, t, CardHolds());
  }

  lemma CommitBalanced(s: State, t: Transfer)
    requires Endpoints(s, t) && BalancedOK(s)
    ensures BalancedOK(Commit(s, t))
  {
    CommitSum(s, t, NetPosted());
    CommitSum(s, t, NetPending());
  }

  lemma CommitFamilies(s: State, t: Transfer)
    requires AccountsOK(s) && FamiliesOK(s) && Endpoints(s, t) && t.id !in s.transfers
    ensures FamiliesOK(Commit(s, t))
  {
    CommitExtends(s, t);
    var s' := Commit(s, t);
    AccountsStable(s, s');
    hide Endpoints, MetadataIn, Sum, RowOK, FamilyPosted, NetFunding;
    forall c | c in s'.accounts && IsCorporate(s', c)
      ensures Sum(s'.accounts, FamilyPosted(c)) == Sum(s'.transfers, NetFunding(c))
    {
      assert IsCorporate(s, c);
      CommitFamilySum(s, t, c);
    }
  }

  lemma CommitFamilySum(s: State, t: Transfer, c: Id)
    requires AccountsOK(s) && Endpoints(s, t) && t.id !in s.transfers && c in s.accounts && IsCorporate(s, c)
    requires Sum(s.accounts, FamilyPosted(c)) == Sum(s.transfers, NetFunding(c))
    ensures var s' := Commit(s, t); Sum(s'.accounts, FamilyPosted(c)) == Sum(s'.transfers, NetFunding(c))
  {
    hide AccountsOK, MetadataIn, Sum;
    CommitSum(s, t, FamilyPosted(c));
    SumInsert(s.transfers, t.id, Commit(s, t).transfers[t.id], NetFunding(c));
    CommitFamily(s, t, c);
  }

  /** One commit moves a family's posted total by exactly its net funding. */
  lemma CommitFamily(s: State, t: Transfer, c: Id)
    requires AccountsOK(s) && Endpoints(s, t) && c in s.accounts && IsCorporate(s, c)
    ensures FamilyPosted(c)(Debited(s.accounts[t.debit], t)) - FamilyPosted(c)(s.accounts[t.debit])
            + FamilyPosted(c)(Credited(s.accounts[t.credit], t)) - FamilyPosted(c)(s.accounts[t.credit])
         == NetFunding(c)(t)
  {
    SystemCodes(s);
    assert s.accounts[c].code == CORPORATE_CODE;
  }

  lemma CommitInv(s: State, t: Transfer)
    requires Inv(s) && Recipe(s, t) && t.id !in s.transfers && t.id !in s.failed && Judge(s, t).TransferCreated?
    ensures Inv(Commit(s, t)) && Extends(s, Commit(s, t))
  {
    hide AccountsOK, TransfersOK, IDsOK, JournalOK, LimitsOK, SolventOK, BalancedOK, FamiliesOK;
    RecipeEndpoints(s, t);
    hide Recipe, Endpoints, Extends;
    CommitExtends(s, t);
    CommitRows(s, t);
    CommitJournal(s, t);
    CommitLimits(s, t);
    CommitSolvent(s, t);
    CommitBalanced(s, t);
    CommitFamilies(s, t);
  }

  // ----- Rejections -----

  /** Steps that leave every row, every transfer and every hold alone. */
  lemma SameRowsInv(s: State, s': State)
    requires Inv(s)
    requires s' == s.(failed := s'.failed, clock := s'.clock)
    requires s.failed <= s'.failed && s'.failed !! s.transfers.Keys && s.clock <= s'.clock
    ensures Inv(s') && Extends(s, s')
  {
    AccountsStable(s, s');
    TransfersStable(s, s');
    hide Recipe, MetadataIn, Sum;
    forall i | i in s'.accounts
      ensures Journalled(s', i)
    {
      assert Journalled(s, i);
      assert Live(s') == Live(s);
    }
  }

  lemma WalletsNonNegative(s: State)
    requires AccountsOK(s) && LimitsOK(s)
    ensures forall id :: id in s.accounts ==> WalletPosted()(s.accounts[id]) >= 0
  {
    forall id | id in s.accounts
      ensures WalletPosted()(s.accounts[id]) >= 0
    {
      assert RowOK(s, id) && WithinLimits(s.accounts[id]);
    }
  }

  /** Whatever fits the debited wallet also fits the safeguarded cash behind it. */
  lemma WithdrawalFitsCash(s: State, t: Transfer)
    requires Inv(s) && Recipe(s, t) && t.code == WITHDRAWAL
    requires var wallet := s.accounts[t.debit];
             wallet.debitsPending + wallet.debitsPosted + t.amount <= wallet.creditsPosted
    ensures var cash := s.accounts[CASH]; cash.creditsPending + cash.creditsPosted + t.amount <= cash.debitsPosted
  {
    RecipeEndpoints(s, t);
    WalletsNonNegative(s);
    hide Recipe, MetadataIn, Sum;
    SumBoundsEntry(s.accounts, t.debit, WalletPosted());
  }

  /** The ledger's verdict on an unused ID in any state, and what a rejection leaves behind. */
  lemma UnusedIDIsJudged(s: State, t: Transfer)
    requires t.id !in s.transfers && t.id !in s.failed
    ensures (var s', status := CreateTransfer(s, t).0, CreateTransfer(s, t).1.status;
             && (status.TransferDebitAccountNotFound? <==> t.debit !in s.accounts)
             && (status.TransferCreditAccountNotFound? <==> t.debit in s.accounts && t.credit !in s.accounts)
             && (status.TransferOverflowsDebits? <==>
                   t.debit in s.accounts && t.credit in s.accounts && t.amount > 18_446_744_073_709_551_615)
             && (status.TransferCreated? <==> t.id in s'.transfers)
             && (status.TransferOverflowsDebits? ==> s' == s)
             && (!status.TransferCreated? && !status.TransferOverflowsDebits? ==> s' == s.(failed := s.failed + {t.id})))
  {
    hide Debited, Credited;
  }

  /** A used ID changes nothing: a failed one is told so, a stored one is compared, and only an equal one reports its
      timestamp. A timeout is blamed before everything but the flags, and a blamed field does differ. */
  lemma UsedIDIsCompared(s: State, t: Transfer)
    requires t.id in s.failed || t.id in s.transfers
    ensures CreateTransfer(s, t).0 == s
    ensures t.id in s.failed ==> CreateTransfer(s, t).1 == TransferResult(TransferIDAlreadyFailed, 0)
    ensures t.id !in s.failed ==>
              (var stored, r := s.transfers[t.id], CreateTransfer(s, t).1;
               && r.timestamp == (if r.status.TransferExists? then stored.timestamp else 0)
               && (r.status == TransferExistsWithDifferent(TTimeout) <==> stored.flags == t.flags && stored.timeout != t.timeout)
               && match r.status
                  case TransferExistsWithDifferent(TFlags) => stored.flags != t.flags
                  case TransferExistsWithDifferent(TTimeout) => stored.timeout != t.timeout
                  case TransferExistsWithDifferent(TDebit) => stored.debit != t.debit
                  case TransferExistsWithDifferent(TCredit) => stored.credit != t.credit
                  case TransferExistsWithDifferent(TAmount) => stored.amount != t.amount
                  case TransferExistsWithDifferent(TUserData128) => stored.userData128 != t.userData128
                  case TransferExistsWithDifferent(TUserData64) => stored.userData64 != t.userData64
                  case TransferExistsWithDifferent(TUserData32) => stored.userData32 != t.userData32
                  case TransferExistsWithDifferent(TPendingID) => stored.pendingID != t.pendingID
                  case TransferExistsWithDifferent(TLedger) => stored.ledger != t.ledger
                  case TransferExistsWithDifferent(TCode) => stored.code != t.code
                  case status => status == TransferExists)
  {
  }

  /** An account that exists is "the same" if and only if every field that can never change is, and a blamed field does
      differ. */
  lemma AccountsCompareExactly(existing: Account, account: Account)
    requires existing.id == account.id
    ensures CompareAccounts(existing, account).AccountExists? <==> Definition(existing) == Definition(account)
    ensures match CompareAccounts(existing, account)
            case AccountExistsWithDifferent(AFlags) => existing.flags != account.flags
            case AccountExistsWithDifferent(AUserData128) => existing.userData128 != account.userData128
            case AccountExistsWithDifferent(AUserData64) => existing.userData64 != account.userData64
            case AccountExistsWithDifferent(AUserData32) => existing.userData32 != account.userData32
            case AccountExistsWithDifferent(ALedger) => existing.ledger != account.ledger
            case AccountExistsWithDifferent(ACode) => existing.code != account.code
            case status => status == AccountExists
    ensures forall s: State :: account.id in s.accounts && s.accounts[account.id] == existing ==>
              (var r := CreateAccount(s, account).1;
               CreateAccount(s, account).0 == s && r.timestamp == if r.status.AccountExists? then existing.timestamp else 0)
  {
  }

  /** A recipe is only ever rejected because its debited wallet lacks available funds. */
  lemma OnlyFundsReject(s: State, t: Transfer)
    requires Inv(s) && Recipe(s, t)
    ensures Judge(s, t).TransferCreated? || Judge(s, t).TransferExceedsCredits?
    ensures t.debit in s.accounts
    ensures Judge(s, t).TransferExceedsCredits? <==>
            t.debit != CASH && s.accounts[t.debit].debitsPending + s.accounts[t.debit].debitsPosted + t.amount
                               > s.accounts[t.debit].creditsPosted
  {
    RecipeEndpoints(s, t);
    SystemCodes(s);
    assert RowOK(s, t.debit) && RowOK(s, t.credit);
    if t.code == WITHDRAWAL && !Judge(s, t).TransferExceedsCredits? {
      WithdrawalFitsCash(s, t);
    }
  }

  lemma CreateTransferInv(s: State, t: Transfer)
    requires Inv(s) && Recipe(s, t)
    ensures var s' := CreateTransfer(s, t).0; Inv(s') && Extends(s, s')
  {
    ExtendsReflexive(s);
    hide AccountsOK, TransfersOK, JournalOK, LimitsOK, SolventOK, BalancedOK, FamiliesOK, Recipe, Judge, Extends;
    if t.id !in s.failed && t.id !in s.transfers {
      OnlyFundsReject(s, t);
      if Judge(s, t).TransferCreated? {
        CommitInv(s, t);
      } else {
        SameRowsInv(s, Burn(s, t.id));
      }
    }
  }

  // ----- Holds expiring -----

  /** Once a live hold's timeout has passed, the ledger can release it: both rows still count its amount. */
  lemma ExpiredHoldIsDue(s: State, id: Id)
    requires Inv(s) && id in s.transfers && id !in s.released
    requires var t := s.transfers[id]; t.flags.pending && t.timeout != 0 && s.clock >= t.timestamp + t.timeout * SECOND
    ensures Due(s, id)
  {
    StoredEndpoints(s, id);
    HoldIsCounted(s, id);
  }

  lemma HoldIsCounted(s: State, id: Id)
    requires JournalOK(s) && id in s.transfers && id !in s.released
    requires Endpoints(s, s.transfers[id]) && s.transfers[id].flags.pending
    ensures s.accounts[s.transfers[id].debit].debitsPending >= s.transfers[id].amount
    ensures s.accounts[s.transfers[id].credit].creditsPending >= s.transfers[id].amount
  {
    var t := s.transfers[id];
    assert Journalled(s, t.debit) && Journalled(s, t.credit);
    assert Live(s)[id] == t;
    SumBoundsEntry(Live(s), id, PendingDebits(t.debit));
    SumBoundsEntry(Live(s), id, PendingCredits(t.credit));
  }

  lemma ReleaseSum(s: State, id: Id, weight: Account -> int)
    requires Due(s, id) && s.transfers[id].debit != s.transfers[id].credit
    ensures (var t, s' := s.transfers[id], Release(s, id);
             Sum(s'.accounts, weight)
             == Sum(s.accounts, weight) - weight(s.accounts[t.debit]) + weight(s'.accounts[t.debit])
                - weight(s.accounts[t.credit]) + weight(s'.accounts[t.credit]))
  {
    var t, s' := s.transfers[id], Release(s, id);
    SumUpdate(s.accounts, t.debit, s'.accounts[t.debit], weight);
    SumUpdate(s.accounts[t.debit := s'.accounts[t.debit]], t.credit, s'.accounts[t.credit], weight);
  }

  lemma ReleaseJournalled(s: State, id: Id, a: Id)
    requires Due(s, id) && Endpoints(s, s.transfers[id]) && IDsOK(s) && a in s.accounts && Journalled(s, a)
    ensures a in Release(s, id).accounts && Journalled(Release(s, id), a)
  {
    var s' := Release(s, id);
    assert Live(s') == Live(s) - {id} && Live(s)[id] == s.transfers[id];
    SumRemove(Live(s), id, PendingDebits(a));
    SumRemove(Live(s), id, PendingCredits(a));
  }

  lemma ReleaseSolvent(s: State, id: Id)
    requires Due(s, id) && Endpoints(s, s.transfers[id]) && AccountsOK(s) && SolventOK(s) && BalancedOK(s)
    ensures SolventOK(Release(s, id)) && BalancedOK(Release(s, id))
  {
    SystemCodes(s);
    ReleaseSum(s, id, WalletPosted());
    ReleaseSum(s, id, CardHolds());
    ReleaseSum(s, id, NetPosted());
    ReleaseSum(s, id, NetPending());
  }

  lemma ReleaseFamilies(s: State, id: Id)
    requires Due(s, id) && Endpoints(s, s.transfers[id]) && AccountsOK(s) && FamiliesOK(s)
    requires Extends(s, Release(s, id))
    ensures FamiliesOK(Release(s, id))
  {
    var s' := Release(s, id);
    AccountsStable(s, s');
    hide MetadataIn, Sum;
    forall c | c in s'.accounts && IsCorporate(s', c)
      ensures Sum(s'.accounts, FamilyPosted(c)) == Sum(s'.transfers, NetFunding(c))
    {
      assert IsCorporate(s, c);
      ReleaseSum(s, id, FamilyPosted(c));
    }
  }

  lemma ReleaseExtends(s: State, id: Id)
    requires Due(s, id) && Endpoints(s, s.transfers[id]) && LimitsOK(s)
    ensures Extends(s, Release(s, id)) && LimitsOK(Release(s, id))
    ensures Release(s, id).accounts.Keys == s.accounts.Keys
  {
  }

  lemma ReleaseJournal(s: State, id: Id)
    requires Due(s, id) && Endpoints(s, s.transfers[id]) && IDsOK(s) && JournalOK(s)
    ensures JournalOK(Release(s, id))
  {
    forall a | a in Release(s, id).accounts
      ensures Journalled(Release(s, id), a)
    {
      ReleaseJournalled(s, id, a);
    }
  }

  lemma ReleaseRows(s: State, id: Id)
    requires Due(s, id) && Endpoints(s, s.transfers[id]) && AccountsOK(s) && TransfersOK(s) && IDsOK(s) && LimitsOK(s)
    ensures var s' := Release(s, id); AccountsOK(s') && TransfersOK(s') && IDsOK(s')
  {
    ReleaseExtends(s, id);
    hide StoredOK, Endpoints;
    AccountsStable(s, Release(s, id));
    TransfersStable(s, Release(s, id));
  }

  /** Releasing an expired hold keeps the invariant, and the ledger forgets neither row nor transfer. */
  lemma ReleaseInv(s: State, id: Id)
    requires Inv(s) && Due(s, id)
    ensures Inv(Release(s, id)) && Extends(s, Release(s, id))
  {
    hide AccountsOK, TransfersOK, IDsOK, JournalOK, LimitsOK, SolventOK, BalancedOK, FamiliesOK, Endpoints, Extends;
    StoredEndpoints(s, id);
    ReleaseExtends(s, id);
    ReleaseRows(s, id);
    ReleaseJournal(s, id);
    ReleaseSolvent(s, id);
    ReleaseFamilies(s, id);
  }

  // ----- Opening an account -----

  /** An account definition that the service may submit in `s`: one of the four recipes, in provisioning order,
      with an existing corporate parent for a card. */
  predicate LegalAccount(s: State, a: Account) {
    && (a.id != CASH ==> CASH in s.accounts && a.ledger == LedgerOf(s))
    && (|| AccountRecipe(SafeguardedCash, CASH, 0, a.ledger) == Ok(a)
        || AccountRecipe(CardSettlementPayable, SETTLEMENT, 0, a.ledger) == Ok(a)
        || (ValidAccountID(a.id) && AccountRecipe(CorporateWallet, a.id, 0, a.ledger) == Ok(a))
        || (ValidAccountID(a.id) && AccountRecipe(CardWallet, a.id, a.userData128, a.ledger) == Ok(a)
            && IsCorporate(s, a.userData128)))
  }

  lemma LegalAccountStable(s: State, s': State, a: Account)
    requires Extends(s, s') && LegalAccount(s, a)
    ensures LegalAccount(s', a)
  {
  }

  function WithAccount(s: State, a: Account): State {
    s.(accounts := s.accounts[a.id := a.(timestamp := s.clock + 1)], clock := s.clock + 1)
  }

  lemma OpenRows(s: State, a: Account)
    requires AccountsOK(s) && TransfersOK(s) && LegalAccount(s, a) && a.id !in s.accounts
    ensures Extends(s, WithAccount(s, a)) && AccountsOK(WithAccount(s, a)) && TransfersOK(WithAccount(s, a))
  {
    var s' := WithAccount(s, a);
    assert Extends(s, s');
    OpenedRow(s, a);
    forall id | id in s.accounts
      ensures RowOK(s', id)
    {
      assert RowOK(s, id);
      RowStable(s, s', id);
    }
    hide RowOK, StoredOK;
    TransfersStable(s, s');
  }

  lemma OpenedRow(s: State, a: Account)
    requires AccountsOK(s) && LegalAccount(s, a) && a.id !in s.accounts
    ensures RowOK(WithAccount(s, a), a.id)
    ensures MetadataIn(WithAccount(s, a), a.id) == Some(Metadata(KindOfCode(a.code).value, a.userData128))
  {
  }

  /** No stored transfer touches an account that does not exist yet. */
  lemma Untouched(s: State, id: Id)
    requires AccountsOK(s) && TransfersOK(s) && id !in s.accounts
    ensures Sum(s.transfers, PostedDebits(id)) == 0 && Sum(s.transfers, PostedCredits(id)) == 0
    ensures Sum(Live(s), PendingDebits(id)) == 0 && Sum(Live(s), PendingCredits(id)) == 0
    ensures Sum(s.transfers, NetFunding(id)) == 0
  {
    hide AccountsOK, TransfersOK;
    forall i | i in s.transfers
      ensures s.transfers[i].debit != id && s.transfers[i].credit != id
    {
      StoredEndpoints(s, i);
    }
    SumZero(s.transfers, PostedDebits(id));
    SumZero(s.transfers, PostedCredits(id));
    SumZero(Live(s), PendingDebits(id));
    SumZero(Live(s), PendingCredits(id));
    SumZero(s.transfers, NetFunding(id));
  }

  lemma OpenJournal(s: State, a: Account)
    requires AccountsOK(s) && TransfersOK(s) && JournalOK(s) && LegalAccount(s, a) && a.id !in s.accounts
    ensures JournalOK(WithAccount(s, a))
  {
    Untouched(s, a.id);
    var s' := WithAccount(s, a);
    assert Live(s') == Live(s);
    hide AccountsOK, TransfersOK, Sum, MetadataIn;
    forall id | id in s'.accounts
      ensures Journalled(s', id)
    {
      if id != a.id { assert Journalled(s, id); }
    }
  }

  lemma NewRowIsEmpty(s: State, a: Account)
    requires AccountsOK(s) && LegalAccount(s, a) && a.id !in s.accounts
    ensures a.debitsPending == a.debitsPosted == a.creditsPending == a.creditsPosted == 0
    ensures a.id == CASH ==> s.accounts == map[]
  {
  }

  lemma OpenSolvent(s: State, a: Account)
    requires AccountsOK(s) && SolventOK(s) && BalancedOK(s) && LegalAccount(s, a) && a.id !in s.accounts
    ensures SolventOK(WithAccount(s, a)) && BalancedOK(WithAccount(s, a))
  {
    NewRowIsEmpty(s, a);
    hide AccountsOK, LegalAccount;
    var row := a.(timestamp := s.clock + 1);
    SumInsert(s.accounts, a.id, row, WalletPosted());
    SumInsert(s.accounts, a.id, row, CardHolds());
    SumInsert(s.accounts, a.id, row, NetPosted());
    SumInsert(s.accounts, a.id, row, NetPending());
  }

  lemma OpenFamilies(s: State, a: Account)
    requires AccountsOK(s) && TransfersOK(s) && FamiliesOK(s) && LegalAccount(s, a) && a.id !in s.accounts
    ensures FamiliesOK(WithAccount(s, a))
  {
    var s' := WithAccount(s, a);
    OpenRows(s, a);
    hide LegalAccount, AccountsOK, TransfersOK, Sum, FamilyPosted, NetFunding;
    forall c | c in s'.accounts && IsCorporate(s', c)
      ensures Sum(s'.accounts, FamilyPosted(c)) == Sum(s'.transfers, NetFunding(c))
    {
      if c == a.id {
        OpenNewFamily(s, a);
      } else {
        MetadataStable(s, s', c);
        OpenOldFamily(s, a, c);
      }
    }
  }

  lemma OpenNewFamily(s: State, a: Account)
    requires AccountsOK(s) && TransfersOK(s) && LegalAccount(s, a) && a.id !in s.accounts
    ensures Sum(WithAccount(s, a).accounts, FamilyPosted(a.id)) == Sum(s.transfers, NetFunding(a.id))
  {
    Untouched(s, a.id);
    var rows := WithAccount(s, a).accounts;
    forall id | id in rows
      ensures FamilyPosted(a.id)(rows[id]) == 0
    {
      if id in s.accounts { assert RowOK(s, id); }
    }
    SumZero(rows, FamilyPosted(a.id));
  }

  lemma OpenOldFamily(s: State, a: Account, c: Id)
    requires AccountsOK(s) && LegalAccount(s, a) && a.id !in s.accounts
    requires Sum(s.accounts, FamilyPosted(c)) == Sum(s.transfers, NetFunding(c))
    ensures Sum(WithAccount(s, a).accounts, FamilyPosted(c)) == Sum(s.transfers, NetFunding(c))
  {
    NewRowIsEmpty(s, a);
    SumInsert(s.accounts, a.id, a.(timestamp := s.clock + 1), FamilyPosted(c));
  }

  lemma OpenInv(s: State, a: Account)
    requires Inv(s) && LegalAccount(s, a) && a.id !in s.accounts
    ensures Inv(WithAccount(s, a)) && Extends(s, WithAccount(s, a))
  {
    OpenLimits(s, a);
    hide AccountsOK, TransfersOK, JournalOK, LimitsOK, SolventOK, BalancedOK, FamiliesOK, LegalAccount, Extends;
    OpenRows(s, a);
    OpenJournal(s, a);
    OpenSolvent(s, a);
    OpenFamilies(s, a);
  }

  lemma OpenLimits(s: State, a: Account)
    requires LimitsOK(s) && LegalAccount(s, a)
    ensures LimitsOK(WithAccount(s, a))
  {
  }

  lemma CreateAccountInv(s: State, a: Account)
    requires Inv(s) && LegalAccount(s, a)
    ensures Inv(CreateAccount(s, a).0) && Extends(s, CreateAccount(s, a).0)
  {
    hide Inv, LegalAccount;
    if a.id !in s.accounts {
      OpenInv(s, a);
    }
  }

  /** "Created" and "exists" both mean that the ledger now holds exactly the submitted definition. */
  lemma CreateAccountOutcome(s: State, a: Account)
    requires Inv(s) && LegalAccount(s, a)
    ensures (var r, s' := CreateAccount(s, a).1, CreateAccount(s, a).0;
             && a.id in s'.accounts
             && (r.status.AccountCreated? || r.status.AccountExists? <==> Definition(s'.accounts[a.id]) == a)
             && (r.status.AccountCreated? || r.status.AccountExists? ==> r.timestamp == s'.accounts[a.id].timestamp))
  {
    if a.id in s.accounts { assert RowOK(s, a.id); }
  }
}
