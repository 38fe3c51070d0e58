/** The ledger as an object that updates its tables in place, and the commands other parties may slip in. */
module SharedLedger {
  import opened TigerBeetle
  import L = Ledger
  import opened Recipes
  import opened LedgerInvariant
  import opened LedgerSteps

  /** What other well-behaved requests, or time, may do to the ledger between two calls of a request. */
  datatype Command = OpenRow(row: Account) | Post(transfer: Transfer) | ReleaseHold(hold: Id) | PassTime(clock: nat)

  predicate Legal(s: L.State, c: Command) {
    match c
    case OpenRow(row) => LegalAccount(s, row)
    case Post(t) => Recipe(s, t)
    case ReleaseHold(hold) => L.Due(s, hold)
    case PassTime(clock) => s.clock <= clock
  }

  class Tables {
    var accounts: map<Id, Account>
    var transfers: map<Id, Transfer>
    var failed: set<Id>
    var released: set<Id>
    var timestamp: nat

    ghost function Value(): L.State
      reads this
    {
      L.State(accounts, transfers, failed, released, timestamp)
    }

    constructor ()
      ensures Value() == L.EMPTY
    {
      accounts, transfers, failed, released, timestamp := map[], map[], {}, {}, 0;
    }

    method CreateAccount(account: Account) returns (r: AccountResult)
      modifies this
      ensures (Value(), r) == L.CreateAccount(old(Value()), account)
    {
      if account.id in accounts {
        var existing := accounts[account.id];
        var status := L.CompareAccounts(existing, account);
        return AccountResult(status, if status.AccountExists? then existing.timestamp else 0);
      }
      timestamp := timestamp + 1;
      accounts := accounts[account.id := account.(timestamp := timestamp)];
      return AccountResult(AccountCreated, timestamp);
    }

    method CreateTransfer(t: Transfer) returns (r: TransferResult)
      modifies this
      ensures (Value(), r) == L.CreateTransfer(old(Value()), t)
    {
      if t.id in failed {
        return TransferResult(TransferIDAlreadyFailed, 0);
      }
      if t.id in transfers {
        var existing := transfers[t.id];
        var status := L.CompareTransfers(existing, t);
        return TransferResult(status, if status.TransferExists? then existing.timestamp else 0);
      }
      if t.debit !in accounts {
        failed := failed + {t.id};
        return TransferResult(TransferDebitAccountNotFound, 0);
      }
      if t.credit !in accounts {
        failed := failed + {t.id};
        return TransferResult(TransferCreditAccountNotFound, 0);
      }
      if t.amount >= UINT64 {
        return TransferResult(TransferOverflowsDebits, 0);
      }
      var debit, credit := accounts[t.debit], accounts[t.credit];
      if debit.flags.debitsMustNotExceedCredits
         && debit.debitsPending + debit.debitsPosted + t.amount > debit.creditsPosted {
        failed := failed + {t.id};
        return TransferResult(TransferExceedsCredits, 0);
      }
      if credit.flags.creditsMustNotExceedDebits
         && credit.creditsPending + credit.creditsPosted + t.amount > credit.debitsPosted {
        failed := failed + {t.id};
        return TransferResult(TransferExceedsDebits, 0);
      }
      timestamp := timestamp + 1;
      accounts := accounts[debit.id := L.Debited(debit, t)];
      accounts := accounts[credit.id := L.Credited(credit, t)];
      transfers := transfers[t.id := t.(timestamp := timestamp)];
      return TransferResult(TransferCreated, timestamp);
    }

    /** The ledger's own expiry of a hold. */
    method Release(hold: Id)
      requires L.Due(Value(), hold)
      modifies this
      ensures Value() == L.Release(old(Value()), hold)
    {
      var t := transfers[hold];
      var debit, credit := accounts[t.debit], accounts[t.credit];
      accounts := accounts
        [t.debit := debit.(debitsPending := debit.debitsPending - t.amount)]
        [t.credit := credit.(creditsPending := credit.creditsPending - t.amount)];
      released := released + {hold};
    }

    /** One command of another party; what it may not do, it does not. */
    method Obey(c: Command)
      requires Inv(Value())
      modifies this
      ensures Inv(Value()) && Extends(old(Value()), Value())
    {
      hide Inv, Extends, LegalAccount, Recipe, L.CreateAccount, L.CreateTransfer;
      var s := L.State(accounts, transfers, failed, released, timestamp);
      ExtendsReflexive(s);
      if Legal(s, c) {
        match c
        case OpenRow(row) =>
          CreateAccountInv(s, row);
          var _ := CreateAccount(row);
        case Post(t) =>
          CreateTransferInv(s, t);
          var _ := CreateTransfer(t);
        case ReleaseHold(hold) =>
          ReleaseInv(s, hold);
          Release(hold);
        case PassTime(clock) =>
          PassTimeInv(s, clock);
          timestamp := clock;
      }
    }
  }

  lemma PassTimeInv(s: L.State, clock: nat)
    requires Inv(s) && s.clock <= clock
    ensures Inv(s.(clock := clock)) && Extends(s, s.(clock := clock))
  {
    SameRowsInv(s, s.(clock := clock));
  }
}
