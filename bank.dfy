/**
  The mutable `Bank` of src/bank.rs. Like the `HashMap<u16, Account>` it
  models, the bank owns each account by value: a handler borrows the
  client's account as an `Account` object, runs one of its methods, and
  stores the result back. Each handler is proved to change the bank exactly
  as the ledger function of `Ledgers` for that handler, and to keep the
  ledger invariant of `LedgerInvariant`.
*/
module Banks {
  import opened Wrappers
  import opened Amounts
  import opened Transactions
  import opened Accounts
  import opened Ledgers
  import opened LedgerInvariant

  class Bank {
    /** Current state of every account, by client. */
    var accounts: map<ClientId, Balance>
    /** Every deposit with an amount, by tx id, for later disputes. */
    var transactions: map<TxId, Transaction>
    /** The deposits now under dispute, by tx id. */
    var disputes: map<TxId, Transaction>

    /** The bank's state as a ledger value. */
    function Model(): Ledger
      reads this
    {
      Ledger(accounts, transactions, disputes)
    }

    /** The bank's state satisfies the ledger invariant. */
    ghost predicate Valid()
      reads this
    {
      Inv(Model())
    }

    /** `Bank::new()`: no accounts, no deposits, no disputes. */
    constructor ()
      ensures Valid() && Model() == Empty
    {
      accounts := map[];
      transactions := map[];
      disputes := map[];
      EmptyInv();
    }

    /** `accounts_iter`, in scaled units: one row per account, as `Snapshot` gives it. */
    function AccountsIter(): (s: map<ClientId, Row>)
      reads this
      ensures s.Keys == accounts.Keys
      ensures forall c | c in s ::
        && s[c].available == accounts[c].available.scaled
        && s[c].held == accounts[c].held.scaled
        && s[c].total == s[c].available + s[c].held
        && s[c].locked == accounts[c].locked
    {
      Snapshot(Model())
    }

    /** `process_transaction`: apply one record, as `Process` says. */
    method ProcessTransaction(t: Transaction)
      requires Valid()
      modifies this
      ensures Valid()
      ensures Model() == Process(old(Model()), t)
    {
      match t.kind
      case Deposit => ProcessDeposit(t);
      case Withdrawal => ProcessWithdrawal(t);
      case Dispute => ProcessDispute(t);
      case Resolve => ProcessResolve(t);
      case Chargeback => ProcessChargeback(t);
    }

    /**
      `process_deposit` (only ever given deposit records): the client's
      account, opened empty if the client had none, is credited and the
      record kept.
    */
    method ProcessDeposit(t: Transaction)
      requires Valid() && t.kind == Deposit
      modifies this
      ensures Valid()
      ensures Model() == AfterDeposit(old(Model()), t)
    {
      ghost var next := AfterDeposit(Model(), t);
      DepositPreservesInv(Model(), t);
      if t.amount.Some? {
        var account: Account;
        if t.client in accounts {
          account := new Account.Of(accounts[t.client]);
        } else {
          account := new Account();
        }
        account.Credit(t.amount.value);
        accounts := accounts[t.client := account.Value()];
        transactions := transactions[t.tx := t];
      }
      assert Model() == next;
    }

    /** `process_withdrawl`: a failed debit is ignored. */
    method ProcessWithdrawal(t: Transaction)
      requires Valid()
      modifies this
      ensures Valid()
      ensures Model() == AfterWithdrawal(old(Model()), t)
    {
      ghost var next := AfterWithdrawal(Model(), t);
      WithdrawalPreservesInv(Model(), t);
      if t.client in accounts {
        if t.amount.Some? {
          var account := new Account.Of(accounts[t.client]);
          var ignored := account.TryDebit(t.amount.value);
          accounts := accounts[t.client := account.Value()];
        }
      }
      assert Model() == next;
    }

    /** `process_dispute`: the dispute is recorded only when the hold succeeded. */
    method ProcessDispute(t: Transaction)
      requires Valid()
      modifies this
      ensures Valid()
      ensures Model() == AfterDispute(old(Model()), t)
    {
      ghost var next := AfterDispute(Model(), t);
      DisputePreservesInv(Model(), t);
      if t.tx in transactions {
        var deposit := transactions[t.tx];
        if deposit.client in accounts {
          var account := new Account.Of(accounts[deposit.client]);
          var outcome := account.TryDispute(deposit.amount.value);
          accounts := accounts[deposit.client := account.Value()];
          if outcome.Ok? {
            disputes := disputes[t.tx := deposit];
          }
        }
      }
      assert Model() == next;
    }

    /** `process_resolve`: the dispute is removed first; a failed release is ignored. */
    method ProcessResolve(t: Transaction)
      requires Valid()
      modifies this
      ensures Valid()
      ensures Model() == AfterResolve(old(Model()), t)
    {
      ghost var next := AfterResolve(Model(), t);
      ResolvePreservesInv(Model(), t);
      if t.tx in disputes {
        var deposit := disputes[t.tx];
        disputes := disputes - {t.tx};
        if deposit.client in accounts {
          var account := new Account.Of(accounts[deposit.client]);
          var ignored := account.TryResolve(deposit.amount.value);
          accounts := accounts[deposit.client := account.Value()];
        }
      }
      assert Model() == next;
    }

    /** `process_chargeback`: the dispute is removed first; a failed chargeback is ignored. */
    method ProcessChargeback(t: Transaction)
      requires Valid()
      modifies this
      ensures Valid()
      ensures Model() == AfterChargeback(old(Model()), t)
    {
      ghost var next := AfterChargeback(Model(), t);
      ChargebackPreservesInv(Model(), t);
      if t.tx in disputes {
        var deposit := disputes[t.tx];
        disputes := disputes - {t.tx};
        if deposit.client in accounts {
          var account := new Account.Of(accounts[deposit.client]);
          var ignored := account.TryChargeback(deposit.amount.value);
          accounts := accounts[deposit.client := account.Value()];
        }
      }
      assert Model() == next;
    }
  }

  /**
    The loop of src/main.rs: every record of the stream, in arrival order,
    through one bank.
  */
  method ProcessStream(bank: Bank, ts: seq<Transaction>)
    requires bank.Valid()
    modifies bank
    ensures bank.Valid()
    ensures bank.Model() == ProcessAll(old(bank.Model()), ts)
  {
    for i := 0 to |ts|
      invariant bank.Valid()
      invariant bank.Model() == ProcessAll(old(bank.Model()), ts[..i])
    {
      assert ts[..i + 1][..i] == ts[..i];
      bank.ProcessTransaction(ts[i]);
    }
    assert ts[..|ts|] == ts;
  }
}
