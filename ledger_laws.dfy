/**
  Laws about several records in a row, stated on the ledger value that
  `Banks.Bank` is proved to follow: which clients have accounts, what a
  settled dispute leaves behind, and the dispute round trips at the level
  of the whole bank.
*/
module LedgerLaws {
  import opened Wrappers
  import opened Amounts
  import opened Transactions
  import opened Accounts
  import opened Ledgers
  import opened LedgerInvariant

  /** The clients named by a deposit that carries an amount, among `ts`. */
  function Depositors(ts: seq<Transaction>): (cs: set<ClientId>)
    ensures forall i | 0 <= i < |ts| && ts[i].kind == Deposit && ts[i].amount.Some? :: ts[i].client in cs
    ensures forall c | c in cs :: exists i :: 0 <= i < |ts| && ts[i].kind == Deposit && ts[i].amount.Some? && ts[i].client == c
  {
    set i | 0 <= i < |ts| && ts[i].kind == Deposit && ts[i].amount.Some? :: ts[i].client
  }

  /** A deposit with an amount appended to `ts` adds its client; any other record adds nobody. */
  lemma DepositorsSnoc(ts: seq<Transaction>, t: Transaction)
    ensures Depositors(ts + [t]) == Depositors(ts) + (if t.kind == Deposit && t.amount.Some? then {t.client} else {})
  {
    var ts' := ts + [t];
    forall c | c in Depositors(ts')
      ensures c in Depositors(ts) || (t.kind == Deposit && t.amount.Some? && c == t.client)
    {
      var i :| 0 <= i < |ts'| && ts'[i].kind == Deposit && ts'[i].amount.Some? && ts'[i].client == c;
      if i < |ts| {
        assert ts[i] == ts'[i];
      }
    }
    forall c | c in Depositors(ts) ensures c in Depositors(ts') {
      var i :| 0 <= i < |ts| && ts[i].kind == Deposit && ts[i].amount.Some? && ts[i].client == c;
      assert ts'[i] == ts[i];
    }
    if t.kind == Deposit && t.amount.Some? {
      assert ts'[|ts|] == t;
    }
  }

  /**
    Starting from `Bank::new()`, the bank has an account for a client
    exactly when some deposit with an amount named that client: withdrawals
    and disputes never open one, and nothing ever closes one.
  */
  lemma {:induction false} AccountsAreDepositors(ts: seq<Transaction>)
    ensures ProcessAll(Empty, ts).accounts.Keys == Depositors(ts)
    decreases |ts|
  {
    if ts != [] {
      var front := ts[..|ts| - 1];
      var last := ts[|ts| - 1];
      assert ts == front + [last];
      AccountsAreDepositors(front);
      DepositorsSnoc(front, last);
      var l := ProcessAll(Empty, front);
      assert ProcessAll(Empty, ts) == Process(l, last);
      if last.kind == Deposit {
        assert Process(l, last) == AfterDeposit(l, last);
      }
    }
  }

  /**
    Resolve and chargeback close a dispute for good: once one of them has
    been processed for tx `k`, a second resolve or chargeback for `k`
    changes nothing.
  */
  lemma SettleIsFinal(l: Ledger, t: Transaction, u: Transaction)
    requires WellFormed(l)
    requires t.kind.Resolve? || t.kind.Chargeback?
    requires u.kind.Resolve? || u.kind.Chargeback?
    requires t.tx == u.tx
    ensures Process(Process(l, t), u) == Process(l, t)
  {
    var r := Process(l, t);
    assert t.tx !in r.disputes;
  }

  /**
    At the level of the bank: a dispute of a deposit not yet under dispute,
    then its resolve, leaves every account and the dispute list as they
    were, whether or not the dispute could be held.
  */
  lemma DisputeThenResolveRestores(l: Ledger, d: Transaction, u: Transaction)
    requires Inv(l)
    requires d.kind.Dispute? && u.kind.Resolve? && d.tx == u.tx
    requires d.tx !in l.disputes
    ensures Process(Process(l, d), u) == l
  {
    var r := AfterDispute(l, d);
    if r != l {
      var deposit := l.transactions[d.tx];
      var b := l.accounts[deposit.client];
      DisputeThenResolve(b, deposit.amount.value);
      var s := AfterResolve(r, u);
      assert s.accounts == l.accounts by {
        forall c | c in l.accounts ensures s.accounts[c] == l.accounts[c] {
        }
      }
      assert s.disputes == l.disputes;
    }
  }

  /**
    At the level of the bank: a dispute of a deposit not yet under dispute,
    then its chargeback. When the hold succeeded, the deposit's client has
    lost exactly the deposit's amount from the total and is locked, with
    held as before the dispute; every other account is unchanged and the
    dispute list is as before.
  */
  lemma DisputeThenChargebackRemoves(l: Ledger, d: Transaction, u: Transaction)
    requires Inv(l)
    requires d.kind.Dispute? && u.kind.Chargeback? && d.tx == u.tx
    requires d.tx in l.transactions && d.tx !in l.disputes
    ensures var deposit := l.transactions[d.tx];
      var s := Process(Process(l, d), u);
      && s.disputes == l.disputes
      && s.accounts.Keys == l.accounts.Keys
      && (forall c | c in l.accounts && c != deposit.client :: s.accounts[c] == l.accounts[c])
      && (Disputed(l.accounts[deposit.client], deposit.amount.value).Some? ==>
            && s.accounts[deposit.client].locked
            && s.accounts[deposit.client].held == l.accounts[deposit.client].held
            && TotalOf(s.accounts[deposit.client]).scaled + deposit.amount.value.scaled
               == TotalOf(l.accounts[deposit.client]).scaled)
  {
    var deposit := l.transactions[d.tx];
    var v := deposit.amount.value;
    var b := l.accounts[deposit.client];
    var r := AfterDispute(l, d);
    var s := AfterChargeback(r, u);
    assert Process(Process(l, d), u) == s;
    if Disputed(b, v).Some? {
      DisputeThenChargeback(b, v);
      assert r.disputes[d.tx] == deposit;
      assert r.accounts[deposit.client] == Disputed(b, v).value;
      assert s.accounts[deposit.client] == ChargedBack(Disputed(b, v).value, v).value;
      assert s.disputes == l.disputes;
    } else {
      assert r == l;
    }
  }
}
