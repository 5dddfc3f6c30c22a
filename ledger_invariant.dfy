/**
  What every ledger reachable from `Bank::new()` satisfies. Beyond the
  stored amounts that make `unwrap()` safe, every stored record belongs to
  an existing account, and no client has more under active dispute than the
  account holds. The last fact means that the outcome a resolve or a
  chargeback discards is never an error.
*/
module LedgerInvariant {
  import opened Wrappers
  import opened Amounts
  import opened Transactions
  import opened Accounts
  import opened Ledgers

  /** The part of a disputed record that client `c` has on hold. */
  function Share(t: Transaction, c: ClientId): nat {
    if t.client == c && t.amount.Some? then t.amount.value.scaled else 0
  }

  /** The total amount under active dispute, in `d`, for client `c`. */
  ghost function DisputedFor(d: map<TxId, Transaction>, c: ClientId): nat
    decreases d.Keys
  {
    if d.Keys == {} then 0
    else
      var k :| k in d.Keys;
      Share(d[k], c) + DisputedFor(d - {k}, c)
  }

  /** The sum may be split at any key, not only the one the definition picks. */
  lemma {:induction false} DisputedForSplit(d: map<TxId, Transaction>, k: TxId, c: ClientId)
    requires k in d
    ensures DisputedFor(d, c) == Share(d[k], c) + DisputedFor(d - {k}, c)
    decreases d.Keys
  {
    var j :| j in d.Keys && DisputedFor(d, c) == Share(d[j], c) + DisputedFor(d - {j}, c);
    if j != k {
      assert (d - {j}) - {k} == (d - {k}) - {j};
      DisputedForSplit(d - {j}, k, c);
      DisputedForSplit(d - {k}, j, c);
    }
  }

  /** A client with no record in `d` has nothing under dispute. */
  lemma {:induction false} DisputedForAbsent(d: map<TxId, Transaction>, c: ClientId)
    requires forall k | k in d :: d[k].client != c
    ensures DisputedFor(d, c) == 0
    decreases d.Keys
  {
    if d.Keys != {} {
      var j :| j in d.Keys && DisputedFor(d, c) == Share(d[j], c) + DisputedFor(d - {j}, c);
      assert Share(d[j], c) == 0;
      DisputedForAbsent(d - {j}, c);
    } else {
      assert DisputedFor(d, c) == 0;
    }
  }

  /** Removing a key never raises the sum; storing `t` under `k` adds its share to what is left. */
  lemma DisputedForUpdate(d: map<TxId, Transaction>, k: TxId, t: Transaction, c: ClientId)
    ensures DisputedFor(d - {k}, c) <= DisputedFor(d, c)
    ensures DisputedFor(d[k := t], c) == Share(t, c) + DisputedFor(d - {k}, c)
  {
    if k in d {
      DisputedForSplit(d, k, c);
    } else {
      assert d - {k} == d;
    }
    DisputedForSplit(d[k := t], k, c);
    assert d[k := t] - {k} == d - {k};
  }

  /** A stored deposit record, kept under its own tx id. */
  predicate Recorded(t: Transaction, k: TxId) {
    t.kind == Deposit && t.tx == k && t.amount.Some?
  }

  /** The invariant of every reachable ledger. */
  ghost predicate Inv(l: Ledger) {
    && WellFormed(l)
    && (forall k | k in l.transactions ::
          Recorded(l.transactions[k], k) && l.transactions[k].client in l.accounts)
    && (forall k | k in l.disputes ::
          Recorded(l.disputes[k], k) && l.disputes[k].client in l.accounts)
    && (forall c | c in l.accounts :: DisputedFor(l.disputes, c) <= l.accounts[c].held.scaled)
  }

  lemma EmptyInv()
    ensures Inv(Empty)
  {
    assert Empty.disputes.Keys == {};
  }

  lemma DepositPreservesInv(l: Ledger, t: Transaction)
    requires Inv(l) && t.kind == Deposit
    ensures Inv(AfterDeposit(l, t))
  {
    if t.amount.Some? {
      var r := AfterDeposit(l, t);
      assert r.disputes == l.disputes;
      if t.client !in l.accounts {
        DisputedForAbsent(l.disputes, t.client);
      }
      forall c | c in r.accounts
        ensures DisputedFor(r.disputes, c) <= r.accounts[c].held.scaled
      {
        if c != t.client {
          assert r.accounts[c] == l.accounts[c];
        } else if c in l.accounts {
          assert r.accounts[c].held == l.accounts[c].held;
        } else {
          assert r.accounts[c].held == Zero();
        }
      }
      forall k | k in r.transactions
        ensures Recorded(r.transactions[k], k) && r.transactions[k].client in r.accounts
      {
        if k != t.tx {
          assert r.transactions[k] == l.transactions[k];
        }
      }
    }
  }

  lemma WithdrawalPreservesInv(l: Ledger, t: Transaction)
    requires Inv(l)
    ensures Inv(AfterWithdrawal(l, t))
  {
  }

  lemma DisputePreservesInv(l: Ledger, t: Transaction)
    requires Inv(l)
    ensures Inv(AfterDispute(l, t))
  {
    var r := AfterDispute(l, t);
    if r != l {
      var deposit := l.transactions[t.tx];
      forall c | c in r.accounts
        ensures DisputedFor(r.disputes, c) <= r.accounts[c].held.scaled
      {
        DisputedForUpdate(l.disputes, t.tx, deposit, c);
      }
    }
  }

  lemma ResolvePreservesInv(l: Ledger, t: Transaction)
    requires Inv(l)
    ensures Inv(AfterResolve(l, t))
  {
    if t.tx in l.disputes {
      var r := AfterResolve(l, t);
      var deposit := l.disputes[t.tx];
      forall c | c in r.accounts
        ensures DisputedFor(r.disputes, c) <= r.accounts[c].held.scaled
      {
        DisputedForSplit(l.disputes, t.tx, c);
      }
    }
  }

  lemma ChargebackPreservesInv(l: Ledger, t: Transaction)
    requires Inv(l)
    ensures Inv(AfterChargeback(l, t))
  {
    if t.tx in l.disputes {
      var r := AfterChargeback(l, t);
      var deposit := l.disputes[t.tx];
      forall c | c in r.accounts
        ensures DisputedFor(r.disputes, c) <= r.accounts[c].held.scaled
      {
        DisputedForSplit(l.disputes, t.tx, c);
      }
    }
  }

  /** Every record keeps the invariant. */
  lemma ProcessPreservesInv(l: Ledger, t: Transaction)
    requires Inv(l)
    ensures Inv(Process(l, t))
  {
    match t.kind
    case Deposit => DepositPreservesInv(l, t);
    case Withdrawal => WithdrawalPreservesInv(l, t);
    case Dispute => DisputePreservesInv(l, t);
    case Resolve => ResolvePreservesInv(l, t);
    case Chargeback => ChargebackPreservesInv(l, t);
  }

  /** Every ledger built from `Bank::new()` by any stream of records satisfies the invariant. */
  lemma {:induction false} ReachableInv(ts: seq<Transaction>)
    ensures Inv(ProcessAll(Empty, ts))
    decreases |ts|
  {
    if ts == [] {
      EmptyInv();
    } else {
      ReachableInv(ts[..|ts| - 1]);
      ProcessPreservesInv(ProcessAll(Empty, ts[..|ts| - 1]), ts[|ts| - 1]);
    }
  }

  /**
    In a reachable ledger, the account of an actively disputed deposit exists
    and both settling it by resolve and charging it back succeed: the error
    `process_resolve` and `process_chargeback` discard never occurs.
  */
  lemma ActiveDisputeSettles(l: Ledger, k: TxId)
    requires Inv(l) && k in l.disputes
    ensures l.disputes[k].client in l.accounts
    ensures Resolved(l.accounts[l.disputes[k].client], l.disputes[k].amount.value).Some?
    ensures ChargedBack(l.accounts[l.disputes[k].client], l.disputes[k].amount.value).Some?
  {
    DisputedForSplit(l.disputes, k, l.disputes[k].client);
  }
}
