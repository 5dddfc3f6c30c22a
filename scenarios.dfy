/**
  End-to-end runs of the bank, processed from `Bank::new()`, for any
  clients, tx ids and amounts of the shape each run needs. The first four
  lemmas give one handler step each, so that every run names its
  intermediate ledgers.
*/
module Scenarios {
  import opened Wrappers
  import opened Amounts
  import opened Transactions
  import opened Accounts
  import opened Ledgers

  /** A first deposit for a client opens the account with the amount available. */
  lemma OpeningDeposit(l: Ledger, t: Transaction)
    requires WellFormed(l) && t.kind == Deposit && t.amount.Some? && t.client !in l.accounts
    ensures Process(l, t) ==
      l.(accounts := l.accounts[t.client := Balance(t.amount.value, Zero(), false)],
         transactions := l.transactions[t.tx := t])
  {
    AddZeroIdentity(t.amount.value);
  }

  /** A dispute of a deposit whose whole amount is available puts all of it on hold. */
  lemma HoldWhole(l: Ledger, x: Transaction, v: Amount, lock: bool)
    requires WellFormed(l) && x.kind.Dispute? && x.tx in l.transactions
    requires l.transactions[x.tx].amount == Some(v)
    requires l.transactions[x.tx].client in l.accounts
    requires l.accounts[l.transactions[x.tx].client] == Balance(v, Zero(), lock)
    ensures var d := l.transactions[x.tx];
      Process(l, x) ==
        l.(accounts := l.accounts[d.client := Balance(Zero(), v, lock)], disputes := l.disputes[x.tx := d])
  {
    AddZeroIdentity(v);
  }

  /** A resolve of a dispute whose whole amount is held makes all of it available. */
  lemma ReleaseWhole(l: Ledger, y: Transaction, v: Amount, lock: bool)
    requires WellFormed(l) && y.kind.Resolve? && y.tx in l.disputes
    requires l.disputes[y.tx].amount == Some(v)
    requires l.disputes[y.tx].client in l.accounts
    requires l.accounts[l.disputes[y.tx].client] == Balance(Zero(), v, lock)
    ensures var d := l.disputes[y.tx];
      Process(l, y) ==
        l.(accounts := l.accounts[d.client := Balance(v, Zero(), lock)], disputes := l.disputes - {y.tx})
  {
    AddZeroIdentity(v);
  }

  /** A chargeback of a dispute whose whole amount is held empties held and locks. */
  lemma ChargeWhole(l: Ledger, y: Transaction, a: Amount, v: Amount)
    requires WellFormed(l) && y.kind.Chargeback? && y.tx in l.disputes
    requires l.disputes[y.tx].amount == Some(v)
    requires l.disputes[y.tx].client in l.accounts
    requires l.accounts[l.disputes[y.tx].client] == Balance(a, v, false)
    ensures var d := l.disputes[y.tx];
      Process(l, y) ==
        l.(accounts := l.accounts[d.client := Balance(a, Zero(), true)], disputes := l.disputes - {y.tx})
  {
  }

  /**
    A deposit of `v` for `c`, a deposit of `w` for another client `e`, then
    a dispute of the first: all of `v` is on hold, and `e` is untouched.
  */
  lemma DisputeHoldsFunds(c: ClientId, e: ClientId, k: TxId, j: TxId, v: Amount, w: Amount)
    requires c != e && k != j
    ensures var l := Process(Process(Process(Empty,
        Transaction(Deposit, c, k, Some(v))),
        Transaction(Deposit, e, j, Some(w))),
        Transaction(Kind.Dispute, c, k, None));
      && l.accounts == map[c := Balance(Zero(), v, false), e := Balance(w, Zero(), false)]
      && l.disputes == map[k := Transaction(Deposit, c, k, Some(v))]
  {
    var d1 := Transaction(Deposit, c, k, Some(v));
    var d2 := Transaction(Deposit, e, j, Some(w));
    var x := Transaction(Kind.Dispute, c, k, None);
    OpeningDeposit(Empty, d1);
    var l1 := Ledger(map[c := Balance(v, Zero(), false)], map[k := d1], map[]);
    OpeningDeposit(l1, d2);
    var l2 := Ledger(map[c := Balance(v, Zero(), false), e := Balance(w, Zero(), false)], map[k := d1, j := d2], map[]);
    HoldWhole(l2, x, v, false);
    assert l2.accounts[c := Balance(Zero(), v, false)] ==
      map[c := Balance(Zero(), v, false), e := Balance(w, Zero(), false)];
  }

  /** Continuing the run above, a resolve of the dispute makes all of `v` available again. */
  lemma ResolveReleasesFunds(c: ClientId, e: ClientId, k: TxId, j: TxId, v: Amount, w: Amount)
    requires c != e && k != j
    ensures var l := Process(Process(Process(Process(Empty,
        Transaction(Deposit, c, k, Some(v))),
        Transaction(Deposit, e, j, Some(w))),
        Transaction(Kind.Dispute, c, k, None)),
        Transaction(Kind.Resolve, c, k, None));
      && l.accounts == map[c := Balance(v, Zero(), false), e := Balance(w, Zero(), false)]
      && l.disputes == map[]
  {
    var l3 := Process(Process(Process(Empty,
        Transaction(Deposit, c, k, Some(v))),
        Transaction(Deposit, e, j, Some(w))),
        Transaction(Kind.Dispute, c, k, None));
    DisputeHoldsFunds(c, e, k, j, v, w);
    ReleaseWhole(l3, Transaction(Kind.Resolve, c, k, None), v, false);
    assert l3.accounts[c := Balance(v, Zero(), false)] ==
      map[c := Balance(v, Zero(), false), e := Balance(w, Zero(), false)];
    assert l3.disputes - {k} == map[];
  }

  /**
    A deposit of `v`, its dispute and its chargeback leave the account empty
    and locked; any later withdrawal changes nothing, since nothing is
    available (the lock itself does not refuse it).
  */
  lemma ChargebackLocks(c: ClientId, k: TxId, j: TxId, v: Amount, w: Amount)
    ensures var l := Process(Process(Process(Empty,
        Transaction(Deposit, c, k, Some(v))),
        Transaction(Kind.Dispute, c, k, None)),
        Transaction(Kind.Chargeback, c, k, None));
      && l.accounts == map[c := Balance(Zero(), Zero(), true)]
      && l.disputes == map[]
      && Process(l, Transaction(Withdrawal, c, j, Some(w))) == l
  {
    var d := Transaction(Deposit, c, k, Some(v));
    OpeningDeposit(Empty, d);
    var l1 := Ledger(map[c := Balance(v, Zero(), false)], map[k := d], map[]);
    HoldWhole(l1, Transaction(Kind.Dispute, c, k, None), v, false);
    var l2 := Ledger(map[c := Balance(Zero(), v, false)], map[k := d], map[k := d]);
    ChargeWhole(l2, Transaction(Kind.Chargeback, c, k, None), Zero(), v);
    var l3 := Ledger(map[c := Balance(Zero(), Zero(), true)], map[k := d], map[]);
    assert l2.disputes - {k} == map[];
    var z := Transaction(Withdrawal, c, j, Some(w));
    assert Process(l3, z) == AfterWithdrawal(l3, z);
    if w.scaled == 0 {
      assert Debited(l3.accounts[c], w) == Some(l3.accounts[c]);
      assert l3.accounts[c := l3.accounts[c]] == l3.accounts;
    }
  }

  /** A deposit of `v`, then a withdrawal of more than `v`: the withdrawal is refused and nothing changes. */
  lemma OverdraftRefused(c: ClientId, k: TxId, j: TxId, v: Amount, w: Amount)
    requires v.scaled < w.scaled
    ensures var l := Process(Empty, Transaction(Deposit, c, k, Some(v)));
      && l.accounts == map[c := Balance(v, Zero(), false)]
      && Process(l, Transaction(Withdrawal, c, j, Some(w))) == l
  {
    var d := Transaction(Deposit, c, k, Some(v));
    var z := Transaction(Withdrawal, c, j, Some(w));
    var l := AfterDeposit(Empty, d);
    assert Process(Empty, d) == l;
    assert l.accounts == map[c := Balance(v, Zero(), false)];
    assert Process(l, z) == AfterWithdrawal(l, z);
    assert Debited(l.accounts[c], w).None?;
  }

  /**
    The snapshot of three accounts `p`, `q` and `r`: one credited with `v`,
    one credited with `v` with `h` of it then disputed (leaving `u`
    available), and one where that dispute was also charged back (the
    iterator test of src/bank.rs uses 1.0 and 0.5).
  */
  lemma SnapshotRows(p: ClientId, q: ClientId, r: ClientId, v: Amount, h: Amount, u: Amount)
    requires p != q && q != r && p != r
    requires u.scaled + h.scaled == v.scaled
    ensures Credited(Opened, v) == Balance(v, Zero(), false)
    ensures Disputed(Balance(v, Zero(), false), h) == Some(Balance(u, h, false))
    ensures ChargedBack(Balance(u, h, false), h) == Some(Balance(u, Zero(), true))
    ensures var s := Snapshot(Ledger(map[p := Balance(v, Zero(), false), q := Balance(u, h, false),
                                         r := Balance(u, Zero(), true)], map[], map[]));
      && s.Keys == {p, q, r}
      && s[p] == Row(v.scaled, 0, v.scaled, false)
      && s[q] == Row(u.scaled, h.scaled, v.scaled, false)
      && s[r] == Row(u.scaled, 0, u.scaled, true)
  {
    SnapshotOfThree(p, q, r, Balance(v, Zero(), false), Balance(u, h, false), Balance(u, Zero(), true));
  }

  /** The snapshot of three distinct accounts has their three rows. */
  lemma SnapshotOfThree(p: ClientId, q: ClientId, r: ClientId, b1: Balance, b2: Balance, b3: Balance)
    requires p != q && q != r && p != r
    ensures var s := Snapshot(Ledger(map[p := b1, q := b2, r := b3], map[], map[]));
      && s.Keys == {p, q, r}
      && s[p] == RowOf(b1) && s[q] == RowOf(b2) && s[r] == RowOf(b3)
  {
  }

  /**
    An account credited `a` then `b`, with `a` disputed, settled either
    way: a resolve of `a` leaves `a + b` available and nothing held; a
    chargeback of `a` leaves `b` available, nothing held and the account
    locked. Each guarded call reports `Ok`.
  */
  method SettleAccount(a: Amount, b: Amount, chargeback: bool) returns (outcomes: seq<Result<(), ()>>, after: Balance)
    ensures |outcomes| == 2 && outcomes[0].Ok? && outcomes[1].Ok?
    ensures !chargeback ==> after == Balance(Add(a, b), Zero(), false)
    ensures chargeback ==> after == Balance(b, Zero(), true)
  {
    var account := new Account();
    account.Credit(a);
    account.Credit(b);
    var disputed := account.TryDispute(a);
    var settled: Result<(), ()>;
    if chargeback {
      settled := account.TryChargeback(a);
    } else {
      settled := account.TryResolve(a);
    }
    outcomes := [disputed, settled];
    after := account.Value();
  }

  /**
    An account credited `a`, asked for more than it has available or
    holds: the debit and the dispute report `Err`, and so do a resolve and
    a chargeback of more than is held; the account is unchanged and not
    locked.
  */
  method RefuseExcess(a: Amount, x: Amount) returns (outcomes: seq<Result<(), ()>>, after: Balance)
    requires a.scaled < x.scaled
    ensures |outcomes| == 4 && forall i | 0 <= i < 4 :: outcomes[i].Err?
    ensures after == Balance(a, Zero(), false)
  {
    var account := new Account();
    account.Credit(a);
    var debited := account.TryDebit(x);
    var disputed := account.TryDispute(x);
    var resolved := account.TryResolve(x);
    var charged := account.TryChargeback(x);
    outcomes := [debited, disputed, resolved, charged];
    after := account.Value();
  }
}
