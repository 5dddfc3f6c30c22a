/**
  The ledger of src/bank.rs as a value: the three maps `Bank` keeps, and the
  effect of each record on them. The class `Banks.Bank` is proved to act
  exactly as `Process` does.
*/
module Ledgers {
  import opened Wrappers
  import opened Amounts
  import opened Transactions
  import opened Accounts

  /**
    The state of `Bank`: the accounts by client, every deposit by its tx id
    (`transactions`) and the deposits now under dispute (`disputes`).
  */
  datatype Ledger = Ledger(
    accounts: map<ClientId, Balance>,
    transactions: map<TxId, Transaction>,
    disputes: map<TxId, Transaction>)

  /** `Bank::new()`: three empty maps. */
  const Empty: Ledger := Ledger(map[], map[], map[])

  /**
    Every stored deposit and every active dispute carries an amount. This is
    what makes the `unwrap()` of the stored amount safe when a dispute,
    resolve or chargeback is processed.
  */
  predicate WellFormed(l: Ledger) {
    && (forall k | k in l.transactions :: l.transactions[k].amount.Some?)
    && (forall k | k in l.disputes :: l.disputes[k].amount.Some?)
  }

  /**
    `process_deposit`: with an amount, credit the client (opening the account
    if needed) and remember the record under its tx id, replacing any
    earlier one; without an amount, nothing.
  */
  function AfterDeposit(l: Ledger, t: Transaction): (r: Ledger)
    requires WellFormed(l)
    ensures WellFormed(r)
    ensures t.amount.None? ==> r == l
    ensures t.amount.Some? ==>
      && r.accounts.Keys == l.accounts.Keys + {t.client}
      && r.accounts[t.client] ==
           Credited(if t.client in l.accounts then l.accounts[t.client] else Opened, t.amount.value)
      && (forall c | c in l.accounts && c != t.client :: r.accounts[c] == l.accounts[c])
      && r.transactions == l.transactions[t.tx := t]
      && r.disputes == l.disputes
  {
    match t.amount
    case None => l
    case Some(v) =>
      var account := if t.client in l.accounts then l.accounts[t.client] else Opened;
      l.(accounts := l.accounts[t.client := Credited(account, v)],
         transactions := l.transactions[t.tx := t])
  }

  /**
    `process_withdrawl`: debit an existing client's account when the record
    has an amount; an unknown client, a missing amount or insufficient funds
    changes nothing.
  */
  function AfterWithdrawal(l: Ledger, t: Transaction): (r: Ledger)
    requires WellFormed(l)
    ensures WellFormed(r)
    ensures r.accounts.Keys == l.accounts.Keys
    ensures r.transactions == l.transactions && r.disputes == l.disputes
    ensures forall c | c in l.accounts && c != t.client :: r.accounts[c] == l.accounts[c]
    ensures t.client in l.accounts && t.amount.Some? ==>
      r.accounts[t.client] == OrUnchanged(Debited(l.accounts[t.client], t.amount.value), l.accounts[t.client])
    ensures t.client !in l.accounts || t.amount.None? ==> r == l
  {
    if t.client in l.accounts && t.amount.Some? then
      var account := l.accounts[t.client];
      match Debited(account, t.amount.value)
      case None => l
      case Some(b) => l.(accounts := l.accounts[t.client := b])
    else
      l
  }

  /**
    `process_dispute`: find the deposit the record names; put its amount on
    hold in the account of the deposit's client (not the record's), and mark
    the deposit disputed only when that succeeds.
  */
  function AfterDispute(l: Ledger, t: Transaction): (r: Ledger)
    requires WellFormed(l)
    ensures WellFormed(r)
    ensures r.accounts.Keys == l.accounts.Keys && r.transactions == l.transactions
    ensures t.tx !in l.transactions ==> r == l
    ensures t.tx in l.transactions ==>
      var deposit := l.transactions[t.tx];
      && (forall c | c in l.accounts && c != deposit.client :: r.accounts[c] == l.accounts[c])
      && if deposit.client in l.accounts && Disputed(l.accounts[deposit.client], deposit.amount.value).Some? then
           && r.accounts[deposit.client] == Disputed(l.accounts[deposit.client], deposit.amount.value).value
           && r.disputes == l.disputes[t.tx := deposit]
         else
           r == l
  {
    if t.tx !in l.transactions then l
    else
      var deposit := l.transactions[t.tx];
      if deposit.client !in l.accounts then l
      else
        match Disputed(l.accounts[deposit.client], deposit.amount.value)
        case None => l
        case Some(b) =>
          l.(accounts := l.accounts[deposit.client := b], disputes := l.disputes[t.tx := deposit])
  }

  /**
    `process_resolve`: take the dispute off the active list whatever happens
    next, then release its amount in the disputed deposit's account.
  */
  function AfterResolve(l: Ledger, t: Transaction): (r: Ledger)
    requires WellFormed(l)
    ensures WellFormed(r)
    ensures r.accounts.Keys == l.accounts.Keys && r.transactions == l.transactions
    ensures r.disputes == l.disputes - {t.tx}
    ensures t.tx !in l.disputes ==> r == l
    ensures t.tx in l.disputes ==>
      var deposit := l.disputes[t.tx];
      && (forall c | c in l.accounts && c != deposit.client :: r.accounts[c] == l.accounts[c])
      && (deposit.client in l.accounts ==>
            r.accounts[deposit.client] ==
              OrUnchanged(Resolved(l.accounts[deposit.client], deposit.amount.value), l.accounts[deposit.client]))
  {
    if t.tx !in l.disputes then l
    else
      var deposit := l.disputes[t.tx];
      var settled := l.(disputes := l.disputes - {t.tx});
      if deposit.client !in l.accounts then settled
      else
        match Resolved(l.accounts[deposit.client], deposit.amount.value)
        case None => settled
        case Some(b) => settled.(accounts := l.accounts[deposit.client := b])
  }

  /**
    `process_chargeback`: take the dispute off the active list whatever
    happens next, then charge its amount back from the disputed deposit's
    account, locking it.
  */
  function AfterChargeback(l: Ledger, t: Transaction): (r: Ledger)
    requires WellFormed(l)
    ensures WellFormed(r)
    ensures r.accounts.Keys == l.accounts.Keys && r.transactions == l.transactions
    ensures r.disputes == l.disputes - {t.tx}
    ensures t.tx !in l.disputes ==> r == l
    ensures t.tx in l.disputes ==>
      var deposit := l.disputes[t.tx];
      && (forall c | c in l.accounts && c != deposit.client :: r.accounts[c] == l.accounts[c])
      && (deposit.client in l.accounts ==>
            r.accounts[deposit.client] ==
              OrUnchanged(ChargedBack(l.accounts[deposit.client], deposit.amount.value), l.accounts[deposit.client]))
  {
    if t.tx !in l.disputes then l
    else
      var deposit := l.disputes[t.tx];
      var settled := l.(disputes := l.disputes - {t.tx});
      if deposit.client !in l.accounts then settled
      else
        match ChargedBack(l.accounts[deposit.client], deposit.amount.value)
        case None => settled
        case Some(b) => settled.(accounts := l.accounts[deposit.client := b])
  }

  /**
    `process_transaction`: dispatch on the record's kind. Accounts are never
    removed, and only a deposit adds one.
  */
  function Process(l: Ledger, t: Transaction): (r: Ledger)
    requires WellFormed(l)
    ensures WellFormed(r)
    ensures l.accounts.Keys <= r.accounts.Keys
    ensures r.accounts.Keys != l.accounts.Keys ==> t.kind == Deposit
    ensures forall c | c in l.accounts && l.accounts[c].locked :: r.accounts[c].locked
  {
    match t.kind
    case Deposit => AfterDeposit(l, t)
    case Withdrawal => AfterWithdrawal(l, t)
    case Dispute => AfterDispute(l, t)
    case Resolve => AfterResolve(l, t)
    case Chargeback => AfterChargeback(l, t)
  }

  /** The ledger after a stream of records, processed one by one in arrival order. */
  function ProcessAll(l: Ledger, ts: seq<Transaction>): (r: Ledger)
    requires WellFormed(l)
    ensures WellFormed(r)
    ensures l.accounts.Keys <= r.accounts.Keys
    ensures forall c | c in l.accounts && l.accounts[c].locked :: r.accounts[c].locked
    decreases |ts|
  {
    if ts == [] then l else Process(ProcessAll(l, ts[..|ts| - 1]), ts[|ts| - 1])
  }

  /** One row of the output table, in scaled units; the map key is the client column. */
  datatype Row = Row(available: nat, held: nat, total: nat, locked: bool)

  /** `accounts_iter`: one row per account, whose total is its available plus held funds. */
  function Snapshot(l: Ledger): (s: map<ClientId, Row>)
    ensures s.Keys == l.accounts.Keys
    ensures forall c | c in s ::
      && s[c].available == l.accounts[c].available.scaled
      && s[c].held == l.accounts[c].held.scaled
      && s[c].total == s[c].available + s[c].held
      && s[c].locked == l.accounts[c].locked
  {
    map c | c in l.accounts :: RowOf(l.accounts[c])
  }

  function RowOf(b: Balance): Row {
    Row(b.available.scaled, b.held.scaled, TotalOf(b).scaled, b.locked)
  }

  /**
    `Bank::new()` reports no rows, and only a deposit with an amount changes
    it: any other first record finds no account and no stored deposit.
  */
  lemma NewLedger(t: Transaction)
    ensures WellFormed(Empty) && Snapshot(Empty) == map[]
    ensures t.kind != Deposit || t.amount.None? ==> Process(Empty, t) == Empty
  {
  }
}
