/**
  The transaction record of src/transaction.rs. The record's accessors
  `kind()`, `client()`, `id()` and `amount()` are the datatype's destructors
  `kind`, `client`, `tx` and `amount`.
*/
module Transactions {
  import opened Wrappers
  import opened Amounts

  /** Client ids are `u16`. */
  newtype ClientId = x: int | 0 <= x < 0x1_0000

  /** Transaction ids are `u32`. */
  newtype TxId = x: int | 0 <= x < 0x1_0000_0000

  /** The five kinds of record. */
  datatype Kind = Deposit | Withdrawal | Dispute | Resolve | Chargeback

  /** The text of the `type` column naming each kind: its name in snake case. */
  function KindName(k: Kind): string {
    match k
    case Deposit => "deposit"
    case Withdrawal => "withdrawal"
    case Dispute => "dispute"
    case Resolve => "resolve"
    case Chargeback => "chargeback"
  }

  /**
    The kind a (trimmed) `type` column names, if any: only the five snake
    case names are accepted, with no other spelling or case.
  */
  function KindOf(s: string): (r: Option<Kind>)
    ensures r.Some? ==> KindName(r.value) == s
    ensures r.None? ==> forall k: Kind :: KindName(k) != s
  {
    if s == "deposit" then Some(Deposit)
    else if s == "withdrawal" then Some(Withdrawal)
    else if s == "dispute" then Some(Dispute)
    else if s == "resolve" then Some(Resolve)
    else if s == "chargeback" then Some(Chargeback)
    else None
  }

  /** Every kind's name reads back as that kind, so distinct kinds have distinct names. */
  lemma KindNameRoundTrip(k: Kind)
    ensures KindOf(KindName(k)) == Some(k)
  {
  }

  /**
    One immutable input record. Deposits and withdrawals carry an amount;
    disputes, resolves and chargebacks refer to a deposit by `tx` and may
    carry none.
  */
  datatype Transaction = Transaction(kind: Kind, client: ClientId, tx: TxId, amount: Option<Amount>)

  /**
    The accessors give back exactly the fields a record was read with, and
    the ids lie in the `u16` and `u32` ranges.
  */
  lemma AccessorsReturnFields(kind: Kind, client: ClientId, tx: TxId, amount: Option<Amount>)
    ensures var t := Transaction(kind, client, tx, amount);
      && t.kind == kind && t.client == client && t.tx == tx && t.amount == amount
      && 0 <= t.client as int < 0x1_0000 && 0 <= t.tx as int < 0x1_0000_0000
  {
  }
}
