/**
  The per-account balance state machine of src/account.rs.

  `Balance` is the value of an account and `Credited` ... `ChargedBack` give
  each transition's effect on it; the class `Account` is the mutable account
  the ledger owns, and each of its methods is proved to act as its
  transition. A guarded transition yields `None` when its guard fails, and
  the method then reports `Err(())` and leaves the account as it was.
*/
module Accounts {
  import opened Wrappers
  import opened Amounts

  /** The state of one account: spendable funds, disputed funds, frozen flag. */
  datatype Balance = Balance(available: Amount, held: Amount, locked: bool)

  /** The state `Account::new()` starts in. */
  const Opened: Balance := Balance(Zero(), Zero(), false)

  /** `total()`: everything the client owns, held or not; it bounds both parts. */
  function TotalOf(b: Balance): (t: Amount)
    ensures t.scaled == b.available.scaled + b.held.scaled
    ensures Le(b.available, t) && Le(b.held, t)
  {
    Add(b.held, b.available)
  }

  /** `credit`: never fails; the funds become available. */
  function Credited(b: Balance, v: Amount): (r: Balance)
    ensures r.available.scaled == b.available.scaled + v.scaled
    ensures r.held == b.held && r.locked == b.locked
    ensures TotalOf(r).scaled == TotalOf(b).scaled + v.scaled
  {
    b.(available := Add(b.available, v))
  }

  /** `try_debit`: succeeds exactly when `v` is available, and then only `available` drops, by `v`. */
  function Debited(b: Balance, v: Amount): (r: Option<Balance>)
    ensures r.Some? <==> v.scaled <= b.available.scaled
    ensures r.Some? ==> r.value.available.scaled + v.scaled == b.available.scaled
    ensures r.Some? ==> r.value.held == b.held && r.value.locked == b.locked
  {
    if Le(v, b.available) then Some(b.(available := Sub(b.available, v))) else None
  }

  /** `try_dispute`: succeeds exactly when `v` is available; moves `v` to held, keeping the total. */
  function Disputed(b: Balance, v: Amount): (r: Option<Balance>)
    ensures r.Some? <==> v.scaled <= b.available.scaled
    ensures r.Some? ==> r.value.held.scaled == b.held.scaled + v.scaled
    ensures r.Some? ==> TotalOf(r.value) == TotalOf(b) && r.value.locked == b.locked
  {
    if Le(v, b.available) then
      Some(b.(available := Sub(b.available, v), held := Add(b.held, v)))
    else
      None
  }

  /** `try_resolve`: succeeds exactly when `v` is held; moves `v` back to available, keeping the total. */
  function Resolved(b: Balance, v: Amount): (r: Option<Balance>)
    ensures r.Some? <==> v.scaled <= b.held.scaled
    ensures r.Some? ==> r.value.available.scaled == b.available.scaled + v.scaled
    ensures r.Some? ==> TotalOf(r.value) == TotalOf(b) && r.value.locked == b.locked
  {
    if Le(v, b.held) then
      Some(b.(held := Sub(b.held, v), available := Add(b.available, v)))
    else
      None
  }

  /** `try_chargeback`: succeeds exactly when `v` is held; removes `v` from held and the total, and locks. */
  function ChargedBack(b: Balance, v: Amount): (r: Option<Balance>)
    ensures r.Some? <==> v.scaled <= b.held.scaled
    ensures r.Some? ==> r.value.held.scaled + v.scaled == b.held.scaled
    ensures r.Some? ==> TotalOf(r.value).scaled + v.scaled == TotalOf(b).scaled
    ensures r.Some? ==> r.value.available == b.available && r.value.locked
  {
    if Le(v, b.held) then Some(b.(held := Sub(b.held, v), locked := true)) else None
  }

  /** One call on an account, for stating laws about any sequence of calls. */
  datatype Op = Credit(v: Amount) | Debit(v: Amount) | Dispute(v: Amount) | Resolve(v: Amount) | Chargeback(v: Amount)

  /** The state after one call; a failed guarded call leaves it unchanged. */
  function Step(b: Balance, op: Op): Balance {
    match op
    case Credit(v) => Credited(b, v)
    case Debit(v) => OrUnchanged(Debited(b, v), b)
    case Dispute(v) => OrUnchanged(Disputed(b, v), b)
    case Resolve(v) => OrUnchanged(Resolved(b, v), b)
    case Chargeback(v) => OrUnchanged(ChargedBack(b, v), b)
  }

  function OrUnchanged(r: Option<Balance>, b: Balance): Balance {
    if r.Some? then r.value else b
  }

  /** The state after a sequence of calls, in order. */
  function Run(b: Balance, ops: seq<Op>): Balance
    decreases |ops|
  {
    if ops == [] then b else Run(Step(b, ops[0]), ops[1..])
  }

  /** The sum of a sequence of amounts. */
  function Sum(vs: seq<Amount>): nat
    decreases |vs|
  {
    if vs == [] then 0 else vs[0].scaled + Sum(vs[1..])
  }

  /** Every amount of a sequence of credits. */
  function Credits(vs: seq<Amount>): (ops: seq<Op>)
    ensures |ops| == |vs|
    ensures forall i :: 0 <= i < |vs| ==> ops[i] == Credit(vs[i])
  {
    seq(|vs|, i requires 0 <= i < |vs| => Credit(vs[i]))
  }

  /** Credits add up: after crediting `vs`, `available` has grown by their sum and nothing else changed. */
  lemma {:induction false} CreditsAddUp(b: Balance, vs: seq<Amount>)
    ensures Run(b, Credits(vs)) == b.(available := Amount(b.available.scaled + Sum(vs)))
    decreases |vs|
  {
    if vs != [] {
      assert Credits(vs)[1..] == Credits(vs[1..]);
      CreditsAddUp(Credited(b, vs[0]), vs[1..]);
    }
  }

  /** On a new account, credits `vs` leave `available == Sum(vs)`, nothing held and no lock. */
  lemma FreshCreditsSum(vs: seq<Amount>)
    ensures Run(Opened, Credits(vs)) == Balance(Amount(Sum(vs)), Zero(), false)
  {
    CreditsAddUp(Opened, vs);
  }

  /**
    A guarded call whose guard fails leaves the balance as it was: a debit
    or dispute of more than is available, a resolve or chargeback of more
    than is held. (That each one succeeds exactly under its guard is stated
    by `Debited` ... `ChargedBack`.)
  */
  lemma FailureLeavesUnchanged(b: Balance, op: Op)
    ensures op.Debit? || op.Dispute? ==> (Step(b, op) == b <== op.v.scaled > b.available.scaled)
    ensures op.Resolve? || op.Chargeback? ==> (Step(b, op) == b <== op.v.scaled > b.held.scaled)
  {
  }

  /** Dispute then resolve of the same amount restores the account exactly. */
  lemma DisputeThenResolve(b: Balance, v: Amount)
    requires Disputed(b, v).Some?
    ensures Resolved(Disputed(b, v).value, v) == Some(b)
  {
  }

  /** Dispute then chargeback of the same amount: held is back, the total has lost `v`, the account is locked. */
  lemma DisputeThenChargeback(b: Balance, v: Amount)
    requires Disputed(b, v).Some?
    ensures ChargedBack(Disputed(b, v).value, v).Some?
    ensures var c := ChargedBack(Disputed(b, v).value, v).value;
      c.held == b.held && c.locked && TotalOf(c).scaled + v.scaled == TotalOf(b).scaled
  {
  }

  /** Locking is permanent: no sequence of calls unlocks an account. */
  lemma {:induction false} LockIsPermanent(b: Balance, ops: seq<Op>)
    requires b.locked
    ensures Run(b, ops).locked
    decreases |ops|
  {
    if ops != [] {
      LockIsPermanent(Step(b, ops[0]), ops[1..]);
    }
  }

  /**
    A sequence without credits never increases the total, so only `credit`
    can take the total out of the u64 range (see `FieldOverflowAfterCredit`
    for the fields).
  */
  lemma {:induction false} OnlyCreditRaisesTotal(b: Balance, ops: seq<Op>)
    requires forall i :: 0 <= i < |ops| ==> !ops[i].Credit?
    ensures TotalOf(Run(b, ops)).scaled <= TotalOf(b).scaled
    ensures Fits(TotalOf(b)) ==> Fits(TotalOf(Run(b, ops)))
    decreases |ops|
  {
    if ops != [] {
      OnlyCreditRaisesTotal(Step(b, ops[0]), ops[1..]);
    }
  }

  /**
    A credit is the only call that raises the total, but not the only one
    that can overflow a field. Once credits have taken the total past the
    u64 range while each field still fits, a dispute can overflow `held`
    and a resolve can overflow `available`.
  */
  lemma FieldOverflowAfterCredit(v: Amount, w: Amount)
    requires Fits(v) && Fits(w) && MaxScaled < v.scaled + w.scaled
    ensures var b := Step(Step(Step(Opened, Credit(v)), Dispute(v)), Credit(w));
      && b == Balance(w, v, false)
      && Fits(b.available) && Fits(b.held) && !Fits(TotalOf(b))
      && Disputed(b, w).Some? && !Fits(Disputed(b, w).value.held)
      && Resolved(b, v).Some? && !Fits(Resolved(b, v).value.available)
  {
    assert Step(Opened, Credit(v)) == Balance(v, Zero(), false) by {
      AddZeroIdentity(v);
    }
    assert Step(Balance(v, Zero(), false), Dispute(v)) == Balance(Zero(), v, false) by {
      assert Sub(v, v) == Zero();
      AddZeroIdentity(v);
    }
    assert Step(Balance(Zero(), v, false), Credit(w)) == Balance(w, v, false) by {
      AddZeroIdentity(w);
    }
  }

  /** The mutable account `Account` of the source. */
  class Account {
    var available: Amount
    var held: Amount
    var locked: bool

    /** The account's current state as a value. */
    function Value(): Balance
      reads this
    {
      Balance(available, held, locked)
    }

    /** `Account::new()`: nothing available, nothing held, not locked. */
    constructor ()
      ensures Value() == Opened
    {
      available := Zero();
      held := Zero();
      locked := false;
    }

    /**
      The account value `b`, held by the bank's map, as an object a handler
      can update in place (the mutable borrow `get_mut` hands out).
    */
    constructor Of(b: Balance)
      ensures Value() == b
    {
      available := b.available;
      held := b.held;
      locked := b.locked;
    }

    /** `total()`: held plus available. */
    function Total(): (t: Amount)
      reads this
      ensures t.scaled == held.scaled + available.scaled
      ensures t == TotalOf(Value())
    {
      Add(held, available)
    }

    /** `credit(v)`: `available` grows by `v`. */
    method Credit(v: Amount)
      modifies this
      ensures Value() == Credited(old(Value()), v)
    {
      available := AddAssign(available, v);
    }

    /** `try_debit(v)`: `Ok` and debited exactly when `v` is available, else `Err` with no change. */
    method TryDebit(v: Amount) returns (r: Result<(), ()>)
      modifies this
      ensures r.Ok? <==> Debited(old(Value()), v).Some?
      ensures Value() == OrUnchanged(Debited(old(Value()), v), old(Value()))
    {
      if Le(v, available) {
        available := SubAssign(available, v);
        return Ok(());
      }
      return Err(());
    }

    /** `try_dispute(v)`: `Ok` and `v` moved to held exactly when `v` is available, else `Err` with no change. */
    method TryDispute(v: Amount) returns (r: Result<(), ()>)
      modifies this
      ensures r.Ok? <==> Disputed(old(Value()), v).Some?
      ensures Value() == OrUnchanged(Disputed(old(Value()), v), old(Value()))
    {
      if Le(v, available) {
        available := SubAssign(available, v);
        held := AddAssign(held, v);
        return Ok(());
      }
      return Err(());
    }

    /** `try_resolve(v)`: `Ok` and `v` released exactly when `v` is held, else `Err` with no change. */
    method TryResolve(v: Amount) returns (r: Result<(), ()>)
      modifies this
      ensures r.Ok? <==> Resolved(old(Value()), v).Some?
      ensures Value() == OrUnchanged(Resolved(old(Value()), v), old(Value()))
    {
      if Le(v, held) {
        held := SubAssign(held, v);
        available := AddAssign(available, v);
        return Ok(());
      }
      return Err(());
    }

    /** `try_chargeback(v)`: `Ok`, `v` removed and locked exactly when `v` is held, else `Err` with no change. */
    method TryChargeback(v: Amount) returns (r: Result<(), ()>)
      modifies this
      ensures r.Ok? <==> ChargedBack(old(Value()), v).Some?
      ensures Value() == OrUnchanged(ChargedBack(old(Value()), v), old(Value()))
    {
      if Le(v, held) {
        held := SubAssign(held, v);
        locked := true;
        return Ok(());
      }
      return Err(());
    }
  }
}
