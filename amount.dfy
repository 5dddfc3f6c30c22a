/**
  The fixed-point money type of src/amount.rs: a decimal value with four
  implied fractional digits, stored as a scaled integer (12.3456 is 123456).
*/
module Amounts {

  /** Scaled units per whole currency unit: four implied decimals. */
  const Scale: nat := 10000

  /** The largest value the u64 storage can hold (1844674407370955.1615). */
  const MaxScaled: nat := 0xFFFF_FFFF_FFFF_FFFF

  /**
    `Amount(u64)`. The inner integer is unbounded here; `Fits` states the
    u64 range separately, so that overflow can be reasoned about instead of
    wrapping silently.
  */
  datatype Amount = Amount(scaled: nat)

  /** The value lies in the range of the u64 storage. */
  predicate Fits(a: Amount) {
    a.scaled <= MaxScaled
  }

  /** `Amount::new()`: the zero amount, the least of all amounts. */
  function Zero(): (z: Amount)
    ensures forall a: Amount :: Le(z, a)
  {
    Amount(0)
  }

  /** `a + b`: adds the scaled integers; the sum is at least each operand, and `b` can be taken back off. */
  function Add(a: Amount, b: Amount): (r: Amount)
    ensures Le(a, r) && Le(b, r)
    ensures r.scaled - b.scaled == a.scaled
  {
    Amount(a.scaled + b.scaled)
  }

  /**
    `a - b` as `SubAssign` computes it. The source does not handle u64
    underflow, so it is defined only where its callers have already checked
    that `b <= a`.
  */
  function Sub(a: Amount, b: Amount): Amount
    requires Le(b, a)
  {
    Amount(a.scaled - b.scaled)
  }

  /** The derived `PartialOrd`: `a <= b` compares the scaled integers. */
  predicate Le(a: Amount, b: Amount) {
    a.scaled <= b.scaled
  }

  /** `a += b`: the caller's variable receives the sum. */
  method AddAssign(a: Amount, other: Amount) returns (r: Amount)
    ensures r == Add(a, other)
    ensures Le(a, r) && Le(other, r)
  {
    r := Amount(a.scaled + other.scaled);
  }

  /** `a -= b`: only called once the caller has checked `b <= a`. */
  method SubAssign(a: Amount, other: Amount) returns (r: Amount)
    requires Le(other, a)
    ensures Add(r, other) == a
    ensures Le(r, a)
  {
    r := Amount(a.scaled - other.scaled);
  }

  /** Zero is the identity of addition, on both sides. */
  lemma AddZeroIdentity(a: Amount)
    ensures Add(Zero(), a) == a && Add(a, Zero()) == a
  {
  }

  /** Addition does not depend on the order of its operands. */
  lemma AddCommutative(a: Amount, b: Amount)
    ensures Add(a, b) == Add(b, a)
  {
  }

  /** Addition groups either way. */
  lemma AddAssociative(a: Amount, b: Amount, c: Amount)
    ensures Add(Add(a, b), c) == Add(a, Add(b, c))
  {
  }

  /** Subtraction undoes addition, and addition undoes subtraction. */
  lemma AddSubInverse(a: Amount, b: Amount)
    ensures Le(b, Add(a, b)) && Sub(Add(a, b), b) == a
    ensures Le(b, a) ==> Add(Sub(a, b), b) == a
  {
  }

  /** Equality and ordering are those of the scaled integers: `<=` is a total order. */
  lemma LeTotalOrder(a: Amount, b: Amount, c: Amount)
    ensures Le(a, a)
    ensures Le(a, b) && Le(b, a) <==> a == b
    ensures Le(a, b) && Le(b, c) ==> Le(a, c)
    ensures Le(a, b) || Le(b, a)
  {
  }

  /** `b <= a` exactly when `a` is `b` plus some amount: the guard that makes `Sub` safe. */
  lemma LeIffDifference(a: Amount, b: Amount)
    ensures Le(b, a) <==> exists d: Amount :: Add(b, d) == a
  {
    if Le(b, a) {
      assert Add(b, Sub(a, b)) == a;
    }
  }

  /** Subtracting never leaves the u64 range; adding stays inside it exactly when the sum does. */
  lemma FitsUnderArithmetic(a: Amount, b: Amount)
    ensures Fits(a) && Le(b, a) ==> Fits(Sub(a, b))
    ensures Fits(Add(a, b)) <==> a.scaled + b.scaled <= MaxScaled
  {
  }

  /**
    A decimal written with whole part `units` and four fractional digits
    `fraction` (12.3456 has units 12 and fraction 3456), as a scaled value.
    Both parts can be read back from it.
  */
  function Decimal(units: nat, fraction: nat): (a: Amount)
    requires fraction < Scale
    ensures a.scaled / Scale == units && a.scaled % Scale == fraction
  {
    Amount(units * Scale + fraction)
  }

  /** Every scaled value is exactly one decimal with four fractional digits. */
  lemma DecimalOfEvery(a: Amount)
    ensures Decimal(a.scaled / Scale, a.scaled % Scale) == a
  {
  }

  /**
    The `as u64` of the deserializer, applied to the already scaled and
    rounded value `x`: Rust's float-to-integer cast saturates, so a negative
    value (and NaN, taken as 0 here) reads as zero and anything beyond the
    storage reads as its largest value.
  */
  function SaturatingCast(x: int): (a: Amount)
    ensures Fits(a)
    ensures 0 <= x <= MaxScaled ==> a.scaled == x
    ensures x < 0 ==> a == Zero()
    ensures MaxScaled < x ==> a.scaled == MaxScaled
  {
    if x < 0 then Zero() else if x > MaxScaled then Amount(MaxScaled) else Amount(x)
  }

  /**
    The cast keeps the order of its inputs, and casting a value that already
    fits gives it back, so reading an amount twice changes nothing.
  */
  lemma SaturatingCastMonotone(x: int, y: int)
    ensures x <= y ==> Le(SaturatingCast(x), SaturatingCast(y))
    ensures SaturatingCast(SaturatingCast(x).scaled) == SaturatingCast(x)
  {
  }
}
