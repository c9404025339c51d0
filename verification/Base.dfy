/** Small vocabulary shared by every other module. */
module Base {

  datatype Option<+T> = None | Some(value: T)

  datatype Result<+T, +E> = Ok(value: T) | Err(error: E)

  function Max(a: nat, b: nat): nat { if a >= b then a else b }

  function Min(a: nat, b: nat): nat { if a <= b then a else b }

  /** Subtraction that stops at zero, as durations and slots do. */
  function SaturatingSub(a: nat, b: nat): nat { if a >= b then a - b else 0 }

  /** Multiplication and division by repeated steps, so that proofs stay linear. */
  function Times(k: nat, unit: nat): nat {
    if k == 0 then 0 else Times(k - 1, unit) + unit
  }

  function Quotient(total: nat, unit: nat): nat
    requires unit > 0
  {
    if total < unit then 0 else 1 + Quotient(total - unit, unit)
  }

  function Remainder(total: nat, unit: nat): (r: nat)
    requires unit > 0
    ensures r < unit
  {
    if total < unit then total else Remainder(total - unit, unit)
  }

  lemma {:induction false} TimesIsProduct(k: nat, unit: nat)
    ensures Times(k, unit) == k * unit
  {
    if k > 0 {
      TimesIsProduct(k - 1, unit);
      assert k * unit == (k - 1) * unit + unit;
    }
  }

  lemma {:induction false} QuotientAndRemainder(total: nat, unit: nat)
    requires unit > 0
    ensures total == Quotient(total, unit) * unit + Remainder(total, unit)
  {
    if total >= unit {
      QuotientAndRemainder(total - unit, unit);
      var k := Quotient(total - unit, unit);
      assert (k + 1) * unit == k * unit + unit;
    }
  }

  lemma {:induction false} QuotientOf(k: nat, unit: nat, rest: nat)
    requires unit > 0
    ensures Quotient(Times(k, unit) + rest, unit) == k + Quotient(rest, unit)
    ensures Remainder(Times(k, unit) + rest, unit) == Remainder(rest, unit)
  {
    if k > 0 {
      QuotientOf(k - 1, unit, rest);
      assert Times(k, unit) + rest - unit == Times(k - 1, unit) + rest;
    }
  }

  lemma {:induction false} TimesAdd(a: nat, b: nat, unit: nat)
    ensures Times(a + b, unit) == Times(a, unit) + Times(b, unit)
  {
    if b > 0 {
      TimesAdd(a, b - 1, unit);
    }
  }

  function Sum(xs: seq<nat>): nat {
    if xs == [] then 0 else xs[0] + Sum(xs[1..])
  }
}
