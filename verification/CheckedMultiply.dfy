// The overflow-checked product behind the number of items an option expects.
module CheckedMultiply {

  /** A fixed-width integer type by its limits. */
  datatype IntType = IntType(isSigned: bool, max: int)
  {
    predicate Valid() {
      max >= 1
    }

    function Min(): int {
      if isSigned then -max - 1 else 0
    }

    predicate Holds(x: int) {
      Min() <= x <= max
    }
  }

  const INT32 := IntType(true, 0x7fff_ffff)

  /** Division as the source language has it: the quotient is cut towards zero. */
  function TruncDiv(a: int, b: int): int
    requires b > 0
  {
    if a >= 0 then a / b else -((-a) / b)
  }

  function Abs(a: int): (r: int)
    ensures r >= 0
  {
    if a < 0 then -a else a
  }

  predicate OverflowCheck(t: IntType, a: int, b: int)
    requires a != 0
  {
    if !t.isSigned || (a > 0) == (b > 0) then TruncDiv(t.max, Abs(a)) < Abs(b)
    else TruncDiv(t.Min(), Abs(a)) > -Abs(b)
  }

  lemma QuotientBound(limit: nat, a: nat, b: nat)
    requires a > 0
    ensures limit / a < b <==> a * b > limit
  {
    var q := limit / a;
    assert limit == a * q + limit % a;
    if q < b {
      assert a * b >= a * (q + 1);
    } else {
      assert a * b <= a * q;
    }
  }

  /** Exact for every width, signed or unsigned. */
  method CheckedMultiply(t: IntType, a: int, b: int) returns (ok: bool, a': int)
    requires t.Valid() && t.Holds(a) && t.Holds(b)
    ensures ok <==> t.Holds(a * b)
    ensures ok <==> (if t.isSigned then -t.max - 1 <= a * b <= t.max else 0 <= a * b <= t.max)
    ensures a' == if ok then a * b else a
  {
    if a == 0 || b == 0 || a == 1 || b == 1 {
      return true, a * b;
    }
    if a == t.Min() || b == t.Min() {
      ExtremeOverflows(t, a, b);
      return false, a;
    }
    CheckIsExact(t, a, b);
    if OverflowCheck(t, a, b) {
      return false, a;
    }
    return true, a * b;
  }

  lemma ExtremeOverflows(t: IntType, a: int, b: int)
    requires t.Valid() && t.Holds(a) && t.Holds(b)
    requires a == t.Min() || b == t.Min()
    requires a !in {0, 1} && b !in {0, 1}
    ensures !t.Holds(a * b)
  {
    var m := t.Min();
    var c := if a == m then b else a;
    assert a * b == m * c;
    if c >= 2 {
      assert m * c <= m * 2;
    } else {
      assert m * c >= -m;
    }
  }

  lemma ProductBySign(a: int, b: int)
    requires a != 0 && b != 0
    ensures a * b == if (a > 0) == (b > 0) then Abs(a) * Abs(b) else -(Abs(a) * Abs(b))
    ensures Abs(a) * Abs(b) > 0
  {
  }

  lemma CheckIsExact(t: IntType, a: int, b: int)
    requires t.Valid() && t.Holds(a) && t.Holds(b) && a != 0 && b != 0
    ensures OverflowCheck(t, a, b) <==> !t.Holds(a * b)
  {
    ProductBySign(a, b);
    QuotientBound(if !t.isSigned || (a > 0) == (b > 0) then t.max else -t.Min(), Abs(a), Abs(b));
  }

  const EXPECTED_MAX_VECTOR_SIZE: nat := 0x2000_0000

  /** The true product, or the cap when it does not fit an int. */
  function ExpectedItems(typeSize: nat, expected: nat): nat {
    if INT32.Holds(typeSize * expected) then typeSize * expected else EXPECTED_MAX_VECTOR_SIZE
  }

  method GetItemsExpectedMax(typeSizeMax: nat, expectedMax: nat) returns (items: nat)
    requires INT32.Holds(typeSizeMax) && INT32.Holds(expectedMax)
    ensures items == ExpectedItems(typeSizeMax, expectedMax)
    ensures typeSizeMax * expectedMax <= 0x7fff_ffff ==> items == typeSizeMax * expectedMax
    ensures typeSizeMax * expectedMax > 0x7fff_ffff ==> items == 0x2000_0000
  {
    var ok, t := CheckedMultiply(INT32, typeSizeMax, expectedMax);
    items := if ok then t else EXPECTED_MAX_VECTOR_SIZE;
  }
}
