/**
 Strings as sequences of bytes, and decimal numbers in them.
 */
module Text {
  import opened Division

  type Byte = b: int | 0 <= b < 256

  type Bytes = seq<Byte>

  const ZERO: Byte := 48  // '0'

  /** std::to_string, and an unsigned number written to a stream. */
  function Decimal(n: nat): Bytes {
    if n < 10 then [ZERO + n] else Decimal(n / 10) + [ZERO + n % 10]
  }

  predicate Digit(b: Byte) {
    ZERO <= b < ZERO + 10
  }

  predicate Digits(b: Bytes) {
    forall i :: 0 <= i < |b| ==> Digit(b[i])
  }

  function Value(b: Bytes): nat
    requires Digits(b)
  {
    if b == [] then 0 else Value(b[..|b| - 1]) * 10 + (b[|b| - 1] - ZERO)
  }

  lemma {:induction false} DecimalValue(n: nat)
    ensures Decimal(n) != [] && Digits(Decimal(n)) && Value(Decimal(n)) == n
  {
    if n >= 10 {
      DecimalValue(n / 10);
      assert Decimal(n)[..|Decimal(n)| - 1] == Decimal(n / 10);
    }
  }

  function Power10(digits: nat): (p: nat)
    ensures p > 0
  {
    if digits == 0 then 1 else 10 * Power10(digits - 1)
  }

  /** The i-th byte is the digit that counts the tens of its place. */
  predicate IsNumeral(b: Bytes, n: nat) {
    n < Power10(|b|) && forall i :: 0 <= i < |b| ==> b[i] == 48 + n / Power10(|b| - 1 - i) % 10
  }

  /** The value of a string of digits is the number it spells. */
  lemma {:induction false} ValueSpells(b: Bytes)
    requires Digits(b)
    ensures IsNumeral(b, Value(b))
  {
    if b != [] {
      var last, n := |b| - 1, Value(b);
      ValueSpells(b[..last]);
      assert n / 10 == Value(b[..last]) && n % 10 == b[last] - ZERO;
      forall i | 0 <= i < |b| ensures b[i] == 48 + n / Power10(last - i) % 10 {
        if i < last {
          assert b[i] == b[..last][i];
          DivideTwice(n, 10, Power10(last - 1 - i));
        }
      }
    }
  }

  /** A number is written as its numeral, without leading zeros. */
  lemma {:induction false} DecimalSpells(n: nat)
    ensures Decimal(n) != [] && IsNumeral(Decimal(n), n)
    ensures n > 0 ==> Decimal(n)[0] != 48
    ensures n == 0 ==> Decimal(n) == [48]
  {
    DecimalValue(n);
    ValueSpells(Decimal(n));
    if n > 0 {
      NoLeadingZero(n);
    }
  }

  lemma {:induction false} NoLeadingZero(n: nat)
    requires n > 0
    ensures Decimal(n) != [] && Decimal(n)[0] != 48
  {
    if n >= 10 {
      NoLeadingZero(n / 10);
    }
  }
}
