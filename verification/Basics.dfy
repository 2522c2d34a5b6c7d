/** Shared vocabulary: optional values, opaque payloads and decimal numerals. */
module Basics {

  datatype Option<+T> = None | Some(value: T)

  newtype Byte = x: int | 0 <= x < 256

  /** Payloads cross the engine as opaque bytes. */
  type Bytes = seq<Byte>

  ghost predicate Distinct<T>(s: seq<T>) {
    forall i, j :: 0 <= i < j < |s| ==> s[i] != s[j]
  }

  /** The digits `fmt.Sprintf("%d", n)` prints for a non-negative number. */
  function Decimal(n: nat): string {
    if n < 10 then [Digit(n)] else Decimal(n / 10) + [Digit(n % 10)]
  }

  function Digit(d: nat): char
    requires d < 10
  {
    ['0', '1', '2', '3', '4', '5', '6', '7', '8', '9'][d]
  }

  /** Distinct numbers print differently, so ids generated from call numbers never collide. */
  lemma {:induction false} DecimalInjective(m: nat, n: nat)
    requires Decimal(m) == Decimal(n)
    ensures m == n
  {
    DecimalParts(m);
    DecimalParts(n);
    if m >= 10 && n >= 10 {
      DecimalInjective(m / 10, n / 10);
    }
  }

  lemma DecimalParts(n: nat)
    ensures var s := Decimal(n);
            && |s| > 0 && s[|s| - 1] == Digit(n % 10)
            && (n < 10 <==> |s| == 1)
            && (n >= 10 ==> s[..|s| - 1] == Decimal(n / 10))
  {
    if n >= 10 {
      DecimalParts(n / 10);
    }
  }
}
