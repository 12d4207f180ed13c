/**
 * Python numbers as the scene builder turns them into text.
 *
 * The builder writes every number it receives with Python's `str()`. For an
 * `int` that text is fully determined (decimal digits, a leading `-` when
 * negative) and is modelled here exactly. For a `float` the text is left
 * abstract: it is one of the primitives of `Numerics`, together with
 * `numpy.sqrt` and `numpy.arctan2`, whose floating-point results are not
 * modelled either.
 */
module Numbers {

  /** A Python number: the source passes both ints (`0`, loop indices) and floats. */
  datatype Num = Int(i: int) | Float(f: real)

  /** The numeric primitives the source takes from numpy and from `str()` on floats. */
  datatype Numerics = Numerics(
    sqrt: real -> real,
    atan2: (real, real) -> real,
    floatStr: real -> string)

  predicate IsDigit(c: char)
  {
    '0' <= c <= '9'
  }

  function DigitChar(d: nat): (c: char)
    requires d < 10
    ensures IsDigit(c) && c as int - '0' as int == d
  {
    ('0' as int + d) as char
  }

  function DigitValue(c: char): (d: nat)
    requires IsDigit(c)
    ensures d < 10
  {
    c as int - '0' as int
  }

  /** Python's `str(n)` for a non-negative int: its decimal digits. */
  function NatStr(n: nat): (s: string)
    ensures |s| >= 1
    ensures forall k :: 0 <= k < |s| ==> IsDigit(s[k])
    ensures n < 10 <==> |s| == 1
  {
    if n < 10 then [DigitChar(n)] else NatStr(n / 10) + [DigitChar(n % 10)]
  }

  /** The value of a string of decimal digits: the inverse of `NatStr`. */
  function ParseNat(s: string): nat
    requires forall k :: 0 <= k < |s| ==> IsDigit(s[k])
  {
    if s == [] then 0 else ParseNat(s[..|s| - 1]) * 10 + DigitValue(s[|s| - 1])
  }

  lemma {:induction false} ParseNatStr(n: nat)
    ensures ParseNat(NatStr(n)) == n
  {
    var s := NatStr(n);
    if n < 10 {
      assert s[..|s| - 1] == [];
    } else {
      assert s[..|s| - 1] == NatStr(n / 10);
      ParseNatStr(n / 10);
    }
  }

  /** Distinct ints have distinct `str()` texts. */
  lemma NatStrInjective(a: nat, b: nat)
    requires NatStr(a) == NatStr(b)
    ensures a == b
  {
    ParseNatStr(a);
    ParseNatStr(b);
  }

  /** Python's `str(i)` for any int. */
  function IntStr(i: int): string
  {
    if i < 0 then "-" + NatStr(-i) else NatStr(i)
  }

  /** Python's `str(n)` for an int or a float. */
  function NumStr(num: Numerics, n: Num): string
  {
    match n
    case Int(i) => IntStr(i)
    case Float(f) => num.floatStr(f)
  }

  /** Python's `str(b).lower()` for a bool. */
  function BoolText(b: bool): string
  {
    if b then "true" else "false"
  }
}
