/** Printing and reading of 64-bit identifiers, as they appear in object keys and in route segments. */
module Decimal {
  import opened Basics

  const I64_MIN: int := -0x8000_0000_0000_0000
  const I64_MAX: int := 0x7fff_ffff_ffff_ffff

  predicate IsI64(n: int) {
    I64_MIN <= n <= I64_MAX
  }

  /** A `bigint` of the database, an `i64` of the program. */
  type Id = n: int | IsI64(n)

  const DIGITS: string := "0123456789"

  function Digits(n: nat): string {
    if n < 10 then [DIGITS[n]] else Digits(n / 10) + [DIGITS[n % 10]]
  }

  /** The decimal form of an integer: no leading zeros, `-` for a negative one. */
  function ToString(n: int): string {
    if n < 0 then "-" + Digits(-n) else Digits(n)
  }

  predicate IsDigit(c: char) {
    '0' <= c <= '9'
  }

  predicate AllDigits(s: string) {
    forall i :: 0 <= i < |s| ==> IsDigit(s[i])
  }

  function Fold(s: string): nat
    requires AllDigits(s)
  {
    if s == [] then 0 else Fold(s[..|s| - 1]) * 10 + (s[|s| - 1] as int - '0' as int)
  }

  /** The value of an unsigned digit string, which must not be empty. */
  function Unsigned(s: string): Option<int> {
    if s != [] && AllDigits(s) then Some(Fold(s)) else None
  }

  function InRange(n: int): Option<Id> {
    if IsI64(n) then Some(n) else None
  }

  /** How a route segment is read as a 64-bit integer: an optional sign, at least one digit, no overflow. */
  function ParseI64(s: string): Option<Id> {
    if s == [] then None
    else if s[0] == '-' then
      match Unsigned(s[1..]) case None => None case Some(m) => InRange(-m)
    else
      match Unsigned(if s[0] == '+' then s[1..] else s) case None => None case Some(m) => InRange(m)
  }

  lemma {:induction false} DigitsFold(n: nat)
    ensures Digits(n) != [] && AllDigits(Digits(n))
    ensures Fold(Digits(n)) == n
  {
    var d := DIGITS[n % 10];
    assert IsDigit(d) && d as int - '0' as int == n % 10;
    if n >= 10 {
      DigitsFold(n / 10);
      assert Digits(n)[..|Digits(n)| - 1] == Digits(n / 10);
    } else {
      assert Digits(n)[..0] == [];
    }
  }

  /** The printed form is the ordinary decimal one: a digit stands for itself, a further digit is worth a
      tenth of the one before it, and a minus sign goes in front. */
  lemma DecimalForm(n: int, d: int)
    requires n >= 0 && 0 <= d < 10
    ensures ToString(d) == ['0' + d as char]
    ensures n > 0 ==> ToString(10 * n + d) == ToString(n) + ['0' + d as char] && ToString(-n) == "-" + ToString(n)
  {
    assert DIGITS[d] == '0' + d as char;
    assert (10 * n + d) / 10 == n && (10 * n + d) % 10 == d;
  }

  /** Reading back a printed identifier gives the identifier, for every 64-bit value. */
  lemma PrintParse(n: Id)
    ensures ParseI64(ToString(n)) == Some(n)
  {
    var value: int := n;
    if value < 0 {
      DigitsFold(-value);
      SignedParse(Digits(-value), -value);
    } else {
      DigitsFold(value);
      UnsignedParse(Digits(value), value);
    }
  }

  lemma SignedParse(digits: string, m: int)
    requires IsI64(-m) && Unsigned(digits) == Some(m)
    ensures ParseI64("-" + digits) == Some(-m)
  {
    assert ("-" + digits)[1..] == digits;
  }

  lemma UnsignedParse(digits: string, m: int)
    requires IsI64(m) && Unsigned(digits) == Some(m)
    ensures ParseI64(digits) == Some(m)
  {
    assert IsDigit(digits[0]);
  }

  /** Different identifiers print differently, whatever their range. */
  lemma PrintInjective(m: int, n: int)
    requires ToString(m) == ToString(n)
    ensures m == n
  {
    DigitsFold(if m < 0 then -m else m);
    DigitsFold(if n < 0 then -n else n);
    assert m < 0 ==> ToString(m)[1..] == Digits(-m);
    assert n < 0 ==> ToString(n)[1..] == Digits(-n);
    assert m >= 0 ==> IsDigit(ToString(m)[0]);
    assert n >= 0 ==> IsDigit(ToString(n)[0]);
  }
}
