/** Rendering numbers into template strings (`${n}`). */
module Text {

  function DigitChar(d: int): (c: char)
    requires 0 <= d < 10
    ensures '0' <= c <= '9'
    ensures c as int - '0' as int == d
  {
    ('0' as int + d) as char
  }

  /** The number a string of decimal digits denotes, most significant first. */
  function DecimalValue(s: string): int
  {
    if s == [] then 0 else DecimalValue(s[..|s| - 1]) * 10 + (s[|s| - 1] as int - '0' as int)
  }

  /** A number as `${n}` reads it back: an optional leading minus, then decimal digits. */
  function SignedValue(s: string): int
  {
    if s != [] && s[0] == '-' then -DecimalValue(s[1..]) else DecimalValue(s)
  }

  /** The decimal digits of `n`, most significant first, without leading zeros; they denote `n`. */
  function Digits(n: nat): (r: string)
    ensures |r| >= 1
    ensures forall i :: 0 <= i < |r| ==> '0' <= r[i] <= '9'
    ensures |r| > 1 ==> r[0] != '0'
    ensures DecimalValue(r) == n
  {
    if n < 10 then
      [DigitChar(n)]
    else
      var r := Digits(n / 10) + [DigitChar(n % 10)];
      assert r[..|r| - 1] == Digits(n / 10);
      r
  }

  /** `${n}` for an integral number: it reads back as `n`, with a minus exactly when `n` is negative. */
  function NumberText(n: int): (r: string)
    ensures |r| >= 1
    ensures SignedValue(r) == n
    ensures r[0] == '-' <==> n < 0
    ensures forall i :: 0 < i < |r| ==> '0' <= r[i] <= '9'
  {
    if n < 0 then
      var r := "-" + Digits(-n);
      assert r[1..] == Digits(-n);
      r
    else Digits(n)
  }

  /** Different numbers have different texts. */
  lemma NumberTextInjective(a: int, b: int)
    requires NumberText(a) == NumberText(b)
    ensures a == b
  {
    assert SignedValue(NumberText(a)) == a;
  }

  /** The name shown for a product that cannot be named: `Product #${id}`. */
  function ProductPlaceholder(id: int): (r: string)
    ensures "Product #" <= r
    ensures SignedValue(r[|"Product #"|..]) == id
  {
    var r := "Product #" + NumberText(id);
    assert r[|"Product #"|..] == NumberText(id);
    r
  }

  /** Different ids get different placeholders. */
  lemma PlaceholderInjective(a: int, b: int)
    requires ProductPlaceholder(a) == ProductPlaceholder(b)
    ensures a == b
  {
    assert SignedValue(ProductPlaceholder(a)[|"Product #"|..]) == a;
  }
}
