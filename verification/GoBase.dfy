/** Go's fixed-width integers and the decimal conversions of `strconv`. */
module GoBase {

  datatype Option<+T> = None | Some(value: T)

  const TWO63: int := 0x8000_0000_0000_0000
  const TWO64: int := 0x1_0000_0000_0000_0000

  predicate IsInt64(x: int) { -TWO63 <= x < TWO63 }

  predicate IsUint64(x: int) { 0 <= x < TWO64 }

  /** The int64 that two's-complement arithmetic leaves for the exact result `x`. */
  function Wrap64(x: int): (r: int)
    ensures IsInt64(r)
    ensures IsInt64(x) ==> r == x
    ensures (r - x) % TWO64 == 0
  {
    (x + TWO63) % TWO64 - TWO63
  }

  /** The conversion `uint64(x)`, and every uint64 addition. */
  function ToUint64(x: int): (r: int)
    ensures IsUint64(r)
    ensures IsUint64(x) ==> r == x
    ensures (r - x) % TWO64 == 0
  {
    x % TWO64
  }

  /** Congruent int64 values are equal. */
  lemma CongruentInt64(a: int, b: int)
    requires IsInt64(a) && IsInt64(b) && (a - b) % TWO64 == 0
    ensures a == b
  {
  }

  /** Wrapping part-way through a sum does not change the wrapped sum. */
  lemma WrapAdd(a: int, b: int)
    ensures Wrap64(Wrap64(a) + b) == Wrap64(a + b)
  {
    var k := (Wrap64(a) - a) / TWO64;
    assert Wrap64(a) == a + k * TWO64;
    var x, y := Wrap64(Wrap64(a) + b), Wrap64(a + b);
    var m, n := (x - (Wrap64(a) + b)) / TWO64, (y - (a + b)) / TWO64;
    assert x - y == (m + k - n) * TWO64;
    CongruentInt64(x, y);
  }

  // ---------------------------------------------------------------- decimal

  predicate IsDigit(c: char) { '0' <= c <= '9' }

  predicate AllDigits(s: string) { forall i :: 0 <= i < |s| ==> IsDigit(s[i]) }

  function DigitChar(d: nat): char
    requires d < 10
  {
    ('0' as int + d) as char
  }

  function Digits(n: nat): string {
    if n < 10 then [DigitChar(n)] else Digits(n / 10) + [DigitChar(n % 10)]
  }

  /** `strconv.FormatInt(n, 10)`. */
  function FormatInt(n: int): string {
    if n < 0 then "-" + Digits(-n) else Digits(n)
  }

  /** The number a string of digits denotes. */
  function Value(s: string): nat
    requires AllDigits(s)
  {
    if s == "" then 0
    else Value(s[..|s| - 1]) * 10 + (s[|s| - 1] as int - '0' as int)
  }

  /** `strconv.ParseInt(s, 10, 64)`: the value and whether the error is nil. */
  function ParseInt(s: string): (int, bool) {
    var signed := s != "" && (s[0] == '-' || s[0] == '+');
    var negative := s != "" && s[0] == '-';
    var body := if signed then s[1..] else s;
    if body == "" || !AllDigits(body) then (0, false)
    else
      var v: int := Value(body);
      if !negative && v >= TWO63 then (TWO63 - 1, false)
      else if negative && v > TWO63 then (-TWO63, false)
      else (if negative then -v else v, true)
  }

  lemma {:induction false} DigitsValue(n: nat)
    ensures Digits(n) != ""
    ensures AllDigits(Digits(n))
    ensures Value(Digits(n)) == n
  {
    var s := Digits(n);
    if n < 10 {
      assert s[..|s| - 1] == "";
    } else {
      DigitsValue(n / 10);
      assert s[..|s| - 1] == Digits(n / 10);
    }
  }

  /** The text is this number in decimal, with an optional sign. */
  predicate Denotes(s: string, n: int) {
    if s != "" && (s[0] == '-' || s[0] == '+') then
      |s| > 1 && AllDigits(s[1..]) && (if s[0] == '-' then -n else n) == Value(s[1..])
    else s != "" && AllDigits(s) && n == Value(s)
  }

  /** Parsing succeeds exactly on the texts of int64 values, and gives that value. */
  lemma ParseExact(s: string)
    ensures var (n, ok) := ParseInt(s); ok <==> Denotes(s, n) && IsInt64(n)
    ensures forall m :: IsInt64(m) && Denotes(s, m) ==> ParseInt(s) == (m, true)
  {
  }

  /** Parsing undoes printing on every int64, the minimum included, and refuses every other integer. */
  lemma ParseFormat(n: int)
    ensures ParseInt(FormatInt(n)).1 <==> IsInt64(n)
    ensures IsInt64(n) ==> ParseInt(FormatInt(n)).0 == n
  {
    var m := if n < 0 then -n else n;
    DigitsValue(m);
    var s := FormatInt(n);
    assert IsDigit(Digits(m)[0]);
    if n < 0 {
      assert s[1..] == Digits(m);
    }
  }
}
