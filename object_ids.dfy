/** Twelve-byte document identifiers and their 24-digit hexadecimal form. */
module ObjectIds {
  import opened Wrappers

  /** The width of the hexadecimal form of an identifier. */
  const Width: nat := 24

  /** 16^24: the number of distinct identifiers. */
  const Bound: nat := Pow16(Width)

  /** An identifier, read as a big-endian number. */
  datatype Id = Id(n: nat)
  {
    predicate Valid() { n < Bound }
    predicate IsZero() { n == 0 }
  }

  const Zero: Id := Id(0)

  predicate IsHexDigit(c: char) {
    ('0' <= c <= '9') || ('a' <= c <= 'f') || ('A' <= c <= 'F')
  }

  predicate AllHex(s: string) {
    forall i :: 0 <= i < |s| ==> IsHexDigit(s[i])
  }

  /** Whether `s` is the hexadecimal form of an identifier (either letter case). */
  predicate IsHex(s: string) {
    |s| == Width && AllHex(s)
  }

  function DigitValue(c: char): (v: nat)
    requires IsHexDigit(c)
    ensures v < 16
  {
    if '0' <= c <= '9' then c as int - '0' as int
    else if 'a' <= c <= 'f' then c as int - 'a' as int + 10
    else c as int - 'A' as int + 10
  }

  function DigitChar(v: nat): (c: char)
    requires v < 16
  {
    if v < 10 then ('0' as int + v) as char else ('a' as int + v - 10) as char
  }

  function Pow16(w: nat): (p: nat)
    ensures p >= 1
  {
    if w == 0 then 1 else 16 * Pow16(w - 1)
  }

  function HexValue(s: string): nat
    requires AllHex(s)
  {
    if s == [] then 0 else HexValue(s[..|s| - 1]) * 16 + DigitValue(s[|s| - 1])
  }

  /** The `w` lowest hexadecimal digits of `n`, most significant first, lower case. */
  function HexDigits(n: nat, w: nat): (s: string)
    ensures |s| == w && AllHex(s)
  {
    if w == 0 then [] else HexDigits(n / 16, w - 1) + [DigitChar(n % 16)]
  }

  /** `Hex` of the source: the canonical lower-case form. */
  function Hex(id: Id): (s: string)
    ensures IsHex(s)
  {
    HexDigits(id.n, Width)
  }

  /** `FromHex` of the source: parsing fails on anything that is not 24 hex digits. */
  function FromHex(s: string): (r: Option<Id>)
    ensures r.Some? <==> IsHex(s)
    ensures r.Some? ==> r.value.Valid()
  {
    if IsHex(s) then
      HexValueBound(s);
      Some(Id(HexValue(s)))
    else None
  }

  function Lower(c: char): char {
    if 'A' <= c <= 'F' then (c as int - 'A' as int + 'a' as int) as char else c
  }

  function LowerAll(s: string): (r: string)
    ensures |r| == |s|
  {
    if s == [] then [] else LowerAll(s[..|s| - 1]) + [Lower(s[|s| - 1])]
  }

  lemma {:induction false} HexValueBound(s: string)
    requires AllHex(s)
    ensures HexValue(s) < Pow16(|s|)
  {
    if s != [] {
      HexValueBound(s[..|s| - 1]);
    }
  }

  lemma {:induction false} HexValueOfDigits(n: nat, w: nat)
    ensures HexValue(HexDigits(n, w)) == n % Pow16(w)
  {
    if w > 0 {
      var s := HexDigits(n, w);
      assert s[..|s| - 1] == HexDigits(n / 16, w - 1);
      HexValueOfDigits(n / 16, w - 1);
      DigitRoundTrip(n % 16);
      ModSplit(n, Pow16(w - 1));
    }
  }

  lemma DigitRoundTrip(v: nat)
    requires v < 16
    ensures IsHexDigit(DigitChar(v)) && DigitValue(DigitChar(v)) == v
  {
  }

  /** n mod 16p == (n/16 mod p) * 16 + n mod 16. */
  lemma ModSplit(n: nat, p: nat)
    requires p >= 1
    ensures n % (16 * p) == (n / 16) % p * 16 + n % 16
  {
    var q := n / 16;
    var r := n % 16;
    assert n == 16 * q + r;
    var a := q / p;
    var b := q % p;
    assert q == p * a + b;
    assert n == (16 * p) * a + (16 * b + r);
    assert 0 <= 16 * b + r < 16 * p;
    DivModUnique(n, 16 * p, a, 16 * b + r);
  }

  lemma DivModUnique(n: int, d: int, q: int, r: int)
    requires d > 0 && 0 <= r < d && n == d * q + r
    ensures n / d == q && n % d == r
  {
    var q0, r0 := n / d, n % d;
    assert d * q0 + r0 == n;
    MulDiff(d, q, q0);
    if q > q0 {
      MulAtLeast(d, q - q0);
    } else if q < q0 {
      MulAtLeast(d, q0 - q);
    }
  }

  lemma MulDiff(d: int, a: int, b: int)
    ensures d * a - d * b == d * (a - b)
  {
  }

  lemma MulAtLeast(d: int, k: int)
    requires d > 0 && k >= 1
    ensures d * k >= d
  {
  }

  /** Formatting then parsing gives back the identifier. */
  lemma FromHexOfHex(id: Id)
    requires id.Valid()
    ensures FromHex(Hex(id)) == Some(id)
  {
    var s := Hex(id);
    HexValueOfDigits(id.n, Width);
    DivModUnique(id.n, Pow16(Width), 0, id.n);
    assert HexValue(s) == id.n;
  }

  lemma {:induction false} DigitsOfValue(s: string)
    requires AllHex(s)
    ensures HexDigits(HexValue(s), |s|) == LowerAll(s)
  {
    if s != [] {
      var init := s[..|s| - 1];
      var c := s[|s| - 1];
      var v := HexValue(s);
      assert v == HexValue(init) * 16 + DigitValue(c);
      assert v / 16 == HexValue(init) && v % 16 == DigitValue(c) by {
        DivModUnique(v, 16, HexValue(init), DigitValue(c));
      }
      DigitsOfValue(init);
      assert DigitChar(DigitValue(c)) == Lower(c);
    }
  }

  /** Parsing then formatting gives the lower-case spelling of the input. */
  lemma HexOfFromHex(s: string)
    requires IsHex(s)
    ensures Hex(FromHex(s).value) == LowerAll(s)
  {
    DigitsOfValue(s);
  }
}
