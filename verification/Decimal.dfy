/** Decimal rendering and its inverse: `itoa` in internal/scan/scan.go, and the
    digit loop shared by `strconv.ParseUint` and `strconv.Atoi`. */
module Decimal {

  const MAX_UINT64: int := 0xFFFF_FFFF_FFFF_FFFF
  const MAX_INT64: int := 0x7FFF_FFFF_FFFF_FFFF

  predicate IsDigit(c: char) { '0' <= c <= '9' }

  function Digit(d: nat): (c: char)
    requires d < 10
    ensures IsDigit(c) && DigitValue(c) == d
  {
    '0' + d as char
  }

  function DigitValue(c: char): nat
    requires IsDigit(c)
  {
    (c - '0') as nat
  }

  /** The decimal numeral of `n`, without sign or leading zeros. */
  function Numeral(n: nat): (s: string)
    ensures s != []
    ensures forall c :: c in s ==> IsDigit(c)
    decreases n
  {
    if n < 10 then [Digit(n)] else Numeral(n / 10) + [Digit(n % 10)]
  }

  datatype Scanned = Value(n: nat) | BadSyntax | OutOfRange

  /** Reads digits left to right onto `acc`; the first bad character or the first
      overflow of 64 bits decides, whichever comes earlier. */
  function ScanDigits(s: string, acc: nat): (r: Scanned)
    ensures r.Value? && acc <= MAX_UINT64 ==> r.n <= MAX_UINT64
  {
    if s == [] then Value(acc)
    else if !IsDigit(s[0]) then BadSyntax
    else
      var next := acc * 10 + DigitValue(s[0]);
      if next > MAX_UINT64 then OutOfRange else ScanDigits(s[1..], next)
  }

  /** `strconv.ParseUint(s, 10, 64)` */
  function ParseUint(s: string): (r: Scanned)
    ensures r.Value? ==> r.n <= MAX_UINT64
  {
    if s == [] then BadSyntax else ScanDigits(s, 0)
  }

  lemma {:induction false} ScanDigitsAppend(s: string, c: char, acc: nat)
    requires ScanDigits(s, acc).Value? && IsDigit(c)
    ensures ScanDigits(s + [c], acc) == ScanDigits([c], ScanDigits(s, acc).n)
  {
    if s == [] {
      assert s + [c] == [c];
    } else {
      assert (s + [c])[1..] == s[1..] + [c];
      ScanDigitsAppend(s[1..], c, acc * 10 + DigitValue(s[0]));
    }
  }

  /** Parsing undoes printing for every 64-bit value. */
  lemma {:induction false} ParsePrinted(n: nat)
    requires n <= MAX_UINT64
    ensures ParseUint(Numeral(n)) == Value(n)
    decreases n
  {
    if n < 10 {
      assert ScanDigits([Digit(n)], 0) == ScanDigits([], n);
    } else {
      ParsePrinted(n / 10);
      ScanDigitsAppend(Numeral(n / 10), Digit(n % 10), 0);
      assert ScanDigits([Digit(n % 10)], n / 10) == ScanDigits([], n);
    }
  }

  /** Distinct numbers have distinct numerals. */
  lemma {:induction false} NumeralInjective(m: nat, n: nat)
    requires Numeral(m) == Numeral(n)
    ensures m == n
    decreases m
  {
    if m < 10 && n < 10 {
      assert Numeral(m)[0] == Digit(m) && Numeral(n)[0] == Digit(n);
    } else if m >= 10 && n >= 10 {
      var a, b := Numeral(m / 10), Numeral(n / 10);
      assert Numeral(m) == a + [Digit(m % 10)] && Numeral(n) == b + [Digit(n % 10)];
      assert a == Numeral(m)[..|a|] && b == Numeral(n)[..|b|];
      assert |a| == |b|;
      assert (a + [Digit(m % 10)])[|a|] == Digit(m % 10) && (b + [Digit(n % 10)])[|b|] == Digit(n % 10);
      NumeralInjective(m / 10, n / 10);
    } else {
      assert false;
    }
  }

  ghost function Pow10(e: nat): nat {
    if e == 0 then 1 else 10 * Pow10(e - 1)
  }

  lemma TwentyDigitsSuffice()
    ensures MAX_INT64 < Pow10(20)
  {
    assert Pow10(5) == 10_0000 && Pow10(10) == 100_0000_0000 && Pow10(15) == 1000_0000_0000_0000;
  }

  /** `k` is what of `n` is still to be printed, before `tail`. */
  ghost predicate Printing(n: int, k: nat, tail: string) {
    && n > 0 && |tail| <= 20 && k < Pow10(20 - |tail|)
    && Numeral(n) == (if k == 0 then [] else Numeral(k)) + tail
  }

  lemma PrintDigit(n: int, k: nat, tail: string)
    requires Printing(n, k, tail) && k > 0
    ensures |tail| < 20 && Printing(n, k / 10, [Digit(k % 10)] + tail)
  {
    var more := [Digit(k % 10)] + tail;
    assert Numeral(k) == (if k / 10 == 0 then [] else Numeral(k / 10)) + [Digit(k % 10)];
    assert Numeral(n) == (if k / 10 == 0 then [] else Numeral(k / 10)) + more;
    assert Pow10(20 - |tail|) == 10 * Pow10(20 - |more|);
  }

  /** `itoa`: fills a 20-byte buffer from its end. A negative argument yields the
      empty string, because the loop never runs. */
  method Itoa(n: int) returns (s: string)
    requires n <= MAX_INT64
    ensures s == if n < 0 then "" else Numeral(n)
  {
    if n == 0 {
      return "0";
    }
    var buf := new char[20];
    var i, k := buf.Length, n;
    TwentyDigitsSuffice();
    while k > 0
      invariant 0 <= i <= buf.Length && (n < 0 ==> k == n && i == buf.Length)
      invariant n > 0 ==> k >= 0 && Printing(n, k, buf[i..])
    {
      ghost var filled := buf[i..];
      PrintDigit(n, k, filled);
      i := i - 1;
      buf[i] := Digit(k % 10);
      assert buf[i + 1..] == filled;
      assert buf[i..] == [Digit(k % 10)] + filled;
      k := k / 10;
    }
    s := buf[i..];
  }

  /** A user id rendered when no name is available. */
  function UidString(uid: nat): (s: string)
    ensures s != ""
  {
    "uid:" + Numeral(uid)
  }

  /** A user without a name is shown by its number, after "uid:". */
  lemma UidStringShows(uid: nat)
    requires uid <= MAX_UINT64
    ensures var s := UidString(uid); |s| > 4 && s[..4] == "uid:" && ParseUint(s[4..]) == Value(uid)
  {
    ParsePrinted(uid);
    assert UidString(uid)[4..] == Numeral(uid);
  }

  /** Two users without names never share a group. */
  lemma UidStringInjective(a: nat, b: nat)
    requires UidString(a) == UidString(b)
    ensures a == b
  {
    assert Numeral(a) == UidString(a)[4..] && Numeral(b) == UidString(b)[4..];
    NumeralInjective(a, b);
  }
}
