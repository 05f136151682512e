/**
 * Text rendering of the numbers that go into a package's name and
 * description: Python's str() of a non-negative int, Python 2's str() of a
 * float that is a whole number of 1/1024ths (every RAM size in gigabytes
 * that is a whole number of megabytes), and the description's RAM display
 * that drops the ".0" of a whole number. A parser reads the float form back.
 */
module Render {
  import opened Wrappers
  import opened PyNumbers

  predicate IsDigit(c: char) { '0' <= c <= '9' }

  predicate AllDigits(s: string) { forall i :: 0 <= i < |s| ==> IsDigit(s[i]) }

  function DigitChar(d: nat): (c: char)
    requires d < 10
    ensures IsDigit(c) && DigitValue(c) == d
  {
    "0123456789"[d]
  }

  function DigitValue(c: char): nat
    requires IsDigit(c)
  {
    (c as int - '0' as int) as nat
  }

  /** The number a string of decimal digits denotes (leading zeros allowed). */
  function ParseDigits(s: string): nat
    requires AllDigits(s)
  {
    if s == [] then 0 else ParseDigits(s[..|s| - 1]) * 10 + DigitValue(s[|s| - 1])
  }

  function Pow10(k: nat): (p: nat)
    ensures 1 <= p
  {
    if k == 0 then 1 else 10 * Pow10(k - 1)
  }

  function Zeros(k: nat): (s: string)
    ensures |s| == k && AllDigits(s)
    ensures forall i :: 0 <= i < k ==> s[i] == '0'
  {
    if k == 0 then [] else Zeros(k - 1) + "0"
  }

  /** Python's str(n) for a non-negative int: decimal digits, no leading zero. */
  function NatStr(n: nat): (s: string)
    ensures 1 <= |s| && AllDigits(s)
    ensures 1 < |s| ==> s[0] != '0'
    ensures ParseDigits(s) == n
  {
    if n < 10 then [DigitChar(n)] else NatStr(n / 10) + [DigitChar(n % 10)]
  }

  /** The k-digit, zero-padded decimal form of n < 10^k. */
  function FixedDigits(n: nat, k: nat): (s: string)
    requires n < Pow10(k)
    ensures |s| == k && AllDigits(s)
    ensures ParseDigits(s) == n
  {
    if k == 0 then [] else FixedDigits(n / 10, k - 1) + [DigitChar(n % 10)]
  }

  /** s with its trailing '0' characters removed. */
  function StripTrailingZeros(s: string): (r: string)
    ensures |r| <= |s| && s == r + Zeros(|s| - |r|)
    ensures r == [] || r[|r| - 1] != '0'
  {
    if s != [] && s[|s| - 1] == '0' then StripTrailingZeros(s[..|s| - 1]) else s
  }

  /** The whole number of 1/1024ths in x (exact when Dyadic(x)). */
  function Units(x: real): int
  {
    (x * 1024.0).Floor
  }

  /** x is non-negative and a whole number of 1/1024ths. */
  predicate Dyadic(x: real)
  {
    0.0 <= x && Units(x) as real == x * 1024.0
  }

  /**
   * The fractional digits of f/1024 for f < 1024, as Python prints them:
   * "0" for no fraction, else the exact expansion without trailing zeros.
   * f/1024 == f * 5^10 / 10^10, so the expansion has at most ten digits.
   */
  function FracStr(f: nat): string
    requires f < 1024
  {
    if f == 0 then "0" else StripTrailingZeros(FixedDigits(f * 9765625, 10))
  }

  /** Python 2's str(x) of a float, for an x that is a whole number of 1/1024ths. */
  function PyStr(x: real): string
    requires Dyadic(x)
  {
    var u := Units(x);
    NatStr(u / 1024) + "." + FracStr(u % 1024)
  }

  /**
   * How the description shows a RAM size: str(int(x)) when x is a whole
   * number, str(x) otherwise.
   */
  function DisplayNumber(x: real): string
    requires Dyadic(x)
  {
    if x == Trunc(x) as real then NatStr(Trunc(x)) else PyStr(x)
  }

  /** The part of s before the first occurrence of c, and the part after it. */
  function SplitAt(s: string, c: char): Option<(string, string)>
  {
    if s == [] then None
    else if s[0] == c then Some(([], s[1..]))
    else match SplitAt(s[1..], c)
      case None => None
      case Some(p) => Some(([s[0]] + p.0, p.1))
  }

  /**
   * Reads "W.F" (W and F non-empty digit strings, F at most ten digits long
   * and a whole number of 1/1024ths) back into its number of 1/1024ths.
   */
  function ParseUnits(s: string): Option<nat>
  {
    match SplitAt(s, '.')
    case None => None
    case Some(p) =>
      var (w, f) := p;
      if w == [] || f == [] || 10 < |f| || !AllDigits(w) || !AllDigits(f) then None
      else
        var scaled := ParseDigits(f + Zeros(10 - |f|));
        if scaled % 9765625 != 0 then None
        else Some(ParseDigits(w) * 1024 + scaled / 9765625)
  }

  lemma {:induction false} ParseZeros(k: nat)
    ensures ParseDigits(Zeros(k)) == 0
  {
    if k > 0 {
      ParseZeros(k - 1);
      assert Zeros(k)[..k - 1] == Zeros(k - 1);
    }
  }

  /** Splitting a + [c] + b at c gives back a and b when a holds no c. */
  lemma {:induction false} SplitAtFirst(a: string, c: char, b: string)
    requires forall i :: 0 <= i < |a| ==> a[i] != c
    ensures SplitAt(a + [c] + b, c) == Some((a, b))
  {
    if a == [] {
      assert a + [c] + b == [c] + b;
    } else {
      var s := a + [c] + b;
      assert s[0] == a[0] && s[1..] == a[1..] + [c] + b;
      SplitAtFirst(a[1..], c, b);
      assert [a[0]] + a[1..] == a;
    }
  }

  /** The fraction digits are non-empty, at most ten long, and pad back to f * 5^10. */
  lemma FracStrPadded(f: nat)
    requires f < 1024
    ensures 1 <= |FracStr(f)| <= 10 && AllDigits(FracStr(f))
    ensures ParseDigits(FracStr(f) + Zeros(10 - |FracStr(f)|)) == f * 9765625
  {
    if f == 0 {
      assert FracStr(f) + Zeros(9) == Zeros(10);
      ParseZeros(10);
    } else {
      var full := FixedDigits(f * 9765625, 10);
      var r := StripTrailingZeros(full);
      assert full == r + Zeros(10 - |r|);
      if r == [] {
        assert full == Zeros(10);
        ParseZeros(10);
      }
      assert AllDigits(r) by {
        forall i | 0 <= i < |r| ensures IsDigit(r[i]) {
          assert r[i] == full[i];
        }
      }
    }
  }

  /** Round trip: PyStr's text reads back as the number it renders. */
  lemma ParseUnitsPyStr(x: real)
    requires Dyadic(x)
    ensures ParseUnits(PyStr(x)) == Some(Units(x))
  {
    var u := Units(x);
    var w, f := NatStr(u / 1024), FracStr(u % 1024);
    FracStrPadded(u % 1024);
    assert PyStr(x) == w + ['.'] + f;
    SplitAtFirst(w, '.', f);
  }

  /** Distinct sizes have distinct renderings. */
  lemma PyStrInjective(x: real, y: real)
    requires Dyadic(x) && Dyadic(y)
    requires PyStr(x) == PyStr(y)
    ensures x == y
  {
    ParseUnitsPyStr(x);
    ParseUnitsPyStr(y);
  }

  /**
   * The description's form is Python's str(x) with the ".0" of a whole
   * number dropped, and is str(x) itself otherwise.
   */
  lemma DisplayNumberDropsPointZero(x: real)
    requires Dyadic(x)
    ensures x == Trunc(x) as real ==> PyStr(x) == DisplayNumber(x) + ".0"
    ensures x != Trunc(x) as real ==> DisplayNumber(x) == PyStr(x)
  {
    if x == Trunc(x) as real {
      var k := Trunc(x);
      assert x * 1024.0 == (k * 1024) as real;
      var u := Units(x);
      assert u == k * 1024;
      assert u / 1024 == k && u % 1024 == 0;
      assert PyStr(x) == NatStr(k) + "." + "0";
    }
  }

  /** str(x) from the whole part w and the 1/1024ths f of x. */
  lemma PyStrParts(x: real, w: nat, f: nat)
    requires f < 1024 && x * 1024.0 == (w * 1024 + f) as real
    ensures Dyadic(x) && PyStr(x) == NatStr(w) + "." + FracStr(f)
  {
    var u := w * 1024 + f;
    assert Units(x) == u;
    assert u / 1024 == w && u % 1024 == f;
  }

  /** Stripping trailing zeros undoes appending them to a string not ending in '0'. */
  lemma {:induction false} StripZerosAppended(r: string, z: nat)
    requires r == [] || r[|r| - 1] != '0'
    ensures StripTrailingZeros(r + Zeros(z)) == r
  {
    if z == 0 {
      assert r + Zeros(0) == r;
    } else {
      StripZerosAppended(r, z - 1);
      var s := r + Zeros(z);
      assert s[|s| - 1] == '0';
      assert s[..|s| - 1] == r + Zeros(z - 1);
    }
  }

  lemma QuarterZeros()
    ensures "25" + Zeros(8) == "2500000000"
  {
    assert Zeros(8) == "00000000";
  }

  /** 256/1024 = .25: str(0.25) ends in "25". */
  lemma FracQuarter()
    ensures FracStr(256) == "25"
  {
    assert 256 * 9765625 == 2500000000;
    assert FixedDigits(2500000000, 10) == "2500000000";
    QuarterZeros();
    StripZerosAppended("25", 8);
  }

  lemma HalfZeros()
    ensures "5" + Zeros(9) == "5000000000"
  {
    assert Zeros(9) == "000000000";
  }

  /** 512/1024 = .5: str(0.5) ends in "5". */
  lemma FracHalf()
    ensures FracStr(512) == "5"
  {
    assert 512 * 9765625 == 5000000000;
    assert FixedDigits(5000000000, 10) == "5000000000";
    HalfZeros();
    StripZerosAppended("5", 9);
  }
}
