/** The parts of the Java platform that the Bencode decoder relies on: 32-bit
    integers, String.valueOf(int), Integer.parseInt, String.compareTo,
    String.isBlank and String.repeat, and the shape of a Java call's outcome
    (a returned value or a thrown exception). */
module Java {

  /** A reference that may be null. */
  datatype Option<+T> = None | Some(value: T)

  /** The exceptions the modelled code can raise. */
  datatype Exception =
    | StringIndexOutOfBounds   // String.substring with bad bounds
    | ClassCast                // a failed (Integer) cast

  /** What a Java call produces: a value, or an exception that propagates. */
  datatype Outcome<+T> = Returned(value: T) | Threw(exception: Exception)

  const MinInt: int := -0x8000_0000
  const MaxInt: int := 0x7fff_ffff

  type Int32 = x: int | MinInt <= x <= MaxInt

  /** Java `int` addition: the mathematical sum reduced to 32 bits. */
  function WrapInt32(x: int): (r: Int32)
    ensures MinInt <= x <= MaxInt ==> r == x
    ensures (r - x) % 0x1_0000_0000 == 0
  {
    var m := (x - MinInt) % 0x1_0000_0000;
    m + MinInt
  }

  // ---------------------------------------------------------------- digits

  predicate IsAsciiDigit(c: char) { '0' <= c <= '9' }

  predicate AllDigits(s: string) { forall k | 0 <= k < |s| :: IsAsciiDigit(s[k]) }

  function DigitChar(d: nat): (c: char)
    requires d < 10
    ensures IsAsciiDigit(c)
  {
    (('0' as int) + d) as char
  }

  /** The value of a run of decimal digits, most significant first. */
  function DigitsValue(s: string): nat
    requires AllDigits(s)
  {
    if s == [] then 0
    else 10 * DigitsValue(s[..|s| - 1]) + ((s[|s| - 1] as int) - ('0' as int))
  }

  /** The shortest decimal form of a natural number. */
  function NatToDigits(n: nat): (s: string)
    ensures |s| >= 1 && AllDigits(s)
  {
    if n < 10 then [DigitChar(n)] else NatToDigits(n / 10) + [DigitChar(n % 10)]
  }

  /** String.valueOf(int): an optional minus sign and the shortest digits. */
  function IntToString(n: int): string
  {
    if n < 0 then "-" + NatToDigits(0 - n) else NatToDigits(n)
  }

  /** How many decimal digits NatToDigits writes. */
  function DigitCount(n: nat): (r: nat)
    ensures r >= 1
  {
    if n < 10 then 1 else DigitCount(n / 10) + 1
  }

  /** How many characters IntToString writes. */
  function IntWidth(n: int): nat
  {
    if n < 0 then DigitCount(0 - n) + 1 else DigitCount(n)
  }

  lemma {:induction false} NatToDigitsLength(n: nat)
    ensures |NatToDigits(n)| == DigitCount(n)
  {
    if n >= 10 {
      NatToDigitsLength(n / 10);
    }
  }

  lemma IntToStringLength(n: int)
    ensures |IntToString(n)| == IntWidth(n)
  {
    NatToDigitsLength(if n < 0 then 0 - n else n);
  }

  /** Integer.parseInt(s, 10) over ASCII digits: one optional sign, at least one
      digit, and a value inside the `int` range; None where Java throws
      NumberFormatException. */
  function ParseInt(s: string): (r: Option<Int32>)
    ensures r.Some? ==> |s| >= 1 && AllDigits(if s[0] == '-' || s[0] == '+' then s[1..] else s)
  {
    if |s| == 0 then None
    else
      var body := if s[0] == '-' || s[0] == '+' then s[1..] else s;
      if |body| == 0 || !AllDigits(body) then None
      else
        var v: int := if s[0] == '-' then 0 - DigitsValue(body) else DigitsValue(body);
        if MinInt <= v <= MaxInt then Some(v) else None
  }

  lemma {:induction false} DigitsValueOfNatToDigits(n: nat)
    ensures DigitsValue(NatToDigits(n)) == n
  {
    var s := NatToDigits(n);
    if n >= 10 {
      var p := NatToDigits(n / 10);
      assert s == p + [DigitChar(n % 10)];
      assert s[..|s| - 1] == p;
      DigitsValueOfNatToDigits(n / 10);
    }
  }

  /** The first digit of a shortest decimal form is '0' only for zero itself. */
  lemma {:induction false} NatToDigitsLeadingDigit(n: nat)
    ensures NatToDigits(n)[0] == '0' <==> n == 0
    ensures n < 10 <==> |NatToDigits(n)| == 1
  {
    if n >= 10 {
      NatToDigitsLeadingDigit(n / 10);
      assert NatToDigits(n)[0] == NatToDigits(n / 10)[0];
    }
  }

  /** Integer.parseInt inverts String.valueOf on every `int`. */
  lemma ParseIntOfIntToString(n: Int32)
    ensures ParseInt(IntToString(n)) == Some(n)
  {
    var s := IntToString(n);
    if n < 0 {
      var m: nat := 0 - n as int;
      var d := NatToDigits(m);
      assert s == "-" + d && s[0] == '-';
      assert s[1..] == d;
      DigitsValueOfNatToDigits(m);
    } else {
      var d := NatToDigits(n);
      assert s == d && IsAsciiDigit(s[0]);
      DigitsValueOfNatToDigits(n);
    }
  }

  function Pow10(n: nat): nat
  {
    if n == 0 then 1 else 10 * Pow10(n - 1)
  }

  /** Digits that do not start with 0 are worth at least 10^(length - 1). */
  lemma {:induction false} DigitsValueAtLeast(s: string)
    requires |s| >= 1 && AllDigits(s) && s[0] != '0'
    ensures DigitsValue(s) >= Pow10(|s| - 1)
  {
    var init := s[..|s| - 1];
    assert AllDigits(init) by {
      forall k | 0 <= k < |init| ensures IsAsciiDigit(init[k]) { assert init[k] == s[k]; }
    }
    if |s| > 1 {
      assert init[0] == s[0];
      DigitsValueAtLeast(init);
    } else {
      assert init == [];
    }
  }

  lemma {:induction false} Pow10BeyondInt(n: nat)
    requires n >= 10
    ensures Pow10(n) > MaxInt + 1
  {
    if n == 10 {
      assert Pow10(10) == 10_000_000_000;
    } else {
      Pow10BeyondInt(n - 1);
    }
  }

  /** Integer.parseInt fails on any literal whose digits, after an optional
      sign, start with a non-zero digit and number more than ten: the value
      is beyond the int range in either direction. */
  lemma ParseIntRejectsLong(s: string)
    requires |s| >= 1
    requires var body := if s[0] == '-' || s[0] == '+' then s[1..] else s;
             |body| > 10 && AllDigits(body) && body[0] != '0'
    ensures var body := if s[0] == '-' || s[0] == '+' then s[1..] else s;
            DigitsValue(body) > MaxInt + 1
    ensures ParseInt(s) == None
  {
    var body := if s[0] == '-' || s[0] == '+' then s[1..] else s;
    DigitsValueAtLeast(body);
    Pow10BeyondInt(|body| - 1);
  }

  // ----------------------------------------------------- String.compareTo

  /** String.compareTo: the difference of the first differing characters,
      otherwise the difference of the lengths. */
  function CompareTo(a: string, b: string): int
  {
    if |a| == 0 || |b| == 0 then |a| - |b|
    else if a[0] != b[0] then (a[0] as int) - (b[0] as int)
    else CompareTo(a[1..], b[1..])
  }

  lemma {:induction false} CompareToZero(a: string, b: string)
    ensures CompareTo(a, b) == 0 <==> a == b
  {
    if |a| != 0 && |b| != 0 && a[0] == b[0] {
      CompareToZero(a[1..], b[1..]);
      assert a == [a[0]] + a[1..] && b == [b[0]] + b[1..];
    }
  }

  lemma {:induction false} CompareToSwap(a: string, b: string)
    ensures CompareTo(b, a) == -CompareTo(a, b)
  {
    if |a| != 0 && |b| != 0 && a[0] == b[0] {
      CompareToSwap(a[1..], b[1..]);
    }
  }

  lemma {:induction false} CompareToTransitive(a: string, b: string, c: string)
    requires CompareTo(a, b) < 0 && CompareTo(b, c) < 0
    ensures CompareTo(a, c) < 0
  {
    if |a| != 0 && |b| != 0 && |c| != 0 && a[0] == b[0] && b[0] == c[0] {
      CompareToTransitive(a[1..], b[1..], c[1..]);
    }
  }

  // ------------------------------------------------------- String.isBlank

  /** Character.isWhitespace: the ASCII controls TAB..CR and FS..US, and the
      Unicode space, line and paragraph separators other than the no-break
      spaces U+00A0, U+2007 and U+202F. */
  predicate IsWhitespace(c: char)
  {
    || '\U{0009}' <= c <= '\U{000D}'
    || '\U{001C}' <= c <= '\U{0020}'
    || c == '\U{1680}'
    || '\U{2000}' <= c <= '\U{2006}'
    || '\U{2008}' <= c <= '\U{200A}'
    || c == '\U{2028}' || c == '\U{2029}' || c == '\U{205F}' || c == '\U{3000}'
  }

  /** String.isBlank: empty or whitespace only. */
  predicate IsBlank(s: string) { forall k | 0 <= k < |s| :: IsWhitespace(s[k]) }

  /** " ".repeat(n) and its kin. */
  function Repeat(c: char, n: nat): (r: string)
    ensures |r| == n && forall k | 0 <= k < n :: r[k] == c
  {
    if n == 0 then "" else Repeat(c, n - 1) + [c]
  }
}
