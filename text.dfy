/**
 * Character-level building blocks shared by the rest of the model: digit
 * strings in bases 2 to 16 (what QString::arg and QString::number print),
 * their parsers, ASCII upper-casing (QString::toUpper on the digit alphabet),
 * QString::split / QStringList::join on one separator character, and
 * QString::toInt for the decimal strings the program reads back.
 */
module Text {

  datatype Option<+T> = None | Some(value: T)

  /** The range of a C++ `int` on the platforms the program targets (32 bits). */
  type Int32 = x: int | -0x8000_0000 <= x < 0x8000_0000

  const Pow64: int := 0x1_0000_0000_0000_0000

  // ---------------------------------------------------------------------------
  // Digits

  /** The lower-case digit Qt prints for `d`. */
  function DigitChar(d: nat): char
    requires d < 16
  {
    if d < 10 then ('0' as int + d) as char else ('a' as int + d - 10) as char
  }

  /** Value of a digit character of either case, -1 for anything that is not a digit. */
  function DigitValue(c: char): int
  {
    if '0' <= c <= '9' then c as int - '0' as int
    else if 'a' <= c <= 'f' then c as int - 'a' as int + 10
    else if 'A' <= c <= 'F' then c as int - 'A' as int + 10
    else -1
  }

  lemma DigitRoundTrip(d: nat)
    requires d < 16
    ensures DigitValue(DigitChar(d)) == d
  {
  }

  predicate IsDigitOf(c: char, base: nat)
  {
    0 <= DigitValue(c) < base
  }

  predicate AllDigits(s: string, base: nat)
  {
    forall i :: 0 <= i < |s| ==> IsDigitOf(s[i], base)
  }

  /** The number a digit string denotes, most significant digit first. */
  function ValueOf(s: string, base: nat): nat
    requires AllDigits(s, base)
  {
    if s == [] then 0
    else ValueOf(s[..|s| - 1], base) * base + DigitValue(s[|s| - 1])
  }

  /** The minimal digit string of `n` in `base`, lower case (what `QString::arg(n, 0, base)` prints for n >= 0). */
  function Digits(n: nat, base: nat): (s: string)
    requires 2 <= base <= 16
    ensures |s| >= 1 && AllDigits(s, base)
    ensures ValueOf(s, base) == n
    ensures s[0] != '0' || n == 0
    decreases n
  {
    if n < base then [DigitChar(n)]
    else
      var q, r := n / base, n % base;
      DivMod(n, base);
      var p := Digits(q, base);
      var c := DigitChar(r);
      assert DigitValue(c) == r;
      ValueOfAppend(p, c, base);
      p + [c]
  }

  /** `fill` repeated on the left of `s` up to `width` characters (the field width of QString::arg). */
  function PadLeft(s: string, width: nat, fill: char): (r: string)
    ensures |r| == if |s| >= width then |s| else width
    ensures r[|r| - |s|..] == s
    ensures forall i :: 0 <= i < |r| - |s| ==> r[i] == fill
  {
    if |s| >= width then s else seq(width - |s|, _ => fill) + s
  }

  /** Parses a non-empty digit string; the inverse of Digits and PadLeft with '0'. */
  function ParseNat(s: string, base: nat): Option<nat>
  {
    if s != [] && AllDigits(s, base) then Some(ValueOf(s, base)) else None
  }

  lemma {:induction false} ValueOfAppend(p: string, c: char, base: nat)
    requires AllDigits(p, base) && IsDigitOf(c, base)
    ensures AllDigits(p + [c], base)
    ensures ValueOf(p + [c], base) == ValueOf(p, base) * base + DigitValue(c)
  {
    var s := p + [c];
    assert s[..|s| - 1] == p;
  }

  /** Leading zeros do not change the value of a digit string. */
  lemma {:induction false} ValueOfZeroPrefix(z: string, s: string, base: nat)
    requires 2 <= base
    requires forall i :: 0 <= i < |z| ==> z[i] == '0'
    requires AllDigits(s, base)
    ensures AllDigits(z + s, base)
    ensures ValueOf(z + s, base) == ValueOf(s, base)
    decreases |s|
  {
    if s == [] {
      assert z + s == z;
      ZerosValue(z, base);
    } else {
      var p := s[..|s| - 1];
      var c := s[|s| - 1];
      assert s == p + [c];
      assert AllDigits(p, base) by {
        forall i | 0 <= i < |p| ensures IsDigitOf(p[i], base) { assert p[i] == s[i]; }
      }
      ValueOfZeroPrefix(z, p, base);
      assert z + s == (z + p) + [c];
      ValueOfAppend(z + p, c, base);
      ValueOfAppend(p, c, base);
    }
  }

  lemma {:induction false} ZerosValue(z: string, base: nat)
    requires 2 <= base
    requires forall i :: 0 <= i < |z| ==> z[i] == '0'
    ensures AllDigits(z, base) && ValueOf(z, base) == 0
    decreases |z|
  {
    if z != [] {
      var p := z[..|z| - 1];
      assert z == p + ['0'];
      ZerosValue(p, base);
      ValueOfAppend(p, '0', base);
    }
  }

  /** A digit string padded to `width` with zeros still parses to its value. */
  lemma PadDigitsValue(n: nat, base: nat, width: nat)
    requires 2 <= base <= 16
    ensures ParseNat(PadLeft(Digits(n, base), width, '0'), base) == Some(n)
  {
    var s := Digits(n, base);
    var r := PadLeft(s, width, '0');
    var z := r[..|r| - |s|];
    assert r == z + s;
    ValueOfZeroPrefix(z, s, base);
  }

  /** A number below base^k has at most k digits. */
  lemma {:induction false} DigitsLength(n: nat, base: nat, k: nat)
    requires 2 <= base <= 16
    requires n < Power(base, k)
    ensures |Digits(n, base)| <= if k == 0 then 1 else k
    decreases k
  {
    if n >= base {
      assert k >= 2 by {
        assert Power(base, 0) == 1;
        assert Power(base, 1) == base * 1;
      }
      var q, P := n / base, Power(base, k - 1);
      assert Power(base, k) == base * P;
      DivBelow(n, base, P);
      DigitsLength(q, base, k - 1);
      DigitsStep(n, base);
    }
  }

  /** A number of at least `base` has one digit more than its quotient by `base`. */
  lemma DigitsStep(n: nat, base: nat)
    requires 2 <= base <= n && base <= 16
    ensures |Digits(n, base)| == |Digits(n / base, base)| + 1
  {
  }

  /** A number at least base^(k-1) has at least k digits. */
  lemma {:induction false} DigitsLengthAtLeast(n: nat, base: nat, k: nat)
    requires 2 <= base <= 16 && k >= 1
    requires Power(base, k - 1) <= n
    ensures |Digits(n, base)| >= k
    decreases k
  {
    if k > 1 {
      var P := Power(base, k - 2);
      assert Power(base, k - 1) == base * P;
      PowerPositive(base, k - 2);
      MulAtLeast(base, P);
      var q := n / base;
      assert n == q * base + n % base;
      DivAtLeast(n, base, P);
      DigitsLengthAtLeast(q, base, k - 1);
    }
  }

  lemma DivBelow(n: nat, b: nat, P: nat)
    requires b >= 1 && n < b * P
    ensures n / b < P
  {
    var q := n / b;
    assert n == q * b + n % b;
    assert q * b <= n;
    MulLess(q, P, b);
  }

  lemma MulLess(q: nat, P: nat, b: nat)
    requires b >= 1 && q * b < b * P
    ensures q < P
  {
    assert (q - P) * b == q * b - P * b;
  }

  lemma DivMod(n: nat, b: nat)
    requires 2 <= b <= n
    ensures n == (n / b) * b + n % b && 0 <= n % b < b
    ensures 1 <= n / b < n
  {
    var q, r := n / b, n % b;
    assert n == q * b + r && 0 <= r < b;
    assert q * b == q * 2 + q * (b - 2);
    assert q * (b - 2) >= 0;
    assert q * b > 0;
    assert q == 0 ==> q * b == 0;
  }

  function Power(b: nat, k: nat): nat
  {
    if k == 0 then 1 else b * Power(b, k - 1)
  }

  /** Powers multiply when their exponents add. */
  lemma {:induction false} PowerAdd(b: nat, j: nat, k: nat)
    ensures Power(b, j + k) == Power(b, j) * Power(b, k)
    decreases j
  {
    if j > 0 {
      PowerAdd(b, j - 1, k);
      assert Power(b, j + k) == b * Power(b, j - 1 + k);
    }
  }

  /** The powers of 2 and 16 the field widths of 16-bit and 64-bit numbers need. */
  lemma PowerFacts()
    ensures Power(2, 16) == 0x1_0000 && Power(16, 4) == 0x1_0000
    ensures Power(2, 64) == Pow64 && Power(2, 63) == Pow64 / 2
    ensures Power(16, 16) == Pow64 && Power(16, 15) == Pow64 / 16
  {
    assert Power(2, 4) == 16;
    PowerAdd(2, 4, 4);
    PowerAdd(2, 8, 8);
    PowerAdd(2, 16, 16);
    PowerAdd(2, 32, 32);
    assert Power(2, 64) == 2 * Power(2, 63);
    assert Power(16, 4) == 0x1_0000;
    PowerAdd(16, 4, 4);
    PowerAdd(16, 8, 8);
    assert Power(16, 16) == 16 * Power(16, 15);
  }

  lemma MulAtLeast(b: nat, P: nat)
    requires b >= 2 && P >= 1
    ensures b * P >= b
  {
  }

  lemma DivAtLeast(n: nat, b: nat, P: nat)
    requires b >= 1 && b * P <= n
    ensures P <= n / b
  {
    var q := n / b;
    assert n == q * b + n % b;
    assert n % b < b;
    assert q * b + b > b * P;
    assert (q + 1) * b > P * b;
    MulLess(P, q + 1, b);
  }

  lemma {:induction false} PowerPositive(b: nat, k: nat)
    requires b >= 1
    ensures Power(b, k) >= 1
  {
    if k > 0 { PowerPositive(b, k - 1); }
  }

  // ---------------------------------------------------------------------------
  // Upper case

  function UpperChar(c: char): char
  {
    if 'a' <= c <= 'z' then (c as int - 32) as char else c
  }

  predicate IsUpper(s: string)
  {
    forall i :: 0 <= i < |s| ==> !('a' <= s[i] <= 'z')
  }

  /** QString::toUpper on ASCII text: every lower-case letter becomes upper case, nothing else changes. */
  function ToUpper(s: string): (r: string)
    ensures |r| == |s| && IsUpper(r)
    ensures forall i :: 0 <= i < |s| ==> r[i] == UpperChar(s[i])
  {
    seq(|s|, i requires 0 <= i < |s| => UpperChar(s[i]))
  }

  /** Upper-casing keeps a digit string a digit string of the same value. */
  lemma {:induction false} UpperValue(s: string, base: nat)
    requires AllDigits(s, base)
    ensures AllDigits(ToUpper(s), base)
    ensures ValueOf(ToUpper(s), base) == ValueOf(s, base)
    decreases |s|
  {
    var u := ToUpper(s);
    assert AllDigits(u, base) by {
      forall i | 0 <= i < |u| ensures IsDigitOf(u[i], base) { UpperDigit(s[i]); }
    }
    if s != [] {
      var p := s[..|s| - 1];
      assert AllDigits(p, base) by {
        forall i | 0 <= i < |p| ensures IsDigitOf(p[i], base) { assert p[i] == s[i]; }
      }
      UpperValue(p, base);
      assert u[..|u| - 1] == ToUpper(p);
      UpperDigit(s[|s| - 1]);
    }
  }

  lemma UpperParse(s: string, base: nat)
    ensures ParseNat(ToUpper(s), base) == ParseNat(s, base)
  {
    if s != [] && AllDigits(s, base) {
      UpperValue(s, base);
    } else if s != [] {
      var i :| 0 <= i < |s| && !IsDigitOf(s[i], base);
      assert !IsDigitOf(ToUpper(s)[i], base);
    }
  }

  /** Upper-casing a digit keeps its value. */
  lemma UpperDigit(c: char)
    ensures DigitValue(UpperChar(c)) == DigitValue(c)
  {
  }

  /** A string without lower-case letters is its own upper case. */
  lemma UpperIdentity(s: string)
    requires IsUpper(s)
    ensures ToUpper(s) == s
  {
  }

  // ---------------------------------------------------------------------------
  // Signed decimal numbers

  /** The decimal form of `i`, with a '-' for negative numbers (QString::number, QString::setNum, arg with base 10). */
  function Decimal(i: int): string
  {
    if i < 0 then "-" + Digits(-i, 10) else Digits(i, 10)
  }

  /** An optional sign followed by one or more decimal digits. */
  function ParseInt(s: string): Option<int>
  {
    if |s| > 0 && (s[0] == '-' || s[0] == '+') then
      match ParseNat(s[1..], 10)
      case Some(v) => var w: int := v; Some(if s[0] == '-' then -w else w)
      case None => None
    else
      match ParseNat(s, 10)
      case Some(v) => var x: int := v; Some(x)
      case None => None
  }

  lemma DecimalRoundTrip(i: int)
    ensures ParseInt(Decimal(i)) == Some(i)
  {
    if i < 0 {
      assert Decimal(i)[1..] == Digits(-i, 10);
    } else {
      assert IsDigitOf(Decimal(i)[0], 10);
    }
  }

  /** Decimal numbers are already upper case. */
  lemma DecimalIsUpper(i: int)
    ensures IsUpper(Decimal(i))
  {
    var s := Decimal(i);
    forall k | 0 <= k < |s| ensures !('a' <= s[k] <= 'z') {
      if i < 0 && k > 0 {
        assert s[k] == Digits(-i, 10)[k - 1];
        assert IsDigitOf(s[k], 10);
      } else if i >= 0 {
        assert IsDigitOf(s[k], 10);
      }
    }
  }

  lemma DecimalNoSeparator(i: int, sep: char)
    requires DigitValue(sep) == -1 && sep != '-'
    ensures sep !in Decimal(i)
  {
    var s := Decimal(i);
    forall k | 0 <= k < |s| ensures s[k] != sep {
      if i < 0 && k > 0 {
        assert s[k] == Digits(-i, 10)[k - 1];
        assert IsDigitOf(s[k], 10);
      } else if i >= 0 {
        assert IsDigitOf(s[k], 10);
      }
    }
  }

  /**
   * QChar::isSpace: the ASCII blank and the controls TAB to CR, NEL, and the
   * Unicode space, line and paragraph separators.
   */
  predicate IsSpace(c: char)
  {
    c == ' ' || '\t' <= c <= '\r' || c as int == 0x85 || c as int == 0xA0 || c as int == 0x1680
    || 0x2000 <= c as int <= 0x200A || c as int == 0x2028 || c as int == 0x2029
    || c as int == 0x202F || c as int == 0x205F || c as int == 0x3000
  }

  predicate AllSpace(w: string)
  {
    forall i :: 0 <= i < |w| ==> IsSpace(w[i])
  }

  /** `s` without its leading white space. */
  function TrimLeft(s: string): string
  {
    if s != [] && IsSpace(s[0]) then TrimLeft(s[1..]) else s
  }

  /** `s` without its trailing white space. */
  function TrimRight(s: string): string
  {
    if s != [] && IsSpace(s[|s| - 1]) then TrimRight(s[..|s| - 1]) else s
  }

  /** Leading white space is all TrimLeft removes. */
  lemma {:induction false} TrimLeftOf(w: string, u: string)
    requires AllSpace(w) && (u == [] || !IsSpace(u[0]))
    ensures TrimLeft(w + u) == u
    decreases |w|
  {
    if w == [] {
      assert w + u == u;
    } else {
      assert (w + u)[0] == w[0];
      assert (w + u)[1..] == w[1..] + u;
      TrimLeftOf(w[1..], u);
    }
  }

  /** Trailing white space is all TrimRight removes. */
  lemma {:induction false} TrimRightOf(u: string, w: string)
    requires AllSpace(w) && (u == [] || !IsSpace(u[|u| - 1]))
    ensures TrimRight(u + w) == u
    decreases |w|
  {
    if w == [] {
      assert u + w == u;
    } else {
      var s := u + w;
      assert s[|s| - 1] == w[|w| - 1];
      assert s[..|s| - 1] == u + w[..|w| - 1];
      TrimRightOf(u, w[..|w| - 1]);
    }
  }

  /** White space around a text that neither starts nor ends with white space is all the trimming removes. */
  lemma Trimmed(w1: string, t: string, w2: string)
    requires AllSpace(w1) && AllSpace(w2)
    requires t != [] && !IsSpace(t[0]) && !IsSpace(t[|t| - 1])
    ensures TrimRight(TrimLeft(w1 + t + w2)) == t
  {
    assert w1 + t + w2 == w1 + (t + w2);
    TrimLeftOf(w1, t + w2);
    TrimRightOf(t, w2);
  }

  /** A decimal number neither starts nor ends with white space. */
  lemma DecimalUnspaced(i: int)
    ensures var d := Decimal(i); d != [] && !IsSpace(d[0]) && !IsSpace(d[|d| - 1])
  {
    var d := Decimal(i);
    if i < 0 {
      assert d[|d| - 1] == Digits(-i, 10)[|d| - 2];
      assert IsDigitOf(d[|d| - 1], 10);
    } else {
      assert IsDigitOf(d[0], 10) && IsDigitOf(d[|d| - 1], 10);
    }
  }

  /**
   * QString::toInt with base 10: white space around the number is skipped,
   * and what remains must be an optionally signed run of decimal digits that
   * fits in an int; 0 otherwise.
   */
  function ToInt(s: string): Int32
  {
    match ParseInt(TrimRight(TrimLeft(s)))
    case Some(v) => if -0x8000_0000 <= v < 0x8000_0000 then v else 0
    case None => 0
  }

  /** toInt reads back the decimal form of every int, whatever white space surrounds it. */
  lemma ToIntPadded(w1: string, i: Int32, w2: string)
    requires AllSpace(w1) && AllSpace(w2)
    ensures ToInt(w1 + Decimal(i) + w2) == i
  {
    DecimalUnspaced(i);
    Trimmed(w1, Decimal(i), w2);
    DecimalRoundTrip(i);
  }

  lemma ToIntDecimal(i: Int32)
    ensures ToInt(Decimal(i)) == i
  {
    ToIntPadded("", i, "");
    assert "" + Decimal(i) + "" == Decimal(i);
  }

  /** A C `int` result: `x` wrapped into -2^31 .. 2^31 - 1. */
  function Wrap32(x: int): (r: int)
    ensures -0x8000_0000 <= r < 0x8000_0000
    ensures -0x8000_0000 <= x < 0x8000_0000 ==> r == x
  {
    (x + 0x8000_0000) % 0x1_0000_0000 - 0x8000_0000
  }

  /** Wrap32 differs from its argument by a multiple of 2^32. */
  lemma Wrap32Congruent(x: int)
    ensures (x - Wrap32(x)) % 0x1_0000_0000 == 0
  {
  }

  /** Wrap32 ignores multiples of 2^32. */
  lemma Wrap32Shift(x: int, k: int)
    ensures Wrap32(x + k * 0x1_0000_0000) == Wrap32(x)
  {
  }

  /**
   * QString::toLongLong with base 10: as ToInt, but the number must fit in
   * a 64-bit signed integer.
   */
  function ToLongLong(s: string): int
  {
    match ParseInt(TrimRight(TrimLeft(s)))
    case Some(v) => if -Pow64 / 2 <= v < Pow64 / 2 then v else 0
    case None => 0
  }

  /**
   * QVariant::toInt of a string variant (Qt 5): the string is read by
   * QString::toLongLong and the 64-bit result is cut to an int, so there is
   * no overflow check at 32 bits.
   */
  function VariantToInt(s: string): Int32
  {
    Wrap32(ToLongLong(s))
  }

  /**
   * The decimal form of any integer: toLongLong reads it back when it fits
   * in 64 bits, the variant conversion gives its low 32 bits as an int, and
   * toInt reads it back when it fits in 32 bits and gives 0 otherwise.
   */
  lemma DecimalConversions(x: int)
    ensures ToLongLong(Decimal(x)) == if -Pow64 / 2 <= x < Pow64 / 2 then x else 0
    ensures VariantToInt(Decimal(x)) == if -Pow64 / 2 <= x < Pow64 / 2 then Wrap32(x) else 0
    ensures ToInt(Decimal(x)) == if -0x8000_0000 <= x < 0x8000_0000 then x else 0
  {
    DecimalUnspaced(x);
    Trimmed("", Decimal(x), "");
    assert "" + Decimal(x) + "" == Decimal(x);
    DecimalRoundTrip(x);
  }

  /**
   * toInt is toLongLong narrowed to an int, 0 where the value does not fit;
   * so the variant conversion agrees with toInt wherever the value fits.
   */
  lemma ToIntNarrowsLongLong(s: string)
    ensures var v := ToLongLong(s); ToInt(s) == if -0x8000_0000 <= v < 0x8000_0000 then v else 0
    ensures -0x8000_0000 <= ToLongLong(s) < 0x8000_0000 ==> VariantToInt(s) == ToInt(s)
  {
  }

  // ---------------------------------------------------------------------------
  // Split and join on one separator character

  /** Index of the first `c` in `s`, or |s| when there is none. */
  function IndexOf(s: string, c: char): (k: nat)
    ensures k <= |s| && (k < |s| ==> s[k] == c)
    ensures forall j :: 0 <= j < k ==> s[j] != c
  {
    if s == [] then 0
    else if s[0] == c then 0
    else 1 + IndexOf(s[1..], c)
  }

  /** QStringList::join: the parts with `sep` between consecutive ones. */
  function Join(parts: seq<string>, sep: char): string
  {
    if |parts| == 0 then ""
    else if |parts| == 1 then parts[0]
    else parts[0] + [sep] + Join(parts[1..], sep)
  }

  /**
   * QString::split with empty parts kept: "" gives [""], "a..b" gives
   * ["a", "", "b"]. Joining the parts again gives back the input.
   */
  function Split(s: string, sep: char): (parts: seq<string>)
    ensures |parts| >= 1
    ensures forall i :: 0 <= i < |parts| ==> sep !in parts[i]
    ensures Join(parts, sep) == s
    decreases |s|
  {
    var k := IndexOf(s, sep);
    if k == |s| then [s]
    else
      var rest := Split(s[k + 1..], sep);
      var parts := [s[..k]] + rest;
      assert parts[1..] == rest;
      assert s == s[..k] + [sep] + s[k + 1..];
      parts
  }

  /** Splitting a join of separator-free parts gives the parts back. */
  lemma {:induction false} SplitJoin(parts: seq<string>, sep: char)
    requires |parts| >= 1
    requires forall i :: 0 <= i < |parts| ==> sep !in parts[i]
    ensures Split(Join(parts, sep), sep) == parts
    decreases |parts|
  {
    var s := Join(parts, sep);
    if |parts| == 1 {
      assert IndexOf(s, sep) == |s| by { IndexOfAbsent(s, sep); }
    } else {
      var p0 := parts[0];
      var tail := Join(parts[1..], sep);
      assert s == p0 + [sep] + tail;
      IndexOfAt(p0, sep, tail);
      assert s[..|p0|] == p0;
      assert s[|p0| + 1..] == tail;
      SplitJoin(parts[1..], sep);
      assert [p0] + parts[1..] == parts;
    }
  }

  lemma {:induction false} IndexOfAbsent(s: string, c: char)
    requires c !in s
    ensures IndexOf(s, c) == |s|
    decreases |s|
  {
    if s != [] {
      assert s == [s[0]] + s[1..];
      IndexOfAbsent(s[1..], c);
    }
  }

  lemma IndexOfAt(p: string, c: char, t: string)
    requires c !in p
    ensures IndexOf(p + [c] + t, c) == |p|
  {
    var s := p + [c] + t;
    assert s[|p|] == c;
    assert forall j :: 0 <= j < |p| ==> s[j] == p[j];
  }

  /** Joining one more part adds a separator and the part at the end. */
  lemma {:induction false} JoinSnoc(parts: seq<string>, p: string, sep: char)
    requires |parts| >= 1
    ensures Join(parts + [p], sep) == Join(parts, sep) + [sep] + p
    decreases |parts|
  {
    var all := parts + [p];
    if |parts| > 1 {
      assert all[1..] == parts[1..] + [p];
      JoinSnoc(parts[1..], p, sep);
      var a, t := parts[0] + [sep], Join(parts[1..], sep);
      ConcatAssoc(a, t + [sep], p);
      ConcatAssoc(a, t, [sep]);
    } else {
      assert all[1..] == [p];
    }
  }

  /** Concatenation regroups freely. */
  lemma ConcatAssoc<T>(a: seq<T>, b: seq<T>, c: seq<T>)
    ensures a + (b + c) == (a + b) + c
  {
  }

  /** Upper-casing distributes over concatenation. */
  lemma UpperConcat(a: string, b: string)
    ensures ToUpper(a + b) == ToUpper(a) + ToUpper(b)
  {
    assert forall i :: 0 <= i < |a + b| ==> (a + b)[i] == if i < |a| then a[i] else b[i - |a|];
  }
}
