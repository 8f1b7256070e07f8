/** Character and string helpers shared by the backend and frontend models. */
module Text {
  import opened Basics

  predicate IsDigit(c: char) { '0' <= c <= '9' }

  predicate AllDigits(s: string) { forall i :: 0 <= i < |s| ==> IsDigit(s[i]) }

  /**
   * The white-space characters that JavaScript's `String.prototype.trim` and the `\s`
   * class remove or match, restricted to the Basic Latin and common Unicode spaces.
   */
  predicate IsSpace(c: char) {
    c == ' ' || c == '\t' || c == '\n' || c == '\r' || c == '\U{B}' || c == '\U{C}'
    || c == '\U{A0}' || c == '\U{2028}' || c == '\U{2029}' || c == '\U{FEFF}'
  }

  /** `s` with leading and trailing white space removed. */
  function TrimStart(s: string): (r: string)
    ensures |r| <= |s| && r == s[|s| - |r|..]
    ensures r == [] || !IsSpace(r[0])
    ensures forall i :: 0 <= i < |s| - |r| ==> IsSpace(s[i])
  {
    if s != [] && IsSpace(s[0]) then TrimStart(s[1..]) else s
  }

  function TrimEnd(s: string): (r: string)
    ensures |r| <= |s| && r == s[..|r|]
    ensures r == [] || !IsSpace(r[|r| - 1])
    ensures forall i :: |r| <= i < |s| ==> IsSpace(s[i])
  {
    if s != [] && IsSpace(s[|s| - 1]) then TrimEnd(s[..|s| - 1]) else s
  }

  function Trim(s: string): (r: string)
    ensures r == [] || (!IsSpace(r[0]) && !IsSpace(r[|r| - 1]))
  {
    TrimEnd(TrimStart(s))
  }

  /** A trimmed string is empty exactly when the original holds only white space. */
  lemma {:induction false} TrimStartAllSpace(s: string)
    requires forall i :: 0 <= i < |s| ==> IsSpace(s[i])
    ensures TrimStart(s) == []
  {
    if s != [] { TrimStartAllSpace(s[1..]); }
  }

  /** A trimmed string is empty exactly when the original holds only white space. */
  lemma TrimEmpty(s: string)
    ensures Trim(s) == [] <==> forall i :: 0 <= i < |s| ==> IsSpace(s[i])
  {
    if Trim(s) == [] {
      assert TrimStart(s) == [];
    }
    if forall i :: 0 <= i < |s| ==> IsSpace(s[i]) {
      TrimStartAllSpace(s);
    }
  }

  function DigitChar(d: nat): (c: char)
    requires d < 10
    ensures IsDigit(c) && c as int == '0' as int + d
  {
    ('0' as int + d) as char
  }

  function DigitValue(c: char): (d: nat)
    requires IsDigit(c)
    ensures d < 10 && DigitChar(d) == c
  {
    (c as int - '0' as int) as nat
  }

  /** Decimal rendering of a natural number, without leading zeros (Python's `str(n)`). */
  function NatToString(n: nat): (s: string)
    ensures |s| >= 1 && AllDigits(s)
    ensures n >= 10 ==> s[0] != '0'
    decreases n
  {
    if n < 10 then [DigitChar(n)] else NatToString(n / 10) + [DigitChar(n % 10)]
  }

  /** Short numbers have short renderings. */
  lemma {:induction false} NatToStringShort(n: nat)
    ensures n < 10 ==> |NatToString(n)| == 1
    ensures n < 100 ==> |NatToString(n)| <= 2
    ensures n < 1000 ==> |NatToString(n)| <= 3
    ensures n < 10000 ==> |NatToString(n)| <= 4
    decreases n
  {
    if n >= 10 { NatToStringShort(n / 10); }
  }

  /** The value of a two-digit string. */
  lemma TwoDigitsValue(s: string)
    requires |s| == 2 && AllDigits(s)
    ensures DigitsValue(s) == 10 * DigitValue(s[0]) + DigitValue(s[1])
  {
    var first := s[..1];
    assert first == [s[0]] && first[..0] == [];
    assert DigitsValue(first) == DigitValue(s[0]);
  }

  /** Value of a non-empty string of decimal digits (leading zeros allowed). */
  function DigitsValue(s: string): nat
    requires AllDigits(s)
  {
    if s == [] then 0 else DigitsValue(s[..|s| - 1]) * 10 + DigitValue(s[|s| - 1])
  }

  lemma {:induction false} DigitsValueOfNatToString(n: nat)
    ensures DigitsValue(NatToString(n)) == n
    decreases n
  {
    if n >= 10 {
      DigitsValueOfNatToString(n / 10);
      var s := NatToString(n);
      assert s[..|s| - 1] == NatToString(n / 10);
      assert DigitValue(s[|s| - 1]) == n % 10;
    }
  }

  lemma {:induction false} DigitsValueLeadingZeros(k: nat, s: string)
    requires AllDigits(s)
    ensures AllDigits(Zeros(k) + s) && DigitsValue(Zeros(k) + s) == DigitsValue(s)
    decreases |s|
  {
    ZerosAreDigits(k);
    if s == [] {
      assert Zeros(k) + s == Zeros(k);
      ZerosValue(k);
    } else {
      var p := s[..|s| - 1];
      assert (Zeros(k) + s)[..|Zeros(k) + s| - 1] == Zeros(k) + p;
      DigitsValueLeadingZeros(k, p);
    }
  }

  function Zeros(k: nat): (z: string)
    ensures |z| == k
  {
    if k == 0 then [] else ['0'] + Zeros(k - 1)
  }

  lemma {:induction false} ZerosAreDigits(k: nat)
    ensures AllDigits(Zeros(k))
  {
    if k > 0 { ZerosAreDigits(k - 1); }
  }

  lemma {:induction false} ZerosValue(k: nat)
    ensures AllDigits(Zeros(k)) && DigitsValue(Zeros(k)) == 0
  {
    ZerosAreDigits(k);
    if k > 0 {
      ZerosValue(k - 1);
      assert Zeros(k) == Zeros(k - 1) + ['0'] by { ZerosSnoc(k - 1); }
      assert Zeros(k)[..k - 1] == Zeros(k - 1);
    }
  }

  lemma {:induction false} ZerosSnoc(k: nat)
    ensures Zeros(k + 1) == Zeros(k) + ['0']
  {
    if k > 0 { ZerosSnoc(k - 1); }
  }

  /** Digits left-padded with zeros to `width`; padding keeps their value. */
  function Pad(d: string, width: nat): (s: string)
    requires AllDigits(d)
    ensures AllDigits(s) && DigitsValue(s) == DigitsValue(d)
    ensures |s| == if |d| >= width then |d| else width
  {
    if |d| >= width then d
    else
      DigitsValueLeadingZeros(width - |d|, d);
      Zeros(width - |d|) + d
  }

  /** Python's `f"{n:0{width}d}"`: the decimal digits of n, left-padded with zeros to `width`. */
  function ZeroPad(n: nat, width: nat): (s: string)
    ensures AllDigits(s)
    ensures |s| == if |NatToString(n)| >= width then |NatToString(n)| else width
  {
    Pad(NatToString(n), width)
  }

  /** Padding never changes the value a string of digits denotes. */
  lemma ZeroPadValue(n: nat, width: nat)
    ensures DigitsValue(ZeroPad(n, width)) == n
  {
    DigitsValueOfNatToString(n);
  }

  /**
   * Python's `int(s)` restricted to ASCII decimal strings: `None` where `int` raises
   * `ValueError` (empty or non-digit text).
   */
  function ParseNat(s: string): (r: Option<nat>)
    ensures r.Some? <==> s != [] && AllDigits(s)
  {
    if s != [] && AllDigits(s) then Some(DigitsValue(s)) else None
  }

  /** Python's `str(i)` for a signed integer. */
  function IntToString(i: int): (s: string)
    ensures i >= 0 ==> s == NatToString(i)
    ensures i < 0 ==> s == "-" + NatToString(-i)
  {
    if i >= 0 then NatToString(i) else "-" + NatToString(-i)
  }

  /** Python's `int(s)` on an optional minus sign followed by ASCII digits. */
  function ParseInt(s: string): (r: Option<int>)
    ensures r.Some? && r.value < 0 ==> s != [] && s[0] == '-'
  {
    if s != [] && s[0] == '-' then
      match ParseNat(s[1..])
      case Some(n) => Some(0 - n)
      case None => None
    else
      match ParseNat(s)
      case Some(n) => Some(n as int)
      case None => None
  }

  /** Rendering a signed integer and reading it back gives the integer. */
  lemma ParseIntToString(i: int)
    ensures ParseInt(IntToString(i)) == Some(i)
  {
    if i >= 0 {
      DigitsValueOfNatToString(i);
    } else {
      DigitsValueOfNatToString(-i);
      assert ("-" + NatToString(-i))[1..] == NatToString(-i);
    }
  }

  /** An optional minus sign, the whole units, a point and the two-digit fraction. */
  function AmountLayout(negative: bool, whole: string, frac: string): (r: string)
    requires |frac| == 2
    ensures |r| == (if negative then 1 else 0) + |whole| + 3
    ensures r[(if negative then 1 else 0)..|r| - 3] == whole
    ensures r[|r| - 3] == '.' && r[|r| - 2..] == frac
    ensures negative ==> r[0] == '-'
    ensures !negative && whole != [] ==> r[0] == whole[0]
  {
    (if negative then ['-'] else []) + whole + ['.'] + frac
  }

  /**
   * Python's `str` of a two-place `Decimal` amount given in cents: the sign, the
   * whole units, a point and exactly two digits.
   */
  function CentsToString(c: int): string
  {
    var m := if c < 0 then -c else c;
    NatToStringShort(m % 100);
    AmountLayout(c < 0, NatToString(m / 100), ZeroPad(m % 100, 2))
  }

  /** The digits of a rendered amount, units before the point and cents after it, spell out the amount. */
  lemma CentsToStringValue(c: int)
    ensures var s := CentsToString(c);
      var start := if c < 0 then 1 else 0;
      && start <= |s| - 3 && AllDigits(s[start..|s| - 3])
      && DigitsValue(s[start..|s| - 3]) * 100 + DigitsValue(s[|s| - 2..]) == if c < 0 then -c else c
  {
    var m := if c < 0 then -c else c;
    NatToStringShort(m % 100);
    DigitsValueOfNatToString(m / 100);
    ZeroPadValue(m % 100, 2);
  }

  predicate StartsWith(s: string, prefix: string) {
    |prefix| <= |s| && s[..|prefix|] == prefix
  }

  /** The pieces of `s` between occurrences of `sep` (Python's `s.split(sep)`, never empty). */
  function Split(s: string, sep: char): (parts: seq<string>)
    ensures |parts| >= 1
    ensures forall i :: 0 <= i < |parts| ==> sep !in parts[i]
  {
    if s == [] then [[]]
    else
      var rest := Split(s[1..], sep);
      if s[0] == sep then [[]] + rest else [[s[0]] + rest[0]] + rest[1..]
  }

  /** Joining a piece free of the separator to another string splits back to the piece first. */
  lemma {:induction false} SplitJoin(a: string, sep: char, b: string)
    requires sep !in a
    ensures Split(a + [sep] + b, sep) == [a] + Split(b, sep)
    decreases |a|
  {
    if a == [] {
      assert a + [sep] + b == [sep] + b;
      assert ([sep] + b)[1..] == b;
    } else {
      assert (a + [sep] + b)[1..] == a[1..] + [sep] + b;
      SplitJoin(a[1..], sep, b);
      assert [a[0]] + a[1..] == a;
    }
  }

  lemma {:induction false} SplitNoSep(a: string, sep: char)
    requires sep !in a
    ensures Split(a, sep) == [a]
    decreases |a|
  {
    if a != [] {
      SplitNoSep(a[1..], sep);
      assert [a[0]] + a[1..] == a;
    }
  }

  /** ASCII lower-casing (the case folding `icontains` does for ASCII letters). */
  function Lower(c: char): char {
    if 'A' <= c <= 'Z' then (c as int + 32) as char else c
  }

  function LowerString(s: string): (r: string)
    ensures |r| == |s|
    ensures forall i :: 0 <= i < |s| ==> r[i] == Lower(s[i])
  {
    if s == [] then [] else [Lower(s[0])] + LowerString(s[1..])
  }

  /** `needle` occurs as a contiguous piece of `hay`. */
  predicate Contains(hay: string, needle: string)
    decreases |hay|
  {
    StartsWith(hay, needle) || (hay != [] && Contains(hay[1..], needle))
  }

  /** String order by code points (JavaScript `<` on strings, Python `<` on `str`). */
  predicate LessThan(a: string, b: string)
    decreases |a|
  {
    if a == [] then b != []
    else if b == [] then false
    else if a[0] != b[0] then a[0] < b[0]
    else LessThan(a[1..], b[1..])
  }

  lemma {:induction false} LessThanIrreflexive(a: string)
    ensures !LessThan(a, a)
    decreases |a|
  {
    if a != [] { LessThanIrreflexive(a[1..]); }
  }

  lemma {:induction false} LessThanTransitive(a: string, b: string, c: string)
    requires LessThan(a, b) && LessThan(b, c)
    ensures LessThan(a, c)
    decreases |a|
  {
    if a != [] && b != [] && c != [] && a[0] == b[0] && b[0] == c[0] {
      LessThanTransitive(a[1..], b[1..], c[1..]);
    }
  }

  lemma {:induction false} LessThanTotal(a: string, b: string)
    requires a != b
    ensures LessThan(a, b) || LessThan(b, a)
    decreases |a|
  {
    if a != [] && b != [] && a[0] == b[0] {
      assert a == [a[0]] + a[1..] && b == [b[0]] + b[1..];
      LessThanTotal(a[1..], b[1..]);
    }
  }

  /** The greatest string of a non-empty list in code-point order (`order_by('-title').first()`). */
  function LexMax(xs: seq<string>): (m: string)
    requires xs != []
    ensures m in xs
  {
    if |xs| == 1 then xs[0]
    else
      var rest := LexMax(xs[1..]);
      if LessThan(rest, xs[0]) then xs[0] else rest
  }

  /** Every other element of the list sorts strictly before the maximum. */
  lemma {:induction false} LexMaxIsMax(xs: seq<string>, y: string)
    requires xs != [] && y in xs
    ensures y == LexMax(xs) || LessThan(y, LexMax(xs))
    decreases |xs|
  {
    if |xs| > 1 {
      var rest := LexMax(xs[1..]);
      if y in xs[1..] {
        LexMaxIsMax(xs[1..], y);
        if LessThan(rest, xs[0]) && y != rest {
          LessThanTransitive(y, rest, xs[0]);
        }
      } else if !LessThan(rest, xs[0]) && y != rest {
        LessThanTotal(y, rest);
      }
    }
  }
}
