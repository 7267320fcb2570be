/**
 * The library text handling the script interpreter relies on: strings.Fields
 * (splitting a line on Unicode white space) and strconv.ParseFloat, here for plain
 * decimal numerals read exactly, followed by Go's truncating float-to-int conversion.
 */
module Text {
  import opened Wrappers

  /** unicode.IsSpace. */
  predicate IsSpace(c: char)
  {
    c == ' ' || c == '\t' || c == '\n' || c == '\r' || c == '\U{B}' || c == '\U{C}'
    || c == '\U{85}' || c == '\U{A0}' || c == '\U{1680}'
    || ('\U{2000}' <= c <= '\U{200A}')
    || c == '\U{2028}' || c == '\U{2029}' || c == '\U{202F}' || c == '\U{205F}' || c == '\U{3000}'
  }

  predicate NoSpace(s: string)
  {
    forall i :: 0 <= i < |s| ==> !IsSpace(s[i])
  }

  /** The length of the run of non-space characters s starts with. */
  function WordLength(s: string): (n: nat)
    ensures n <= |s|
    ensures NoSpace(s[..n])
    ensures n == |s| || IsSpace(s[n])
    decreases |s|
  {
    if s == [] || IsSpace(s[0]) then 0 else 1 + WordLength(s[1..])
  }

  /** strings.Fields: the maximal runs of non-space characters of s, in order. */
  function Fields(s: string): (r: seq<string>)
    ensures forall k :: 0 <= k < |r| ==> r[k] != [] && NoSpace(r[k])
    decreases |s|
  {
    if s == [] then []
    else if IsSpace(s[0]) then Fields(s[1..])
    else
      var n := WordLength(s);
      [s[..n]] + Fields(s[n..])
  }

  /** A line made only of white space (or empty) has no fields. */
  lemma {:induction false} FieldsOfBlank(s: string)
    requires forall i :: 0 <= i < |s| ==> IsSpace(s[i])
    ensures Fields(s) == []
    decreases |s|
  {
    if s != [] {
      FieldsOfBlank(s[1..]);
    }
  }

  /** Fields keeps every non-space character: joined up, the fields are s without its spaces. */
  lemma {:induction false} FieldsKeepText(s: string)
    ensures Concat(Fields(s)) == WithoutSpaces(s)
    decreases |s|
  {
    if s != [] {
      if IsSpace(s[0]) {
        FieldsKeepText(s[1..]);
      } else {
        var n := WordLength(s);
        FieldsKeepText(s[n..]);
        assert [s[..n]] + Fields(s[n..]) == Fields(s);
        assert Concat(Fields(s)) == s[..n] + Concat(Fields(s[n..]));
        WithoutSpacesSplit(s, n);
        NoSpaceKept(s[..n]);
      }
    }
  }

  function Concat(ss: seq<string>): string
  {
    if ss == [] then [] else ss[0] + Concat(ss[1..])
  }

  function WithoutSpaces(s: string): string
  {
    if s == [] then [] else (if IsSpace(s[0]) then [] else [s[0]]) + WithoutSpaces(s[1..])
  }

  lemma {:induction false} WithoutSpacesSplit(s: string, n: nat)
    requires n <= |s|
    ensures WithoutSpaces(s) == WithoutSpaces(s[..n]) + WithoutSpaces(s[n..])
    decreases n
  {
    if n > 0 {
      WithoutSpacesSplit(s[1..], n - 1);
      assert s[1..][..n - 1] == s[..n][1..];
      assert s[1..][n - 1..] == s[n..];
    } else {
      assert s[..n] == [];
      assert s[n..] == s;
    }
  }

  lemma {:induction false} NoSpaceKept(s: string)
    requires NoSpace(s)
    ensures WithoutSpaces(s) == s
    decreases |s|
  {
    if s != [] {
      NoSpaceKept(s[1..]);
    }
  }

  /** The words separated by single spaces. */
  function Unwords(ws: seq<string>): string
  {
    if |ws| == 0 then "" else if |ws| == 1 then ws[0] else ws[0] + " " + Unwords(ws[1..])
  }

  lemma {:induction false} WordLengthOfWord(w: string, rest: string)
    requires NoSpace(w)
    requires rest == [] || IsSpace(rest[0])
    ensures WordLength(w + rest) == |w|
    decreases |w|
  {
    if w == [] {
      assert w + rest == rest;
    } else {
      assert (w + rest)[1..] == w[1..] + rest;
      WordLengthOfWord(w[1..], rest);
    }
  }

  /** White space in front of a line adds no field. */
  lemma FieldsSkipSpace(c: char, s: string)
    requires IsSpace(c)
    ensures Fields([c] + s) == Fields(s)
  {
    assert ([c] + s)[1..] == s;
  }

  /**
   * A word up to a space or the end of the line is a field of its own: with
   * FieldsSkipSpace, this decides Fields on every string, so the fields are exactly
   * the maximal runs of non-space characters.
   */
  lemma FieldsPeel(w: string, rest: string)
    requires w != [] && NoSpace(w)
    requires rest == [] || IsSpace(rest[0])
    ensures Fields(w + rest) == [w] + Fields(rest)
  {
    WordLengthOfWord(w, rest);
    assert (w + rest)[0] == w[0];
    assert (w + rest)[..|w|] == w;
    assert (w + rest)[|w|..] == rest;
  }

  /** A word that ends at a space, or a line followed by a space, is not lengthened by what follows. */
  lemma {:induction false} WordLengthAppend(x: string, y: string)
    requires WordLength(x) < |x| || y == [] || IsSpace(y[0])
    ensures WordLength(x + y) == WordLength(x)
    decreases |x|
  {
    if x == [] {
      assert x + y == y;
    } else {
      assert (x + y)[0] == x[0];
      if !IsSpace(x[0]) {
        assert (x + y)[1..] == x[1..] + y;
        WordLengthAppend(x[1..], y);
      }
    }
  }

  /** A single space and a word after a line add that word as the line's last field. */
  lemma {:induction false} FieldsSnoc(x: string, w: string)
    requires w != [] && NoSpace(w)
    ensures Fields(x + " " + w) == Fields(x) + [w]
    decreases |x|
  {
    if x == [] {
      assert x + " " + w == [' '] + w;
      FieldsSkipSpace(' ', w);
      assert w + [] == w;
      FieldsPeel(w, []);
    } else if IsSpace(x[0]) {
      assert (x + " " + w)[0] == x[0];
      assert (x + " " + w)[1..] == x[1..] + " " + w;
      FieldsSnoc(x[1..], w);
    } else {
      var n := WordLength(x);
      assert x + " " + w == x + (" " + w);
      WordLengthAppend(x, " " + w);
      assert (x + " " + w)[0] == x[0];
      assert (x + " " + w)[..n] == x[..n];
      assert (x + " " + w)[n..] == x[n..] + " " + w;
      FieldsSnoc(x[n..], w);
    }
  }

  /** Splitting undoes joining: words joined by single spaces split back into the same words. */
  lemma {:induction false} FieldsUnwords(ws: seq<string>)
    requires forall k :: 0 <= k < |ws| ==> ws[k] != [] && NoSpace(ws[k])
    ensures Fields(Unwords(ws)) == ws
    decreases |ws|
  {
    if |ws| == 1 {
      WordLengthOfWord(ws[0], "");
      assert ws[0] + "" == ws[0];
      assert ws[0][|ws[0]|..] == [];
    } else if |ws| > 1 {
      var w, rest := ws[0], " " + Unwords(ws[1..]);
      WordLengthOfWord(w, rest);
      assert Unwords(ws) == w + rest;
      assert (w + rest)[..|w|] == w;
      assert (w + rest)[|w|..] == rest;
      assert rest[1..] == Unwords(ws[1..]);
      FieldsUnwords(ws[1..]);
      assert [w] + ws[1..] == ws;
    }
  }

  predicate IsDigit(c: char)
  {
    '0' <= c <= '9'
  }

  /** s[lo..hi] is made of decimal digits. */
  predicate DigitsIn(s: string, lo: nat, hi: nat)
    requires lo <= hi <= |s|
    decreases hi - lo
  {
    lo == hi || (IsDigit(s[hi - 1]) && DigitsIn(s, lo, hi - 1))
  }

  /** The value of the decimal digits s[lo..hi], most significant first. */
  function ValueIn(s: string, lo: nat, hi: nat): nat
    requires lo <= hi <= |s| && DigitsIn(s, lo, hi)
    decreases hi - lo
  {
    if hi == lo then 0 else 10 * ValueIn(s, lo, hi - 1) + (s[hi - 1] as int - '0' as int)
  }

  function Pow10(n: nat): (p: nat)
    ensures p >= 1
  {
    if n == 0 then 1 else 10 * Pow10(n - 1)
  }
  /** hi - lo digits make a value below 10^(hi - lo). */
  lemma {:induction false} ValueBelowPow10(s: string, lo: nat, hi: nat)
    requires lo <= hi <= |s| && DigitsIn(s, lo, hi)
    ensures ValueIn(s, lo, hi) < Pow10(hi - lo)
    decreases hi - lo
  {
    if lo < hi {
      ValueBelowPow10(s, lo, hi - 1);
    }
  }


  /** The index of the first '.' in s at or after i, or |s| if there is none. */
  function DotFrom(s: string, i: nat): (k: nat)
    requires i <= |s|
    ensures i <= k <= |s|
    ensures forall j :: i <= j < k ==> s[j] != '.'
    ensures k < |s| ==> s[k] == '.'
    decreases |s| - i
  {
    if i == |s| || s[i] == '.' then i else DotFrom(s, i + 1)
  }

  /**
   * 2^1024 - 2^970, written out: the midpoint between the largest float64,
   * 2^1024 - 2^971, and 2^1024.  Rounding to nearest with ties to even takes every
   * magnitude at or above it to infinity (the largest float64 has an odd significand),
   * which strconv.ParseFloat reports as ErrRange.
   */
  const Float64Overflow: int :=
    179769313486231580793728971405303415079934132710037826936173778980444968292764750946649017977587207096330286416692887910946555547851940402630657488671505820681908902000708383676273854845817711531764475730270069855571366959622842914819860834936475292719074168444365510704342711559699508093042880177904174497792

  /**
   * The unsigned decimal numeral s[start..]: digits, optionally a point and more digits,
   * with at least one digit in all, and a value float64 can hold.
   */
  function UnsignedFrom(s: string, start: nat): (r: Option<real>)
    requires start <= |s|
    ensures r.Some? ==> 0.0 <= r.value < Float64Overflow as real
  {
    var k := DotFrom(s, start);
    var fracLo := if k < |s| then k + 1 else |s|;
    if DigitsIn(s, start, k) && DigitsIn(s, fracLo, |s|) && (k - start) + (|s| - fracLo) > 0 then
      var v := ValueIn(s, start, k) as real + ValueIn(s, fracLo, |s|) as real / Pow10(|s| - fracLo) as real;
      if v < Float64Overflow as real then Some(v) else None
    else None
  }

  /**
   * strconv.ParseFloat(s, 64) for numerals of the form [+-]digits[.digits] or [+-].digits,
   * read exactly; None stands for the error the source reports, a malformed numeral or
   * one out of float64's range.
   */
  function ParseFloat(s: string): (r: Option<real>)
    ensures r.Some? ==> -(Float64Overflow as real) < r.value < Float64Overflow as real
  {
    if |s| > 0 && (s[0] == '+' || s[0] == '-') then
      match UnsignedFrom(s, 1)
      case Some(v) => Some(if s[0] == '-' then -v else v)
      case None => None
    else UnsignedFrom(s, 0)
  }

  /** Every character of a digit run is a digit. */
  lemma {:induction false} DigitsAreDigits(s: string, lo: nat, hi: nat)
    requires lo <= hi <= |s| && DigitsIn(s, lo, hi)
    ensures forall j :: lo <= j < hi ==> IsDigit(s[j])
    decreases hi - lo
  {
    if lo < hi {
      DigitsAreDigits(s, lo, hi - 1);
    }
  }

  /** A numeral of digits only reads as its integer value, or is out of range. */
  lemma IntegerNumeral(s: string)
    requires |s| > 0 && DigitsIn(s, 0, |s|)
    ensures ParseFloat(s) == if ValueIn(s, 0, |s|) < Float64Overflow then Some(ValueIn(s, 0, |s|) as real) else None
  {
    DigitsAreDigits(s, 0, |s|);
    assert IsDigit(s[0]);
    assert DotFrom(s, 0) == |s|;
  }

  /** One character in front shifts a digit run and its value by one position. */
  lemma {:induction false} ShiftDigits(c: char, s: string, lo: nat, hi: nat)
    requires lo <= hi <= |s|
    ensures DigitsIn([c] + s, lo + 1, hi + 1) == DigitsIn(s, lo, hi)
    ensures DigitsIn(s, lo, hi) ==> ValueIn([c] + s, lo + 1, hi + 1) == ValueIn(s, lo, hi)
    decreases hi - lo
  {
    if lo < hi {
      ShiftDigits(c, s, lo, hi - 1);
      assert ([c] + s)[hi] == s[hi - 1];
    }
  }

  /** One character in front shifts the position of the point by one. */
  lemma {:induction false} ShiftDot(c: char, s: string, i: nat)
    requires i <= |s|
    ensures DotFrom([c] + s, i + 1) == DotFrom(s, i) + 1
    decreases |s| - i
  {
    if i < |s| {
      assert ([c] + s)[i + 1] == s[i];
      if s[i] != '.' {
        ShiftDot(c, s, i + 1);
      }
    }
  }

  /** A sign character in front does not change how the rest reads. */
  lemma UnsignedAfterSign(c: char, s: string)
    ensures UnsignedFrom([c] + s, 1) == UnsignedFrom(s, 0)
  {
    ShiftDot(c, s, 0);
    var k := DotFrom(s, 0);
    var fracLo := if k < |s| then k + 1 else |s|;
    ShiftDigits(c, s, 0, k);
    ShiftDigits(c, s, fracLo, |s|);
  }

  /**
   * The sign of a numeral: "-" negates its value and "+" keeps it, and a numeral that
   * is refused stays refused with either sign.
   */
  lemma SignedNumeral(s: string)
    requires s == [] || (s[0] != '+' && s[0] != '-')
    ensures ParseFloat("-" + s) == if ParseFloat(s).Some? then Some(-ParseFloat(s).value) else None
    ensures ParseFloat("+" + s) == ParseFloat(s)
  {
    UnsignedAfterSign('-', s);
    UnsignedAfterSign('+', s);
    assert "-" + s == ['-'] + s && "+" + s == ['+'] + s;
  }

  /** Go's int(f): the integer part of f, truncated toward zero. */
  function TruncateToInt(f: real): (r: int)
    ensures f >= 0.0 ==> r as real <= f < r as real + 1.0
    ensures f < 0.0 ==> r as real - 1.0 < f <= r as real
  {
    if f >= 0.0 then f.Floor else -((-f).Floor)
  }

  /** The working coordinate space a normalized script coordinate is scaled to. */
  const CanvasUnit: int := 400

  /** int(c * 400): a normalized coordinate as a pixel coordinate. */
  function Scale(c: real): (r: int)
    ensures c >= 0.0 ==> r >= 0 && r as real <= c * 400.0 < r as real + 1.0
    ensures c < 0.0 ==> r <= 0 && r as real - 1.0 < c * 400.0 <= r as real
  {
    TruncateToInt(c * CanvasUnit as real)
  }
}
