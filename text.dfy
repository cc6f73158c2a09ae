/**
 * The string primitives the views use, on `seq<char>`: `toLowerCase` (ASCII letters only),
 * `includes`, `startsWith`, `trim` (over a fixed whitespace set), `split`, `String(n)` for
 * integers, `Number(s)` for integer text and `parseFloat` for plain decimal text.
 */
module Text {
  import opened Wrappers

  // ---------------------------------------------------------------------------
  // Characters
  // ---------------------------------------------------------------------------

  /** The whitespace `trim` and `parseFloat` skip (a fixed subset of Unicode's). */
  predicate IsSpace(c: char) {
    c == ' ' || c == '\t' || c == '\n' || c == '\r' || c == '\U{B}' || c == '\U{C}'
    || c == '\U{A0}' || c == '\U{FEFF}'
  }

  predicate IsDigit(c: char) {
    '0' <= c <= '9'
  }

  predicate AllDigits(s: string) {
    forall i :: 0 <= i < |s| ==> IsDigit(s[i])
  }

  function LowerChar(c: char): char {
    if 'A' <= c <= 'Z' then (c as int + 32) as char else c
  }

  /** `s.toLowerCase()`, restricted to the ASCII letters. */
  function Lower(s: string): string {
    seq(|s|, i requires 0 <= i < |s| => LowerChar(s[i]))
  }

  // ---------------------------------------------------------------------------
  // Substrings
  // ---------------------------------------------------------------------------

  /** `s.startsWith(prefix)`. */
  predicate StartsWith(s: string, prefix: string) {
    |prefix| <= |s| && s[..|prefix|] == prefix
  }

  /** `pat` occurs in `s` starting at index `i`. */
  predicate OccursAt(s: string, pat: string, i: int) {
    0 <= i && i + |pat| <= |s| && s[i..i + |pat|] == pat
  }

  /** `s.includes(pat)`; every string includes the empty string. */
  predicate Includes(s: string, pat: string)
    decreases |s|
  {
    StartsWith(s, pat) || (|s| > 0 && Includes(s[1..], pat))
  }

  /** `includes` agrees with the positional definition of "occurs somewhere". */
  lemma {:induction false} IncludesIffOccurs(s: string, pat: string)
    ensures Includes(s, pat) <==> exists i :: OccursAt(s, pat, i)
    decreases |s|
  {
    if StartsWith(s, pat) {
      assert OccursAt(s, pat, 0);
    } else if |s| > 0 {
      IncludesIffOccurs(s[1..], pat);
      if Includes(s[1..], pat) {
        var i :| OccursAt(s[1..], pat, i);
        assert s[1..][i..i + |pat|] == s[i + 1..i + 1 + |pat|];
        assert OccursAt(s, pat, i + 1);
      } else {
        forall i | OccursAt(s, pat, i) ensures false {
          assert i != 0;
          assert s[1..][i - 1..i - 1 + |pat|] == s[i..i + |pat|];
          assert OccursAt(s[1..], pat, i - 1);
        }
      }
    }
  }

  /** `s.indexOf(pat)` for a non-empty pattern, as an option: the first occurrence. */
  function FindSub(s: string, pat: string): (r: Option<nat>)
    requires |pat| > 0
    ensures r.Some? ==> OccursAt(s, pat, r.value)
    ensures forall i :: 0 <= i && (r.None? || i < r.value) ==> !OccursAt(s, pat, i)
    decreases |s|
  {
    if |s| < |pat| then None
    else if s[..|pat|] == pat then Some(0)
    else
      var rest := FindSub(s[1..], pat);
      assert forall i :: 1 <= i ==> (OccursAt(s, pat, i) <==> OccursAt(s[1..], pat, i - 1)) by {
        forall i | 1 <= i ensures OccursAt(s, pat, i) <==> OccursAt(s[1..], pat, i - 1) {
          if i + |pat| <= |s| {
            SliceOfTail(s, i, |pat|);
          }
        }
      }
      match rest
      case None => None
      case Some(k) => Some(k + 1)
  }

  /** A slice of the tail is the slice of the whole one position further on. */
  lemma SliceOfTail(s: string, i: int, n: nat)
    requires 1 <= i && i + n <= |s|
    ensures s[1..][i - 1..i - 1 + n] == s[i..i + n]
  {
  }

  // ---------------------------------------------------------------------------
  // split / join
  // ---------------------------------------------------------------------------

  /** `parts.join(sep)`. */
  function Join(parts: seq<string>, sep: string): string
    decreases |parts|
  {
    if |parts| == 0 then ""
    else if |parts| == 1 then parts[0]
    else parts[0] + sep + Join(parts[1..], sep)
  }

  /**
   * `s.split(sep)` for a non-empty separator: the pieces between successive
   * non-overlapping occurrences, scanning from the left; always at least one piece.
   */
  function Split(s: string, sep: string): (parts: seq<string>)
    requires |sep| > 0
    ensures |parts| >= 1
    ensures Join(parts, sep) == s
    ensures |parts| == 1 <==> FindSub(s, sep).None?
    ensures FindSub(s, sep).Some? ==> parts[0] == s[..FindSub(s, sep).value]
    decreases |s|
  {
    match FindSub(s, sep)
    case None => [s]
    case Some(k) =>
      var rest := Split(s[k + |sep|..], sep);
      var parts := [s[..k]] + rest;
      assert parts[1..] == rest;
      assert s == s[..k] + sep + s[k + |sep|..] by {
        assert s[k..k + |sep|] == sep;
      }
      parts
  }

  /** With a one-character separator, `c` occurs exactly where the character is. */
  lemma OccursAtChar(s: string, c: char, i: int)
    ensures OccursAt(s, [c], i) <==> 0 <= i < |s| && s[i] == c
  {
    if 0 <= i < |s| {
      assert s[i..i + 1] == [s[i]];
    }
  }

  /** No piece produced by a one-character split contains the separator. */
  lemma {:induction false} SplitPiecesFree(s: string, c: char)
    ensures forall t :: t in Split(s, [c]) ==> c !in t
    decreases |s|
  {
    match FindSub(s, [c])
    case None =>
      forall i | 0 <= i < |s| ensures s[i] != c {
        OccursAtChar(s, c, i);
      }
    case Some(k) =>
      SplitPiecesFree(s[k + 1..], c);
      forall i | 0 <= i < k ensures s[i] != c {
        OccursAtChar(s, c, i);
      }
      assert Split(s, [c]) == [s[..k]] + Split(s[k + 1..], [c]);
  }

  /** Splitting on a character undoes joining pieces that do not contain it. */
  lemma {:induction false} SplitJoin(parts: seq<string>, c: char)
    requires |parts| >= 1
    requires forall t :: t in parts ==> c !in t
    ensures Split(Join(parts, [c]), [c]) == parts
    decreases |parts|
  {
    var s := Join(parts, [c]);
    var p := parts[0];
    assert c !in p;
    if |parts| == 1 {
      assert s == p;
      forall i | 0 <= i ensures !OccursAt(s, [c], i) {
        OccursAtChar(s, c, i);
      }
      assert FindSub(s, [c]).None?;
    } else {
      var rest := Join(parts[1..], [c]);
      assert s == p + [c] + rest;
      forall i | 0 <= i < |p| ensures !OccursAt(s, [c], i) {
        OccursAtChar(s, c, i);
        assert s[i] == p[i];
      }
      OccursAtChar(s, c, |p|);
      assert FindSub(s, [c]) == Some(|p|);
      assert s[|p| + 1..] == rest;
      SplitJoin(parts[1..], c);
      assert parts == [p] + parts[1..];
    }
  }

  // ---------------------------------------------------------------------------
  // trim
  // ---------------------------------------------------------------------------

  /** Number of whitespace characters at the front of `s`. */
  function LeadingSpaces(s: string): (n: nat)
    ensures n <= |s|
    ensures forall i :: 0 <= i < n ==> IsSpace(s[i])
    ensures n < |s| ==> !IsSpace(s[n])
    decreases |s|
  {
    if |s| > 0 && IsSpace(s[0]) then 1 + LeadingSpaces(s[1..]) else 0
  }

  /** Number of whitespace characters at the back of `s`. */
  function TrailingSpaces(s: string): (n: nat)
    ensures n <= |s|
    ensures forall i :: |s| - n <= i < |s| ==> IsSpace(s[i])
    ensures n < |s| ==> !IsSpace(s[|s| - 1 - n])
    decreases |s|
  {
    if |s| > 0 && IsSpace(s[|s| - 1]) then 1 + TrailingSpaces(s[..|s| - 1]) else 0
  }

  predicate AllSpace(s: string) {
    forall i :: 0 <= i < |s| ==> IsSpace(s[i])
  }

  /** `s.trim()`: the result is empty or starts and ends with a non-space character. */
  function Trim(s: string): (r: string)
    ensures r == [] || (!IsSpace(r[0]) && !IsSpace(r[|r| - 1]))
    ensures r == [] <==> AllSpace(s)
    ensures forall i :: 0 <= i < |r| ==> r[i] in s
  {
    var a := LeadingSpaces(s);
    var t := s[a..];
    var r := t[..|t| - TrailingSpaces(t)];
    assert r != [] ==> r[0] == s[a];
    r
  }

  lemma {:induction false} LeadingSpacesPadded(w: string, x: string)
    requires AllSpace(w)
    requires x == [] || !IsSpace(x[0])
    ensures LeadingSpaces(w + x) == |w|
    decreases |w|
  {
    if |w| > 0 {
      assert (w + x)[1..] == w[1..] + x;
      LeadingSpacesPadded(w[1..], x);
    } else {
      assert w + x == x;
    }
  }

  lemma {:induction false} TrailingSpacesPadded(x: string, w: string)
    requires AllSpace(w)
    requires x == [] || !IsSpace(x[|x| - 1])
    ensures TrailingSpaces(x + w) == |w|
    decreases |w|
  {
    if |w| > 0 {
      var xw := x + w;
      assert xw[..|xw| - 1] == x + w[..|w| - 1];
      TrailingSpacesPadded(x, w[..|w| - 1]);
    } else {
      assert x + w == x;
    }
  }

  /** `trim` undoes padding: whitespace around a trimmed string is removed exactly. */
  lemma TrimPadded(w1: string, x: string, w2: string)
    requires AllSpace(w1) && AllSpace(w2)
    requires x != [] && !IsSpace(x[0]) && !IsSpace(x[|x| - 1])
    ensures Trim(w1 + x + w2) == x
  {
    var s := w1 + x + w2;
    assert s == w1 + (x + w2);
    LeadingSpacesPadded(w1, x + w2);
    assert s[|w1|..] == x + w2;
    TrailingSpacesPadded(x, w2);
    assert (x + w2)[..|x|] == x;
  }

  // ---------------------------------------------------------------------------
  // Integers as decimal text
  // ---------------------------------------------------------------------------

  function DigitChar(d: int): (c: char)
    requires 0 <= d < 10
    ensures IsDigit(c)
  {
    ('0' as int + d) as char
  }

  function DigitValue(c: char): int
    requires IsDigit(c)
  {
    c as int - '0' as int
  }

  /** The value of a string of decimal digits, most significant first; "" reads as 0. */
  function DigitsValue(s: string): nat
    requires AllDigits(s)
    decreases |s|
  {
    if |s| == 0 then 0 else DigitsValue(s[..|s| - 1]) * 10 + DigitValue(s[|s| - 1])
  }

  /** Decimal digits of a natural number, without leading zeros. */
  function NatToString(n: nat): (r: string)
    ensures |r| >= 1 && AllDigits(r)
    ensures |r| > 1 ==> r[0] != '0'
    decreases n
  {
    if n < 10 then [DigitChar(n)] else NatToString(n / 10) + [DigitChar(n % 10)]
  }

  /** `String(n)` for an integer `n`. */
  function IntToString(n: int): string {
    if n < 0 then "-" + NatToString(-n) else NatToString(n)
  }

  /** `Number(s)` for text that is an optional minus sign followed by digits; otherwise NaN (None). */
  function ParseInt(s: string): Option<int> {
    if |s| > 1 && s[0] == '-' && AllDigits(s[1..]) then Some(0 - DigitsValue(s[1..]))
    else if |s| > 0 && AllDigits(s) then Some(DigitsValue(s))
    else None
  }

  lemma {:induction false} NatToStringValue(n: nat)
    ensures DigitsValue(NatToString(n)) == n
    decreases n
  {
    if n >= 10 {
      NatToStringValue(n / 10);
      var r := NatToString(n);
      assert r[..|r| - 1] == NatToString(n / 10);
    }
  }

  /** Reading back the decimal text of an integer gives the integer: `Number(String(n)) == n`. */
  lemma IntToStringRoundTrip(n: int)
    ensures ParseInt(IntToString(n)) == Some(n)
  {
    if n < 0 {
      var s := IntToString(n);
      assert s[1..] == NatToString(-n);
      NatToStringValue(-n);
    } else {
      NatToStringValue(n);
    }
  }

  /** Distinct integers have distinct decimal texts. */
  lemma IntToStringInjective(a: int, b: int)
    ensures IntToString(a) == IntToString(b) ==> a == b
  {
    IntToStringRoundTrip(a);
    IntToStringRoundTrip(b);
  }

  // ---------------------------------------------------------------------------
  // parseFloat over plain decimal text
  // ---------------------------------------------------------------------------

  /** Length of the run of digits at the front of `s`. */
  function DigitRun(s: string): (n: nat)
    ensures n <= |s| && AllDigits(s[..n])
    ensures n < |s| ==> !IsDigit(s[n])
    decreases |s|
  {
    if |s| > 0 && IsDigit(s[0]) then
      var n := 1 + DigitRun(s[1..]);
      assert s[..n] == [s[0]] + s[1..][..n - 1];
      n
    else 0
  }

  function Pow10(k: nat): (p: nat)
    ensures p >= 1
  {
    if k == 0 then 1 else 10 * Pow10(k - 1)
  }

  function Signed(negative: bool, x: real): real {
    if negative then -x else x
  }

  /**
   * `parseFloat(s)` for text of the form: whitespace, an optional sign, digits, and an
   * optional `.` with more digits, reading the longest such prefix. None stands for NaN
   * (no digit at all). Exponents and `Infinity` are not read.
   */
  function ParseFloat(s: string): Option<real> {
    var t := s[LeadingSpaces(s)..];
    var negative := |t| > 0 && t[0] == '-';
    var u := if |t| > 0 && (t[0] == '-' || t[0] == '+') then t[1..] else t;
    var n := DigitRun(u);
    var whole := DigitsValue(u[..n]) as real;
    if n < |u| && u[n] == '.' then
      var f := u[n + 1..];
      var m := DigitRun(f);
      if n == 0 && m == 0 then None
      else Some(Signed(negative, whole + DigitsValue(f[..m]) as real / Pow10(m) as real))
    else if n == 0 then None
    else Some(Signed(negative, whole))
  }

  lemma {:induction false} DigitRunAll(s: string)
    requires AllDigits(s)
    ensures DigitRun(s) == |s|
    decreases |s|
  {
    if |s| > 0 {
      DigitRunAll(s[1..]);
    }
  }

  /** The decimal text of a whole number parses back to that number. */
  lemma ParseFloatOfNat(n: nat)
    ensures ParseFloat(NatToString(n)) == Some(n as real)
  {
    var s := NatToString(n);
    assert !IsSpace(s[0]);
    assert LeadingSpaces(s) == 0;
    assert s[0..] == s;
    DigitRunAll(s);
    assert s[..|s|] == s;
    NatToStringValue(n);
  }

  /** The digit run ends at the first character that is not a digit. */
  lemma {:induction false} DigitRunStops(s: string, k: nat)
    requires k < |s| && AllDigits(s[..k]) && !IsDigit(s[k])
    ensures DigitRun(s) == k
    decreases k
  {
    if k > 0 {
      assert IsDigit(s[..k][0]);
      var rest := s[1..];
      var front := rest[..k - 1];
      assert AllDigits(front) by {
        forall i | 0 <= i < |front| ensures IsDigit(front[i]) {
          assert front[i] == s[..k][i + 1];
        }
      }
      DigitRunStops(rest, k - 1);
    }
  }

  /** The number written `whole.fraction`, where the fraction has `k` digits of value `fraction`. */
  function DecimalValue(whole: nat, fraction: nat, k: nat): real {
    whole as real + fraction as real / Pow10(k) as real
  }

  /** Digits, a point and more digits parse to the whole part plus the fraction. */
  lemma ParseFloatPointed(s: string, n: nat)
    requires 0 < n < |s| && AllDigits(s[..n]) && s[n] == '.' && AllDigits(s[n + 1..])
    ensures ParseFloat(s) == Some(DecimalValue(DigitsValue(s[..n]), DigitsValue(s[n + 1..]), |s| - n - 1))
  {
    assert IsDigit(s[..n][0]);
    assert !IsSpace(s[0]) && s[0] != '-' && s[0] != '+';
    assert LeadingSpaces(s) == 0;
    DigitRunStops(s, n);
    ParseFloatPointUnfold(s, n);
    var f := s[n + 1..];
    DigitRunAll(f);
    assert f[..|f|] == f;
  }

  /** The point branch of the parse, once the sign and the digit run are known. */
  lemma ParseFloatPointUnfold(s: string, n: nat)
    requires 0 < n < |s| && LeadingSpaces(s) == 0 && s[0] != '-' && s[0] != '+'
    requires DigitRun(s) == n && s[n] == '.'
    ensures var f := s[n + 1..];
      ParseFloat(s) == Some(DecimalValue(DigitsValue(s[..n]), DigitsValue(f[..DigitRun(f)]), DigitRun(f)))
  {
    assert s[0..] == s;
  }

  /**
   * A whole number, a point and a run of fraction digits parse to the whole number plus the
   * fraction: `parseFloat("12.50")` is 12.5.
   */
  lemma ParseFloatDecimal(a: nat, d: string)
    requires AllDigits(d)
    ensures ParseFloat(NatToString(a) + "." + d) == Some(DecimalValue(a, DigitsValue(d), |d|))
  {
    var w := NatToString(a);
    var s := w + "." + d;
    assert s[..|w|] == w;
    assert s[|w| + 1..] == d;
    ParseFloatPointed(s, |w|);
    NatToStringValue(a);
  }
}
