/**
 * String helpers shared by the server and client models. Strings are `seq<char>`;
 * case mapping covers ASCII letters only.
 */
module Text {
  import opened Wrappers

  predicate IsDigit(c: char) { '0' <= c <= '9' }
  predicate IsLowerLetter(c: char) { 'a' <= c <= 'z' }
  predicate IsUpperLetter(c: char) { 'A' <= c <= 'Z' }

  /** The regular-expression class `\w`. */
  predicate IsWordChar(c: char) { IsDigit(c) || IsLowerLetter(c) || IsUpperLetter(c) || c == '_' }

  /** The whitespace that `String.prototype.trim` strips (ASCII part). */
  predicate IsSpace(c: char) { c == ' ' || c == '\t' || c == '\n' || c == '\r' }

  function UpperChar(c: char): (u: char)
    ensures IsLowerLetter(c) ==> IsUpperLetter(u) && u as int == c as int - 32
    ensures !IsLowerLetter(c) ==> u == c
    ensures !IsLowerLetter(u)
  {
    if IsLowerLetter(c) then (c as int - 32) as char else c
  }

  function LowerChar(c: char): (l: char)
    ensures IsUpperLetter(c) ==> IsLowerLetter(l) && l as int == c as int + 32
    ensures !IsUpperLetter(c) ==> l == c
    ensures !IsUpperLetter(l)
  {
    if IsUpperLetter(c) then (c as int + 32) as char else c
  }

  /** `toUpperCase`: same length, no lower-case letter left, every other character kept. */
  function ToUpper(s: string): (r: string)
    ensures |r| == |s|
    ensures forall i :: 0 <= i < |s| ==> r[i] == UpperChar(s[i]) && !IsLowerLetter(r[i])
  {
    seq(|s|, i requires 0 <= i < |s| => UpperChar(s[i]))
  }

  /** `toLowerCase`, the mirror of ToUpper. */
  function ToLower(s: string): (r: string)
    ensures |r| == |s|
    ensures forall i :: 0 <= i < |s| ==> r[i] == LowerChar(s[i]) && !IsUpperLetter(r[i])
  {
    seq(|s|, i requires 0 <= i < |s| => LowerChar(s[i]))
  }

  lemma ToUpperIdempotent(s: string)
    ensures ToUpper(ToUpper(s)) == ToUpper(s)
  {
    var u := ToUpper(s);
    assert forall i :: 0 <= i < |u| ==> UpperChar(u[i]) == u[i];
  }

  /** Upper-casing forgets whether letters were lower-cased first. */
  lemma UpperOfLower(s: string)
    ensures ToUpper(ToLower(s)) == ToUpper(s)
  {
    assert forall i :: 0 <= i < |s| ==> UpperChar(LowerChar(s[i])) == UpperChar(s[i]);
  }

  predicate IsPrefix(n: string, h: string) { |n| <= |h| && h[..|n|] == n }

  /** `n` occurs somewhere inside `h` (a literal substring search). */
  predicate IsInfix(n: string, h: string)
    decreases |h|
  {
    IsPrefix(n, h) || (|h| > 0 && IsInfix(n, h[1..]))
  }

  /** A `$regex` match with `$options: "i"`, the pattern read literally. */
  predicate ContainsIgnoreCase(h: string, n: string) {
    IsInfix(ToLower(n), ToLower(h))
  }

  function TrimStart(s: string): (r: string)
    ensures |r| <= |s| && r == s[|s| - |r|..]
    ensures r == "" || !IsSpace(r[0])
    ensures forall k :: 0 <= k < |s| - |r| ==> IsSpace(s[k])
  {
    if |s| > 0 && IsSpace(s[0]) then TrimStart(s[1..]) else s
  }

  function TrimEnd(s: string): (r: string)
    ensures |r| <= |s| && r == s[..|r|]
    ensures r == "" || !IsSpace(r[|r| - 1])
    ensures forall k :: |r| <= k < |s| ==> IsSpace(s[k])
  {
    if |s| > 0 && IsSpace(s[|s| - 1]) then TrimEnd(s[..|s| - 1]) else s
  }

  lemma {:induction false} SliceIsInfix(s: string, i: nat, j: nat)
    requires i <= j <= |s|
    ensures IsInfix(s[i..j], s)
    decreases i
  {
    if i > 0 {
      SliceIsInfix(s[1..], i - 1, j - 1);
      assert s[1..][i - 1..j - 1] == s[i..j];
    }
  }

  /** Every character of `s` before `i` and from `j` on is a blank. */
  predicate BlanksOutside(s: string, i: nat, j: nat) {
    forall k :: 0 <= k < |s| && (k < i || j <= k) ==> IsSpace(s[k])
  }

  /** The number of blanks `s` starts with. */
  function LeadingBlanks(s: string): (n: nat)
    ensures n <= |s|
  {
    |s| - |TrimStart(s)|
  }

  /** `String.prototype.trim`: a piece of `s` with no blank at either end; TrimDropsOnlyEndBlanks shows none is dropped inside. */
  function Trim(s: string): (r: string)
    ensures IsInfix(r, s)
    ensures r == "" || (!IsSpace(r[0]) && !IsSpace(r[|r| - 1]))
    ensures (forall i :: 0 <= i < |s| ==> !IsSpace(s[i])) ==> r == s
  {
    var t := TrimStart(s);
    var r := TrimEnd(t);
    assert r == s[|s| - |t|..|s| - |t| + |r|];
    SliceIsInfix(s, |s| - |t|, |s| - |t| + |r|);
    r
  }

  /**
   * The trim is the slice of `s` after its leading blanks, and every character outside that
   * slice is a blank: only blanks at the two ends are removed.
   */
  lemma TrimDropsOnlyEndBlanks(s: string)
    ensures var r := Trim(s); var i := LeadingBlanks(s);
            i + |r| <= |s| && r == s[i..i + |r|] && BlanksOutside(s, i, i + |r|)
  {
    var t := TrimStart(s);
    var i := |s| - |t|;
    assert t == s[i..];
    TrimEndOfSuffix(s, i);
    assert BlanksOutside(s, i, i + |TrimEnd(t)|);
  }

  /** Trimming the end of the suffix of `s` from `i` on drops only blanks at the end of `s`. */
  lemma TrimEndOfSuffix(s: string, i: nat)
    requires i <= |s|
    ensures var r := TrimEnd(s[i..]);
            i + |r| <= |s| && r == s[i..i + |r|] && forall k :: i + |r| <= k < |s| ==> IsSpace(s[k])
  {
    var t := s[i..];
    var r := TrimEnd(t);
    forall k | i + |r| <= k < |s|
      ensures IsSpace(s[k])
    {
      assert s[k] == t[k - i];
    }
  }

  /** A string with no blank at either end is its own trim. */
  lemma TrimKeepsTrimmed(t: string)
    requires t == "" || (!IsSpace(t[0]) && !IsSpace(t[|t| - 1]))
    ensures Trim(t) == t
  {
  }

  function DigitChar(d: nat): (c: char)
    requires d < 10
    ensures IsDigit(c) && c as int - '0' as int == d
  {
    ('0' as int + d) as char
  }

  predicate AllDigits(s: string) { forall i :: 0 <= i < |s| ==> IsDigit(s[i]) }

  /** The number a string of decimal digits denotes. */
  function DecimalValue(s: string): nat
    requires AllDigits(s)
  {
    if s == [] then 0 else DecimalValue(s[..|s| - 1]) * 10 + (s[|s| - 1] as int - '0' as int)
  }

  /** `String(n)` for a non-negative integer: digits only (and they denote `n` again, by DecimalRoundTrip). */
  function NatToDecimal(n: nat): (s: string)
    ensures |s| >= 1 && AllDigits(s)
    ensures n < 10 <==> |s| == 1
    decreases n
  {
    if n < 10 then [DigitChar(n)]
    else
      var prefix := NatToDecimal(n / 10);
      var s := prefix + [DigitChar(n % 10)];
      assert s[..|s| - 1] == prefix;
      s
  }

  /** The digits `String(n)` writes denote `n`. */
  lemma {:induction false} DecimalRoundTrip(n: nat)
    ensures DecimalValue(NatToDecimal(n)) == n
    decreases n
  {
    if n >= 10 {
      var s := NatToDecimal(n);
      assert s[..|s| - 1] == NatToDecimal(n / 10);
      DecimalRoundTrip(n / 10);
    }
  }

  /** `String(i)` for any integer: a minus sign before the digits of a negative number. */
  function IntToDecimal(i: int): (s: string)
    ensures |s| >= 1 && !IsDigit(s[0]) <==> i < 0
    ensures i >= 0 ==> s == NatToDecimal(i)
    ensures i < 0 ==> s == "-" + NatToDecimal(-i)
  {
    if i < 0 then "-" + NatToDecimal(-i) else NatToDecimal(i)
  }

  lemma {:induction false} LeadingZeroKeepsValue(s: string)
    requires AllDigits(s)
    ensures AllDigits("0" + s) && DecimalValue("0" + s) == DecimalValue(s)
    decreases |s|
  {
    var z := "0" + s;
    if s != [] {
      assert z[..|z| - 1] == "0" + s[..|s| - 1];
      LeadingZeroKeepsValue(s[..|s| - 1]);
    }
  }

  /** The length of the run of digits `s` starts with. */
  function DigitRun(s: string): (n: nat)
    ensures n <= |s| && AllDigits(s[..n]) && (n == |s| || !IsDigit(s[n]))
  {
    if s != [] && IsDigit(s[0]) then
      var n := 1 + DigitRun(s[1..]);
      assert s[..n] == [s[0]] + s[1..][..n - 1];
      n
    else 0
  }

  /** A sign character `parseInt` accepts before the digits. */
  predicate IsSign(c: char) { c == '-' || c == '+' }

  /**
   * `parseInt(s)` in base 10: leading blanks are skipped, then an optional sign, then the
   * longest run of digits, and whatever follows is ignored; with no digit there it is NaN,
   * which is None here.
   */
  function ParseInt(s: string): Option<int> {
    ParseSignedDigits(TrimStart(s))
  }

  /** The number a text starting with an optional sign and then digits begins with. */
  function ParseSignedDigits(t: string): Option<int> {
    if t != [] && IsSign(t[0]) then
      match ParseDigits(t[1..])
      case None => None
      case Some(m) => Some(if t[0] == '-' then -m else m)
    else ParseDigits(t)
  }

  /** The value of the run of digits `t` starts with, None when there is none. */
  function ParseDigits(t: string): Option<int> {
    var n := DigitRun(t);
    if n == 0 then None else Some(DecimalValue(t[..n]))
  }

  /** A run of digits followed by a non-digit is read up to the non-digit. */
  lemma {:induction false} DigitRunOf(d: string, tail: string)
    requires AllDigits(d)
    requires tail == [] || !IsDigit(tail[0])
    ensures DigitRun(d + tail) == |d| && (d + tail)[..|d|] == d
    decreases |d|
  {
    if d != [] {
      assert (d + tail)[1..] == d[1..] + tail;
      DigitRunOf(d[1..], tail);
    }
  }

  /**
   * `parseInt` reads back what `String(i)` writes, whatever non-digit text follows it and
   * whatever blanks precede it: "12kg" is 12, "-3" is -3.
   */
  lemma {:induction false} ParseIntReadsDecimal(i: int, blanks: string, tail: string)
    requires forall k :: 0 <= k < |blanks| ==> IsSpace(blanks[k])
    requires tail == [] || !IsDigit(tail[0])
    ensures ParseInt(blanks + (IntToDecimal(i) + tail)) == Some(i)
  {
    BlanksIgnored(blanks, IntToDecimal(i) + tail);
    ParseIntOfDecimal(i, tail);
  }

  /** `parseInt(String(i) + tail)` is i when `tail` does not start with a digit. */
  lemma {:induction false} ParseIntOfDecimal(i: int, tail: string)
    requires tail == [] || !IsDigit(tail[0])
    ensures ParseInt(IntToDecimal(i) + tail) == Some(i)
  {
    if i < 0 {
      ParseNegativeDecimal(-i, tail);
      MinusBeforeDigits(i, tail);
    } else {
      DecimalRoundTrip(i);
      ParseUnsigned(NatToDecimal(i), tail);
    }
  }

  /** `String(i) + tail` for a negative i is a minus sign before the digits of -i. */
  lemma MinusBeforeDigits(i: int, tail: string)
    requires i < 0
    ensures IntToDecimal(i) + tail == ['-'] + (NatToDecimal(-i) + tail)
  {
  }

  /** A minus sign before the digits of `n` and a non-digit is read as -n. */
  lemma {:induction false} ParseNegativeDecimal(n: nat, tail: string)
    requires tail == [] || !IsDigit(tail[0])
    ensures ParseInt(['-'] + (NatToDecimal(n) + tail)) == Some(-(n as int))
  {
    var d := NatToDecimal(n);
    var x := d + tail;
    DecimalRoundTrip(n);
    DigitRunOf(d, tail);
    assert ParseDigits(x) == Some(n as int);
    MinusNegates(x, n);
  }

  /** Blanks in front of a text that starts with a digit or a sign change nothing. */
  lemma {:induction false} BlanksIgnored(blanks: string, x: string)
    requires forall k :: 0 <= k < |blanks| ==> IsSpace(blanks[k])
    requires x != [] && (IsDigit(x[0]) || IsSign(x[0]))
    ensures ParseInt(blanks + x) == ParseInt(x)
  {
    TrimStartAfterBlanks(blanks, x);
    TrimStartAfterBlanks([], x);
    assert [] + x == x;
  }

  /** A run of digits before a non-digit is read as that number. */
  lemma {:induction false} ParseUnsigned(digits: string, tail: string)
    requires |digits| >= 1 && AllDigits(digits)
    requires tail == [] || !IsDigit(tail[0])
    ensures ParseInt(digits + tail) == Some(DecimalValue(digits) as int)
  {
    var t := digits + tail;
    assert t[0] == digits[0] && !IsSpace(t[0]) && !IsSign(t[0]);
    assert TrimStart(t) == t;
    assert t[0..] == t;
    DigitRunOf(digits, tail);
  }

  /** A leading minus sign negates what the digits after it read as; the sign is not a blank. */
  lemma MinusNegates(rest: string, v: int)
    requires ParseDigits(rest) == Some(v)
    ensures ParseInt(['-'] + rest) == Some(-v)
  {
    var t := ['-'] + rest;
    assert t[1..] == rest;
    assert TrimStart(t) == t;
  }

  /** Blanks in front of a text that does not start with one are exactly what TrimStart removes. */
  lemma {:induction false} TrimStartAfterBlanks(blanks: string, rest: string)
    requires forall k :: 0 <= k < |blanks| ==> IsSpace(blanks[k])
    requires rest == [] || !IsSpace(rest[0])
    ensures TrimStart(blanks + rest) == rest
    decreases |blanks|
  {
    if blanks != [] {
      assert (blanks + rest)[1..] == blanks[1..] + rest;
      TrimStartAfterBlanks(blanks[1..], rest);
    }
  }

  /** A text with no digit after its blanks and sign is NaN: "abc" and "kg" give no weight. */
  lemma ParseIntWithoutDigits(s: string)
    requires var t := TrimStart(s); t == [] || (!IsDigit(t[0]) && !IsSign(t[0]))
    ensures ParseInt(s).None?
  {
  }

  /** `String(n).padStart(2, "0")`: two digits for n < 100, denoting n. */
  function PadTwo(n: nat): (s: string)
    ensures AllDigits(s) && DecimalValue(s) == n
    ensures n < 100 ==> |s| == 2
    ensures n >= 10 ==> s == NatToDecimal(n)
  {
    var d := NatToDecimal(n);
    DecimalRoundTrip(n);
    if |d| < 2 then
      LeadingZeroKeepsValue(d);
      "0" + d
    else d
  }

  /** `parts.join(sep)`. */
  function Join(parts: seq<string>, sep: string): (r: string)
    ensures |parts| == 0 ==> r == ""
    ensures |parts| == 1 ==> r == parts[0]
    ensures |parts| >= 2 ==> r == parts[0] + sep + Join(parts[1..], sep)
  {
    if |parts| == 0 then "" else if |parts| == 1 then parts[0] else parts[0] + sep + Join(parts[1..], sep)
  }

  /** `s.indexOf(c)`: the first position holding `c`, or -1. */
  function IndexOf(s: string, c: char): (k: int)
    ensures -1 <= k < |s|
    ensures k == -1 <==> c !in s
    ensures k >= 0 ==> s[k] == c && c !in s[..k]
  {
    if s == [] then -1
    else if s[0] == c then 0
    else
      var k := IndexOf(s[1..], c);
      assert s == [s[0]] + s[1..];
      if k < 0 then -1
      else
        assert s[..k + 1] == [s[0]] + s[1..][..k];
        k + 1
  }

  /** `s.replace(from, to)` for a one-character pattern: only the first occurrence changes. */
  function ReplaceFirst(s: string, from: char, to: char): (r: string)
    ensures |r| == |s|
    ensures forall i :: 0 <= i < |s| ==> r[i] == if i == IndexOf(s, from) then to else s[i]
  {
    var k := IndexOf(s, from);
    if k < 0 then s else s[..k] + [to] + s[k + 1..]
  }

  /** Lexicographic order of strings by character code, as JavaScript and MongoDB compare them. */
  predicate LexLess(a: string, b: string)
    decreases |a|
  {
    if a == [] then b != []
    else if b == [] then false
    else if a[0] != b[0] then a[0] < b[0]
    else LexLess(a[1..], b[1..])
  }

  lemma {:induction false} LexLessIrreflexive(a: string)
    ensures !LexLess(a, a)
    decreases |a|
  {
    if a != [] {
      LexLessIrreflexive(a[1..]);
    }
  }

  /** Two strings that agree before position k and differ at k compare as their k-th characters. */
  lemma {:induction false} LexLessAtFirstDifference(a: string, b: string, k: nat)
    requires k < |a| && k < |b| && a[..k] == b[..k] && a[k] != b[k]
    ensures LexLess(a, b) <==> a[k] < b[k]
    decreases k
  {
    if k > 0 {
      assert a[0] == a[..k][0] == b[..k][0] == b[0];
      assert a[1..][..k - 1] == a[1..k] == b[1..k] == b[1..][..k - 1];
      LexLessAtFirstDifference(a[1..], b[1..], k - 1);
    }
  }

  /** `s.charAt(0).toUpperCase() + s.slice(1)`: only the first character changes. */
  function CapitalizeFirst(s: string): (r: string)
    ensures |r| == |s|
    ensures s != "" ==> r[0] == UpperChar(s[0]) && r[1..] == s[1..]
  {
    if s == "" then "" else [UpperChar(s[0])] + s[1..]
  }

  /** Lower-casing forgets whether letters were upper-cased first. */
  lemma LowerOfUpper(s: string)
    ensures ToLower(ToUpper(s)) == ToLower(s)
  {
    assert forall i :: 0 <= i < |s| ==> LowerChar(UpperChar(s[i])) == LowerChar(s[i]);
  }

  /** Only a string no longer than `h` can occur inside it. */
  lemma {:induction false} InfixNoLonger(n: string, h: string)
    requires IsInfix(n, h)
    ensures |n| <= |h|
    decreases |h|
  {
    if !IsPrefix(n, h) {
      InfixNoLonger(n, h[1..]);
    }
  }

  /** The first occurrence is the one after a prefix free of the character. */
  lemma ReplaceFirstAfter(a: string, b: string, from: char, to: char)
    requires from !in a
    ensures ReplaceFirst(a + [from] + b, from, to) == a + [to] + b
  {
    var s := a + [from] + b;
    var k := IndexOf(s, from);
    assert s[|a|] == from;
    assert s[..k] == a && s[k + 1..] == b;
  }
}
