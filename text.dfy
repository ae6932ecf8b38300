// The handful of Python `str` operations the services rely on, over
// `seq<char>`: ASCII case folding, whitespace stripping, splitting on one
// character, joining, substring tests and decimal rendering of integers.
module Text {

  // ---------------------------------------------------------------- case

  predicate IsUpper(c: char) { 'A' <= c <= 'Z' }

  function LowerChar(c: char): char
  {
    if IsUpper(c) then (c as int + 32) as char else c
  }

  /** `str.lower()` on ASCII letters; every other character is kept. */
  function Lower(s: string): (r: string)
    ensures |r| == |s|
    ensures forall i :: 0 <= i < |s| ==> r[i] == LowerChar(s[i])
  {
    if |s| == 0 then "" else [LowerChar(s[0])] + Lower(s[1..])
  }

  lemma LowerIdempotent(s: string)
    ensures Lower(Lower(s)) == Lower(s)
  {
    assert forall i :: 0 <= i < |s| ==> LowerChar(LowerChar(s[i])) == LowerChar(s[i]);
  }

  // ---------------------------------------------------------- whitespace

  /** `str.isspace()` on one character, the set `str.strip()` removes: the ASCII controls tab to
      carriage return and file to unit separator, the space, NEXT LINE, NO-BREAK SPACE, and the
      Unicode space separators, line and paragraph separators. */
  predicate IsSpace(c: char)
  {
    ('\t' <= c <= '\r') || ('\U{1C}' <= c <= ' ') || c == '\U{85}' || c == '\U{A0}' || c == '\U{1680}'
    || ('\U{2000}' <= c <= '\U{200A}') || c == '\U{2028}' || c == '\U{2029}' || c == '\U{202F}'
    || c == '\U{205F}' || c == '\U{3000}'
  }

  /** Lower-casing neither creates nor removes white space. */
  lemma LowerCharSpace(c: char)
    ensures IsSpace(LowerChar(c)) <==> IsSpace(c)
  {
  }

  /** Python's `"\xa0tag\u3000".strip()` is `"tag"`. */
  lemma StripUnicodePadding()
    ensures Strip("\U{A0}tag\U{3000}") == "tag"
  {
    var p := "\U{A0}tag\U{3000}";
    assert IsSpace(p[0]) && !IsSpace(p[1]);
    assert p[1..] == "tag\U{3000}";
    assert TrimStart(p[1..]) == p[1..];
    var q := "tag\U{3000}";
    assert IsSpace(q[3]) && !IsSpace(q[2]);
    assert q[..3] == "tag";
    assert TrimEnd(q[..3]) == "tag";
  }

  /** Python's `"tag".lower()` is `"tag"`. */
  lemma LowerTag()
    ensures Lower("tag") == "tag"
  {
    LowerOfLower("tag");
  }

  /** A string made of lower-case letters is its own lower case. */
  lemma LowerOfLower(s: string)
    requires forall i :: 0 <= i < |s| ==> 'a' <= s[i] <= 'z'
    ensures Lower(s) == s
  {
  }

  /** A stripped, lower-cased string has no white space at either end. */
  lemma LowerStripTrimmed(s: string)
    ensures var t := Lower(Strip(s)); |t| > 0 ==> !IsSpace(t[0]) && !IsSpace(t[|t| - 1])
  {
    var u := Strip(s);
    if |u| > 0 {
      LowerCharSpace(u[0]);
      LowerCharSpace(u[|u| - 1]);
    }
  }

  function TrimStart(s: string): (r: string)
    ensures |r| <= |s| && r == s[|s| - |r|..]
    ensures |r| > 0 ==> !IsSpace(r[0])
  {
    if |s| > 0 && IsSpace(s[0]) then TrimStart(s[1..]) else s
  }

  function TrimEnd(s: string): (r: string)
    ensures |r| <= |s| && r == s[..|r|]
    ensures |r| > 0 ==> !IsSpace(r[|r| - 1])
  {
    if |s| > 0 && IsSpace(s[|s| - 1]) then TrimEnd(s[..|s| - 1]) else s
  }

  /** `str.strip()`: a contiguous piece of `s` with no white space at either end. */
  function Strip(s: string): (r: string)
    ensures |r| <= |TrimStart(s)| <= |s|
    ensures r == TrimStart(s)[..|r|]
    ensures |r| > 0 ==> !IsSpace(r[0]) && !IsSpace(r[|r| - 1])
  {
    TrimEnd(TrimStart(s))
  }

  // ------------------------------------------------------ split and join

  /** `s.split(sep)` for a one-character separator: never empty, pieces free of `sep`. */
  function Split(s: string, sep: char): (r: seq<string>)
    ensures |r| >= 1
    ensures forall k :: 0 <= k < |r| ==> sep !in r[k]
  {
    if |s| == 0 then [""]
    else
      var rest := Split(s[1..], sep);
      if s[0] == sep then [""] + rest
      else [[s[0]] + rest[0]] + rest[1..]
  }

  /** `sep.join(parts)`. */
  function Join(sep: string, parts: seq<string>): string
  {
    if |parts| == 0 then ""
    else if |parts| == 1 then parts[0]
    else parts[0] + sep + Join(sep, parts[1..])
  }

  /** A join begins with its first part. */
  lemma JoinStartsWithFirst(sep: string, parts: seq<string>)
    requires |parts| > 0
    ensures |Join(sep, parts)| >= |parts[0]|
  {
  }

  /** Splitting and re-joining on the same character gives the text back. */
  lemma {:induction false} JoinSplit(s: string, sep: char)
    ensures Join([sep], Split(s, sep)) == s
  {
    if |s| > 0 {
      var rest := Split(s[1..], sep);
      JoinSplit(s[1..], sep);
      if s[0] == sep {
        assert s == [sep] + s[1..];
      } else if |rest| == 1 {
        assert s == [s[0]] + s[1..];
      } else {
        assert Split(s, sep)[1..] == rest[1..];
        assert s == [s[0]] + s[1..];
        assert [s[0]] + rest[0] + [sep] + Join([sep], rest[1..]) == [s[0]] + (rest[0] + [sep] + Join([sep], rest[1..]));
      }
    }
  }

  lemma {:induction false} SplitWithoutSeparator(a: string, sep: char)
    requires sep !in a
    ensures Split(a, sep) == [a]
  {
    if |a| > 0 {
      SplitWithoutSeparator(a[1..], sep);
      assert a == [a[0]] + a[1..];
    }
  }

  lemma {:induction false} SplitAfterPiece(a: string, b: string, sep: char)
    requires sep !in a
    ensures Split(a + [sep] + b, sep) == [a] + Split(b, sep)
  {
    var s := a + [sep] + b;
    if |a| == 0 {
      assert s[1..] == b;
    } else {
      assert s[1..] == a[1..] + [sep] + b;
      SplitAfterPiece(a[1..], b, sep);
      assert a == [a[0]] + a[1..];
    }
  }

  /** Joining pieces free of the separator and splitting again gives the pieces back. */
  lemma {:induction false} SplitJoin(parts: seq<string>, sep: char)
    requires |parts| >= 1
    requires forall k :: 0 <= k < |parts| ==> sep !in parts[k]
    ensures Split(Join([sep], parts), sep) == parts
  {
    if |parts| == 1 {
      SplitWithoutSeparator(parts[0], sep);
    } else {
      SplitJoin(parts[1..], sep);
      SplitAfterPiece(parts[0], Join([sep], parts[1..]), sep);
      assert parts == [parts[0]] + parts[1..];
    }
  }

  // ----------------------------------------------------------- substrings

  predicate StartsWith(s: string, prefix: string)
  {
    |prefix| <= |s| && s[..|prefix|] == prefix
  }

  predicate EndsWith(s: string, suffix: string)
  {
    |suffix| <= |s| && s[|s| - |suffix|..] == suffix
  }

  /** `needle` occurs in `haystack` starting at index `i`. */
  predicate OccursAt(haystack: string, needle: string, i: int)
  {
    0 <= i && i + |needle| <= |haystack| && haystack[i..i + |needle|] == needle
  }

  /** Python's `needle in haystack` on strings. */
  predicate Contains(haystack: string, needle: string)
  {
    exists i :: 0 <= i <= |haystack| && OccursAt(haystack, needle, i)
  }

  /** A decision procedure for `Contains`, scanning left to right. */
  function ContainsFrom(haystack: string, needle: string, i: nat): (r: bool)
    requires i <= |haystack|
    ensures r <==> exists j :: i <= j && OccursAt(haystack, needle, j)
    decreases |haystack| - i
  {
    if i + |needle| > |haystack| then false
    else if haystack[i..i + |needle|] == needle then assert OccursAt(haystack, needle, i); true
    else ContainsFrom(haystack, needle, i + 1)
  }

  function HasSubstring(haystack: string, needle: string): (r: bool)
    ensures r <==> Contains(haystack, needle)
  {
    ContainsFrom(haystack, needle, 0)
  }

  /** The first index of `c` in `s`, or `|s|` when it does not occur. */
  function IndexOf(s: string, c: char): (r: nat)
    ensures r <= |s|
    ensures forall k :: 0 <= k < r ==> s[k] != c
    ensures r < |s| ==> s[r] == c
  {
    if |s| == 0 then 0 else if s[0] == c then 0 else 1 + IndexOf(s[1..], c)
  }

  /** The first `c` of `a + [c] + b` is the one after `a` when `a` has none. */
  lemma IndexOfSeparator(a: string, c: char, b: string)
    requires c !in a
    ensures IndexOf(a + [c] + b, c) == |a|
  {
    var s := a + [c] + b;
    assert s[|a|] == c;
    assert forall k :: 0 <= k < |a| ==> s[k] == a[k];
  }

  // -------------------------------------------------------------- decimal

  predicate IsDigit(c: char) { '0' <= c <= '9' }

  function DigitChar(d: nat): (c: char)
    requires d < 10
    ensures IsDigit(c)
  {
    ('0' as int + d) as char
  }

  function DigitValue(c: char): nat
    requires IsDigit(c)
  {
    (c as int - '0' as int) as nat
  }

  /** `str(n)` for a natural number: its shortest decimal numeral. */
  function NatToDecimal(n: nat): (r: string)
    ensures |r| >= 1
    ensures forall i :: 0 <= i < |r| ==> IsDigit(r[i])
  {
    if n < 10 then [DigitChar(n)] else NatToDecimal(n / 10) + [DigitChar(n % 10)]
  }

  /** `str(i)` for any integer: a minus sign before the magnitude of a negative. */
  function IntToDecimal(i: int): string
  {
    if i < 0 then "-" + NatToDecimal(-i) else NatToDecimal(i)
  }

  /** The value of a non-empty numeral. */
  function DecimalValue(s: string): nat
    requires |s| >= 1 && forall i :: 0 <= i < |s| ==> IsDigit(s[i])
  {
    if |s| == 1 then DigitValue(s[0])
    else DecimalValue(s[..|s| - 1]) * 10 + DigitValue(s[|s| - 1])
  }

  lemma {:induction false} DecimalRoundTrip(n: nat)
    ensures DecimalValue(NatToDecimal(n)) == n
  {
    if n >= 10 {
      var s := NatToDecimal(n);
      assert s[..|s| - 1] == NatToDecimal(n / 10);
      DecimalRoundTrip(n / 10);
    }
  }

  /** `int(s)` for the numerals `IntToDecimal` produces (anything else reads as 0). */
  function ParseInt(s: string): int
  {
    if |s| >= 2 && s[0] == '-' && forall i :: 1 <= i < |s| ==> IsDigit(s[i]) then -(DecimalValue(s[1..]) as int)
    else if |s| >= 1 && forall i :: 0 <= i < |s| ==> IsDigit(s[i]) then DecimalValue(s)
    else 0
  }

  lemma IntRoundTrip(i: int)
    ensures ParseInt(IntToDecimal(i)) == i
  {
    var s := IntToDecimal(i);
    if i < 0 {
      assert s[1..] == NatToDecimal(-i);
      DecimalRoundTrip(-i);
    } else {
      assert IsDigit(s[0]);
      DecimalRoundTrip(i);
    }
  }

  /** A rendered integer holds only digits and possibly a leading minus sign. */
  lemma DecimalCharacters(i: int, c: char)
    requires c != '-' && !IsDigit(c)
    ensures c !in IntToDecimal(i)
  {
    var s := IntToDecimal(i);
    if i < 0 {
      assert s == "-" + NatToDecimal(-i);
    }
  }

  /** Rendering is one-to-one, so a rendered number is an unambiguous key. */
  lemma IntToDecimalInjective(a: int, b: int)
    requires IntToDecimal(a) == IntToDecimal(b)
    ensures a == b
  {
    IntRoundTrip(a);
    IntRoundTrip(b);
  }
}
