/**
 * The string operations the recipe store relies on, written out over
 * `seq<char>`: lower-casing (ASCII letters only), substring search (Python's
 * `in` on two strings), joining with a separator, splitting at line breaks,
 * stripping whitespace, and decimal rendering of a count.
 */
module Text {

  /* ---------------------------------------------------------------------- */
  /* Lower-casing                                                           */
  /* ---------------------------------------------------------------------- */

  /** `str.lower` on one character, restricted to the ASCII letters. */
  function LowerChar(c: char): char {
    if 'A' <= c <= 'Z' then (c as int + 32) as char else c
  }

  /** `str.lower`, character by character. */
  function Lower(s: string): (r: string)
    ensures |r| == |s|
    ensures forall i :: 0 <= i < |s| ==> r[i] == LowerChar(s[i])
  {
    seq(|s|, i requires 0 <= i < |s| => LowerChar(s[i]))
  }

  lemma LowerConcat(a: string, b: string)
    ensures Lower(a + b) == Lower(a) + Lower(b)
  {
    assert forall i :: 0 <= i < |a + b| ==> Lower(a + b)[i] == (Lower(a) + Lower(b))[i];
  }

  /** Lower-casing twice is lower-casing once. */
  lemma LowerIdempotent(s: string)
    ensures Lower(Lower(s)) == Lower(s)
  {
  }

  /* ---------------------------------------------------------------------- */
  /* Substring search                                                       */
  /* ---------------------------------------------------------------------- */

  /** Python's `pattern in text` for two strings: `pattern` occurs in `text`. */
  predicate Contains(text: string, pattern: string)
    decreases |text|
  {
    pattern <= text || (text != [] && Contains(text[1..], pattern))
  }

  /** The occurrence of `pattern` at position `i` of `text`. */
  predicate OccursAt(text: string, pattern: string, i: int) {
    0 <= i && i + |pattern| <= |text| && text[i..i + |pattern|] == pattern
  }

  /** `Contains` finds an occurrence exactly when there is one. */
  lemma {:induction false} ContainsIff(text: string, pattern: string)
    ensures Contains(text, pattern) <==> exists i :: OccursAt(text, pattern, i)
    decreases |text|
  {
    if Contains(text, pattern) {
      if pattern <= text {
        assert OccursAt(text, pattern, 0);
      } else {
        ContainsIff(text[1..], pattern);
        var i :| OccursAt(text[1..], pattern, i);
        assert text[1..][i..i + |pattern|] == text[i + 1..i + 1 + |pattern|];
        assert OccursAt(text, pattern, i + 1);
      }
    }
    if exists i :: OccursAt(text, pattern, i) {
      var i :| OccursAt(text, pattern, i);
      if i == 0 {
        assert pattern <= text;
      } else {
        assert text[1..][i - 1..i - 1 + |pattern|] == text[i..i + |pattern|];
        assert OccursAt(text[1..], pattern, i - 1);
        ContainsIff(text[1..], pattern);
      }
    }
  }

  /** The empty string occurs in every string. */
  lemma ContainsEmpty(text: string)
    ensures Contains(text, [])
  {
    assert [] <= text;
  }

  /** An occurrence in a middle piece is an occurrence in the whole. */
  lemma ContainsInMiddle(a: string, b: string, c: string, pattern: string)
    requires Contains(b, pattern)
    ensures Contains(a + b + c, pattern)
  {
    ContainsIff(b, pattern);
    var i :| OccursAt(b, pattern, i);
    assert (a + b + c)[|a| + i..|a| + i + |pattern|] == b[i..i + |pattern|];
    assert OccursAt(a + b + c, pattern, |a| + i);
    ContainsIff(a + b + c, pattern);
  }

  /* ---------------------------------------------------------------------- */
  /* Joining and splitting                                                  */
  /* ---------------------------------------------------------------------- */

  /** Python's `sep.join(parts)`. */
  function Join(sep: string, parts: seq<string>): string {
    if |parts| == 0 then []
    else if |parts| == 1 then parts[0]
    else parts[0] + sep + Join(sep, parts[1..])
  }

  /** Every part is a piece of the joined string. */
  lemma {:induction false} JoinContainsPart(sep: string, parts: seq<string>, k: nat)
    requires k < |parts|
    ensures exists a, c :: Join(sep, parts) == a + parts[k] + c
  {
    if |parts| == 1 {
      assert Join(sep, parts) == [] + parts[0] + [];
    } else if k == 0 {
      assert Join(sep, parts) == [] + parts[0] + (sep + Join(sep, parts[1..]));
    } else {
      JoinContainsPart(sep, parts[1..], k - 1);
      var a, c :| Join(sep, parts[1..]) == a + parts[1..][k - 1] + c;
      assert Join(sep, parts) == (parts[0] + sep + a) + parts[k] + c;
    }
  }

  /** Python's `s.split('\n')`: the pieces between line breaks, never none. */
  function SplitLines(s: string): (lines: seq<string>)
    ensures |lines| >= 1
    ensures forall k :: 0 <= k < |lines| ==> '\n' !in lines[k]
    decreases |s|
  {
    if s == [] then [[]]
    else
      var rest := SplitLines(s[1..]);
      if s[0] == '\n' then [[]] + rest
      else [[s[0]] + rest[0]] + rest[1..]
  }

  /** Splitting at line breaks and joining with line breaks gives the text back. */
  lemma {:induction false} JoinSplitLines(s: string)
    ensures Join("\n", SplitLines(s)) == s
    decreases |s|
  {
    if s != [] {
      var rest := SplitLines(s[1..]);
      JoinSplitLines(s[1..]);
      if s[0] == '\n' {
        assert ([[]] + rest)[1..] == rest;
        assert s == "\n" + s[1..];
      } else if |rest| == 1 {
        assert s == [s[0]] + s[1..];
      } else {
        var lines := [[s[0]] + rest[0]] + rest[1..];
        assert lines[1..] == rest[1..];
        assert s == [s[0]] + s[1..];
      }
    }
  }

  /** Every character other than a line break lands in one of the lines. */
  lemma {:induction false} SplitLinesCover(s: string, i: nat)
    requires i < |s| && s[i] != '\n'
    ensures exists k :: 0 <= k < |SplitLines(s)| && s[i] in SplitLines(s)[k]
    decreases |s|
  {
    var rest := SplitLines(s[1..]);
    if i == 0 {
      assert s[0] in SplitLines(s)[0];
    } else {
      SplitLinesCover(s[1..], i - 1);
      var k :| 0 <= k < |rest| && s[1..][i - 1] in rest[k];
      if s[0] == '\n' {
        assert SplitLines(s)[k + 1] == rest[k];
      } else if k == 0 {
        assert SplitLines(s)[0] == [s[0]] + rest[0];
      } else {
        assert SplitLines(s)[k] == rest[k];
      }
    }
  }

  /** Every character of every line comes from the text. */
  lemma {:induction false} SplitLinesChars(s: string, k: nat, c: char)
    requires k < |SplitLines(s)| && c in SplitLines(s)[k]
    ensures c in s
    decreases |s|
  {
    if s != [] {
      var rest := SplitLines(s[1..]);
      if s[0] == '\n' {
        if k > 0 {
          assert SplitLines(s)[k] == rest[k - 1];
          SplitLinesChars(s[1..], k - 1, c);
        }
      } else if k == 0 {
        if c != s[0] {
          assert c in rest[0];
          SplitLinesChars(s[1..], 0, c);
        }
      } else {
        assert SplitLines(s)[k] == rest[k];
        SplitLinesChars(s[1..], k, c);
      }
    }
  }

  /** The lines of a text of whitespace are whitespace. */
  lemma SplitLinesAllSpace(s: string)
    requires AllSpace(s)
    ensures forall m :: 0 <= m < |SplitLines(s)| ==> AllSpace(SplitLines(s)[m])
  {
    forall m, c | 0 <= m < |SplitLines(s)| && 0 <= c < |SplitLines(s)[m]|
      ensures IsSpace(SplitLines(s)[m][c])
    {
      SplitLinesChars(s, m, SplitLines(s)[m][c]);
    }
  }

  /* ---------------------------------------------------------------------- */
  /* Whitespace stripping                                                   */
  /* ---------------------------------------------------------------------- */

  /** The characters Python's `str.isspace` accepts. */
  predicate IsSpace(c: char) {
    c == ' ' || '\t' <= c <= '\r' || '\U{1C}' <= c <= '\U{1F}'
    || c == '\U{85}' || c == '\U{A0}' || c == '\U{1680}'
    || '\U{2000}' <= c <= '\U{200A}' || c == '\U{2028}' || c == '\U{2029}'
    || c == '\U{202F}' || c == '\U{205F}' || c == '\U{3000}'
  }

  predicate AllSpace(s: string) {
    forall k :: 0 <= k < |s| ==> IsSpace(s[k])
  }

  /** Drops the leading whitespace: what is left is a suffix starting with a non-space. */
  function TrimStart(s: string): (r: string)
    ensures |r| <= |s| && r == s[|s| - |r|..]
    ensures AllSpace(s[..|s| - |r|])
    ensures r == [] || !IsSpace(r[0])
    decreases |s|
  {
    if s != [] && IsSpace(s[0]) then
      var r := TrimStart(s[1..]);
      assert s[..|s| - |r|] == [s[0]] + s[1..][..|s| - 1 - |r|];
      r
    else s
  }

  /** Drops the trailing whitespace: what is left is a prefix ending with a non-space. */
  function TrimEnd(s: string): (r: string)
    ensures |r| <= |s| && r == s[..|r|]
    ensures AllSpace(s[|r|..])
    ensures r == [] || !IsSpace(r[|r| - 1])
    decreases |s|
  {
    if s != [] && IsSpace(s[|s| - 1]) then
      var r := TrimEnd(s[..|s| - 1]);
      assert s[|r|..] == s[..|s| - 1][|r|..] + [s[|s| - 1]];
      r
    else s
  }

  /** Python's `s.strip()`: whitespace removed from both ends. */
  function Strip(s: string): (r: string)
    ensures r == [] || (!IsSpace(r[0]) && !IsSpace(r[|r| - 1]))
  {
    TrimEnd(TrimStart(s))
  }

  /** Stripping only removes characters. */
  lemma StripChars(s: string, c: char)
    requires c in Strip(s)
    ensures c in s
  {
    var t := TrimStart(s);
    assert c in t;
  }

  /** A string that holds a non-space character does not strip to nothing. */
  lemma StripNonEmpty(s: string, c: char)
    requires c in s && !IsSpace(c)
    ensures Strip(s) != []
  {
    var t := TrimStart(s);
    var n := |s| - |t|;
    var k :| 0 <= k < |s| && s[k] == c;
    assert forall j :: 0 <= j < n ==> s[..n][j] == s[j];
    assert t[k - n] == c;
  }

  /** A string of whitespace strips to nothing. */
  lemma StripAllSpace(s: string)
    requires AllSpace(s)
    ensures Strip(s) == []
  {
  }

  /* ---------------------------------------------------------------------- */
  /* Decimal rendering                                                      */
  /* ---------------------------------------------------------------------- */

  predicate IsDigit(c: char) {
    '0' <= c <= '9'
  }

  function DigitChar(d: nat): (c: char)
    requires d < 10
    ensures IsDigit(c)
  {
    (('0' as int) + d) as char
  }

  function DigitValue(c: char): nat
    requires IsDigit(c)
  {
    c as int - '0' as int
  }

  /** Python's `f"{n}"` for a count: its decimal digits, no sign and no leading zero. */
  function DecimalString(n: nat): (s: string)
    ensures |s| >= 1 && forall k :: 0 <= k < |s| ==> IsDigit(s[k])
    ensures s[0] == '0' ==> n == 0
    decreases n
  {
    if n < 10 then [DigitChar(n)] else DecimalString(n / 10) + [DigitChar(n % 10)]
  }

  /** Reads a string of decimal digits back as a number. */
  function ParseDecimal(s: string): nat
    requires forall k :: 0 <= k < |s| ==> IsDigit(s[k])
  {
    if s == [] then 0 else 10 * ParseDecimal(s[..|s| - 1]) + DigitValue(s[|s| - 1])
  }

  /** Rendering a count and reading it back gives the count. */
  lemma {:induction false} DecimalRoundTrip(n: nat)
    ensures ParseDecimal(DecimalString(n)) == n
    decreases n
  {
    var s := DecimalString(n);
    if n >= 10 {
      DecimalRoundTrip(n / 10);
      assert s[..|s| - 1] == DecimalString(n / 10);
    }
  }

  /** Distinct counts render as distinct strings. */
  lemma DecimalInjective(m: nat, n: nat)
    requires DecimalString(m) == DecimalString(n)
    ensures m == n
  {
    DecimalRoundTrip(m);
    DecimalRoundTrip(n);
  }
}
