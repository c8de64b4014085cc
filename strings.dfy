/** String operations the application relies on from JavaScript's String
    prototype: `trim`, `toLowerCase`, `includes`, `startsWith` and
    `split` on a single-character separator. Strings are sequences of
    characters. */
module Strings {

  /** The characters JavaScript's `trim` removes: the ECMAScript WhiteSpace
      and LineTerminator code points. */
  const WhitespaceChars: set<char> := {
    ' ', '\t', '\n', '\r', '\U{000B}', '\U{000C}', '\U{00A0}', '\U{1680}',
    '\U{2000}', '\U{2001}', '\U{2002}', '\U{2003}', '\U{2004}', '\U{2005}',
    '\U{2006}', '\U{2007}', '\U{2008}', '\U{2009}', '\U{200A}',
    '\U{2028}', '\U{2029}', '\U{202F}', '\U{205F}', '\U{3000}', '\U{FEFF}'}

  predicate IsWhitespace(c: char) {
    c in WhitespaceChars
  }

  /** Every character of `s` is whitespace (vacuously true of ""). */
  predicate Blank(s: string) {
    forall i :: 0 <= i < |s| ==> IsWhitespace(s[i])
  }

  /** `s.trimStart()`: the suffix of `s` left after dropping leading whitespace. */
  function TrimStart(s: string): (r: string)
    ensures |r| <= |s| && r == s[|s| - |r|..]
    ensures Blank(s[..|s| - |r|])
    ensures r == [] || !IsWhitespace(r[0])
    ensures Blank(s) ==> r == []
  {
    s[LeadingBlank(s)..]
  }

  /** The number of whitespace characters `s` starts with. */
  function LeadingBlank(s: string): (n: nat)
    ensures n <= |s|
    ensures forall k :: 0 <= k < n ==> IsWhitespace(s[k])
    ensures n == |s| || !IsWhitespace(s[n])
    decreases |s|
  {
    if |s| > 0 && IsWhitespace(s[0]) then
      var m := LeadingBlank(s[1..]);
      assert forall k :: 0 < k < m + 1 ==> s[k] == s[1..][k - 1];
      1 + m
    else
      0
  }

  /** `s.trimEnd()`: the prefix of `s` left after dropping trailing whitespace. */
  function TrimEnd(s: string): (r: string)
    ensures |r| <= |s| && r == s[..|r|]
    ensures Blank(s[|r|..])
    ensures r == [] || !IsWhitespace(r[|r| - 1])
  {
    if |s| > 0 && IsWhitespace(s[|s| - 1]) then
      var r := TrimEnd(s[..|s| - 1]);
      forall k | |r| <= k < |s|
        ensures IsWhitespace(s[k])
      {
        if k < |s| - 1 {
          assert s[..|s| - 1][|r|..][k - |r|] == s[k];
        }
      }
      r
    else
      s
  }

  /** `s.trim()`. */
  function Trim(s: string): string {
    TrimEnd(TrimStart(s))
  }

  /** A string trims to "" exactly when it consists of whitespace only. */
  lemma TrimEmptyIffBlank(s: string)
    ensures Trim(s) == [] <==> Blank(s)
  {
    if !Blank(s) {
      var k :| 0 <= k < |s| && !IsWhitespace(s[k]);
      var j := NonBlankAfterTrimStart(s, k);
      NonBlankTrimEnd(TrimStart(s), j);
    }
  }

  /** A non-whitespace character survives `trimStart`. */
  lemma NonBlankAfterTrimStart(s: string, k: nat) returns (j: nat)
    requires k < |s| && !IsWhitespace(s[k])
    ensures j < |TrimStart(s)| && !IsWhitespace(TrimStart(s)[j])
  {
    var t := TrimStart(s);
    var n := |s| - |t|;
    forall i | 0 <= i < n
      ensures IsWhitespace(s[i])
    {
      assert s[..n][i] == s[i];
    }
    j := k - n;
    assert t[j] == s[k];
  }

  /** `trimEnd` keeps a string with a non-whitespace character non-empty. */
  lemma NonBlankTrimEnd(t: string, j: nat)
    requires j < |t| && !IsWhitespace(t[j])
    ensures TrimEnd(t) != []
  {
    var u := TrimEnd(t);
    forall i | |u| <= i < |t|
      ensures IsWhitespace(t[i])
    {
      assert t[|u|..][i - |u|] == t[i];
    }
  }

  /** The ASCII lower-case letter for an upper-case one; other characters unchanged. */
  function LowerChar(c: char): (r: char)
    ensures 'A' <= c <= 'Z' ==> 'a' <= r <= 'z'
    ensures !('A' <= c <= 'Z') ==> r == c
  {
    if 'A' <= c <= 'Z' then (c as int - 'A' as int + 'a' as int) as char else c
  }

  /** `s.toLowerCase()`, restricted to the ASCII letters. */
  function ToLower(s: string): (r: string)
    ensures |r| == |s|
    ensures forall i :: 0 <= i < |s| ==> r[i] == LowerChar(s[i])
  {
    seq(|s|, i requires 0 <= i < |s| => LowerChar(s[i]))
  }

  /** `s.startsWith(p)`. */
  predicate StartsWith(s: string, p: string) {
    |p| <= |s| && s[..|p|] == p
  }

  /** `pattern` occurs in `text` at offset `k`. */
  predicate OccursAt(text: string, pattern: string, k: int) {
    0 <= k <= |text| - |pattern| && text[k..k + |pattern|] == pattern
  }

  /** `text.includes(pattern)`: `pattern` occurs somewhere in `text`. */
  predicate Includes(text: string, pattern: string)
    decreases |text|
  {
    StartsWith(text, pattern) || (|text| > 0 && Includes(text[1..], pattern))
  }

  /** `includes` holds exactly when the pattern occurs at some offset. */
  lemma {:induction false} IncludesAt(text: string, pattern: string)
    ensures Includes(text, pattern) <==> exists k :: OccursAt(text, pattern, k)
    decreases |text|
  {
    if StartsWith(text, pattern) {
      assert OccursAt(text, pattern, 0);
    } else if |text| > 0 {
      IncludesAt(text[1..], pattern);
      if exists k :: OccursAt(text, pattern, k) {
        var k :| OccursAt(text, pattern, k);
        assert k != 0;
        assert text[1..][k - 1..k - 1 + |pattern|] == text[k..k + |pattern|];
        assert OccursAt(text[1..], pattern, k - 1);
      }
      if Includes(text[1..], pattern) {
        var k :| OccursAt(text[1..], pattern, k);
        assert text[k + 1..k + 1 + |pattern|] == text[1..][k..k + |pattern|];
        assert OccursAt(text, pattern, k + 1);
      }
    } else {
      assert text[..0] == "";
    }
  }

  /** Every string includes the empty string (so an empty search matches everything). */
  lemma IncludesEmpty(text: string)
    ensures Includes(text, "")
  {
    assert StartsWith(text, "");
  }

  /** The index of the first occurrence of `c` in `s`, or |s| when there is none. */
  function IndexOf(s: string, c: char): (i: nat)
    ensures i <= |s|
    ensures forall j :: 0 <= j < i ==> s[j] != c
    ensures i < |s| ==> s[i] == c
  {
    if |s| == 0 || s[0] == c then 0 else 1 + IndexOf(s[1..], c)
  }

  /** `s.split(sep)` for a one-character separator: the pieces between
      occurrences of `sep`, in order; always at least one piece. */
  function Split(s: string, sep: char): (r: seq<string>)
    ensures |r| >= 1
    ensures forall k :: 0 <= k < |r| ==> sep !in r[k]
    decreases |s|
  {
    var i := IndexOf(s, sep);
    if i == |s| then [s] else [s[..i]] + Split(s[i + 1..], sep)
  }

  /** `pieces.join(sep)`. */
  function Join(pieces: seq<string>, sep: char): string
    requires |pieces| >= 1
  {
    if |pieces| == 1 then pieces[0] else pieces[0] + [sep] + Join(pieces[1..], sep)
  }

  /** Joining the pieces of a split restores the original string. */
  lemma {:induction false} JoinSplit(s: string, sep: char)
    ensures Join(Split(s, sep), sep) == s
    decreases |s|
  {
    var i := IndexOf(s, sep);
    if i < |s| {
      JoinSplit(s[i + 1..], sep);
      var pieces := Split(s, sep);
      assert pieces[1..] == Split(s[i + 1..], sep);
      assert s == s[..i] + [sep] + s[i + 1..];
    }
  }

  /** Splitting a join of separator-free pieces gives the pieces back. */
  lemma {:induction false} SplitJoin(pieces: seq<string>, sep: char)
    requires |pieces| >= 1
    requires forall k :: 0 <= k < |pieces| ==> sep !in pieces[k]
    ensures Split(Join(pieces, sep), sep) == pieces
    decreases |pieces|
  {
    if |pieces| == 1 {
      SplitNoSep(pieces[0], sep);
    } else {
      SplitJoin(pieces[1..], sep);
      SplitCons(pieces[0], Join(pieces[1..], sep), sep);
      assert pieces == [pieces[0]] + pieces[1..];
    }
  }

  /** Searching past a prefix free of `c` adds the prefix's length. */
  lemma {:induction false} IndexOfConcat(a: string, b: string, c: char)
    requires c !in a
    ensures IndexOf(a + b, c) == |a| + IndexOf(b, c)
    decreases |a|
  {
    if |a| > 0 {
      assert (a + b)[1..] == a[1..] + b;
      IndexOfConcat(a[1..], b, c);
    } else {
      assert a + b == b;
    }
  }

  /** Splitting `a + [sep] + b` where `a` has no separator gives `a`, then the pieces of `b`. */
  lemma SplitCons(a: string, b: string, sep: char)
    requires sep !in a
    ensures Split(a + [sep] + b, sep) == [a] + Split(b, sep)
  {
    var s := a + [sep] + b;
    IndexOfConcat(a, [sep] + b, sep);
    assert a + ([sep] + b) == s;
    assert s[..|a|] == a;
    assert s[|a| + 1..] == b;
  }

  /** The first piece of a split is everything before the first separator. */
  lemma FirstPiece(s: string, sep: char)
    ensures Split(s, sep)[0] == s[..IndexOf(s, sep)]
  {
    if IndexOf(s, sep) == |s| {
      assert s[..|s|] == s;
    }
  }

  /** Where the second piece of a split lies: after the first separator, at
      position `i`, and up to the next separator or the end, `j` characters on. */
  lemma SecondPiece(s: string, sep: char) returns (i: nat, j: nat)
    requires |Split(s, sep)| >= 2
    ensures i < |s| && s[i] == sep && sep !in s[..i]
    ensures i + 1 + j <= |s| && Split(s, sep)[1] == s[i + 1..i + 1 + j]
    ensures i + 1 + j == |s| || s[i + 1 + j] == sep
  {
    i := IndexOf(s, sep);
    var tail := s[i + 1..];
    assert Split(s, sep) == [s[..i]] + Split(tail, sep);
    FirstPiece(tail, sep);
    j := IndexOf(tail, sep);
    assert tail[..j] == s[i + 1..i + 1 + j];
    assert forall k :: 0 <= k < i ==> s[..i][k] == s[k];
    assert j < |tail| ==> tail[j] == s[i + 1 + j];
  }

  /** A string without the separator is a single piece. */
  lemma SplitNoSep(a: string, sep: char)
    requires sep !in a
    ensures Split(a, sep) == [a]
  {
    assert IndexOf(a, sep) == |a|;
  }

  /** The decimal digits of `n`, as `String(n)` prints a non-negative integer. */
  function NatToString(n: nat): (r: string)
    ensures |r| >= 1
    ensures forall i :: 0 <= i < |r| ==> '0' <= r[i] <= '9'
  {
    if n < 10 then [DigitChar(n)] else NatToString(n / 10) + [DigitChar(n % 10)]
  }

  function DigitChar(d: nat): (c: char)
    requires d < 10
    ensures '0' <= c <= '9' && c as int - '0' as int == d
  {
    ('0' as int + d) as char
  }

  /** The number a string of decimal digits denotes. */
  function DecimalValue(s: string): nat
    requires forall i :: 0 <= i < |s| ==> '0' <= s[i] <= '9'
  {
    if s == [] then 0
    else DecimalValue(s[..|s| - 1]) * 10 + (s[|s| - 1] as int - '0' as int)
  }

  /** The digits denote the number they were printed from, with no leading zero. */
  lemma {:induction false} NatToStringValue(n: nat)
    ensures DecimalValue(NatToString(n)) == n
    ensures |NatToString(n)| > 1 ==> NatToString(n)[0] != '0'
  {
    var r := NatToString(n);
    if n >= 10 {
      NatToStringValue(n / 10);
      var front := NatToString(n / 10);
      assert r[..|r| - 1] == front;
      assert r[0] == front[0];
    }
  }
}
