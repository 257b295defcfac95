/**
 * The few Python string operations the two camera windows use, on `seq<char>`:
 * `sub in s`, `s.split(c)`, `s.splitlines()`, `s.strip()` and `str(n)` / `f"{n}"`
 * for integers.
 */
module Text {
  import opened Wrappers

  // ---------------------------------------------------------------------------
  // `sub in s`
  // ---------------------------------------------------------------------------

  /** `sub` occurs in `s` starting at index `i`. */
  predicate OccursAt(s: string, sub: string, i: int) {
    0 <= i && i + |sub| <= |s| && s[i..i + |sub|] == sub
  }

  /** Python's `sub in s` for strings, scanning left to right. */
  predicate Contains(s: string, sub: string)
    decreases |s|
  {
    if |s| < |sub| then false
    else s[..|sub|] == sub || Contains(s[1..], sub)
  }

  /** The scan agrees with the definition by position, in both directions. */
  lemma {:induction false} ContainsIff(s: string, sub: string)
    ensures Contains(s, sub) <==> exists i :: OccursAt(s, sub, i)
    decreases |s|
  {
    if |s| < |sub| {
      forall i | OccursAt(s, sub, i) ensures false { }
    } else if s[..|sub|] == sub {
      assert OccursAt(s, sub, 0);
    } else {
      ContainsIff(s[1..], sub);
      if Contains(s[1..], sub) {
        var i :| OccursAt(s[1..], sub, i);
        assert s[1..][i..i + |sub|] == s[i + 1..i + 1 + |sub|];
        assert OccursAt(s, sub, i + 1);
      } else {
        forall i | OccursAt(s, sub, i) ensures false {
          if i != 0 {
            assert s[1..][i - 1..i - 1 + |sub|] == s[i..i + |sub|];
            assert OccursAt(s[1..], sub, i - 1);
          }
        }
      }
    }
  }

  // ---------------------------------------------------------------------------
  // `s.split(sep)` for a one-character separator, and its inverse
  // ---------------------------------------------------------------------------

  /** Index of the first `c` in `s`, or `|s|` when there is none. */
  function Find(s: string, c: char): (i: nat)
    ensures i <= |s|
    ensures forall k :: 0 <= k < i ==> s[k] != c
    ensures i < |s| ==> s[i] == c
  {
    if s == [] then 0
    else if s[0] == c then 0
    else 1 + Find(s[1..], c)
  }

  /**
   * Python's `s.split(sep)`: the pieces between separators, always at least one
   * (`"".split('"') == [""]`), one more than there are separators.
   */
  function SplitOn(s: string, sep: char): (parts: seq<string>)
    ensures |parts| >= 1
    ensures |parts| > 1 <==> sep in s
    ensures forall k :: 0 <= k < |parts| ==> sep !in parts[k]
  {
    if s == [] then [[]]
    else
      var rest := SplitOn(s[1..], sep);
      if s[0] == sep then [[]] + rest
      else [[s[0]] + rest[0]] + rest[1..]
  }

  /** Python's `sep.join(parts)`. */
  function Join(parts: seq<string>, sep: char): string {
    if parts == [] then []
    else if |parts| == 1 then parts[0]
    else parts[0] + [sep] + Join(parts[1..], sep)
  }

  /** Splitting and joining again gives back the original text. */
  lemma {:induction false} JoinSplitOn(s: string, sep: char)
    ensures Join(SplitOn(s, sep), sep) == s
  {
    if s != [] {
      var rest := SplitOn(s[1..], sep);
      JoinSplitOn(s[1..], sep);
      if s[0] != sep {
        if |rest| == 1 {
          assert Join(SplitOn(s, sep), sep) == [s[0]] + rest[0];
        } else {
          assert Join(rest, sep) == rest[0] + [sep] + Join(rest[1..], sep);
          assert [[s[0]] + rest[0]] + rest[1..] == SplitOn(s, sep);
          assert Join(SplitOn(s, sep), sep) == [s[0]] + rest[0] + [sep] + Join(rest[1..], sep);
        }
      }
    }
  }

  /**
   * The first piece is the text before the first separator, and the pieces after it
   * are those of the text after that separator.
   */
  lemma {:induction false} SplitOnFirst(s: string, sep: char)
    ensures SplitOn(s, sep)[0] == s[..Find(s, sep)]
    ensures Find(s, sep) < |s| ==> SplitOn(s, sep)[1..] == SplitOn(s[Find(s, sep) + 1..], sep)
  {
    if s != [] && s[0] != sep {
      SplitOnFirst(s[1..], sep);
      assert s[..Find(s, sep)] == [s[0]] + s[1..][..Find(s[1..], sep)];
      if Find(s, sep) < |s| {
        assert s[Find(s, sep) + 1..] == s[1..][Find(s[1..], sep) + 1..];
      }
    }
  }

  /**
   * Python's `s.split(c)[1]`: the text between the first and the second `c`
   * (or the end). `None` stands for the `IndexError` raised when `c` is absent.
   */
  function SecondField(s: string, c: char): Option<string> {
    var parts := SplitOn(s, c);
    if |parts| > 1 then Some(parts[1]) else None
  }

  /** `SecondField` is the text after the first `c`, up to the next `c` or the end. */
  lemma SecondFieldBetween(s: string, c: char)
    ensures SecondField(s, c).Some? <==> c in s
    ensures SecondField(s, c).Some? ==>
      var i := Find(s, c);
      var tail := s[i + 1..];
      SecondField(s, c).value == tail[..Find(tail, c)] && c !in SecondField(s, c).value
  {
    var i := Find(s, c);
    if c in s {
      SplitOnFirst(s, c);
      SplitOnFirst(s[i + 1..], c);
      assert SplitOn(s, c)[1] == SplitOn(s, c)[1..][0];
    }
  }

  // ---------------------------------------------------------------------------
  // `s.splitlines()`
  // ---------------------------------------------------------------------------

  /** The characters Python's `str.splitlines` treats as line boundaries. */
  predicate IsLineBreak(c: char) {
    c == '\n' || c == '\r' || c == '\U{000B}' || c == '\U{000C}' ||
    c == '\U{001C}' || c == '\U{001D}' || c == '\U{001E}' || c == '\U{0085}' ||
    c == '\U{2028}' || c == '\U{2029}'
  }

  /** Index of the first line boundary in `s`, or `|s|`. */
  function FirstBreak(s: string): (i: nat)
    ensures i <= |s|
    ensures forall k :: 0 <= k < i ==> !IsLineBreak(s[k])
    ensures i < |s| ==> IsLineBreak(s[i])
  {
    if s == [] then 0
    else if IsLineBreak(s[0]) then 0
    else 1 + FirstBreak(s[1..])
  }

  /** Length of the boundary at `i`: `"\r\n"` counts as one boundary of two characters. */
  function BreakLength(s: string, i: nat): nat
    requires i < |s|
  {
    if s[i] == '\r' && i + 1 < |s| && s[i + 1] == '\n' then 2 else 1
  }

  /**
   * Python's `s.splitlines()`: the lines without their boundaries; a boundary at the
   * very end does not start an empty last line, and `"".splitlines() == []`.
   */
  function SplitLines(s: string): (lines: seq<string>)
    ensures s == [] <==> lines == []
    decreases |s|
  {
    if s == [] then []
    else
      var i := FirstBreak(s);
      if i == |s| then [s]
      else [s[..i]] + SplitLines(s[i + BreakLength(s, i)..])
  }

  /** No line holds a boundary character. */
  lemma {:induction false} SplitLinesNoBreaks(s: string)
    ensures forall k, j :: 0 <= k < |SplitLines(s)| && 0 <= j < |SplitLines(s)[k]| ==>
      !IsLineBreak(SplitLines(s)[k][j])
    decreases |s|
  {
    if s != [] {
      var i := FirstBreak(s);
      if i < |s| {
        SplitLinesNoBreaks(s[i + BreakLength(s, i)..]);
      }
    }
  }

  /** Text without any line boundary. */
  predicate NoBreaks(s: string) {
    forall k :: 0 <= k < |s| ==> !IsLineBreak(s[k])
  }

  /** The first boundary of `a + b` is where `b` starts, if `b` starts with one. */
  lemma FirstBreakAfter(a: string, b: string)
    requires NoBreaks(a) && (b == [] || IsLineBreak(b[0]))
    ensures FirstBreak(a + b) == |a|
  {
    var s := a + b;
    if b != [] {
      assert s[|a|] == b[0];
    }
  }

  /** Non-empty text without boundaries is a single line. */
  lemma SplitLinesPlain(a: string)
    requires a != [] && NoBreaks(a)
    ensures SplitLines(a) == [a]
  {
    FirstBreakAfter(a, []);
    assert a + [] == a;
  }

  /**
   * A `"\\n"` ends the line before it, and a line boundary at the very end adds no
   * empty line (`"a\\n".splitlines() == ["a"]`).
   */
  lemma SplitLinesAtNewline(a: string, b: string)
    requires NoBreaks(a)
    ensures SplitLines(a + ['\n'] + b) == [a] + SplitLines(b)
  {
    var s := a + ['\n'] + b;
    FirstBreakAfter(a, ['\n'] + b);
    assert a + (['\n'] + b) == s;
    assert BreakLength(s, |a|) == 1;
    assert s[..|a|] == a && s[|a| + 1..] == b;
  }

  /** `"\\r\\n"` is a single boundary: it ends one line and starts no empty one. */
  lemma SplitLinesAtCrLf(a: string, b: string)
    requires NoBreaks(a)
    ensures SplitLines(a + ['\r', '\n'] + b) == [a] + SplitLines(b)
  {
    var s := a + ['\r', '\n'] + b;
    FirstBreakAfter(a, ['\r', '\n'] + b);
    assert a + (['\r', '\n'] + b) == s;
    assert BreakLength(s, |a|) == 2;
    assert s[..|a|] == a && s[|a| + 2..] == b;
  }

  // ---------------------------------------------------------------------------
  // `s.strip()`
  // ---------------------------------------------------------------------------

  /** The characters for which Python's `str.isspace` holds. */
  predicate IsSpace(c: char) {
    c == ' ' || c == '\t' || c == '\n' || c == '\r' || c == '\U{000B}' || c == '\U{000C}' ||
    ('\U{001C}' <= c <= '\U{001F}') || c == '\U{0085}' || c == '\U{00A0}' ||
    c == '\U{1680}' || ('\U{2000}' <= c <= '\U{200A}') || c == '\U{2028}' ||
    c == '\U{2029}' || c == '\U{202F}' || c == '\U{205F}' || c == '\U{3000}'
  }

  /** `s` without its leading whitespace. */
  function TrimStart(s: string): (r: string)
    ensures r == [] || !IsSpace(r[0])
    ensures exists k :: 0 <= k <= |s| && r == s[k..]
  {
    if s != [] && IsSpace(s[0]) then
      var r := TrimStart(s[1..]);
      var k :| 0 <= k <= |s[1..]| && r == s[1..][k..];
      assert r == s[k + 1..];
      r
    else
      assert s == s[0..];
      s
  }

  /** `s` without its trailing whitespace. */
  function TrimEnd(s: string): (r: string)
    ensures r == [] || !IsSpace(r[|r| - 1])
    ensures exists k :: 0 <= k <= |s| && r == s[..k]
  {
    if s != [] && IsSpace(s[|s| - 1]) then
      var r := TrimEnd(s[..|s| - 1]);
      var k :| 0 <= k <= |s| - 1 && r == s[..|s| - 1][..k];
      assert r == s[..k];
      r
    else
      assert s == s[..|s|];
      s
  }

  /** Python's `s.strip()`: `s` without its leading and trailing whitespace. */
  function Strip(s: string): string {
    TrimEnd(TrimStart(s))
  }

  /**
   * The stripped text is a slice `s[i..j]` of `s` with only whitespace before and after
   * it, it has no whitespace at either end, and so it keeps every other character.
   */
  lemma StripTrims(s: string)
    ensures exists i, j :: StrippedAt(s, i, j) && Strip(s) == s[i..j]
    ensures var r := Strip(s); r == [] || (!IsSpace(r[0]) && !IsSpace(r[|r| - 1]))
    ensures forall c :: !IsSpace(c) ==> (c in Strip(s) <==> c in s)
  {
    var t := TrimStart(s);
    TrimEndKeepsStart(t);
    TrimStartKeeps(s);
    TrimEndKeeps(t);
    StripSlice(s);
  }

  /** `s[..i]` and `s[j..]` are all whitespace. */
  predicate StrippedAt(s: string, i: int, j: int) {
    0 <= i <= j <= |s| &&
    (forall k :: 0 <= k < i ==> IsSpace(s[k])) &&
    (forall k :: j <= k < |s| ==> IsSpace(s[k]))
  }

  /** Trimming the end of a text that starts with a non-space leaves that start. */
  lemma TrimEndKeepsStart(t: string)
    requires t == [] || !IsSpace(t[0])
    ensures TrimEnd(t) == [] || TrimEnd(t)[0] == t[0]
  {
    var k :| 0 <= k <= |t| && TrimEnd(t) == t[..k];
  }

  lemma {:induction false} TrimStartKeeps(s: string)
    ensures forall c :: !IsSpace(c) ==> (c in TrimStart(s) <==> c in s)
  {
    if s != [] && IsSpace(s[0]) {
      TrimStartKeeps(s[1..]);
      assert s == [s[0]] + s[1..];
    }
  }

  lemma {:induction false} TrimEndKeeps(s: string)
    ensures forall c :: !IsSpace(c) ==> (c in TrimEnd(s) <==> c in s)
  {
    if s != [] && IsSpace(s[|s| - 1]) {
      TrimEndKeeps(s[..|s| - 1]);
      assert s == s[..|s| - 1] + [s[|s| - 1]];
    }
  }

  /** `strip()` removes a leading and a trailing run of whitespace and nothing else. */
  lemma StripSlice(s: string)
    ensures exists i, j :: StrippedAt(s, i, j) && Strip(s) == s[i..j]
  {
    var t := TrimStart(s);
    var i := TrimStartDrops(s);
    var n := TrimEndDrops(t);
    var j := i + n;
    assert Strip(s) == TrimEnd(t) == t[..n];
    assert t[..n] == s[i..j] by {
      forall k | 0 <= k < n
        ensures t[..n][k] == s[i..j][k]
      {
        assert t[k] == s[i + k];
      }
    }
    forall k | j <= k < |s|
      ensures IsSpace(s[k])
    {
      assert s[k] == t[k - i];
    }
    assert StrippedAt(s, i, j);
  }

  /** `TrimStart` drops a run of `k` leading whitespace characters and nothing else. */
  lemma {:induction false} TrimStartDrops(s: string) returns (k: nat)
    ensures k <= |s| && TrimStart(s) == s[k..]
    ensures forall m :: 0 <= m < k ==> IsSpace(s[m])
  {
    if s != [] && IsSpace(s[0]) {
      var rest := s[1..];
      var r := TrimStartDrops(rest);
      k := r + 1;
      assert TrimStart(s) == rest[r..] == s[k..];
      forall m | 0 <= m < k
        ensures IsSpace(s[m])
      {
        if m > 0 {
          assert s[m] == rest[m - 1];
        }
      }
    } else {
      k := 0;
    }
  }

  /** `TrimEnd` keeps the first `k` characters and drops only whitespace after them. */
  lemma {:induction false} TrimEndDrops(s: string) returns (k: nat)
    ensures k <= |s| && TrimEnd(s) == s[..k]
    ensures forall m :: k <= m < |s| ==> IsSpace(s[m])
  {
    if s != [] && IsSpace(s[|s| - 1]) {
      var init := s[..|s| - 1];
      k := TrimEndDrops(init);
      assert TrimEnd(s) == init[..k] == s[..k];
      forall m | k <= m < |s|
        ensures IsSpace(s[m])
      {
        if m < |init| {
          assert s[m] == init[m];
        }
      }
    } else {
      k := |s|;
    }
  }

  // ---------------------------------------------------------------------------
  // `str(n)` / `f"{n}"` for integers, and reading the digits back
  // ---------------------------------------------------------------------------

  predicate IsDigit(c: char) {
    '0' <= c <= '9'
  }

  function DigitChar(d: nat): (c: char)
    requires d < 10
    ensures IsDigit(c)
  {
    (48 + d) as char
  }

  function DigitValue(c: char): (d: nat)
    requires IsDigit(c)
    ensures d < 10 && DigitChar(d) == c
  {
    c as int - 48
  }

  /** Decimal digits of `n`, most significant first, without leading zeros. */
  function NatToString(n: nat): (s: string)
    ensures |s| >= 1
    ensures forall k :: 0 <= k < |s| ==> IsDigit(s[k])
  {
    if n < 10 then [DigitChar(n)]
    else NatToString(n / 10) + [DigitChar(n % 10)]
  }

  /** The value of a string of decimal digits. */
  function ParseNat(s: string): nat
    requires forall k :: 0 <= k < |s| ==> IsDigit(s[k])
  {
    if s == [] then 0
    else ParseNat(s[..|s| - 1]) * 10 + DigitValue(s[|s| - 1])
  }

  /** Reading back the digits of `n` gives `n`. */
  lemma {:induction false} ParseNatToString(n: nat)
    ensures ParseNat(NatToString(n)) == n
  {
    var s := NatToString(n);
    if n >= 10 {
      ParseNatToString(n / 10);
      assert s[..|s| - 1] == NatToString(n / 10);
      assert DigitValue(DigitChar(n % 10)) == n % 10;
    } else {
      assert DigitValue(DigitChar(n)) == n;
    }
  }

  /** Python's `str(i)` / `f"{i}"` for an `int`. */
  function IntToString(i: int): (s: string)
    ensures |s| >= 1
    ensures forall k :: 0 <= k < |s| ==> IsDigit(s[k]) || (k == 0 && s[k] == '-')
  {
    if i < 0 then "-" + NatToString(-i) else NatToString(i)
  }

  /** Different integers are written differently. */
  lemma IntToStringInjective(i: int, j: int)
    ensures IntToString(i) == IntToString(j) ==> i == j
  {
    if IntToString(i) == IntToString(j) {
      assert IntToString(i)[0] == '-' <==> i < 0;
      assert IntToString(j)[0] == '-' <==> j < 0;
      if i < 0 && j < 0 {
        assert NatToString(-i) == IntToString(i)[1..] == NatToString(-j);
        ParseNatToString(-i);
        ParseNatToString(-j);
      } else if i >= 0 && j >= 0 {
        ParseNatToString(i);
        ParseNatToString(j);
      }
    }
  }

  /**
   * Two texts joined by a character that neither left part contains split back into
   * the same parts.
   */
  lemma SplitAtUnique(a: string, b: string, a': string, b': string, c: char)
    requires c !in a && c !in a'
    requires a + [c] + b == a' + [c] + b'
    ensures a == a' && b == b'
  {
    var s := a + [c] + b;
    var i := Find(s, c);
    assert s[|a|] == c && s[|a'|] == c;
    assert forall k :: 0 <= k < |a| ==> s[k] == a[k];
    assert forall k :: 0 <= k < |a'| ==> s[k] == a'[k];
    assert i == |a| == |a'|;
    assert a == s[..i] == a';
    assert b == s[i + 1..] == b';
  }
}
