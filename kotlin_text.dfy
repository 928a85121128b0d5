/** The Kotlin standard-library text operations the app relies on:
    `Char.isWhitespace`, `String.trim`, `CharSequence.lines`,
    `Int.toString` for a non-negative number; and Go's `strings.Split`, which
    the proxy core applies to the configuration the app writes. */
module KotlinText {

  /** Kotlin's `Char.isWhitespace`: Java's `Character.isWhitespace` or
      `Character.isSpaceChar` (the Unicode space, line and paragraph separators). */
  predicate IsWhitespace(c: char) {
    || c == '\t' || c == '\n' || c == '\U{000B}' || c == '\U{000C}' || c == '\r'
    || ('\U{001C}' <= c <= '\U{001F}')
    || c == ' ' || c == '\U{00A0}' || c == '\U{1680}'
    || ('\U{2000}' <= c <= '\U{200A}')
    || c == '\U{2028}' || c == '\U{2029}' || c == '\U{202F}' || c == '\U{205F}' || c == '\U{3000}'
  }

  /** Drops the leading whitespace of `s`. */
  function TrimStart(s: string): (r: string)
    ensures |r| <= |s| && r == s[|s| - |r|..]
    ensures forall i :: 0 <= i < |s| - |r| ==> IsWhitespace(s[i])
    ensures r == [] || !IsWhitespace(r[0])
  {
    if s != [] && IsWhitespace(s[0]) then
      var r := TrimStart(s[1..]);
      assert s[1..][|s| - 1 - |r|..] == s[|s| - |r|..];
      assert forall i :: 1 <= i < |s| - |r| ==> s[i] == s[1..][i - 1];
      r
    else s
  }

  /** Drops the trailing whitespace of `s`. */
  function TrimEnd(s: string): (r: string)
    ensures |r| <= |s| && r == s[..|r|]
    ensures forall i :: |r| <= i < |s| ==> IsWhitespace(s[i])
    ensures r == [] || !IsWhitespace(r[|r| - 1])
  {
    if s != [] && IsWhitespace(s[|s| - 1]) then TrimEnd(s[..|s| - 1]) else s
  }

  /** Kotlin's `String.trim()`: a slice of `s` that neither starts nor ends
      with whitespace, and everything cut off on either side is whitespace. */
  function Trim(s: string): (r: string)
    ensures r == [] || (!IsWhitespace(r[0]) && !IsWhitespace(r[|r| - 1]))
    ensures exists a, b :: 0 <= a <= b <= |s| && r == s[a..b]
                           && (forall i :: 0 <= i < a ==> IsWhitespace(s[i]))
                           && (forall i :: b <= i < |s| ==> IsWhitespace(s[i]))
  {
    var t := TrimStart(s);
    var r := TrimEnd(t);
    assert r != [] ==> r[0] == t[0];
    SuffixThenPrefix(s, t, r);
    r
  }

  /** A prefix `r` of a suffix `t` of `s`, where only whitespace was cut off
      at either step, is a slice of `s` with only whitespace around it. */
  lemma SuffixThenPrefix(s: string, t: string, r: string)
    requires |t| <= |s| && t == s[|s| - |t|..]
    requires forall i :: 0 <= i < |s| - |t| ==> IsWhitespace(s[i])
    requires |r| <= |t| && r == t[..|r|]
    requires forall i :: |r| <= i < |t| ==> IsWhitespace(t[i])
    ensures exists a, b :: 0 <= a <= b <= |s| && r == s[a..b]
                           && (forall i :: 0 <= i < a ==> IsWhitespace(s[i]))
                           && (forall i :: b <= i < |s| ==> IsWhitespace(s[i]))
  {
    var a := |s| - |t|;
    var b := a + |r|;
    assert r == s[a..b];
    forall i | b <= i < |s| ensures IsWhitespace(s[i]) {
      assert s[i] == t[i - a];
    }
  }

  /** A line that begins with a prefix free of whitespace keeps its beginning:
      `trim` then only removes trailing whitespace, and the prefix survives. */
  lemma TrimKeepsPrefix(s: string, prefix: string)
    requires prefix != [] && prefix <= s
    requires forall i :: 0 <= i < |prefix| ==> !IsWhitespace(prefix[i])
    ensures Trim(s) == TrimEnd(s)
    ensures prefix <= Trim(s)
  {
    assert s[0] == prefix[0];
    assert TrimStart(s) == s;
    var r := TrimEnd(s);
    var last := |prefix| - 1;
    assert s[last] == prefix[last] && !IsWhitespace(s[last]);
    assert |r| > last;
    assert prefix == r[..|prefix|];
  }

  predicate IsLineBreak(c: char) {
    c == '\n' || c == '\r'
  }

  predicate NoLineBreak(line: string) {
    forall j :: 0 <= j < |line| ==> !IsLineBreak(line[j])
  }

  /** The index of the first line break in `s`, or `|s|` when there is none. */
  function LineEnd(s: string): (i: nat)
    ensures i <= |s|
    ensures i < |s| ==> IsLineBreak(s[i])
    ensures NoLineBreak(s[..i])
  {
    if s == [] || IsLineBreak(s[0]) then 0 else 1 + LineEnd(s[1..])
  }

  /** Kotlin's `CharSequence.lines()`: splits on "\r\n", "\n" and "\r" (a "\r"
      directly followed by "\n" is one separator); text ending in a separator
      yields a last, empty line, and "" yields [""]. */
  function Lines(s: string): (ls: seq<string>)
    ensures |ls| >= 1
    ensures forall k :: 0 <= k < |ls| ==> NoLineBreak(ls[k])
    decreases |s|
  {
    var i := LineEnd(s);
    if i == |s| then [s] else [s[..i]] + Lines(s[i + SeparatorWidth(s, i)..])
  }

  /** A line break at `i` is one character wide, or two for "\r\n". */
  function SeparatorWidth(s: string, i: nat): (w: nat)
    requires i < |s|
    ensures w == 1 || w == 2
    ensures i + w <= |s|
  {
    if s[i] == '\r' && i + 1 < |s| && s[i + 1] == '\n' then 2 else 1
  }

  /** A one-character separator `c`. */
  predicate IsSingle(sep: string, c: char) {
    |sep| == 1 && sep[0] == c
  }

  /** The separators `lines()` recognises: "\r\n", "\n" and "\r". */
  predicate IsLineSeparator(sep: string) {
    || (|sep| == 2 && sep[0] == '\r' && sep[1] == '\n')
    || IsSingle(sep, '\n')
    || IsSingle(sep, '\r')
  }

  /** The lines put back together, the k-th gap filled with `seps[k]`: the
      reference for `Lines`. */
  function JoinLines(ls: seq<string>, seps: seq<string>): string
    requires |ls| == |seps| + 1
    decreases |seps|
  {
    if seps == [] then ls[0] else ls[0] + seps[0] + JoinLines(ls[1..], seps[1..])
  }

  /** The separators `Lines` cuts `s` at, in order. */
  function LineSeparators(s: string): (seps: seq<string>)
    ensures |seps| + 1 == |Lines(s)|
    ensures forall k :: 0 <= k < |seps| ==> IsLineSeparator(seps[k])
    decreases |s|
  {
    var i := LineEnd(s);
    if i == |s| then []
    else
      var w := SeparatorWidth(s, i);
      [s[i..i + w]] + LineSeparators(s[i + w..])
  }

  /** Joining can be undone unless a "\r" separator, an empty line and a "\n"
      separator follow each other: that text reads as one "\r\n" separator. */
  predicate SeparatorsUnambiguous(ls: seq<string>, seps: seq<string>)
    requires |ls| == |seps| + 1
  {
    forall k :: 0 <= k < |seps| - 1 && IsSingle(seps[k], '\r') && ls[k + 1] == [] ==> !IsSingle(seps[k + 1], '\n')
  }

  /** Any text is its lines put back together with the separators found. */
  lemma {:induction false} JoinLinesOfLines(s: string)
    ensures JoinLines(Lines(s), LineSeparators(s)) == s
    decreases |s|
  {
    var i := LineEnd(s);
    if i < |s| {
      var w := SeparatorWidth(s, i);
      var rest := s[i + w..];
      JoinLinesOfLines(rest);
      var ls, seps := Lines(s), LineSeparators(s);
      LinesStep(s, i, w);
      SeparatorsStep(s, i, w);
      assert ls[1..] == Lines(rest) && seps[1..] == LineSeparators(rest);
      assert JoinLines(ls, seps) == s[..i] + s[i..i + w] + JoinLines(ls[1..], seps[1..]);
      assert s == s[..i] + s[i..i + w] + rest;
    }
  }

  /** One step of `Lines`: the first line, then the lines after its separator. */
  lemma LinesStep(s: string, i: nat, w: nat)
    requires i == LineEnd(s) < |s| && w == SeparatorWidth(s, i)
    ensures Lines(s) == [s[..i]] + Lines(s[i + w..])
  {
  }

  /** One step of `LineSeparators`: the first separator, then the rest. */
  lemma SeparatorsStep(s: string, i: nat, w: nat)
    requires i == LineEnd(s) < |s| && w == SeparatorWidth(s, i)
    ensures LineSeparators(s) == [s[i..i + w]] + LineSeparators(s[i + w..])
  {
  }

  /** The first line break of `head + t` is the one `t` starts with. */
  lemma LineEndAfter(head: string, t: string)
    requires NoLineBreak(head) && t != [] && IsLineBreak(t[0])
    ensures LineEnd(head + t) == |head|
  {
    var s := head + t;
    assert s[|head|] == t[0];
    assert forall j :: 0 <= j < |head| ==> s[j] == head[j];
  }

  /** Joined text starts with "\n" only when its first line is empty and the
      first separator is "\n". */
  lemma JoinLinesStart(ls: seq<string>, seps: seq<string>)
    requires |ls| == |seps| + 1 && NoLineBreak(ls[0])
    requires seps != [] ==> IsLineSeparator(seps[0])
    requires ls[0] == [] && seps != [] ==> !IsSingle(seps[0], '\n')
    ensures var s := JoinLines(ls, seps); s == [] || s[0] != '\n'
  {
    var s := JoinLines(ls, seps);
    if ls[0] != [] {
      assert s[0] == ls[0][0];
    } else if seps != [] {
      assert s[0] == seps[0][0];
    }
  }

  /** Splitting joined lines gives back the lines and the separators, when the
      joining can be undone. */
  lemma {:induction false} LinesOfJoinLines(ls: seq<string>, seps: seq<string>)
    requires |ls| == |seps| + 1
    requires forall k :: 0 <= k < |ls| ==> NoLineBreak(ls[k])
    requires forall k :: 0 <= k < |seps| ==> IsLineSeparator(seps[k])
    requires SeparatorsUnambiguous(ls, seps)
    ensures Lines(JoinLines(ls, seps)) == ls
    ensures LineSeparators(JoinLines(ls, seps)) == seps
    decreases |seps|
  {
    var s := JoinLines(ls, seps);
    if seps == [] {
      assert NoLineBreak(s);
    } else {
      var head, sep := ls[0], seps[0];
      var ls', seps' := ls[1..], seps[1..];
      var rest := JoinLines(ls', seps');
      assert Lines(rest) == ls' && LineSeparators(rest) == seps' by {
        assert forall k :: 0 <= k < |ls'| ==> ls'[k] == ls[k + 1];
        assert forall k :: 0 <= k < |seps'| ==> seps'[k] == seps[k + 1];
        LinesOfJoinLines(ls', seps');
      }
      var i, w := |head|, |sep|;
      assert LineEnd(s) == i && SeparatorWidth(s, i) == w
        && s[..i] == head && s[i..i + w] == sep && s[i + w..] == rest by {
        JoinOneLine(ls, seps, s, rest);
      }
      assert Lines(s) == ls by {
        LinesStep(s, i, w);
        HeadThenTail(ls);
      }
      assert LineSeparators(s) == seps by {
        SeparatorsStep(s, i, w);
        HeadThenTail(seps);
      }
    }
  }

  /** A non-empty sequence is its head followed by its tail. */
  lemma HeadThenTail<T>(x: seq<T>)
    requires x != []
    ensures x == [x[0]] + x[1..]
  {
  }

  /** Where the first line of joined text ends, and how wide its separator is. */
  lemma JoinOneLine(ls: seq<string>, seps: seq<string>, s: string, rest: string)
    requires |ls| == |seps| + 1 && seps != []
    requires NoLineBreak(ls[0]) && NoLineBreak(ls[1])
    requires IsLineSeparator(seps[0])
    requires |seps| > 1 ==> IsLineSeparator(seps[1])
    requires IsSingle(seps[0], '\r') && ls[1] == [] && |seps| > 1 ==> !IsSingle(seps[1], '\n')
    requires s == JoinLines(ls, seps) && rest == JoinLines(ls[1..], seps[1..])
    ensures var i, w := |ls[0]|, |seps[0]|;
            && LineEnd(s) == i && SeparatorWidth(s, i) == w
            && s[..i] == ls[0] && s[i..i + w] == seps[0] && s[i + w..] == rest
  {
    var head, sep := ls[0], seps[0];
    var i := |head|;
    assert s == head + (sep + rest);
    assert IsLineBreak(sep[0]);
    assert (sep + rest)[0] == sep[0];
    LineEndAfter(head, sep + rest);
    if IsSingle(sep, '\r') {
      JoinLinesStart(ls[1..], seps[1..]);
      assert i + 1 < |s| ==> s[i + 1] == rest[0];
    }
    assert s[..i] == head;
    assert s == (head + sep) + rest;
  }

  /** The index of the first `sep` in `s`, or `|s|` when there is none. */
  function IndexOf(s: string, sep: char): (i: nat)
    ensures i <= |s|
    ensures i < |s| ==> s[i] == sep
    ensures forall j :: 0 <= j < i ==> s[j] != sep
  {
    if s == [] || s[0] == sep then 0 else 1 + IndexOf(s[1..], sep)
  }

  /** Splits `s` at every `sep` (Go's `strings.Split`, which the proxy core uses
      to read a comma-separated list). */
  function Split(s: string, sep: char): (parts: seq<string>)
    ensures |parts| >= 1
    ensures forall k, j :: 0 <= k < |parts| && 0 <= j < |parts[k]| ==> parts[k][j] != sep
    ensures JoinParts(parts, sep) == s
    decreases |s|
  {
    var i := IndexOf(s, sep);
    if i == |s| then [s]
    else
      var rest := Split(s[i + 1..], sep);
      var parts := [s[..i]] + rest;
      assert parts[0] == s[..i] && parts[1..] == rest;
      assert s == s[..i] + [sep] + s[i + 1..];
      parts
  }

  /** The parts put back together with `sep` between them. */
  function JoinParts(parts: seq<string>, sep: char): string
    requires |parts| >= 1
  {
    if |parts| == 1 then parts[0] else parts[0] + [sep] + JoinParts(parts[1..], sep)
  }

  function DigitChar(d: nat): (c: char)
    requires d < 10
    ensures '0' <= c <= '9' && c as int - '0' as int == d
  {
    ['0', '1', '2', '3', '4', '5', '6', '7', '8', '9'][d]
  }

  predicate IsDecimal(s: string) {
    s != [] && forall i :: 0 <= i < |s| ==> '0' <= s[i] <= '9'
  }

  /** Kotlin's `Int.toString()` for a non-negative number. */
  function DecimalString(n: nat): (s: string)
    ensures IsDecimal(s)
    ensures s[0] == '0' ==> n == 0
  {
    if n < 10 then [DigitChar(n)] else DecimalString(n / 10) + [DigitChar(n % 10)]
  }

  /** The number a string of decimal digits denotes. */
  function DecimalValue(s: string): nat
    requires forall i :: 0 <= i < |s| ==> '0' <= s[i] <= '9'
  {
    if s == [] then 0 else 10 * DecimalValue(s[..|s| - 1]) + (s[|s| - 1] as int - '0' as int)
  }

  /** Reading back the digits `DecimalString` writes gives the number. */
  lemma {:induction false} DecimalRoundTrip(n: nat)
    ensures DecimalValue(DecimalString(n)) == n
  {
    var s := DecimalString(n);
    if n >= 10 {
      DecimalRoundTrip(n / 10);
      assert s[..|s| - 1] == DecimalString(n / 10);
    }
  }
}
