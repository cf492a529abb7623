/**
 * The few Python string operations the core relies on: `str.strip()`,
 * `str.lower()`, `str.split(",")` and the `","`-joined header.
 * Input files are decoded as ISO-8859-1, so every character is below U+0100.
 */
module Text {

  /** `str.isspace()` on the characters an ISO-8859-1 decode can produce. */
  predicate IsSpace(c: char) {
    ('\t' <= c <= '\r') || ('\U{1C}' <= c <= '\U{1F}') || c == ' ' || c == '\U{85}' || c == '\U{A0}'
  }

  /** The first position at or after `i` that does not hold whitespace, or `|s|`. */
  function SpanStart(s: string, i: nat): (a: nat)
    requires i <= |s|
    ensures i <= a <= |s|
    ensures forall k :: i <= k < a ==> IsSpace(s[k])
    ensures a < |s| ==> !IsSpace(s[a])
    decreases |s| - i
  {
    if i < |s| && IsSpace(s[i]) then SpanStart(s, i + 1) else i
  }

  /** The end of `s[a..j]` once its trailing whitespace is dropped. */
  function SpanEnd(s: string, a: nat, j: nat): (b: nat)
    requires a <= j <= |s|
    ensures a <= b <= j
    ensures forall k :: b <= k < j ==> IsSpace(s[k])
    ensures a < b ==> !IsSpace(s[b - 1])
  {
    if a < j && IsSpace(s[j - 1]) then SpanEnd(s, a, j - 1) else j
  }

  /** `r` is the infix `s[a..b]` and only whitespace lies outside it. */
  predicate InfixBetweenSpaces(s: string, a: int, b: int, r: string) {
    && 0 <= a <= b <= |s| && r == s[a..b]
    && (forall i :: 0 <= i < a ==> IsSpace(s[i]))
    && (forall i :: b <= i < |s| ==> IsSpace(s[i]))
  }

  /** `s.strip()`: the longest infix of `s` that neither starts nor ends with whitespace. */
  function Strip(s: string): (r: string)
    ensures |r| <= |s|
    ensures exists a, b :: InfixBetweenSpaces(s, a, b, r)
    ensures r == [] <==> forall i :: 0 <= i < |s| ==> IsSpace(s[i])
    ensures r != [] ==> !IsSpace(r[0]) && !IsSpace(r[|r| - 1])
  {
    var a := SpanStart(s, 0);
    var b := SpanEnd(s, a, |s|);
    assert InfixBetweenSpaces(s, a, b, s[a..b]);
    s[a..b]
  }

  /** Stripping twice is stripping once. */
  lemma StripIdempotent(s: string)
    ensures Strip(Strip(s)) == Strip(s)
  {
    var r := Strip(s);
    if r != [] {
      assert SpanStart(r, 0) == 0;
      assert SpanEnd(r, 0, |r|) == |r|;
      assert r[0..|r|] == r;
    }
  }

  /** `str.lower()` on one character; only A-Z is mapped (see README). */
  function LowerChar(c: char): (l: char)
    ensures 'A' <= c <= 'Z' ==> l as int == c as int + 32
    ensures !('A' <= c <= 'Z') ==> l == c
  {
    if 'A' <= c <= 'Z' then (c as int + 32) as char else c
  }

  function Lower(s: string): (r: string)
    ensures |r| == |s| && forall i :: 0 <= i < |s| ==> r[i] == LowerChar(s[i])
  {
    seq(|s|, i requires 0 <= i < |s| => LowerChar(s[i]))
  }

  /** `sep.join(cols)`. */
  function Join(cols: seq<string>, sep: char): string
  {
    if |cols| == 0 then "" else if |cols| == 1 then cols[0] else cols[0] + [sep] + Join(cols[1..], sep)
  }

  /** With pieces free of the separator, the join holds one separator between each two pieces. */
  lemma {:induction false} JoinSeparatorCount(cols: seq<string>, sep: char)
    requires forall i :: 0 <= i < |cols| ==> sep !in cols[i]
    ensures multiset(Join(cols, sep))[sep] == if cols == [] then 0 else |cols| - 1
  {
    if |cols| == 1 {
      assert sep !in cols[0];
    } else if |cols| > 1 {
      JoinSeparatorCount(cols[1..], sep);
      assert sep !in cols[0];
      assert multiset(Join(cols, sep)) == multiset(cols[0]) + multiset([sep]) + multiset(Join(cols[1..], sep));
    }
  }

  /** `s.split(sep)` for a one-character separator: always at least one piece. */
  function Split(s: string, sep: char): (r: seq<string>)
    ensures |r| >= 1
    ensures forall i :: 0 <= i < |r| ==> sep !in r[i]
  {
    if s == [] then [""]
    else
      var rest := Split(s[1..], sep);
      if s[0] == sep then [""] + rest else [[s[0]] + rest[0]] + rest[1..]
  }

  lemma {:induction false} SplitNoSeparator(s: string, sep: char)
    requires sep !in s
    ensures Split(s, sep) == [s]
  {
    if s != [] {
      SplitNoSeparator(s[1..], sep);
      assert [s[0]] + s[1..] == s;
    }
  }

  lemma {:induction false} SplitAfterPiece(a: string, b: string, sep: char)
    requires sep !in a
    ensures Split(a + [sep] + b, sep) == [a] + Split(b, sep)
  {
    if a == [] {
      assert (a + [sep] + b)[1..] == b;
    } else {
      assert (a + [sep] + b)[1..] == a[1..] + [sep] + b;
      SplitAfterPiece(a[1..], b, sep);
      assert [a[0]] + a[1..] == a;
    }
  }

  /** Splitting a joined list gives the list back when no piece holds the separator. */
  lemma {:induction false} SplitJoin(cols: seq<string>, sep: char)
    requires |cols| >= 1
    requires forall i :: 0 <= i < |cols| ==> sep !in cols[i]
    ensures Split(Join(cols, sep), sep) == cols
  {
    if |cols| == 1 {
      SplitNoSeparator(cols[0], sep);
    } else {
      SplitAfterPiece(cols[0], Join(cols[1..], sep), sep);
      SplitJoin(cols[1..], sep);
    }
  }

  // Joining after a split, one case of the first piece at a time.
  lemma JoinEmptyFirst(rest: seq<string>, sep: char)
    requires |rest| >= 1
    ensures Join([""] + rest, sep) == [sep] + Join(rest, sep)
  {
    assert ([""] + rest)[1..] == rest;
  }

  lemma JoinExtendFirst(c: char, rest: seq<string>, sep: char)
    requires |rest| >= 1
    ensures Join([[c] + rest[0]] + rest[1..], sep) == [c] + Join(rest, sep)
  {
    var r := [[c] + rest[0]] + rest[1..];
    assert r[0] == [c] + rest[0] && r[1..] == rest[1..];
  }

  /** Joining the pieces of a split gives the string back. */
  lemma {:induction false} JoinSplit(s: string, sep: char)
    ensures Join(Split(s, sep), sep) == s
  {
    if s != [] {
      JoinSplit(s[1..], sep);
      var rest := Split(s[1..], sep);
      if s[0] == sep {
        JoinEmptyFirst(rest, sep);
      } else {
        JoinExtendFirst(s[0], rest, sep);
      }
      assert s == [s[0]] + s[1..];
    }
  }
}
