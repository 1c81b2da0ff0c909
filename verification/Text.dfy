/** The Python string operations the scripts rely on, as functions on `string`. */
module Text {

  /** `str.isspace` on one character; `\s` of the regular expressions accepts the same set. */
  predicate IsSpace(c: char) {
    || c == ' ' || ('\t' <= c <= '\r') || ('\U{1C}' <= c <= '\U{1F}')
    || c == '\U{85}' || c == '\U{A0}' || c == '\U{1680}' || ('\U{2000}' <= c <= '\U{200A}')
    || c == '\U{2028}' || c == '\U{2029}' || c == '\U{202F}' || c == '\U{205F}' || c == '\U{3000}'
  }

  function LStrip(s: string): (r: string)
    ensures |r| <= |s| && r == s[|s| - |r|..]
    ensures r == "" || !IsSpace(r[0])
    ensures forall i :: 0 <= i < |s| - |r| ==> IsSpace(s[i])
  {
    if s != "" && IsSpace(s[0]) then LStrip(s[1..]) else s
  }

  function RStrip(s: string): (r: string)
    ensures |r| <= |s| && r == s[..|r|]
    ensures r == "" || !IsSpace(r[|r| - 1])
    ensures forall i :: |r| <= i < |s| ==> IsSpace(s[i])
  {
    if s != "" && IsSpace(s[|s| - 1]) then RStrip(s[..|s| - 1]) else s
  }

  function Strip(s: string): (r: string) {
    RStrip(LStrip(s))
  }

  /** Nothing left to strip at either end. */
  predicate Trimmed(s: string) {
    s == "" || (!IsSpace(s[0]) && !IsSpace(s[|s| - 1]))
  }

  /** Nothing is stripped off a text without white space at that end. */
  lemma LeftTrimmed(s: string)
    requires s == "" || !IsSpace(s[0])
    ensures LStrip(s) == s
  {
  }

  lemma RightTrimmed(s: string)
    requires s == "" || !IsSpace(s[|s| - 1])
    ensures RStrip(s) == s
  {
  }

  lemma StripTrims(s: string)
    ensures Trimmed(Strip(s)) && |Strip(s)| <= |s|
    ensures Strip(s) == s <==> Trimmed(s)
    ensures |Strip(s)| == |s| <==> Trimmed(s)
  {
    var l := LStrip(s);
    if s == "" || !IsSpace(s[0]) {
      LeftTrimmed(s);
    }
    var r := RStrip(l);
    if l == "" || !IsSpace(l[|l| - 1]) {
      RightTrimmed(l);
    }
    StrippedBoth(s, l, r);
  }

  lemma StrippedBoth(s: string, l: string, r: string)
    requires |l| <= |s| && l == s[|s| - |l|..] && (l == "" || !IsSpace(l[0]))
    requires s == "" || !IsSpace(s[0]) ==> l == s
    requires |r| <= |l| && r == l[..|r|] && (r == "" || !IsSpace(r[|r| - 1]))
    requires l == "" || !IsSpace(l[|l| - 1]) ==> r == l
    ensures Trimmed(r) && |r| <= |s|
    ensures r == s <==> Trimmed(s)
    ensures |r| == |s| <==> Trimmed(s)
  {
    if r != "" {
      assert r[0] == l[0];
    }
  }

  lemma StripIdempotent(s: string)
    ensures Strip(Strip(s)) == Strip(s)
  {
    StripTrims(s);
    StripTrims(Strip(s));
  }

  predicate StartsWith(s: string, p: string) {
    p <= s
  }

  predicate EndsWith(s: string, p: string) {
    |p| <= |s| && s[|s| - |p|..] == p
  }

  predicate OccursAt(s: string, p: string, i: int) {
    0 <= i && i + |p| <= |s| && s[i..i + |p|] == p
  }

  lemma OccursHead(s: string, p: string, i: int)
    requires OccursAt(s, p, i) && p != ""
    ensures s[i] == p[0]
  {
    assert s[i..i + |p|][0] == s[i];
  }

  /** Python's `p in s`. */
  predicate Contains(s: string, p: string) {
    exists i :: 0 <= i <= |s| && OccursAt(s, p, i)
  }

  /** Python's `s.find(p, from)`, with `-1` for absence. */
  function Find(s: string, p: string, from: nat): (r: int)
    ensures r == -1 ==> forall i :: from <= i ==> !OccursAt(s, p, i)
    ensures r != -1 ==> from <= r && OccursAt(s, p, r) && forall i :: from <= i < r ==> !OccursAt(s, p, i)
    decreases |s| - from
  {
    if |s| < from then -1
    else if OccursAt(s, p, from) then from
    else Find(s, p, from + 1)
  }

  /** Python's `s.count(p)`: non-overlapping occurrences from the left. */
  function Count(s: string, p: string): nat
    requires p != ""
    decreases |s|
  {
    if |s| < |p| then 0
    else if p <= s then 1 + Count(s[|p|..], p)
    else Count(s[1..], p)
  }

  /** Python's `s.replace(old, new)`: leftmost occurrences first, never rescanning what was written. */
  function Replace(s: string, before: string, after: string): string
    requires before != ""
    decreases |s|
  {
    if |s| < |before| then s
    else if before <= s then after + Replace(s[|before|..], before, after)
    else [s[0]] + Replace(s[1..], before, after)
  }

  // ---- lines ----

  predicate OneLine(s: string) {
    '\n' !in s
  }

  predicate OneLines(lines: seq<string>) {
    forall k :: 0 <= k < |lines| ==> OneLine(lines[k])
  }

  /** `s.split('\n')`. */
  function Split(s: string): (r: seq<string>)
    ensures r != []
    ensures OneLines(r)
  {
    if s == "" then [""]
    else
      var rest := Split(s[1..]);
      if s[0] == '\n' then [""] + rest else [[s[0]] + rest[0]] + rest[1..]
  }

  /** `'\n'.join(lines)`. */
  function Join(lines: seq<string>): string {
    if lines == [] then ""
    else if |lines| == 1 then lines[0]
    else lines[0] + "\n" + Join(lines[1..])
  }

  lemma {:induction false} SplitPrefix(l: string, rest: string)
    requires OneLine(l)
    ensures Split(l + "\n" + rest) == [l] + Split(rest)
    decreases |l|
  {
    var s := l + "\n" + rest;
    if l == "" {
      assert s[1..] == rest;
    } else {
      assert s[1..] == l[1..] + "\n" + rest;
      SplitPrefix(l[1..], rest);
      assert [s[0]] + l[1..] == l;
    }
  }

  lemma {:induction false} SplitOne(l: string)
    requires OneLine(l)
    ensures Split(l) == [l]
    decreases |l|
  {
    if l != "" {
      SplitOne(l[1..]);
      assert [l[0]] + l[1..] == l;
    }
  }

  /** Text written from newline-free lines is read back as the same lines. */
  lemma {:induction false} SplitJoin(lines: seq<string>)
    requires lines != []
    requires OneLines(lines)
    ensures Split(Join(lines)) == lines
    decreases |lines|
  {
    if |lines| == 1 {
      SplitOne(lines[0]);
    } else {
      SplitJoin(lines[1..]);
      SplitPrefix(lines[0], Join(lines[1..]));
    }
  }

  /** Splitting loses nothing. */
  lemma {:induction false} JoinSplit(s: string)
    ensures Join(Split(s)) == s
    decreases |s|
  {
    if s != "" {
      JoinSplit(s[1..]);
      var rest := Split(s[1..]);
      if s[0] == '\n' {
        assert ([""] + rest)[1..] == rest;
      } else {
        assert ([[s[0]] + rest[0]] + rest[1..])[1..] == rest[1..];
      }
    }
  }

  // ---- files read with `readlines` and written with `writelines` ----

  /** What `readlines` reports for newline-separated pieces: all keep their newline,
      the text after the last newline is reported only when it is not empty. */
  function Terminated(pieces: seq<string>): seq<string> {
    if pieces == [] then []
    else if |pieces| == 1 then if pieces[0] == "" then [] else pieces
    else [pieces[0] + "\n"] + Terminated(pieces[1..])
  }

  function ReadLines(s: string): seq<string> {
    Terminated(Split(s))
  }

  /** `writelines`. */
  function Concat(lines: seq<string>): string {
    if lines == [] then "" else lines[0] + Concat(lines[1..])
  }

  predicate EndsItsLine(l: string) {
    l != "" && l[|l| - 1] == '\n' && OneLine(l[..|l| - 1])
  }

  /** A list of lines as `readlines` yields them. */
  predicate FileLines(lines: seq<string>) {
    forall i :: 0 <= i < |lines| ==>
      EndsItsLine(lines[i]) || (i == |lines| - 1 && lines[i] != "" && OneLine(lines[i]))
  }

  lemma {:induction false} TerminatedFileLines(pieces: seq<string>)
    requires OneLines(pieces)
    ensures FileLines(Terminated(pieces))
    decreases |pieces|
  {
    if |pieces| > 1 {
      TerminatedFileLines(pieces[1..]);
      assert (pieces[0] + "\n")[..|pieces[0]|] == pieces[0];
    }
  }

  /** Lines in the shape `readlines` yields survive being written and read again. */
  lemma {:induction false} ReadConcat(lines: seq<string>)
    requires FileLines(lines)
    ensures ReadLines(Concat(lines)) == lines
    decreases |lines|
  {
    if lines != [] {
      var l := lines[0];
      if EndsItsLine(l) {
        ReadConcat(lines[1..]);
        var body, rest := l[..|l| - 1], Concat(lines[1..]);
        assert body + "\n" == l;
        assert Concat(lines) == body + "\n" + rest;
        SplitPrefix(body, rest);
        assert ([body] + Split(rest))[1..] == Split(rest);
      } else {
        assert lines == [l] && Concat(lines) == l + Concat(lines[1..]) == l;
        SplitOne(l);
      }
    }
  }

  lemma {:induction false} ConcatTerminated(pieces: seq<string>)
    requires pieces != []
    ensures Concat(Terminated(pieces)) == Join(pieces)
    decreases |pieces|
  {
    if |pieces| == 1 {
      assert pieces == [pieces[0]] && pieces[1..] == [];
    } else {
      ConcatTerminated(pieces[1..]);
      assert Terminated(pieces)[1..] == Terminated(pieces[1..]);
    }
  }
}
