/** The version header of the documents: scripts/batch_update_docs.py prints it,
    scripts/check_doc_consistency.py parses it. */
module DocHeaders {
  import opened Common
  import opened Text

  const FENCE := "---"
  const OPENING := "\nversion: "
  const DATE_FIELD := "last_updated: "

  /** create_version_header; `current` is `{version, date}` of the updater. */
  function VersionHeader(version: string, date: string, status: string): string {
    FENCE + (OPENING + (version + ("\n" + (DATE_FIELD + (date + "\ncode_compatibility: " + version
      + "\nstatus: " + status + "\n" + (FENCE + "\n\n"))))))
  }

  // ---- the parser ----

  datatype Parsed =
    | NoHeader
    | Unclosed
    | NoVersion
    | Version(text: string)

  /** Where the line containing position `i` ends. */
  function EndOfLine(s: string, i: nat): (r: nat)
    requires i <= |s|
    ensures i <= r <= |s| && OneLine(s[i..r]) && (r < |s| ==> s[r] == '\n')
    decreases |s| - i
  {
    if i < |s| && s[i] != '\n' then EndOfLine(s, i + 1) else i
  }

  /** The end of the white space starting at `i`. */
  function SkipSpace(s: string, i: nat): (r: nat)
    requires i <= |s|
    ensures i <= r <= |s|
    decreases |s| - i
  {
    if i < |s| && IsSpace(s[i]) then SkipSpace(s, i + 1) else i
  }

  /** `(.+)` at the rightmost of the positions `low..high` where it matches. */
  function Backtrack(s: string, low: nat, high: nat): Option<string>
    requires low <= high <= |s|
    decreases high
  {
    if high < |s| && s[high] != '\n' then Some(s[high..EndOfLine(s, high)])
    else if low == high then None
    else Backtrack(s, low, high - 1)
  }

  /** The group of `version:\s*(.+)`, found at the leftmost position from `at` on. */
  function Search(s: string, at: nat): Option<string>
    decreases |s| - at
  {
    if |s| < at + 8 then None
    else
      var group := if OccursAt(s, "version:", at) then Backtrack(s, at + 8, SkipSpace(s, at + 8)) else None;
      if group.Some? then group else Search(s, at + 1)
  }

  function ParseVersion(content: string): Parsed {
    if !StartsWith(content, FENCE) then NoHeader
    else
      var yamlEnd := Find(content, FENCE, 3);
      if yamlEnd <= 0 then Unclosed
      else
        var group := Search(content[3..yamlEnd], 0);
        if group.None? then NoVersion else Version(Strip(group.value))
  }

  // ---- what the expression `version:\s*(.+)` finds ----

  /** The expression can match with `version:` at `i` and its group from `j` on. */
  ghost predicate MatchesAt(s: string, i: nat, j: nat) {
    && OccursAt(s, "version:", i) && i + 8 <= j < |s| && s[j] != '\n'
    && forall k :: i + 8 <= k < j ==> IsSpace(s[k])
  }

  lemma SkipsAll(s: string, i: nat)
    requires i <= |s|
    ensures var r := SkipSpace(s, i);
            (forall k :: i <= k < r ==> IsSpace(s[k])) && (r < |s| ==> !IsSpace(s[r]))
    decreases |s| - i
  {
  }

  /** The group starts as far right as the white space allows. */
  lemma BacktrackIs(s: string, i: nat, high: nat) returns (j: nat)
    requires OccursAt(s, "version:", i) && i + 8 <= high <= |s|
    requires forall k :: i + 8 <= k < high ==> IsSpace(s[k])
    requires forall k :: high < k ==> !MatchesAt(s, i, k)
    ensures Backtrack(s, i + 8, high).None? ==> forall k :: !MatchesAt(s, i, k)
    ensures Backtrack(s, i + 8, high).Some? ==>
              && MatchesAt(s, i, j) && (forall k :: j < k ==> !MatchesAt(s, i, k))
              && Backtrack(s, i + 8, high) == Some(s[j..EndOfLine(s, j)])
    decreases high
  {
    if high < |s| && s[high] != '\n' {
      j := high;
    } else if i + 8 < high {
      j := BacktrackIs(s, i, high - 1);
    } else {
      j := 0;
    }
  }

  lemma GroupAt(s: string, i: nat) returns (j: nat)
    requires OccursAt(s, "version:", i) && |"version:"| == 8
    ensures var group := Backtrack(s, i + 8, SkipSpace(s, i + 8));
            && (group.None? ==> forall k :: !MatchesAt(s, i, k))
            && (group.Some? ==>
                  && MatchesAt(s, i, j) && (forall k :: j < k ==> !MatchesAt(s, i, k))
                  && group == Some(s[j..EndOfLine(s, j)]))
  {
    SkipsAll(s, i + 8);
    j := BacktrackIs(s, i, SkipSpace(s, i + 8));
  }

  /** There is no match at `i`. */
  ghost predicate NoneAt(s: string, i: nat) {
    forall j :: !MatchesAt(s, i, j)
  }

  /** `i`, `j` is the match to be found from `at` on: the leftmost, and in it the rightmost start of the group. */
  ghost predicate Leftmost(s: string, at: nat, i: nat, j: nat) {
    at <= i && MatchesAt(s, i, j) && (forall k :: at <= k < i ==> NoneAt(s, k)) && forall l :: j < l ==> !MatchesAt(s, i, l)
  }

  lemma TooShort(s: string, i: nat)
    requires |s| < i + 8 || !OccursAt(s, "version:", i)
    ensures NoneAt(s, i)
  {
    assert |"version:"| == 8;
  }

  /** Whether there is a group at `at` itself. */
  lemma GroupHere(s: string, at: nat) returns (j: nat)
    requires at + 8 <= |s|
    ensures var group := if OccursAt(s, "version:", at) then Backtrack(s, at + 8, SkipSpace(s, at + 8)) else None;
            if group.None? then NoneAt(s, at) else Leftmost(s, at, at, j) && group == Some(s[j..EndOfLine(s, j)])
  {
    if OccursAt(s, "version:", at) {
      assert |"version:"| == 8;
      j := GroupAt(s, at);
    } else {
      j := 0;
      TooShort(s, at);
    }
  }

  lemma LeftmostNext(s: string, at: nat, i: nat, j: nat)
    requires NoneAt(s, at) && Leftmost(s, at + 1, i, j)
    ensures Leftmost(s, at, i, j)
  {
  }

  /** The search finds the leftmost match, and in it the rightmost start of the group, which runs to the
      end of its line; it finds nothing exactly when there is no match. */
  lemma {:induction false} SearchIsLeftmost(s: string, at: nat) returns (i: nat, j: nat)
    ensures Search(s, at).None? ==> forall k :: at <= k ==> NoneAt(s, k)
    ensures Search(s, at).Some? ==> Leftmost(s, at, i, j) && Search(s, at) == Some(s[j..EndOfLine(s, j)])
    decreases |s| - at
  {
    if |s| < at + 8 {
      i, j := 0, 0;
      forall k | at <= k ensures NoneAt(s, k) {
        TooShort(s, k);
      }
    } else {
      i := at;
      j := GroupHere(s, at);
      if NoneAt(s, at) {
        i, j := SearchIsLeftmost(s, at + 1);
        if Search(s, at).Some? {
          LeftmostNext(s, at, i, j);
        }
      }
    }
  }

  // ---- printing, then parsing ----

  /** What a version must look like to survive: not empty, on one line, and without a fence. */
  predicate Printable(version: string) {
    version != "" && OneLine(version) && !Contains(version, FENCE)
  }

  lemma SearchIsShort(s: string, at: nat)
    ensures Search(s, at).Some? ==> |Search(s, at).value| + at + 8 <= |s|
    decreases |s| - at
  {
    if at + 8 <= |s| {
      if OccursAt(s, "version:", at) {
        BacktrackIsShort(s, at + 8, SkipSpace(s, at + 8));
      }
      SearchIsShort(s, at + 1);
    }
  }

  lemma BacktrackIsShort(s: string, low: nat, high: nat)
    requires low <= high <= |s|
    ensures Backtrack(s, low, high).Some? ==> |Backtrack(s, low, high).value| + low <= |s|
    decreases high
  {
    if !(high < |s| && s[high] != '\n') && low < high {
      BacktrackIsShort(s, low, high - 1);
    }
  }

  /** In a text that starts like the header, the fence found is the first one at or behind the version. */
  lemma FenceBehindOpening(content: string, i: int)
    requires StartsWith(content, FENCE + OPENING) && 3 <= i < 13
    ensures !OccursAt(content, FENCE, i)
  {
    assert content[i] == (FENCE + OPENING)[i];
    if OccursAt(content, FENCE, i) {
      OccursHead(content, FENCE, i);
    }
  }

  lemma SearchSkipsNewline(s: string)
    requires |s| >= 10 && StartsWith(s, OPENING)
    ensures Search(s, 0) == Search(s, 1)
    ensures OccursAt(s, "version:", 1) && s[9] == ' '
  {
    assert s[0] == OPENING[0] == '\n' && s[9] == OPENING[9];
    assert s[1..9] == OPENING[1..9] == "version:";
    if OccursAt(s, "version:", 0) {
      OccursHead(s, "version:", 0);
    }
  }

  /** What follows the opening on the same line is the group, if it starts with a visible character. */
  lemma SearchFindsLine(s: string)
    requires |s| > 10 && StartsWith(s, OPENING) && !IsSpace(s[10])
    ensures Search(s, 0) == Some(s[10..EndOfLine(s, 10)])
  {
    SearchSkipsNewline(s);
    assert SkipSpace(s, 9) == 10;
  }

  /** A header up to the date, with `rest` behind it. */
  function Page(version: string, rest: string): string {
    FENCE + OPENING + version + ("\n" + DATE_FIELD + rest)
  }

  lemma PageChars(version: string, rest: string)
    ensures var content, n := Page(version, rest), 13 + |version|;
            && StartsWith(content, FENCE + OPENING) && |content| == n + 15 + |rest|
            && content[13..n] == version && content[n] == '\n'
            && content[n + 1..n + 15] == DATE_FIELD && content[n + 15..] == rest
  {
    var front, back := FENCE + OPENING + version, "\n" + DATE_FIELD + rest;
    assert front[..13] == FENCE + OPENING;
    assert (FENCE + OPENING)[..13] <= Page(version, rest);
  }

  lemma DateHasNoDash(k: nat)
    requires k < |DATE_FIELD|
    ensures |DATE_FIELD| == 14 && DATE_FIELD[k] != '-'
  {
  }

  lemma AfterVersion(version: string, rest: string, k: nat)
    requires k < 15
    ensures |Page(version, rest)| >= 28 + |version| && Page(version, rest)[13 + |version| + k] != '-'
  {
    var content, n := Page(version, rest), 13 + |version|;
    PageChars(version, rest);
    if k > 0 {
      assert content[n + k] == content[n + 1..n + 15][k - 1];
      DateHasNoDash(k - 1);
    }
  }

  lemma NotAFence(s: string, i: int, j: int)
    requires 0 <= i <= j < i + 3 && j < |s| && s[j] != '-'
    ensures !OccursAt(s, FENCE, i)
  {
    if i + 3 <= |s| {
      assert s[i..i + 3][j - i] == s[j];
    }
  }

  /** No fence reaches behind the version before the date ends. */
  lemma NoFenceBehind(version: string, rest: string, i: int)
    requires 11 + |version| <= i <= 27 + |version|
    ensures !OccursAt(Page(version, rest), FENCE, i)
  {
    var n := 13 + |version|;
    AfterVersion(version, rest, if i < n then 0 else i - n);
    NotAFence(Page(version, rest), i, if i < n then n else i);
  }

  /** A fence in front of the date can only stand inside the version. */
  lemma FenceInVersion(version: string, rest: string, i: int)
    requires 3 <= i <= 27 + |version| && OccursAt(Page(version, rest), FENCE, i)
    ensures 13 <= i && i + 3 <= 13 + |version| && OccursAt(version, FENCE, i - 13)
  {
    PageChars(version, rest);
    if i < 13 {
      FenceBehindOpening(Page(version, rest), i);
    } else if 11 + |version| <= i {
      NoFenceBehind(version, rest, i);
    } else {
      assert version[i - 13..i - 10] == Page(version, rest)[i..i + 3];
    }
  }

  /** The text between the fences, when the version holds no fence. */
  lemma YamlOfPage(version: string, rest: string) returns (yaml: string)
    requires !Contains(version, FENCE) && Contains(rest, FENCE)
    ensures StartsWith(yaml, OPENING) && |yaml| >= 25 + |version|
    ensures yaml[10..10 + |version|] == version && yaml[10 + |version|] == '\n'
    ensures yaml[11 + |version|..25 + |version|] == DATE_FIELD
    ensures var group := Search(yaml, 0);
            ParseVersion(Page(version, rest)) == if group.None? then NoVersion else Version(Strip(group.value))
  {
    var content, n := Page(version, rest), 13 + |version|;
    PageChars(version, rest);
    FenceInRest(version, rest);
    var e := Find(content, FENCE, 3);
    if e <= n + 14 {
      FenceInVersion(version, rest, e);
      assert false;
    }
    yaml := content[3..e];
    YamlChars(content, e);
    Slice(content, 3, e, 10, 10 + |version|);
    Slice(content, 3, e, 11 + |version|, 25 + |version|);
    assert (FENCE + OPENING)[..3] == FENCE;
  }

  lemma Slice(s: string, from: nat, to: nat, low: nat, high: nat)
    requires low <= high && from + high <= to <= |s|
    ensures s[from..to][low..high] == s[from + low..from + high]
  {
    assert s[from..to][..high] == s[from..from + high];
    assert s[from..from + high][low..] == s[from + low..from + high];
  }

  lemma LineIsFound(yaml: string, version: string)
    requires StartsWith(yaml, OPENING) && |yaml| > 10 + |version|
    requires yaml[10..10 + |version|] == version && yaml[10 + |version|] == '\n'
    requires version != "" && !IsSpace(version[0]) && OneLine(version)
    ensures Search(yaml, 0) == Some(version)
  {
    assert yaml[10] == yaml[10..10 + |version|][0];
    SearchFindsLine(yaml);
    LineEndsAt(yaml, 10, 10 + |version|);
  }

  lemma PrintableIsParsed(version: string, rest: string)
    requires Printable(version) && Trimmed(version) && Contains(rest, FENCE)
    ensures ParseVersion(Page(version, rest)) == Version(version)
  {
    var yaml := YamlOfPage(version, rest);
    LineIsFound(yaml, version);
    StripTrims(version);
  }

  /** An empty version makes the parser read the next line. */
  lemma EmptyIsNotParsed(rest: string)
    requires Contains(rest, FENCE)
    ensures ParseVersion(Page("", rest)) != Version("")
  {
    var yaml := YamlOfPage("", rest);
    SearchSkipsNewline(yaml);
    assert yaml[11] == yaml[11..25][0] == 'l' && yaml[9] == ' ';
    assert SkipSpace(yaml, 11) == 11;
    assert SkipSpace(yaml, 10) == 11;
    assert SkipSpace(yaml, 9) == 11;
    var group := Search(yaml, 0).value;
    assert group == yaml[11..EndOfLine(yaml, 11)] && group[0] == 'l';
    VisibleSurvives(group);
  }

  lemma VisibleSurvives(s: string)
    requires s != "" && !IsSpace(s[0])
    ensures Strip(s) != ""
  {
  }

  lemma FirstLineIsShorter(yaml: string, version: string)
    requires StartsWith(yaml, OPENING) && |yaml| > 10 + |version| && yaml[10..10 + |version|] == version
    requires version != "" && !IsSpace(version[0]) && !OneLine(version)
    ensures Search(yaml, 0).Some? && |Search(yaml, 0).value| < |version|
  {
    assert yaml[10] == yaml[10..10 + |version|][0];
    SearchFindsLine(yaml);
    var k :| 0 <= k < |version| && version[k] == '\n';
    assert yaml[10 + k] == yaml[10..10 + |version|][k];
    LineEndsBy(yaml, 10, 10 + k);
  }

  /** Of a version on several lines only the first line is read. */
  lemma LinesAreCut(version: string, rest: string)
    requires version != "" && Trimmed(version) && !OneLine(version) && !Contains(version, FENCE) && Contains(rest, FENCE)
    ensures ParseVersion(Page(version, rest)) != Version(version)
  {
    var yaml := YamlOfPage(version, rest);
    FirstLineIsShorter(yaml, version);
    StripTrims(Search(yaml, 0).value);
  }

  /** A fence inside the version ends the header early. */
  lemma FenceCutsVersion(version: string, rest: string)
    requires Contains(version, FENCE) && Contains(rest, FENCE)
    ensures ParseVersion(Page(version, rest)) != Version(version)
  {
    var content := Page(version, rest);
    PageChars(version, rest);
    var j :| 0 <= j <= |version| && OccursAt(version, FENCE, j);
    assert content[13 + j..16 + j] == content[13..13 + |version|][j..j + 3];
    assert OccursAt(content, FENCE, 13 + j);
    FenceInRest(version, rest);
    var e := Find(content, FENCE, 3);
    assert e <= 13 + j;
    FenceInVersion(version, rest, e);
    YamlChars(content, e);
    var yaml := content[3..e];
    SearchSkipsNewline(yaml);
    SearchIsShort(yaml, 1);
    if Search(yaml, 1).Some? {
      StripTrims(Search(yaml, 1).value);
    }
  }

  lemma FenceInRest(version: string, rest: string)
    requires Contains(rest, FENCE)
    ensures Find(Page(version, rest), FENCE, 3) >= 3
  {
    PageChars(version, rest);
    var k :| 0 <= k <= |rest| && OccursAt(rest, FENCE, k);
    var content, n := Page(version, rest), 28 + |version|;
    assert content[n + k..n + k + 3] == content[n..][k..k + 3] == rest[k..k + 3];
    assert OccursAt(content, FENCE, n + k);
  }

  lemma YamlChars(content: string, e: int)
    requires StartsWith(content, FENCE + OPENING) && 13 <= e <= |content|
    ensures StartsWith(content[3..e], OPENING)
  {
    assert content[3..e][..10] == content[3..13] == (FENCE + OPENING)[3..13] == OPENING;
  }

  lemma LineEndsAt(s: string, i: nat, k: nat)
    requires i <= k < |s| && s[k] == '\n' && OneLine(s[i..k])
    ensures EndOfLine(s, i) == k
    decreases k - i
  {
    if i < k {
      assert s[i] == s[i..k][0];
      assert s[i + 1..k] == s[i..k][1..];
      LineEndsAt(s, i + 1, k);
    }
  }

  lemma LineEndsBy(s: string, i: nat, k: nat)
    requires i <= k < |s| && s[k] == '\n'
    ensures EndOfLine(s, i) <= k
    decreases k - i
  {
    if i < k && s[i] != '\n' {
      LineEndsBy(s, i + 1, k);
    }
  }

  // ---- main results ----

  /** The lines of the header. */
  function HeaderLines(version: string, date: string, status: string): seq<string> {
    [FENCE, "version: " + version, "last_updated: " + date, "code_compatibility: " + version, "status: " + status,
     FENCE, "", ""]
  }

  lemma LineThen(line: string, rest: seq<string>)
    requires rest != []
    ensures Join([line] + rest) == line + ("\n" + Join(rest))
  {
    assert ([line] + rest)[1..] == rest;
  }

  lemma Grouped(a: string, b: string, c: string)
    ensures a + b + c == a + (b + c)
  {
  }

  /** The last three lines, then the ones in front of them. */
  lemma StatusJoins(version: string, date: string, status: string)
    ensures Join(HeaderLines(version, date, status)[3..]) ==
            "code_compatibility: " + version + ("\nstatus: " + status + "\n" + (FENCE + "\n\n"))
  {
    var lines := HeaderLines(version, date, status);
    assert Join(["", ""]) == "\n";
    LineThen(FENCE, ["", ""]);
    assert [FENCE] + ["", ""] == [FENCE, "", ""];
    var end := FENCE + "\n\n";
    assert Join([FENCE, "", ""]) == end;
    var line := "status: " + status;
    LineThen(line, [FENCE, "", ""]);
    assert lines[4..] == [line] + [FENCE, "", ""];
    assert Join(lines[4..]) == line + ("\n" + end);
    LineThen(lines[3], lines[4..]);
    assert lines[3..] == [lines[3]] + lines[4..];
    StatusText(status, end);
  }

  lemma StatusText(status: string, end: string)
    ensures "\n" + ("status: " + status + ("\n" + end)) == "\nstatus: " + status + "\n" + end
  {
    assert "\nstatus: " == "\n" + "status: ";
  }

  lemma HeaderJoins(version: string, date: string, status: string)
    ensures VersionHeader(version, date, status) == Join(HeaderLines(version, date, status))
  {
    var lines := HeaderLines(version, date, status);
    var rest := "code_compatibility: " + version + ("\nstatus: " + status + "\n" + (FENCE + "\n\n"));
    StatusJoins(version, date, status);
    LineThen(lines[2], lines[3..]);
    assert lines[2..] == [lines[2]] + lines[3..];
    LineThen(lines[1], lines[2..]);
    assert lines[1..] == [lines[1]] + lines[2..];
    LineThen(lines[0], lines[1..]);
    assert lines == [lines[0]] + lines[1..];
    FieldsMatch(version, date, status, rest);
  }

  lemma FieldsMatch(version: string, date: string, status: string, rest: string)
    requires rest == "code_compatibility: " + version + ("\nstatus: " + status + "\n" + (FENCE + "\n\n"))
    ensures VersionHeader(version, date, status) ==
            FENCE + ("\n" + ("version: " + version + ("\n" + ("last_updated: " + date + ("\n" + rest)))))
  {
    var end, tail := FENCE + "\n\n", "\nstatus: " + status + "\n" + (FENCE + "\n\n");
    assert date + "\ncode_compatibility: " + version + "\nstatus: " + status + "\n" + end == date + ("\n" + rest) by {
      assert "\n" + rest == "\ncode_compatibility: " + version + tail;
      assert date + "\ncode_compatibility: " + version + "\nstatus: " + status + "\n" + end
          == date + ("\ncode_compatibility: " + version + tail);
    }
    Grouped("last_updated: ", date, "\n" + rest);
    Grouped("\nversion: ", version, "\n" + ("last_updated: " + date + ("\n" + rest)));
    assert "\n" + ("version: " + version + ("\n" + ("last_updated: " + date + ("\n" + rest))))
        == "\nversion: " + version + ("\n" + ("last_updated: " + date + ("\n" + rest)));
  }

  /** Version, date, version again and status stand between the fences in this order, a line each. */
  lemma HeaderHasLines(version: string, date: string, status: string)
    ensures VersionHeader(version, date, status) == Join(HeaderLines(version, date, status))
    ensures OneLine(version) && OneLine(date) && OneLine(status) ==>
              Split(VersionHeader(version, date, status)) == HeaderLines(version, date, status)
  {
    var lines := HeaderLines(version, date, status);
    HeaderJoins(version, date, status);
    if OneLine(version) && OneLine(date) && OneLine(status) {
      SplitJoin(lines);
    }
  }

  lemma HeaderIsPage(version: string, date: string, status: string, body: string) returns (rest: string)
    ensures VersionHeader(version, date, status) + body == Page(version, rest) && Contains(rest, FENCE)
  {
    var fields := date + "\ncode_compatibility: " + version + "\nstatus: " + status + "\n";
    rest := fields + (FENCE + "\n\n") + body;
    assert rest[|fields|..|fields| + 3] == FENCE;
    assert OccursAt(rest, FENCE, |fields|);
  }

  /** For a trimmed version, as the updater reads it, the parser reads back what the updater
      wrote exactly when the version is printable; date, status and body do not matter. */
  lemma HeaderRoundTrip(version: string, date: string, status: string, body: string)
    requires Trimmed(version)
    ensures ParseVersion(VersionHeader(version, date, status) + body) == Version(version) <==> Printable(version)
  {
    var rest := HeaderIsPage(version, date, status, body);
    if Printable(version) {
      PrintableIsParsed(version, rest);
    } else if Contains(version, FENCE) {
      FenceCutsVersion(version, rest);
    } else if version == "" {
      EmptyIsNotParsed(rest);
    } else {
      LinesAreCut(version, rest);
    }
  }

  /** A printed header is always recognised as one. */
  lemma HeaderIsClosed(version: string, date: string, status: string, body: string)
    ensures !ParseVersion(VersionHeader(version, date, status) + body).NoHeader?
    ensures !ParseVersion(VersionHeader(version, date, status) + body).Unclosed?
  {
    var rest := HeaderIsPage(version, date, status, body);
    PageChars(version, rest);
    FenceInRest(version, rest);
    assert Page(version, rest)[..3] == (FENCE + OPENING)[..3] == FENCE;
  }
}
