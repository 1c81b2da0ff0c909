/** What scripts/fix_logging_imports.py does to the logger definitions of a file: on repeated runs,
    and when scripts/fix_duplicate_loggers.py follows. */
module LoggingPipeline {
  import opened Text
  import opened LineEdits
  import opened LoggerLines
  import opened DuplicateLoggers
  import opened ImportScan
  import opened LoggingImports

  // ---- the inserted lines as definitions ----

  lemma DefinitionLineIsDefinition(path: string)
    ensures IsLoggerDefinition(DefinitionLine(path)) && IsCanonical(DefinitionLine(path))
  {
    CanonicalIsDefinition("'" + LoggerName(path) + "')");
    assert OccursAt(DefinitionLine(path), CANONICAL, 0);
  }

  /** Of the four lines only the last one satisfies `p`. */
  ghost predicate OnlyLast<T>(block: seq<T>, p: T -> bool) {
    |block| == 4 && forall k :: 0 <= k < 4 ==> (p(block[k]) <==> k == 3)
  }

  lemma OnlyLastByLine(path: string, p: string -> bool)
    requires !p(ImportBlock(path)[0]) && !p(ImportBlock(path)[1]) && !p(ImportBlock(path)[2]) && p(ImportBlock(path)[3])
    ensures OnlyLast(ImportBlock(path), p)
  {
  }

  lemma EmptyLine(path: string)
    ensures !IsLoggerDefinition(ImportBlock(path)[0])
  {
    NotADefinition("");
  }

  lemma CommentLine(path: string)
    ensures !IsLoggerDefinition(ImportBlock(path)[1])
  {
    NotADefinition(COMMENT);
  }

  lemma ImportLine(path: string)
    ensures !IsLoggerDefinition(ImportBlock(path)[2])
  {
    NotADefinition(IMPORT);
  }

  lemma LastLine(path: string)
    ensures IsLoggerDefinition(ImportBlock(path)[3]) && IsCanonical(ImportBlock(path)[3])
  {
    DefinitionLineIsDefinition(path);
  }

  /** The inserted block defines the logger once, on its last line. */
  lemma BlockDefinitions(path: string)
    ensures OnlyLast(ImportBlock(path), IsLoggerDefinition)
  {
    EmptyLine(path);
    CommentLine(path);
    ImportLine(path);
    LastLine(path);
    OnlyLastByLine(path, IsLoggerDefinition);
  }

  lemma OnlyLastCounts<T>(block: seq<T>, p: T -> bool)
    requires OnlyLast(block, p)
    ensures CountIf(block, p) == 1
  {
    CountBlock(block, p);
  }

  // ---- repeated runs ----

  lemma MarksOfRewritten(kept: seq<string>, p: nat, path: string, i: nat)
    requires p <= |kept| && (forall k :: 0 <= k < |kept| ==> !NamesImport(kept[k]))
    requires "logging_manager" !in kept
    requires i < |kept| + 4
    ensures Marked(Insert(kept, p, ImportBlock(path)), i) ==> p <= i < p + 4 && NamesImport(ImportBlock(path)[i - p])
  {
    var fixed := Insert(kept, p, ImportBlock(path));
    BlockHasNoBareName(path);
    assert "logging_manager" !in fixed;
    if Marked(fixed, i) {
      var window := fixed[if i < 2 then 0 else i - 2..i + 1];
      assert forall l :: l in window ==> l in fixed;
      assert NamesImport(fixed[i]);
    }
  }

  lemma BlockHasNoBareName(path: string)
    ensures "logging_manager" !in ImportBlock(path)
  {
    assert COMMENT[0] == '#' && IMPORT[0] == 'f' && DefinitionLine(path)[1] == 'o' && DefinitionLine(path)[2] == 'g';
    assert DefinitionLine(path)[3] == 'g' && "logging_manager"[3] == 'g' && DefinitionLine(path)[4] == 'e' && "logging_manager"[4] == 'i';
  }

  lemma MarkedAreNoDefinitions(kept: seq<string>, p: nat, path: string)
    requires p <= |kept| && (forall k :: 0 <= k < |kept| ==> !NamesImport(kept[k]))
    requires "logging_manager" !in kept
    ensures var fixed := Insert(kept, p, ImportBlock(path));
            && p + 2 in MarkedIndices(fixed)
            && forall i :: 0 <= i < |fixed| && i in MarkedIndices(fixed) ==> !IsLoggerDefinition(fixed[i])
  {
    var fixed := Insert(kept, p, ImportBlock(path));
    InsertDelete(kept, p, ImportBlock(path));
    BlockImports(path);
    BlockComments(path);
    BlockDefinitions(path);
    forall i | 0 <= i < |fixed| && i in MarkedIndices(fixed)
      ensures !IsLoggerDefinition(fixed[i])
    {
      MarksOfRewritten(kept, p, path, i);
      assert fixed[p + (i - p)] == ImportBlock(path)[i - p];
    }
  }

  lemma UnmarkedNamesNothing(lines: seq<string>)
    ensures forall k :: 0 <= k < |Unmarked(lines)| ==> !NamesImport(Unmarked(lines)[k])
  {
    ImportsAreMarked(lines);
    KeptLines(lines, 0, MarkedIndices(lines), HasImport);
    KeptLines(lines, 0, MarkedIndices(lines), HasComment);
  }

  /** The definitions that a run removes. */
  function MarkedDefinitions(lines: seq<string>): nat {
    CountDropped(lines, 0, MarkedIndices(lines), IsLoggerDefinition)
  }

  lemma AddsOneDefinition(lines: seq<string>, path: string)
    ensures CountIf(WithImport(lines, path), IsLoggerDefinition) == CountIf(lines, IsLoggerDefinition) + 1
  {
    InsertBelowFirstImportBlock(Tokens(lines));
    CountInsert(lines, InsertPosition(Tokens(lines)), ImportBlock(path), IsLoggerDefinition);
    BlockDefinitions(path);
    OnlyLastCounts(ImportBlock(path), IsLoggerDefinition);
  }

  /** The import that a run inserts is marked in the next one. */
  lemma MarkedAgain(lines: seq<string>, path: string)
    requires MarkedIndices(lines) != {}
    ensures MarkedIndices(Repositioned(lines, path)) != {}
  {
    ExactlyOneImport(lines, path);
    var once := Repositioned(lines, path);
    ImportsAreMarked(once);
    if MarkedIndices(once) == {} {
      CountNone(once, HasImport);
    }
  }

  /** A rewriting run adds one definition and removes the marked ones. */
  lemma DefinitionsOfRun(lines: seq<string>, path: string)
    requires MarkedIndices(lines) != {}
    ensures CountIf(Repositioned(lines, path), IsLoggerDefinition) + MarkedDefinitions(lines) ==
            CountIf(lines, IsLoggerDefinition) + 1
  {
    AddsOneDefinition(Unmarked(lines), path);
    CountSplit(lines, 0, MarkedIndices(lines), IsLoggerDefinition);
  }

  /** For every file: a second run changes the number of definitions by one minus those marked in
      the output of the first. */
  lemma DefinitionsOfSecondRun(lines: seq<string>, path: string, again: string)
    requires MarkedIndices(lines) != {}
    ensures var once := Repositioned(lines, path);
            CountIf(Repositioned(once, again), IsLoggerDefinition) + MarkedDefinitions(once) ==
            CountIf(once, IsLoggerDefinition) + 1
  {
    MarkedAgain(lines, path);
    DefinitionsOfRun(Repositioned(lines, path), again);
  }

  lemma NoneMarked(kept: seq<string>, p: nat, path: string)
    requires p <= |kept| && forall k :: 0 <= k < |kept| ==> !NamesImport(kept[k])
    requires "logging_manager" !in kept
    ensures MarkedDefinitions(Insert(kept, p, ImportBlock(path))) == 0
  {
    MarkedAreNoDefinitions(kept, p, path);
    var once := Insert(kept, p, ImportBlock(path));
    CountWithout(once, MarkedIndices(once), IsLoggerDefinition);
  }

  /** Unless a line consists of `logging_manager` alone, no definition is ever removed again, so every
      further run adds one more. */
  lemma DefinitionsAccumulate(lines: seq<string>, path: string, again: string)
    requires MarkedIndices(lines) != {} && "logging_manager" !in lines
    ensures var once := Repositioned(lines, path);
            && MarkedIndices(once) != {}
            && CountIf(Repositioned(once, again), IsLoggerDefinition) == CountIf(once, IsLoggerDefinition) + 1
  {
    var kept := Unmarked(lines);
    MarkedAgain(lines, path);
    DefinitionsOfSecondRun(lines, path, again);
    UnmarkedNamesNothing(lines);
    InsertBelowFirstImportBlock(Tokens(kept));
    NoneMarked(kept, InsertPosition(Tokens(kept)), path);
  }

  // ---- when a second run is harmless ----

  predicate IsEmptyLine(line: string) {
    line == ""
  }

  lemma EmptyIsUnmarked(lines: seq<string>, i: nat)
    requires i < |lines| && lines[i] == ""
    ensures i !in MarkedIndices(lines)
  {
  }

  lemma BlockHasEmptyLine(path: string)
    ensures CountIf(ImportBlock(path), IsEmptyLine) == 1
  {
    CountBlock(ImportBlock(path), IsEmptyLine);
  }

  /** A rewriting run adds an empty line and never removes one. */
  lemma OneMoreEmptyLine(lines: seq<string>, path: string)
    requires MarkedIndices(lines) != {}
    ensures CountIf(Repositioned(lines, path), IsEmptyLine) == CountIf(lines, IsEmptyLine) + 1
  {
    var kept := Unmarked(lines);
    forall i | 0 <= i < |lines| && IsEmptyLine(lines[i]) ensures i !in MarkedIndices(lines) {
      EmptyIsUnmarked(lines, i);
    }
    CountWithout(lines, MarkedIndices(lines), IsEmptyLine);
    InsertBelowFirstImportBlock(Tokens(kept));
    CountInsert(kept, InsertPosition(Tokens(kept)), ImportBlock(path), IsEmptyLine);
    BlockHasEmptyLine(path);
  }

  /** A second run leaves the lines alone exactly when nothing was marked in the first place. */
  lemma HarmlessIffUnmarked(lines: seq<string>, path: string, again: string)
    ensures Repositioned(Repositioned(lines, path), again) == Repositioned(lines, path) <==> MarkedIndices(lines) == {}
  {
    if MarkedIndices(lines) != {} {
      MarkedAgain(lines, path);
      OneMoreEmptyLine(Repositioned(lines, path), again);
    }
  }

  // ---- the same for the text of a file ----

  lemma SplitOfRepositioned(content: string, path: string)
    ensures Split(RepositionedText(content, path)) == Repositioned(Split(content), path)
  {
    if MarkedIndices(Split(content)) == {} {
      JoinSplit(content);
    } else {
      RepositionedLines(Split(content), path);
    }
  }

  /** Running the script on its own output changes the text again exactly when it rewrote the file. */
  lemma SecondRunHarmlessIff(content: string, path: string, again: string)
    ensures RepositionedText(RepositionedText(content, path), again) == RepositionedText(content, path)
            <==> MarkedIndices(Split(content)) == {}
  {
    var once := RepositionedText(content, path);
    SplitOfRepositioned(content, path);
    SplitOfRepositioned(once, again);
    HarmlessIffUnmarked(Split(content), path, again);
  }

  /** The definitions of a text that is run through the script twice, for every text. */
  lemma DefinitionsOfTwoRuns(content: string, path: string, again: string)
    requires MarkedIndices(Split(content)) != {}
    ensures var once := RepositionedText(content, path);
            CountIf(Split(RepositionedText(once, again)), IsLoggerDefinition) + MarkedDefinitions(Split(once)) ==
            CountIf(Split(once), IsLoggerDefinition) + 1
  {
    SplitOfRepositioned(content, path);
    SplitOfRepositioned(RepositionedText(content, path), again);
    DefinitionsOfSecondRun(Split(content), path, again);
  }

  /** Without a line `logging_manager` two runs leave one definition more than one run. */
  lemma TwoRunsDefineTwice(content: string, path: string, again: string)
    requires MarkedIndices(Split(content)) != {} && "logging_manager" !in Split(content)
    ensures var once := RepositionedText(content, path);
            CountIf(Split(RepositionedText(once, again)), IsLoggerDefinition) ==
            CountIf(Split(once), IsLoggerDefinition) + 1
  {
    SplitOfRepositioned(content, path);
    SplitOfRepositioned(RepositionedText(content, path), again);
    DefinitionsAccumulate(Split(content), path, again);
  }

  lemma RepositionedLines(lines: seq<string>, path: string)
    requires OneLines(lines) && MarkedIndices(lines) != {}
    ensures OneLines(Repositioned(lines, path)) && Repositioned(lines, path) != []
    ensures Split(Join(Repositioned(lines, path))) == Repositioned(lines, path)
  {
    var kept := Unmarked(lines);
    forall k | 0 <= k < |kept|
      ensures OneLine(kept[k])
    {
      assert kept[k] in lines;
    }
    WithImportLines(kept, path);
  }

  // ---- followed by fix_duplicate_loggers ----

  lemma {:induction false} FirstOfInsert<T>(front: seq<T>, block: seq<T>, back: seq<T>, isDefinition: T -> bool, canonical: T -> bool)
    requires OnlyLast(block, isDefinition) && canonical(block[3])
    ensures FirstIsCanonical(front + block + back, isDefinition, canonical) <==>
            CountIf(front, isDefinition) == 0 || FirstIsCanonical(front, isDefinition, canonical)
    decreases |front|
  {
    var all := front + block + back;
    if front == [] {
      var a, b, c := all[1..], all[2..], all[3..];
      assert a[1..] == b && b[1..] == c && all[0] == block[0] && a[0] == block[1] && b[0] == block[2] && c[0] == block[3];
      assert FirstIsCanonical(c, isDefinition, canonical);
      assert FirstIsCanonical(b, isDefinition, canonical);
      assert FirstIsCanonical(a, isDefinition, canonical);
    } else {
      assert all[1..] == front[1..] + block + back;
      FirstOfInsert(front[1..], block, back, isDefinition, canonical);
    }
  }

  lemma {:induction false} FirstOfTerminated(pieces: seq<string>, isDefinition: string -> bool, canonical: string -> bool)
    requires !isDefinition("")
    requires forall l :: isDefinition(l + "\n") == isDefinition(l) && canonical(l + "\n") == canonical(l)
    ensures FirstIsCanonical(Terminated(pieces), isDefinition, canonical) ==
            FirstIsCanonical(pieces, isDefinition, canonical)
    decreases |pieces|
  {
    if |pieces| > 1 {
      FirstOfTerminated(pieces[1..], isDefinition, canonical);
      assert Terminated(pieces)[1..] == Terminated(pieces[1..]);
    } else if |pieces| == 1 {
      assert pieces[1..] == [];
    }
  }

  lemma {:induction false} LStripNewline(s: string)
    ensures LStrip(s + "\n") == if LStrip(s) == "" then "" else LStrip(s) + "\n"
    decreases |s|
  {
    if s == "" {
      assert "\n"[1..] == "";
    } else {
      assert (s + "\n")[1..] == s[1..] + "\n";
      LStripNewline(s[1..]);
    }
  }

  lemma PrefixNewline(r: string, token: string)
    requires token != "" && OneLine(token)
    ensures token <= r + "\n" <==> token <= r
    ensures token <= r ==> (r + "\n")[|token|..] == r[|token|..] + "\n"
  {
    if token <= r + "\n" {
      assert token[|token| - 1] == (r + "\n")[|token| - 1];
      assert token == (r + "\n")[..|token|] == r[..|token|];
    }
  }

  lemma EatNewline(s: string, token: string)
    requires token != "" && OneLine(token)
    ensures Eat(Rest(s + "\n"), token) == if Eat(Rest(s), token).NoMatch? then NoMatch else Rest(Eat(Rest(s), token).text + "\n")
  {
    LStripNewline(s);
    PrefixNewline(LStrip(s), token);
  }

  lemma MatchesNewline(s: string, a: string, b: string, c: string, d: string)
    requires a != "" && b != "" && c != "" && d != ""
    requires OneLine(a) && OneLine(b) && OneLine(c) && OneLine(d)
    ensures Matches(s + "\n", a, b, c, d) == Matches(s, a, b, c, d)
  {
    EatNewline(s, a);
    var s1 := Eat(Rest(s), a);
    if s1.Rest? {
      EatNewline(s1.text, b);
      var s2 := Eat(s1, b);
      if s2.Rest? {
        EatNewline(s2.text, c);
        var s3 := Eat(s2, c);
        if s3.Rest? {
          EatNewline(s3.text, d);
        }
      }
    }
  }

  lemma DefinitionNewline(l: string)
    ensures IsLoggerDefinition(l + "\n") == IsLoggerDefinition(l)
  {
    MatchesNewline(l, "logger", "=", "get_logger", "(");
  }

  lemma ContainsNewline(s: string, p: string)
    requires OneLine(p) && p != ""
    ensures Contains(s + "\n", p) == Contains(s, p)
  {
    if Contains(s + "\n", p) {
      var i :| 0 <= i <= |s| + 1 && OccursAt(s + "\n", p, i);
      assert p[|p| - 1] == (s + "\n")[i + |p| - 1];
      assert (s + "\n")[i..i + |p|] == s[i..i + |p|];
      assert OccursAt(s, p, i);
    }
    ContainsConcat(s, "\n", p);
  }

  lemma NewlinesDoNotMatter()
    ensures forall l: string :: IsLoggerDefinition(l + "\n") == IsLoggerDefinition(l)
    ensures forall l: string :: IsCanonical(l + "\n") == IsCanonical(l)
  {
    forall l: string
      ensures IsLoggerDefinition(l + "\n") == IsLoggerDefinition(l)
    {
      DefinitionNewline(l);
    }
    forall l: string
      ensures IsCanonical(l + "\n") == IsCanonical(l)
    {
      ContainsNewline(l, CANONICAL);
    }
  }

  /** The definitions of a text, read line by line with their newlines. */
  lemma FirstInFile(lines: seq<string>, isDefinition: string -> bool, canonical: string -> bool)
    requires lines != [] && Split(Join(lines)) == lines
    requires !isDefinition("")
    requires forall l :: isDefinition(l + "\n") == isDefinition(l)
    requires forall l :: canonical(l + "\n") == canonical(l)
    ensures FirstIsCanonical(ReadLines(Join(lines)), isDefinition, canonical) ==
            FirstIsCanonical(lines, isDefinition, canonical)
  {
    FirstOfTerminated(lines, isDefinition, canonical);
  }

  /** The lines in front of the inserted block. */
  function AboveBlock(lines: seq<string>): seq<string> {
    InsertBelowFirstImportBlock(Tokens(Unmarked(lines)));
    Unmarked(lines)[..InsertPosition(Tokens(Unmarked(lines)))]
  }

  predicate CanonicalDefinition(line: string) {
    IsLoggerDefinition(line) && IsCanonical(line)
  }

  /** After both scripts a rewritten file has exactly one canonical definition, unless an oddly
      spelled definition comes first above the inserted block: then it has none. */
  lemma OneCanonicalDefinition(content: string, path: string)
    requires MarkedIndices(Split(content)) != {}
    ensures var above := AboveBlock(Split(content));
            var after := ReadLines(FixedText(RepositionedText(content, path)));
            CountIf(after, CanonicalDefinition) ==
            if CountIf(above, IsLoggerDefinition) == 0 || FirstIsCanonical(above, IsLoggerDefinition, IsCanonical)
            then 1 else 0
  {
    var lines := Split(content);
    RepositionedLines(lines, path);
    ReadBack(RepositionedText(content, path));
    CanonicalAfterDedup(ReadLines(RepositionedText(content, path)));
    NotADefinition("");
    NewlinesDoNotMatter();
    FirstInFile(Repositioned(lines, path), IsLoggerDefinition, IsCanonical);
    FirstOfRepositioned(lines, path);
  }

  lemma CanonicalAfterDedup(lines: seq<string>)
    ensures CountIf(Deduplicated(lines), CanonicalDefinition) ==
            if FirstIsCanonical(lines, IsLoggerDefinition, IsCanonical) then 1 else 0
  {
    CanonicalLeft(lines, IsLoggerDefinition, IsCanonical, CanonicalDefinition, false);
  }

  lemma FirstOfRepositioned(lines: seq<string>, path: string)
    requires MarkedIndices(lines) != {}
    ensures FirstIsCanonical(Repositioned(lines, path), IsLoggerDefinition, IsCanonical) <==>
            CountIf(AboveBlock(lines), IsLoggerDefinition) == 0
            || FirstIsCanonical(AboveBlock(lines), IsLoggerDefinition, IsCanonical)
  {
    var kept := Unmarked(lines);
    InsertBelowFirstImportBlock(Tokens(kept));
    BlockDefinitions(path);
    LastLine(path);
    FirstOfInsert(AboveBlock(lines), ImportBlock(path), kept[InsertPosition(Tokens(kept))..], IsLoggerDefinition, IsCanonical);
  }
}
