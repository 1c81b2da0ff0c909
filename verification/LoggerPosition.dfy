/** scripts/fix_logger_position.py: misplaced logger definitions move below the imports. */
module LoggerPosition {
  import opened Common
  import opened Text
  import opened LineEdits
  import opened LoggerLines
  import opened LoggerScan

  predicate IsImport(stripped: string) {
    || StartsWith(stripped, "import ")
    || StartsWith(stripped, "from ")
    || (Contains(stripped, "import ") && !StartsWith(stripped, "logger"))
  }

  predicate NamesLogging(stripped: string) {
    Contains(stripped, "logging_manager") || Contains(stripped, "get_logger")
  }

  function KindOf(stripped: string): Kind {
    if StartsWith(stripped, DOUBLE_QUOTES) then Opens(Double, Count(stripped, DOUBLE_QUOTES) >= 2)
    else if StartsWith(stripped, SINGLE_QUOTES) then Opens(Single, Count(stripped, SINGLE_QUOTES) >= 2)
    else if stripped == "" || stripped[0] == '#' then Skipped
    else if IsImport(stripped) then Import(NamesLogging(stripped))
    else if IsLoggerDefinition(stripped) then Logger
    else Other
  }

  function Classify(line: string): Token {
    var s := Strip(line);
    Answers(KindOf(s), s == "", Contains(s, DOUBLE_QUOTES), Contains(s, SINGLE_QUOTES))
  }

  lemma ClassifyStripped(line: string)
    ensures Classify(Strip(line)) == Classify(line)
  {
    StripIdempotent(line);
  }

  lemma ClassifyEmpty()
    ensures Classify("") == BLANK
  {
  }

  function Tokens(lines: seq<string>): seq<Token> {
    Map(Classify, lines)
  }

  function SkipBlankLines(lines: seq<string>, at: nat, strip: string -> string): (p: nat)
    requires at <= |lines|
    ensures at <= p <= |lines|
    ensures p < |lines| ==> strip(lines[p]) != ""
    decreases |lines| - at
  {
    if at < |lines| && strip(lines[at]) == "" then SkipBlankLines(lines, at + 1, strip) else at
  }

  lemma SkipBlankTokens(lines: seq<string>, at: nat)
    requires at <= |lines|
    ensures SkipBlankLines(lines, at, Strip) == SkipBlank(Tokens(lines), at)
    decreases |lines| - at
  {
    if at < |lines| {
      SkipBlankTokens(lines, at + 1);
    }
  }

  /** `definition` inserted below the lines that follow `at` and are empty once stripped. */
  function PutBackLine(r: seq<string>, at: nat, definition: string, strip: string -> string): seq<string>
    requires at <= |r|
  {
    var p := SkipBlankLines(r, at, strip);
    Insert(r, p, [definition] + if p == |r| then [] else [""])
  }

  /** The file without its misplaced definitions. */
  function RemainingLines(lines: seq<string>): (r: seq<string>)
    ensures Tokens(r) == Remaining(Tokens(lines))
    ensures Analyze(Tokens(lines)).CorrectPosition() <= |r|
  {
    var drop := Indices(Misplaced(Analyze(Tokens(lines))));
    DropMap(Classify, lines, 0, drop);
    RemovalKeepsStructure(Tokens(lines));
    Drop(lines, 0, drop)
  }

  /** The statement that is put back: the first misplaced one, stripped. */
  function Statement(lines: seq<string>): string
    requires Misplaced(Analyze(Tokens(lines))) != []
  {
    MisplacedAreLoggers(Tokens(lines));
    Strip(lines[Misplaced(Analyze(Tokens(lines)))[0]])
  }

  /** The file after one run of the script. */
  function FixedLines(lines: seq<string>): seq<string> {
    var st := Analyze(Tokens(lines));
    if !NeedsFix(st) then lines
    else if st.properLoggerExists then RemainingLines(lines)
    else PutBackLine(RemainingLines(lines), st.CorrectPosition(), Statement(lines), Strip)
  }

  lemma TokensOfPutBack(r: seq<string>, at: nat, definition: string)
    requires at <= |r|
    ensures Tokens(PutBackLine(r, at, definition, Strip)) == PutBack(Tokens(r), at, Classify(definition))
  {
    SkipBlankTokens(r, at);
    var p := SkipBlankLines(r, at, Strip);
    var inserted := [definition] + if p == |r| then [] else [""];
    MapInsert(Classify, r, p, inserted);
    TokensOfInserted(p == |r|, definition);
  }

  lemma TokensOfInserted(atEnd: bool, definition: string)
    ensures Tokens([definition] + if atEnd then [] else [""]) == Inserted(atEnd, Classify(definition))
  {
    ClassifyEmpty();
    MapOneOrTwo(Classify, definition, "", atEnd);
  }

  lemma MapOneOrTwo<A, B>(f: A -> B, first: A, second: A, one: bool)
    ensures Map(f, [first] + if one then [] else [second]) == [f(first)] + if one then [] else [f(second)]
  {
  }

  /** The rewritten lines are classified as the rewritten classification. */
  lemma TokensOfFixed(lines: seq<string>)
    requires NeedsFix(Analyze(Tokens(lines)))
    ensures Tokens(FixedLines(lines)) == Fixed(Tokens(lines))
  {
    var ts := Tokens(lines);
    if !Analyze(ts).properLoggerExists {
      MisplacedAreLoggers(ts);
      ClassifyStripped(lines[Misplaced(Analyze(ts))[0]]);
      TokensOfPutBack(RemainingLines(lines), Analyze(ts).CorrectPosition(), Statement(lines));
    }
  }

  /** The first run rewrites the file `content`. */
  predicate Rewrites(content: string) {
    NeedsFix(Analyze(Tokens(Split(content))))
  }

  /** The file after one run. */
  function Rewritten(content: string): string {
    if Rewrites(content) then Join(FixedLines(Split(content))) else content
  }

  // ---- fix_logger_position ----

  method CollectMisplaced(positions: seq<nat>, correctPosition: nat) returns (misplaced: seq<nat>)
    ensures misplaced == Above(positions, correctPosition + 20)
  {
    misplaced := [];
    for n := 0 to |positions|
      invariant misplaced == Above(positions[..n], correctPosition + 20)
    {
      var pos := positions[n];
      assert positions[..n + 1] == positions[..n] + [pos];
      AboveAppend(positions[..n], [pos], correctPosition + 20);
      if pos > correctPosition + 20 {
        misplaced := misplaced + [pos];
      }
    }
    assert positions[..|positions|] == positions;
  }

  /** `strip` is str.strip. */
  method ExtractStatements(lines: seq<string>, misplaced: seq<nat>, strip: string -> string)
    returns (statements: seq<string>, linesToRemove: seq<nat>)
    requires forall k :: 0 <= k < |misplaced| ==> misplaced[k] < |lines| && strip(lines[misplaced[k]]) != ""
    ensures linesToRemove == misplaced && |statements| == |misplaced|
    ensures forall k :: 0 <= k < |misplaced| ==> statements[k] == strip(lines[misplaced[k]])
  {
    statements, linesToRemove := [], [];
    for n := 0 to |misplaced|
      invariant linesToRemove == misplaced[..n] && |statements| == n
      invariant forall k :: 0 <= k < n ==> statements[k] == strip(lines[misplaced[k]])
    {
      var pos := misplaced[n];
      var loggerLine := strip(lines[pos]);
      if loggerLine != "" {
        statements := statements + [loggerLine];
        linesToRemove := linesToRemove + [pos];
      }
    }
  }

  method InsertDefinition(original: seq<string>, correctPosition: nat, definition: string, strip: string -> string)
    returns (lines: seq<string>)
    requires correctPosition <= |original|
    ensures lines == PutBackLine(original, correctPosition, definition, strip)
  {
    lines := original;
    var insertPosition := correctPosition;
    while insertPosition < |lines| && strip(lines[insertPosition]) == ""
      invariant correctPosition <= insertPosition <= |lines|
      invariant SkipBlankLines(original, insertPosition, strip) == SkipBlankLines(original, correctPosition, strip)
    {
      insertPosition := insertPosition + 1;
    }
    lines := Insert(lines, insertPosition, [definition]);
    InsertBehind(original, insertPosition, [definition], [""]);
    if insertPosition + 1 < |lines| && strip(lines[insertPosition + 1]) != "" {
      lines := Insert(lines, insertPosition + 1, [""]);
    }
  }

  lemma MisplacedStatements(lines: seq<string>)
    ensures var misplaced := Misplaced(Analyze(Tokens(lines)));
            && Ascending(misplaced)
            && forall k :: 0 <= k < |misplaced| ==> misplaced[k] < |lines| && Strip(lines[misplaced[k]]) != ""
  {
    MisplacedAreLoggers(Tokens(lines));
  }

  method RelocateDefinitions(lines: seq<string>, structure: Structure, misplaced: seq<nat>)
    returns (fixed: seq<string>)
    requires structure == Analyze(Tokens(lines)) && NeedsFix(structure) && misplaced == Misplaced(structure)
    ensures fixed == FixedLines(lines)
  {
    MisplacedStatements(lines);
    var statements, linesToRemove := ExtractStatements(lines, misplaced, Strip);
    fixed := RemoveLines(lines, linesToRemove);
    assert fixed == RemainingLines(lines);
    if !structure.properLoggerExists && statements != [] {
      fixed := InsertDefinition(fixed, structure.CorrectPosition(), statements[0], Strip);
    }
  }

  method FixLines(lines: seq<string>) returns (rewritten: bool, fixed: seq<string>)
    ensures rewritten == NeedsFix(Analyze(Tokens(lines)))
    ensures if rewritten then fixed == FixedLines(lines) else fixed == lines
  {
    var structure := AnalyzeFileStructure(Tokens(lines));
    if structure.loggerPositions == [] || !structure.hasLoggingImport {
      return false, lines;
    }
    if |structure.loggerPositions| == 1 && structure.properLoggerExists {
      return false, lines;
    }
    var misplaced := CollectMisplaced(structure.loggerPositions, structure.CorrectPosition());
    if misplaced == [] {
      return false, lines;
    }
    fixed := RelocateDefinitions(lines, structure, misplaced);
    rewritten := true;
  }

  /** fix_logger_position: whether the file was rewritten, and its text afterwards. */
  method FixLoggerPosition(content: string) returns (rewritten: bool, newContent: string)
    ensures rewritten == Rewrites(content) && newContent == Rewritten(content)
  {
    var lines;
    rewritten, lines := FixLines(Split(content));
    newContent := if rewritten then Join(lines) else content;
  }

  // ---- main results, on the text of a file ----

  lemma DropOneLines(lines: seq<string>, base: int, drop: set<int>)
    requires OneLines(lines)
    ensures OneLines(Drop(lines, base, drop))
  {
    var r := Drop(lines, base, drop);
    forall k | 0 <= k < |r|
      ensures OneLine(r[k])
    {
      assert r[k] in r && r[k] in lines;
    }
  }

  lemma StripOneLine(s: string)
    requires OneLine(s)
    ensures OneLine(Strip(s))
  {
  }

  lemma PutBackOneLines(r: seq<string>, at: nat, definition: string, strip: string -> string)
    requires at <= |r| && OneLines(r) && OneLine(definition)
    ensures OneLines(PutBackLine(r, at, definition, strip)) && PutBackLine(r, at, definition, strip) != []
  {
  }

  lemma FixedOneLines(lines: seq<string>)
    requires NeedsFix(Analyze(Tokens(lines))) && OneLines(lines)
    ensures OneLines(FixedLines(lines)) && FixedLines(lines) != []
  {
    var ts := Tokens(lines);
    DropOneLines(lines, 0, Indices(Misplaced(Analyze(ts))));
    if Analyze(ts).properLoggerExists {
      DefinitionRemains(ts);
      TokensOfFixed(lines);
    } else {
      MisplacedAreLoggers(ts);
      StripOneLine(lines[Misplaced(Analyze(ts))[0]]);
      PutBackOneLines(RemainingLines(lines), Analyze(ts).CorrectPosition(), Statement(lines), Strip);
    }
  }

  /** What the second run reads is what the first one wrote. */
  lemma ReadBack(content: string)
    requires Rewrites(content)
    ensures Tokens(Split(Rewritten(content))) == Fixed(Tokens(Split(content)))
  {
    var lines := Split(content);
    FixedOneLines(lines);
    SplitJoin(FixedLines(lines));
    TokensOfFixed(lines);
  }

  /** Running the script on its own output rewrites it again exactly when no proper definition
      existed and the relocation overflows the twenty-line limit. */
  lemma SecondRunOnText(content: string)
    requires Rewrites(content)
    ensures var ts := Tokens(Split(content));
            Rewrites(Rewritten(content)) <==> !Analyze(ts).properLoggerExists && Overflows(ts)
  {
    ReadBack(content);
    SecondRun(Tokens(Split(content)));
  }

  /** Some line with text follows the definition put back, and the relocation overflows the limit. */
  ghost predicate KeepsChanging(ts: seq<Token>) {
    !Analyze(ts).properLoggerExists && Overflows(ts) && InsertPosition(ts) < |Remaining(ts)|
  }

  lemma StrippedStatement(lines: seq<string>)
    requires Misplaced(Analyze(Tokens(lines))) != []
    ensures Strip(Statement(lines)) == Statement(lines)
  {
    MisplacedAreLoggers(Tokens(lines));
    StripIdempotent(lines[Misplaced(Analyze(Tokens(lines)))[0]]);
  }

  lemma PutBackAtEnd(r: seq<string>, at: nat, definition: string, strip: string -> string)
    requires at <= |r| && SkipBlankLines(r, at, strip) == |r|
    ensures PutBackLine(r, at, definition, strip) == r + [definition]
  {
  }

  /** A definition put back at the very end stays there. */
  lemma EndIsStable(lines: seq<string>)
    requires NeedsFix(Analyze(Tokens(lines))) && !Analyze(Tokens(lines)).properLoggerExists
    requires InsertPosition(Tokens(lines)) == |Remaining(Tokens(lines))|
    ensures FixedLines(FixedLines(lines)) == FixedLines(lines)
  {
    var ts, r, c, definition := Tokens(lines), RemainingLines(lines), Analyze(Tokens(lines)).CorrectPosition(), Statement(lines);
    TokensOfFixed(lines);
    SkipBlankTokens(r, c);
    PutBackAtEnd(r, c, definition, Strip);
    if NeedsFix(Analyze(Fixed(ts))) {
      EndIsOnlyMisplaced(ts);
      StrippedStatement(lines);
      LastPutBackAgain(FixedLines(lines), r, c, definition);
    }
  }

  lemma RemainingIs(lines: seq<string>, positions: seq<nat>)
    requires Misplaced(Analyze(Tokens(lines))) == positions
    ensures RemainingLines(lines) == Drop(lines, 0, Indices(positions))
  {
  }

  lemma StatementIs(lines: seq<string>, q: nat)
    requires Misplaced(Analyze(Tokens(lines))) == [q]
    ensures q < |lines| && Statement(lines) == Strip(lines[q])
  {
    var misplaced := Misplaced(Analyze(Tokens(lines)));
    MisplacedAreLoggers(Tokens(lines));
    assert misplaced[0] == q;
  }

  lemma FixedIs(lines: seq<string>, kept: seq<string>, c: nat, definition: string)
    requires var st := Analyze(Tokens(lines)); NeedsFix(st) && !st.properLoggerExists && st.CorrectPosition() == c
    requires RemainingLines(lines) == kept && Statement(lines) == definition
    requires c <= |kept| && SkipBlankLines(kept, c, Strip) == |kept|
    ensures FixedLines(lines) == kept + [definition]
  {
    PutBackAtEnd(kept, c, definition, Strip);
  }

  lemma LastIsTakenOut(lines: seq<string>, r: seq<string>, definition: string)
    requires lines == r + [definition] && Misplaced(Analyze(Tokens(lines))) == [|r|]
    ensures RemainingLines(lines) == r && Statement(lines) == Strip(definition)
  {
    DropLast(r, definition, Indices([|r|]));
    RemainingIs(lines, [|r|]);
    StatementIs(lines, |r|);
  }

  lemma LastPutBackAgain(lines: seq<string>, r: seq<string>, c: nat, definition: string)
    requires lines == r + [definition]
    requires c <= |r| && SkipBlankLines(r, c, Strip) == |r| && Strip(definition) == definition
    requires var st := Analyze(Tokens(lines));
             && NeedsFix(st) && !st.properLoggerExists && Misplaced(st) == [|r|] && st.CorrectPosition() == c
    ensures FixedLines(lines) == lines
  {
    LastIsTakenOut(lines, r, definition);
    FixedIs(lines, r, c, definition);
  }

  /** Running the script on its own output changes the file exactly when no proper definition existed, the
      relocation overflows the limit, and the definition did not go back to the very end of the file. */
  lemma SecondRunChangesIff(content: string)
    requires Rewrites(content)
    ensures Rewritten(Rewritten(content)) != Rewritten(content) <==> KeepsChanging(Tokens(Split(content)))
  {
    var lines, ts := Split(content), Tokens(Split(content));
    ReadBack(content);
    SecondRunOnText(content);
    SplitOfRewritten(content);
    if KeepsChanging(ts) {
      SecondRunChanges(ts);
      SplitOfRewritten(Rewritten(content));
      TokensOfFixed(FixedLines(lines));
    } else if !Analyze(ts).properLoggerExists && Overflows(ts) {
      EndIsStable(lines);
      SplitOfRewritten(Rewritten(content));
      JoinSplit(Rewritten(content));
    }
  }

  lemma SplitOfRewritten(content: string)
    requires Rewrites(content)
    ensures Split(Rewritten(content)) == FixedLines(Split(content))
  {
    FixedOneLines(Split(content));
    SplitJoin(FixedLines(Split(content)));
  }

  /** With every definition misplaced, twenty blank lines or fewer below the correct position
      make the second run idle. */
  lemma AllMisplacedIsStable(content: string)
    requires Rewrites(content)
    requires var ts := Tokens(Split(content));
             && |Misplaced(Analyze(ts))| == |Analyze(ts).loggerPositions|
             && InsertPosition(ts) <= Analyze(ts).CorrectPosition() + 20
    ensures Rewritten(Rewritten(content)) == Rewritten(content)
  {
    SecondRunOnText(content);
    AllMisplacedFits(Tokens(Split(content)));
  }

  /** A definition parked below more than twenty blank lines drifts for ever: each further run
      rewrites the file, makes it one line longer and leaves it in the same situation. */
  lemma FileGrows(content: string)
    requires Drifting(Tokens(Split(content)))
    ensures Rewrites(content) && Drifting(Tokens(Split(Rewritten(content))))
    ensures |Split(Rewritten(Rewritten(content)))| == |Split(Rewritten(content))| + 1
  {
    var ts := Tokens(Split(content));
    DriftGoesOn(ts);
    ReadBack(content);
    ReadBack(Rewritten(content));
  }

  /** A rewritten file still defines its logger. */
  lemma DefinitionSurvives(content: string)
    requires Rewrites(content)
    ensures Analyze(Tokens(Split(Rewritten(content)))).loggerPositions != []
  {
    ReadBack(content);
    DefinitionRemains(Tokens(Split(content)));
  }

  lemma PutBackUndone(r: seq<string>, at: nat, definition: string, strip: string -> string)
    requires at <= |r|
    ensures var p, fixed := SkipBlankLines(r, at, strip), PutBackLine(r, at, definition, strip);
            var d := if p == |r| then 1 else 2;
            && p + d <= |fixed| && fixed[..at] == r[..at]
            && fixed[..p] + fixed[p + d..] == r
            && fixed[p] == definition && (d > 1 ==> fixed[p + 1] == "")
  {
    var p := SkipBlankLines(r, at, strip);
    var inserted := [definition] + if p == |r| then [] else [""];
    InsertDelete(r, p, inserted);
    assert Insert(r, p, inserted)[..at] == Insert(r, p, inserted)[..p][..at] == r[..p][..at] == r[..at];
    assert inserted[0] == definition && (|inserted| > 1 ==> inserted[1] == "");
  }

  /** Removal drops exactly the misplaced definitions; everything above the correct position stays. */
  lemma RemovalKeepsOrder(lines: seq<string>)
    ensures var st, r := Analyze(Tokens(lines)), RemainingLines(lines);
            && st.CorrectPosition() <= |lines| && st.CorrectPosition() <= |r|
            && r[..st.CorrectPosition()] == lines[..st.CorrectPosition()]
            && r == Drop(lines, 0, Indices(Misplaced(st)))
            && (forall q :: q in Misplaced(st) <==> q in st.loggerPositions && st.CorrectPosition() + 20 < q)
  {
    MisplacedBehind(Tokens(lines));
    DropUntouched(lines, Analyze(Tokens(lines)).CorrectPosition(), Indices(Misplaced(Analyze(Tokens(lines)))));
  }

  lemma MisplacedBehind(ts: seq<Token>)
    ensures var st := Analyze(ts);
            && st.CorrectPosition() <= |ts|
            && (forall q :: q in Misplaced(st) <==> q in st.loggerPositions && st.CorrectPosition() + 20 < q)
            && (forall i :: i in Indices(Misplaced(st)) ==> st.CorrectPosition() <= i)
  {
    ScanBounds(ts, |ts|);
    AboveMembers(Analyze(ts).loggerPositions, Analyze(ts).CorrectPosition() + 20);
  }

  /** `fixed` is `r` with `d` lines inserted at `p`, the first being `statement`, the second empty;
      up to `c` it is also the original. */
  predicate MovesOnly(lines: seq<string>, r: seq<string>, fixed: seq<string>,
                      c: nat, p: nat, d: nat, statement: string) {
    && c <= p && c <= |lines| && p + d <= |fixed| && 1 <= d <= 2
    && fixed[..c] == lines[..c]
    && fixed[..p] + fixed[p + d..] == r
    && fixed[p] == statement
    && (d == 2 ==> fixed[p + 1] == "")
  }

  /** Deleting the inserted lines from the output leaves the input without its misplaced
      definitions, in order; everything above the correct position is untouched. */
  lemma OnlyDefinitionsMove(lines: seq<string>)
    requires NeedsFix(Analyze(Tokens(lines))) && !Analyze(Tokens(lines)).properLoggerExists
    ensures var ts := Tokens(lines);
            MovesOnly(lines, RemainingLines(lines), FixedLines(lines),
                      Analyze(ts).CorrectPosition(), InsertPosition(ts), InsertedCount(ts), Statement(lines))
  {
    var r, c := RemainingLines(lines), Analyze(Tokens(lines)).CorrectPosition();
    RemovalKeepsOrder(lines);
    SkipBlankTokens(r, c);
    PutBackMoves(lines, r, c, Statement(lines), Strip);
  }

  lemma PutBackMoves(lines: seq<string>, r: seq<string>, at: nat, definition: string, strip: string -> string)
    requires at <= |r| && at <= |lines| && r[..at] == lines[..at]
    ensures var p := SkipBlankLines(r, at, strip);
            MovesOnly(lines, r, PutBackLine(r, at, definition, strip), at, p, if p == |r| then 1 else 2, definition)
  {
    PutBackUndone(r, at, definition, strip);
  }

  // ---- a file that drifts ----

  const IMPORT_LINE := "from a import get_logger"
  const CODE_LINE := "x"

  /** The kind of a trimmed line that neither opens a docstring nor is a comment. */
  lemma KindOfPlain(s: string)
    requires Trimmed(s) && s != "" && s[0] != '"' && s[0] != '\'' && s[0] != '#'
    ensures Classify(s).kind ==
            if IsImport(s) then Import(NamesLogging(s)) else if IsLoggerDefinition(s) then Logger else Other
  {
    StripTrims(s);
    assert !StartsWith(s, DOUBLE_QUOTES) && !StartsWith(s, SINGLE_QUOTES);
  }

  lemma KindOfImport(s: string)
    requires Trimmed(s) && StartsWith(s, "from ") && NamesLogging(s)
    ensures Classify(s).kind == Import(true)
  {
    KindOfPlain(s);
  }

  lemma ImportIsPlain(s: string)
    requires s == IMPORT_LINE
    ensures Trimmed(s) && OneLine(s) && StartsWith(s, "from ") && OccursAt(s, "get_logger", 14)
  {
  }

  lemma ImportLine() returns (s: string)
    ensures s == IMPORT_LINE && OneLine(s) && Classify(s).kind == Import(true)
  {
    s := IMPORT_LINE;
    ImportIsPlain(s);
    KindOfImport(s);
  }

  lemma KindOfDefinition(s: string)
    requires Trimmed(s) && StartsWith(s, "logger") && IsLoggerDefinition(s)
    ensures Classify(s).kind.Logger?
  {
    KindOfPlain(s);
  }

  lemma DefinitionIsPlain(s: string)
    requires s == CANONICAL + ")"
    ensures Trimmed(s) && OneLine(s) && StartsWith(s, "logger")
  {
  }

  lemma DefinitionLine() returns (s: string)
    ensures s == CANONICAL + ")" && OneLine(s) && Classify(s).kind.Logger?
  {
    s := CanonicalLine(")");
    DefinitionIsPlain(s);
    KindOfDefinition(s);
  }

  lemma CodeLine() returns (s: string)
    ensures s == CODE_LINE && OneLine(s) && Classify(s).kind.Other?
  {
    s := CODE_LINE;
    ShortLineKind(s);
  }

  lemma ShortLineKind(s: string)
    requires 0 < |s| < 5 && Trimmed(s) && s[0] != '"' && s[0] != '\'' && s[0] != '#' && s[0] != 'l'
    ensures Classify(s).kind.Other?
  {
    KindOfPlain(s);
    assert !IsImport(s);
    NotADefinition(s);
  }

  /** Lines of the given kinds, with `n` empty lines behind the first one. */
  function DriftingLines(importing: string, n: nat, definition: string, code: string): seq<string> {
    [importing] + Repeat("", n) + [definition, code]
  }

  lemma TokensOfDrifting(importing: string, n: nat, definition: string, code: string)
    ensures Tokens(DriftingLines(importing, n, definition, code)) ==
            [Classify(importing)] + Repeat(Classify(""), n) + [Classify(definition), Classify(code)]
  {
    MapAround(Classify, importing, "", n, definition, code);
  }

  lemma DriftingOneLines(importing: string, n: nat, definition: string, code: string)
    requires OneLine(importing) && OneLine(definition) && OneLine(code)
    ensures OneLines(DriftingLines(importing, n, definition, code)) && DriftingLines(importing, n, definition, code) != []
  {
  }

  /** An import of get_logger, more than twenty empty lines, a definition and a line of code: every
      such text drifts. */
  lemma DriftingText(importing: string, n: nat, definition: string, code: string)
    requires 20 < n && OneLine(importing) && OneLine(definition) && OneLine(code)
    requires Classify(importing).kind == Import(true)
    requires Classify(definition).kind.Logger? && Classify(code).kind.Other?
    ensures Drifting(Tokens(Split(Join(DriftingLines(importing, n, definition, code)))))
  {
    DriftingOneLines(importing, n, definition, code);
    SplitJoin(DriftingLines(importing, n, definition, code));
    TokensOfDrifting(importing, n, definition, code);
    ClassifyEmpty();
    DriftingFile(Classify(importing), n, Classify(definition), Classify(code));
  }

  /** There is such a text: the example lines, with 21 empty lines between the first two. */
  lemma DriftingExample() returns (importing: string, definition: string, code: string)
    ensures importing == IMPORT_LINE && definition == CANONICAL + ")" && code == CODE_LINE
    ensures Drifting(Tokens(Split(Join(DriftingLines(importing, 21, definition, code)))))
  {
    importing := ImportLine();
    definition := DefinitionLine();
    code := CodeLine();
    DriftingText(importing, 21, definition, code);
  }
}
