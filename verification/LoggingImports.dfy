/** scripts/convert_prints_to_logs.py (add_logging_import) and scripts/fix_logging_imports.py:
    the logging import of a file is put below its first block of imports. */
module LoggingImports {
  import opened Common
  import opened Text
  import opened LineEdits
  import opened LoggerLines
  import opened DuplicateLoggers
  import opened ImportScan

  const COMMENT := "# 导入日志模块"
  const PACKAGE := "tradingagents.utils"
  const IMPORT := "from " + PACKAGE + ".logging_manager" + " import get_logger"

  function MarkOf(line: string, s: string): Mark {
    if StartsWith(s, DOUBLE_QUOTES) then Opens(Double, !EndsWith(s, DOUBLE_QUOTES) || |s| == 3)
    else if StartsWith(s, SINGLE_QUOTES) then Opens(Single, !EndsWith(s, SINGLE_QUOTES) || |s| == 3)
    else if s == "" || StartsWith(s, "#") then Skipped
    else if (StartsWith(s, "import ") || StartsWith(s, "from ")) && !Contains(line, "logging_manager") then Import
    else Code
  }

  function Classify(line: string): Token {
    var s := Strip(line);
    Token(MarkOf(line, s), EndsWith(s, DOUBLE_QUOTES), EndsWith(s, SINGLE_QUOTES))
  }

  function Tokens(lines: seq<string>): seq<Token> {
    Map(Classify, lines)
  }

  /** The logger name chosen from the path of the file relative to the project root. */
  function LoggerName(path: string): (r: string)
    ensures |r| <= 13 && OneLine(r) && '#' !in r
  {
    if Contains(path, "web") then "web"
    else if Contains(path, "tradingagents") then
      if Contains(path, "agents") then "agents"
      else if Contains(path, "dataflows") then "dataflows"
      else if Contains(path, "llm_adapters") then "llm_adapters"
      else if Contains(path, "utils") then "utils"
      else "tradingagents"
    else if Contains(path, "cli") then "cli"
    else if Contains(path, "scripts") then "scripts"
    else "default"
  }

  function DefinitionLine(path: string): string {
    "logger = get_logger(" + ("'" + LoggerName(path) + "')")
  }

  /** The four inserted lines. */
  function ImportBlock(path: string): (r: seq<string>)
    ensures |r| == 4
  {
    ["", COMMENT, IMPORT, DefinitionLine(path)]
  }

  function WithImport(lines: seq<string>, path: string): seq<string> {
    InsertBelowFirstImportBlock(Tokens(lines));
    Insert(lines, InsertPosition(Tokens(lines)), ImportBlock(path))
  }

  /** Four successive insertions, each behind the previous one. */
  method InsertFour<T>(original: seq<T>, at: nat, block: seq<T>) returns (lines: seq<T>)
    requires at <= |original| && |block| == 4
    ensures lines == Insert(original, at, block)
  {
    lines := original;
    for k := 0 to 4
      invariant lines == Insert(original, at, block[..k])
    {
      InsertBehind(original, at, block[..k], [block[k]]);
      assert block[..k + 1] == block[..k] + [block[k]];
      lines := Insert(lines, at + k, [block[k]]);
    }
    assert block[..4] == block;
  }

  method InsertImport(original: seq<string>, path: string) returns (lines: seq<string>)
    ensures lines == WithImport(original, path)
  {
    var insertPos := FindInsertPosition(Tokens(original));
    InsertBelowFirstImportBlock(Tokens(original));
    lines := InsertFour(original, insertPos, ImportBlock(path));
  }

  // ---- add_logging_import ----

  function Added(content: string, path: string): string {
    if Contains(content, IMPORT) then content else Join(WithImport(Split(content), path))
  }

  method AddLoggingImport(content: string, path: string) returns (newContent: string)
    ensures newContent == Added(content, path)
  {
    if Contains(content, IMPORT) {
      return content;
    }
    var lines := InsertImport(Split(content), path);
    newContent := Join(lines);
  }

  lemma ContainsConcat(a: string, b: string, p: string)
    ensures Contains(a, p) || Contains(b, p) ==> Contains(a + b, p)
  {
    if Contains(a, p) {
      var i :| 0 <= i <= |a| && OccursAt(a, p, i);
      assert (a + b)[i..i + |p|] == a[i..i + |p|];
      assert OccursAt(a + b, p, i);
    }
    if Contains(b, p) {
      var i :| 0 <= i <= |b| && OccursAt(b, p, i);
      assert (a + b)[|a| + i..|a| + i + |p|] == b[i..i + |p|];
      assert OccursAt(a + b, p, |a| + i);
    }
  }

  /** A line of a text is a part of it. */
  lemma {:induction false} LineInText(lines: seq<string>, k: nat, p: string)
    requires k < |lines| && Contains(lines[k], p)
    ensures Contains(Join(lines), p)
    decreases |lines|
  {
    if |lines| > 1 {
      var rest := Join(lines[1..]);
      if k > 0 {
        LineInText(lines[1..], k - 1, p);
      }
      ContainsConcat(lines[0], "\n", p);
      ContainsConcat(lines[0] + "\n", rest, p);
    }
  }

  lemma ContainsBounds(s: string, p: string)
    requires Contains(s, p) && p != ""
    ensures |p| <= |s| && p[0] in s
  {
    var i :| 0 <= i <= |s| && OccursAt(s, p, i);
    assert s[i] == s[i..i + |p|][0];
  }

  predicate HasImport(line: string) {
    Contains(line, IMPORT)
  }

  predicate HasComment(line: string) {
    Contains(line, COMMENT)
  }

  lemma ContainsSelf(s: string)
    ensures Contains(s, s)
  {
    assert OccursAt(s, s, 0);
  }

  lemma BlockImports(path: string)
    ensures CountIf(ImportBlock(path), HasImport) == 1
    ensures forall k :: 0 <= k < 4 ==> (HasImport(ImportBlock(path)[k]) <==> k == 2)
  {
    var block := ImportBlock(path);
    ContainsSelf(IMPORT);
    forall k | 0 <= k < 4 && k != 2
      ensures !HasImport(block[k])
    {
      if HasImport(block[k]) {
        ContainsBounds(block[k], IMPORT);
      }
    }
    CountBlock(block, HasImport);
  }

  /** A line without `#` is no comment. */
  lemma NoHashNoComment(line: string)
    requires '#' !in line
    ensures !HasComment(line)
  {
    if HasComment(line) {
      ContainsBounds(line, COMMENT);
    }
  }

  lemma ImportHasNoHash()
    ensures '#' !in IMPORT
  {
    assert '#' !in PACKAGE && '#' !in ".logging_manager" && '#' !in " import get_logger";
  }

  lemma BlockComments(path: string)
    ensures CountIf(ImportBlock(path), HasComment) == 1
    ensures forall k :: 0 <= k < 4 ==> (HasComment(ImportBlock(path)[k]) <==> k == 1)
  {
    ContainsSelf(COMMENT);
    ImportHasNoHash();
    NoHashNoComment("");
    NoHashNoComment(IMPORT);
    NoHashNoComment(DefinitionLine(path));
    CountBlock(ImportBlock(path), HasComment);
  }

  lemma CountBlock<T>(block: seq<T>, p: T -> bool)
    requires |block| == 4
    ensures CountIf(block, p) == (if p(block[0]) then 1 else 0) + (if p(block[1]) then 1 else 0)
                                 + (if p(block[2]) then 1 else 0) + (if p(block[3]) then 1 else 0)
  {
    var a, b, c := block[1..], block[2..], block[3..];
    assert a[1..] == b && b[1..] == c && c[1..] == [];
    assert CountIf(c, p) == if p(block[3]) then 1 else 0;
    assert CountIf(b, p) == (if p(block[2]) then 1 else 0) + CountIf(c, p);
    assert CountIf(a, p) == (if p(block[1]) then 1 else 0) + CountIf(b, p);
  }

  // ---- add_logging_import: results ----

  lemma BlockOneLines(path: string)
    ensures OneLines(ImportBlock(path))
  {
    assert OneLine(PACKAGE) && OneLine(".logging_manager") && OneLine(" import get_logger");
  }

  lemma WithImportLines(lines: seq<string>, path: string)
    requires OneLines(lines)
    ensures OneLines(WithImport(lines, path)) && WithImport(lines, path) != []
    ensures Split(Join(WithImport(lines, path))) == WithImport(lines, path)
  {
    BlockOneLines(path);
    InsertBelowFirstImportBlock(Tokens(lines));
    InsertOneLines(lines, InsertPosition(Tokens(lines)), ImportBlock(path));
    SplitJoin(WithImport(lines, path));
  }

  lemma InsertOneLines(lines: seq<string>, at: nat, inserted: seq<string>)
    requires at <= |lines| && OneLines(lines) && OneLines(inserted)
    ensures OneLines(Insert(lines, at, inserted))
  {
  }

  /** The inserted lines are a block, below the first block of imports; taking them out gives the input. */
  lemma AddingIsPureInsertion(content: string, path: string)
    requires !Contains(content, IMPORT)
    ensures var lines, after := Split(content), Split(Added(content, path));
            var p := InsertPosition(Tokens(lines));
            && p + 4 <= |after| && after[p..p + 4] == ImportBlock(path)
            && Join(after[..p] + after[p + 4..]) == content
  {
    var lines := Split(content);
    WithImportLines(lines, path);
    InsertBelowFirstImportBlock(Tokens(lines));
    InsertDelete(lines, InsertPosition(Tokens(lines)), ImportBlock(path));
    JoinSplit(content);
  }

  /** Once a file has the import, further runs leave it alone. */
  lemma AddingIsIdempotent(content: string, path: string, again: string)
    ensures Contains(Added(content, path), IMPORT)
    ensures Added(Added(content, path), again) == Added(content, path)
  {
    if !Contains(content, IMPORT) {
      var lines := Split(content);
      InsertBelowFirstImportBlock(Tokens(lines));
      var p := InsertPosition(Tokens(lines));
      InsertDelete(lines, p, ImportBlock(path));
      ContainsSelf(IMPORT);
      LineInText(WithImport(lines, path), p + 2, IMPORT);
    }
  }

  /** Below `tradingagents` the longer names are never chosen, whatever the directory. */
  lemma AgentsShadowsTheRest(path: string)
    requires Contains(path, "tradingagents") && !Contains(path, "web")
    ensures LoggerName(path) == "agents"
  {
    var i :| 0 <= i <= |path| && OccursAt(path, "tradingagents", i);
    assert path[i + 7..i + 13] == path[i..i + 13][7..] == "agents";
    assert OccursAt(path, "agents", i + 7);
  }

  /** Which name is chosen for which path. */
  lemma NameOfPath(path: string)
    ensures LoggerName(path) == "web" <==> Contains(path, "web")
    ensures LoggerName(path) == "agents" <==> !Contains(path, "web") && Contains(path, "tradingagents")
    ensures LoggerName(path) == "cli" <==>
            !Contains(path, "web") && !Contains(path, "tradingagents") && Contains(path, "cli")
    ensures LoggerName(path) == "scripts" <==>
            !Contains(path, "web") && !Contains(path, "tradingagents") && !Contains(path, "cli") && Contains(path, "scripts")
    ensures LoggerName(path) in {"web", "agents", "cli", "scripts", "default"}
  {
    if Contains(path, "tradingagents") && !Contains(path, "web") {
      AgentsShadowsTheRest(path);
    }
  }

  // ---- fix_logging_import_position ----

  predicate NamesImport(line: string) {
    HasComment(line) || HasImport(line)
  }

  /** A definition is removed only next to a line that is exactly `logging_manager`. */
  predicate Marked(lines: seq<string>, i: int) {
    && 0 <= i < |lines|
    && (NamesImport(lines[i])
        || (StartsWith(Strip(lines[i]), CANONICAL)
            && "logging_manager" in lines[if i < 2 then 0 else i - 2..i + 1]))
  }

  /** What is taken out: the comment, the import, and definitions with a line that is nothing but
      `logging_manager` in the same place or one or two lines above. */
  lemma MarkedIff(lines: seq<string>, i: int)
    ensures Marked(lines, i) <==>
            0 <= i < |lines| && (
              || Contains(lines[i], COMMENT) || Contains(lines[i], IMPORT)
              || (StartsWith(Strip(lines[i]), "logger = get_logger(")
                  && exists j :: 0 <= j < |lines| && i - 2 <= j <= i && lines[j] == "logging_manager"))
  {
    if 0 <= i < |lines| {
      var from := if i < 2 then 0 else i - 2;
      if "logging_manager" in lines[from..i + 1] {
        var k :| 0 <= k < |lines[from..i + 1]| && lines[from..i + 1][k] == "logging_manager";
        assert lines[from + k] == "logging_manager";
      }
      if j :| 0 <= j < |lines| && i - 2 <= j <= i && lines[j] == "logging_manager" {
        assert lines[from..i + 1][j - from] == "logging_manager";
      }
    }
  }

  function MarkedIndices(lines: seq<string>): set<int> {
    set i | 0 <= i < |lines| && Marked(lines, i)
  }

  function Unmarked(lines: seq<string>): seq<string> {
    Drop(lines, 0, MarkedIndices(lines))
  }

  function Repositioned(lines: seq<string>, path: string): seq<string> {
    if MarkedIndices(lines) == {} then lines else WithImport(Unmarked(lines), path)
  }

  function RepositionedText(content: string, path: string): string {
    Join(Repositioned(Split(content), path))
  }

  /** The indices of the lines that `marked` picks out, in order. */
  method CollectMarked(lines: seq<string>, marked: (seq<string>, int) -> bool) returns (indices: seq<nat>)
    ensures Ascending(indices) && forall k :: 0 <= k < |indices| ==> indices[k] < |lines|
    ensures Indices(indices) == set j | 0 <= j < |lines| && marked(lines, j)
  {
    indices := [];
    for i := 0 to |lines|
      invariant Ascending(indices) && forall k :: 0 <= k < |indices| ==> indices[k] < i
      invariant Indices(indices) == set j | 0 <= j < i && marked(lines, j)
    {
      if marked(lines, i) {
        IndicesAppend(indices, i);
        indices := indices + [i];
      }
    }
  }

  method FixLoggingImportPosition(content: string, path: string) returns (newContent: string)
    ensures newContent == RepositionedText(content, path)
  {
    var lines := Split(content);
    var indices := CollectMarked(lines, Marked);
    assert Indices(indices) == MarkedIndices(lines);
    if indices == [] {
      JoinSplit(content);
      return content;
    }
    assert indices[0] in MarkedIndices(lines);
    var kept := RemoveLines(lines, indices);
    var fixed := InsertImport(kept, path);
    newContent := Join(fixed);
  }

  /** A rewritten file imports the logging module on exactly one line, under one comment, and
      taking the inserted block out leaves the unmarked lines in their order. */
  lemma ExactlyOneImport(lines: seq<string>, path: string)
    requires MarkedIndices(lines) != {}
    ensures var fixed, p := Repositioned(lines, path), InsertPosition(Tokens(Unmarked(lines)));
            && CountIf(fixed, HasImport) == 1 && CountIf(fixed, HasComment) == 1
            && p + 4 <= |fixed| && fixed[p..p + 4] == ImportBlock(path)
            && fixed[..p] + fixed[p + 4..] == Unmarked(lines)
  {
    var kept, drop := Unmarked(lines), MarkedIndices(lines);
    InsertBelowFirstImportBlock(Tokens(kept));
    var p := InsertPosition(Tokens(kept));
    ImportsAreMarked(lines);
    CountReplaced(lines, drop, p, ImportBlock(path), HasImport);
    CountReplaced(lines, drop, p, ImportBlock(path), HasComment);
    BlockImports(path);
    BlockComments(path);
    InsertDelete(kept, p, ImportBlock(path));
  }

  lemma ImportsAreMarked(lines: seq<string>)
    ensures forall i :: 0 <= i < |lines| && HasImport(lines[i]) ==> i in MarkedIndices(lines)
    ensures forall i :: 0 <= i < |lines| && HasComment(lines[i]) ==> i in MarkedIndices(lines)
  {
  }
}
