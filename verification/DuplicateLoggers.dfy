/** scripts/fix_duplicate_loggers.py: only the first logger definition of a file survives. */
module DuplicateLoggers {
  import opened Text
  import opened LineEdits
  import opened LoggerLines

  // ---- reference: a single pass over the lines ----

  /** Every definition behind the first one is dropped if it has the canonical spelling. */
  function Dedup<T>(lines: seq<T>, isDefinition: T -> bool, canonical: T -> bool, seen: bool): (r: seq<T>)
    ensures |r| <= |lines|
  {
    if lines == [] then []
    else
      var l := lines[0];
      var rest := Dedup(lines[1..], isDefinition, canonical, seen || isDefinition(l));
      if seen && isDefinition(l) && canonical(l) then rest else [l] + rest
  }

  lemma {:induction false} DedupIdempotent<T>(lines: seq<T>, isDefinition: T -> bool, canonical: T -> bool, seen: bool)
    ensures var once := Dedup(lines, isDefinition, canonical, seen);
            Dedup(once, isDefinition, canonical, seen) == once
    decreases |lines|
  {
    if lines != [] {
      var l := lines[0];
      var rest := Dedup(lines[1..], isDefinition, canonical, seen || isDefinition(l));
      DedupIdempotent(lines[1..], isDefinition, canonical, seen || isDefinition(l));
      assert ([l] + rest)[1..] == rest;
    }
  }

  /** The definitions behind the first one that are spelled differently. */
  function OddlySpelled<T>(lines: seq<T>, isDefinition: T -> bool, canonical: T -> bool, seen: bool): nat {
    if lines == [] then 0
    else
      (if seen && isDefinition(lines[0]) && !canonical(lines[0]) then 1 else 0)
      + OddlySpelled(lines[1..], isDefinition, canonical, seen || isDefinition(lines[0]))
  }

  /** One definition is left, plus every later one the pass does not recognise by its spelling. */
  lemma {:induction false} DefinitionsLeft<T>(lines: seq<T>, isDefinition: T -> bool, canonical: T -> bool, seen: bool)
    ensures CountIf(Dedup(lines, isDefinition, canonical, seen), isDefinition) ==
            OddlySpelled(lines, isDefinition, canonical, seen)
            + if !seen && CountIf(lines, isDefinition) > 0 then 1 else 0
    decreases |lines|
  {
    if lines != [] {
      var l := lines[0];
      var rest := Dedup(lines[1..], isDefinition, canonical, seen || isDefinition(l));
      DefinitionsLeft(lines[1..], isDefinition, canonical, seen || isDefinition(l));
      assert ([l] + rest)[1..] == rest;
    }
  }

  /** The first definition has the canonical spelling. */
  predicate FirstIsCanonical<T>(lines: seq<T>, isDefinition: T -> bool, canonical: T -> bool) {
    lines != [] &&
    if isDefinition(lines[0]) then canonical(lines[0])
    else FirstIsCanonical(lines[1..], isDefinition, canonical)
  }

  /** A canonical definition is left exactly when the first definition is one, and then only one. */
  lemma {:induction false} CanonicalLeft<T(!new)>(lines: seq<T>, isDefinition: T -> bool, canonical: T -> bool,
                                                    both: T -> bool, seen: bool)
    requires forall l :: both(l) == (isDefinition(l) && canonical(l))
    ensures CountIf(Dedup(lines, isDefinition, canonical, seen), both) ==
            if !seen && FirstIsCanonical(lines, isDefinition, canonical) then 1 else 0
    decreases |lines|
  {
    if lines != [] {
      var l := lines[0];
      var rest := Dedup(lines[1..], isDefinition, canonical, seen || isDefinition(l));
      CanonicalLeft(lines[1..], isDefinition, canonical, both, seen || isDefinition(l));
      assert ([l] + rest)[1..] == rest;
    }
  }

  // ---- index-based removal, as the script does it ----

  /** Some line in front of line `i` is a definition. */
  ghost predicate Earlier<T>(lines: seq<T>, isDefinition: T -> bool, i: int)
    requires i <= |lines|
  {
    exists j :: 0 <= j < i && isDefinition(lines[j])
  }

  /** `i` is the index of a definition that has another one in front of it. */
  ghost predicate Duplicate<T>(lines: seq<T>, isDefinition: T -> bool, i: int) {
    0 <= i < |lines| && isDefinition(lines[i]) && Earlier(lines, isDefinition, i)
  }

  predicate Dropped(drop: set<int>, base: int, i: int) {
    base + i in drop
  }

  lemma EarlierInRest<T>(lines: seq<T>, isDefinition: T -> bool, i: int)
    requires 0 <= i < |lines|
    ensures Earlier(lines, isDefinition, i + 1) <==> isDefinition(lines[0]) || Earlier(lines[1..], isDefinition, i)
  {
    if j :| 0 <= j < i && isDefinition(lines[1..][j]) {
      assert lines[j + 1] == lines[1..][j];
    }
    if j :| 0 <= j < i + 1 && isDefinition(lines[j]) {
      assert j > 0 ==> lines[1..][j - 1] == lines[j];
    }
  }

  lemma {:induction false} DropIsDedup<T>(lines: seq<T>, base: int, isDefinition: T -> bool, canonical: T -> bool,
                                          seen: bool, drop: set<int>)
    requires forall i :: 0 <= i < |lines| ==>
               (Dropped(drop, base, i) <==>
                isDefinition(lines[i]) && canonical(lines[i]) && (seen || Earlier(lines, isDefinition, i)))
    ensures Drop(lines, base, drop) == Dedup(lines, isDefinition, canonical, seen)
    decreases |lines|
  {
    if lines != [] {
      var rest, l := lines[1..], lines[0];
      forall i | 0 <= i < |rest|
        ensures Dropped(drop, base + 1, i) <==>
                isDefinition(rest[i]) && canonical(rest[i])
                && (seen || isDefinition(l) || Earlier(rest, isDefinition, i))
      {
        EarlierInRest(lines, isDefinition, i);
        assert Dropped(drop, base + 1, i) == Dropped(drop, base, i + 1);
      }
      DropIsDedup(rest, base + 1, isDefinition, canonical, seen || isDefinition(l), drop);
      assert Dropped(drop, base, 0) <==> base in drop;
    }
  }

  /** analyze_logger_definitions: the indices of all definitions, in order. */
  method AnalyzeLoggerDefinitions<T>(lines: seq<T>, isDefinition: T -> bool) returns (loggerLines: seq<nat>)
    ensures Lists(loggerLines, lines, isDefinition)
  {
    loggerLines := [];
    for i := 0 to |lines|
      invariant forall k :: 0 <= k < |loggerLines| ==> loggerLines[k] < i && isDefinition(lines[loggerLines[k]])
      invariant forall j :: 0 <= j < i && isDefinition(lines[j]) ==> j in loggerLines
      invariant forall j, k :: 0 <= j < k < |loggerLines| ==> loggerLines[j] < loggerLines[k]
    {
      if isDefinition(lines[i]) {
        loggerLines := loggerLines + [i];
      }
    }
  }

  /** Whatever the end of the import section is, the first definition is kept and all others are listed. */
  method ChooseKept(loggerLines: seq<nat>, importEnd: nat) returns (keep: nat, removeLines: seq<nat>)
    requires |loggerLines| > 1
    requires forall j, k :: 0 <= j < k < |loggerLines| ==> loggerLines[j] < loggerLines[k]
    ensures keep == loggerLines[0] && removeLines == loggerLines[1..]
  {
    var kept := false;
    keep, removeLines := 0, [];
    for n := 0 to |loggerLines|
      invariant kept <==> n > 0 && loggerLines[0] <= importEnd + 5
      invariant kept ==> keep == loggerLines[0] && removeLines == loggerLines[1..n]
      invariant !kept ==> removeLines == loggerLines[..n]
    {
      var lineNum := loggerLines[n];
      if lineNum <= importEnd + 5 {
        if !kept {
          kept, keep := true, lineNum;
        } else {
          removeLines := removeLines + [lineNum];
        }
      } else {
        removeLines := removeLines + [lineNum];
      }
    }
    if !kept {
      keep, removeLines := loggerLines[0], loggerLines[1..];
    }
  }

  /** Popping from the back, skipping what is not spelled canonically. */
  method PopDuplicates<T>(original: seq<T>, removeLines: seq<nat>, canonical: T -> bool)
    returns (lines: seq<T>, changes: nat)
    requires forall j, k :: 0 <= j < k < |removeLines| ==> removeLines[j] < removeLines[k]
    requires forall k :: 0 <= k < |removeLines| ==> removeLines[k] < |original|
    ensures lines == Drop(original, 0, set q | q in removeLines && canonical(original[q]))
    ensures changes == |original| - |lines|
  {
    lines, changes := original, 0;
    var n := |removeLines|;
    ghost var popped: set<int> := {};
    DropNothing(original, 0, {});
    while n > 0
      invariant 0 <= n <= |removeLines|
      invariant popped == set q | q in removeLines[n..] && canonical(original[q])
      invariant lines == Drop(original, 0, popped) && changes == |original| - |lines|
    {
      n := n - 1;
      var lineNum := removeLines[n];
      assert removeLines[n..] == [lineNum] + removeLines[n + 1..];
      PopInFront(original, popped, lineNum);
      if lineNum < |lines| {
        assert lines[lineNum] == lines[..lineNum + 1][lineNum] == original[..lineNum + 1][lineNum];
        if canonical(lines[lineNum]) {
          lines := lines[..lineNum] + lines[lineNum + 1..];
          changes := changes + 1;
          popped := popped + {lineNum};
        }
      }
    }
    assert removeLines[0..] == removeLines;
  }

  /** `positions` are the indices of all definitions, in order. */
  ghost predicate Lists<T>(positions: seq<nat>, lines: seq<T>, isDefinition: T -> bool) {
    && (forall k :: 0 <= k < |positions| ==> positions[k] < |lines| && isDefinition(lines[positions[k]]))
    && (forall i :: 0 <= i < |lines| && isDefinition(lines[i]) ==> i in positions)
    && (forall j, k :: 0 <= j < k < |positions| ==> positions[j] < positions[k])
  }

  lemma DuplicateIffListed<T>(lines: seq<T>, isDefinition: T -> bool, positions: seq<nat>, i: nat)
    requires Lists(positions, lines, isDefinition) && i < |lines|
    ensures Duplicate(lines, isDefinition, i) <==> positions != [] && i in positions[1..]
  {
    if positions != [] && i in positions[1..] {
      assert isDefinition(lines[positions[0]]) && positions[0] < i;
    }
    if Duplicate(lines, isDefinition, i) {
      var j :| 0 <= j < i && isDefinition(lines[j]);
      assert j in positions && i in positions;
      assert i != positions[0];
    }
  }

  lemma ListedIsDedup<T>(lines: seq<T>, isDefinition: T -> bool, canonical: T -> bool,
                         positions: seq<nat>, drop: set<int>)
    requires Lists(positions, lines, isDefinition)
    requires forall i :: 0 <= i < |lines| ==>
               (i in drop <==> positions != [] && i in positions[1..] && canonical(lines[i]))
    ensures Drop(lines, 0, drop) == Dedup(lines, isDefinition, canonical, false)
  {
    forall i | 0 <= i < |lines|
      ensures Dropped(drop, 0, i) <==> Duplicate(lines, isDefinition, i) && canonical(lines[i])
    {
      DuplicateIffListed(lines, isDefinition, positions, i);
    }
    DropIsDedup(lines, 0, isDefinition, canonical, false, drop);
  }

  /** fix_duplicate_loggers on the lines of a file. The result does not depend on `importEnd`. */
  method FixDuplicateLines<T>(original: seq<T>, isDefinition: T -> bool, canonical: T -> bool, importEnd: nat)
    returns (lines: seq<T>, changes: nat)
    ensures lines == Dedup(original, isDefinition, canonical, false)
    ensures changes == |original| - |lines|
  {
    var loggerLines := AnalyzeLoggerDefinitions(original, isDefinition);
    if |loggerLines| <= 1 {
      DropNothing(original, 0, {});
      ListedIsDedup(original, isDefinition, canonical, loggerLines, {});
      return original, 0;
    }
    var keep, removeLines := ChooseKept(loggerLines, importEnd);
    lines, changes := PopDuplicates(original, removeLines, canonical);
    ListedIsDedup(original, isDefinition, canonical, loggerLines, set q | q in removeLines && canonical(original[q]));
  }

  // ---- on the text of a file ----

  predicate IsCanonical(line: string) {
    Contains(line, CANONICAL)
  }

  predicate ImportSectionLine(stripped: string) {
    || StartsWith(stripped, "import ") || StartsWith(stripped, "from ")
    || StartsWith(stripped, "sys.path.") || StartsWith(stripped, "load_dotenv(")
  }

  /** find_import_section_end. */
  method FindImportSectionEnd(lines: seq<string>) returns (importEnd: nat)
    ensures importEnd <= |lines|
  {
    importEnd := 0;
    var inDocstring, docstringChar := false, "'''";
    for i := 0 to |lines|
      invariant importEnd <= i && docstringChar != ""
    {
      var stripped := Strip(lines[i]);
      if !inDocstring {
        if StartsWith(stripped, "\"\"\"") || StartsWith(stripped, "'''") {
          docstringChar := stripped[..3];
          if Count(stripped, docstringChar) == 1 {
            inDocstring := true;
          }
        }
      } else if Contains(stripped, docstringChar) {
        inDocstring := false;
        continue;
      }
      if inDocstring || stripped == "" || StartsWith(stripped, "#") {
        continue;
      }
      if ImportSectionLine(stripped) {
        importEnd := i + 1;
      } else {
        break;
      }
    }
  }

  /** The lines of a file without its duplicate definitions. */
  function Deduplicated(lines: seq<string>): seq<string> {
    Dedup(lines, IsLoggerDefinition, IsCanonical, false)
  }

  function FixedText(content: string): string {
    Concat(Deduplicated(ReadLines(content)))
  }

  lemma ConcatReadLines(content: string)
    ensures Concat(ReadLines(content)) == content
  {
    ConcatTerminated(Split(content));
    JoinSplit(content);
  }

  lemma {:induction false} DedupShorter<T>(lines: seq<T>, isDefinition: T -> bool, canonical: T -> bool, seen: bool)
    requires |Dedup(lines, isDefinition, canonical, seen)| == |lines|
    ensures Dedup(lines, isDefinition, canonical, seen) == lines
    decreases |lines|
  {
    if lines != [] {
      DedupShorter(lines[1..], isDefinition, canonical, seen || isDefinition(lines[0]));
    }
  }

  /** fix_duplicate_loggers: the file is written only when something was removed. */
  method FixDuplicateLoggers(content: string) returns (changes: nat, newContent: string)
    ensures newContent == FixedText(content)
    ensures changes == |ReadLines(content)| - |Deduplicated(ReadLines(content))|
  {
    var lines := ReadLines(content);
    var importEnd := FindImportSectionEnd(lines);
    var fixed;
    fixed, changes := FixDuplicateLines(lines, IsLoggerDefinition, IsCanonical, importEnd);
    if changes > 0 {
      newContent := Concat(fixed);
    } else {
      DedupShorter(lines, IsLoggerDefinition, IsCanonical, false);
      ConcatReadLines(content);
      newContent := content;
    }
  }

  lemma {:induction false} DedupFileLines(lines: seq<string>, isDefinition: string -> bool, canonical: string -> bool, seen: bool)
    requires FileLines(lines)
    ensures FileLines(Dedup(lines, isDefinition, canonical, seen))
    decreases |lines|
  {
    if lines != [] {
      DedupFileLines(lines[1..], isDefinition, canonical, seen || isDefinition(lines[0]));
      assert |lines| > 1 ==> EndsItsLine(lines[0]);
    }
  }

  /** The next run reads back the lines this run wrote. */
  lemma ReadBack(content: string)
    ensures ReadLines(FixedText(content)) == Deduplicated(ReadLines(content))
  {
    TerminatedFileLines(Split(content));
    DedupFileLines(ReadLines(content), IsLoggerDefinition, IsCanonical, false);
    ReadConcat(Deduplicated(ReadLines(content)));
  }

  /** Running the script again changes nothing. */
  lemma FixIsIdempotent(content: string)
    ensures FixedText(FixedText(content)) == FixedText(content)
  {
    ReadBack(content);
    DedupIdempotent(ReadLines(content), IsLoggerDefinition, IsCanonical, false);
  }

  /** A run leaves exactly one definition if and only if there was one and no later one is oddly spelled. */
  lemma OneDefinitionLeft(content: string)
    ensures var lines := ReadLines(content);
            CountIf(ReadLines(FixedText(content)), IsLoggerDefinition) == 1 <==>
            && CountIf(lines, IsLoggerDefinition) > 0
            && OddlySpelled(lines, IsLoggerDefinition, IsCanonical, false) == 0
  {
    ReadBack(content);
    DefinitionsLeft(ReadLines(content), IsLoggerDefinition, IsCanonical, false);
    OddlySpelledAreDefinitions(ReadLines(content), IsLoggerDefinition, IsCanonical);
  }

  lemma {:induction false} OddlySpelledAreDefinitions<T>(lines: seq<T>, isDefinition: T -> bool, canonical: T -> bool)
    ensures CountIf(lines, isDefinition) == 0 ==> OddlySpelled(lines, isDefinition, canonical, false) == 0
    decreases |lines|
  {
    if lines != [] {
      OddlySpelledAreDefinitions(lines[1..], isDefinition, canonical);
    }
  }
}
