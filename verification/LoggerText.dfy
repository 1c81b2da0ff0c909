/** scripts/fix_logger_position.py, read line by line on the text itself: which lines the scanner takes
    for docstrings, imports and logger definitions, and what its result says about them. */
module LoggerText {
  import opened Common
  import opened Text
  import opened LineEdits
  import opened LoggerLines
  import opened LoggerScan
  import opened LoggerPosition

  function Delimiter(q: Quote): string {
    match q
    case Double => "\"\"\""
    case Single => "'''"
  }

  /** The stripped line starts a docstring. */
  predicate Starts(s: string, q: Quote) {
    StartsWith(s, Delimiter(q))
  }

  /** And ends it again, because the delimiter comes a second time. */
  predicate OneLiner(s: string, q: Quote) {
    Starts(s, q) && Contains(s[3..], Delimiter(q))
  }

  /** Outside docstrings: a line with text that starts neither a docstring nor a comment, and starts with
      `import ` or `from `, or has `import ` somewhere and does not start with `logger`. */
  predicate ReadsAsImport(s: string) {
    && !Starts(s, Double) && !Starts(s, Single) && s != "" && s[0] != '#'
    && (StartsWith(s, "import ") || StartsWith(s, "from ") || (Contains(s, "import ") && !StartsWith(s, "logger")))
  }

  predicate MentionsLogging(s: string) {
    Contains(s, "logging_manager") || Contains(s, "get_logger")
  }

  /** What matters of the text of a line. */
  datatype Reading = Reading(
    startsDouble: bool, startsSingle: bool, oneLineDouble: bool, oneLineSingle: bool,
    imports: bool, mentions: bool, defines: bool, hasDouble: bool, hasSingle: bool)
  {
    predicate Has(q: Quote) {
      if q.Double? then hasDouble else hasSingle
    }

    /** The docstring that the next line is in, if this one is in `before`. */
    function Then(before: Option<Quote>): Option<Quote> {
      if before.Some? then (if Has(before.value) then None else before)
      else if startsDouble then (if oneLineDouble then None else Some(Double))
      else if startsSingle then (if oneLineSingle then None else Some(Single))
      else None
    }

    /** A docstring ends on this line, perhaps one that starts there. */
    predicate EndsDoc(before: Option<Quote>) {
      if before.Some? then Has(before.value) else oneLineDouble || oneLineSingle
    }
  }

  function Read(s: string): Reading {
    Reading(Starts(s, Double), Starts(s, Single), OneLiner(s, Double), OneLiner(s, Single),
            ReadsAsImport(s), MentionsLogging(s), IsLoggerDefinition(s),
            Contains(s, Delimiter(Double)), Contains(s, Delimiter(Single)))
  }

  function Readings(lines: seq<string>): (rs: seq<Reading>)
    ensures |rs| == |lines|
  {
    seq(|lines|, i requires 0 <= i < |lines| => Read(Strip(lines[i])))
  }

  /** The docstring that line `n` is in, if any. */
  function InsideOf(rs: seq<Reading>, n: nat): Option<Quote>
    requires n <= |rs|
  {
    if n == 0 then None else rs[n - 1].Then(InsideOf(rs, n - 1))
  }

  predicate ImportsAt(rs: seq<Reading>, j: int) {
    0 <= j < |rs| && InsideOf(rs, j).None? && rs[j].imports
  }

  predicate LoggingImportAt(rs: seq<Reading>, j: int) {
    ImportsAt(rs, j) && rs[j].mentions
  }

  predicate DefinesAt(rs: seq<Reading>, j: int) {
    0 <= j < |rs| && InsideOf(rs, j).None? && rs[j].defines
  }

  predicate DocEndsAt(rs: seq<Reading>, j: int) {
    0 <= j < |rs| && rs[j].EndsDoc(InsideOf(rs, j))
  }

  // ---- one line ----

  lemma {:induction false} CountedIsContained(s: string, p: string)
    requires p != ""
    ensures Count(s, p) > 0 <==> Contains(s, p)
    decreases |s|
  {
    if |p| <= |s| {
      if p <= s {
        assert OccursAt(s, p, 0);
      } else {
        CountedIsContained(s[1..], p);
        ShiftContained(s, p);
      }
    }
  }

  lemma ShiftContained(s: string, p: string)
    requires s != "" && !(p <= s) && p != ""
    ensures Contains(s, p) <==> Contains(s[1..], p)
  {
    if Contains(s, p) {
      var i :| 0 <= i <= |s| && OccursAt(s, p, i);
      NotAtFront(s, p, i);
      SliceBehind(s, i, |p|);
      assert OccursAt(s[1..], p, i - 1);
    }
    if Contains(s[1..], p) {
      var i :| 0 <= i <= |s| - 1 && OccursAt(s[1..], p, i);
      SliceBehind(s, i + 1, |p|);
      assert OccursAt(s, p, i + 1);
    }
  }

  lemma NotAtFront(s: string, p: string, i: int)
    requires OccursAt(s, p, i) && !(p <= s)
    ensures i > 0
  {
  }

  lemma SliceBehind(s: string, i: nat, n: nat)
    requires 1 <= i && i + n <= |s|
    ensures s[1..][i - 1..i - 1 + n] == s[i..i + n]
  {
  }

  lemma TwiceIsOneLiner(s: string, p: string)
    requires |p| == 3 && p <= s
    ensures Count(s, p) >= 2 <==> Contains(s[3..], p)
  {
    CountedIsContained(s[3..], p);
  }

  lemma MatchStarts(s: string, a: string, b: string, c: string, d: string)
    requires Matches(s, a, b, c, d)
    ensures a <= LStrip(s)
  {
  }

  lemma DefinitionStarts(s: string)
    requires Trimmed(s) && IsLoggerDefinition(s)
    ensures StartsWith(s, "logger")
  {
    MatchStarts(s, "logger", "=", "get_logger", "(");
    LeftTrimmed(s);
  }

  lemma LoggerIsPlain(s: string)
    requires StartsWith(s, "logger")
    ensures s != "" && s[0] != '#' && !Starts(s, Double) && !Starts(s, Single)
    ensures !StartsWith(s, "import ") && !StartsWith(s, "from ")
  {
    assert s[0] == 'l';
  }

  /** What the classification of a trimmed line says about its text. */
  lemma KindTells(s: string)
    requires Trimmed(s)
    ensures var kind := KindOf(s);
            && (kind.Opens? <==> Starts(s, Double) || Starts(s, Single))
            && (kind.Opens? ==> Starts(s, kind.quote) && (kind.closes <==> OneLiner(s, kind.quote)))
            && (kind.Import? <==> ReadsAsImport(s))
            && (kind.Import? ==> (kind.logging <==> MentionsLogging(s)))
            && (kind.Logger? <==> IsLoggerDefinition(s))
  {
    if IsLoggerDefinition(s) {
      DefinitionStarts(s);
      LoggerIsPlain(s);
    }
    if Starts(s, Double) {
      TwiceIsOneLiner(s, DOUBLE_QUOTES);
    } else if Starts(s, Single) {
      TwiceIsOneLiner(s, SINGLE_QUOTES);
    }
  }

  /** A classified line and a reading of the same line. */
  predicate Agree(t: Token, r: Reading) {
    && (t.kind.Opens? <==> r.startsDouble || r.startsSingle)
    && (t.kind.Opens? ==>
          if t.kind.quote.Double? then r.startsDouble && (t.kind.closes <==> r.oneLineDouble)
          else r.startsSingle && (t.kind.closes <==> r.oneLineSingle))
    && !(r.startsDouble && r.startsSingle)
    && (r.oneLineDouble ==> r.startsDouble) && (r.oneLineSingle ==> r.startsSingle)
    && (t.kind.Import? <==> r.imports) && (t.kind.Import? ==> (t.kind.logging <==> r.mentions))
    && (t.kind.Logger? <==> r.defines)
    && t.closesDouble == r.hasDouble && t.closesSingle == r.hasSingle
  }

  lemma OneStart(s: string)
    ensures !(Starts(s, Double) && Starts(s, Single))
  {
    assert Starts(s, Double) ==> s[0] == '"';
    assert Starts(s, Single) ==> s[0] == '\'';
  }

  /** The classification of a line asks exactly for what a reader of its text wants to know. */
  lemma LineAgrees(line: string)
    ensures Agree(Classify(line), Read(Strip(line)))
  {
    StripTrims(line);
    KindTells(Strip(line));
    OneStart(Strip(line));
  }

  /** One step of the scanner, on a line that is in `inside`. */
  lemma StepAgrees(sc: Scanner, n: nat, t: Token, r: Reading, inside: Option<Quote>)
    requires Agree(t, r) && inside == if sc.inDocstring then Some(sc.quote) else None
    ensures var next, outside := ScanLine(sc, n, t), inside.None?;
            && r.Then(inside) == (if next.inDocstring then Some(next.quote) else None)
            && next.st.docstringEnd == (if r.EndsDoc(inside) then n + 1 else sc.st.docstringEnd)
            && next.st.lastImport == (if outside && r.imports then n + 1 else sc.st.lastImport)
            && (next.st.hasLoggingImport <==> sc.st.hasLoggingImport || (outside && r.imports && r.mentions))
            && next.st.loggerPositions == (if outside && r.defines then sc.st.loggerPositions + [n] else sc.st.loggerPositions)
            && (next.st.properLoggerExists <==>
                  sc.st.properLoggerExists || (outside && r.defines && n <= sc.st.lastImport + 10))
  {
  }

  /** The scanner's state in front of line `n`, in terms of the text. */
  predicate StateTells(rs: seq<Reading>, n: nat, sc: Scanner)
    requires n <= |rs|
  {
    InsideOf(rs, n) == if sc.inDocstring then Some(sc.quote) else None
  }

  // ---- the result of the scan, on the text ----

  /** `end` is the number of the line below the last of the first `n` lines with the property, 0 without any. */
  ghost predicate BelowLast(end: nat, n: nat, has: int -> bool) {
    && end <= n && (end > 0 ==> has(end - 1))
    && forall j :: end <= j < n ==> !has(j)
  }

  /** `positions` are the numbers of those of the first `n` lines with the property, in order. */
  ghost predicate AllOf(positions: seq<nat>, n: nat, has: int -> bool) {
    && (forall i, j :: 0 <= i < j < |positions| ==> positions[i] < positions[j])
    && (forall i :: 0 <= i < |positions| ==> positions[i] < n && has(positions[i]))
    && (forall q: nat :: q < n && has(q) ==> q in positions)
  }

  /** An import stands at most ten lines above `q`, or the top of the file does. */
  ghost predicate NearImport(imports: int -> bool, q: int) {
    q <= 10 || exists j :: 0 <= j < q <= j + 11 && imports(j)
  }

  /** What a structure says about the first `n` lines: where docstrings end, where imports and logging
      imports are, and where loggers are defined. */
  ghost predicate Tells(n: nat, st: Structure, ends: int -> bool, imports: int -> bool, logging: int -> bool,
                        defines: int -> bool) {
    && BelowLast(st.docstringEnd, n, ends)
    && BelowLast(st.lastImport, n, imports)
    && AllOf(st.loggerPositions, n, defines)
    && (st.hasLoggingImport <==> exists j :: 0 <= j < n && logging(j))
    && (st.properLoggerExists <==> exists q :: 0 <= q < n && defines(q) && NearImport(imports, q))
  }

  lemma NextBelowLast(end: nat, n: nat, has: int -> bool)
    requires BelowLast(end, n, has)
    ensures BelowLast(if has(n) then n + 1 else end, n + 1, has)
  {
  }

  lemma NearLast(last: nat, n: nat, imports: int -> bool)
    requires BelowLast(last, n, imports)
    ensures n <= last + 10 <==> NearImport(imports, n)
  {
    if 0 < last && n <= last + 10 {
      assert imports(last - 1) && 0 <= last - 1 < n <= last - 1 + 11;
    }
  }

  lemma NextAllOf(positions: seq<nat>, n: nat, has: int -> bool)
    requires AllOf(positions, n, has)
    ensures AllOf(if has(n) then positions + [n] else positions, n + 1, has)
  {
    var next := if has(n) then positions + [n] else positions;
    forall q: nat | q < n + 1 && has(q) ensures q in next {
      if q == n {
        assert next[|next| - 1] == n;
      }
    }
  }

  lemma NextExists(n: nat, has: int -> bool)
    ensures (exists j :: 0 <= j < n + 1 && has(j)) <==> has(n) || exists j :: 0 <= j < n && has(j)
  {
  }

  lemma NextTells(n: nat, st: Structure, next: Structure, ends: int -> bool, imports: int -> bool,
                  logging: int -> bool, defines: int -> bool)
    requires Tells(n, st, ends, imports, logging, defines)
    requires next.docstringEnd == if ends(n) then n + 1 else st.docstringEnd
    requires next.lastImport == if imports(n) then n + 1 else st.lastImport
    requires next.loggerPositions == if defines(n) then st.loggerPositions + [n] else st.loggerPositions
    requires next.hasLoggingImport <==> st.hasLoggingImport || logging(n)
    requires next.properLoggerExists <==> st.properLoggerExists || (defines(n) && n <= st.lastImport + 10)
    ensures Tells(n + 1, next, ends, imports, logging, defines)
  {
    NextBelowLast(st.docstringEnd, n, ends);
    NextBelowLast(st.lastImport, n, imports);
    NextAllOf(st.loggerPositions, n, defines);
    NextExists(n, logging);
    NearLast(st.lastImport, n, imports);
    NextExists(n, q => defines(q) && NearImport(imports, q));
  }

  function DocEnds(rs: seq<Reading>): int -> bool {
    j => DocEndsAt(rs, j)
  }

  function Imports(rs: seq<Reading>): int -> bool {
    j => ImportsAt(rs, j)
  }

  function LoggingImports(rs: seq<Reading>): int -> bool {
    j => LoggingImportAt(rs, j)
  }

  function Definitions(rs: seq<Reading>): int -> bool {
    j => DefinesAt(rs, j)
  }

  /** All that the scanner reports about the first `n` lines, in terms of their text. */
  ghost predicate ResultTells(rs: seq<Reading>, n: nat, st: Structure) {
    Tells(n, st, DocEnds(rs), Imports(rs), LoggingImports(rs), Definitions(rs))
  }

  lemma AtLine(rs: seq<Reading>, n: nat, r: Reading, inside: Option<Quote>)
    requires n < |rs| && r == rs[n] && inside == InsideOf(rs, n)
    ensures InsideOf(rs, n + 1) == r.Then(inside)
    ensures DocEnds(rs)(n) <==> r.EndsDoc(inside)
    ensures Imports(rs)(n) <==> inside.None? && r.imports
    ensures LoggingImports(rs)(n) <==> inside.None? && r.imports && r.mentions
    ensures Definitions(rs)(n) <==> inside.None? && r.defines
  {
  }

  lemma NextResult(rs: seq<Reading>, n: nat, sc: Scanner, t: Token, next: Scanner)
    requires n < |rs| && StateTells(rs, n, sc) && ResultTells(rs, n, sc.st)
    requires Agree(t, rs[n]) && next == ScanLine(sc, n, t)
    ensures StateTells(rs, n + 1, next) && ResultTells(rs, n + 1, next.st)
  {
    var inside := InsideOf(rs, n);
    AtLine(rs, n, rs[n], inside);
    StepAgrees(sc, n, t, rs[n], inside);
    NextTells(n, sc.st, next.st, DocEnds(rs), Imports(rs), LoggingImports(rs), Definitions(rs));
  }

  predicate AgreeAll(ts: seq<Token>, rs: seq<Reading>) {
    |ts| == |rs| && forall i :: 0 <= i < |ts| ==> Agree(ts[i], rs[i])
  }

  lemma NothingRead(rs: seq<Reading>)
    ensures StateTells(rs, 0, START) && ResultTells(rs, 0, START.st)
  {
  }

  /** The scanner in front of each line is known. */
  ghost function Known(ts: seq<Token>, rs: seq<Reading>): nat -> bool
    requires |ts| == |rs|
  {
    (n: nat) => n <= |rs| && StateTells(rs, n, Scan(ts, n)) && ResultTells(rs, n, Scan(ts, n).st)
  }

  lemma KnownNext(ts: seq<Token>, rs: seq<Reading>, n: nat)
    requires AgreeAll(ts, rs) && n < |rs| && Known(ts, rs)(n)
    ensures Known(ts, rs)(n + 1)
  {
    NextResult(rs, n, Scan(ts, n), ts[n], Scan(ts, n + 1));
  }

  lemma {:induction false} Upwards(p: nat -> bool, n: nat)
    requires p(0) && forall m: nat :: m < n && p(m) ==> p(m + 1)
    ensures p(n)
  {
    if n > 0 {
      Upwards(p, n - 1);
    }
  }

  lemma ScanTells(ts: seq<Token>, rs: seq<Reading>, n: nat)
    requires AgreeAll(ts, rs) && n <= |rs|
    ensures Known(ts, rs)(n)
  {
    NothingRead(rs);
    forall m: nat | m < n && Known(ts, rs)(m) ensures Known(ts, rs)(m + 1) {
      KnownNext(ts, rs, m);
    }
    Upwards(Known(ts, rs), n);
  }

  lemma LinesAgree(lines: seq<string>)
    ensures AgreeAll(Tokens(lines), Readings(lines))
  {
    forall i | 0 <= i < |lines| ensures Agree(Tokens(lines)[i], Readings(lines)[i]) {
      LineAgrees(lines[i]);
    }
  }

  /** analyze_file_structure on the text of a file: every field of the result in terms of its lines. */
  lemma StructureOnText(lines: seq<string>)
    ensures ResultTells(Readings(lines), |lines|, Analyze(Tokens(lines)))
  {
    LinesAgree(lines);
    ScanTells(Tokens(lines), Readings(lines), |lines|);
  }

  // ---- what the script does, on the text ----

  /** Line `q` is more than twenty lines below the top and below every import and every docstring. */
  ghost predicate FarBelow(rs: seq<Reading>, q: int) {
    && 20 < q
    && (forall j :: ImportsAt(rs, j) ==> j + 21 < q)
    && (forall j :: DocEndsAt(rs, j) ==> j + 21 < q)
  }

  /** Everything the script stays clear of is above `c`, right up to it. */
  ghost predicate Border(rs: seq<Reading>, c: nat) {
    && c <= |rs| && (c > 0 ==> ImportsAt(rs, c - 1) || DocEndsAt(rs, c - 1))
    && (forall j :: ImportsAt(rs, j) ==> j < c)
    && (forall j :: DocEndsAt(rs, j) ==> j < c)
  }

  lemma LastIsAbove(end: nat, n: nat, has: int -> bool, j: int)
    requires BelowLast(end, n, has) && 0 <= j < n && has(j)
    ensures j < end
  {
  }

  lemma ImportsAbove(rs: seq<Reading>, end: nat)
    requires BelowLast(end, |rs|, Imports(rs))
    ensures end <= |rs| && (end > 0 ==> ImportsAt(rs, end - 1)) && forall j :: ImportsAt(rs, j) ==> j < end
  {
    forall j | ImportsAt(rs, j) ensures j < end {
      LastIsAbove(end, |rs|, Imports(rs), j);
    }
    assert end > 0 ==> Imports(rs)(end - 1);
  }

  lemma DocEndsAbove(rs: seq<Reading>, end: nat)
    requires BelowLast(end, |rs|, DocEnds(rs))
    ensures end <= |rs| && (end > 0 ==> DocEndsAt(rs, end - 1)) && forall j :: DocEndsAt(rs, j) ==> j < end
  {
    forall j | DocEndsAt(rs, j) ensures j < end {
      LastIsAbove(end, |rs|, DocEnds(rs), j);
    }
    assert end > 0 ==> DocEnds(rs)(end - 1);
  }

  lemma PositionIsBorder(rs: seq<Reading>, st: Structure)
    requires ResultTells(rs, |rs|, st)
    ensures Border(rs, st.CorrectPosition())
  {
    ImportsAbove(rs, st.lastImport);
    DocEndsAbove(rs, st.docstringEnd);
  }

  /** The correct position is the line below the last import and the last docstring of the text. */
  lemma CorrectPositionOnText(lines: seq<string>)
    ensures Border(Readings(lines), Analyze(Tokens(lines)).CorrectPosition())
  {
    StructureOnText(lines);
    PositionIsBorder(Readings(lines), Analyze(Tokens(lines)));
  }

  lemma FarIff(rs: seq<Reading>, c: nat, q: int)
    requires Border(rs, c)
    ensures c + 20 < q <==> FarBelow(rs, q)
  {
  }

  lemma PlainImport(s: string)
    requires StartsWith(s, "import ") || StartsWith(s, "from ")
    ensures ReadsAsImport(s)
  {
    assert s[0] == 'i' || s[0] == 'f';
  }

  lemma NotAnImport(s: string)
    requires !ReadsAsImport(s)
    ensures !StartsWith(s, "import ") && !StartsWith(s, "from ")
    ensures Contains(s, "import ") && !Starts(s, Double) && !Starts(s, Single) && s != "" && s[0] != '#' ==>
              StartsWith(s, "logger")
  {
    if StartsWith(s, "import ") || StartsWith(s, "from ") {
      PlainImport(s);
    }
  }

  /** Behind the correct position no line outside a docstring is an import, and none is a docstring on one line. */
  lemma NoImportBelow(lines: seq<string>, j: nat)
    requires Analyze(Tokens(lines)).CorrectPosition() <= j < |lines| && !Scan(Tokens(lines), j).inDocstring
    ensures var s := Strip(lines[j]);
            && !StartsWith(s, "import ") && !StartsWith(s, "from ")
            && (Contains(s, "import ") && !Starts(s, Double) && !Starts(s, Single) && s != "" && s[0] != '#' ==>
                  StartsWith(s, "logger"))
            && !OneLiner(s, Double) && !OneLiner(s, Single)
  {
    CorrectPositionOnText(lines);
    LinesAgree(lines);
    ScanTells(Tokens(lines), Readings(lines), j);
    var rs := Readings(lines);
    assert InsideOf(rs, j) == None;
    assert !ImportsAt(rs, j) && !DocEndsAt(rs, j);
    assert rs[j] == Read(Strip(lines[j]));
    NotAnImport(Strip(lines[j]));
  }

  lemma PositionsTell(rs: seq<Reading>, positions: seq<nat>)
    requires AllOf(positions, |rs|, Definitions(rs))
    ensures forall q: nat :: q in positions <==> DefinesAt(rs, q)
  {
    forall q: nat ensures q in positions <==> DefinesAt(rs, q) {
      if q in positions {
        var i :| 0 <= i < |positions| && positions[i] == q;
        assert Definitions(rs)(positions[i]);
      }
      if DefinesAt(rs, q) {
        assert Definitions(rs)(q);
      }
    }
  }

  lemma MisplacedTells(rs: seq<Reading>, st: Structure)
    requires ResultTells(rs, |rs|, st)
    ensures forall q: nat :: q in Misplaced(st) <==> DefinesAt(rs, q) && FarBelow(rs, q)
  {
    PositionsTell(rs, st.loggerPositions);
    PositionIsBorder(rs, st);
    AboveMembers(st.loggerPositions, st.CorrectPosition() + 20);
    forall q: nat ensures q in Misplaced(st) <==> DefinesAt(rs, q) && FarBelow(rs, q) {
      FarIff(rs, st.CorrectPosition(), q);
    }
  }

  lemma SomeMisplaced(rs: seq<Reading>, st: Structure)
    requires ResultTells(rs, |rs|, st)
    ensures Misplaced(st) != [] <==> exists q :: DefinesAt(rs, q) && FarBelow(rs, q)
  {
    MisplacedTells(rs, st);
    if Misplaced(st) != [] {
      assert Misplaced(st)[0] in Misplaced(st);
    }
    if q :| DefinesAt(rs, q) && FarBelow(rs, q) {
      assert q in Misplaced(st);
    }
  }

  lemma HasLoggingIff(rs: seq<Reading>, st: Structure)
    requires ResultTells(rs, |rs|, st)
    ensures st.hasLoggingImport <==> exists j :: LoggingImportAt(rs, j)
  {
    if st.hasLoggingImport {
      var j :| 0 <= j < |rs| && LoggingImports(rs)(j);
      assert LoggingImportAt(rs, j);
    }
    if j :| LoggingImportAt(rs, j) {
      assert LoggingImports(rs)(j);
    }
  }

  /** Some import names the logging module, and some definition stands far below every import and docstring. */
  ghost predicate MustMove(rs: seq<Reading>) {
    (exists j :: LoggingImportAt(rs, j)) && (exists q :: DefinesAt(rs, q) && FarBelow(rs, q))
  }

  lemma NeedsFixTells(ts: seq<Token>, rs: seq<Reading>)
    requires ResultTells(rs, |rs|, Analyze(ts))
    ensures NeedsFix(Analyze(ts)) <==> MustMove(rs)
  {
    NeedsFixIff(ts);
    SomeMisplaced(rs, Analyze(ts));
    HasLoggingIff(rs, Analyze(ts));
  }

  /** The script rewrites a file exactly when some import names the logging module and some definition
      stands far below every import and docstring. */
  lemma RewritesIff(content: string)
    ensures Rewrites(content) <==> MustMove(Readings(Split(content)))
  {
    StructureOnText(Split(content));
    NeedsFixTells(Tokens(Split(content)), Readings(Split(content)));
  }

  /** Exactly the definitions far below every import and docstring are taken out. */
  lemma TakenOutIff(lines: seq<string>)
    ensures RemainingLines(lines) == Drop(lines, 0, Indices(Misplaced(Analyze(Tokens(lines)))))
    ensures forall q: nat :: q in Misplaced(Analyze(Tokens(lines))) <==>
              DefinesAt(Readings(lines), q) && FarBelow(Readings(lines), q)
  {
    StructureOnText(lines);
    MisplacedTells(Readings(lines), Analyze(Tokens(lines)));
  }

  /** What is put back is the first definition taken out. */
  lemma FirstIsPutBack(lines: seq<string>) returns (q: nat)
    requires Misplaced(Analyze(Tokens(lines))) != []
    ensures DefinesAt(Readings(lines), q) && FarBelow(Readings(lines), q) && Statement(lines) == Strip(lines[q])
    ensures forall j :: 0 <= j < q ==> !(DefinesAt(Readings(lines), j) && FarBelow(Readings(lines), j))
  {
    var misplaced := Misplaced(Analyze(Tokens(lines)));
    TakenOutIff(lines);
    MisplacedAreLoggers(Tokens(lines));
    q := misplaced[0];
    assert q in misplaced;
    forall j: nat | j < q ensures j !in misplaced {
    }
  }

  /** Nothing is put back exactly when some definition stands near an import or the top. */
  lemma PutBackIff(rs: seq<Reading>, st: Structure)
    requires ResultTells(rs, |rs|, st)
    ensures st.properLoggerExists <==> exists q :: DefinesAt(rs, q) && NearImport(Imports(rs), q)
  {
    if st.properLoggerExists {
      var q :| 0 <= q < |rs| && Definitions(rs)(q) && NearImport(Imports(rs), q);
      assert DefinesAt(rs, q);
    }
    if q :| DefinesAt(rs, q) && NearImport(Imports(rs), q) {
      assert Definitions(rs)(q);
    }
  }

  /** A file with a definition near an import or the top just loses those far below. */
  lemma NearOnesStay(lines: seq<string>)
    requires NeedsFix(Analyze(Tokens(lines)))
    ensures Analyze(Tokens(lines)).properLoggerExists <==>
            exists q :: DefinesAt(Readings(lines), q) && NearImport(Imports(Readings(lines)), q)
    ensures Analyze(Tokens(lines)).properLoggerExists ==> FixedLines(lines) == RemainingLines(lines)
  {
    StructureOnText(lines);
    PutBackIff(Readings(lines), Analyze(Tokens(lines)));
  }

  lemma {:induction false} InsideOfPrefix(rs: seq<Reading>, other: seq<Reading>, n: nat)
    requires n <= |rs| && n <= |other| && rs[..n] == other[..n]
    ensures InsideOf(rs, n) == InsideOf(other, n)
  {
    if n > 0 {
      assert rs[..n - 1] == rs[..n][..n - 1] == other[..n][..n - 1] == other[..n - 1];
      assert rs[n - 1] == rs[..n][n - 1] == other[..n][n - 1] == other[n - 1];
      InsideOfPrefix(rs, other, n - 1);
    }
  }

  predicate Opens(r: Reading) {
    r.startsDouble || r.startsSingle
  }

  lemma EmptyOpensNothing()
    ensures !Opens(Read(""))
  {
  }

  ghost function OutsideFrom(rs: seq<Reading>, c: nat): nat -> bool {
    (m: nat) => c + m <= |rs| && InsideOf(rs, c + m) == None
  }

  lemma PlainOpensNothing(rs: seq<Reading>, c: nat, p: nat)
    requires c <= p <= |rs| && InsideOf(rs, c) == None
    requires forall j :: c <= j < p ==> !Opens(rs[j])
    ensures InsideOf(rs, p) == None
  {
    forall m: nat | m < p - c && OutsideFrom(rs, c)(m) ensures OutsideFrom(rs, c)(m + 1) {
      assert !Opens(rs[c + m]);
    }
    Upwards(OutsideFrom(rs, c), p - c);
  }

  lemma {:induction false} SkippedAreBlank(lines: seq<string>, at: nat, strip: string -> string)
    requires at <= |lines|
    ensures forall j :: at <= j < SkipBlankLines(lines, at, strip) ==> strip(lines[j]) == ""
    decreases |lines| - at
  {
    if at < |lines| && strip(lines[at]) == "" {
      SkippedAreBlank(lines, at + 1, strip);
    }
  }

  /** The definition that was put back is behind line `c`, with only empty lines in between. */
  lemma PutBelow(lines: seq<string>, c: nat, p: nat)
    requires NeedsFix(Analyze(Tokens(lines))) && !Analyze(Tokens(lines)).properLoggerExists
    requires c == Analyze(Tokens(lines)).CorrectPosition() && p == InsertPosition(Tokens(lines))
    ensures var fixed := FixedLines(lines);
            && c <= p < |fixed| && c <= |lines| && fixed[p] == Statement(lines) && fixed[..c] == lines[..c]
            && forall j :: c <= j < p ==> Strip(fixed[j]) == ""
  {
    var fixed, r := FixedLines(lines), RemainingLines(lines);
    OnlyDefinitionsMove(lines);
    SkipBlankTokens(r, c);
    SkippedAreBlank(r, c, Strip);
    assert fixed[..p] == (fixed[..p] + fixed[p + InsertedCount(Tokens(lines))..])[..p] == r[..p];
    forall j | c <= j < p ensures Strip(fixed[j]) == "" {
      assert fixed[j] == fixed[..p][j] == r[..p][j] == r[j];
    }
  }

  /** Where the definition goes: outside docstrings, below every import and docstring of the file, with
      only empty lines between the last of them and the definition. */
  lemma DefinitionBelowImports(lines: seq<string>, c: nat, p: nat)
    requires NeedsFix(Analyze(Tokens(lines))) && !Analyze(Tokens(lines)).properLoggerExists
    requires c == Analyze(Tokens(lines)).CorrectPosition() && p == InsertPosition(Tokens(lines))
    ensures var fixed := FixedLines(lines);
            && c <= p < |fixed| && c <= |lines| && fixed[p] == Statement(lines) && fixed[..c] == lines[..c]
            && (forall j :: c <= j < p ==> Strip(fixed[j]) == "")
            && InsideOf(Readings(fixed), p).None?
    ensures Border(Readings(lines), c)
  {
    var fixed := FixedLines(lines);
    PutBelow(lines, c, p);
    CorrectPositionOnText(lines);
    LinesAgree(lines);
    ScanTells(Tokens(lines), Readings(lines), c);
    SplitAtCorrectPosition(Tokens(lines));
    SameReadings(lines, fixed, c);
    EmptyOpensNothing();
    PlainOpensNothing(Readings(fixed), c, p);
  }

  lemma SameReadings(lines: seq<string>, other: seq<string>, n: nat)
    requires n <= |lines| && n <= |other| && lines[..n] == other[..n]
    ensures InsideOf(Readings(lines), n) == InsideOf(Readings(other), n)
  {
    forall i | 0 <= i < n ensures Readings(lines)[i] == Readings(other)[i] {
      assert lines[i] == lines[..n][i] == other[..n][i] == other[i];
    }
    InsideOfPrefix(Readings(lines), Readings(other), n);
  }
}
