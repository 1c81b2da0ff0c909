/** The file scanner of scripts/fix_logger_position.py on classified lines, and what a
    relocation of logger definitions does to its result. */
module LoggerScan {
  import opened Common
  import opened LineEdits

  /** What the scanner makes of a line outside a docstring. */
  datatype Kind =
    | Opens(quote: Quote, closes: bool)
    | Skipped
    | Import(logging: bool)
    | Logger
    | Other

  /** All the scanner ever asks about one line. */
  datatype Answers = Answers(kind: Kind, blank: bool, closesDouble: bool, closesSingle: bool) {
    predicate Closes(q: Quote) {
      if q.Double? then closesDouble else closesSingle
    }
  }

  type Token = a: Answers | a.blank ==> a.kind.Skipped? witness Answers(Other, false, false, false)

  datatype Structure = Structure(
    docstringEnd: nat,
    lastImport: nat,
    loggerPositions: seq<nat>,
    hasLoggingImport: bool,
    loggingImportLine: int,
    properLoggerExists: bool)
  {
    /** `correct_position`: below the last docstring and the last import. */
    function CorrectPosition(): nat {
      if docstringEnd < lastImport then lastImport else docstringEnd
    }
  }

  datatype Scanner = Scanner(inDocstring: bool, quote: Quote, st: Structure)

  const START := Scanner(false, Double, Structure(0, 0, [], false, -1, false))

  function ScanLine(sc: Scanner, i: nat, t: Token): Scanner {
    if sc.inDocstring then
      if t.Closes(sc.quote) then sc.(inDocstring := false, st := sc.st.(docstringEnd := i + 1)) else sc
    else
      match t.kind
      case Opens(q, closes) =>
        if closes then sc.(quote := q, st := sc.st.(docstringEnd := i + 1))
        else sc.(inDocstring := true, quote := q)
      case Import(logging) =>
        var st := sc.st.(lastImport := i + 1);
        sc.(st := if logging then st.(hasLoggingImport := true, loggingImportLine := i) else st)
      case Logger =>
        sc.(st := sc.st.(loggerPositions := sc.st.loggerPositions + [i],
                         properLoggerExists := sc.st.properLoggerExists || i <= sc.st.lastImport + 10))
      case _ => sc
  }

  /** The scanner after the first `n` lines. */
  function Scan(ts: seq<Token>, n: nat): Scanner
    requires n <= |ts|
  {
    if n == 0 then START else ScanLine(Scan(ts, n - 1), n - 1, ts[n - 1])
  }

  function Analyze(ts: seq<Token>): Structure {
    Scan(ts, |ts|).st
  }

  /** analyze_file_structure, on classified lines. */
  method AnalyzeFileStructure(ts: seq<Token>) returns (structure: Structure)
    ensures structure == Analyze(ts)
  {
    structure := Structure(0, 0, [], false, -1, false);
    var inDocstring, docstringQuote := false, Double;
    for i := 0 to |ts|
      invariant Scanner(inDocstring, docstringQuote, structure) == Scan(ts, i)
    {
      var line := ts[i];
      if !inDocstring && line.kind.Opens? {
        docstringQuote := line.kind.quote;
        inDocstring := true;
        if line.kind.closes {
          inDocstring := false;
          structure := structure.(docstringEnd := i + 1);
        }
      } else if inDocstring && line.Closes(docstringQuote) {
        inDocstring := false;
        structure := structure.(docstringEnd := i + 1);
      } else if inDocstring || line.kind.Skipped? {
      } else if line.kind.Import? {
        structure := structure.(lastImport := i + 1);
        if line.kind.logging {
          structure := structure.(hasLoggingImport := true, loggingImportLine := i);
        }
      } else if line.kind.Logger? {
        structure := structure.(loggerPositions := structure.loggerPositions + [i]);
        if i <= structure.lastImport + 10 {
          structure := structure.(properLoggerExists := true);
        }
      }
    }
  }

  lemma {:induction false} ScanSamePrefix(one: seq<Token>, other: seq<Token>, n: nat)
    requires n <= |one| && n <= |other| && one[..n] == other[..n]
    ensures Scan(one, n) == Scan(other, n)
  {
    if n > 0 {
      assert one[..n][..n - 1] == one[..n - 1] && other[..n][..n - 1] == other[..n - 1];
      assert one[n - 1] == one[..n][n - 1] && other[n - 1] == other[..n][n - 1];
      ScanSamePrefix(one, other, n - 1);
    }
  }

  ghost predicate ProperWitness(positions: seq<nat>, lastImport: nat) {
    exists q :: q in positions && q <= lastImport + 10
  }

  lemma WitnessAppend(one: seq<nat>, other: seq<nat>, lastImport: nat)
    ensures ProperWitness(one + other, lastImport) <==> ProperWitness(one, lastImport) || ProperWitness(other, lastImport)
  {
    if q :| q in one && q <= lastImport + 10 {
      assert q in one + other;
    }
    if q :| q in other && q <= lastImport + 10 {
      assert q in one + other;
    }
  }

  lemma {:induction false} ScanBounds(ts: seq<Token>, n: nat)
    requires n <= |ts|
    ensures Scan(ts, n).st.docstringEnd <= n && Scan(ts, n).st.lastImport <= n
    ensures !Scan(ts, Scan(ts, n).st.docstringEnd).inDocstring
    ensures !Scan(ts, Scan(ts, n).st.lastImport).inDocstring
  {
    if n > 0 {
      ScanBounds(ts, n - 1);
    }
  }

  lemma {:induction false} ScanLoggers(ts: seq<Token>, n: nat)
    requires n <= |ts|
    ensures forall q :: q in Scan(ts, n).st.loggerPositions ==> q < n
  {
    if n > 0 {
      ScanLoggers(ts, n - 1);
    }
  }

  lemma ProperStep(sc: Scanner, i: nat, t: Token)
    requires sc.st.lastImport <= i
    requires sc.st.properLoggerExists ==> ProperWitness(sc.st.loggerPositions, sc.st.lastImport)
    ensures var st := ScanLine(sc, i, t).st;
            st.properLoggerExists ==> ProperWitness(st.loggerPositions, st.lastImport)
  {
    if !sc.inDocstring && t.kind.Logger? {
      WitnessAppend(sc.st.loggerPositions, [i], sc.st.lastImport);
      assert i in [i];
    }
  }

  lemma {:induction false} ScanProper(ts: seq<Token>, n: nat)
    requires n <= |ts|
    ensures Scan(ts, n).st.properLoggerExists ==>
              ProperWitness(Scan(ts, n).st.loggerPositions, Scan(ts, n).st.lastImport)
  {
    if n > 0 {
      ScanProper(ts, n - 1);
      ScanBounds(ts, n - 1);
      ProperStep(Scan(ts, n - 1), n - 1, ts[n - 1]);
    }
  }

  /** Bounds and anchors of the two running positions. */
  lemma ScanAnchors(ts: seq<Token>, n: nat)
    requires n <= |ts|
    ensures var st := Scan(ts, n).st;
            && st.docstringEnd <= n && st.lastImport <= n
            && !Scan(ts, st.docstringEnd).inDocstring
            && !Scan(ts, st.lastImport).inDocstring
            && (forall q :: q in st.loggerPositions ==> q < n)
            && (st.properLoggerExists ==> ProperWitness(st.loggerPositions, st.lastImport))
  {
    ScanBounds(ts, n);
    ScanLoggers(ts, n);
    ScanProper(ts, n);
  }

  // ---- the part of a file below its last docstring and import ----

  /** No import and no docstring end: at most a docstring that is never closed. */
  predicate Clean(tail: seq<Token>) {
    if tail == [] then true
    else
      match tail[0].kind
      case Opens(q, closes) => !closes && forall j :: 1 <= j < |tail| ==> !tail[j].Closes(q)
      case Import(_) => false
      case _ => Clean(tail[1..])
  }

  function TailLoggers(tail: seq<Token>, base: nat): (r: seq<nat>)
    ensures forall q :: q in r ==> base <= q < base + |tail|
  {
    if tail == [] || tail[0].kind.Opens? then []
    else (if tail[0].kind.Logger? then [base] else []) + TailLoggers(tail[1..], base + 1)
  }

  ghost function WithTail(st: Structure, tail: seq<Token>, base: nat): Structure {
    st.(loggerPositions := st.loggerPositions + TailLoggers(tail, base),
        properLoggerExists := st.properLoggerExists || ProperWitness(TailLoggers(tail, base), st.lastImport))
  }

  lemma {:induction false} ScanInsideDocstring(ts: seq<Token>, n: nat)
    requires n <= |ts| && Scan(ts, n).inDocstring
    requires forall j :: n <= j < |ts| ==> !ts[j].Closes(Scan(ts, n).quote)
    ensures Scan(ts, |ts|) == Scan(ts, n)
    decreases |ts| - n
  {
    if n < |ts| {
      assert Scan(ts, n + 1) == Scan(ts, n);
      ScanInsideDocstring(ts, n + 1);
    }
  }

  /** Reading the next line of a clean tail and then the rest. */
  lemma NextOfTail(sc: Scanner, tail: seq<Token>, n: nat)
    requires tail != [] && !tail[0].kind.Opens? && !tail[0].kind.Import? && !sc.inDocstring
    ensures WithTail(ScanLine(sc, n, tail[0]).st, tail[1..], n + 1) == WithTail(sc.st, tail, n)
  {
    var st, rest := sc.st, TailLoggers(tail[1..], n + 1);
    if tail[0].kind.Logger? {
      ConcatAssoc(st.loggerPositions, [n], rest);
      WitnessAppend([n], rest, st.lastImport);
      assert n in [n];
    } else {
      assert [] + rest == rest;
    }
  }

  lemma {:induction false} ScanCleanTail(ts: seq<Token>, n: nat)
    requires n <= |ts| && !Scan(ts, n).inDocstring && Clean(ts[n..])
    ensures Analyze(ts) == WithTail(Scan(ts, n).st, ts[n..], n)
    decreases |ts| - n
  {
    if n < |ts| {
      assert ts[n..][0] == ts[n] && ts[n..][1..] == ts[n + 1..];
      if ts[n].kind.Opens? {
        ScanOpenTail(ts, n);
      } else {
        ScanCleanTail(ts, n + 1);
        NextOfTail(Scan(ts, n), ts[n..], n);
      }
    } else {
      EmptyTailAddsNothing(Scan(ts, n).st, n);
    }
  }

  /** A tail that is inside a docstring up to the end. */
  lemma ScanOpenTail(ts: seq<Token>, n: nat)
    requires n < |ts| && !Scan(ts, n).inDocstring && Clean(ts[n..]) && ts[n].kind.Opens?
    ensures Analyze(ts) == WithTail(Scan(ts, n).st, ts[n..], n)
  {
    OpenTailStaysOpen(ts, n, ts[n..]);
    ScanOpened(ts, n);
    OpenTailAddsNothing(Scan(ts, n).st, ts[n..], n);
  }

  lemma OpenTailStaysOpen(ts: seq<Token>, n: nat, tail: seq<Token>)
    requires n < |ts| && tail == ts[n..] && ts[n].kind.Opens? && Clean(tail)
    ensures !ts[n].kind.closes && forall j :: n < j < |ts| ==> !ts[j].Closes(ts[n].kind.quote)
  {
    assert forall j :: n < j < |ts| ==> ts[j] == tail[j - n];
  }

  lemma ScanOpened(ts: seq<Token>, n: nat)
    requires n < |ts| && !Scan(ts, n).inDocstring && ts[n].kind.Opens? && !ts[n].kind.closes
    requires forall j :: n < j < |ts| ==> !ts[j].Closes(ts[n].kind.quote)
    ensures Analyze(ts) == Scan(ts, n).st
  {
    ScanInsideDocstring(ts, n + 1);
  }

  lemma EmptyTailAddsNothing(st: Structure, n: nat)
    ensures WithTail(st, [], n) == st
  {
    assert st.loggerPositions + [] == st.loggerPositions;
  }

  lemma OpenTailAddsNothing(st: Structure, tail: seq<Token>, n: nat)
    requires tail != [] && tail[0].kind.Opens?
    ensures WithTail(st, tail, n) == st
  {
    assert st.loggerPositions + [] == st.loggerPositions;
  }

  lemma {:induction false} PositionsGrow(ts: seq<Token>, n: nat)
    requires n <= |ts|
    ensures Scan(ts, n).st.docstringEnd <= Analyze(ts).docstringEnd
    ensures Scan(ts, n).st.lastImport <= Analyze(ts).lastImport
    decreases |ts| - n
  {
    if n < |ts| {
      PositionsGrow(ts, n + 1);
      ScanBounds(ts, n);
    }
  }

  lemma {:induction false} NeverClosed(ts: seq<Token>, n: nat)
    requires n <= |ts| && Scan(ts, n).inDocstring && Analyze(ts).docstringEnd <= n
    ensures forall j :: n <= j < |ts| ==> !ts[j].Closes(Scan(ts, n).quote)
    decreases |ts| - n
  {
    if n < |ts| {
      PositionsGrow(ts, n + 1);
      assert Scan(ts, n + 1) == Scan(ts, n);
      NeverClosed(ts, n + 1);
    }
  }

  lemma {:induction false} TailIsClean(ts: seq<Token>, n: nat)
    requires n <= |ts| && !Scan(ts, n).inDocstring
    requires Analyze(ts).docstringEnd <= n && Analyze(ts).lastImport <= n
    ensures Clean(ts[n..])
    decreases |ts| - n
  {
    if n < |ts| {
      var tail := ts[n..];
      assert tail[0] == ts[n] && tail[1..] == ts[n + 1..];
      PositionsGrow(ts, n + 1);
      if ts[n].kind.Opens? {
        NeverClosed(ts, n + 1);
        assert forall j :: 1 <= j < |tail| ==> tail[j] == ts[n + j];
      } else {
        TailIsClean(ts, n + 1);
      }
    }
  }

  /** The correct position splits a file into what fixes the structure and a clean tail. */
  lemma SplitAtCorrectPosition(ts: seq<Token>)
    ensures var c := Analyze(ts).CorrectPosition();
            && c <= |ts| && !Scan(ts, c).inDocstring && Clean(ts[c..])
            && Analyze(ts) == WithTail(Scan(ts, c).st, ts[c..], c)
            && forall q :: q in Scan(ts, c).st.loggerPositions ==> q < c
  {
    var c := Analyze(ts).CorrectPosition();
    ScanAnchors(ts, |ts|);
    TailIsClean(ts, c);
    ScanCleanTail(ts, c);
    ScanAnchors(ts, c);
  }

  // ---- the relocation ----

  /** The positions beyond `limit`, in order. */
  function Above(positions: seq<nat>, limit: nat): seq<nat> {
    if positions == [] then []
    else (if limit < positions[0] then [positions[0]] else []) + Above(positions[1..], limit)
  }

  function UpTo(positions: seq<nat>, limit: nat): seq<nat> {
    if positions == [] then []
    else (if positions[0] <= limit then [positions[0]] else []) + UpTo(positions[1..], limit)
  }

  lemma {:induction false} AboveAppend(one: seq<nat>, other: seq<nat>, limit: nat)
    ensures Above(one + other, limit) == Above(one, limit) + Above(other, limit)
    decreases |one|
  {
    if one == [] {
      assert one + other == other;
    } else {
      assert (one + other)[1..] == one[1..] + other;
      AboveAppend(one[1..], other, limit);
      ConcatAssoc(if limit < one[0] then [one[0]] else [], Above(one[1..], limit), Above(other, limit));
    }
  }

  lemma {:induction false} UpToAppend(one: seq<nat>, other: seq<nat>, limit: nat)
    ensures UpTo(one + other, limit) == UpTo(one, limit) + UpTo(other, limit)
    decreases |one|
  {
    if one == [] {
      assert one + other == other;
    } else {
      assert (one + other)[1..] == one[1..] + other;
      UpToAppend(one[1..], other, limit);
      ConcatAssoc(if one[0] <= limit then [one[0]] else [], UpTo(one[1..], limit), UpTo(other, limit));
    }
  }

  lemma {:induction false} AboveMembers(positions: seq<nat>, limit: nat)
    ensures forall q :: q in Above(positions, limit) <==> q in positions && limit < q
    ensures forall q :: q in UpTo(positions, limit) <==> q in positions && q <= limit
  {
    if positions != [] {
      AboveMembers(positions[1..], limit);
      assert positions == [positions[0]] + positions[1..];
    }
  }

  lemma {:induction false} AboveAscending(positions: seq<nat>, limit: nat)
    requires Ascending(positions)
    ensures Ascending(Above(positions, limit))
  {
    if positions != [] {
      var rest := Above(positions[1..], limit);
      AboveAscending(positions[1..], limit);
      AboveMembers(positions[1..], limit);
      forall k | 0 <= k < |rest|
        ensures positions[0] < rest[k]
      {
        assert rest[k] in rest;
      }
    }
  }

  lemma {:induction false} PositionsAscending(ts: seq<Token>, n: nat)
    requires n <= |ts|
    ensures Ascending(Scan(ts, n).st.loggerPositions)
  {
    if n > 0 {
      PositionsAscending(ts, n - 1);
      ScanLoggers(ts, n - 1);
      var before := Scan(ts, n - 1).st.loggerPositions;
      assert forall k :: 0 <= k < |before| ==> before[k] in before;
    }
  }

  lemma {:induction false} AboveAll(positions: seq<nat>, limit: nat)
    ensures |Above(positions, limit)| <= |positions|
    ensures |Above(positions, limit)| == |positions| ==> forall q :: q in positions ==> limit < q
  {
    if positions != [] {
      AboveAll(positions[1..], limit);
      assert positions == [positions[0]] + positions[1..];
    }
  }

  lemma HeadIsIn(positions: seq<nat>)
    ensures positions == [] || positions[0] in positions
  {
  }

  function Misplaced(st: Structure): seq<nat> {
    Above(st.loggerPositions, st.CorrectPosition() + 20)
  }

  /** The script rewrites the file. */
  predicate NeedsFix(st: Structure) {
    && st.loggerPositions != [] && st.hasLoggingImport
    && !(|st.loggerPositions| == 1 && st.properLoggerExists)
    && Misplaced(st) != []
  }

  function SkipBlank(ts: seq<Token>, at: nat): (p: nat)
    requires at <= |ts|
    ensures at <= p <= |ts|
    ensures forall i :: at <= i < p ==> ts[i].blank
    ensures p < |ts| ==> !ts[p].blank
    decreases |ts| - at
  {
    if at < |ts| && ts[at].blank then SkipBlank(ts, at + 1) else at
  }

  const BLANK: Token := Answers(Skipped, true, false, false)

  /** The file without its misplaced definitions. */
  function Remaining(ts: seq<Token>): seq<Token> {
    Drop(ts, 0, Indices(Misplaced(Analyze(ts))))
  }

  /** The definition put back, followed by an empty line unless it ends the file. */
  function Inserted(atEnd: bool, definition: Token): seq<Token> {
    [definition] + if atEnd then [] else [BLANK]
  }

  function Shift(positions: seq<nat>, d: nat): (r: seq<nat>)
    ensures |r| == |positions|
    ensures forall i :: 0 <= i < |r| ==> r[i] == positions[i] + d
  {
    if positions == [] then [] else [positions[0] + d] + Shift(positions[1..], d)
  }

  /** A tail read from `moved == base + d` on. */
  lemma {:induction false} ShiftLoggers(tail: seq<Token>, base: nat, moved: nat, d: nat)
    requires moved == base + d
    ensures TailLoggers(tail, moved) == Shift(TailLoggers(tail, base), d)
    decreases |tail|
  {
    if tail != [] && !tail[0].kind.Opens? {
      ShiftLoggers(tail[1..], base + 1, moved + 1, d);
      ShiftHead(tail[0].kind.Logger?, base, moved, TailLoggers(tail[1..], base + 1), d);
    }
  }

  lemma ShiftHead(head: bool, base: nat, moved: nat, rest: seq<nat>, d: nat)
    requires moved == base + d
    ensures Shift(Headed(head, base, rest), d) == Headed(head, moved, Shift(rest, d))
  {
    if head {
      ShiftCons(base, rest, d);
    }
  }

  function Headed(head: bool, x: nat, rest: seq<nat>): (r: seq<nat>)
    ensures r == (if head then [x] else []) + rest
  {
    if head then [x] + rest else rest
  }

  lemma ShiftCons(x: nat, rest: seq<nat>, d: nat)
    ensures Shift([x] + rest, d) == [x + d] + Shift(rest, d)
  {
    assert ([x] + rest)[0] == x && ([x] + rest)[1..] == rest;
  }

  lemma {:induction false} BlanksKeepClean(blanks: seq<Token>, rest: seq<Token>)
    requires forall i :: 0 <= i < |blanks| ==> blanks[i].kind.Skipped?
    ensures Clean(blanks + rest) == Clean(rest)
    decreases |blanks|
  {
    if blanks == [] {
      assert blanks + rest == rest;
    } else {
      assert (blanks + rest)[1..] == blanks[1..] + rest;
      BlanksKeepClean(blanks[1..], rest);
    }
  }

  lemma {:induction false} BlanksHoldNoLogger(blanks: seq<Token>, rest: seq<Token>, base: nat)
    requires forall i :: 0 <= i < |blanks| ==> blanks[i].kind.Skipped?
    ensures TailLoggers(blanks + rest, base) == TailLoggers(rest, base + |blanks|)
    decreases |blanks|
  {
    if blanks == [] {
      assert blanks + rest == rest;
    } else {
      assert (blanks + rest)[1..] == blanks[1..] + rest;
      BlanksHoldNoLogger(blanks[1..], rest, base + 1);
    }
  }

  lemma BlanksInFront(blanks: seq<Token>, rest: seq<Token>, base: nat)
    requires forall i :: 0 <= i < |blanks| ==> blanks[i].kind.Skipped?
    ensures Clean(blanks + rest) == Clean(rest)
    ensures TailLoggers(blanks + rest, base) == TailLoggers(rest, base + |blanks|)
  {
    BlanksKeepClean(blanks, rest);
    BlanksHoldNoLogger(blanks, rest, base);
  }

  /** From `base` on, `drop` holds the definitions beyond `limit`. */
  ghost predicate Drops(drop: set<int>, tail: seq<Token>, base: nat, limit: nat) {
    forall i :: base <= i ==> (i in drop <==> i in TailLoggers(tail, base) && limit < i)
  }

  lemma DropsRest(drop: set<int>, tail: seq<Token>, base: nat, limit: nat)
    requires Drops(drop, tail, base, limit) && tail != [] && !tail[0].kind.Opens?
    ensures Drops(drop, tail[1..], base + 1, limit)
    ensures base in drop <==> tail[0].kind.Logger? && limit < base
  {
    var rest := TailLoggers(tail[1..], base + 1);
    assert TailLoggers(tail, base) == (if tail[0].kind.Logger? then [base] else []) + rest;
    assert base !in rest;
  }

  lemma {:induction false} DropMisplaced(tail: seq<Token>, base: nat, limit: nat, drop: set<int>)
    requires Clean(tail) && Drops(drop, tail, base, limit)
    ensures Clean(Drop(tail, base, drop))
    ensures TailLoggers(Drop(tail, base, drop), base) == UpTo(TailLoggers(tail, base), limit)
    decreases |tail|
  {
    if tail != [] {
      if tail[0].kind.Opens? {
        DropNothing(tail, base, drop);
      } else {
        DropsRest(drop, tail, base, limit);
        DropMisplaced(tail[1..], base + 1, limit, drop);
        DropOneMisplaced(tail, Drop(tail[1..], base + 1, drop), base, limit);
      }
    }
  }

  /** A misplaced definition goes; then no later one is kept. */
  lemma DropFirst(tail: seq<Token>, r: seq<Token>, base: nat, limit: nat)
    requires tail != [] && tail[0].kind.Logger? && limit < base
    requires Clean(r) && TailLoggers(r, base + 1) == UpTo(TailLoggers(tail[1..], base + 1), limit)
    ensures TailLoggers(r, base) == UpTo(TailLoggers(tail, base), limit)
  {
    var later := TailLoggers(tail[1..], base + 1);
    NothingUpTo(later, limit);
    ShiftLoggers(r, base, base + 1, 1);
    UpToAppend([base], later, limit);
  }

  lemma KeepFirst(tail: seq<Token>, r: seq<Token>, base: nat, limit: nat)
    requires tail != [] && Clean(tail) && !tail[0].kind.Opens? && !(tail[0].kind.Logger? && limit < base)
    requires Clean(r) && TailLoggers(r, base + 1) == UpTo(TailLoggers(tail[1..], base + 1), limit)
    ensures Clean([tail[0]] + r) && TailLoggers([tail[0]] + r, base) == UpTo(TailLoggers(tail, base), limit)
  {
    var head := if tail[0].kind.Logger? then [base] else [];
    UpToAppend(head, TailLoggers(tail[1..], base + 1), limit);
    assert ([tail[0]] + r)[1..] == r;
  }

  /** The first line is dropped if it is a definition beyond the limit. */
  lemma DropOneMisplaced(tail: seq<Token>, r: seq<Token>, base: nat, limit: nat)
    requires tail != [] && Clean(tail) && !tail[0].kind.Opens?
    requires Clean(r) && TailLoggers(r, base + 1) == UpTo(TailLoggers(tail[1..], base + 1), limit)
    ensures var r' := (if tail[0].kind.Logger? && limit < base then [] else [tail[0]]) + r;
            Clean(r') && TailLoggers(r', base) == UpTo(TailLoggers(tail, base), limit)
  {
    if tail[0].kind.Logger? && limit < base {
      DropFirst(tail, r, base, limit);
      assert [] + r == r;
    } else {
      KeepFirst(tail, r, base, limit);
    }
  }

  lemma NothingUpTo(positions: seq<nat>, limit: nat)
    requires forall q :: q in positions ==> limit < q
    ensures UpTo(positions, limit) == []
  {
    AboveMembers(positions, limit);
    HeadIsIn(UpTo(positions, limit));
  }

  /** Everything above the correct position is untouched, so a clean new tail decides the structure. */
  lemma NewTail(ts: seq<Token>, tail: seq<Token>)
    requires Clean(tail)
    ensures var c := Analyze(ts).CorrectPosition();
            && c <= |ts|
            && Analyze(ts[..c] + tail) == WithTail(Scan(ts, c).st, tail, c)
            && Analyze(ts[..c] + tail).CorrectPosition() == c
  {
    SplitAtCorrectPosition(ts);
    var c := Analyze(ts).CorrectPosition();
    var edited := ts[..c] + tail;
    assert edited[..c] == ts[..c] && edited[c..] == tail;
    ScanSamePrefix(ts, edited, c);
    ScanCleanTail(edited, c);
  }

  lemma MisplacedInTail(ts: seq<Token>)
    ensures var c := Analyze(ts).CorrectPosition();
            c <= |ts| && Misplaced(Analyze(ts)) == Above(TailLoggers(ts[c..], c), c + 20)
  {
    SplitAtCorrectPosition(ts);
    var c := Analyze(ts).CorrectPosition();
    AboveAppend(Scan(ts, c).st.loggerPositions, TailLoggers(ts[c..], c), c + 20);
    AboveMembers(Scan(ts, c).st.loggerPositions, c + 20);
    HeadIsIn(Above(Scan(ts, c).st.loggerPositions, c + 20));
  }

  lemma MisplacedDrops(ts: seq<Token>)
    ensures var c := Analyze(ts).CorrectPosition();
            && c <= |ts| && Drops(Indices(Misplaced(Analyze(ts))), ts[c..], c, c + 20)
            && forall i :: i in Indices(Misplaced(Analyze(ts))) ==> c + 20 < i
  {
    MisplacedInTail(ts);
    var c := Analyze(ts).CorrectPosition();
    AboveMembers(TailLoggers(ts[c..], c), c + 20);
  }

  /** Removal leaves the part above the correct position alone and the tail clean. */
  lemma RemovalKeepsStructure(ts: seq<Token>)
    ensures var c, r := Analyze(ts).CorrectPosition(), Remaining(ts);
            && c <= |ts| && c <= |r| && r[..c] == ts[..c]
            && Clean(r[c..])
            && TailLoggers(r[c..], c) == UpTo(TailLoggers(ts[c..], c), c + 20)
  {
    SplitAtCorrectPosition(ts);
    MisplacedDrops(ts);
    var c := Analyze(ts).CorrectPosition();
    var drop := Indices(Misplaced(Analyze(ts)));
    var front, tail := ts[..c], ts[c..];
    assert ts == front + tail;
    DropBehind(front, tail, 0, drop);
    DropMisplaced(tail, c, c + 20, drop);
    assert Remaining(ts) == front + Drop(tail, c, drop);
    assert Remaining(ts)[c..] == Drop(tail, c, drop);
  }

  // ---- the rewritten file ----

  function InsertPosition(ts: seq<Token>): nat
  {
    RemovalKeepsStructure(ts);
    SkipBlank(Remaining(ts), Analyze(ts).CorrectPosition())
  }

  function Fixed(ts: seq<Token>): seq<Token>
    requires NeedsFix(Analyze(ts))
  {
    var r := Remaining(ts);
    if Analyze(ts).properLoggerExists then r
    else
      RemovalKeepsStructure(ts);
      MisplacedAreLoggers(ts);
      PutBack(r, Analyze(ts).CorrectPosition(), ts[Misplaced(Analyze(ts))[0]])
  }

  /** `definition` inserted below the blank lines that follow `at`. */
  function PutBack(r: seq<Token>, at: nat, definition: Token): seq<Token>
    requires at <= |r|
  {
    var p := SkipBlank(r, at);
    Insert(r, p, Inserted(p == |r|, definition))
  }

  /** The file with `definition` put back, cut around the inserted lines. */
  lemma PutBackParts(r: seq<Token>, at: nat, definition: Token) returns (blanks: seq<Token>, filler: seq<Token>, rest: seq<Token>)
    requires at <= |r|
    ensures PutBack(r, at, definition) == r[..at] + (blanks + ([definition] + (filler + rest)))
    ensures r[at..] == blanks + rest && at + |blanks| == SkipBlank(r, at) && rest == r[SkipBlank(r, at)..]
    ensures filler == if SkipBlank(r, at) == |r| then [] else [BLANK]
    ensures forall i :: 0 <= i < |blanks| ==> blanks[i].kind.Skipped?
  {
    var p := SkipBlank(r, at);
    filler, blanks, rest := if p == |r| then [] else [BLANK], r[at..p], r[p..];
    InsertCut(r, at, p, [definition] + filler);
    assert ([definition] + filler) + rest == [definition] + (filler + rest);
  }

  lemma {:induction false} LoggersAreLoggers(ts: seq<Token>, n: nat)
    requires n <= |ts|
    ensures forall q :: q in Scan(ts, n).st.loggerPositions ==> q < n && ts[q].kind.Logger?
  {
    if n > 0 {
      LoggersAreLoggers(ts, n - 1);
    }
  }

  lemma MisplacedAreLoggers(ts: seq<Token>)
    ensures var misplaced := Misplaced(Analyze(ts));
            && Ascending(misplaced)
            && forall k :: 0 <= k < |misplaced| ==> misplaced[k] < |ts| && ts[misplaced[k]].kind.Logger?
  {
    var misplaced := Misplaced(Analyze(ts));
    LoggersAreLoggers(ts, |ts|);
    PositionsAscending(ts, |ts|);
    AboveAscending(Analyze(ts).loggerPositions, Analyze(ts).CorrectPosition() + 20);
    AboveMembers(Analyze(ts).loggerPositions, Analyze(ts).CorrectPosition() + 20);
    assert forall k :: 0 <= k < |misplaced| ==> misplaced[k] in misplaced;
  }

  lemma LoggerInFront(tail: seq<Token>, base: nat)
    requires tail != [] && tail[0].kind.Logger?
    ensures Clean(tail) == Clean(tail[1..])
    ensures TailLoggers(tail, base) == [base] + TailLoggers(tail[1..], base + 1)
  {
  }

  /** A definition followed by skipped lines, in front of a clean rest. */
  lemma DefinitionKeepsClean(definition: Token, filler: seq<Token>, rest: seq<Token>)
    requires definition.kind.Logger?
    requires forall i :: 0 <= i < |filler| ==> filler[i].kind.Skipped?
    ensures Clean([definition] + (filler + rest)) == Clean(rest)
  {
    LoggerInFront([definition] + (filler + rest), 0);
    assert ([definition] + (filler + rest))[1..] == filler + rest;
    BlanksKeepClean(filler, rest);
  }

  lemma InsertedKeepClean(blanks: seq<Token>, definition: Token, filler: seq<Token>, rest: seq<Token>)
    requires forall i :: 0 <= i < |blanks| ==> blanks[i].kind.Skipped?
    requires definition.kind.Logger?
    requires forall i :: 0 <= i < |filler| ==> filler[i].kind.Skipped?
    requires Clean(blanks + rest)
    ensures Clean(blanks + ([definition] + (filler + rest)))
  {
    BlanksKeepClean(blanks, rest);
    BlanksKeepClean(blanks, [definition] + (filler + rest));
    DefinitionKeepsClean(definition, filler, rest);
  }

  lemma DefinitionInFront(definition: Token, filler: seq<Token>, rest: seq<Token>, p: nat, behind: nat)
    requires definition.kind.Logger? && behind == p + 1 + |filler|
    requires forall i :: 0 <= i < |filler| ==> filler[i].kind.Skipped?
    ensures TailLoggers([definition] + (filler + rest), p) == [p] + TailLoggers(rest, behind)
  {
    LoggerInFront([definition] + (filler + rest), p);
    assert ([definition] + (filler + rest))[1..] == filler + rest;
    BlanksHoldNoLogger(filler, rest, p + 1);
  }

  lemma InsertionStructure(blanks: seq<Token>, definition: Token, filler: seq<Token>, rest: seq<Token>,
                           base: nat, p: nat, d: nat)
    requires forall i :: 0 <= i < |blanks| ==> blanks[i].kind.Skipped?
    requires definition.kind.Logger? && p == base + |blanks| && d == 1 + |filler|
    requires forall i :: 0 <= i < |filler| ==> filler[i].kind.Skipped?
    ensures TailLoggers(blanks + ([definition] + (filler + rest)), base) ==
            [p] + Shift(TailLoggers(blanks + rest, base), d)
  {
    BlanksHoldNoLogger(blanks, rest, base);
    BlanksHoldNoLogger(blanks, [definition] + (filler + rest), base);
    ShiftedInFront(definition, filler, rest, p, d);
  }

  lemma ShiftedInFront(definition: Token, filler: seq<Token>, rest: seq<Token>, p: nat, d: nat)
    requires definition.kind.Logger? && d == 1 + |filler|
    requires forall i :: 0 <= i < |filler| ==> filler[i].kind.Skipped?
    ensures TailLoggers([definition] + (filler + rest), p) == [p] + Shift(TailLoggers(rest, p), d)
  {
    DefinitionInFront(definition, filler, rest, p, p + d);
    ShiftLoggers(rest, p, p + d, d);
  }

  /** How many lines the relocation inserts. */
  function InsertedCount(ts: seq<Token>): nat
  {
    if InsertPosition(ts) == |Remaining(ts)| then 1 else 2
  }

  /** The definitions below the correct position that stay. */
  function KeptInTail(ts: seq<Token>): seq<nat>
  {
    var c := Analyze(ts).CorrectPosition();
    if c <= |ts| then UpTo(TailLoggers(ts[c..], c), c + 20) else []
  }

  /** The rewritten file, cut at the correct position and around the inserted lines. */
  lemma FixedParts(ts: seq<Token>)
    returns (blanks: seq<Token>, definition: Token, filler: seq<Token>, rest: seq<Token>)
    requires NeedsFix(Analyze(ts)) && !Analyze(ts).properLoggerExists
    ensures var c := Analyze(ts).CorrectPosition();
            && c <= |ts| && Fixed(ts) == ts[..c] + (blanks + ([definition] + (filler + rest)))
            && c + |blanks| == InsertPosition(ts)
            && Clean(blanks + rest) && KeptInTail(ts) == TailLoggers(blanks + rest, c)
    ensures definition.kind.Logger? && 1 + |filler| == InsertedCount(ts)
    ensures InsertPosition(ts) <= |Remaining(ts)| && rest == Remaining(ts)[InsertPosition(ts)..]
    ensures forall i :: 0 <= i < |filler| ==> filler[i] == BLANK
    ensures forall i :: 0 <= i < |blanks| ==> blanks[i].kind.Skipped?
  {
    RemainingTail(ts);
    MisplacedAreLoggers(ts);
    definition := ts[Misplaced(Analyze(ts))[0]];
    blanks, filler, rest := PutBackParts(Remaining(ts), Analyze(ts).CorrectPosition(), definition);
    assert Fixed(ts) == PutBack(Remaining(ts), Analyze(ts).CorrectPosition(), definition);
  }

  lemma RemainingTail(ts: seq<Token>)
    ensures var c, r := Analyze(ts).CorrectPosition(), Remaining(ts);
            && c <= |ts| && c <= |r| && r[..c] == ts[..c] && Clean(r[c..]) && KeptInTail(ts) == TailLoggers(r[c..], c)
  {
    RemovalKeepsStructure(ts);
  }

  lemma TailStructure(ts: seq<Token>, tail: seq<Token>, positions: seq<nat>)
    requires Clean(tail) && positions == TailLoggers(tail, Analyze(ts).CorrectPosition())
    ensures var c := Analyze(ts).CorrectPosition();
            && c <= |ts|
            && Analyze(ts[..c] + tail).CorrectPosition() == c
            && Analyze(ts[..c] + tail).loggerPositions == Scan(ts, c).st.loggerPositions + positions
            && Analyze(ts[..c] + tail).hasLoggingImport == Scan(ts, c).st.hasLoggingImport
            && (Analyze(ts[..c] + tail).properLoggerExists <==>
                Scan(ts, c).st.properLoggerExists || ProperWitness(positions, Scan(ts, c).st.lastImport))
  {
    NewTail(ts, tail);
  }

  /** A clean tail with `d` lines, the first of them a definition, inserted at `p`, behind skipped lines. */
  lemma InsertedTail(blanks: seq<Token>, definition: Token, filler: seq<Token>, rest: seq<Token>, base: nat,
                     kept: seq<nat>, p: nat, d: nat) returns (tail: seq<Token>)
    requires definition.kind.Logger?
    requires forall i :: 0 <= i < |filler| ==> filler[i].kind.Skipped?
    requires forall i :: 0 <= i < |blanks| ==> blanks[i].kind.Skipped?
    requires Clean(blanks + rest) && kept == TailLoggers(blanks + rest, base)
    requires p == base + |blanks| && d == 1 + |filler|
    ensures tail == blanks + ([definition] + (filler + rest))
    ensures Clean(tail) && [p] + Shift(kept, d) == TailLoggers(tail, base)
  {
    tail := blanks + ([definition] + (filler + rest));
    InsertedKeepClean(blanks, definition, filler, rest);
    InsertionStructure(blanks, definition, filler, rest, base, p, d);
  }

  /** The structure of a file whose first misplaced definition was put back. */
  lemma FixedStructure(ts: seq<Token>)
    requires NeedsFix(Analyze(ts)) && !Analyze(ts).properLoggerExists
    ensures var c, after := Analyze(ts).CorrectPosition(), Analyze(Fixed(ts));
            && c <= |ts| && after.CorrectPosition() == c
            && after.loggerPositions ==
               Scan(ts, c).st.loggerPositions + ([InsertPosition(ts)] + Shift(KeptInTail(ts), InsertedCount(ts)))
            && after.hasLoggingImport == Scan(ts, c).st.hasLoggingImport
            && (after.properLoggerExists <==>
                || Scan(ts, c).st.properLoggerExists
                || ProperWitness([InsertPosition(ts)] + Shift(KeptInTail(ts), InsertedCount(ts)), Scan(ts, c).st.lastImport))
  {
    var blanks, definition, filler, rest := FixedParts(ts);
    var tail := InsertedTail(blanks, definition, filler, rest, Analyze(ts).CorrectPosition(),
                             KeptInTail(ts), InsertPosition(ts), InsertedCount(ts));
    TailStructure(ts, tail, [InsertPosition(ts)] + Shift(KeptInTail(ts), InsertedCount(ts)));
  }

  /** The early return for a single, proper definition never hides a misplaced one. */
  lemma NeedsFixIff(ts: seq<Token>)
    ensures NeedsFix(Analyze(ts)) <==> Analyze(ts).hasLoggingImport && Misplaced(Analyze(ts)) != []
  {
    var st := Analyze(ts);
    ScanAnchors(ts, |ts|);
    AboveMembers(st.loggerPositions, st.CorrectPosition() + 20);
    HeadIsIn(Misplaced(st));
  }

  lemma KeptBehindInsertion(ts: seq<Token>)
    requires NeedsFix(Analyze(ts)) && !Analyze(ts).properLoggerExists
    ensures forall q :: q in KeptInTail(ts) ==> InsertPosition(ts) <= q
  {
    var blanks, definition, filler, rest := FixedParts(ts);
    BlanksInFront(blanks, rest, Analyze(ts).CorrectPosition());
  }

  /** A proper definition is never misplaced, so it survives the rewrite. */
  lemma RemovalStructure(ts: seq<Token>)
    requires NeedsFix(Analyze(ts)) && Analyze(ts).properLoggerExists
    ensures var c, after := Analyze(ts).CorrectPosition(), Analyze(Fixed(ts));
            && c <= |ts| && c <= |Fixed(ts)|
            && after == WithTail(Scan(ts, c).st, Fixed(ts)[c..], c)
            && after.CorrectPosition() == c
            && after.loggerPositions == Scan(ts, c).st.loggerPositions + KeptInTail(ts)
  {
    RemovalKeepsStructure(ts);
    var c := Analyze(ts).CorrectPosition();
    var r := Remaining(ts);
    assert r == ts[..c] + r[c..];
    NewTail(ts, r[c..]);
  }

  // ---- main results ----

  /** A rewritten file still defines its logger. */
  lemma DefinitionRemains(ts: seq<Token>)
    requires NeedsFix(Analyze(ts))
    ensures Analyze(Fixed(ts)).loggerPositions != []
  {
    if Analyze(ts).properLoggerExists {
      ProperRemains(ts);
    } else {
      FixedStructure(ts);
    }
  }

  lemma ProperRemains(ts: seq<Token>)
    requires NeedsFix(Analyze(ts)) && Analyze(ts).properLoggerExists
    ensures Analyze(Fixed(ts)).loggerPositions != []
  {
    var st := Analyze(ts);
    ScanProper(ts, |ts|);
    var q :| q in st.loggerPositions && q <= st.lastImport + 10;
    ScanSplits(ts);
    RemovalStructure(ts);
    FrontStructure(ts);
    KeptPositions(ts);
    if q !in Scan(ts, st.CorrectPosition()).st.loggerPositions {
      assert q in KeptInTail(ts);
    }
  }

  /** The definitions above the correct position, and those below. */
  lemma ScanSplits(ts: seq<Token>)
    ensures var c := Analyze(ts).CorrectPosition();
            && c <= |ts|
            && forall q :: q in Analyze(ts).loggerPositions ==> q in Scan(ts, c).st.loggerPositions || c <= q
  {
    SplitAtCorrectPosition(ts);
  }

  /** More than twenty blank lines separate the correct position from the inserted line, or the
      inserted lines push a kept definition beyond the twenty-line limit. */
  ghost predicate Overflows(ts: seq<Token>) {
    var p, d, limit := InsertPosition(ts), InsertedCount(ts), Analyze(ts).CorrectPosition() + 20;
    limit < p || exists q :: q in Analyze(ts).loggerPositions && p <= q <= limit < q + d
  }

  lemma OverflowsKept(ts: seq<Token>)
    requires NeedsFix(Analyze(ts)) && !Analyze(ts).properLoggerExists
    ensures var p, d, limit := InsertPosition(ts), InsertedCount(ts), Analyze(ts).CorrectPosition() + 20;
            Overflows(ts) <==> limit < p || exists q :: q in KeptInTail(ts) && limit < q + d
  {
    FrontStructure(ts);
    KeptPositions(ts);
    KeptBehindInsertion(ts);
  }

  lemma SecondRunAfterRelocation(ts: seq<Token>)
    requires NeedsFix(Analyze(ts)) && !Analyze(ts).properLoggerExists
    ensures NeedsFix(Analyze(Fixed(ts))) <==> Overflows(ts)
  {
    FixedStructure(ts);
    FrontStructure(ts);
    KeptPositions(ts);
    KeptBehindInsertion(ts);
    NeedsFixIff(Fixed(ts));
    OverflowsKept(ts);
    SecondMisplaced(Analyze(Fixed(ts)), Scan(ts, Analyze(ts).CorrectPosition()).st.loggerPositions,
                    KeptInTail(ts), InsertPosition(ts), InsertedCount(ts));
  }

  /** A second run rewrites the file again exactly when no proper definition existed and the
      relocation overflows the twenty-line limit. */
  lemma SecondRun(ts: seq<Token>)
    requires NeedsFix(Analyze(ts))
    ensures NeedsFix(Analyze(Fixed(ts))) <==> !Analyze(ts).properLoggerExists && Overflows(ts)
  {
    if Analyze(ts).properLoggerExists {
      NothingLeftToRemove(ts);
    } else {
      SecondRunAfterRelocation(ts);
    }
  }

  lemma AllMisplacedFits(ts: seq<Token>)
    requires InsertPosition(ts) <= Analyze(ts).CorrectPosition() + 20
    requires |Misplaced(Analyze(ts))| == |Analyze(ts).loggerPositions|
    ensures !Overflows(ts)
  {
    AboveAll(Analyze(ts).loggerPositions, Analyze(ts).CorrectPosition() + 20);
  }

  lemma NothingLeftToRemove(ts: seq<Token>)
    requires NeedsFix(Analyze(ts)) && Analyze(ts).properLoggerExists
    ensures Misplaced(Analyze(Fixed(ts))) == []
  {
    var after := Analyze(Fixed(ts));
    FrontStructure(ts);
    KeptPositions(ts);
    RemovalStructure(ts);
    AboveMembers(after.loggerPositions, after.CorrectPosition() + 20);
    HeadIsIn(Misplaced(after));
  }

  lemma FrontStructure(ts: seq<Token>)
    ensures var c := Analyze(ts).CorrectPosition();
            && c <= |ts|
            && Scan(ts, c).st.hasLoggingImport == Analyze(ts).hasLoggingImport
            && (Scan(ts, c).st.properLoggerExists ==> Analyze(ts).properLoggerExists)
            && (forall q :: q in Scan(ts, c).st.loggerPositions ==> q < c)
            && Analyze(ts).loggerPositions == Scan(ts, c).st.loggerPositions + TailLoggers(ts[c..], c)
  {
    SplitAtCorrectPosition(ts);
  }

  lemma UpToMembers(front: seq<nat>, tail: seq<nat>, c: nat, limit: nat)
    requires forall q :: q in front ==> q < c
    requires forall q :: q in tail ==> c <= q
    ensures forall q :: q in UpTo(tail, limit) <==> q in front + tail && c <= q <= limit
  {
    AboveMembers(tail, limit);
  }

  /** The definitions that stay below the correct position, as members of all definitions. */
  lemma KeptPositions(ts: seq<Token>)
    ensures forall q :: q in KeptInTail(ts) <==>
              && q in Analyze(ts).loggerPositions
              && Analyze(ts).CorrectPosition() <= q <= Analyze(ts).CorrectPosition() + 20
  {
    FrontStructure(ts);
    SplitMembers(ts, Analyze(ts).CorrectPosition(), Scan(ts, Analyze(ts).CorrectPosition()).st.loggerPositions,
                 Analyze(ts).loggerPositions, KeptInTail(ts));
  }

  lemma SplitMembers(ts: seq<Token>, c: nat, front: seq<nat>, all: seq<nat>, kept: seq<nat>)
    requires c <= |ts| && all == front + TailLoggers(ts[c..], c) && kept == UpTo(TailLoggers(ts[c..], c), c + 20)
    requires forall q :: q in front ==> q < c
    ensures forall q :: q in kept <==> q in all && c <= q <= c + 20
  {
    UpToMembers(front, TailLoggers(ts[c..], c), c, c + 20);
  }

  lemma SecondMisplaced(after: Structure, front: seq<nat>, kept: seq<nat>, p: nat, d: nat)
    requires after.loggerPositions == front + ([p] + Shift(kept, d))
    requires forall q :: q in front ==> q < after.CorrectPosition()
    requires after.hasLoggingImport
    requires forall q :: q in kept ==> p <= q
    ensures var limit := after.CorrectPosition() + 20;
            && (Misplaced(after) != [] <==> limit < p || exists q :: q in kept && limit < q + d)
  {
    var limit := after.CorrectPosition() + 20;
    AboveMembers(after.loggerPositions, limit);
    HeadIsIn(Misplaced(after));
    forall i | 0 <= i < |kept|
      ensures limit < kept[i] + d ==> kept[i] + d in Misplaced(after)
    {
      assert Shift(kept, d)[i] == kept[i] + d;
    }
    assert limit < p ==> p in Misplaced(after);
    if Misplaced(after) != [] && p <= limit {
      var m := Misplaced(after)[0];
      assert m in Shift(kept, d);
      var i :| 0 <= i < |kept| && Shift(kept, d)[i] == m;
      assert kept[i] in kept && limit < kept[i] + d;
    }
  }

  // ---- when a run changes the file ----

  predicate IsBlankToken(t: Token) {
    t == BLANK
  }

  lemma MisplacedIndices(ts: seq<Token>, i: int)
    requires i in Indices(Misplaced(Analyze(ts)))
    ensures Analyze(ts).CorrectPosition() + 20 < i < |ts| && ts[i].kind.Logger?
  {
    MisplacedAreLoggers(ts);
    AboveMembers(Analyze(ts).loggerPositions, Analyze(ts).CorrectPosition() + 20);
  }

  lemma RemovalShortens(ts: seq<Token>)
    requires Misplaced(Analyze(ts)) != []
    ensures |Remaining(ts)| < |ts|
  {
    var q := Misplaced(Analyze(ts))[0];
    assert q in Indices(Misplaced(Analyze(ts)));
    MisplacedIndices(ts, q);
    DropShortens(ts, 0, Indices(Misplaced(Analyze(ts))), q);
  }

  /** Putting a definition back in front of some code adds an empty line; removing definitions removes none. */
  lemma OneMoreBlank(ts: seq<Token>)
    requires NeedsFix(Analyze(ts)) && !Analyze(ts).properLoggerExists && InsertPosition(ts) < |Remaining(ts)|
    ensures CountIf(Fixed(ts), IsBlankToken) == CountIf(ts, IsBlankToken) + 1
  {
    var drop := Indices(Misplaced(Analyze(ts)));
    forall i | 0 <= i < |ts| && IsBlankToken(ts[i]) ensures i !in drop {
      if i in drop {
        MisplacedIndices(ts, i);
      }
    }
    CountWithout(ts, drop, IsBlankToken);
    MisplacedAreLoggers(ts);
    RemainingTail(ts);
    var definition := ts[Misplaced(Analyze(ts))[0]];
    CountInsert(Remaining(ts), InsertPosition(ts), Inserted(false, definition), IsBlankToken);
    InsertedBlank(definition);
  }

  lemma InsertedBlank(definition: Token)
    requires definition.kind.Logger?
    ensures CountIf(Inserted(false, definition), IsBlankToken) == 1
  {
    CountHead(definition, [BLANK], IsBlankToken);
    CountHead(BLANK, [], IsBlankToken);
    assert [BLANK] + [] == [BLANK];
  }

  /** A rewriting run changes the file, except perhaps when it puts a definition back at the very end. */
  lemma RunChanges(ts: seq<Token>)
    requires NeedsFix(Analyze(ts))
    requires Analyze(ts).properLoggerExists || InsertPosition(ts) < |Remaining(ts)|
    ensures Fixed(ts) != ts
  {
    if Analyze(ts).properLoggerExists {
      RemovalShortens(ts);
    } else {
      OneMoreBlank(ts);
    }
  }

  lemma StopsBefore(r: seq<Token>, at: nat, t: Token)
    requires at <= |r| && t in r[at..] && !t.blank
    ensures SkipBlank(r, at) < |r|
  {
    var k :| 0 <= k < |r[at..]| && r[at..][k] == t;
    assert r[at + k] == t;
  }

  /** What is not a misplaced definition remains below the correct position. */
  lemma RemainsInTail(ts: seq<Token>, front: seq<Token>, tail: seq<Token>, k: nat)
    requires ts == front + tail && |front| == Analyze(ts).CorrectPosition() && k < |tail|
    requires |front| + k !in Indices(Misplaced(Analyze(ts)))
    ensures |front| <= |Remaining(ts)| && tail[k] in Remaining(ts)[|front|..]
  {
    var drop := Indices(Misplaced(Analyze(ts)));
    forall i | 0 <= i < |front| ensures i !in drop {
      if i in drop {
        MisplacedIndices(ts, i);
      }
    }
    DropBehind(front, tail, 0, drop);
    DropKeeps(tail, |front|, drop, k);
    assert Remaining(ts)[|front|..] == Drop(tail, |front|, drop);
  }

  /** A definition at the first line behind the blank ones was in reach of the limit. */
  lemma FirstDefinitionIsKept(ts: seq<Token>)
    requires NeedsFix(Analyze(ts)) && !Analyze(ts).properLoggerExists && InsertPosition(ts) < |Remaining(ts)|
    requires Remaining(ts)[InsertPosition(ts)].kind.Logger?
    ensures InsertPosition(ts) <= Analyze(ts).CorrectPosition() + 20
  {
    var blanks, definition, filler, rest := FixedParts(ts);
    BlanksInFront(blanks, rest, Analyze(ts).CorrectPosition());
    LoggerInFront(rest, InsertPosition(ts));
    assert InsertPosition(ts) in KeptInTail(ts);
    AboveMembers(TailLoggers(ts[Analyze(ts).CorrectPosition()..], Analyze(ts).CorrectPosition()),
                 Analyze(ts).CorrectPosition() + 20);
  }

  /** A line below the correct position that the second run will not remove. */
  lemma Survivor(ts: seq<Token>) returns (tail: seq<Token>, k: nat)
    requires NeedsFix(Analyze(ts)) && !Analyze(ts).properLoggerExists && InsertPosition(ts) < |Remaining(ts)|
    ensures Analyze(ts).CorrectPosition() <= |ts| && Fixed(ts) == ts[..Analyze(ts).CorrectPosition()] + tail
    ensures k < |tail| && !tail[k].blank && (tail[k].kind.Logger? ==> k <= 20)
  {
    var blanks, definition, filler, rest := FixedParts(ts);
    tail := blanks + ([definition] + (filler + rest));
    if rest[0].kind.Logger? {
      FirstDefinitionIsKept(ts);
      k := |blanks|;
      assert tail[k] == definition;
    } else {
      k := |blanks| + 2;
      SecondInside(blanks, definition, filler, rest);
    }
  }

  lemma SecondInside(blanks: seq<Token>, definition: Token, filler: seq<Token>, rest: seq<Token>)
    requires |filler| == 1 && rest != []
    ensures (blanks + ([definition] + (filler + rest)))[|blanks| + 2] == rest[0]
  {
  }

  /** Where code follows the definition that was put back, a second run does not reach the end of the file. */
  lemma CodeStillFollows(ts: seq<Token>)
    requires NeedsFix(Analyze(ts)) && !Analyze(ts).properLoggerExists && InsertPosition(ts) < |Remaining(ts)|
    ensures InsertPosition(Fixed(ts)) < |Remaining(Fixed(ts))|
  {
    var tail, k := Survivor(ts);
    FixedStructure(ts);
    SurvivorStays(Fixed(ts), ts[..Analyze(ts).CorrectPosition()], tail, k);
  }

  lemma SurvivorStays(f: seq<Token>, front: seq<Token>, tail: seq<Token>, k: nat)
    requires f == front + tail && |front| == Analyze(f).CorrectPosition()
    requires k < |tail| && !tail[k].blank && (tail[k].kind.Logger? ==> k <= 20)
    ensures InsertPosition(f) < |Remaining(f)|
  {
    if |front| + k in Indices(Misplaced(Analyze(f))) {
      MisplacedIndices(f, |front| + k);
    }
    RemainsInTail(f, front, tail, k);
    StopsBefore(Remaining(f), |front|, tail[k]);
  }

  /** A second run changes the file again. */
  lemma SecondRunChanges(ts: seq<Token>)
    requires NeedsFix(Analyze(ts)) && !Analyze(ts).properLoggerExists
    requires Overflows(ts) && InsertPosition(ts) < |Remaining(ts)|
    ensures NeedsFix(Analyze(Fixed(ts))) && Fixed(Fixed(ts)) != Fixed(ts)
  {
    SecondRun(ts);
    CodeStillFollows(ts);
    RunChanges(Fixed(ts));
  }

  /** A definition put back at the very end, beyond the limit, is the only misplaced one there. */
  lemma EndIsOnlyMisplaced(ts: seq<Token>)
    requires NeedsFix(Analyze(ts)) && !Analyze(ts).properLoggerExists && InsertPosition(ts) == |Remaining(ts)|
    requires NeedsFix(Analyze(Fixed(ts)))
    ensures var after := Analyze(Fixed(ts));
            && !after.properLoggerExists && Misplaced(after) == [InsertPosition(ts)]
            && after.CorrectPosition() == Analyze(ts).CorrectPosition()
  {
    var c, p := Analyze(ts).CorrectPosition(), InsertPosition(ts);
    EndStructure(ts);
    FrontStructure(ts);
    SecondRun(ts);
    OverflowsKept(ts);
    NoneKeptAtEnd(ts);
    ScanBounds(ts, c);
    OnlyLastAbove(Scan(ts, c).st.loggerPositions, p, c + 20);
  }

  lemma EndStructure(ts: seq<Token>)
    requires NeedsFix(Analyze(ts)) && !Analyze(ts).properLoggerExists && InsertPosition(ts) == |Remaining(ts)|
    ensures var c, p, after := Analyze(ts).CorrectPosition(), InsertPosition(ts), Analyze(Fixed(ts));
            && c <= |ts| && after.CorrectPosition() == c
            && after.loggerPositions == Scan(ts, c).st.loggerPositions + [p]
            && (after.properLoggerExists ==> Scan(ts, c).st.properLoggerExists || p <= Scan(ts, c).st.lastImport + 10)
  {
    FixedStructure(ts);
    NoneKeptAtEnd(ts);
    assert [InsertPosition(ts)] + Shift([], InsertedCount(ts)) == [InsertPosition(ts)];
  }

  lemma NoneKeptAtEnd(ts: seq<Token>)
    requires NeedsFix(Analyze(ts)) && !Analyze(ts).properLoggerExists && InsertPosition(ts) == |Remaining(ts)|
    ensures KeptInTail(ts) == []
  {
    var blanks, definition, filler, rest := FixedParts(ts);
    BlanksInFront(blanks, rest, Analyze(ts).CorrectPosition());
  }

  lemma OnlyLastAbove(front: seq<nat>, p: nat, limit: nat)
    requires limit < p && forall q :: q in front ==> q <= limit
    ensures Above(front + [p], limit) == [p]
  {
    AboveAppend(front, [p], limit);
    AboveMembers(front, limit);
    HeadIsIn(Above(front, limit));
    assert [p][1..] == [];
  }

  // ---- the drifting definition ----

  /** A single, improper definition that goes back below more than twenty blank lines, with code after it. */
  ghost predicate Drifting(ts: seq<Token>) {
    && NeedsFix(Analyze(ts)) && !Analyze(ts).properLoggerExists && |Analyze(ts).loggerPositions| == 1
    && Analyze(ts).CorrectPosition() + 20 < InsertPosition(ts) < |Remaining(ts)|
  }

  lemma SkipBlankStops(ts: seq<Token>, at: nat, p: nat)
    requires at <= p < |ts| && !ts[p].blank
    requires forall i :: at <= i < p ==> ts[i].blank
    ensures SkipBlank(ts, at) == p
    decreases p - at
  {
    if at < p {
      SkipBlankStops(ts, at + 1, p);
    }
  }

  /** Taking the definition out again leaves one more blank line than before. */
  lemma DriftLines(r: seq<Token>, p: nat, at: nat, definition: Token)
    requires at <= p < |r| && p == SkipBlank(r, at)
    ensures var again := Drop(Insert(r, p, [definition, BLANK]), 0, {p});
            |again| == |r| + 1 && SkipBlank(again, at) == p + 1
  {
    var f := Insert(r, p, [definition, BLANK]);
    var again := Drop(f, 0, {p});
    DropNothing(f, 0, {});
    PopInFront(f, {}, p);
    assert {} + {p} == {p};
    assert again == f[..p] + f[p + 1..];
    SkipBlankStops(again, at, p + 1);
  }

  lemma SingleDefinition(ts: seq<Token>)
    requires Misplaced(Analyze(ts)) != [] && |Analyze(ts).loggerPositions| == 1
    ensures var c := Analyze(ts).CorrectPosition();
            c <= |ts| && Scan(ts, c).st.loggerPositions == [] && KeptInTail(ts) == []
  {
    var c, q := Analyze(ts).CorrectPosition(), Analyze(ts).loggerPositions[0];
    AboveMembers(Analyze(ts).loggerPositions, c + 20);
    HeadIsIn(Misplaced(Analyze(ts)));
    assert c + 20 < q;
    FrontStructure(ts);
    KeptPositions(ts);
    HeadIsIn(KeptInTail(ts));
    SplitAtCorrectPosition(ts);
    assert Analyze(ts).loggerPositions == Scan(ts, c).st.loggerPositions + TailLoggers(ts[c..], c);
    HeadIsIn(Scan(ts, c).st.loggerPositions);
  }

  lemma SoleDefinition(st: Structure, front: seq<nat>, p: nat, kept: seq<nat>, d: nat)
    requires st.loggerPositions == front + ([p] + Shift(kept, d)) && front == [] && kept == []
    ensures st.loggerPositions == [p]
  {
  }

  lemma DriftStructure(ts: seq<Token>)
    requires Drifting(ts)
    ensures Analyze(Fixed(ts)).loggerPositions == [InsertPosition(ts)]
    ensures Analyze(Fixed(ts)).CorrectPosition() == Analyze(ts).CorrectPosition()
    ensures !Analyze(Fixed(ts)).properLoggerExists
  {
    SingleDefinition(ts);
    FixedStructure(ts);
    SoleDefinition(Analyze(Fixed(ts)), Scan(ts, Analyze(ts).CorrectPosition()).st.loggerPositions,
                   InsertPosition(ts), KeptInTail(ts), InsertedCount(ts));
    ScanAnchors(Fixed(ts), |Fixed(ts)|);
  }

  lemma FixedLength(ts: seq<Token>)
    requires NeedsFix(Analyze(ts)) && !Analyze(ts).properLoggerExists
    ensures |Fixed(ts)| == |Remaining(ts)| + InsertedCount(ts)
  {
    MisplacedAreLoggers(ts);
    RemainingTail(ts);
  }

  lemma OnlyOneMisplaced(st: Structure, p: nat)
    requires st.loggerPositions == [p] && st.CorrectPosition() + 20 < p
    ensures Misplaced(st) == [p] && Indices(Misplaced(st)) == {p}
  {
    OnlyLastAbove([], p, st.CorrectPosition() + 20);
    assert [] + [p] == [p];
  }

  lemma DriftedRemaining(ts: seq<Token>)
    requires Drifting(ts)
    ensures |Remaining(Fixed(ts))| == |Remaining(ts)| + 1 && InsertPosition(Fixed(ts)) == InsertPosition(ts) + 1
  {
    DriftStructure(ts);
    OnlyOneMisplaced(Analyze(Fixed(ts)), InsertPosition(ts));
    MisplacedAreLoggers(ts);
    RemainingTail(ts);
    var definition := ts[Misplaced(Analyze(ts))[0]];
    assert Inserted(false, definition) == [definition, BLANK];
    DriftLines(Remaining(ts), InsertPosition(ts), Analyze(ts).CorrectPosition(), definition);
  }

  lemma DriftGoesOn(ts: seq<Token>)
    requires Drifting(ts)
    ensures Drifting(Fixed(ts)) && |Fixed(Fixed(ts))| == |Fixed(ts)| + 1
  {
    DriftStructure(ts);
    SecondRunAfterRelocation(ts);
    DriftedRemaining(ts);
    FixedLength(ts);
    FixedLength(Fixed(ts));
  }

  lemma RemainingSingle(ts: seq<Token>, q: nat)
    requires q < |ts| && Misplaced(Analyze(ts)) == [q]
    ensures Remaining(ts) == ts[..q] + ts[q + 1..]
  {
    DropNothing(ts, 0, {});
    PopInFront(ts, {}, q);
    assert Indices([q]) == {} + {q};
  }

  /** An import, `n` blank lines, a definition and more code: such a file drifts for every `n` above twenty. */
  lemma DriftingFile(importing: Token, n: nat, definition: Token, code: Token)
    requires importing.kind == Import(true) && definition.kind.Logger? && code.kind.Other?
    requires 20 < n
    ensures Drifting([importing] + Repeat(BLANK, n) + [definition, code])
  {
    var ts := [importing] + Repeat(BLANK, n) + [definition, code];
    DriftingStructure(ts, importing, n, definition, code);
    OnlyOneMisplaced(Analyze(ts), n + 1);
    RemainingSingle(ts, n + 1);
    SkipBlankStops(Remaining(ts), 1, n + 1);
  }

  lemma DriftingStructure(ts: seq<Token>, importing: Token, n: nat, definition: Token, code: Token)
    requires ts == [importing] + Repeat(BLANK, n) + [definition, code] && 20 < n
    requires importing.kind == Import(true) && definition.kind.Logger? && code.kind.Other?
    ensures var st := Analyze(ts);
            && st.loggerPositions == [n + 1] && st.hasLoggingImport && !st.properLoggerExists
            && st.CorrectPosition() == 1
  {
    DriftingTail(Repeat(BLANK, n), definition, code, 1);
    assert ts[1..] == Repeat(BLANK, n) + [definition, code];
    assert Scan(ts, 0) == START;
    ScanCleanTail(ts, 1);
    assert [] + [n + 1] == [n + 1];
  }

  lemma DriftingTail(blanks: seq<Token>, definition: Token, code: Token, base: nat)
    requires forall i :: 0 <= i < |blanks| ==> blanks[i].kind.Skipped?
    requires definition.kind.Logger? && code.kind.Other?
    ensures Clean(blanks + [definition, code])
    ensures TailLoggers(blanks + [definition, code], base) == [base + |blanks|]
  {
    BlanksInFront(blanks, [definition, code], base);
    assert [definition, code][1..] == [code] && [code][1..] == [];
    assert Clean([code]) && TailLoggers([code], base + |blanks| + 1) == [];
  }
}
