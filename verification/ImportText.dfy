/** Where the logging import goes, read line by line on the text: for scripts/convert_prints_to_logs.py and
    scripts/fix_logging_imports.py. */
module ImportText {
  import opened Common
  import opened Text
  import opened LineEdits
  import Scan = ImportScan
  import opened LoggingImports

  /** The stripped line starts a docstring with this delimiter. */
  predicate Starts(s: string, q: string) {
    StartsWith(s, q)
  }

  /** And leaves it open: it does not end with the delimiter, or is nothing else. */
  predicate LeavesOpen(s: string, q: string) {
    Starts(s, q) && (!EndsWith(s, q) || s == q)
  }

  /** An import of something else than the logging module. */
  predicate OtherImport(line: string, s: string) {
    (StartsWith(s, "import ") || StartsWith(s, "from ")) && !Contains(line, "logging_manager")
  }

  /** What matters of the text of a line. */
  datatype Reading = Reading(
    opensDouble: bool, opensSingle: bool, endsDouble: bool, endsSingle: bool, imports: bool, other: bool)
  {
    /** The docstring that the next line is in, if this one is in `before`. */
    function Then(before: Option<Quote>): Option<Quote> {
      match before
      case Some(Double) => if endsDouble then None else before
      case Some(Single) => if endsSingle then None else before
      case None => if opensDouble then Some(Double) else if opensSingle then Some(Single) else None
    }
  }

  /** `other`: a line with text that is no docstring, no comment and no import. */
  function Read(line: string): Reading {
    var s := Strip(line);
    Reading(LeavesOpen(s, "\"\"\""), LeavesOpen(s, "'''"), EndsWith(s, "\"\"\""), EndsWith(s, "'''"),
            OtherImport(line, s),
            s != "" && !Starts(s, "\"\"\"") && !Starts(s, "'''") && s[0] != '#' && !OtherImport(line, s))
  }

  function Readings(lines: seq<string>): (rs: seq<Reading>)
    ensures |rs| == |lines|
  {
    seq(|lines|, i requires 0 <= i < |lines| => Read(lines[i]))
  }

  /** The docstring that line `n` is in, if any. */
  function InsideOf(rs: seq<Reading>, n: nat): Option<Quote>
    requires n <= |rs|
  {
    if n == 0 then None else rs[n - 1].Then(InsideOf(rs, n - 1))
  }

  predicate ImportsAt(rs: seq<Reading>, j: int) {
    0 <= j < |rs| && InsideOf(rs, j).None? && rs[j].imports
  }

  predicate CodeAt(rs: seq<Reading>, j: int) {
    0 <= j < |rs| && InsideOf(rs, j).None? && rs[j].other
  }

  // ---- one line ----

  /** A mark and a reading of the same line. */
  predicate Agree(t: Scan.Token, r: Reading) {
    && (r.opensDouble <==> t.mark.Opens? && t.mark.quote.Double? && t.mark.stays)
    && (r.opensSingle <==> t.mark.Opens? && t.mark.quote.Single? && t.mark.stays)
    && t.endsDouble == r.endsDouble && t.endsSingle == r.endsSingle
    && (r.imports <==> t.mark.Import?) && (r.other <==> t.mark.Code?)
  }

  lemma OneStart(s: string)
    ensures !(Starts(s, "\"\"\"") && Starts(s, "'''"))
    ensures StartsWith(s, "import ") || StartsWith(s, "from ") ==>
              !Starts(s, "\"\"\"") && !Starts(s, "'''") && s != "" && s[0] != '#'
    ensures StartsWith(s, "#") <==> s != "" && s[0] == '#'
  {
    assert Starts(s, "\"\"\"") ==> s != "" && s[0] == '"';
    assert Starts(s, "'''") ==> s != "" && s[0] == '\'';
    assert StartsWith(s, "import ") ==> s != "" && s[0] == 'i';
    assert StartsWith(s, "from ") ==> s != "" && s[0] == 'f';
  }

  lemma OnlyDelimiter(s: string, q: string)
    requires StartsWith(s, q)
    ensures s == q <==> |s| == |q|
  {
  }

  /** The mark of a line asks exactly for what a reader of its text wants to know. */
  lemma LineAgrees(line: string)
    ensures Agree(Classify(line), Read(line))
  {
    var s := Strip(line);
    OneStart(s);
    if StartsWith(s, DOUBLE_QUOTES) {
      OnlyDelimiter(s, DOUBLE_QUOTES);
    } else if StartsWith(s, SINGLE_QUOTES) {
      OnlyDelimiter(s, SINGLE_QUOTES);
    }
  }

  predicate AgreeAll(ts: seq<Scan.Token>, rs: seq<Reading>) {
    |ts| == |rs| && forall i :: 0 <= i < |ts| ==> Agree(ts[i], rs[i])
  }

  lemma LinesAgree(lines: seq<string>)
    ensures AgreeAll(Tokens(lines), Readings(lines))
  {
    forall i | 0 <= i < |lines| ensures Agree(Tokens(lines)[i], Readings(lines)[i]) {
      LineAgrees(lines[i]);
    }
  }

  function DocOf(inside: Option<Quote>): Scan.Docstring {
    if inside.Some? then Scan.Inside(inside.value) else Scan.Outside
  }

  lemma {:induction false} DocAgrees(ts: seq<Scan.Token>, rs: seq<Reading>, n: nat)
    requires AgreeAll(ts, rs) && n <= |ts|
    ensures Scan.DocAt(ts, n) == DocOf(InsideOf(rs, n))
  {
    if n > 0 {
      DocAgrees(ts, rs, n - 1);
      assert Agree(ts[n - 1], rs[n - 1]);
    }
  }

  lemma LinesTell(ts: seq<Scan.Token>, rs: seq<Reading>)
    requires AgreeAll(ts, rs)
    ensures forall j :: Scan.ImportAt(ts, j) <==> ImportsAt(rs, j)
    ensures forall j :: Scan.CodeAt(ts, j) <==> CodeAt(rs, j)
  {
    forall j
      ensures Scan.ImportAt(ts, j) <==> ImportsAt(rs, j)
      ensures Scan.CodeAt(ts, j) <==> CodeAt(rs, j)
    {
      if 0 <= j < |ts| {
        DocAgrees(ts, rs, j);
        assert Agree(ts[j], rs[j]);
      }
    }
  }

  // ---- the position, on the text ----

  /** `p` is outside docstrings: at the top without any import, and otherwise below the last import of the
      first block, with no code between its first import and `p`, and code in front of every later import. */
  ghost predicate BelowFirstBlock(rs: seq<Reading>, p: nat) {
    && p <= |rs| && InsideOf(rs, p).None?
    && (p == 0 <==> forall j :: !ImportsAt(rs, j))
    && (p > 0 ==> ImportsAt(rs, p - 1))
    && (forall f, j :: ImportsAt(rs, f) && f <= j < p ==> !CodeAt(rs, j))
    && (forall j :: p <= j && ImportsAt(rs, j) ==> exists i :: p <= i < j && CodeAt(rs, i))
  }

  lemma PositionTells(ts: seq<Scan.Token>, rs: seq<Reading>)
    requires AgreeAll(ts, rs)
    ensures BelowFirstBlock(rs, Scan.InsertPosition(ts))
  {
    var p := Scan.InsertPosition(ts);
    Scan.InsertBelowFirstImportBlock(ts);
    LinesTell(ts, rs);
    DocAgrees(ts, rs, p);
    forall j | p <= j && ImportsAt(rs, j) ensures exists i :: p <= i < j && CodeAt(rs, i) {
      assert Scan.ImportAt(ts, j);
      var i :| p <= i < j && Scan.CodeAt(ts, i);
      assert CodeAt(rs, i);
    }
  }

  /** There is only one such position. */
  lemma OnePosition(rs: seq<Reading>, p: nat, q: nat)
    requires BelowFirstBlock(rs, p) && BelowFirstBlock(rs, q)
    ensures p == q
  {
  }

  /** The block with the logging import goes exactly there, in both scripts. */
  lemma InsertedBelowFirstBlock(lines: seq<string>, path: string) returns (p: nat)
    ensures forall q: nat :: BelowFirstBlock(Readings(lines), q) <==> q == p
    ensures p <= |lines| && WithImport(lines, path) == Insert(lines, p, ImportBlock(path))
  {
    LinesAgree(lines);
    PositionTells(Tokens(lines), Readings(lines));
    p := Scan.InsertPosition(Tokens(lines));
    forall q: nat | BelowFirstBlock(Readings(lines), q) ensures q == p {
      OnePosition(Readings(lines), p, q);
    }
  }
}
