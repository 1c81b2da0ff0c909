/** Where scripts/convert_prints_to_logs.py and scripts/fix_logging_imports.py insert the logging
    import: both scan the classified lines of a file in the same way. */
module ImportScan {
  import opened Common

  /** What the scanner makes of a line outside a docstring. */
  datatype Mark = Opens(quote: Quote, stays: bool) | Skipped | Import | Code

  datatype Token = Token(mark: Mark, endsDouble: bool, endsSingle: bool) {
    predicate Ends(q: Quote) {
      if q.Double? then endsDouble else endsSingle
    }
  }

  datatype Docstring = Outside | Inside(quote: Quote)

  function Next(doc: Docstring, t: Token): Docstring {
    match doc
    case Inside(q) => if t.Ends(q) then Outside else doc
    case Outside => if t.mark.Opens? && t.mark.stays then Inside(t.mark.quote) else Outside
  }

  /** The docstring state in front of line `n`. */
  function DocAt(ts: seq<Token>, n: nat): Docstring
    requires n <= |ts|
  {
    if n == 0 then Outside else Next(DocAt(ts, n - 1), ts[n - 1])
  }

  predicate ImportAt(ts: seq<Token>, i: int) {
    0 <= i < |ts| && DocAt(ts, i).Outside? && ts[i].mark.Import?
  }

  predicate CodeAt(ts: seq<Token>, i: int) {
    0 <= i < |ts| && DocAt(ts, i).Outside? && ts[i].mark.Code?
  }

  /** The scan from line `i` on, with the position found so far. */
  function ScanFrom(ts: seq<Token>, i: nat, doc: Docstring, pos: nat): nat
    requires i <= |ts|
    decreases |ts| - i
  {
    if i == |ts| || (doc.Outside? && ts[i].mark.Code? && pos > 0) then pos
    else ScanFrom(ts, i + 1, Next(doc, ts[i]), if doc.Outside? && ts[i].mark.Import? then i + 1 else pos)
  }

  function InsertPosition(ts: seq<Token>): nat {
    ScanFrom(ts, 0, Outside, 0)
  }

  method FindInsertPosition(ts: seq<Token>) returns (insertPos: nat)
    ensures insertPos == InsertPosition(ts)
  {
    insertPos := 0;
    var inDocstring, docstringChar := false, Double;
    for i := 0 to |ts|
      invariant ScanFrom(ts, i, if inDocstring then Inside(docstringChar) else Outside, insertPos) == InsertPosition(ts)
    {
      if !inDocstring {
        if ts[i].mark.Opens? {
          docstringChar := ts[i].mark.quote;
          if ts[i].mark.stays {
            inDocstring := true;
          }
          continue;
        }
      } else {
        if ts[i].Ends(docstringChar) {
          inDocstring := false;
        }
        continue;
      }
      if ts[i].mark.Skipped? {
        continue;
      }
      if ts[i].mark.Import? {
        insertPos := i + 1;
      } else if insertPos > 0 {
        return;
      }
    }
  }

  /** `pos` is what the scan of the first `i` lines should have found. */
  ghost predicate Found(ts: seq<Token>, i: nat, pos: nat) {
    && pos <= i <= |ts|
    && (pos > 0 ==> ImportAt(ts, pos - 1))
    && (forall j :: pos <= j < i ==> !ImportAt(ts, j))
    && (forall f, j :: ImportAt(ts, f) && f <= j < i ==> !CodeAt(ts, j))
  }

  /** The scan may stop in front of line `e` with result `pos`. */
  ghost predicate StopsAt(ts: seq<Token>, e: nat, pos: nat) {
    Found(ts, e, pos) && (e == |ts| || (CodeAt(ts, e) && pos > 0))
  }

  lemma {:induction false} ScanFinds(ts: seq<Token>, i: nat, pos: nat) returns (e: nat)
    requires i <= |ts| && Found(ts, i, pos)
    ensures StopsAt(ts, e, ScanFrom(ts, i, DocAt(ts, i), pos))
    decreases |ts| - i
  {
    if i == |ts| || (DocAt(ts, i).Outside? && ts[i].mark.Code? && pos > 0) {
      e := i;
    } else {
      var pos' := if ImportAt(ts, i) then i + 1 else pos;
      forall f, j | ImportAt(ts, f) && f <= j < i + 1
        ensures !CodeAt(ts, j)
      {
      }
      e := ScanFinds(ts, i + 1, pos');
    }
  }

  /** The insertion point is at the top of the file when there is no import outside docstrings.
      Otherwise it is right below the last import of the first block of imports: there is no code
      between the first import and this point, and code in front of every later import.
      It is never inside a docstring. */
  lemma InsertBelowFirstImportBlock(ts: seq<Token>)
    ensures var p := InsertPosition(ts);
            && p <= |ts| && DocAt(ts, p).Outside?
            && (p == 0 <==> forall i :: !ImportAt(ts, i))
            && (p > 0 ==> ImportAt(ts, p - 1))
            && (forall f, j :: ImportAt(ts, f) && f <= j < p ==> !CodeAt(ts, j))
            && (forall j :: p <= j && ImportAt(ts, j) ==> exists i :: p <= i < j && CodeAt(ts, i))
  {
    var p := InsertPosition(ts);
    var e := ScanFinds(ts, 0, 0);
    forall j | p <= j && ImportAt(ts, j)
      ensures exists i :: p <= i < j && CodeAt(ts, i)
    {
      assert e <= j && CodeAt(ts, e) && e != j;
    }
  }
}
