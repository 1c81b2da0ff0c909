/** The migrations of `stock_basic_info`: fix_null_full_symbol of scripts/fix_null_full_symbol.py works
    under a unique index on the symbol, fix_full_symbol_index of scripts/fix_full_symbol_index.py
    drops the index first. */
module SymbolRepair {
  import opened Common
  import opened Text
  import opened FullSymbols

  type Id = int

  /** A document; `data` stands for all fields the migrations do not touch. */
  datatype Stock = Stock(code: Option<string>, fullSymbol: Option<string>, data: string)

  type Docs = map<Id, Stock>

  predicate Truthy(s: Option<string>) {
    s.Some? && s.value != ""
  }

  /** The symbols the unique index knows. */
  ghost function Symbols(docs: Docs): set<string> {
    set id | id in docs && Truthy(docs[id].fullSymbol) :: docs[id].fullSymbol.value
  }

  ghost predicate UniqueSymbols(docs: Docs) {
    forall a, b :: a in docs && b in docs && a != b && Truthy(docs[a].fullSymbol) ==> docs[a].fullSymbol != docs[b].fullSymbol
  }

  /** `records` are different selected documents. */
  ghost predicate Picked(docs: Docs, records: seq<Id>, selected: Stock -> bool) {
    && (forall i, j :: 0 <= i < j < |records| ==> records[i] != records[j])
    && (forall k :: 0 <= k < |records| ==> records[k] in docs && selected(docs[records[k]]))
  }

  /** `records` are all selected documents in the order of the cursor. */
  ghost predicate Listing(docs: Docs, records: seq<Id>, selected: Stock -> bool) {
    Picked(docs, records, selected) && forall id :: id in docs && selected(docs[id]) ==> id in records
  }

  // ---- fix_null_full_symbol: null, empty and missing symbols, under the index ----

  predicate Unset(s: Stock) {
    !Truthy(s.fullSymbol)
  }

  /** The symbol a record gets, empty if it is skipped. */
  function NewSymbol(s: Stock, gen: string -> string): string {
    if Truthy(s.code) then gen(s.code.value) else ""
  }

  /** Another document holds the symbol in the unique index. */
  predicate Taken(docs: Docs, symbol: string, id: Id) {
    exists other :: other in docs && other != id && docs[other].fullSymbol == Some(symbol)
  }

  datatype Progress = Progress(docs: Docs, success: nat, error: nat, skipped: nat)

  function Handle(r: Progress, id: Id, gen: string -> string, broken: set<Id>): Progress
    requires id in r.docs
  {
    var symbol := NewSymbol(r.docs[id], gen);
    if symbol == "" then r.(skipped := r.skipped + 1)
    else if id in broken || Taken(r.docs, symbol, id) then r.(error := r.error + 1)
    else r.(docs := r.docs[id := r.docs[id].(fullSymbol := Some(symbol))], success := r.success + 1)
  }

  ghost function After(docs: Docs, records: seq<Id>, n: nat, gen: string -> string, broken: set<Id>): (r: Progress)
    requires Picked(docs, records, Unset) && n <= |records|
    ensures r.docs.Keys == docs.Keys
    ensures forall k :: n <= k < |records| ==> r.docs[records[k]] == docs[records[k]]
  {
    if n == 0 then Progress(docs, 0, 0, 0)
    else Handle(After(docs, records, n - 1, gen, broken), records[n - 1], gen, broken)
  }

  lemma NextRecord(docs: Docs, records: seq<Id>, n: nat, gen: string -> string, broken: set<Id>)
    requires Picked(docs, records, Unset) && n < |records|
    ensures records[n] in After(docs, records, n, gen, broken).docs
    ensures After(docs, records, n + 1, gen, broken) ==
            Handle(After(docs, records, n, gen, broken), records[n], gen, broken)
  {
  }

  lemma HandleCounts(r: Progress, id: Id, gen: string -> string, broken: set<Id>)
    requires id in r.docs
    ensures var h := Handle(r, id, gen, broken);
            h.success + h.error + h.skipped == r.success + r.error + r.skipped + 1 && h.error >= r.error
  {
  }

  lemma {:induction false} CountersAddUp(docs: Docs, records: seq<Id>, n: nat, gen: string -> string, broken: set<Id>)
    requires Picked(docs, records, Unset) && n <= |records|
    ensures var r := After(docs, records, n, gen, broken); r.success + r.error + r.skipped == n
  {
    if n > 0 {
      CountersAddUp(docs, records, n - 1, gen, broken);
      HandleCounts(After(docs, records, n - 1, gen, broken), records[n - 1], gen, broken);
    }
  }

  ghost function UnsetIds(docs: Docs): set<Id> {
    set id | id in docs && Unset(docs[id])
  }

  lemma HandleUnset(r: Progress, id: Id, gen: string -> string, broken: set<Id>)
    requires id in r.docs && Unset(r.docs[id])
    ensures |UnsetIds(Handle(r, id, gen, broken).docs)| + Handle(r, id, gen, broken).success == |UnsetIds(r.docs)| + r.success
  {
    var now := Handle(r, id, gen, broken);
    assert id in UnsetIds(r.docs);
    if now.success > r.success {
      assert UnsetIds(now.docs) == UnsetIds(r.docs) - {id};
    }
  }

  /** The number of unset symbols falls by one with every success, and by nothing else. */
  lemma {:induction false} RemainingUnset(docs: Docs, records: seq<Id>, n: nat, gen: string -> string, broken: set<Id>)
    requires Picked(docs, records, Unset) && n <= |records|
    ensures var r := After(docs, records, n, gen, broken);
            |UnsetIds(r.docs)| + r.success == |UnsetIds(docs)|
  {
    if n > 0 {
      RemainingUnset(docs, records, n - 1, gen, broken);
      HandleUnset(After(docs, records, n - 1, gen, broken), records[n - 1], gen, broken);
    }
  }

  /** The index stays satisfied after every record. */
  lemma {:induction false} SymbolsStayUnique(docs: Docs, records: seq<Id>, n: nat, gen: string -> string, broken: set<Id>)
    requires Picked(docs, records, Unset) && n <= |records| && UniqueSymbols(docs)
    ensures UniqueSymbols(After(docs, records, n, gen, broken).docs)
  {
    if n > 0 {
      SymbolsStayUnique(docs, records, n - 1, gen, broken);
    }
  }

  /** A document is as before, or was unset and got its new symbol. */
  predicate OnlyFilled(before: Stock, now: Stock, gen: string -> string) {
    now == before || (Unset(before) && now == before.(fullSymbol := Some(NewSymbol(before, gen))))
  }

  lemma HandleFills(docs: Docs, r: Progress, handled: Id, gen: string -> string, broken: set<Id>, id: Id)
    requires id in docs && id in r.docs && OnlyFilled(docs[id], r.docs[id], gen)
    requires handled in r.docs && (handled == id ==> r.docs[id] == docs[id] && Unset(docs[id]))
    ensures id in Handle(r, handled, gen, broken).docs
    ensures OnlyFilled(docs[id], Handle(r, handled, gen, broken).docs[id], gen)
  {
  }

  /** Only selected documents change, and only in their symbol. */
  lemma {:induction false} OthersUnchanged(docs: Docs, records: seq<Id>, n: nat, gen: string -> string, broken: set<Id>, id: Id)
    requires Picked(docs, records, Unset) && n <= |records| && id in docs
    ensures OnlyFilled(docs[id], After(docs, records, n, gen, broken).docs[id], gen)
  {
    if n > 0 {
      OthersUnchanged(docs, records, n - 1, gen, broken, id);
      HandleFills(docs, After(docs, records, n - 1, gen, broken), records[n - 1], gen, broken, id);
    }
  }

  /** The records handled so far can all be written: their symbols are new and different. */
  ghost predicate NoClash(docs: Docs, records: seq<Id>, n: nat, gen: string -> string, broken: set<Id>)
    requires Picked(docs, records, Unset) && n <= |records|
  {
    forall i :: 0 <= i < n && NewSymbol(docs[records[i]], gen) != "" ==>
      && records[i] !in broken
      && NewSymbol(docs[records[i]], gen) !in Symbols(docs)
      && forall j :: 0 <= j < i ==> NewSymbol(docs[records[j]], gen) != NewSymbol(docs[records[i]], gen)
  }

  /** While nothing failed, exactly the handled records have their new symbols. */
  ghost predicate AllWritten(docs: Docs, records: seq<Id>, n: nat, gen: string -> string, now: Docs)
    requires Picked(docs, records, Unset) && n <= |records|
  {
    && now.Keys == docs.Keys
    && (forall id :: id in docs && id !in records[..n] ==> now[id] == docs[id])
    && (forall i :: 0 <= i < n ==>
          now[records[i]] ==
          if NewSymbol(docs[records[i]], gen) == "" then docs[records[i]]
          else docs[records[i]].(fullSymbol := Some(NewSymbol(docs[records[i]], gen))))
  }

  lemma TakenWhenAllWritten(docs: Docs, records: seq<Id>, n: nat, gen: string -> string, now: Docs, symbol: string)
    requires Picked(docs, records, Unset) && n < |records| && AllWritten(docs, records, n, gen, now) && symbol != ""
    ensures Taken(now, symbol, records[n]) <==>
            symbol in Symbols(docs) || exists j :: 0 <= j < n && NewSymbol(docs[records[j]], gen) == symbol
  {
    if symbol in Symbols(docs) {
      var other :| other in docs && docs[other].fullSymbol == Some(symbol);
      assert other !in records[..n] && other != records[n];
    }
    if j :| 0 <= j < n && NewSymbol(docs[records[j]], gen) == symbol {
      assert now[records[j]].fullSymbol == Some(symbol) && records[j] != records[n];
    }
    if Taken(now, symbol, records[n]) {
      var other :| other in now && other != records[n] && now[other].fullSymbol == Some(symbol);
      if other in records[..n] {
        var j :| 0 <= j < n && records[j] == other;
      } else {
        assert docs[other].fullSymbol == Some(symbol);
      }
    }
  }

  lemma ClashesStay(docs: Docs, records: seq<Id>, n: nat, gen: string -> string, broken: set<Id>)
    requires Picked(docs, records, Unset) && n < |records|
    ensures NoClash(docs, records, n + 1, gen, broken) ==> NoClash(docs, records, n, gen, broken)
  {
  }

  lemma NextClash(docs: Docs, records: seq<Id>, n: nat, gen: string -> string, broken: set<Id>, before: Progress)
    requires Picked(docs, records, Unset) && n < |records| && NoClash(docs, records, n, gen, broken)
    requires AllWritten(docs, records, n, gen, before.docs) && before.error == 0
    ensures var now := Handle(before, records[n], gen, broken);
            && (now.error == 0 <==> NoClash(docs, records, n + 1, gen, broken))
            && (now.error == 0 ==> AllWritten(docs, records, n + 1, gen, now.docs))
  {
    var id := records[n];
    assert id !in records[..n] && before.docs[id] == docs[id];
    var symbol := NewSymbol(docs[id], gen);
    if symbol != "" {
      TakenWhenAllWritten(docs, records, n, gen, before.docs, symbol);
    }
    assert records[..n + 1] == records[..n] + [id];
  }

  /** The counters and the documents after `n` records agree with whether their symbols clash. */
  ghost predicate ErrorsTell(docs: Docs, records: seq<Id>, n: nat, gen: string -> string, broken: set<Id>, r: Progress)
    requires Picked(docs, records, Unset) && n <= |records|
  {
    && (r.error == 0 <==> NoClash(docs, records, n, gen, broken))
    && (r.error == 0 ==> AllWritten(docs, records, n, gen, r.docs))
  }

  lemma NextError(docs: Docs, records: seq<Id>, n: nat, gen: string -> string, broken: set<Id>,
                  before: Progress, now: Progress)
    requires Picked(docs, records, Unset) && 0 < n <= |records|
    requires records[n - 1] in before.docs && now == Handle(before, records[n - 1], gen, broken)
    requires ErrorsTell(docs, records, n - 1, gen, broken, before)
    ensures ErrorsTell(docs, records, n, gen, broken, now)
  {
    if NoClash(docs, records, n - 1, gen, broken) {
      NextClash(docs, records, n - 1, gen, broken, before);
    } else {
      ClashesStay(docs, records, n - 1, gen, broken);
      HandleCounts(before, records[n - 1], gen, broken);
    }
  }

  lemma FirstError(docs: Docs, records: seq<Id>, gen: string -> string, broken: set<Id>)
    requires Picked(docs, records, Unset)
    ensures ErrorsTell(docs, records, 0, gen, broken, Progress(docs, 0, 0, 0))
  {
  }

  /** No record fails exactly when no two new symbols clash with each other or with an old one
      (and no update is refused for another reason); then all of them are written. */
  lemma {:induction false} NoErrorIffNoClash(docs: Docs, records: seq<Id>, n: nat, gen: string -> string, broken: set<Id>)
    requires Picked(docs, records, Unset) && n <= |records|
    ensures ErrorsTell(docs, records, n, gen, broken, After(docs, records, n, gen, broken))
  {
    if n > 0 {
      NoErrorIffNoClash(docs, records, n - 1, gen, broken);
      var before, now := After(docs, records, n - 1, gen, broken), After(docs, records, n, gen, broken);
      assert records[n - 1] in before.docs && now == Handle(before, records[n - 1], gen, broken);
      NextError(docs, records, n, gen, broken, before, now);
    } else {
      FirstError(docs, records, gen, broken);
    }
  }

  // ---- the symbol of every record, whatever fails ----

  /** Record number `k` gets its symbol: nothing refuses its update, no document had the symbol before
      and no earlier record could take it. A failed record gives the symbol up to the next one. */
  ghost predicate Gets(docs: Docs, records: seq<Id>, k: nat, gen: string -> string, broken: set<Id>)
    requires Picked(docs, records, Unset) && k < |records|
  {
    var symbol := NewSymbol(docs[records[k]], gen);
    && symbol != "" && records[k] !in broken && symbol !in Symbols(docs)
    && forall j :: 0 <= j < k && NewSymbol(docs[records[j]], gen) == symbol ==> records[j] in broken
  }

  /** The documents after `n` records. */
  ghost predicate Settled(docs: Docs, records: seq<Id>, n: nat, gen: string -> string, broken: set<Id>, now: Docs)
    requires Picked(docs, records, Unset) && n <= |records|
  {
    && now.Keys == docs.Keys
    && (forall id :: id in docs && id !in records[..n] ==> now[id] == docs[id])
    && (forall k :: 0 <= k < n ==>
          now[records[k]] ==
          if Gets(docs, records, k, gen, broken)
          then docs[records[k]].(fullSymbol := Some(NewSymbol(docs[records[k]], gen))) else docs[records[k]])
  }

  /** If an earlier record could take a symbol that was free, some earlier record got it. */
  lemma {:induction false} SomeoneGets(docs: Docs, records: seq<Id>, j: nat, gen: string -> string, broken: set<Id>)
    returns (i: nat)
    requires Picked(docs, records, Unset) && j < |records| && records[j] !in broken
    requires NewSymbol(docs[records[j]], gen) != "" && NewSymbol(docs[records[j]], gen) !in Symbols(docs)
    ensures i <= j && Gets(docs, records, i, gen, broken)
    ensures NewSymbol(docs[records[i]], gen) == NewSymbol(docs[records[j]], gen)
  {
    if earlier: nat :| earlier < j && NewSymbol(docs[records[earlier]], gen) == NewSymbol(docs[records[j]], gen)
                       && records[earlier] !in broken {
      i := SomeoneGets(docs, records, earlier, gen, broken);
    } else {
      i := j;
    }
  }

  /** The index refuses a symbol exactly when a document had it before or an earlier record got it. */
  lemma TakenWhenSettled(docs: Docs, records: seq<Id>, n: nat, gen: string -> string, broken: set<Id>, now: Docs,
                         symbol: string)
    requires Picked(docs, records, Unset) && n < |records| && Settled(docs, records, n, gen, broken, now) && symbol != ""
    ensures Taken(now, symbol, records[n]) <==>
            symbol in Symbols(docs)
            || exists j :: 0 <= j < n && Gets(docs, records, j, gen, broken) && NewSymbol(docs[records[j]], gen) == symbol
  {
    if symbol in Symbols(docs) {
      var other :| other in docs && docs[other].fullSymbol == Some(symbol);
      assert other !in records[..n] && other != records[n];
    }
    if j :| 0 <= j < n && Gets(docs, records, j, gen, broken) && NewSymbol(docs[records[j]], gen) == symbol {
      assert now[records[j]].fullSymbol == Some(symbol) && records[j] != records[n];
    }
    if Taken(now, symbol, records[n]) {
      var other :| other in now && other != records[n] && now[other].fullSymbol == Some(symbol);
      if other in records[..n] {
        var j :| 0 <= j < n && records[j] == other;
        assert Unset(docs[other]);
      } else {
        assert docs[other].fullSymbol == Some(symbol);
      }
    }
  }

  /** The next record is written exactly when it gets its symbol. */
  lemma WrittenIff(docs: Docs, records: seq<Id>, n: nat, gen: string -> string, broken: set<Id>, now: Docs)
    requires Picked(docs, records, Unset) && n < |records| && Settled(docs, records, n, gen, broken, now)
    ensures var symbol := NewSymbol(docs[records[n]], gen);
            Gets(docs, records, n, gen, broken) <==>
            symbol != "" && records[n] !in broken && !Taken(now, symbol, records[n])
  {
    var symbol := NewSymbol(docs[records[n]], gen);
    if symbol != "" && symbol !in Symbols(docs) {
      TakenWhenSettled(docs, records, n, gen, broken, now, symbol);
      if j: nat :| j < n && NewSymbol(docs[records[j]], gen) == symbol && records[j] !in broken {
        var i := SomeoneGets(docs, records, j, gen, broken);
      }
    } else if symbol != "" {
      TakenWhenSettled(docs, records, n, gen, broken, now, symbol);
    }
  }

  lemma NextSettled(docs: Docs, records: seq<Id>, n: nat, gen: string -> string, broken: set<Id>,
                    before: Progress, now: Progress)
    requires Picked(docs, records, Unset) && n < |records| && Settled(docs, records, n, gen, broken, before.docs)
    requires records[n] in before.docs && now == Handle(before, records[n], gen, broken)
    ensures Settled(docs, records, n + 1, gen, broken, now.docs)
    ensures now.success == before.success + if Gets(docs, records, n, gen, broken) then 1 else 0
    ensures now.skipped == before.skipped + if NewSymbol(docs[records[n]], gen) == "" then 1 else 0
  {
    WrittenIff(docs, records, n, gen, broken, before.docs);
    assert records[..n + 1] == records[..n] + [records[n]];
    assert records[n] !in records[..n];
    assert before.docs[records[n]] == docs[records[n]];
  }

  /** How many of the first `n` records get their symbol. */
  ghost function Getters(docs: Docs, records: seq<Id>, n: nat, gen: string -> string, broken: set<Id>): nat
    requires Picked(docs, records, Unset) && n <= |records|
  {
    if n == 0 then 0
    else Getters(docs, records, n - 1, gen, broken) + if Gets(docs, records, n - 1, gen, broken) then 1 else 0
  }

  /** How many of the first `n` records have no code or no symbol to get. */
  ghost function Blanks(docs: Docs, records: seq<Id>, n: nat, gen: string -> string): nat
    requires Picked(docs, records, Unset) && n <= |records|
  {
    if n == 0 then 0
    else
      var code := docs[records[n - 1]].code;
      Blanks(docs, records, n - 1, gen) + if !Truthy(code) || gen(code.value) == "" then 1 else 0
  }

  /** The documents and the counters after `n` records. */
  ghost predicate SymbolsTold(docs: Docs, records: seq<Id>, n: nat, gen: string -> string, broken: set<Id>, r: Progress)
    requires Picked(docs, records, Unset) && n <= |records|
  {
    && Settled(docs, records, n, gen, broken, r.docs)
    && r.success == Getters(docs, records, n, gen, broken)
    && r.skipped == Blanks(docs, records, n, gen)
  }

  lemma FirstTold(docs: Docs, records: seq<Id>, gen: string -> string, broken: set<Id>)
    requires Picked(docs, records, Unset)
    ensures SymbolsTold(docs, records, 0, gen, broken, Progress(docs, 0, 0, 0))
  {
  }

  lemma NextTold(docs: Docs, records: seq<Id>, n: nat, gen: string -> string, broken: set<Id>,
                 before: Progress, now: Progress)
    requires Picked(docs, records, Unset) && 0 < n <= |records|
    requires records[n - 1] in before.docs && now == Handle(before, records[n - 1], gen, broken)
    requires SymbolsTold(docs, records, n - 1, gen, broken, before)
    ensures SymbolsTold(docs, records, n, gen, broken, now)
  {
    NextSettled(docs, records, n - 1, gen, broken, before, now);
  }

  /** Under any failures and any symbols already there, it is known which records have their symbol after
      `n` records and which are as before: of those that ask for the same free symbol, the first whose
      update is not refused. The counters count them and the records with nothing to get. */
  lemma {:induction false} FinalSymbols(docs: Docs, records: seq<Id>, n: nat, gen: string -> string, broken: set<Id>)
    requires Picked(docs, records, Unset) && n <= |records|
    ensures SymbolsTold(docs, records, n, gen, broken, After(docs, records, n, gen, broken))
  {
    if n > 0 {
      FinalSymbols(docs, records, n - 1, gen, broken);
      var before, now := After(docs, records, n - 1, gen, broken), After(docs, records, n, gen, broken);
      assert records[n - 1] in before.docs && now == Handle(before, records[n - 1], gen, broken);
      NextTold(docs, records, n, gen, broken, before, now);
    } else {
      FirstTold(docs, records, gen, broken);
    }
  }

  /** Six-character codes, different from each other, and symbols that are the generated ones. */
  ghost predicate Consistent(docs: Docs) {
    && (forall id :: id in docs && Truthy(docs[id].code) ==> |Strip(docs[id].code.value)| == 6)
    && (forall a, b :: a in docs && b in docs && a != b && Truthy(docs[a].code) && Truthy(docs[b].code) ==>
          Strip(docs[a].code.value) != Strip(docs[b].code.value))
    && (forall id :: id in docs && Truthy(docs[id].fullSymbol) ==>
          Truthy(docs[id].code) && docs[id].fullSymbol.value == Generate(docs[id].code.value))
  }

  /** The document has the symbol of its code, with the right exchange. */
  ghost predicate HasItsSymbol(s: Stock) {
    && Truthy(s.code) && |Strip(s.code.value)| == 6
    && s.fullSymbol == Some(Generate(s.code.value))
    && NamesExchange(Strip(s.code.value), s.fullSymbol.value, Strip(s.code.value))
  }

  lemma NoneClash(docs: Docs, records: seq<Id>)
    requires Listing(docs, records, Unset) && Consistent(docs)
    ensures NoClash(docs, records, |records|, Generate, {})
  {
    forall i | 0 <= i < |records| && NewSymbol(docs[records[i]], Generate) != ""
      ensures NewSymbol(docs[records[i]], Generate) !in Symbols(docs)
      ensures forall j :: 0 <= j < i ==> NewSymbol(docs[records[j]], Generate) != NewSymbol(docs[records[i]], Generate)
    {
      NewSymbolIsNew(docs, records, i);
    }
  }

  lemma Migrated(docs: Docs, records: seq<Id>, now: Docs, id: Id)
    requires Listing(docs, records, Unset) && Consistent(docs) && AllWritten(docs, records, |records|, Generate, now)
    requires id in docs && Truthy(docs[id].code)
    ensures id in now && HasItsSymbol(now[id])
  {
    var code := docs[id].code.value;
    SymbolNamesExchange(code);
    CodeRecovered(code);
    assert records[..|records|] == records;
    if id in records {
      var i :| 0 <= i < |records| && records[i] == id;
      assert now[records[i]].code == docs[id].code;
    } else {
      assert now[id] == docs[id];
    }
  }

  /** On a consistent collection the migration never collides: every record with a code gets its
      symbol, and what stays unset are the records without a code. */
  lemma ConsistentMigration(docs: Docs, records: seq<Id>)
    requires Listing(docs, records, Unset) && Consistent(docs)
    ensures var r := After(docs, records, |records|, Generate, {});
            && r.error == 0
            && r.success + r.skipped == |records|
            && forall id :: id in docs && Truthy(docs[id].code) ==> r.docs[id].code == docs[id].code && HasItsSymbol(r.docs[id])
  {
    var r := After(docs, records, |records|, Generate, {});
    NoneClash(docs, records);
    NoErrorIffNoClash(docs, records, |records|, Generate, {});
    CountersAddUp(docs, records, |records|, Generate, {});
    forall id | id in docs && Truthy(docs[id].code) ensures r.docs[id].code == docs[id].code && HasItsSymbol(r.docs[id]) {
      Migrated(docs, records, r.docs, id);
      OthersUnchanged(docs, records, |records|, Generate, {}, id);
    }
  }

  lemma NewSymbolIsNew(docs: Docs, records: seq<Id>, i: nat)
    requires Listing(docs, records, Unset) && Consistent(docs) && i < |records|
    requires NewSymbol(docs[records[i]], Generate) != ""
    ensures NewSymbol(docs[records[i]], Generate) !in Symbols(docs)
    ensures forall j :: 0 <= j < i ==> NewSymbol(docs[records[j]], Generate) != NewSymbol(docs[records[i]], Generate)
  {
    var code := docs[records[i]].code.value;
    forall id | id in docs && id != records[i] && Truthy(docs[id].code)
      ensures Generate(docs[id].code.value) != Generate(code)
    {
      InjectiveOnSix(docs[id].code.value, code);
    }
  }

  /** A document is as before, or its unset symbol was filled in with the right exchange for its code. */
  predicate RightlyFilled(before: Stock, now: Stock) {
    now == before || (
      && Unset(before) && Truthy(before.code) && now == before.(fullSymbol := now.fullSymbol) && Truthy(now.fullSymbol)
      && var c := Strip(before.code.value);
      if |c| == 6 then NamesExchange(c, now.fullSymbol.value, c) else now.fullSymbol.value == c)
  }

  lemma FilledRightly(docs: Docs, records: seq<Id>, n: nat, broken: set<Id>, id: Id)
    requires Picked(docs, records, Unset) && n <= |records| && id in docs
    ensures RightlyFilled(docs[id], After(docs, records, n, Generate, broken).docs[id])
  {
    FinalSymbols(docs, records, n, Generate, broken);
    if id in records[..n] {
      var k :| 0 <= k < n && records[k] == id;
      if Truthy(docs[id].code) {
        SymbolNamesExchange(docs[id].code.value);
      }
    }
  }

  // ---- fix_full_symbol_index: null and missing symbols, without the index ----

  predicate Null(s: Stock) {
    s.fullSymbol.None?
  }

  /** A null symbol is filled in when the code has six characters. */
  function Filled(s: Stock): Stock {
    if Null(s) && Truthy(s.code) && GenerateForIndex(s.code.value).Some?
    then s.(fullSymbol := GenerateForIndex(s.code.value)) else s
  }

  /** A null symbol of a six-character code is filled in with the right exchange, unknown ones as Shenzhen. */
  lemma FilledNames(s: Stock)
    ensures if s.fullSymbol.None? && s.code.Some? && |s.code.value| == 6
            then Filled(s) == s.(fullSymbol := Filled(s).fullSymbol) && Filled(s).fullSymbol.Some?
                 && NamesExchange(s.code.value, Filled(s).fullSymbol.value, s.code.value + ".SZ")
            else Filled(s) == s
  {
    if s.code.Some? {
      SymbolNamesExchange(s.code.value);
    }
  }

  predicate SixLong(code: Option<string>) {
    code.Some? && |code.value| == 6
  }

  predicate Fillable(s: Stock) {
    Truthy(s.code) && GenerateForIndex(s.code.value).Some?
  }

  ghost function Chosen(n: nat, p: int -> bool): set<int> {
    set k | 0 <= k < n && p(k)
  }

  lemma NextChosen(n: nat, p: int -> bool)
    ensures |Chosen(n + 1, p)| == |Chosen(n, p)| + if p(n) then 1 else 0
  {
    assert Chosen(n + 1, p) == Chosen(n, p) + if p(n) then {n} else {};
  }

  /** Among the first `n` records, those that are updated, and those that count as errors. */
  ghost function Updated(docs: Docs, records: seq<Id>, n: nat, broken: set<Id>): set<int>
    requires Listing(docs, records, Null) && n <= |records|
  {
    Chosen(n, k => 0 <= k < |records| && Fillable(docs[records[k]]) && records[k] !in broken)
  }

  ghost function Failed(docs: Docs, records: seq<Id>, n: nat, broken: set<Id>): set<int>
    requires Listing(docs, records, Null) && n <= |records|
  {
    Chosen(n, k => 0 <= k < |records| && Truthy(docs[records[k]].code)
                   && (!Fillable(docs[records[k]]) || records[k] in broken))
  }

  lemma NextUpdated(docs: Docs, records: seq<Id>, n: nat, broken: set<Id>)
    requires Listing(docs, records, Null) && n < |records|
    ensures |Updated(docs, records, n + 1, broken)| ==
            |Updated(docs, records, n, broken)| + (if Fillable(docs[records[n]]) && records[n] !in broken then 1 else 0)
  {
    NextChosen(n, k => 0 <= k < |records| && Fillable(docs[records[k]]) && records[k] !in broken);
  }

  lemma NextFailed(docs: Docs, records: seq<Id>, n: nat, broken: set<Id>)
    requires Listing(docs, records, Null) && n < |records|
    ensures var s := docs[records[n]];
            |Failed(docs, records, n + 1, broken)| ==
            |Failed(docs, records, n, broken)|
            + (if Truthy(s.code) && (!Fillable(s) || records[n] in broken) then 1 else 0)
  {
    NextChosen(n, k => 0 <= k < |records| && Truthy(docs[records[k]].code)
                       && (!Fillable(docs[records[k]]) || records[k] in broken));
  }

  lemma NamedExchanges(docs: Docs, now: Docs, broken: set<Id>)
    requires now.Keys == docs.Keys && forall id :: id in docs && id !in broken ==> now[id] == Filled(docs[id])
    ensures forall id :: id in docs && id !in broken && Null(docs[id]) && SixLong(docs[id].code) ==>
              var code := docs[id].code.value;
              now[id].fullSymbol.Some? && NamesExchange(code, now[id].fullSymbol.value, code + ".SZ")
  {
    forall id | id in docs && id !in broken && Null(docs[id]) && SixLong(docs[id].code)
      ensures var code := docs[id].code.value;
              now[id].fullSymbol.Some? && NamesExchange(code, now[id].fullSymbol.value, code + ".SZ")
    {
      FilledNames(docs[id]);
    }
  }

  function FilledDocs(docs: Docs): Docs {
    map id | id in docs :: Filled(docs[id])
  }

  /** Where all codes have six characters and all symbols present are generated ones, the unique
      index can be created again exactly when no two documents share a code. */
  lemma IndexCanBeRecreated(docs: Docs)
    requires forall id :: id in docs ==>
               && Truthy(docs[id].code) && |docs[id].code.value| == 6
               && (Null(docs[id]) || docs[id].fullSymbol == GenerateForIndex(docs[id].code.value))
    ensures UniqueSymbols(FilledDocs(docs)) <==>
            forall a, b :: a in docs && b in docs && a != b ==> docs[a].code != docs[b].code
  {
    var now := FilledDocs(docs);
    forall a, b | a in docs && b in docs
      ensures Truthy(now[a].fullSymbol)
      ensures now[a].fullSymbol == now[b].fullSymbol <==> docs[a].code == docs[b].code
    {
      InjectiveOnSix(docs[a].code.value, docs[b].code.value);
      CodeRecovered(docs[a].code.value);
    }
  }

  // ---- the scripts ----

  /** The collection; `broken` are documents whose update raises for reasons of its own. */
  class StockBasicInfo {
    var docs: Docs
    var uniqueIndex: bool
    const broken: set<Id>

    constructor (docs: Docs, broken: set<Id>)
      ensures this.docs == docs && uniqueIndex && this.broken == broken
    {
      this.docs, uniqueIndex, this.broken := docs, true, broken;
    }

    /** Sets a symbol and the time stamp, so an existing document is always modified. */
    method UpdateSymbol(id: Id, symbol: string) returns (raised: bool, modifiedCount: nat)
      modifies this`docs
      ensures raised == (id in broken || (uniqueIndex && Taken(old(docs), symbol, id)))
      ensures docs == if raised || id !in old(docs) then old(docs)
                      else old(docs)[id := old(docs)[id].(fullSymbol := Some(symbol))]
      ensures modifiedCount == if !raised && id in old(docs) then 1 else 0
    {
      modifiedCount := 0;
      raised := id in broken || (uniqueIndex && Taken(docs, symbol, id));
      if !raised && id in docs {
        docs := docs[id := docs[id].(fullSymbol := Some(symbol))];
        modifiedCount := 1;
      }
    }

    /** The body of the loop, with the counters before and after; `gen` is generate_full_symbol. */
    method RepairOne(id: Id, gen: string -> string, success: nat, error: nat, skipped: nat)
      returns (successCount: nat, errorCount: nat, skippedCount: nat)
      requires id in docs && uniqueIndex
      modifies this`docs
      ensures Progress(docs, successCount, errorCount, skippedCount) ==
              Handle(Progress(old(docs), success, error, skipped), id, gen, broken)
    {
      successCount, errorCount, skippedCount := success, error, skipped;
      var code := docs[id].code;
      if !Truthy(code) {
        return success, error, skipped + 1;
      }
      var newFullSymbol := gen(code.value);
      if newFullSymbol == "" {
        return success, error, skipped + 1;
      }
      var raised, count := UpdateSymbol(id, newFullSymbol);
      if raised || count == 0 {
        errorCount := errorCount + 1;
      } else {
        successCount := successCount + 1;
      }
    }

    method RepairAll(records: seq<Id>, gen: string -> string)
      returns (successCount: nat, errorCount: nat, skippedCount: nat)
      requires Picked(docs, records, Unset) && uniqueIndex
      modifies this`docs
      ensures Progress(docs, successCount, errorCount, skippedCount) ==
              After(old(docs), records, |records|, gen, broken)
    {
      successCount, errorCount, skippedCount := 0, 0, 0;
      for n := 0 to |records|
        invariant Progress(docs, successCount, errorCount, skippedCount) == After(old(docs), records, n, gen, broken)
      {
        NextRecord(old(docs), records, n, gen, broken);
        successCount, errorCount, skippedCount := RepairOne(records[n], gen, successCount, errorCount, skippedCount);
      }
    }

    /** fix_null_full_symbol; `records` is what the cursor returned. */
    method FixNullFullSymbol(records: seq<Id>) returns (successCount: nat, errorCount: nat, skippedCount: nat)
      requires Listing(docs, records, Unset) && uniqueIndex
      modifies this`docs
      ensures Progress(docs, successCount, errorCount, skippedCount) ==
              After(old(docs), records, |records|, Generate, broken)
      ensures docs.Keys == old(docs).Keys && forall id :: id in docs ==> RightlyFilled(old(docs)[id], docs[id])
    {
      successCount, errorCount, skippedCount := RepairAll(records, Generate);
      forall id | id in docs ensures RightlyFilled(old(docs)[id], docs[id]) {
        FilledRightly(old(docs), records, |records|, broken, id);
      }
    }

    /** fix_full_symbol_index: the index goes first, so only `broken` updates fail. */
    method FixFullSymbolIndex(records: seq<Id>) returns (updatedCount: nat, errorCount: nat)
      requires Listing(docs, records, Null)
      modifies this
      ensures !uniqueIndex
      ensures docs.Keys == old(docs).Keys
      ensures forall id :: id in docs ==> docs[id] == if id in broken then old(docs)[id] else Filled(old(docs)[id])
      ensures broken == {} ==> docs == FilledDocs(old(docs))
      ensures forall id :: id in docs && id !in broken && Null(old(docs)[id]) && SixLong(old(docs)[id].code) ==>
                var code := old(docs)[id].code.value;
                docs[id].fullSymbol.Some? && NamesExchange(code, docs[id].fullSymbol.value, code + ".SZ")
      ensures updatedCount == |Updated(old(docs), records, |records|, broken)|
      ensures errorCount == |Failed(old(docs), records, |records|, broken)|
    {
      uniqueIndex := false;
      updatedCount, errorCount := 0, 0;
      for n := 0 to |records|
        invariant !uniqueIndex && docs.Keys == old(docs).Keys
        invariant updatedCount == |Updated(old(docs), records, n, broken)|
        invariant errorCount == |Failed(old(docs), records, n, broken)|
        invariant forall id :: id in docs ==>
                    docs[id] == if id in broken || id !in records[..n] then old(docs)[id] else Filled(old(docs)[id])
      {
        var id := records[n];
        assert records[..n + 1] == records[..n] + [id];
        assert id !in records[..n];
        NextUpdated(old(docs), records, n, broken);
        NextFailed(old(docs), records, n, broken);
        var code := docs[id].code;
        if !Truthy(code) {
          continue;
        }
        var fullSymbol := GenerateForIndex(code.value);
        if fullSymbol.None? {
          errorCount := errorCount + 1;
          continue;
        }
        var raised, count := UpdateSymbol(id, fullSymbol.value);
        if raised {
          errorCount := errorCount + 1;
        } else {
          updatedCount := updatedCount + 1;
        }
      }
      assert records[..|records|] == records;
      assert forall id :: id in docs && id !in records ==> Filled(old(docs)[id]) == old(docs)[id];
      NamedExchanges(old(docs), docs, broken);
    }
  }
}
