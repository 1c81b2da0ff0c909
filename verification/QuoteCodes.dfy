/** scripts/fix_market_quotes_null_code.py: quotes without a code get their symbol as code, or go. */
module QuoteCodes {
  import opened Common

  type Id = int

  /** A document of `market_quotes`; `data` stands for all other fields. */
  datatype Quote = Quote(code: Option<string>, symbol: Option<string>, data: string)

  type Docs = map<Id, Quote>

  /** The document has a usable symbol (`if symbol:`). */
  predicate HasSymbol(q: Quote) {
    q.symbol.Some? && q.symbol.value != ""
  }

  /** Another document already carries `code`. */
  predicate Taken(docs: Docs, code: string, id: Id) {
    exists other :: other in docs && other != id && docs[other].code == Some(code)
  }

  /** The unique index on `code`, which ignores documents without one. */
  ghost predicate UniqueCodes(docs: Docs) {
    forall a, b :: a in docs && b in docs && a != b && docs[a].code.Some? ==> docs[a].code != docs[b].code
  }

  ghost function Codes(docs: Docs): set<string> {
    set id | id in docs && docs[id].code.Some? :: docs[id].code.value
  }

  /** `records` are the documents without code, in the order of the cursor. */
  ghost predicate Listing(docs: Docs, records: seq<Id>) {
    && (forall i, j :: 0 <= i < j < |records| ==> records[i] != records[j])
    && (forall k :: 0 <= k < |records| ==> records[k] in docs && docs[records[k]].code.None?)
    && (forall id :: id in docs && docs[id].code.None? ==> id in records)
  }

  datatype Repair = Repair(docs: Docs, fixed: nat, deleted: nat)

  /** What the loop does with one record. */
  function Handle(r: Repair, id: Id): Repair
    requires id in r.docs
  {
    var q := r.docs[id];
    if HasSymbol(q) && !Taken(r.docs, q.symbol.value, id)
    then Repair(r.docs[id := q.(code := q.symbol)], r.fixed + 1, r.deleted)
    else Repair(r.docs - {id}, r.fixed, r.deleted + 1)
  }

  /** The collection and the counters after the first `n` records. */
  ghost function After(docs: Docs, records: seq<Id>, n: nat): (r: Repair)
    requires Listing(docs, records) && n <= |records|
    ensures forall k :: n <= k < |records| ==> records[k] in r.docs && r.docs[records[k]] == docs[records[k]]
    ensures forall id :: id in r.docs ==> id in docs
  {
    if n == 0 then Repair(docs, 0, 0)
    else Handle(After(docs, records, n - 1), records[n - 1])
  }

  /** The record `records[i]` is the first one to claim its symbol. */
  ghost predicate Claims(docs: Docs, records: seq<Id>, i: nat)
    requires Listing(docs, records) && i < |records|
  {
    && HasSymbol(docs[records[i]])
    && docs[records[i]].symbol.value !in Codes(docs)
    && forall j :: 0 <= j < i ==> docs[records[j]].symbol != docs[records[i]].symbol
  }

  /** Exactly which documents exist after `n` records, and with which code. */
  ghost predicate Outcome(docs: Docs, records: seq<Id>, n: nat, now: Docs)
    requires Listing(docs, records) && n <= |records|
  {
    && (forall id :: id in docs && docs[id].code.Some? ==> id in now && now[id] == docs[id])
    && (forall i :: 0 <= i < n ==> (records[i] in now <==> Claims(docs, records, i)))
    && (forall i :: 0 <= i < n && Claims(docs, records, i) ==>
          now[records[i]] == docs[records[i]].(code := docs[records[i]].symbol))
  }

  lemma {:induction false} AfterOutcome(docs: Docs, records: seq<Id>, n: nat)
    requires Listing(docs, records) && n <= |records|
    ensures Outcome(docs, records, n, After(docs, records, n).docs)
  {
    if n > 0 {
      AfterOutcome(docs, records, n - 1);
      var before := After(docs, records, n - 1);
      FixedIffClaims(docs, records, n - 1, before);
      NextOutcome(docs, records, n - 1, before.docs, Handle(before, records[n - 1]).docs);
    }
  }

  /** The record `records[n]` is repaired, or gone. */
  ghost predicate Settled(docs: Docs, records: seq<Id>, n: nat, before: Docs, now: Docs)
    requires Listing(docs, records) && n < |records|
  {
    var id := records[n];
    now == if Claims(docs, records, n) then before[id := docs[id].(code := docs[id].symbol)] else before - {id}
  }

  lemma NextOutcome(docs: Docs, records: seq<Id>, n: nat, before: Docs, now: Docs)
    requires Listing(docs, records) && n < |records|
    requires Outcome(docs, records, n, before) && Settled(docs, records, n, before, now)
    ensures Outcome(docs, records, n + 1, now)
  {
    forall i | 0 <= i < n + 1
      ensures records[i] in now <==> Claims(docs, records, i)
      ensures Claims(docs, records, i) ==> now[records[i]] == docs[records[i]].(code := docs[records[i]].symbol)
    {
      if i < n {
        assert records[i] != records[n];
      }
    }
  }

  lemma FixedIffClaims(docs: Docs, records: seq<Id>, n: nat, before: Repair)
    requires Listing(docs, records) && n < |records| && Outcome(docs, records, n, before.docs)
    requires forall id :: id in before.docs ==> id in docs
    requires forall k :: n <= k < |records| ==> records[k] in before.docs && before.docs[records[k]] == docs[records[k]]
    ensures Settled(docs, records, n, before.docs, Handle(before, records[n]).docs)
  {
    if HasSymbol(docs[records[n]]) {
      TakenIffClaimed(docs, records, n, before.docs, docs[records[n]].symbol.value);
    }
  }

  /** A symbol is taken exactly when it was a code from the start or an earlier record claimed it. */
  lemma TakenIffClaimed(docs: Docs, records: seq<Id>, n: nat, now: Docs, symbol: string)
    requires Listing(docs, records) && n < |records| && Outcome(docs, records, n, now)
    requires (forall id :: id in now ==> id in docs) && records[n] in now && symbol != ""
    requires forall k :: n <= k < |records| && records[k] in now ==> now[records[k]] == docs[records[k]]
    ensures Taken(now, symbol, records[n]) <==>
            symbol in Codes(docs) || exists j :: 0 <= j < n && docs[records[j]].symbol == Some(symbol)
  {
    if symbol in Codes(docs) {
      var other :| other in docs && docs[other].code == Some(symbol);
      assert now[other] == docs[other] && other != records[n];
    } else if j :| 0 <= j < n && docs[records[j]].symbol == Some(symbol) {
      var first := FirstWith(docs, records, j, symbol);
      assert Claims(docs, records, first);
      assert now[records[first]].code == Some(symbol) && records[first] != records[n];
    }
    if Taken(now, symbol, records[n]) {
      var other :| other in now && other != records[n] && now[other].code == Some(symbol);
      if docs[other].code.None? {
        assert other in records;
        var j :| 0 <= j < |records| && records[j] == other;
        assert j < n;
      }
    }
  }

  lemma FirstWith(docs: Docs, records: seq<Id>, j: nat, symbol: string) returns (first: nat)
    requires Listing(docs, records) && j < |records| && docs[records[j]].symbol == Some(symbol)
    ensures first <= j && docs[records[first]].symbol == Some(symbol)
    ensures forall k :: 0 <= k < first ==> docs[records[k]].symbol != Some(symbol)
  {
    first := 0;
    while docs[records[first]].symbol != Some(symbol)
      invariant first <= j
      invariant forall k :: 0 <= k < first ==> docs[records[k]].symbol != Some(symbol)
      decreases j - first
    {
      first := first + 1;
    }
  }

  // ---- results ----

  /** No step ever makes two documents share a code, so the unique index never rejects an update. */
  lemma {:induction false} CodesStayUnique(docs: Docs, records: seq<Id>, n: nat)
    requires Listing(docs, records) && n <= |records| && UniqueCodes(docs)
    ensures UniqueCodes(After(docs, records, n).docs)
  {
    if n > 0 {
      CodesStayUnique(docs, records, n - 1);
    }
  }

  lemma HandleCounts(r: Repair, id: Id)
    requires id in r.docs
    ensures var h := Handle(r, id);
            h.fixed + h.deleted == r.fixed + r.deleted + 1 && |h.docs| + h.deleted == |r.docs| + r.deleted
  {
    var q := r.docs[id];
    assert (r.docs - {id}).Keys == r.docs.Keys - {id};
    assert r.docs[id := q.(code := q.symbol)].Keys == r.docs.Keys;
  }

  /** Every null record is either fixed or deleted, and every deletion removes one document. */
  lemma {:induction false} CountersAddUp(docs: Docs, records: seq<Id>, n: nat)
    requires Listing(docs, records) && n <= |records|
    ensures var r := After(docs, records, n);
            r.fixed + r.deleted == n && |r.docs| + r.deleted == |docs|
  {
    if n > 0 {
      CountersAddUp(docs, records, n - 1);
      HandleCounts(After(docs, records, n - 1), records[n - 1]);
    }
  }

  /** The non-empty symbols of the documents without code. */
  ghost function Wanted(docs: Docs): set<string> {
    set id | id in docs && docs[id].code.None? && HasSymbol(docs[id]) :: docs[id].symbol.value
  }

  /** At the end every document has a code, documents that had one are unchanged, and the codes
      are the old ones plus the wanted symbols, whatever the order of the cursor. */
  lemma FinalCodes(docs: Docs, records: seq<Id>)
    requires Listing(docs, records)
    ensures var now := After(docs, records, |records|).docs;
            && (forall id :: id in now ==> now[id].code.Some?)
            && (forall id :: id in docs && docs[id].code.Some? ==> id in now && now[id] == docs[id])
            && Codes(now) == Codes(docs) + Wanted(docs)
  {
    var now := After(docs, records, |records|).docs;
    AfterOutcome(docs, records, |records|);
    forall id | id in now
      ensures now[id].code.Some? && now[id].code.value in Codes(docs) + Wanted(docs)
    {
      if docs[id].code.None? {
        var i :| 0 <= i < |records| && records[i] == id;
        assert docs[id].symbol.value in Wanted(docs);
      } else {
        assert docs[id].code.value in Codes(docs);
      }
    }
    forall c | c in Codes(docs) + Wanted(docs)
      ensures c in Codes(now)
    {
      if c in Codes(docs) {
        var id :| id in docs && docs[id].code == Some(c);
        assert now[id].code == Some(c);
      } else {
        var id :| id in docs && docs[id].code.None? && HasSymbol(docs[id]) && docs[id].symbol.value == c;
        var i :| 0 <= i < |records| && records[i] == id;
        var first := FirstWith(docs, records, i, c);
        assert Claims(docs, records, first);
        assert now[records[first]].code == Some(c);
      }
    }
  }

  lemma CodesGrow(docs: Docs, id: Id, q: Quote)
    requires id in docs && docs[id].code.None? && q.code.Some?
    ensures Codes(docs[id := q]) == Codes(docs) + {q.code.value}
  {
    var now := docs[id := q];
    assert now[id] == q;
    forall c | c in Codes(docs)
      ensures c in Codes(now)
    {
      var other :| other in docs && docs[other].code == Some(c);
      assert now[other] == docs[other];
    }
  }

  lemma CodesStay(docs: Docs, id: Id)
    requires id in docs && docs[id].code.None?
    ensures Codes(docs - {id}) == Codes(docs)
  {
    forall c | c in Codes(docs)
      ensures c in Codes(docs - {id})
    {
      var other :| other in docs && docs[other].code == Some(c);
      assert (docs - {id})[other] == docs[other];
    }
  }

  lemma HandleCodes(r: Repair, id: Id)
    requires id in r.docs && r.docs[id].code.None?
    ensures |Codes(Handle(r, id).docs)| - Handle(r, id).fixed == |Codes(r.docs)| - r.fixed
  {
    var q := r.docs[id];
    if HasSymbol(q) && !Taken(r.docs, q.symbol.value, id) {
      CodesGrow(r.docs, id, q.(code := q.symbol));
      assert q.symbol.value !in Codes(r.docs);
    } else {
      CodesStay(r.docs, id);
    }
  }

  lemma {:induction false} FixedAreNewCodes(docs: Docs, records: seq<Id>, n: nat)
    requires Listing(docs, records) && n <= |records|
    ensures After(docs, records, n).fixed == |Codes(After(docs, records, n).docs)| - |Codes(docs)|
  {
    if n > 0 {
      FixedAreNewCodes(docs, records, n - 1);
      HandleCodes(After(docs, records, n - 1), records[n - 1]);
    }
  }

  lemma FixedIsWanted(docs: Docs, records: seq<Id>)
    requires Listing(docs, records)
    ensures After(docs, records, |records|).fixed == |Wanted(docs) - Codes(docs)|
  {
    FinalCodes(docs, records);
    FixedAreNewCodes(docs, records, |records|);
    UnionSize(Codes(docs), Wanted(docs));
  }

  lemma UnionSize(a: set<string>, b: set<string>)
    ensures |a + b| == |a| + |b - a|
  {
    assert a + b == a + (b - a);
  }

  /** How many records are fixed and deleted does not depend on the order of the cursor. */
  lemma CountsIgnoreOrder(docs: Docs, one: seq<Id>, other: seq<Id>)
    requires Listing(docs, one) && Listing(docs, other)
    ensures After(docs, one, |one|).fixed == After(docs, other, |other|).fixed == |Wanted(docs) - Codes(docs)|
    ensures After(docs, one, |one|).deleted == After(docs, other, |other|).deleted
  {
    FixedIsWanted(docs, one);
    FixedIsWanted(docs, other);
    SameLength(docs, one, other);
    CountersAddUp(docs, one, |one|);
    CountersAddUp(docs, other, |other|);
  }

  lemma SameLength(docs: Docs, one: seq<Id>, other: seq<Id>)
    requires Listing(docs, one) && Listing(docs, other)
    ensures |one| == |other|
  {
    var nulls := set id | id in docs && docs[id].code.None?;
    DistinctLength(one, nulls);
    DistinctLength(other, nulls);
  }

  lemma {:induction false} DistinctLength(ids: seq<Id>, all: set<Id>)
    requires forall i, j :: 0 <= i < j < |ids| ==> ids[i] != ids[j]
    requires forall id :: id in ids <==> id in all
    ensures |ids| == |all|
    decreases |ids|
  {
    if ids == [] {
      assert forall id :: id in all ==> id in ids;
    } else {
      assert ids == [ids[0]] + ids[1..];
      DistinctLength(ids[1..], all - {ids[0]});
    }
  }

  // ---- the script ----

  /** The collection, with a unique index on `code` that ignores missing codes. */
  class MarketQuotes {
    var docs: Docs

    constructor (docs: Docs)
      ensures this.docs == docs
    {
      this.docs := docs;
    }

    method DeleteOne(id: Id) returns (deletedCount: nat)
      modifies this
      ensures docs == old(docs) - {id}
      ensures deletedCount == if id in old(docs) then 1 else 0
    {
      deletedCount := if id in docs then 1 else 0;
      docs := docs - {id};
    }

    /** Sets the code of a document; the unique index rejects a code that another document has. */
    method UpdateCode(id: Id, code: Option<string>) returns (duplicateKey: bool, modifiedCount: nat)
      requires code.Some?
      modifies this
      ensures duplicateKey == Taken(old(docs), code.value, id)
      ensures docs == if duplicateKey || id !in old(docs) then old(docs) else old(docs)[id := old(docs)[id].(code := code)]
      ensures modifiedCount == if !duplicateKey && id in old(docs) && old(docs)[id].code != code then 1 else 0
    {
      modifiedCount := 0;
      duplicateKey := Taken(docs, code.value, id);
      if !duplicateKey && id in docs {
        modifiedCount := if docs[id].code != code then 1 else 0;
        docs := docs[id := docs[id].(code := code)];
      }
    }

    /** fix_null_code_records; `records` is what the cursor returned. The index never interferes. */
    method FixNullCodeRecords(records: seq<Id>) returns (raised: bool, fixedCount: nat, deletedCount: nat)
      requires Listing(docs, records)
      modifies this
      ensures !raised
      ensures Repair(docs, fixedCount, deletedCount) == After(old(docs), records, |records|)
    {
      raised, fixedCount, deletedCount := false, 0, 0;
      for n := 0 to |records|
        invariant !raised && Repair(docs, fixedCount, deletedCount) == After(old(docs), records, n)
      {
        var id := records[n];
        assert id in After(old(docs), records, n).docs;
        var symbol := docs[id].symbol;
        if symbol.Some? && symbol.value != "" {
          var existing := Taken(docs, symbol.value, id);
          if existing {
            var count := DeleteOne(id);
            if count > 0 {
              deletedCount := deletedCount + 1;
            }
          } else {
            var duplicateKey, count := UpdateCode(id, symbol);
            if duplicateKey {
              return true, fixedCount, deletedCount;
            }
            if count > 0 {
              fixedCount := fixedCount + 1;
            }
          }
        } else {
          var count := DeleteOne(id);
          if count > 0 {
            deletedCount := deletedCount + 1;
          }
        }
      }
    }
  }
}
