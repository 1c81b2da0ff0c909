/** scripts/fix_provider_id_types.py: providers stored under a string id are copied to a new
    object id and then deleted; each of the two writes may fail on its own. */
module ProviderIds {

  datatype ProviderId = Text(text: string) | Object(hex: nat) | Unknown(tag: int)

  /** A stored provider: its time stamp, and everything else but the id. */
  datatype Provider = Provider(payload: string, updatedAt: int)

  type Docs = map<ProviderId, Provider>

  /** What goes wrong while one provider is moved; a failing write has no effect. */
  datatype Fault = NoFault | InsertFails | DeleteFails

  /** The documents that hold a payload. */
  ghost function Holders(docs: Docs, payload: string): set<ProviderId> {
    set id | id in docs && docs[id].payload == payload
  }

  /** `providers` lists the collection in the order of the cursor. */
  ghost predicate Listing(docs: Docs, providers: seq<ProviderId>) {
    && (forall i, j :: 0 <= i < j < |providers| ==> providers[i] != providers[j])
    && (forall id :: id in providers <==> id in docs)
  }

  /** The string ids, in order. */
  function StringIds(providers: seq<ProviderId>): seq<ProviderId> {
    if providers == [] then []
    else
      StringIds(providers[..|providers| - 1])
      + if providers[|providers| - 1].Text? then [providers[|providers| - 1]] else []
  }

  lemma {:induction false} StringIdsListed(docs: Docs, providers: seq<ProviderId>)
    requires forall i, j :: 0 <= i < j < |providers| ==> providers[i] != providers[j]
    requires forall i :: 0 <= i < |providers| ==> providers[i] in docs
    ensures var ids := StringIds(providers);
            && (forall i, j :: 0 <= i < j < |ids| ==> ids[i] != ids[j])
            && (forall i :: 0 <= i < |ids| ==> ids[i].Text? && ids[i] in docs)
            && (forall id :: id in ids <==> id in providers && id.Text?)
    decreases |providers|
  {
    if providers != [] {
      var front, last := providers[..|providers| - 1], providers[|providers| - 1];
      StringIdsListed(docs, front);
      assert providers == front + [last];
      assert forall i :: 0 <= i < |StringIds(front)| ==> StringIds(front)[i] in front;
    }
  }

  // ---- moving one provider ----

  /** The state between the two writes. */
  function Inserted(docs: Docs, id: ProviderId, newId: nat, now: int, fault: Fault): Docs
    requires id in docs
  {
    if fault.InsertFails? || Object(newId) in docs then docs
    else docs[Object(newId) := Provider(docs[id].payload, now)]
  }

  /** The new id was free and the insertion went through. */
  predicate Copies(docs: Docs, newId: nat, fault: Fault) {
    !fault.InsertFails? && Object(newId) !in docs
  }

  datatype Progress = Progress(docs: Docs, fixed: nat, failed: nat)

  /** The state after both writes. */
  function Moved(docs: Docs, id: ProviderId, newId: nat, now: int, fault: Fault): Docs
    requires id in docs
  {
    var mid := Inserted(docs, id, newId, now, fault);
    if Copies(docs, newId, fault) && fault.NoFault? then mid - {id} else mid
  }

  function Handle(r: Progress, id: ProviderId, newId: nat, now: int, fault: Fault): Progress
    requires id in r.docs
  {
    var after := Moved(r.docs, id, newId, now, fault);
    if Copies(r.docs, newId, fault) && fault.NoFault?
    then Progress(after, r.fixed + 1, r.failed)
    else Progress(after, r.fixed, r.failed + 1)
  }

  /** The string ids to move, the new ids handed out, and the faults met on the way. */
  datatype Script = Script(ids: seq<ProviderId>, newIds: seq<nat>, faults: seq<Fault>, now: int) {
    ghost predicate Fits(docs: Docs) {
      && |newIds| == |ids| == |faults|
      && (forall i, j :: 0 <= i < j < |ids| ==> ids[i] != ids[j])
      && (forall i :: 0 <= i < |ids| ==> ids[i].Text? && ids[i] in docs)
    }

    ghost function After(docs: Docs, n: nat): (r: Progress)
      requires Fits(docs) && n <= |ids|
      ensures forall i :: n <= i < |ids| ==> ids[i] in r.docs && r.docs[ids[i]] == docs[ids[i]]
    {
      if n == 0 then Progress(docs, 0, 0)
      else Handle(After(docs, n - 1), ids[n - 1], newIds[n - 1], now, faults[n - 1])
    }

    /** The collection between the two writes for the provider `ids[n]`. */
    ghost function Between(docs: Docs, n: nat): Docs
      requires Fits(docs) && n < |ids|
    {
      Inserted(After(docs, n).docs, ids[n], newIds[n], now, faults[n])
    }

    /** How many providers with this payload were copied but not deleted. */
    ghost function Doubled(docs: Docs, n: nat, payload: string): nat
      requires Fits(docs) && n <= |ids|
    {
      if n == 0 then 0
      else
        Doubled(docs, n - 1, payload)
        + if docs[ids[n - 1]].payload == payload && faults[n - 1].DeleteFails?
             && Copies(After(docs, n - 1).docs, newIds[n - 1], faults[n - 1])
          then 1 else 0
    }

    // ---- results ----

    lemma {:induction false} CountersAddUp(docs: Docs, n: nat)
      requires Fits(docs) && n <= |ids|
      ensures After(docs, n).fixed + After(docs, n).failed == n
    {
      if n > 0 {
        CountersAddUp(docs, n - 1);
      }
    }

    /** A payload gains exactly one document for each provider copied but not deleted. */
    lemma {:induction false} HoldersCount(docs: Docs, n: nat, payload: string)
      requires Fits(docs) && n <= |ids|
      ensures |Holders(After(docs, n).docs, payload)| == |Holders(docs, payload)| + Doubled(docs, n, payload)
    {
      if n > 0 {
        HoldersCount(docs, n - 1, payload);
        HoldersStep(After(docs, n - 1), ids[n - 1], newIds[n - 1], now, faults[n - 1], payload);
      }
    }

    /** No payload ever has fewer documents than at the start, not even between the two writes. */
    lemma NothingIsLost(docs: Docs, n: nat, payload: string)
      requires Fits(docs) && n <= |ids|
      ensures |Holders(After(docs, n).docs, payload)| >= |Holders(docs, payload)|
      ensures n < |ids| ==> |Holders(Between(docs, n), payload)| >= |Holders(docs, payload)|
    {
      HoldersCount(docs, n, payload);
      if n < |ids| {
        HoldersInserted(After(docs, n).docs, ids[n], newIds[n], now, faults[n], payload);
      }
    }

    lemma StatesKeepPayloads(docs: Docs, n: nat)
      requires Fits(docs) && n < |ids|
      ensures KeepsPayloads(docs, Between(docs, n)) && KeepsPayloads(docs, After(docs, n + 1).docs)
    {
      forall payload
        ensures |Holders(Between(docs, n), payload)| >= |Holders(docs, payload)|
        ensures |Holders(After(docs, n + 1).docs, payload)| >= |Holders(docs, payload)|
      {
        NothingIsLost(docs, n, payload);
        NothingIsLost(docs, n + 1, payload);
      }
    }

    // ---- the collection after any failures ----

    /** Provider number `k` is copied: its insertion is not refused, and its new id is used neither by an
        old document nor by an earlier copy. */
    predicate Copied(docs: Docs, k: nat)
      requires |newIds| == |ids| == |faults| && k < |ids|
    {
      && faults[k] != InsertFails && Object(newIds[k]) !in docs
      && forall j :: 0 <= j < k && newIds[j] == newIds[k] ==> faults[j] == InsertFails
    }

    /** It is copied and its old document deleted. */
    predicate Fixed(docs: Docs, k: nat)
      requires |newIds| == |ids| == |faults| && k < |ids|
    {
      Copied(docs, k) && faults[k] == NoFault
    }

    function FixedAmong(docs: Docs, n: nat): nat
      requires |newIds| == |ids| == |faults| && n <= |ids|
    {
      if n == 0 then 0 else FixedAmong(docs, n - 1) + if Fixed(docs, n - 1) then 1 else 0
    }

    /** The old ids of the first `n` providers that were fixed, and the new ids of those copied. */
    function Gone(docs: Docs, n: nat): set<ProviderId>
      requires |newIds| == |ids| == |faults| && n <= |ids|
    {
      if n == 0 then {} else Gone(docs, n - 1) + if Fixed(docs, n - 1) then {ids[n - 1]} else {}
    }

    function NewOnes(docs: Docs, n: nat): set<ProviderId>
      requires |newIds| == |ids| == |faults| && n <= |ids|
    {
      if n == 0 then {} else NewOnes(docs, n - 1) + if Copied(docs, n - 1) then {Object(newIds[n - 1])} else {}
    }

    /** The new ids are those of the copies, the ids gone those of the providers fixed. */
    lemma {:induction false} WhoseIds(docs: Docs, n: nat)
      requires Fits(docs) && n <= |ids|
      ensures forall id :: id in NewOnes(docs, n) <==> exists k :: 0 <= k < n && Copied(docs, k) && id == Object(newIds[k])
      ensures forall id :: id in Gone(docs, n) <==> exists k :: 0 <= k < n && Fixed(docs, k) && id == ids[k]
    {
      if n > 0 {
        WhoseIds(docs, n - 1);
      }
    }

    /** The collection after `n` providers: fixed ones are gone under their old id, all else that was there
        is unchanged; the copies are there with the new time stamp, and nothing else is new. */
    ghost predicate Told(docs: Docs, n: nat, after: Docs)
      requires Fits(docs) && n <= |ids|
    {
      && after.Keys == docs.Keys - Gone(docs, n) + NewOnes(docs, n)
      && (forall id :: id in after && id in docs ==> after[id] == docs[id])
      && (forall k {:trigger Copied(docs, k)} :: 0 <= k < n && Copied(docs, k) ==>
            Object(newIds[k]) in after && after[Object(newIds[k])] == Provider(docs[ids[k]].payload, now))
    }

    /** If an earlier provider could take a free id, some earlier provider took it. */
    lemma {:induction false} SomeoneCopied(docs: Docs, j: nat) returns (i: nat)
      requires Fits(docs) && j < |ids| && faults[j] != InsertFails && Object(newIds[j]) !in docs
      ensures i <= j && Copied(docs, i) && newIds[i] == newIds[j]
    {
      if k: nat :| k < j && newIds[k] == newIds[j] && faults[k] != InsertFails {
        i := SomeoneCopied(docs, k);
      } else {
        i := j;
      }
    }

    /** The next provider is copied exactly when its insertion succeeds. */
    lemma CopiedIff(docs: Docs, n: nat, after: Docs)
      requires Fits(docs) && n < |ids| && Told(docs, n, after)
      ensures Copied(docs, n) <==> Object(newIds[n]) !in after && faults[n] != InsertFails
    {
      var id := Object(newIds[n]);
      WhoseIds(docs, n);
      if id !in docs {
        if j: nat :| j < n && newIds[j] == newIds[n] && faults[j] != InsertFails {
          var i := SomeoneCopied(docs, j);
        }
      }
    }

    /** What the two writes do to the collection. */
    lemma MovedIs(docs: Docs, n: nat, before: Docs)
      requires Fits(docs) && n < |ids| && Told(docs, n, before) && ids[n] in before
      ensures var after, copy := Moved(before, ids[n], newIds[n], now, faults[n]), Object(newIds[n]);
              if !Copied(docs, n) then after == before
              else
                && copy !in before && copy in after && after[copy] == Provider(docs[ids[n]].payload, now)
                && after.Keys == before.Keys + {copy} - (if Fixed(docs, n) then {ids[n]} else {})
                && forall id :: id in after && id != copy ==> id in before && after[id] == before[id]
    {
      CopiedIff(docs, n, before);
    }

    lemma NextKeys(docs: Docs, n: nat, before: Docs, after: Docs)
      requires Fits(docs) && n < |ids| && Told(docs, n, before) && ids[n] in before
      requires after == Moved(before, ids[n], newIds[n], now, faults[n])
      ensures after.Keys == docs.Keys - Gone(docs, n + 1) + NewOnes(docs, n + 1)
    {
      MovedIs(docs, n, before);
      WhoseIds(docs, n);
      if Copied(docs, n) {
        SwapKeys(docs.Keys, Gone(docs, n), NewOnes(docs, n), ids[n], Object(newIds[n]));
      }
    }

    lemma NextCopies(docs: Docs, n: nat, before: Docs, after: Docs)
      requires Fits(docs) && n < |ids| && Told(docs, n, before) && ids[n] in before
      requires after == Moved(before, ids[n], newIds[n], now, faults[n])
      ensures forall k {:trigger Copied(docs, k)} :: 0 <= k < n + 1 && Copied(docs, k) ==>
                Object(newIds[k]) in after && after[Object(newIds[k])] == Provider(docs[ids[k]].payload, now)
    {
      MovedIs(docs, n, before);
      forall k | 0 <= k < n + 1 && Copied(docs, k)
        ensures Object(newIds[k]) in after && after[Object(newIds[k])] == Provider(docs[ids[k]].payload, now)
      {
        if k < n {
          assert Object(newIds[k]) in before;
        }
      }
    }

    lemma NextTold(docs: Docs, n: nat, before: Docs, after: Docs)
      requires Fits(docs) && n < |ids| && Told(docs, n, before) && ids[n] in before
      requires after == Moved(before, ids[n], newIds[n], now, faults[n])
      ensures Told(docs, n + 1, after)
    {
      NextKeys(docs, n, before, after);
      NextCopies(docs, n, before, after);
      MovedIs(docs, n, before);
    }

    ghost predicate ToldAll(docs: Docs, n: nat, r: Progress)
      requires Fits(docs) && n <= |ids|
    {
      Told(docs, n, r.docs) && r.fixed == FixedAmong(docs, n)
    }

    lemma NothingTold(docs: Docs)
      requires Fits(docs)
      ensures ToldAll(docs, 0, Progress(docs, 0, 0))
    {
    }

    lemma NextToldAll(docs: Docs, n: nat, before: Progress, after: Progress)
      requires Fits(docs) && n < |ids| && ToldAll(docs, n, before) && ids[n] in before.docs
      requires after == Handle(before, ids[n], newIds[n], now, faults[n])
      ensures ToldAll(docs, n + 1, after)
    {
      CopiedIff(docs, n, before.docs);
      NextTold(docs, n, before.docs, after.docs);
    }

    /** Under any failures: which documents there are after `n` providers and what they hold; `fixed` counts
        the providers that were copied and deleted. */
    lemma {:induction false} FinalProviders(docs: Docs, n: nat)
      requires Fits(docs) && n <= |ids|
      ensures ToldAll(docs, n, After(docs, n))
    {
      if n == 0 {
        NothingTold(docs);
      } else {
        FinalProviders(docs, n - 1);
        NextToldAll(docs, n - 1, After(docs, n - 1), After(docs, n));
      }
    }

    /** With object ids that are new and no failing write, every string id is gone. */
    ghost predicate Smooth(docs: Docs) {
      && Fits(docs)
      && (forall i :: 0 <= i < |ids| ==> faults[i].NoFault? && Object(newIds[i]) !in docs)
      && (forall i, j :: 0 <= i < j < |ids| ==> newIds[i] != newIds[j])
    }

    /** The first `n` ids of the list, and the first `n` new ones. */
    ghost function Taken(n: nat): set<ProviderId>
      requires n <= |ids|
    {
      set i | 0 <= i < n :: ids[i]
    }

    ghost function Given(n: nat): set<ProviderId>
      requires n <= |newIds|
    {
      set i | 0 <= i < n :: Object(newIds[i])
    }

    lemma {:induction false} SmoothSteps(docs: Docs, n: nat)
      requires Smooth(docs) && n <= |ids|
      ensures After(docs, n).fixed == n
      ensures After(docs, n).docs.Keys == docs.Keys - Taken(n) + Given(n)
    {
      if n > 0 {
        SmoothSteps(docs, n - 1);
        assert Taken(n) == Taken(n - 1) + {ids[n - 1]};
        assert Given(n) == Given(n - 1) + {Object(newIds[n - 1])};
        var r := After(docs, n - 1);
        assert Object(newIds[n - 1]) !in r.docs.Keys;
        MovedKeys(r.docs, ids[n - 1], newIds[n - 1], now, faults[n - 1]);
        assert docs.Keys - Taken(n) + Given(n) == r.docs.Keys - {ids[n - 1]} + {Object(newIds[n - 1])};
      }
    }

    /** A smooth run moves every provider: all are fixed, no string id of the list is left, and each
        payload has as many documents as before. */
    lemma SmoothRun(docs: Docs, payload: string)
      requires Smooth(docs)
      ensures var r := After(docs, |ids|);
              && r.fixed == |ids| && r.failed == 0
              && (forall i :: 0 <= i < |ids| ==> ids[i] !in r.docs)
              && |Holders(r.docs, payload)| == |Holders(docs, payload)|
    {
      SmoothSteps(docs, |ids|);
      CountersAddUp(docs, |ids|);
      HoldersCount(docs, |ids|, payload);
      assert forall i :: 0 <= i < |ids| ==> ids[i] in Taken(|ids|);
      NoneDoubled(docs, |ids|, payload);
    }

    lemma {:induction false} NoneDoubled(docs: Docs, n: nat, payload: string)
      requires Smooth(docs) && n <= |ids|
      ensures Doubled(docs, n, payload) == 0
    {
      if n > 0 {
        NoneDoubled(docs, n - 1, payload);
      }
    }
  }

  lemma SwapKeys<T>(keys: set<T>, gone: set<T>, copies: set<T>, x: T, y: T)
    requires x in keys && x !in gone && x !in copies && y !in keys && y !in copies
    ensures keys - gone + (copies + {y}) == keys - gone + copies + {y}
    ensures keys - (gone + {x}) + (copies + {y}) == keys - gone + copies + {y} - {x}
  {
  }

  lemma MovedKeys(docs: Docs, id: ProviderId, newId: nat, now: int, fault: Fault)
    requires id in docs && id.Text? && Copies(docs, newId, fault) && fault.NoFault?
    ensures Moved(docs, id, newId, now, fault).Keys == docs.Keys - {id} + {Object(newId)}
  {
  }

  lemma HoldersInserted(docs: Docs, id: ProviderId, newId: nat, now: int, fault: Fault, payload: string)
    requires id in docs
    ensures |Holders(Inserted(docs, id, newId, now, fault), payload)| ==
            |Holders(docs, payload)| + if Copies(docs, newId, fault) && docs[id].payload == payload then 1 else 0
  {
    var mid := Inserted(docs, id, newId, now, fault);
    if Copies(docs, newId, fault) && docs[id].payload == payload {
      assert Holders(mid, payload) == Holders(docs, payload) + {Object(newId)};
    } else {
      assert Holders(mid, payload) == Holders(docs, payload);
    }
  }

  lemma HoldersStep(r: Progress, id: ProviderId, newId: nat, now: int, fault: Fault, payload: string)
    requires id in r.docs && id.Text?
    ensures |Holders(Handle(r, id, newId, now, fault).docs, payload)| ==
            |Holders(r.docs, payload)|
            + if Copies(r.docs, newId, fault) && fault.DeleteFails? && r.docs[id].payload == payload then 1 else 0
  {
    HoldersInserted(r.docs, id, newId, now, fault, payload);
    var mid := Inserted(r.docs, id, newId, now, fault);
    if Copies(r.docs, newId, fault) && fault.NoFault? {
      assert Holders(mid - {id}, payload) == Holders(mid, payload) - {id};
    }
  }

  // ---- the script ----

  class LlmProviders {
    var docs: Docs
    /** Every state of the collection so far. */
    ghost var history: seq<Docs>

    constructor (docs: Docs)
      ensures this.docs == docs && history == [docs]
    {
      this.docs, history := docs, [docs];
    }

    method InsertOne(id: ProviderId, provider: Provider, refused: bool) returns (raised: bool)
      modifies this
      ensures raised == (refused || id in old(docs))
      ensures docs == if raised then old(docs) else old(docs)[id := provider]
      ensures history == old(history) + [docs]
    {
      raised := refused || id in docs;
      if !raised {
        docs := docs[id := provider];
      }
      history := history + [docs];
    }

    method DeleteOne(id: ProviderId, refused: bool) returns (raised: bool)
      modifies this
      ensures raised == refused
      ensures docs == if raised then old(docs) else old(docs) - {id}
      ensures history == old(history) + [docs]
    {
      raised := refused;
      if !raised {
        docs := docs - {id};
      }
      history := history + [docs];
    }

    /** Insert a copy under the new id, then delete the old document. */
    method Move(oldId: ProviderId, newId: nat, now: int, fault: Fault) returns (raised: bool)
      requires oldId in docs
      modifies this
      ensures raised == !(Copies(old(docs), newId, fault) && fault.NoFault?)
      ensures docs == Moved(old(docs), oldId, newId, now, fault)
      ensures |old(history)| < |history| && history[..|old(history)|] == old(history)
      ensures forall k :: |old(history)| <= k < |history| ==>
                history[k] == Inserted(old(docs), oldId, newId, now, fault) || history[k] == docs
    {
      var newProvider := Provider(docs[oldId].payload, now);
      raised := InsertOne(Object(newId), newProvider, fault.InsertFails?);
      if !raised {
        raised := DeleteOne(oldId, fault.DeleteFails?);
      }
    }

    /** fix_provider_id_types. `providers` is what the cursor returned, `newIds` what ObjectId() yields. */
    method FixProviderIdTypes(providers: seq<ProviderId>, newIds: seq<nat>, faults: seq<Fault>, now: int)
      returns (fixedCount: nat, failedCount: nat)
      requires Listing(docs, providers) && |newIds| == |faults| == |StringIds(providers)|
      modifies this
      ensures var script := Script(StringIds(providers), newIds, faults, now);
              script.Fits(old(docs))
              && Progress(docs, fixedCount, failedCount) == script.After(old(docs), |script.ids|)
              && script.Told(old(docs), |script.ids|, docs) && fixedCount == script.FixedAmong(old(docs), |script.ids|)
      ensures StatesKeep(history, |old(history)|, old(docs))
    {
      ListedIds(docs, providers);
      var stringIds := Classify(providers);
      var script := Script(stringIds, newIds, faults, now);
      fixedCount, failedCount := MoveAll(script);
      script.FinalProviders(old(docs), |script.ids|);
    }

    /** The second loop of fix_provider_id_types. */
    method MoveAll(script: Script) returns (fixedCount: nat, failedCount: nat)
      requires script.Fits(docs)
      modifies this
      ensures script.Fits(old(docs))
      ensures Progress(docs, fixedCount, failedCount) == script.After(old(docs), |script.ids|)
      ensures StatesKeep(history, |old(history)|, old(docs))
    {
      fixedCount, failedCount := 0, 0;
      for n := 0 to |script.ids|
        invariant Progress(docs, fixedCount, failedCount) == script.After(old(docs), n)
        invariant StatesKeep(history, |old(history)|, old(docs))
      {
        script.StatesKeepPayloads(old(docs), n);
        ghost var mid, states := script.Between(old(docs), n), history;
        var raised := Move(script.ids[n], script.newIds[n], script.now, script.faults[n]);
        StatesKeepMore(states, history, |old(history)|, old(docs), mid, docs);
        if raised {
          failedCount := failedCount + 1;
        } else {
          fixedCount := fixedCount + 1;
        }
      }
    }
  }

  /** The ids of type string; those of type ObjectId are only counted. */
  method Classify(providers: seq<ProviderId>) returns (stringIds: seq<ProviderId>)
    ensures stringIds == StringIds(providers)
  {
    var objectIds: seq<ProviderId> := [];
    stringIds := [];
    for i := 0 to |providers|
      invariant stringIds == StringIds(providers[..i])
    {
      assert providers[..i + 1][..i] == providers[..i];
      if providers[i].Text? {
        stringIds := stringIds + [providers[i]];
      } else if providers[i].Object? {
        objectIds := objectIds + [providers[i]];
      }
    }
    assert providers[..|providers|] == providers;
  }

  lemma ListedIds(docs: Docs, providers: seq<ProviderId>)
    requires Listing(docs, providers)
    ensures var ids := StringIds(providers);
            && (forall i, j :: 0 <= i < j < |ids| ==> ids[i] != ids[j])
            && (forall i :: 0 <= i < |ids| ==> ids[i].Text? && ids[i] in docs)
            && (forall id :: id in ids <==> id in docs && id.Text?)
  {
    assert forall i :: 0 <= i < |providers| ==> providers[i] in providers;
    StringIdsListed(docs, providers);
  }

  /** When the script moves all that the cursor listed, a smooth run leaves no string id at all. */
  lemma NoStringIdRemains(docs: Docs, providers: seq<ProviderId>, script: Script)
    requires Listing(docs, providers) && script.ids == StringIds(providers) && script.Smooth(docs)
    ensures forall id :: id in script.After(docs, |script.ids|).docs ==> !id.Text?
  {
    ListedIds(docs, providers);
    var n := |script.ids|;
    script.SmoothSteps(docs, n);
    forall id | id in script.After(docs, n).docs ensures !id.Text? {
      assert id in docs.Keys - script.Taken(n) + script.Given(n);
    }
  }

  /** Every payload has at least as many documents as before. */
  ghost predicate KeepsPayloads(before: Docs, now: Docs) {
    forall payload :: |Holders(now, payload)| >= |Holders(before, payload)|
  }

  /** All states from the `from`-th on keep the payloads of `before`. */
  ghost predicate StatesKeep(history: seq<Docs>, from: nat, before: Docs) {
    from <= |history| && forall k :: from <= k < |history| ==> KeepsPayloads(before, history[k])
  }

  lemma StatesKeepMore(states: seq<Docs>, history: seq<Docs>, from: nat, before: Docs, mid: Docs, last: Docs)
    requires StatesKeep(states, from, before) && |states| <= |history| && history[..|states|] == states
    requires forall k :: |states| <= k < |history| ==> history[k] == mid || history[k] == last
    requires KeepsPayloads(before, mid) && KeepsPayloads(before, last)
    ensures StatesKeep(history, from, before)
  {
    forall k | from <= k < |history| ensures KeepsPayloads(before, history[k]) {
      if k < |states| {
        assert history[k] == states[k];
      }
    }
  }
}
