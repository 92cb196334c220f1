/** `PersonneServiceImpl` over its two stores: the document store (system of record, generates
    ids, listed in insertion order) and the search index (a mirror that may lag). Each service
    call is a sequence of store calls, primary first; its effect is stated as an `Outcome` of the
    stores' state before the call. */
module Service {
  import opened Common
  import opened Domain
  import opened Paging
  import Mapper

  /** The state of both stores. `order` is the document store's listing order. */
  datatype Stores = Stores(
    primary: map<string, Record>,
    order: seq<string>,
    index: map<string, Record>)

  /** The stores after a call, and what the call returned (an empty `Mono` is `Ok(None)`). */
  datatype Outcome<T> = Outcome(stores: Stores, result: Result<T>)

  predicate NoDup(s: seq<string>) {
    forall i, j :: 0 <= i < j < |s| ==> s[i] != s[j]
  }

  /** Every document is stored under its own id. */
  ghost predicate KeyedById(m: map<string, Record>) {
    forall k :: k in m ==> m[k].id == Some(k)
  }

  /** What both stores keep true between calls. The index is not required to agree with the
      document store: it may miss documents and keep deleted ones. */
  ghost predicate WellFormed(s: Stores) {
    && KeyedById(s.primary)
    && KeyedById(s.index)
    && NoDup(s.order)
    && (forall k :: k in s.order <==> k in s.primary)
  }

  /** `s` without the occurrences of `k`. */
  function Remove(s: seq<string>, k: string): (r: seq<string>)
    ensures forall x :: x in r <==> x in s && x != k
    ensures k !in s ==> r == s
    ensures NoDup(s) ==> NoDup(r)
    ensures NoDup(s) && k in s ==> |r| == |s| - 1
    decreases |s|
  {
    if s == [] then []
    else if s[0] == k then Remove(s[1..], k)
    else
      var rest := Remove(s[1..], k);
      assert NoDup(s) ==> NoDup([s[0]] + rest) by {
        if NoDup(s) {
          assert NoDup(s[1..]) by {
            assert forall i :: 0 <= i < |s[1..]| ==> s[1..][i] == s[i + 1];
          }
          assert s[0] !in s[1..];
          assert forall i :: 0 <= i < |rest| ==> ([s[0]] + rest)[i + 1] == rest[i];
        }
      }
      [s[0]] + rest
  }

  /** A duplicate-free listing of exactly the keys of `m` has as many entries as `m`. */
  lemma {:induction false} ListingCountsKeys(s: seq<string>, m: map<string, Record>)
    requires NoDup(s)
    requires forall k :: k in s <==> k in m
    ensures |s| == |m|
    decreases |s|
  {
    if s != [] {
      var m' := m - {s[0]};
      assert forall k :: k in s[1..] <==> k in m' by {
        forall k ensures k in s[1..] <==> k in m' {
          if k in s[1..] {
            var i :| 0 <= i < |s[1..]| && s[1..][i] == k;
            assert s[i + 1] == k;
          }
        }
      }
      ListingCountsKeys(s[1..], m');
      assert m'.Keys == m.Keys - {s[0]};
    }
  }

  /** The documents of `m` under the keys of `keys`, in that order; keys `m` lacks are skipped. */
  function RecordsOf(keys: seq<string>, m: map<string, Record>): (r: seq<Record>)
    ensures |r| <= |keys|
    ensures forall i :: 0 <= i < |r| ==> r[i] in m.Values
    ensures (forall k :: k in keys ==> k in m) ==>
      |r| == |keys| && forall i :: 0 <= i < |r| ==> r[i] == m[keys[i]]
    decreases |keys|
  {
    if keys == [] then []
    else if keys[0] in m then [m[keys[0]]] + RecordsOf(keys[1..], m)
    else RecordsOf(keys[1..], m)
  }

  /** `findAllBy` without paging: every document, in listing order. */
  function Listing(s: Stores): seq<Record> {
    RecordsOf(s.order, s.primary)
  }

  /** A document found in a keyed store is the one stored under its own id. */
  lemma FoundUnderOwnId(xs: seq<Record>, m: map<string, Record>)
    requires KeyedById(m)
    requires forall i :: 0 <= i < |xs| ==> xs[i] in m.Values
    ensures forall x :: x in xs ==> x.id.Some? && x.id.value in m && m[x.id.value] == x
  {
    forall x | x in xs
      ensures x.id.Some? && x.id.value in m && m[x.id.value] == x
    {
      var k :| k in m && m[k] == x;
    }
  }

  // ---- single store calls ----

  /** The document `save` writes: an entity without id receives the id the store generates. */
  function Persisted(e: Record, newId: string): (saved: Record)
    ensures saved.id.Some?
    ensures saved.(id := e.id) == e
    ensures e.id.Some? ==> saved == e
    ensures e.id.None? ==> saved.id == Some(newId)
  {
    if e.id.None? then e.(id := Some(newId)) else e
  }

  /** Document store `save`: inserts or replaces the document under its id. */
  function PrimaryPut(s: Stores, r: Record): (t: Stores)
    requires r.id.Some?
    ensures WellFormed(s) ==> WellFormed(t)
    ensures t.primary == s.primary[r.id.value := r] && t.index == s.index
  {
    var k := r.id.value;
    var t := s.(primary := s.primary[k := r], order := if k in s.primary then s.order else s.order + [k]);
    assert WellFormed(s) && k !in s.primary ==> NoDup(t.order) by {
      if WellFormed(s) && k !in s.primary {
        assert forall i :: 0 <= i < |s.order| ==> t.order[i] == s.order[i];
      }
    }
    t
  }

  /** Document store `deleteById`: a missing id is no error. */
  function PrimaryDelete(s: Stores, k: string): (t: Stores)
    ensures WellFormed(s) ==> WellFormed(t)
    ensures t.primary == s.primary - {k} && t.index == s.index
  {
    s.(primary := s.primary - {k}, order := Remove(s.order, k))
  }

  /** Search index `save`. */
  function IndexPut(s: Stores, r: Record): (t: Stores)
    requires r.id.Some?
    ensures WellFormed(s) ==> WellFormed(t)
    ensures t.index == s.index[r.id.value := r] && t.primary == s.primary && t.order == s.order
  {
    s.(index := s.index[r.id.value := r])
  }

  /** Search index `deleteById`. */
  function IndexDelete(s: Stores, k: string): (t: Stores)
    ensures WellFormed(s) ==> WellFormed(t)
    ensures t.index == s.index - {k} && t.primary == s.primary && t.order == s.order
  {
    s.(index := s.index - {k})
  }

  // ---- service calls ----

  /** `save` and `update`: document store save, then, on its result, index save; an error from
      either store ends the chain and is the call's result. */
  function SaveOutcome(s: Stores, body: Record, newId: string, f: Faults): Outcome<Record>
    requires body.id.Some? || newId !in s.primary
  {
    if f.primaryFails then Outcome(s, Err(PrimaryFailure))
    else
      var saved := Persisted(body, newId);
      var afterPrimary := PrimaryPut(s, saved);
      if f.indexFails then Outcome(afterPrimary, Err(IndexFailure))
      else Outcome(IndexPut(afterPrimary, saved), Ok(saved))
  }

  /** `partialUpdate`: find the document, overlay the patch, save it to the document store. The
      index `save` is only assembled, never subscribed to, so the index is not written. */
  function PartialUpdateOutcome(s: Stores, body: Record, f: Faults): Outcome<Option<Record>>
    requires body.id.Some?
  {
    var k := body.id.value;
    if f.primaryFails then Outcome(s, Err(PrimaryFailure))
    else if k !in s.primary then Outcome(s, Ok(None))
    else
      var merged := Mapper.Overlay(s.primary[k], body);
      Outcome(PrimaryPut(s, merged), Ok(Some(merged)))
  }

  /** `delete`: document store delete, then index delete; either error is the call's result. */
  function DeleteOutcome(s: Stores, id: string, f: Faults): Outcome<()> {
    if f.primaryFails then Outcome(s, Err(PrimaryFailure))
    else
      var afterPrimary := PrimaryDelete(s, id);
      if f.indexFails then Outcome(afterPrimary, Err(IndexFailure))
      else Outcome(IndexDelete(afterPrimary, id), Ok(()))
  }

  class PersonneService {
    var primary: map<string, Record>
    var order: seq<string>
    var index: map<string, Record>

    function State(): Stores
      reads this
    {
      Stores(primary, order, index)
    }

    ghost predicate Valid()
      reads this
    {
      WellFormed(State())
    }

    /** Both stores empty. */
    constructor ()
      ensures Valid() && State() == Stores(map[], [], map[])
    {
      primary, order, index := map[], [], map[];
    }

    /** The document store's `save`; `newId` is the id it would generate. */
    method StoreSave(e: Record, newId: string) returns (saved: Record)
      requires Valid()
      requires e.id.Some? || newId !in primary
      modifies this
      ensures Valid()
      ensures saved == Persisted(e, newId) && State() == PrimaryPut(old(State()), saved)
    {
      saved := Persisted(e, newId);
      var k := saved.id.value;
      if k !in primary {
        order := order + [k];
      }
      primary := primary[k := saved];
    }

    /** The search index's `save`. */
    method IndexSave(r: Record)
      requires Valid() && r.id.Some?
      modifies this
      ensures Valid()
      ensures State() == IndexPut(old(State()), r)
    {
      index := index[r.id.value := r];
    }

    /** `save`: the body goes to the document store first; only the document that store returns,
        carrying its new id, is mirrored into the index. */
    method Save(body: Record, newId: string, f: Faults) returns (r: Result<Record>)
      requires Valid()
      requires body.id.Some? || newId !in primary
      modifies this
      ensures Valid()
      ensures var o := SaveOutcome(old(State()), body, newId, f);
        State() == o.stores && r == o.result
    {
      if f.primaryFails {
        r := Err(PrimaryFailure);
        return;
      }
      var saved := StoreSave(body, newId);
      if f.indexFails {
        r := Err(IndexFailure);
        return;
      }
      IndexSave(saved);
      r := Ok(saved);
    }

    /** `update`: the same chain as `save`; a body with an id replaces that document. */
    method Update(body: Record, newId: string, f: Faults) returns (r: Result<Record>)
      requires Valid()
      requires body.id.Some? || newId !in primary
      modifies this
      ensures Valid()
      ensures var o := SaveOutcome(old(State()), body, newId, f);
        State() == o.stores && r == o.result
    {
      r := Save(body, newId, f);
    }

    /** `partialUpdate`: the stored entity is materialised, patched in place by the mapper and
        saved back to the document store. */
    method PartialUpdate(body: Record, f: Faults) returns (r: Result<Option<Record>>)
      requires Valid() && body.id.Some?
      modifies this
      ensures Valid()
      ensures var o := PartialUpdateOutcome(old(State()), body, f);
        State() == o.stores && r == o.result
    {
      if f.primaryFails {
        r := Err(PrimaryFailure);
        return;
      }
      var k := body.id.value;
      if k !in primary {
        r := Ok(None);
        return;
      }
      var existing := new Personne.FromRecord(primary[k]);
      Mapper.PartialUpdate(existing, body);
      var saved := StoreSave(existing.Snapshot(), k);
      // the index save built here is never subscribed to: no index write happens
      r := Ok(Some(saved));
    }

    /** `delete`: the document store first, the index only after it succeeded. */
    method Delete(id: string, f: Faults) returns (r: Result<()>)
      requires Valid()
      modifies this
      ensures Valid()
      ensures var o := DeleteOutcome(old(State()), id, f);
        State() == o.stores && r == o.result
    {
      if f.primaryFails {
        r := Err(PrimaryFailure);
        return;
      }
      order := Remove(order, id);
      primary := primary - {id};
      if f.indexFails {
        r := Err(IndexFailure);
        return;
      }
      index := index - {id};
      r := Ok(());
    }

    /** `findOne`: empty exactly when the document store lacks the id. */
    method FindOne(id: string) returns (r: Option<Record>)
      ensures r.None? <==> id !in primary
      ensures r.Some? ==> id in primary && r.value == primary[id]
    {
      r := if id in primary then Some(primary[id]) else None;
    }

    /** `findAll(pageable)`: one page of the document store's listing. */
    method FindAll(p: Pageable) returns (items: seq<Record>)
      requires Valid()
      ensures items == PageOf(Listing(State()), p)
      ensures forall x :: x in items ==> x.id.Some? && x.id.value in primary && primary[x.id.value] == x
    {
      items := PageOf(RecordsOf(order, primary), p);
      FoundUnderOwnId(items, primary);
    }

    /** `countAll`: the document store's count. */
    method CountAll() returns (n: nat)
      ensures n == |primary|
    {
      n := |primary|;
    }

    /** `searchCount`: the index's count. */
    method SearchCount() returns (n: nat)
      ensures n == |index|
    {
      n := |index|;
    }

    /** `search(query, pageable)`: one page of the index documents the query matches. `ranking`
        is the search engine's answer for the query (ids in relevance order); ids the index does
        not hold are never returned. */
    method Search(ranking: seq<string>, p: Pageable) returns (items: seq<Record>)
      requires Valid()
      ensures items == PageOf(RecordsOf(ranking, index), p)
      ensures forall x :: x in items ==> x.id.Some? && x.id.value in index && index[x.id.value] == x
    {
      items := PageOf(RecordsOf(ranking, index), p);
      FoundUnderOwnId(items, index);
    }
  }

  // ---- properties of the service calls ----

  /** A `save` of a new body: a document store failure changes nothing; otherwise the store
      grows by exactly the body under its new id, and the index receives that stored document,
      unless the index fails, which fails the call with the document already written. */
  lemma SaveWritesPrimaryThenIndex(s: Stores, body: Record, newId: string, f: Faults)
    requires body.id.None? && newId !in s.primary
    ensures var o := SaveOutcome(s, body, newId, f);
      var saved := body.(id := Some(newId));
      && (f.primaryFails ==> o == Outcome(s, Err(PrimaryFailure)))
      && (!f.primaryFails ==>
            o.stores.primary == s.primary[newId := saved]
            && |o.stores.primary| == |s.primary| + 1
            && o.stores.primary[newId].(id := None) == body)
      && (!f.primaryFails && f.indexFails ==>
            o.result == Err(IndexFailure) && o.stores.index == s.index)
      && (!f.primaryFails && !f.indexFails ==>
            o.result == Ok(saved) && o.stores.index == s.index[newId := saved]
            && o.stores.index[newId] == o.stores.primary[newId])
  {
  }

  /** An `update` of a stored id replaces every property of that document and leaves the
      number of documents and the listing order unchanged. */
  lemma UpdateReplacesDocument(s: Stores, body: Record, f: Faults)
    requires body.id.Some? && body.id.value in s.primary && !f.primaryFails
    ensures var o := SaveOutcome(s, body, "", f);
      && o.stores.primary == s.primary[body.id.value := body]
      && |o.stores.primary| == |s.primary|
      && o.stores.order == s.order
  {
  }

  /** An `update` of a stored id runs the same chain as `save`: a document store failure
      changes nothing; otherwise the document is replaced by the body, and the index receives
      it, unless the index fails, which fails the call with the document already replaced. */
  lemma UpdateWritesPrimaryThenIndex(s: Stores, body: Record, f: Faults)
    requires body.id.Some? && body.id.value in s.primary
    ensures var k := body.id.value;
      var o := SaveOutcome(s, body, "", f);
      && (f.primaryFails ==> o == Outcome(s, Err(PrimaryFailure)))
      && (!f.primaryFails && f.indexFails ==>
            o.result == Err(IndexFailure) && o.stores.index == s.index
            && o.stores.primary == s.primary[k := body])
      && (!f.primaryFails && !f.indexFails ==>
            o.result == Ok(body) && o.stores.index == s.index[k := body]
            && o.stores.primary == s.primary[k := body])
  {
  }

  /** Repeating the same successful `update` leaves the stores as the first one left them. */
  lemma UpdateIdempotent(s: Stores, body: Record)
    requires body.id.Some?
    ensures var once := SaveOutcome(s, body, "", NO_FAULTS);
      SaveOutcome(once.stores, body, "", NO_FAULTS) == once
  {
  }

  /** `partialUpdate` of an id the document store lacks is empty and writes nothing. */
  lemma PartialUpdateOfAbsentId(s: Stores, body: Record, f: Faults)
    requires body.id.Some? && body.id.value !in s.primary && !f.primaryFails
    ensures PartialUpdateOutcome(s, body, f) == Outcome(s, Ok(None))
  {
  }

  /** `partialUpdate` of a stored id writes the overlay to the document store: the patch's
      present properties replace, its absent ones keep their stored values, the number of
      documents is unchanged; the index is not touched and the result does not depend on it. */
  lemma PartialUpdateOverlays(s: Stores, t: Stores, body: Record, f: Faults)
    requires body.id.Some? && body.id.value in s.primary && !f.primaryFails
    requires t.primary == s.primary && t.order == s.order
    ensures var k := body.id.value;
      var stored := s.primary[k];
      var o := PartialUpdateOutcome(s, body, f);
      && o.result.Ok? && o.result.value.Some?
      && o.stores.primary == s.primary[k := o.result.value.value]
      && o.result.value.value.id == Some(k)
      && o.result.value.value.prenom == (if body.prenom.Some? then body.prenom else stored.prenom)
      && o.result.value.value.nom == (if body.nom.Some? then body.nom else stored.nom)
      && o.result.value.value.telephone == (if body.telephone.Some? then body.telephone else stored.telephone)
      && |o.stores.primary| == |s.primary|
      && o.stores.index == s.index
      && PartialUpdateOutcome(t, body, f).result == o.result
  {
  }

  /** A patch carrying only `prenom` changes `prenom` and keeps `nom` and `telephone`. */
  lemma PartialUpdatePrenomOnly(s: Stores, k: string, prenom: string)
    requires k in s.primary
    ensures var o := PartialUpdateOutcome(s, Record(Some(k), Some(prenom), None, None), NO_FAULTS);
      && o.stores.primary[k] == s.primary[k].(id := Some(k), prenom := Some(prenom))
      && |o.stores.primary| == |s.primary|
  {
  }

  /** `delete` of a stored id removes it from the document store, which shrinks by one; the
      index copy goes too unless the index fails, which fails the call and leaves a stale
      mirror. A document store failure changes nothing. */
  lemma DeleteRemovesPrimaryThenIndex(s: Stores, k: string, f: Faults)
    requires WellFormed(s) && k in s.primary
    ensures var o := DeleteOutcome(s, k, f);
      && (f.primaryFails ==> o == Outcome(s, Err(PrimaryFailure)))
      && (!f.primaryFails ==>
            k !in o.stores.primary && k !in o.stores.order
            && |o.stores.primary| == |s.primary| - 1
            && |o.stores.order| == |s.order| - 1)
      && (!f.primaryFails && f.indexFails ==>
            o.result == Err(IndexFailure) && o.stores.index == s.index)
      && (!f.primaryFails && !f.indexFails ==>
            o.result == Ok(()) && k !in o.stores.index)
  {
    assert (s.primary - {k}).Keys == s.primary.Keys - {k};
  }

  /** The listing holds every stored document once: as many entries as the store counts. */
  lemma ListingMatchesCount(s: Stores)
    requires WellFormed(s)
    ensures |Listing(s)| == |s.primary|
  {
    ListingCountsKeys(s.order, s.primary);
  }

  /** A `save` whose index write fails leaves the two counts apart: the document store has the
      new document and the index, and so every search, does not. */
  lemma IndexFailureDrift(s: Stores, body: Record, newId: string, ranking: seq<string>, p: Pageable)
    requires WellFormed(s)
    requires body.id.None? && newId !in s.primary && newId !in s.index
    ensures var o := SaveOutcome(s, body, newId, Faults(false, true));
      && |o.stores.primary| == |s.primary| + 1
      && |o.stores.index| == |s.index|
      && forall x :: x in PageOf(RecordsOf(ranking, o.stores.index), p) ==> x.id != Some(newId)
  {
    var o := SaveOutcome(s, body, newId, Faults(false, true));
    FoundUnderOwnId(PageOf(RecordsOf(ranking, o.stores.index), p), o.stores.index);
  }
}
