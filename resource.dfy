/** `PersonneResource`, the REST controller: the request guards that run before any service
    call, the mapping of an empty service result to 404, and the page envelopes of the listing
    and search endpoints. */
module Resource {
  import opened Common
  import opened Domain
  import opened Paging
  import opened Service

  /** A response body with the page envelope its pagination headers describe. */
  datatype Envelope = Envelope(body: seq<Record>, total: nat, pageable: Pageable)

  /** The id checks of PUT and PATCH, in order: the body must carry an id, equal to the path's. */
  function IdGuard(pathId: Option<string>, body: Record): (e: Option<Error>)
    ensures e.None? <==> body.id.Some? && pathId == body.id
    ensures e == Some(IdNull) <==> body.id.None?
    ensures body.id.Some? && pathId != body.id ==> e == Some(IdInvalid)
  {
    if body.id.None? then Some(IdNull)
    else if pathId != body.id then Some(IdInvalid)
    else None
  }

  /** `switchIfEmpty(NOT_FOUND)` and `wrapOrNotFound`: an empty result becomes 404. */
  function OrNotFound<T>(r: Result<Option<T>>): Result<T> {
    match r
    case Err(e) => Err(e)
    case Ok(None) => Err(NotFound)
    case Ok(Some(v)) => Ok(v)
  }

  /** POST: `@Valid` body, then no id allowed, then `save`. */
  function CreateOutcome(s: Stores, body: Record, newId: string, f: Faults): Outcome<Record>
    requires newId !in s.primary
  {
    if !ValidRecord(body) then Outcome(s, Err(ValidationFailed))
    else if body.id.Some? then Outcome(s, Err(IdExists))
    else SaveOutcome(s, body, newId, f)
  }

  /** PUT: `@Valid` body, id checks, `existsById`, then `update`. */
  function UpdateOutcome(s: Stores, pathId: Option<string>, body: Record, f: Faults): Outcome<Record> {
    if !ValidRecord(body) then Outcome(s, Err(ValidationFailed))
    else if IdGuard(pathId, body).Some? then Outcome(s, Err(IdGuard(pathId, body).value))
    else if f.primaryFails then Outcome(s, Err(PrimaryFailure))
    else if body.id.value !in s.primary then Outcome(s, Err(IdNotFound))
    else SaveOutcome(s, body, body.id.value, f)
  }

  /** PATCH: no validation of the body, id checks, `existsById`, `partialUpdate`, empty -> 404. */
  function PatchOutcome(s: Stores, pathId: Option<string>, body: Record, f: Faults): Outcome<Record> {
    if IdGuard(pathId, body).Some? then Outcome(s, Err(IdGuard(pathId, body).value))
    else if f.primaryFails then Outcome(s, Err(PrimaryFailure))
    else if body.id.value !in s.primary then Outcome(s, Err(IdNotFound))
    else
      var o := PartialUpdateOutcome(s, body, f);
      Outcome(o.stores, OrNotFound(o.result))
  }

  /** GET by id. */
  function GetOutcome(s: Stores, id: string): Result<Record> {
    OrNotFound(Ok(if id in s.primary then Some(s.primary[id]) else None))
  }

  class PersonneResource {
    const service: PersonneService

    constructor (service: PersonneService)
      ensures this.service == service
    {
      this.service := service;
    }

    /** `createPersonne` */
    method CreatePersonne(body: Record, newId: string, f: Faults) returns (r: Result<Record>)
      requires service.Valid() && newId !in service.primary
      modifies service
      ensures service.Valid()
      ensures var o := CreateOutcome(old(service.State()), body, newId, f);
        service.State() == o.stores && r == o.result
    {
      if !ValidRecord(body) {
        r := Err(ValidationFailed);
        return;
      }
      if body.id.Some? {
        r := Err(IdExists);
        return;
      }
      r := service.Save(body, newId, f);
    }

    /** `updatePersonne` */
    method UpdatePersonne(pathId: Option<string>, body: Record, f: Faults) returns (r: Result<Record>)
      requires service.Valid()
      modifies service
      ensures service.Valid()
      ensures var o := UpdateOutcome(old(service.State()), pathId, body, f);
        service.State() == o.stores && r == o.result
    {
      if !ValidRecord(body) {
        r := Err(ValidationFailed);
        return;
      }
      var rejected := IdGuard(pathId, body);
      if rejected.Some? {
        r := Err(rejected.value);
        return;
      }
      if f.primaryFails {
        r := Err(PrimaryFailure);
        return;
      }
      var id := body.id.value;
      if id !in service.primary {
        r := Err(IdNotFound);
        return;
      }
      r := service.Update(body, id, f);
    }

    /** `partialUpdatePersonne` */
    method PartialUpdatePersonne(pathId: Option<string>, body: Record, f: Faults) returns (r: Result<Record>)
      requires service.Valid()
      modifies service
      ensures service.Valid()
      ensures var o := PatchOutcome(old(service.State()), pathId, body, f);
        service.State() == o.stores && r == o.result
    {
      var rejected := IdGuard(pathId, body);
      if rejected.Some? {
        r := Err(rejected.value);
        return;
      }
      if f.primaryFails {
        r := Err(PrimaryFailure);
        return;
      }
      if body.id.value !in service.primary {
        r := Err(IdNotFound);
        return;
      }
      var result := service.PartialUpdate(body, f);
      r := OrNotFound(result);
    }

    /** `getPersonne`: 404 exactly when the document store lacks the id. */
    method GetPersonne(id: string) returns (r: Result<Record>)
      ensures r == Err(NotFound) <==> id !in service.primary
      ensures r.Ok? ==> id in service.primary && r.value == service.primary[id]
      ensures r.Ok? || r == Err(NotFound)
      ensures r == GetOutcome(service.State(), id)
    {
      var found := service.FindOne(id);
      r := OrNotFound(Ok(found));
    }

    /** `deletePersonne`: no guard, straight to the service. */
    method DeletePersonne(id: string, f: Faults) returns (r: Result<()>)
      requires service.Valid()
      modifies service
      ensures service.Valid()
      ensures var o := DeleteOutcome(old(service.State()), id, f);
        service.State() == o.stores && r == o.result
    {
      r := service.Delete(id, f);
    }

    /** `getAllPersonnes`: the document store's count and one page of its listing, joined. The
        body is exactly the page, and the reported total is the store's count. */
    method GetAllPersonnes(p: Pageable) returns (env: Envelope)
      requires service.Valid()
      ensures env.body == PageOf(Listing(service.State()), p)
      ensures env.total == |service.primary|
      ensures env.pageable == p
      ensures forall x :: x in env.body ==> x.id.Some? && service.primary[x.id.value] == x
    {
      var count := service.CountAll();
      var items := service.FindAll(p);
      ListingMatchesCount(service.State());
      PageTotalOfSameListing(Listing(service.State()), p);
      env := Envelope(items, PageTotal(items, p, count), p);
    }

    /** `searchPersonnes`: the envelope is built from the index's count with no content, and the
        body is the index search; the document store is not read. */
    method SearchPersonnes(ranking: seq<string>, p: Pageable) returns (env: Envelope)
      requires service.Valid()
      ensures env.total == |service.index|
      ensures env.body == PageOf(RecordsOf(ranking, service.index), p)
      ensures env.pageable == p
      ensures forall x :: x in env.body ==> x.id.Some? && service.index[x.id.value] == x
    {
      var total := service.SearchCount();
      var headerPage: seq<Record> := [];
      PageTotalWithoutContent(headerPage, p, total);
      var items := service.Search(ranking, p);
      env := Envelope(items, PageTotal(headerPage, p, total), p);
    }
  }

  // ---- properties of the endpoints ----

  /** POST rejects an invalid body, then a body carrying an id, before any store call. */
  lemma CreateRejectsBeforeAnyWrite(s: Stores, body: Record, newId: string, f: Faults)
    requires newId !in s.primary
    ensures !ValidRecord(body) ==> CreateOutcome(s, body, newId, f) == Outcome(s, Err(ValidationFailed))
    ensures ValidRecord(body) && body.id.Some? ==>
      CreateOutcome(s, body, newId, f) == Outcome(s, Err(IdExists))
    ensures (body.prenom.None? || body.nom.None? || body.telephone.None?) ==>
      CreateOutcome(s, body, newId, f).stores == s
  {
  }

  /** A successful POST grows the store by one document holding the body's properties under a
      fresh id, and GET on that id returns it. */
  lemma CreateThenGet(s: Stores, body: Record, newId: string)
    requires ValidRecord(body) && body.id.None? && newId !in s.primary
    ensures var o := CreateOutcome(s, body, newId, NO_FAULTS);
      && o.result == Ok(body.(id := Some(newId)))
      && |o.stores.primary| == |s.primary| + 1
      && GetOutcome(o.stores, newId) == o.result
      && o.stores.index[newId] == o.stores.primary[newId]
  {
  }

  /** PUT rejects, in order, an invalid body, a missing body id, a body id other than the path
      id, and an id the store lacks, each without a write. */
  lemma UpdateRejectsBeforeAnyWrite(s: Stores, pathId: Option<string>, body: Record, f: Faults)
    ensures var o := UpdateOutcome(s, pathId, body, f);
      && (ValidRecord(body) && body.id.None? ==> o == Outcome(s, Err(IdNull)))
      && (ValidRecord(body) && body.id.Some? && pathId != body.id ==> o == Outcome(s, Err(IdInvalid)))
      && ((ValidRecord(body) && pathId == body.id && body.id.Some? && !f.primaryFails &&
           body.id.value !in s.primary) ==> o == Outcome(s, Err(IdNotFound)))
      && (o.result.Err? && o.result.error != IndexFailure ==> o.stores == s)
  {
  }

  /** A successful PUT replaces the stored document by the body, keeps the number of documents,
      and is idempotent. */
  lemma UpdateReplaces(s: Stores, k: string, body: Record)
    requires ValidRecord(body) && body.id == Some(k) && k in s.primary
    ensures var o := UpdateOutcome(s, Some(k), body, NO_FAULTS);
      && o.result == Ok(body)
      && o.stores.primary == s.primary[k := body]
      && |o.stores.primary| == |s.primary|
      && UpdateOutcome(o.stores, Some(k), body, NO_FAULTS) == o
  {
  }

  /** PATCH applies PUT's id checks in PUT's order: on a valid body the two reject the same
      requests with the same error and leave the stores alone. */
  lemma PatchGuardsMatchUpdate(s: Stores, pathId: Option<string>, body: Record, f: Faults, e: Error)
    requires ValidRecord(body)
    requires e == IdNull || e == IdInvalid || e == IdNotFound || e == PrimaryFailure
    ensures UpdateOutcome(s, pathId, body, f) == Outcome(s, Err(e)) <==>
            PatchOutcome(s, pathId, body, f) == Outcome(s, Err(e))
  {
  }

  /** Once the existence check has passed, the service cannot come back empty, so PATCH never
      answers 404 when requests run one at a time. */
  lemma PatchNeverNotFound(s: Stores, pathId: Option<string>, body: Record, f: Faults)
    ensures PatchOutcome(s, pathId, body, f).result != Err(NotFound)
  {
  }

  /** The PATCH handler does not validate its body (no `@Valid`), so a patch may store a
      `prenom` that POST and PUT would reject. That it is also stored rests on the stores
      accepting any document: validation inside the document store is not part of this model. */
  lemma PatchStoresUnvalidatedValue(s: Stores, k: string)
    requires k in s.primary
    ensures var o := PatchOutcome(s, Some(k), Record(Some(k), Some("ab"), None, None), NO_FAULTS);
      && o.result.Ok?
      && !ValidRecord(o.stores.primary[k])
      && UpdateOutcome(s, Some(k), o.stores.primary[k], NO_FAULTS) == Outcome(s, Err(ValidationFailed))
  {
    assert |"ab"| == 2;
  }

  /** After a successful DELETE of a stored id, GET answers 404 and the count is one lower. */
  lemma DeleteThenGet(s: Stores, k: string)
    requires WellFormed(s) && k in s.primary
    ensures var o := DeleteOutcome(s, k, NO_FAULTS);
      && GetOutcome(o.stores, k) == Err(NotFound)
      && |o.stores.primary| == |s.primary| - 1
  {
    DeleteRemovesPrimaryThenIndex(s, k, NO_FAULTS);
  }
}
