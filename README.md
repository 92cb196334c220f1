# Personne CRUD gateway — a Dafny model

This project models the request path of the `Personne` entity in a JHipster reactive
application. A REST controller (`PersonneResource`) guards each request. It then calls a
service (`PersonneServiceImpl`). The service writes to two stores, in order: a MongoDB document
store, which is the system of record and generates ids, and an Elasticsearch index that mirrors
it. The model also covers the entity bean `Personne`, the exposed bean `PersonneDTO`, and the
field constraints both declare.

Modules, one per source component:

- `Common` (`common.dfy`): nullable values (`Option`), the error outcomes, injected store
  failures (`Faults`) and Java's 32-bit `int`.
- `Domain` (`domain.dfy`): the `Record` value of a Personne, the Bean Validation constraints,
  and the `Personne` class with its setters, fluent setters, `equals` and `hashCode`.
- `Dto` (`dto.dfy`): the `PersonneDTO` class, with `String.hashCode`/`Objects.hash` written out
  in 32-bit arithmetic.
- `Mapper` (`mapper.dfy`): the null-ignoring overlay of `partialUpdate`, applied in place
  through the entity's setters.
- `Paging` (`paging.dfy`): page requests, the page a store returns, and the total that
  Spring Data's `PageImpl` reports.
- `Service` (`service.dfy`): the `PersonneService` class, whose fields are both stores. Each
  method is tied to a pure `Outcome` function of the stores' prior state, and lemmas state the
  write ordering and failure behaviour.
- `Resource` (`resource.dfy`): the `PersonneResource` class, its guards, the 404 mapping and
  the two page envelopes, with lemmas about whole requests.

Store failures are a parameter `Faults(primaryFails, indexFails)`: when a store fails, every
call into it during that request fails. The id the document store generates is a parameter
`newId`, required to be fresh. The search engine's answer to a query is a parameter `ranking`:
the matching ids in relevance order.

The model follows the code as written; in particular:

- `save` and `update` chain the index save with `flatMap`. An index error therefore fails the
  call, after the document has already been written.
- In `partialUpdate`, the index `save` is only built and never subscribed to. The index is
  never written by a PATCH (`Service.PartialUpdateOverlays` states this).
- `delete` checks nothing first. Deleting a missing id succeeds. An index error fails the call
  after the primary delete has been done.
- The PATCH handler does not validate its body (`Resource.PatchStoresUnvalidatedValue`). That
  the unvalidated value is then stored rests on the "Validation in the store" line under
  "## Left out".
- `update` and `save` run the same chain. Without the controller's guards, `update` with no id
  inserts a new document.

## Model

| member | source | states |
|---|---|---|
| `Domain.AlnumStarMatchesExactly` | src/main/java/com/mycompany/myapp/domain/Personne.java:23 | the pattern `^[a-zA-Z0-9]*$` matches a string iff every character is an ASCII letter or digit |
| `Domain.PrenomConstraint` | src/main/java/com/mycompany/myapp/domain/Personne.java:21-25 | `prenom` is valid iff non-null, 4 to 30 characters, all alphanumeric |
| `Domain.NomConstraint` | src/main/java/com/mycompany/myapp/domain/Personne.java:27-30 | `nom` is valid iff non-null and 4 to 35 characters; any characters are allowed (an example with spaces is valid as `nom`, not as `prenom`) |
| `Domain.TelephoneConstraint` | src/main/java/com/mycompany/myapp/domain/Personne.java:32-35 | `telephone` is valid iff non-null and at most 12; even the smallest `int` is accepted |
| `Domain.MissingFieldInvalid` | src/main/java/com/mycompany/myapp/domain/Personne.java:21-35 | a record missing any of the three required properties is invalid |
| `Domain.Personne.constructor` | src/main/java/com/mycompany/myapp/domain/Personne.java:18-35 | a new entity has every property null |
| `Domain.Personne.SetId` | src/main/java/com/mycompany/myapp/domain/Personne.java:48-50 | sets `id` only; the other properties are unchanged |
| `Domain.Personne.SetPrenom` | src/main/java/com/mycompany/myapp/domain/Personne.java:61-63 | sets `prenom` only |
| `Domain.Personne.SetNom` | src/main/java/com/mycompany/myapp/domain/Personne.java:74-76 | sets `nom` only |
| `Domain.Personne.SetTelephone` | src/main/java/com/mycompany/myapp/domain/Personne.java:87-89 | sets `telephone` only |
| `Domain.Personne.Id` | src/main/java/com/mycompany/myapp/domain/Personne.java:43-46 | sets `id` only and returns the same object |
| `Domain.Personne.Prenom` | src/main/java/com/mycompany/myapp/domain/Personne.java:56-59 | sets `prenom` only and returns the same object |
| `Domain.Personne.Nom` | src/main/java/com/mycompany/myapp/domain/Personne.java:69-72 | sets `nom` only and returns the same object |
| `Domain.Personne.Telephone` | src/main/java/com/mycompany/myapp/domain/Personne.java:82-85 | sets `telephone` only and returns the same object |
| `Domain.PersonneEqualsIsEquivalence` | src/main/java/com/mycompany/myapp/domain/Personne.java:93-102 | `equals` is reflexive, symmetric and transitive, and false for a non-Personne |
| `Domain.PersonneEqualsById` | src/main/java/com/mycompany/myapp/domain/Personne.java:93-102 | distinct entities are equal iff the receiver's id is non-null and the ids agree; an id-less entity equals only itself |
| `Domain.PersonneHashConsistent` | src/main/java/com/mycompany/myapp/domain/Personne.java:104-108 | every entity has the same hash code, so equal entities hash alike |
| `Dto.ObjectsHash` | src/main/java/com/mycompany/myapp/service/dto/PersonneDTO.java:75-78 | the hash of a null id, or of an empty id, is 31 |
| `Dto.StringHashIsPolynomial` | src/main/java/com/mycompany/myapp/service/dto/PersonneDTO.java:77 | `String.hashCode()` of the id equals `s[0]*31^(n-1) + ... + s[n-1]` wrapped to a Java `int` |
| `Dto.ObjectsHashOfId` | src/main/java/com/mycompany/myapp/service/dto/PersonneDTO.java:75-78 | the hash of a present id is `31 + ` that polynomial, wrapped to a Java `int` |
| `Dto.ObjectsHashExample` | src/main/java/com/mycompany/myapp/service/dto/PersonneDTO.java:75-78 | the id "1" hashes to 80 |
| `Dto.PersonneDTO.constructor` | src/main/java/com/mycompany/myapp/service/dto/PersonneDTO.java:10-25 | a new DTO has every property null |
| `Dto.PersonneDTO.SetId` | src/main/java/com/mycompany/myapp/service/dto/PersonneDTO.java:31-33 | afterwards `getId` returns the value set; other properties unchanged |
| `Dto.PersonneDTO.SetPrenom` | src/main/java/com/mycompany/myapp/service/dto/PersonneDTO.java:39-41 | afterwards `getPrenom` returns the value set; other properties unchanged |
| `Dto.PersonneDTO.SetNom` | src/main/java/com/mycompany/myapp/service/dto/PersonneDTO.java:47-49 | afterwards `getNom` returns the value set; other properties unchanged |
| `Dto.PersonneDTO.SetTelephone` | src/main/java/com/mycompany/myapp/service/dto/PersonneDTO.java:55-57 | afterwards `getTelephone` returns the value set; other properties unchanged |
| `Dto.DtoEqualsById` | src/main/java/com/mycompany/myapp/service/dto/PersonneDTO.java:59-73 | an id-less DTO equals only itself; otherwise only ids are compared, other properties ignored |
| `Dto.DtoHashConsistent` | src/main/java/com/mycompany/myapp/service/dto/PersonneDTO.java:75-78 | the hash depends on the id only, so equal DTOs hash alike |
| `Dto.DtoConstraintsMirrorEntity` | src/main/java/com/mycompany/myapp/service/dto/PersonneDTO.java:14-25 | the DTO's own annotations and the entity's accept exactly the same property values |
| `Mapper.PartialUpdate` | src/main/java/com/mycompany/myapp/service/impl/PersonneServiceImpl.java:66-70 | the entity, patched in place, becomes the overlay of the DTO on its previous state |
| `Mapper.OverlayFieldwise` | src/main/java/com/mycompany/myapp/service/impl/PersonneServiceImpl.java:67 | a present patch property replaces the stored one; an absent one keeps it |
| `Mapper.OverlayLaws` | src/main/java/com/mycompany/myapp/service/impl/PersonneServiceImpl.java:67 | an empty patch changes nothing; a complete patch replaces everything; patching twice equals patching once |
| `Paging.PageOf` | src/main/java/com/mycompany/myapp/repository/PersonneRepository.java:15 | a page holds the consecutive items from its offset, `size` of them or every remaining one if fewer, and is empty exactly when out of range |
| `Paging.FirstPagesArePrefix` | src/main/java/com/mycompany/myapp/repository/PersonneRepository.java:15 | pages 0..k-1 read in turn give the listing's first `k * size` items, without gaps or repeats |
| `Paging.PagesPartitionListing` | src/main/java/com/mycompany/myapp/repository/PersonneRepository.java:15 | paging through the whole listing returns every item once, in order |
| `Paging.PageTotalOfSameListing` | src/main/java/com/mycompany/myapp/web/rest/PersonneResource.java:193 | an envelope built from a listing's count and one of its pages reports that count, for every page |
| `Paging.PageTotalWithoutContent` | src/main/java/com/mycompany/myapp/web/rest/PersonneResource.java:248 | an envelope with no content reports the count it was given |
| `Service.Remove` | src/main/java/com/mycompany/myapp/service/impl/PersonneServiceImpl.java:103 | the listing after a delete keeps every other id and stays duplicate-free; one entry fewer if the id was listed |
| `Service.ListingCountsKeys` | src/main/java/com/mycompany/myapp/service/impl/PersonneServiceImpl.java:83-87 | the duplicate-free listing of the store's ids is as long as the store's count |
| `Service.RecordsOf` | src/main/java/com/mycompany/myapp/service/impl/PersonneServiceImpl.java:107-110 | looked-up documents all come from the store; when every key is present, one per key and in key order |
| `Service.Persisted` | src/main/java/com/mycompany/myapp/service/impl/PersonneServiceImpl.java:45-46 | the saved document always has an id, differs from the entity only in its id, gets exactly the generated id when it had none, and keeps an id it already had |
| `Service.PrimaryPut` | src/main/java/com/mycompany/myapp/service/impl/PersonneServiceImpl.java:45-46 | a document store save stores the document under its id, leaves the index alone and keeps the stores well formed |
| `Service.PrimaryDelete` | src/main/java/com/mycompany/myapp/service/impl/PersonneServiceImpl.java:103 | a document store delete removes the id only and keeps the stores well formed |
| `Service.IndexPut` | src/main/java/com/mycompany/myapp/service/impl/PersonneServiceImpl.java:47 | an index save touches the index only |
| `Service.IndexDelete` | src/main/java/com/mycompany/myapp/service/impl/PersonneServiceImpl.java:103 | an index delete touches the index only |
| `Service.PersonneService.constructor` | src/main/java/com/mycompany/myapp/service/impl/PersonneServiceImpl.java:32-40 | the service starts over two empty, well-formed stores |
| `Service.PersonneService.Save` | src/main/java/com/mycompany/myapp/service/impl/PersonneServiceImpl.java:42-49 | the new state and result are those of `SaveOutcome`: document store first, then the index with the stored document; the stores stay well formed |
| `Service.PersonneService.Update` | src/main/java/com/mycompany/myapp/service/impl/PersonneServiceImpl.java:51-58 | the same chain and outcome as `Save` |
| `Service.PersonneService.PartialUpdate` | src/main/java/com/mycompany/myapp/service/impl/PersonneServiceImpl.java:60-78 | the new state and result are those of `PartialUpdateOutcome`: the stored entity is materialised, patched in place and saved; the index is not written |
| `Service.PersonneService.Delete` | src/main/java/com/mycompany/myapp/service/impl/PersonneServiceImpl.java:100-104 | the new state and result are those of `DeleteOutcome`: document store first, the index only after it succeeded |
| `Service.PersonneService.FindOne` | src/main/java/com/mycompany/myapp/service/impl/PersonneServiceImpl.java:94-98 | empty iff the id is absent from the document store; otherwise that document |
| `Service.PersonneService.FindAll` | src/main/java/com/mycompany/myapp/service/impl/PersonneServiceImpl.java:80-84 | one page of the document store's listing; every item is the document stored under its id |
| `Service.PersonneService.CountAll` | src/main/java/com/mycompany/myapp/service/impl/PersonneServiceImpl.java:86-88 | the document store's count, and nothing from the index |
| `Service.PersonneService.SearchCount` | src/main/java/com/mycompany/myapp/service/impl/PersonneServiceImpl.java:90-92 | the index's count, and nothing from the document store |
| `Service.PersonneService.Search` | src/main/java/com/mycompany/myapp/service/impl/PersonneServiceImpl.java:106-110 | one page of the index hits; every item is held by the index under its id |
| `Service.SaveWritesPrimaryThenIndex` | src/main/java/com/mycompany/myapp/service/impl/PersonneServiceImpl.java:43-49 | a primary failure changes nothing; otherwise the store grows by exactly the input under its new id; an index failure then fails the call with the index untouched; on success the index holds the stored document |
| `Service.UpdateReplacesDocument` | src/main/java/com/mycompany/myapp/service/impl/PersonneServiceImpl.java:52-58 | updating a stored id replaces all its properties; count and listing order are unchanged |
| `Service.UpdateWritesPrimaryThenIndex` | src/main/java/com/mycompany/myapp/service/impl/PersonneServiceImpl.java:54-57 | for a stored id: a primary failure changes nothing; otherwise the document is replaced by the body; an index failure then fails the call with the index untouched; on success the result is the body and the index holds it |
| `Service.UpdateIdempotent` | src/main/java/com/mycompany/myapp/service/impl/PersonneServiceImpl.java:52-58 | repeating a successful update changes nothing more |
| `Service.PartialUpdateOfAbsentId` | src/main/java/com/mycompany/myapp/service/impl/PersonneServiceImpl.java:64-66 | patching an absent id is empty and writes nothing |
| `Service.PartialUpdateOverlays` | src/main/java/com/mycompany/myapp/service/impl/PersonneServiceImpl.java:64-77 | patching a stored id stores the overlay, keeps the count, returns the saved document, leaves the index as it was and does not depend on it |
| `Service.PartialUpdatePrenomOnly` | src/main/java/com/mycompany/myapp/service/impl/PersonneServiceImpl.java:66-71 | a patch with only `prenom` changes `prenom`; `nom` and `telephone` keep their stored values |
| `Service.DeleteRemovesPrimaryThenIndex` | src/main/java/com/mycompany/myapp/service/impl/PersonneServiceImpl.java:103 | a primary failure changes nothing; otherwise the id leaves the store, whose count drops by one, then the index, unless the index fails, which fails the call and leaves a stale copy |
| `Service.ListingMatchesCount` | src/main/java/com/mycompany/myapp/service/impl/PersonneServiceImpl.java:80-88 | the unpaged listing has exactly as many entries as the document store counts |
| `Service.IndexFailureDrift` | src/main/java/com/mycompany/myapp/service/impl/PersonneServiceImpl.java:45-48 | a save whose index write fails grows the document count but not the index count, and no search returns the new document |
| `Resource.IdGuard` | src/main/java/com/mycompany/myapp/web/rest/PersonneResource.java:101-106 | passes iff the body id is non-null and equals the path id; `idnull` iff the body id is null; `idinvalid` when a non-null body id differs from the path id |
| `Resource.PersonneResource.constructor` | src/main/java/com/mycompany/myapp/web/rest/PersonneResource.java:53-56 | the controller keeps the service it is given |
| `Resource.PersonneResource.CreatePersonne` | src/main/java/com/mycompany/myapp/web/rest/PersonneResource.java:65-83 | new state and result per `CreateOutcome`: validation, then `idexists`, then `save` |
| `Resource.PersonneResource.UpdatePersonne` | src/main/java/com/mycompany/myapp/web/rest/PersonneResource.java:95-125 | new state and result per `UpdateOutcome`: validation, `idnull`, `idinvalid`, existence (`idnotfound`), then `update` |
| `Resource.PersonneResource.PartialUpdatePersonne` | src/main/java/com/mycompany/myapp/web/rest/PersonneResource.java:138-169 | new state and result per `PatchOutcome`: the same id guards without validation, then `partialUpdate`, empty mapped to 404 |
| `Resource.PersonneResource.GetPersonne` | src/main/java/com/mycompany/myapp/web/rest/PersonneResource.java:206-211 | 404 iff the document store lacks the id, else that document; the same answer as `GetOutcome`, which the request lemmas use |
| `Resource.PersonneResource.DeletePersonne` | src/main/java/com/mycompany/myapp/web/rest/PersonneResource.java:219-228 | new state and result per `DeleteOutcome`, with no guard |
| `Resource.PersonneResource.GetAllPersonnes` | src/main/java/com/mycompany/myapp/web/rest/PersonneResource.java:178-198 | the body is exactly the fetched page and the total is the document store's count |
| `Resource.PersonneResource.SearchPersonnes` | src/main/java/com/mycompany/myapp/web/rest/PersonneResource.java:239-251 | the total is the index's count (envelope with empty content) and the body is the index search page |
| `Resource.CreateRejectsBeforeAnyWrite` | src/main/java/com/mycompany/myapp/web/rest/PersonneResource.java:66-70 | an invalid body, or a valid one with an id, is rejected with no store change; a missing required property leaves the stores unchanged |
| `Resource.CreateThenGet` | src/main/java/com/mycompany/myapp/web/rest/PersonneResource.java:65-83 | a successful create adds one document equal to the body under a fresh id; GET returns it; the index mirrors it |
| `Resource.UpdateRejectsBeforeAnyWrite` | src/main/java/com/mycompany/myapp/web/rest/PersonneResource.java:101-113 | `idnull`, `idinvalid` and `idnotfound` come in that order with no store change; only an index failure leaves a write behind |
| `Resource.UpdateReplaces` | src/main/java/com/mycompany/myapp/web/rest/PersonneResource.java:108-124 | a successful PUT stores the body, keeps the count and is idempotent |
| `Resource.PatchGuardsMatchUpdate` | src/main/java/com/mycompany/myapp/web/rest/PersonneResource.java:144-156 | on a valid body, PATCH and PUT reject exactly the same requests with the same guard error |
| `Resource.PatchNeverNotFound` | src/main/java/com/mycompany/myapp/web/rest/PersonneResource.java:161 | after the existence check the 404 mapping cannot fire when requests run one at a time |
| `Resource.PatchStoresUnvalidatedValue` | src/main/java/com/mycompany/myapp/web/rest/PersonneResource.java:141 | the PATCH handler does not validate, so a patch can store a `prenom` that PUT rejects (stored because store-side validation is left out) |
| `Resource.DeleteThenGet` | src/main/java/com/mycompany/myapp/web/rest/PersonneResource.java:219-228 | after deleting a stored id, GET answers 404 and the count is one lower |

## Left out

- Reactor scheduling is not modelled. Each chain is a sequence of steps, and the count and
  page fetch of the listing read one state, so interleaved requests are not covered.
- Read failures are not modelled. `findOne`, `findAll`, `count` and `search` always succeed. The
  failure of `existsById` is modelled through `Faults.primaryFails`.
- Full-text matching (`queryStringQuery`) is not modelled. The engine's answer is the `ranking`
  parameter.
- Id generation is not modelled. The generated id is the `newId` parameter, required to be
  fresh, as the document store guarantees.
- Listing order is not modelled faithfully. The document store's natural order is modelled as
  insertion order, and the `sort` carried by a Spring `Pageable` (for example `?sort=id,desc`)
  is ignored: `Pageable` holds only the page number and size.
- Validation in the store is outside this model. Any validating listener in the database
  configuration is not part of this model, so a store never rejects a document. Such a
  listener would apply the entity's annotations at `personneRepository.save`, and a PATCH
  with an invalid value would then fail there instead of being stored.
- The MapStruct-generated mapper is not modelled as code. Because `toEntity` and `toDto` copy
  property for property, both are the identity on `Record`, and `partialUpdate` is the
  null-ignoring overlay, including `id`.
- Character width is not modelled. Lengths (`@Size`) and `String.hashCode` use Dafny characters,
  not Java's UTF-16 code units.
- A non-Personne argument to `equals` is not modelled. Null stands for it.
- `Service.PersonneService.PartialUpdate` requires a body id, where the store itself would throw
  on a null id. The controller's `idnull` guard always ensures one.
- The `switchIfEmpty` of PUT is not modelled, because `update` never completes empty.
- Not modelled: HTTP status codes, headers, URIs, `applicationName`, logging,
  `toString`, the DTO getters (plain field reads), `OumarSowTestResource` and the UI code.
