/** The entity/DTO mapper. `toEntity` and `toDto` copy the four properties one for one, so on
    `Record` values they are the identity; `partialUpdate` overlays the non-null properties of a
    DTO onto an existing entity, in place. */
module Mapper {
  import opened Common
  import opened Domain

  /** A present incoming value replaces, an absent one keeps the existing value. */
  function Pick<T>(incoming: Option<T>, existing: Option<T>): Option<T> {
    if incoming.Some? then incoming else existing
  }

  /** The record `partialUpdate` leaves behind. */
  function Overlay(existing: Record, patch: Record): Record {
    Record(
      Pick(patch.id, existing.id),
      Pick(patch.prenom, existing.prenom),
      Pick(patch.nom, existing.nom),
      Pick(patch.telephone, existing.telephone))
  }

  /** `partialUpdate(entity, dto)`: assigns through the entity's setters every property the DTO
      carries, and nothing else. */
  method PartialUpdate(entity: Personne, dto: Record)
    modifies entity
    ensures entity.Snapshot() == Overlay(old(entity.Snapshot()), dto)
  {
    if dto.id.Some? {
      entity.SetId(dto.id);
    }
    if dto.prenom.Some? {
      entity.SetPrenom(dto.prenom);
    }
    if dto.nom.Some? {
      entity.SetNom(dto.nom);
    }
    if dto.telephone.Some? {
      entity.SetTelephone(dto.telephone);
    }
  }

  /** Each property of the overlay is the patch's when the patch carries one and the existing
      one otherwise: absence never clears. */
  lemma OverlayFieldwise(existing: Record, patch: Record)
    ensures var r := Overlay(existing, patch);
      && (patch.prenom.Some? ==> r.prenom == patch.prenom)
      && (patch.prenom.None? ==> r.prenom == existing.prenom)
      && (patch.nom.Some? ==> r.nom == patch.nom)
      && (patch.nom.None? ==> r.nom == existing.nom)
      && (patch.telephone.Some? ==> r.telephone == patch.telephone)
      && (patch.telephone.None? ==> r.telephone == existing.telephone)
      && (patch.id.None? ==> r.id == existing.id)
  {
  }

  /** An empty patch changes nothing, a patch that carries every property replaces all of them,
      and applying a patch twice is the same as applying it once. */
  lemma OverlayLaws(existing: Record, patch: Record)
    ensures Overlay(existing, EMPTY) == existing
    ensures patch.id.Some? && patch.prenom.Some? && patch.nom.Some? && patch.telephone.Some? ==>
      Overlay(existing, patch) == patch
    ensures Overlay(Overlay(existing, patch), patch) == Overlay(existing, patch)
  {
  }
}
