/** The Personne document: its four properties, the Bean Validation constraints on them, the
    mutable entity bean with its plain and fluent setters, and its identifier-based equality. */
module Domain {
  import opened Common

  /** The state of one Personne (entity or DTO): `null` properties are `None`. */
  datatype Record = Record(
    id: Option<string>,
    prenom: Option<string>,
    nom: Option<string>,
    telephone: Option<Int32>)

  const EMPTY := Record(None, None, None, None)

  // ---- Bean Validation constraints; every one but @NotNull accepts null ----

  /** `@NotNull` */
  predicate NotNull<T>(v: Option<T>) { v.Some? }

  /** `@Size(min, max)` on a string */
  predicate SizeWithin(v: Option<string>, min: nat, max: nat) {
    v.None? || min <= |v.value| <= max
  }

  /** `@Max(max)` on an integer */
  predicate AtMost(v: Option<Int32>, max: int) {
    v.None? || v.value <= max
  }

  /** One character of the class `[a-zA-Z0-9]`. */
  predicate IsAlnum(c: char) {
    ('a' <= c <= 'z') || ('A' <= c <= 'Z') || ('0' <= c <= '9')
  }

  /** Whole-string match of the regular expression `^[a-zA-Z0-9]*$`: the star consumes one
      character of the class at a time until the end anchor. */
  predicate MatchesAlnumStar(s: string)
    decreases |s|
  {
    s == [] || (IsAlnum(s[0]) && MatchesAlnumStar(s[1..]))
  }

  /** `@Pattern(regexp = "^[a-zA-Z0-9]*$")` */
  predicate PatternAlnum(v: Option<string>) {
    v.None? || MatchesAlnumStar(v.value)
  }

  const PRENOM_MIN := 4
  const PRENOM_MAX := 30
  const NOM_MIN := 4
  const NOM_MAX := 35
  const TELEPHONE_MAX := 12

  predicate ValidPrenom(v: Option<string>) {
    NotNull(v) && SizeWithin(v, PRENOM_MIN, PRENOM_MAX) && PatternAlnum(v)
  }

  predicate ValidNom(v: Option<string>) {
    NotNull(v) && SizeWithin(v, NOM_MIN, NOM_MAX)
  }

  predicate ValidTelephone(v: Option<Int32>) {
    NotNull(v) && AtMost(v, TELEPHONE_MAX)
  }

  /** What `@Valid` checks on a Personne body; the id carries no constraint. */
  predicate ValidRecord(r: Record) {
    ValidPrenom(r.prenom) && ValidNom(r.nom) && ValidTelephone(r.telephone)
  }

  /** The regular expression accepts exactly the strings made of ASCII letters and digits. */
  lemma {:induction false} AlnumStarMatchesExactly(s: string)
    ensures MatchesAlnumStar(s) <==> forall i :: 0 <= i < |s| ==> IsAlnum(s[i])
    decreases |s|
  {
    if s != [] {
      AlnumStarMatchesExactly(s[1..]);
      assert forall i :: 1 <= i < |s| ==> s[i] == s[1..][i - 1];
    }
  }

  /** `prenom` is valid iff it is present, 4 to 30 characters long and alphanumeric. */
  lemma PrenomConstraint(v: Option<string>)
    ensures ValidPrenom(v) <==>
      v.Some? && 4 <= |v.value| <= 30 && forall i :: 0 <= i < |v.value| ==> IsAlnum(v.value[i])
  {
    if v.Some? {
      AlnumStarMatchesExactly(v.value);
    }
  }

  /** `nom` is valid iff it is present and 4 to 35 characters long, whatever its characters. */
  lemma NomConstraint(v: Option<string>)
    ensures ValidNom(v) <==> v.Some? && 4 <= |v.value| <= 35
    ensures ValidNom(Some("  -é")) && !ValidPrenom(Some("  -é"))
  {
    assert !IsAlnum(' ');
  }

  /** `telephone` is valid iff it is present and at most 12; nothing bounds it from below. */
  lemma TelephoneConstraint(v: Option<Int32>)
    ensures ValidTelephone(v) <==> v.Some? && v.value <= 12
    ensures ValidTelephone(Some(INT_MIN))
  {
  }

  /** A body missing any of the three required properties is rejected. */
  lemma MissingFieldInvalid(r: Record)
    requires r.prenom.None? || r.nom.None? || r.telephone.None?
    ensures !ValidRecord(r)
  {
  }

  /** `id != null && id.equals(other.id)`: the identifier test shared by the entity and the DTO. */
  predicate SameId(id: Option<string>, other: Option<string>) {
    id.Some? && id == other
  }

  /** `getClass().hashCode()`: the identity hash of the `Personne` class object, some value
      fixed for the run and shared by every Personne. The 0 here stands in for that unknown
      value; only its being the same for every entity is used. */
  const PERSONNE_CLASS_HASH: Int32 := 0

  /** The entity bean `Personne`, whose properties are assigned one at a time. */
  class Personne {
    var id: Option<string>
    var prenom: Option<string>
    var nom: Option<string>
    var telephone: Option<Int32>

    function Snapshot(): Record
      reads this
    {
      Record(id, prenom, nom, telephone)
    }

    /** `new Personne()`: every property null. */
    constructor ()
      ensures Snapshot() == EMPTY
    {
      id, prenom, nom, telephone := None, None, None, None;
    }

    /** The object a repository materialises from a stored document. */
    constructor FromRecord(r: Record)
      ensures Snapshot() == r
    {
      id, prenom, nom, telephone := r.id, r.prenom, r.nom, r.telephone;
    }

    predicate IsValid()
      reads this
    {
      ValidRecord(Snapshot())
    }

    method SetId(v: Option<string>)
      modifies this
      ensures Snapshot() == old(Snapshot()).(id := v)
    {
      id := v;
    }

    method SetPrenom(v: Option<string>)
      modifies this
      ensures Snapshot() == old(Snapshot()).(prenom := v)
    {
      prenom := v;
    }

    method SetNom(v: Option<string>)
      modifies this
      ensures Snapshot() == old(Snapshot()).(nom := v)
    {
      nom := v;
    }

    method SetTelephone(v: Option<Int32>)
      modifies this
      ensures Snapshot() == old(Snapshot()).(telephone := v)
    {
      telephone := v;
    }

    /** Fluent `id(String)`: sets the property and returns the receiver. */
    method Id(v: Option<string>) returns (self: Personne)
      modifies this
      ensures self == this
      ensures Snapshot() == old(Snapshot()).(id := v)
    {
      SetId(v);
      self := this;
    }

    method Prenom(v: Option<string>) returns (self: Personne)
      modifies this
      ensures self == this
      ensures Snapshot() == old(Snapshot()).(prenom := v)
    {
      SetPrenom(v);
      self := this;
    }

    method Nom(v: Option<string>) returns (self: Personne)
      modifies this
      ensures self == this
      ensures Snapshot() == old(Snapshot()).(nom := v)
    {
      SetNom(v);
      self := this;
    }

    method Telephone(v: Option<Int32>) returns (self: Personne)
      modifies this
      ensures self == this
      ensures Snapshot() == old(Snapshot()).(telephone := v)
    {
      SetTelephone(v);
      self := this;
    }

    /** `equals(Object)`; a null argument stands for anything that is not a Personne. */
    predicate Equals(o: Personne?)
      reads this, o
    {
      this == o || (o != null && SameId(id, o.id))
    }

    function HashCode(): Int32 {
      PERSONNE_CLASS_HASH
    }
  }

  /** Equality is reflexive, symmetric and transitive, and ignores every property but the id. */
  lemma PersonneEqualsIsEquivalence(a: Personne, b: Personne, c: Personne)
    ensures a.Equals(a)
    ensures a.Equals(b) <==> b.Equals(a)
    ensures a.Equals(b) && b.Equals(c) ==> a.Equals(c)
    ensures !a.Equals(null)
  {
  }

  /** Two distinct objects are equal iff the receiver has an id and the ids agree; an id-less
      entity equals only itself. */
  lemma PersonneEqualsById(a: Personne, b: Personne)
    ensures a != b ==> (a.Equals(b) <==> a.id.Some? && a.id == b.id)
    ensures a.id.None? ==> (a.Equals(b) <==> a == b)
  {
  }

  /** The class-wide hash code is consistent with `Equals`. */
  lemma PersonneHashConsistent(a: Personne, b: Personne)
    ensures a.Equals(b) ==> a.HashCode() == b.HashCode()
    ensures a.HashCode() == b.HashCode()
  {
  }
}
