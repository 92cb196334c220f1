/** The exposed shape `PersonneDTO`: a bean with the same four properties and constraints as
    the entity, identifier-based equality and a hash code computed from the id alone. */
module Dto {
  import opened Common
  import opened Domain

  /** `String.hashCode()`: `h = 31 * h + c` over the characters, in 32-bit arithmetic. */
  function StringHash(s: string): Int32
    decreases |s|
  {
    if s == [] then 0 else Wrap32(31 * StringHash(s[..|s| - 1]) + s[|s| - 1] as int)
  }

  /** `Objects.hash(id)`: `31 * 1 + (id == null ? 0 : id.hashCode())`, in 32-bit arithmetic. */
  function ObjectsHash(id: Option<string>): (h: Int32)
    ensures id.None? ==> h == 31
    ensures id.Some? && id.value == [] ==> h == 31
  {
    Wrap32(31 + (if id.None? then 0 else StringHash(id.value)))
  }

  /** `31^k` */
  function Pow31(k: nat): nat {
    if k == 0 then 1 else 31 * Pow31(k - 1)
  }

  /** The documented value of `String.hashCode()` in exact arithmetic:
      `s[0] * 31^(n-1) + s[1] * 31^(n-2) + ... + s[n-1]`. */
  function HashPolynomial(s: string): int
    decreases |s|
  {
    if s == [] then 0 else (s[0] as int) * Pow31(|s| - 1) + HashPolynomial(s[1..])
  }

  /** Appending a character multiplies the polynomial by 31 and adds the character. */
  lemma {:induction false} HashPolynomialAppend(s: string, c: char)
    ensures HashPolynomial(s + [c]) == 31 * HashPolynomial(s) + c as int
    decreases |s|
  {
    if s != [] {
      var t := s + [c];
      assert t[0] == s[0] && t[1..] == s[1..] + [c];
      HashPolynomialAppend(s[1..], c);
      var a := s[0] as int;
      var p := Pow31(|s| - 1);
      assert Pow31(|t| - 1) == 31 * p;
      assert a * (31 * p) == 31 * (a * p);
    }
  }

  /** `String.hashCode()` is the documented polynomial wrapped to a Java `int`. */
  lemma {:induction false} StringHashIsPolynomial(s: string)
    ensures StringHash(s) == Wrap32(HashPolynomial(s))
    decreases |s|
  {
    if s != [] {
      var p := s[..|s| - 1];
      var c := s[|s| - 1];
      assert s == p + [c];
      StringHashIsPolynomial(p);
      HashPolynomialAppend(p, c);
      // StringHash(p) and HashPolynomial(p) differ by a multiple of 2^32, and so do 31 times each.
      ScaledMultiple(HashPolynomial(p) - StringHash(p), 31);
      WrapCongruent(31 * StringHash(p) + c as int, HashPolynomial(s));
    }
  }

  /** The DTO's hash of a present id is `31 + id.hashCode()` with the polynomial spelled out,
      wrapped to `int`. */
  lemma ObjectsHashOfId(s: string)
    ensures ObjectsHash(Some(s)) == Wrap32(31 + HashPolynomial(s))
  {
    StringHashIsPolynomial(s);
    WrapCongruent(31 + StringHash(s), 31 + HashPolynomial(s));
  }

  /** For example the id "1" (character code 49) hashes to `31 + 49`. */
  lemma ObjectsHashExample()
    ensures ObjectsHash(Some("1")) == 80
  {
    var one := "1";
    assert one[1..] == [];
    assert HashPolynomial(one) == 49;
    ObjectsHashOfId(one);
  }

  class PersonneDTO {
    var id: Option<string>
    var prenom: Option<string>
    var nom: Option<string>
    var telephone: Option<Int32>

    function Snapshot(): Record
      reads this
    {
      Record(id, prenom, nom, telephone)
    }

    constructor ()
      ensures Snapshot() == EMPTY
    {
      id, prenom, nom, telephone := None, None, None, None;
    }

    /** The DTO's own annotations: `prenom` `@NotNull @Size(4, 30) @Pattern("^[a-zA-Z0-9]*$")`,
        `nom` `@NotNull @Size(4, 35)`, `telephone` `@NotNull @Max(12)`. */
    predicate IsValid()
      reads this
    {
      && NotNull(prenom) && SizeWithin(prenom, 4, 30) && PatternAlnum(prenom)
      && NotNull(nom) && SizeWithin(nom, 4, 35)
      && NotNull(telephone) && AtMost(telephone, 12)
    }

    method SetId(v: Option<string>)
      modifies this
      ensures id == v
      ensures Snapshot() == old(Snapshot()).(id := v)
    {
      id := v;
    }

    method SetPrenom(v: Option<string>)
      modifies this
      ensures prenom == v
      ensures Snapshot() == old(Snapshot()).(prenom := v)
    {
      prenom := v;
    }

    method SetNom(v: Option<string>)
      modifies this
      ensures nom == v
      ensures Snapshot() == old(Snapshot()).(nom := v)
    {
      nom := v;
    }

    method SetTelephone(v: Option<Int32>)
      modifies this
      ensures telephone == v
      ensures Snapshot() == old(Snapshot()).(telephone := v)
    {
      telephone := v;
    }

    /** `equals(Object)`: the same object, or a DTO whose id equals this non-null id. */
    predicate Equals(o: PersonneDTO?)
      reads this, o
    {
      this == o || (o != null && SameId(id, o.id))
    }

    function HashCode(): Int32
      reads this
    {
      ObjectsHash(id)
    }
  }

  /** A DTO without an id equals only itself; otherwise only the ids are compared. */
  lemma DtoEqualsById(a: PersonneDTO, b: PersonneDTO)
    ensures a.id.None? ==> (a.Equals(b) <==> a == b)
    ensures a != b ==> (a.Equals(b) <==> a.id.Some? && a.id == b.id)
    ensures !a.Equals(null)
  {
  }

  /** The hash code reads the id only, so equal DTOs hash alike. */
  lemma DtoHashConsistent(a: PersonneDTO, b: PersonneDTO)
    ensures a.id == b.id ==> a.HashCode() == b.HashCode()
    ensures a.Equals(b) ==> a.HashCode() == b.HashCode()
  {
  }

  /** The DTO and the entity accept exactly the same property values. */
  lemma DtoConstraintsMirrorEntity(d: PersonneDTO, e: Personne)
    requires d.Snapshot().(id := None) == e.Snapshot().(id := None)
    ensures d.IsValid() <==> e.IsValid()
  {
  }
}
