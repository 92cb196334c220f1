/** Shared value types: optional values standing for Java's nullable references, the typed error
    outcomes of the REST layer and the services, injected store failures, and Java's 32-bit `int`. */
module Common {

  /** A Java reference that may be `null` (`None`). */
  datatype Option<T> = None | Some(value: T)

  /** Every failure the Personne request path can report. */
  datatype Error =
    | ValidationFailed   // a `@Valid` request body broke a field constraint (400)
    | IdExists           // create with a body id already set ("idexists", 400)
    | IdNull             // update/patch with a null body id ("idnull", 400)
    | IdInvalid          // body id differs from the path id ("idinvalid", 400)
    | IdNotFound         // existence check failed before the service call ("idnotfound", 400)
    | NotFound           // an empty service result mapped to 404
    | PrimaryFailure     // the document store reported an error
    | IndexFailure       // the search index reported an error

  datatype Result<T> = Ok(value: T) | Err(error: Error)

  /** Which store errors during one request: every call into that store fails. */
  datatype Faults = Faults(primaryFails: bool, indexFails: bool)

  const NO_FAULTS := Faults(false, false)

  const INT_MIN: int := -0x8000_0000
  const INT_MAX: int := 0x7fff_ffff

  /** Java's `int` (and the value of a non-null `Integer`). */
  type Int32 = x: int | INT_MIN <= x <= INT_MAX

  /** Two's-complement wrap-around of Java `int` arithmetic. */
  function Wrap32(x: int): (r: Int32)
    ensures INT_MIN <= x <= INT_MAX ==> r == x
    ensures (x - r) % 0x1_0000_0000 == 0
  {
    var m := x % 0x1_0000_0000;
    if m <= INT_MAX then m else m - 0x1_0000_0000
  }

  /** Values that differ by a multiple of 2^32 wrap to the same `int`. */
  lemma WrapCongruent(x: int, y: int)
    requires (x - y) % 0x1_0000_0000 == 0
    ensures Wrap32(x) == Wrap32(y)
  {
    var q := (x - y) / 0x1_0000_0000;
    assert x == y + 0x1_0000_0000 * q;
    assert x % 0x1_0000_0000 == y % 0x1_0000_0000;
  }

  /** A multiple of 2^32 stays one when scaled. */
  lemma ScaledMultiple(d: int, k: int)
    requires d % 0x1_0000_0000 == 0
    ensures (k * d) % 0x1_0000_0000 == 0
  {
    var q := d / 0x1_0000_0000;
    assert d == 0x1_0000_0000 * q;
    assert k * d == 0x1_0000_0000 * (k * q);
  }
}
