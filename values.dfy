/** Values that can be stored under a property key, their runtime classes,
    and the Java integer and string-hash arithmetic the model needs. */
module Values {

  /** Java's `null` for an object reference is `None`. */
  datatype Option<+T> = None | Some(value: T)

  /** The outcome of a Java call that either returns or throws. */
  datatype Result<+T, +E> = Ok(value: T) | Err(error: E)

  /** The outcome of a Java `void` call that either returns or throws. */
  datatype Outcome<+E> = Pass | Fail(error: E)

  const TWO_TO_THE_31: int := 0x8000_0000
  const TWO_TO_THE_32: int := 0x1_0000_0000

  /** A Java `int` (and the payload of an `Integer`). */
  newtype int32 = x: int | -0x8000_0000 <= x < 0x8000_0000

  /** The runtime class a property declares for its values (`Class<T>`).
      The model closes the set of classes; `isInstance` becomes equality of tags. */
  datatype Tag = IntT | StrT | BoolT

  /** A non-null `Serializable` value as stored in a holder. */
  datatype Value = IntV(i: int32) | StrV(s: string) | BoolV(b: bool)

  function ClassOf(v: Value): Tag
  {
    match v
    case IntV(_) => IntT
    case StrV(_) => StrT
    case BoolV(_) => BoolT
  }

  /** `c.isInstance(v)` for a non-null `v`. */
  predicate IsInstance(c: Tag, v: Value)
  {
    ClassOf(v) == c
  }

  /** What Java's static typing allows in a variable of type `T` when `c` is `T`'s
      class: `null`, or an instance of `c`. */
  predicate HoldsInstance(c: Tag, v: Option<Value>)
  {
    v.None? || IsInstance(c, v.value)
  }

  /** Java's narrowing of a mathematical integer to `int`: the unique 32-bit
      two's-complement value congruent to `x` modulo 2^32. */
  function ToInt32(x: int): (r: int)
    ensures -TWO_TO_THE_31 <= r < TWO_TO_THE_31
    ensures (x - r) % TWO_TO_THE_32 == 0
  {
    var u := x % TWO_TO_THE_32;
    if u < TWO_TO_THE_31 then u else u - TWO_TO_THE_32
  }

  /** The exact polynomial `s[0]*31^(n-1) + ... + s[n-1]` that `String.hashCode`
      computes before overflow; each character counts as its code point. */
  function HashPolynomial(s: string): int
  {
    if s == [] then 0 else 31 * HashPolynomial(s[..|s| - 1]) + s[|s| - 1] as int
  }

  /** `String.hashCode()`: `h = 31 * h + c` over the characters, in `int` arithmetic
      that wraps around at every step. The result is the 32-bit reduction of the
      exact polynomial, so wrapping once at the end gives the same value. */
  function StringHashCode(s: string): (h: int)
    ensures -TWO_TO_THE_31 <= h < TWO_TO_THE_31
    ensures (HashPolynomial(s) - h) % TWO_TO_THE_32 == 0
  {
    if s == [] then 0
    else
      var prefix := StringHashCode(s[..|s| - 1]);
      var h := ToInt32(31 * prefix + s[|s| - 1] as int);
      WrapStep(HashPolynomial(s[..|s| - 1]), prefix, s[|s| - 1] as int, h);
      h
  }

  /** One step of the hash keeps the running value congruent to the polynomial. */
  lemma WrapStep(exact: int, wrapped: int, c: int, next: int)
    requires (exact - wrapped) % TWO_TO_THE_32 == 0
    requires (31 * wrapped + c - next) % TWO_TO_THE_32 == 0
    ensures (31 * exact + c - next) % TWO_TO_THE_32 == 0
  {
    var q := (exact - wrapped) / TWO_TO_THE_32;
    assert exact - wrapped == TWO_TO_THE_32 * q;
    var q' := (31 * wrapped + c - next) / TWO_TO_THE_32;
    assert 31 * wrapped + c - next == TWO_TO_THE_32 * q';
    assert 31 * exact + c - next == TWO_TO_THE_32 * (31 * q + q');
  }

  /** Two values in the `int` range that are congruent modulo 2^32 are equal,
      so the contract of `StringHashCode` determines it. */
  lemma {:induction false} StringHashCodeUnique(s: string, h: int)
    requires -TWO_TO_THE_31 <= h < TWO_TO_THE_31
    requires (HashPolynomial(s) - h) % TWO_TO_THE_32 == 0
    ensures h == StringHashCode(s)
  {
    var g := StringHashCode(s);
    var d := h - g;
    assert (HashPolynomial(s) - g) % TWO_TO_THE_32 == 0;
    var a := (HashPolynomial(s) - g) / TWO_TO_THE_32;
    var b := (HashPolynomial(s) - h) / TWO_TO_THE_32;
    assert d == TWO_TO_THE_32 * (a - b);
  }
}
