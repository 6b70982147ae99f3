/** The few pieces of the Java platform that every other module of the model
    relies on: null, exceptions, the primitive integer ranges and the
    behaviour of java.util.HashMap lookups. */
module JavaLang {

  /** A Java reference that may be null (`None`), also used for
      java.util.Optional (`None` is the empty Optional). */
  datatype Option<+T> = None | Some(value: T)

  /** The exceptions the modelled code throws. Only the detail message of
      IndexOutOfBoundsException is observable in the model. */
  datatype Exception =
    | NullPointer
    | IllegalArgument
    | ArrayIndexOutOfBounds
    | IndexOutOfBounds(message: Option<string>)
    | NegativeArraySize
    | ClassCast

  /** How a Java call ends: it returns a value, or it throws. */
  datatype Outcome<+T> = Ok(value: T) | Threw(exc: Exception)

  // Ranges of the Java primitive integer types (JLS section 4.2.1).
  predicate IsByte(n: int) { -0x80 <= n < 0x80 }
  predicate IsShort(n: int) { -0x8000 <= n < 0x8000 }
  predicate IsChar(n: int) { 0 <= n < 0x1_0000 }
  predicate IsInt(n: int) { -0x8000_0000 <= n < 0x8000_0000 }
  predicate IsLong(n: int) { -0x8000_0000_0000_0000 <= n < 0x8000_0000_0000_0000 }

  /** `HashMap.get`: the mapped value, or null when the key is absent. */
  function Lookup<K(==), V>(m: map<Option<K>, Option<V>>, key: Option<K>): Option<V> {
    if key in m then m[key] else None
  }

  /** A HashMap that holds neither a null key nor a null value. */
  ghost predicate NullFree<K, V>(m: map<Option<K>, Option<V>>) {
    None !in m && forall k | k in m :: m[k].Some?
  }

  /** In a null-free map, a null lookup result means exactly that the key is
      absent, which is what the factories rely on to throw on unmapped keys. */
  lemma NullFreeLookup<K, V>(m: map<Option<K>, Option<V>>, key: Option<K>)
    requires NullFree(m)
    ensures Lookup(m, key).Some? <==> key in m
    ensures Lookup(m, None).None?
  {
  }
}
