/** com.sol.factory.GenericFactory: a registry from keys to functions,
    backed by a HashMap field. A Java HashMap admits null keys and null
    values, so the map here does too; `Valid` is the invariant that the null
    checks of `put` keep: neither ever gets in. */
module SolGenericFactory {
  import opened JavaLang

  class GenericFactory<K(==), T, R> {
    var factory: map<Option<K>, Option<T -> R>>

    ghost predicate Valid()
      reads this
    {
      NullFree(factory)
    }

    constructor ()
      ensures Valid() && factory == map[]
    {
      factory := map[];
    }

    /** `put(key, function)`: the function is checked for null before the
        key; on success the previous mapping comes back as an Optional and
        only `key`'s entry changes. */
    method Put(key: Option<K>, func: Option<T -> R>) returns (r: Outcome<Option<T -> R>>)
      requires Valid()
      modifies this
      ensures Valid()
      ensures func.None? ==> r == Threw(NullPointer) && factory == old(factory)
      ensures func.Some? && key.None? ==> r == Threw(NullPointer) && factory == old(factory)
      ensures func.Some? && key.Some? ==>
        r == Ok(Lookup(old(factory), key)) && factory == old(factory)[key := func]
      ensures forall k | k != key :: Lookup(factory, k) == Lookup(old(factory), k)
    {
      if func.None? || key.None? {
        return Threw(NullPointer);
      }
      var previous := Lookup(factory, key);
      factory := factory[key := func];
      return Ok(previous);
    }

    /** `remove(key)`: a null key throws; otherwise the previous mapping
        comes back as an Optional and `key` is no longer mapped. */
    method Remove(key: Option<K>) returns (r: Outcome<Option<T -> R>>)
      requires Valid()
      modifies this
      ensures Valid()
      ensures key.None? ==> r == Threw(NullPointer) && factory == old(factory)
      ensures key.Some? ==> r == Ok(Lookup(old(factory), key)) && factory == old(factory) - {key}
      ensures forall k | k != key :: Lookup(factory, k) == Lookup(old(factory), k)
    {
      if key.None? {
        return Threw(NullPointer);
      }
      var previous := Lookup(factory, key);
      factory := factory - {key};
      return Ok(previous);
    }

    /** `newInstance(key, input)`: applies the stored function; a null or
        unmapped key throws NullPointerException (the latter when `apply` is
        called on the null that `HashMap.get` returns). */
    method NewInstance(key: Option<K>, input: T) returns (r: Outcome<R>)
      requires Valid()
      ensures key.None? ==> r == Threw(NullPointer)
      ensures key !in factory ==> r == Threw(NullPointer)
      ensures key in factory ==> r == Ok(factory[key].value(input))
    {
      NullFreeLookup(factory, key);
      if key.None? {
        return Threw(NullPointer);
      }
      var g := Lookup(factory, key);
      if g.None? {
        return Threw(NullPointer);
      }
      return Ok(g.value(input));
    }
  }
}
