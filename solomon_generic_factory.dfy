/** com.solomon.factory.GenericFactory: the older registry from keys to
    functions. It returns the previous mapping as a plain (nullable) reference
    rather than an Optional, and `remove` does not check its key for null. */
module SolomonGenericFactory {
  import opened JavaLang

  class GenericFactory<K(==), T, R> {
    var factory: map<Option<K>, Option<T -> R>>

    ghost predicate Valid()
      reads this
    {
      NullFree(factory)
    }

    constructor ()
      ensures Valid() && factory == map[]
    {
      factory := map[];
    }

    /** `put(key, function)`: the function is checked for null, then the
        key; on success the previous function (null if none) is returned and
        only `key`'s entry changes. */
    method Put(key: Option<K>, func: Option<T -> R>) returns (r: Outcome<Option<T -> R>>)
      requires Valid()
      modifies this
      ensures Valid()
      ensures func.None? ==> r == Threw(NullPointer) && factory == old(factory)
      ensures func.Some? && key.None? ==> r == Threw(NullPointer) && factory == old(factory)
      ensures func.Some? && key.Some? ==>
        r == Ok(Lookup(old(factory), key)) && factory == old(factory)[key := func]
      ensures forall k | k != key :: Lookup(factory, k) == Lookup(old(factory), k)
    {
      if func.None? {
        return Threw(NullPointer);
      }
      if key.None? {
        return Threw(NullPointer);
      }
      var previous := Lookup(factory, key);
      factory := factory[key := func];
      return Ok(previous);
    }

    /** `remove(key)`: never throws; returns the previous function (null if
        none) and leaves `key` unmapped. A null key finds nothing, because
        `Valid` keeps null keys out, so `remove(null)` returns null and changes
        nothing. */
    method Remove(key: Option<K>) returns (r: Option<T -> R>)
      requires Valid()
      modifies this
      ensures Valid()
      ensures r == Lookup(old(factory), key) && factory == old(factory) - {key}
      ensures key.None? ==> r.None? && factory == old(factory)
      ensures forall k | k != key :: Lookup(factory, k) == Lookup(old(factory), k)
    {
      r := Lookup(factory, key);
      factory := factory - {key};
    }

    /** `newInstance(key, input)`: applies the stored function; a null or
        unmapped key throws NullPointerException. */
    method NewInstance(key: Option<K>, input: T) returns (r: Outcome<R>)
      requires Valid()
      ensures key.None? ==> r == Threw(NullPointer)
      ensures key !in factory ==> r == Threw(NullPointer)
      ensures key in factory ==> r == Ok(factory[key].value(input))
    {
      NullFreeLookup(factory, key);
      if key.None? {
        return Threw(NullPointer);
      }
      var f := Lookup(factory, key);
      if f.None? {
        return Threw(NullPointer);
      }
      return Ok(f.value(input));
    }
  }
}
