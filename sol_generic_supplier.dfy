/** com.sol.factory.GenericSupplier: a registry from keys to suppliers,
    backed by a HashMap field; `Valid` says no null key or supplier is ever
    stored. */
module SolGenericSupplier {
  import opened JavaLang

  class GenericSupplier<K(==), T> {
    var supplier: map<Option<K>, Option<() -> T>>

    ghost predicate Valid()
      reads this
    {
      NullFree(supplier)
    }

    constructor ()
      ensures Valid() && supplier == map[]
    {
      supplier := map[];
    }

    /** `put(key, supplier)`: unlike GenericFactory, the key is checked
        before the supplier; either null throws with the map unchanged. */
    method Put(key: Option<K>, s: Option<() -> T>) returns (r: Outcome<Option<() -> T>>)
      requires Valid()
      modifies this
      ensures Valid()
      ensures (key.None? || s.None?) ==> r == Threw(NullPointer) && supplier == old(supplier)
      ensures key.Some? && s.Some? ==>
        r == Ok(Lookup(old(supplier), key)) && supplier == old(supplier)[key := s]
      ensures forall k | k != key :: Lookup(supplier, k) == Lookup(old(supplier), k)
    {
      if key.None? {
        return Threw(NullPointer);
      }
      if s.None? {
        return Threw(NullPointer);
      }
      var previous := Lookup(supplier, key);
      supplier := supplier[key := s];
      return Ok(previous);
    }

    /** `remove(key)`: a null key throws; otherwise the previous supplier
        comes back as an Optional and `key` is no longer mapped. */
    method Remove(key: Option<K>) returns (r: Outcome<Option<() -> T>>)
      requires Valid()
      modifies this
      ensures Valid()
      ensures key.None? ==> r == Threw(NullPointer) && supplier == old(supplier)
      ensures key.Some? ==> r == Ok(Lookup(old(supplier), key)) && supplier == old(supplier) - {key}
      ensures forall k | k != key :: Lookup(supplier, k) == Lookup(old(supplier), k)
    {
      if key.None? {
        return Threw(NullPointer);
      }
      var previous := Lookup(supplier, key);
      supplier := supplier - {key};
      return Ok(previous);
    }

    /** `newInstance(key)`: the stored supplier's result; a null or unmapped
        key throws NullPointerException. */
    method NewInstance(key: Option<K>) returns (r: Outcome<T>)
      requires Valid()
      ensures key.None? ==> r == Threw(NullPointer)
      ensures key !in supplier ==> r == Threw(NullPointer)
      ensures key in supplier ==> r == Ok(supplier[key].value())
    {
      NullFreeLookup(supplier, key);
      if key.None? {
        return Threw(NullPointer);
      }
      var s := Lookup(supplier, key);
      if s.None? {
        return Threw(NullPointer);
      }
      return Ok(s.value());
    }
  }
}
