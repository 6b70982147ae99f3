/** com.sol.arrays.GenericArrayInstance: allocation like a given array. */
module ArraysGenericArrayInstance {
  import opened JavaLang
  import opened ArraySpecs

  /** `getArrayInstance(array)`: a new all-null array as long as `array`; a
      null array fails at `array.getClass()`. */
  method GetArrayInstance<E>(arr: array?<Option<E>>) returns (r: Outcome<array<Option<E>>>)
    ensures arr == null ==> r == Threw(NullPointer)
    ensures arr != null ==>
      r.Ok? && fresh(r.value) && r.value.Length == arr.Length && AllNull(r.value)
  {
    if arr == null {
      return Threw(NullPointer);
    }
    var newArray := NewNullArray<E>(arr.Length);
    return Ok(newArray);
  }

  /** `getArrayInstance(array, length)`: the length is checked first, so a
      null array with a negative length gives IllegalArgumentException, and
      only a null array with an acceptable length gives NullPointerException. */
  method GetArrayInstanceWithLength<E>(arr: array?<Option<E>>, length: int)
    returns (r: Outcome<array<Option<E>>>)
    ensures length < 0 ==> r == Threw(IllegalArgument)
    ensures length >= 0 && arr == null ==> r == Threw(NullPointer)
    ensures length >= 0 && arr != null ==>
      r.Ok? && fresh(r.value) && r.value.Length == length && AllNull(r.value)
  {
    if length < 0 {
      return Threw(IllegalArgument);
    }
    if arr == null {
      return Threw(NullPointer);
    }
    var newArray := NewNullArray<E>(length);
    return Ok(newArray);
  }
}
