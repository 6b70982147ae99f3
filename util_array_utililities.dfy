/** com.sol.util.ArrayUtililities (the live part of the file): the two public
    `getArrayInstance` methods check their arguments and hand over to the
    private `createArrayInstance`, whose Java `assert`s become its `requires`
    and are therefore proved at both call sites. */
module UtilArrayUtililities {
  import opened JavaLang
  import opened ArraySpecs

  /** `getArrayInstance(array)`: null throws NullPointerException; otherwise
      an all-null array of the same length and component type. */
  method GetArrayInstance<E>(arr: array?<Option<E>>) returns (r: Outcome<array<Option<E>>>)
    ensures arr == null ==> r == Threw(NullPointer)
    ensures arr != null ==>
      r.Ok? && fresh(r.value) && r.value.Length == arr.Length && AllNull(r.value)
  {
    if arr == null {
      return Threw(NullPointer);
    }
    var newArray := CreateArrayInstance(arr, arr.Length);
    return Ok(newArray);
  }

  /** `getArrayInstance(array, length)`: a negative length throws
      NegativeArraySizeException whatever the array, null included; a null
      array with a length of zero or more throws NullPointerException; the
      result has the requested length, independent of the array's own. */
  method GetArrayInstanceWithLength<E>(arr: array?<Option<E>>, length: int)
    returns (r: Outcome<array<Option<E>>>)
    ensures length < 0 ==> r == Threw(NegativeArraySize)
    ensures length >= 0 && arr == null ==> r == Threw(NullPointer)
    ensures length >= 0 && arr != null ==>
      r.Ok? && fresh(r.value) && r.value.Length == length && AllNull(r.value)
  {
    if length < 0 {
      return Threw(NegativeArraySize);
    }
    if arr == null {
      return Threw(NullPointer);
    }
    var newArray := CreateArrayInstance(arr, length);
    return Ok(newArray);
  }

  /** `createArrayInstance(array, length)`: only reached with a non-null
      array (the type says so) and a length that is not negative. */
  method CreateArrayInstance<E>(arr: array<Option<E>>, length: int) returns (newArray: array<Option<E>>)
    requires length >= 0
    ensures fresh(newArray) && newArray.Length == length && AllNull(newArray)
  {
    newArray := NewNullArray<E>(length);
  }
}
