/** com.sol.arrays.ArrayHandler: allocation like a given array, and a swap.
    Unlike the com.sol.util versions, a negative length is reported as
    IllegalArgumentException, and a null array only fails when the Java code
    dereferences it. */
module ArraysArrayHandler {
  import opened JavaLang
  import opened ArraySpecs

  /** `getArrayInstance(array)`: a new all-null array as long as `array`; a
      null array fails at `array.getClass()`. */
  method GetArrayInstance<E>(arr: array?<Option<E>>) returns (r: Outcome<array<Option<E>>>)
    ensures arr == null ==> r == Threw(NullPointer)
    ensures arr != null ==>
      r.Ok? && fresh(r.value) && r.value.Length == arr.Length && AllNull(r.value)
  {
    if arr == null {
      return Threw(NullPointer);
    }
    var newArray := NewNullArray<E>(arr.Length);
    return Ok(newArray);
  }

  /** `getArrayInstance(array, length)`: a negative length throws
      IllegalArgumentException before the array is touched. */
  method GetArrayInstanceWithLength<E>(arr: array?<Option<E>>, length: int)
    returns (r: Outcome<array<Option<E>>>)
    ensures length < 0 ==> r == Threw(IllegalArgument)
    ensures length >= 0 && arr == null ==> r == Threw(NullPointer)
    ensures length >= 0 && arr != null ==>
      r.Ok? && fresh(r.value) && r.value.Length == length && AllNull(r.value)
  {
    if length < 0 {
      return Threw(IllegalArgument);
    }
    if arr == null {
      return Threw(NullPointer);
    }
    var newArray := NewNullArray<E>(length);
    return Ok(newArray);
  }

  /** `swap(array, first, second)`: an index out of range throws before any
      write. */
  method Swap<E>(arr: array?<Option<E>>, first: int, second: int) returns (r: Outcome<()>)
    modifies arr
    ensures arr == null ==> r == Threw(NullPointer)
    ensures arr != null ==>
      r == (if 0 <= first < arr.Length && 0 <= second < arr.Length then Ok(())
            else Threw(ArrayIndexOutOfBounds))
    ensures arr != null ==>
      arr[..] == if r.Ok? then Swapped(old(arr[..]), first, second) else old(arr[..])
  {
    if arr == null {
      return Threw(NullPointer);
    }
    if !(0 <= first < arr.Length) {
      return Threw(ArrayIndexOutOfBounds);
    }
    var tmp := arr[first];
    if !(0 <= second < arr.Length) {
      return Threw(ArrayIndexOutOfBounds);
    }
    arr[first] := arr[second];
    arr[second] := tmp;
    return Ok(());
  }
}
