/** com.sol.util.ArrayHandler: index validation, an in-place swap and
    "new array like this one" allocation for reference arrays `E[]`. A Java
    `E[]` that may itself be null is an `array?<Option<E>>`. */
module UtilArrayHandler {
  import opened JavaLang
  import opened ArraySpecs

  /** `getArrayInstance(array)`: a new all-null array as long as `array`. */
  method GetArrayInstance<E>(arr: array?<Option<E>>) returns (r: Outcome<array<Option<E>>>)
    ensures arr == null ==> r == Threw(NullPointer)
    ensures arr != null ==>
      r.Ok? && fresh(r.value) && r.value.Length == arr.Length && AllNull(r.value)
  {
    if arr == null {
      return Threw(NullPointer);
    }
    var newArray := NewNullArray<E>(arr.Length);
    return Ok(newArray);
  }

  /** `getArrayInstance(array, length)`: the length is checked before the
      array, so a negative length wins over a null array. */
  method GetArrayInstanceWithLength<E>(arr: array?<Option<E>>, length: int)
    returns (r: Outcome<array<Option<E>>>)
    ensures length < 0 ==> r == Threw(NegativeArraySize)
    ensures length >= 0 && arr == null ==> r == Threw(NullPointer)
    ensures length >= 0 && arr != null ==>
      r.Ok? && fresh(r.value) && r.value.Length == length && AllNull(r.value)
  {
    if length < 0 {
      return Threw(NegativeArraySize);
    }
    if arr == null {
      return Threw(NullPointer);
    }
    var newArray := NewNullArray<E>(length);
    return Ok(newArray);
  }

  /** `swap(array, first, second)`: both slots are read before either is
      written, so a bad index throws with the array untouched. */
  method Swap<E>(arr: array?<Option<E>>, first: int, second: int) returns (r: Outcome<()>)
    modifies arr
    ensures arr == null ==> r == Threw(NullPointer)
    ensures arr != null ==>
      r == (if 0 <= first < arr.Length && 0 <= second < arr.Length then Ok(())
            else Threw(ArrayIndexOutOfBounds))
    ensures arr != null ==>
      arr[..] == if r.Ok? then Swapped(old(arr[..]), first, second) else old(arr[..])
  {
    if arr == null {
      return Threw(NullPointer);
    }
    if !(0 <= first < arr.Length) {
      return Threw(ArrayIndexOutOfBounds);
    }
    var tmp := arr[first];
    if !(0 <= second < arr.Length) {
      return Threw(ArrayIndexOutOfBounds);
    }
    arr[first] := arr[second];
    arr[second] := tmp;
    return Ok(());
  }

  /** `isIndexValid(array, index)`. The Java code joins the two comparisons
      with the non-short-circuit `&`, so a null array throws whatever the
      index. */
  function IsIndexValid<E>(arr: array?<Option<E>>, index: int): (r: Outcome<bool>)
    ensures r.Threw? <==> arr == null
    ensures r.Threw? ==> r.exc == NullPointer
    ensures r.Ok? ==> (r.value <==> 0 <= index < arr.Length)
  {
    if arr == null then Threw(NullPointer)
    else Ok(0 <= index && index < arr.Length)
  }

  /** `requireValidIndex(array, index)`: throws IndexOutOfBoundsException
      exactly when `isIndexValid` answers false, and otherwise does nothing. */
  method RequireValidIndex<E>(arr: array?<Option<E>>, index: int) returns (r: Outcome<()>)
    ensures arr == null ==> r == Threw(NullPointer)
    ensures r.Ok? <==> IsIndexValid(arr, index) == Ok(true)
    ensures IsIndexValid(arr, index) == Ok(false) ==> r == Threw(IndexOutOfBounds(None))
  {
    var valid := IsIndexValid(arr, index);
    if valid.Threw? {
      return Threw(valid.exc);
    }
    if !valid.value {
      return Threw(IndexOutOfBounds(None));
    }
    return Ok(());
  }

  /** `requireValidIndex(array, index, message)`: as above, with the given
      detail message (a Java String, so possibly null). */
  method RequireValidIndexWithMessage<E>(arr: array?<Option<E>>, index: int, message: Option<string>)
    returns (r: Outcome<()>)
    ensures arr == null ==> r == Threw(NullPointer)
    ensures r.Ok? <==> IsIndexValid(arr, index) == Ok(true)
    ensures IsIndexValid(arr, index) == Ok(false) ==> r == Threw(IndexOutOfBounds(message))
  {
    var valid := IsIndexValid(arr, index);
    if valid.Threw? {
      return Threw(valid.exc);
    }
    if !valid.value {
      return Threw(IndexOutOfBounds(message));
    }
    return Ok(());
  }

  /** `requireValidIndex(array, index, messageSupplier)`: the supplier is
      consulted only on the failure path, so a null supplier makes an invalid
      index throw NullPointerException instead, and a valid index never
      touches it. */
  method RequireValidIndexWithSupplier<E>(arr: array?<Option<E>>, index: int,
                                          messageSupplier: Option<() -> Option<string>>)
    returns (r: Outcome<()>)
    ensures arr == null ==> r == Threw(NullPointer)
    ensures r.Ok? <==> IsIndexValid(arr, index) == Ok(true)
    ensures IsIndexValid(arr, index) == Ok(false) ==>
      r == if messageSupplier.None? then Threw(NullPointer)
           else Threw(IndexOutOfBounds(messageSupplier.value()))
  {
    var valid := IsIndexValid(arr, index);
    if valid.Threw? {
      return Threw(valid.exc);
    }
    if !valid.value {
      if messageSupplier.None? {
        return Threw(NullPointer);
      }
      return Threw(IndexOutOfBounds(messageSupplier.value()));
    }
    return Ok(());
  }
}
