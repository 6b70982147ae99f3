/** com.sol.util.ArrayUtils: allocation of a reference array like a given
    one, the swap overloads, and the element-wise boxing (`toPrimitiveWrapper`)
    and unboxing (`toPrimitiveArray`) copies. The overloads of the Java class
    differ only in their element type, so each is one generic method here.
    In `ToPrimitiveArray` and `ToPrimitiveWrapper`, `T` stands for boolean,
    byte, short, char, int, long, float or double, and `Option<T>` for the
    matching wrapper class, whose null is `None`. */
module UtilArrayUtils {
  import opened JavaLang
  import opened ArraySpecs

  /** `getArrayInstance(array)`: a new all-null array as long as `array`. */
  method GetArrayInstance<E>(arr: array?<Option<E>>) returns (r: Outcome<array<Option<E>>>)
    ensures arr == null ==> r == Threw(NullPointer)
    ensures arr != null ==>
      r.Ok? && fresh(r.value) && r.value.Length == arr.Length && AllNull(r.value)
  {
    if arr == null {
      return Threw(NullPointer);
    }
    var newArray := NewNullArray<E>(arr.Length);
    return Ok(newArray);
  }

  /** `getArrayInstance(array, length)`: a negative length is rejected before
      the array is looked at. */
  method GetArrayInstanceWithLength<E>(arr: array?<Option<E>>, length: int)
    returns (r: Outcome<array<Option<E>>>)
    ensures length < 0 ==> r == Threw(NegativeArraySize)
    ensures length >= 0 && arr == null ==> r == Threw(NullPointer)
    ensures length >= 0 && arr != null ==>
      r.Ok? && fresh(r.value) && r.value.Length == length && AllNull(r.value)
  {
    if length < 0 {
      return Threw(NegativeArraySize);
    }
    if arr == null {
      return Threw(NullPointer);
    }
    var newArray := NewNullArray<E>(length);
    return Ok(newArray);
  }

  /** The eight `swap` overloads: `T` stands for boolean, byte, short, char,
      int, float or double, or for a reference type (the `Object[]`
      overload). The class has no `long[]` overload; the generic method would
      also swap a `long[]`. */
  method Swap<T>(arr: array?<T>, first: int, second: int) returns (r: Outcome<()>)
    modifies arr
    ensures arr == null ==> r == Threw(NullPointer)
    ensures arr != null ==>
      r == (if 0 <= first < arr.Length && 0 <= second < arr.Length then Ok(())
            else Threw(ArrayIndexOutOfBounds))
    ensures arr != null ==>
      arr[..] == if r.Ok? then Swapped(old(arr[..]), first, second) else old(arr[..])
  {
    if arr == null {
      return Threw(NullPointer);
    }
    if !(0 <= first < arr.Length) {
      return Threw(ArrayIndexOutOfBounds);
    }
    var tmp := arr[first];
    if !(0 <= second < arr.Length) {
      return Threw(ArrayIndexOutOfBounds);
    }
    arr[first] := arr[second];
    arr[second] := tmp;
    return Ok(());
  }

  /** The eight `toPrimitiveArray` overloads: a new primitive array holding
      the unboxed elements in order. A null array, or a null element anywhere,
      throws NullPointerException. The Java code fills the slots from a
      parallel stream; each index is written once, so a sequential fill has
      the same result. */
  method ToPrimitiveArray<T(0)>(arr: array?<Option<T>>) returns (r: Outcome<array<T>>)
    ensures arr == null ==> r == Threw(NullPointer)
    ensures arr != null && (exists i | 0 <= i < arr.Length :: arr[i].None?) ==>
      r == Threw(NullPointer)
    ensures arr != null && (forall i | 0 <= i < arr.Length :: arr[i].Some?) ==>
      r.Ok? && fresh(r.value) && r.value.Length == arr.Length
      && (forall i | 0 <= i < arr.Length :: arr[i] == Some(r.value[i]))
    ensures r.Ok? ==> arr != null && Unboxed(arr[..]) == Some(r.value[..])
  {
    if arr == null {
      return Threw(NullPointer);
    }
    var newArray := new T[arr.Length];
    var i := 0;
    while i < arr.Length
      invariant 0 <= i <= arr.Length
      invariant forall j | 0 <= j < i :: arr[j] == Some(newArray[j])
    {
      if arr[i].None? {
        return Threw(NullPointer);
      }
      newArray[i] := arr[i].value;
      i := i + 1;
    }
    UnboxedAt(arr[..]);
    assert Unboxed(arr[..]).value == newArray[..];
    return Ok(newArray);
  }

  /** The eight `toPrimitiveWrapper` overloads: a new wrapper array holding
      the boxed elements in order; a null array throws NullPointerException. */
  method ToPrimitiveWrapper<T>(arr: array?<T>) returns (r: Outcome<array<Option<T>>>)
    ensures arr == null ==> r == Threw(NullPointer)
    ensures arr != null ==>
      r.Ok? && fresh(r.value) && r.value.Length == arr.Length
      && (forall i | 0 <= i < arr.Length :: r.value[i] == Some(arr[i]))
    ensures r.Ok? ==> arr != null && r.value[..] == Boxed(arr[..])
  {
    if arr == null {
      return Threw(NullPointer);
    }
    var newArray := new Option<T>[arr.Length](_ => None);
    var i := 0;
    while i < arr.Length
      invariant 0 <= i <= arr.Length
      invariant forall j | 0 <= j < i :: newArray[j] == Some(arr[j])
    {
      newArray[i] := Some(arr[i]);
      i := i + 1;
    }
    BoxedAt(arr[..]);
    assert Boxed(arr[..]) == newArray[..];
    return Ok(newArray);
  }
}
