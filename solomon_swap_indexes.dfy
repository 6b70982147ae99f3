/** com.solomon.arrays.SwapIndexes: an in-place exchange of two slots of a reference array. */
module SolomonArraysSwapIndexes {
  import opened JavaLang
  import opened ArraySpecs

  /** `swap(array, first, second)`: the two slots trade contents and every
      other slot keeps its own; a bad index throws before any write. */
  method Swap<E>(arr: array?<Option<E>>, first: int, second: int) returns (r: Outcome<()>)
    modifies arr
    ensures arr == null ==> r == Threw(NullPointer)
    ensures arr != null ==>
      r == (if 0 <= first < arr.Length && 0 <= second < arr.Length then Ok(())
            else Threw(ArrayIndexOutOfBounds))
    ensures arr != null ==>
      arr[..] == if r.Ok? then Swapped(old(arr[..]), first, second) else old(arr[..])
  {
    if arr == null {
      return Threw(NullPointer);
    }
    if !(0 <= first < arr.Length) {
      return Threw(ArrayIndexOutOfBounds);
    }
    var tmp := arr[first];
    if !(0 <= second < arr.Length) {
      return Threw(ArrayIndexOutOfBounds);
    }
    arr[first] := arr[second];
    arr[second] := tmp;
    return Ok(());
  }
}
