/** Specification functions shared by the array helpers: what a two-slot swap
    does to the contents of an array, and what boxing and unboxing copies hold.
    The imperative helpers are proved against these. */
module ArraySpecs {
  import opened JavaLang

  /** Every slot of a reference array holds null, as in a freshly allocated
      `E[]`. */
  ghost predicate AllNull<E>(a: array<Option<E>>)
    reads a
  {
    forall i | 0 <= i < a.Length :: a[i].None?
  }

  /** `Array.newInstance(componentType, length)` for a reference component
      type: a new array of `length` null slots. The component type is the
      Dafny type parameter, so the copy has the component type of the array
      it was made from. */
  method NewNullArray<E>(length: nat) returns (a: array<Option<E>>)
    ensures fresh(a) && a.Length == length && AllNull(a)
  {
    a := new Option<E>[length](_ => None);
  }

  /** The contents after exchanging slots `i` and `j`. */
  function Swapped<E>(s: seq<E>, i: int, j: int): (r: seq<E>)
    requires 0 <= i < |s| && 0 <= j < |s|
    ensures |r| == |s|
    ensures r[i] == s[j] && r[j] == s[i]
    ensures forall k | 0 <= k < |s| && k != i && k != j :: r[k] == s[k]
  {
    s[i := s[j]][j := s[i]]
  }

  /** Swapping a slot with itself changes nothing. */
  lemma SwappedSameIndex<E>(s: seq<E>, i: int)
    requires 0 <= i < |s|
    ensures Swapped(s, i, i) == s
  {
  }

  /** A second swap of the same pair restores the original contents. */
  lemma SwappedTwice<E>(s: seq<E>, i: int, j: int)
    requires 0 <= i < |s| && 0 <= j < |s|
    ensures Swapped(Swapped(s, i, j), i, j) == s
  {
  }

  /** The order of the two indexes does not matter. */
  lemma SwappedSymmetric<E>(s: seq<E>, i: int, j: int)
    requires 0 <= i < |s| && 0 <= j < |s|
    ensures Swapped(s, i, j) == Swapped(s, j, i)
  {
  }

  /** A swap only rearranges: the result is a permutation of the input. */
  lemma SwappedPermutes<E>(s: seq<E>, i: int, j: int)
    requires 0 <= i < |s| && 0 <= j < |s|
    ensures multiset(Swapped(s, i, j)) == multiset(s)
  {
    if i != j {
      var t := s[i := s[j]];
      assert multiset(t) == multiset(s) - multiset{s[i]} + multiset{s[j]};
      assert multiset(t[j := s[i]]) == multiset(t) - multiset{t[j]} + multiset{s[i]};
    }
  }

  /** Wrapping every primitive in its box (`Integer.valueOf` and friends):
      the boxed copy never holds null. */
  function Boxed<T>(s: seq<T>): seq<Option<T>> {
    if s == [] then [] else [Some(s[0])] + Boxed(s[1..])
  }

  /** Unboxing every element (`intValue()` and friends): fails, as the Java
      code does with a NullPointerException, when some element is null. */
  function Unboxed<T>(s: seq<Option<T>>): Option<seq<T>> {
    if s == [] then Some([])
    else match (s[0], Unboxed(s[1..]))
      case (Some(x), Some(rest)) => Some([x] + rest)
      case _ => None
  }

  /** The boxed copy has the same length and holds each element, in order. */
  lemma {:induction false} BoxedAt<T>(s: seq<T>)
    ensures |Boxed(s)| == |s|
    ensures forall i | 0 <= i < |s| :: Boxed(s)[i] == Some(s[i])
  {
    if s != [] {
      BoxedAt(s[1..]);
      assert forall i | 1 <= i < |s| :: Boxed(s)[i] == Boxed(s[1..])[i - 1];
    }
  }

  /** Unboxing succeeds exactly when no element is null, and then yields the
      same number of elements with the same values in the same order. */
  lemma {:induction false} UnboxedAt<T>(s: seq<Option<T>>)
    ensures Unboxed(s).Some? <==> forall i | 0 <= i < |s| :: s[i].Some?
    ensures Unboxed(s).Some? ==>
      |Unboxed(s).value| == |s| && forall i | 0 <= i < |s| :: s[i] == Some(Unboxed(s).value[i])
  {
    if s != [] {
      UnboxedAt(s[1..]);
      assert forall i | 1 <= i < |s| :: s[i] == s[1..][i - 1];
      if s[0].Some? && Unboxed(s[1..]).Some? {
        var v := Unboxed(s).value;
        assert v == [s[0].value] + Unboxed(s[1..]).value;
        assert forall i | 1 <= i < |s| :: v[i] == Unboxed(s[1..]).value[i - 1];
      }
    }
  }

  /** Unboxing a boxed copy gives back the original elements. */
  lemma {:induction false} UnboxedBoxed<T>(s: seq<T>)
    ensures Unboxed(Boxed(s)) == Some(s)
  {
    if s != [] {
      UnboxedBoxed(s[1..]);
      assert Boxed(s)[1..] == Boxed(s[1..]);
      assert [s[0]] + s[1..] == s;
    }
  }

  /** Boxing the result of a successful unboxing gives back the original
      (null-free) boxed sequence. */
  lemma {:induction false} BoxedUnboxed<T>(s: seq<Option<T>>)
    requires Unboxed(s).Some?
    ensures Boxed(Unboxed(s).value) == s
  {
    if s != [] {
      BoxedUnboxed(s[1..]);
      var v := Unboxed(s).value;
      assert v == [s[0].value] + Unboxed(s[1..]).value;
      assert v[1..] == Unboxed(s[1..]).value;
      assert [s[0]] + s[1..] == s;
    }
  }
}
