# Java array utilities, modelled in Dafny

This project models the array-utility layer of the `JavaUtils` library, together with its keyed factory registries, and proves properties of that model:

- **`com.sol.reflect.ArrayHandler`** is a replacement for `java.lang.reflect.Array`. It takes an untyped `Object` and tests its runtime array type in a chain of `instanceof` branches.
  - `get` and `getLength`.
  - One getter per primitive kind, accepting narrower source arrays.
  - One setter per primitive kind, storing into wider target arrays.
  - A generic `set` that dispatches on the class of the boxed value.
  - Two validated `newInstance` allocations.
  - The `requireValidArray` guard.
- **`com.sol.util.ArrayHandler`**, **`ArrayUtils`** and **`ArrayUtililities`**, and **`com.sol.arrays`** / **`com.solomon.arrays`** hold the smaller helpers:
  - index validation;
  - in-place two-slot swaps;
  - "new array like this one" allocation;
  - element-wise boxing (`toPrimitiveWrapper`) and unboxing (`toPrimitiveArray`) copies.
- **`com.sol.factory.GenericFactory`**, **`GenericSupplier`** and **`com.solomon.factory.GenericFactory`** are registries from keys to functions (or suppliers), held in a `HashMap` field.

## How Java is represented

- A Java reference that may be null is an `Option` (`None` is null). A Java array that may be null is an `array?`. A reference array `E[]` is an `array?<Option<E>>`.
- A call that may throw returns an `Outcome`: `Ok(value)` or `Threw(exception)`.
- Primitive integers are unbounded Dafny integers. Their Java ranges (`IsByte` … `IsLong`) are preconditions of the setters and postconditions of the getters.
- In `ReflectArrayHandler` the untyped argument is a `Handle`: null, a non-array object, or an array of one of nine kinds (`Object` stands for every reference array). Floating-point values are abstract (`Fp`). The model only records that an integer was converted to the nearest float or double.
- Identity conversion plus widening primitive conversion (sections 5.1.1 and 5.1.2 of the Java Language Specification) is the reference relation `JlsWidens`. The getter and setter tables of `ArrayHandler` are compared against it.
- Methods that update state in place are Dafny methods over `array`s (the swaps, the setters, the copy loops) or over a class field of type `map` (the registries). Each is proved against specification functions such as `Swapped`, `Boxed`, `Unboxed`, `SetterOutcome` and `AfterSetter`.
- A handle's kind is fixed for its array, as a Java array has exactly one runtime type. The model assumes one handle per array: two handles that share one `array<Value>` under different kinds would let a store through one break `WellTyped` of the other, which no Java program can do.
- Overloads that differ only in their element type become one generic method. This covers the eight `swap`, the eight `toPrimitiveArray` and the eight `toPrimitiveWrapper` overloads of `ArrayUtils`.

### Defects of the reflection handler, modelled as written

These methods behave as the code is written, not as a reader of their names would expect. Lemmas state each behaviour:

- `setBoolean` and `setDouble` store into their own array kind and then throw `IllegalArgumentException` unconditionally. `setFloat` therefore returns normally only on a `float[]`. See `StoreThenThrowSetters` and `SetterWritesOnlyOnSuccess`.
- `getChar` tests for `byte[]` and then casts to `char[]`. It never returns normally, and a `char[]` is rejected. See `GetChar`.
- `get` and `getLength` have no `short[]` branch, so a short array is rejected. See `ShortArrayRejected`.
- `set` casts a `Boolean` value to `int` before calling `setBoolean`. That cast throws `ClassCastException`, so nothing is stored. See `SetRejectsBooleanAndWrappers`.
- On an `Object[]`, `set` asks whether the array is an instance of the value's class, which is the reverse of the usual test. A wrapper value therefore never gets in.
- The getters convert their result: `getInt` reads a `char[]`, and `getDouble` reads a `long[]`. Their tables differ from JLS widening in exactly four pairs: char to long, char to float, long to float and char to double. See `GetterSourcesVsJls`. The setter tables coincide with JLS widening (`SetterTargetsAreJlsWidening`).

`getChar` is named for `char[]` but tests `byte[]`, and the getters' names suggest plain reads where the code converts. The model follows the code in both places.

## Model

| member | source | states |
|---|---|---|
| JavaLang.NullFreeLookup | JavaUtils/src/main/java/com/sol/factory/GenericFactory.java:80-82 | in a map without null keys or values, `HashMap.get` returns null exactly for an absent key, and always for the null key |
| ArraySpecs.NewNullArray | JavaUtils/src/main/java/com/sol/util/ArrayHandler.java:44-51 | `Array.newInstance` of a reference component type gives a fresh array of the requested length, every slot null |
| ArraySpecs.Swapped | JavaUtils/src/main/java/com/sol/util/ArrayHandler.java:82-86 | after a swap the two slots hold each other's old values, every other slot is unchanged, and the length is kept |
| ArraySpecs.SwappedSameIndex | JavaUtils/src/main/java/com/sol/arrays/SwapIndexes.java:17-21 | swapping a slot with itself leaves the array unchanged |
| ArraySpecs.SwappedTwice | JavaUtils/src/main/java/com/solomon/arrays/SwapIndexes.java:16-20 | swapping the same pair twice restores the original array |
| ArraySpecs.SwappedSymmetric | JavaUtils/src/main/java/com/sol/util/ArrayHandler.java:82-86 | the order of the two indexes does not matter |
| ArraySpecs.SwappedPermutes | JavaUtils/src/main/java/com/sol/util/ArrayUtils.java:82-170 | a swap is a permutation: the multiset of elements is unchanged |
| ArraySpecs.BoxedAt | JavaUtils/src/main/java/com/sol/util/ArrayUtils.java:337-471 | the boxed copy has the same length and holds a non-null box of each element, in order |
| ArraySpecs.UnboxedAt | JavaUtils/src/main/java/com/sol/util/ArrayUtils.java:181-327 | unboxing succeeds if and only if no element is null, and then gives the same elements in the same order |
| ArraySpecs.UnboxedBoxed | JavaUtils/src/main/java/com/sol/util/ArrayUtils.java:181-471 | unboxing a boxed copy gives back the original primitives |
| ArraySpecs.BoxedUnboxed | JavaUtils/src/main/java/com/sol/util/ArrayUtils.java:181-471 | boxing a successful unboxing gives back the original wrapper array |
| UtilArrayHandler.GetArrayInstance | JavaUtils/src/main/java/com/sol/util/ArrayHandler.java:44-51 | null gives NullPointerException; otherwise a fresh all-null array as long as the argument |
| UtilArrayHandler.GetArrayInstanceWithLength | JavaUtils/src/main/java/com/sol/util/ArrayHandler.java:62-74 | a negative length gives NegativeArraySizeException even for a null array; then null gives NullPointerException; otherwise a fresh all-null array of exactly `length` slots |
| UtilArrayHandler.Swap | JavaUtils/src/main/java/com/sol/util/ArrayHandler.java:82-86 | null gives NullPointerException; an index out of range gives ArrayIndexOutOfBoundsException with the array unchanged; otherwise the contents become `Swapped` of the old contents |
| UtilArrayHandler.IsIndexValid | JavaUtils/src/main/java/com/sol/util/ArrayHandler.java:170-172 | throws NullPointerException exactly for a null array (whatever the index, because `&` does not short-circuit); otherwise true if and only if `0 <= index < length` |
| UtilArrayHandler.RequireValidIndex | JavaUtils/src/main/java/com/sol/util/ArrayHandler.java:101-107 | returns normally if and only if `isIndexValid` is true; IndexOutOfBoundsException without message when it is false |
| UtilArrayHandler.RequireValidIndexWithMessage | JavaUtils/src/main/java/com/sol/util/ArrayHandler.java:125-131 | as above, the exception carrying the given message |
| UtilArrayHandler.RequireValidIndexWithSupplier | JavaUtils/src/main/java/com/sol/util/ArrayHandler.java:149-155 | as above, the message taken from the supplier only on failure; a null supplier then gives NullPointerException |
| UtilArrayUtils.GetArrayInstance | JavaUtils/src/main/java/com/sol/util/ArrayUtils.java:42-51 | null gives NullPointerException; otherwise a fresh all-null array as long as the argument |
| UtilArrayUtils.GetArrayInstanceWithLength | JavaUtils/src/main/java/com/sol/util/ArrayUtils.java:62-74 | NegativeArraySizeException before the null check; otherwise a fresh all-null array of exactly `length` slots |
| UtilArrayUtils.Swap | JavaUtils/src/main/java/com/sol/util/ArrayUtils.java:82-170 | each of the eight overloads: null gives NullPointerException, a bad index ArrayIndexOutOfBoundsException before any write, otherwise `Swapped` of the old contents |
| UtilArrayUtils.ToPrimitiveArray | JavaUtils/src/main/java/com/sol/util/ArrayUtils.java:181-327 | NullPointerException for a null array or any null element; otherwise a fresh array of the same length with `array[i]` unboxed at each `i`, equal to `Unboxed` of the input |
| UtilArrayUtils.ToPrimitiveWrapper | JavaUtils/src/main/java/com/sol/util/ArrayUtils.java:337-471 | NullPointerException for a null array; otherwise a fresh array of the same length holding a box of `array[i]` at each `i`, equal to `Boxed` of the input |
| UtilArrayUtililities.GetArrayInstance | JavaUtils/src/main/java/com/sol/util/ArrayUtililities.java:44-47 | null gives NullPointerException; otherwise a fresh all-null array as long as the argument |
| UtilArrayUtililities.GetArrayInstanceWithLength | JavaUtils/src/main/java/com/sol/util/ArrayUtililities.java:59-69 | NegativeArraySizeException whatever the array, null included; then null gives NullPointerException; the result length is the requested one, including 0 |
| UtilArrayUtililities.CreateArrayInstance | JavaUtils/src/main/java/com/sol/util/ArrayUtililities.java:71-82 | its asserted preconditions (non-null array, length not negative) hold at both call sites; the result is a fresh all-null array of `length` slots |
| ArraysArrayHandler.GetArrayInstance | JavaUtils/src/main/java/com/sol/arrays/ArrayHandler.java:19-26 | null fails at `getClass` with NullPointerException; otherwise a fresh all-null array as long as the argument |
| ArraysArrayHandler.GetArrayInstanceWithLength | JavaUtils/src/main/java/com/sol/arrays/ArrayHandler.java:36-47 | a negative length gives IllegalArgumentException before the array is touched; then null gives NullPointerException; otherwise exactly `length` slots |
| ArraysArrayHandler.Swap | JavaUtils/src/main/java/com/sol/arrays/ArrayHandler.java:55-59 | null gives NullPointerException; a bad index throws before any write; otherwise `Swapped` of the old contents |
| ArraysGenericArrayInstance.GetArrayInstance | JavaUtils/src/main/java/com/sol/arrays/GenericArrayInstance.java:20-27 | null gives NullPointerException; otherwise a fresh all-null array as long as the argument |
| ArraysGenericArrayInstance.GetArrayInstanceWithLength | JavaUtils/src/main/java/com/sol/arrays/GenericArrayInstance.java:39-47 | a negative length gives IllegalArgumentException even for a null array; then null gives NullPointerException; otherwise exactly `length` slots |
| ArraysSwapIndexes.Swap | JavaUtils/src/main/java/com/sol/arrays/SwapIndexes.java:17-21 | null gives NullPointerException; a bad index throws before any write; otherwise `Swapped` of the old contents |
| SolomonArraysSwapIndexes.Swap | JavaUtils/src/main/java/com/solomon/arrays/SwapIndexes.java:16-20 | null gives NullPointerException; a bad index throws before any write; otherwise `Swapped` of the old contents |
| SolGenericFactory.GenericFactory.constructor | JavaUtils/src/main/java/com/sol/factory/GenericFactory.java:37 | the registry starts empty and null-free |
| SolGenericFactory.GenericFactory.Put | JavaUtils/src/main/java/com/sol/factory/GenericFactory.java:52-58 | a null function, then a null key, gives NullPointerException with the map unchanged; otherwise returns the previous mapping as an Optional and maps `key` to the function; other keys unchanged; no null ever stored |
| SolGenericFactory.GenericFactory.Remove | JavaUtils/src/main/java/com/sol/factory/GenericFactory.java:67-71 | a null key gives NullPointerException; otherwise returns the previous mapping as an Optional and leaves `key` unmapped; other keys unchanged |
| SolGenericFactory.GenericFactory.NewInstance | JavaUtils/src/main/java/com/sol/factory/GenericFactory.java:80-82 | a null or unmapped key gives NullPointerException; otherwise the stored function applied to `input` |
| SolGenericSupplier.GenericSupplier.constructor | JavaUtils/src/main/java/com/sol/factory/GenericSupplier.java:36 | the registry starts empty and null-free |
| SolGenericSupplier.GenericSupplier.Put | JavaUtils/src/main/java/com/sol/factory/GenericSupplier.java:51-57 | a null key, then a null supplier, gives NullPointerException with the map unchanged; otherwise returns the previous supplier as an Optional and installs the new one; other keys unchanged |
| SolGenericSupplier.GenericSupplier.Remove | JavaUtils/src/main/java/com/sol/factory/GenericSupplier.java:66-69 | a null key gives NullPointerException; otherwise returns the previous supplier and leaves `key` unmapped; other keys unchanged |
| SolGenericSupplier.GenericSupplier.NewInstance | JavaUtils/src/main/java/com/sol/factory/GenericSupplier.java:77-79 | a null or unmapped key gives NullPointerException; otherwise the result of the stored supplier |
| SolomonGenericFactory.GenericFactory.constructor | JavaUtils/src/main/java/com/solomon/factory/GenericFactory.java:19 | the registry starts empty and null-free |
| SolomonGenericFactory.GenericFactory.Put | JavaUtils/src/main/java/com/solomon/factory/GenericFactory.java:33-38 | a null function, then a null key, gives NullPointerException with the map unchanged; otherwise returns the previous function or null and maps `key` to the function; other keys unchanged |
| SolomonGenericFactory.GenericFactory.Remove | JavaUtils/src/main/java/com/solomon/factory/GenericFactory.java:46-48 | never throws: returns the previous function or null and leaves `key` unmapped; `remove(null)` returns null and changes nothing |
| SolomonGenericFactory.GenericFactory.NewInstance | JavaUtils/src/main/java/com/solomon/factory/GenericFactory.java:57-59 | a null or unmapped key gives NullPointerException; otherwise the stored function applied to `input` |
| ReflectArrayHandler.Default | JavaUtils/src/main/java/com/sol/reflect/ArrayHandler.java:281-292 | the default slot value of every kind is a legal value of that kind |
| ReflectArrayHandler.RequireValidArray | JavaUtils/src/main/java/com/sol/reflect/ArrayHandler.java:480-492 | NullPointerException on null, IllegalArgumentException on a non-array, otherwise the argument unchanged |
| ReflectArrayHandler.Get | JavaUtils/src/main/java/com/sol/reflect/ArrayHandler.java:34-71 | returns normally if and only if the argument is an array other than `short[]` and the index is in range, and then gives the stored element unconverted; names the exception of every other case |
| ReflectArrayHandler.GetLength | JavaUtils/src/main/java/com/sol/reflect/ArrayHandler.java:224-260 | the length of every array except `short[]`; NullPointerException on null, IllegalArgumentException otherwise |
| ReflectArrayHandler.GetBoolean | JavaUtils/src/main/java/com/sol/reflect/ArrayHandler.java:73-83 | returns normally if and only if a `boolean[]` is read in range, giving the stored boolean; names each exception |
| ReflectArrayHandler.GetByte | JavaUtils/src/main/java/com/sol/reflect/ArrayHandler.java:85-95 | `getbyte`: returns normally if and only if a `byte[]` is read in range, giving the stored byte; names each exception |
| ReflectArrayHandler.GetChar | JavaUtils/src/main/java/com/sol/reflect/ArrayHandler.java:97-107 | never returns normally: ClassCastException on a `byte[]`, IllegalArgumentException on a `char[]` and every other non-null argument |
| ReflectArrayHandler.GetShort | JavaUtils/src/main/java/com/sol/reflect/ArrayHandler.java:109-122 | accepts exactly `short[]` and `byte[]`, returning the stored value, which is in short range |
| ReflectArrayHandler.GetInt | JavaUtils/src/main/java/com/sol/reflect/ArrayHandler.java:124-145 | accepts exactly `int[]`, `short[]`, `char[]` and `byte[]`, returning the stored value, which is in int range |
| ReflectArrayHandler.GetLong | JavaUtils/src/main/java/com/sol/reflect/ArrayHandler.java:147-168 | accepts exactly `long[]`, `int[]`, `short[]` and `byte[]` (not `char[]`), returning the stored value |
| ReflectArrayHandler.GetFloat | JavaUtils/src/main/java/com/sol/reflect/ArrayHandler.java:170-191 | accepts exactly `float[]`, `int[]`, `short[]` and `byte[]`; a float element comes back as stored, an integer element as the nearest float |
| ReflectArrayHandler.GetDouble | JavaUtils/src/main/java/com/sol/reflect/ArrayHandler.java:193-222 | accepts every numeric array except `char[]`; float and double elements keep their value, an integer element comes back as the nearest double |
| ReflectArrayHandler.StoreAt | JavaUtils/src/main/java/com/sol/reflect/ArrayHandler.java:348 | a single slot store: ArrayIndexOutOfBoundsException with nothing changed, or exactly slot `index` replaced |
| ReflectArrayHandler.StoreWidened | JavaUtils/src/main/java/com/sol/reflect/ArrayHandler.java:343-437 | the shared shape of the integer setters: outcome `SetterOutcome`, contents `AfterSetter`, slot kinds preserved |
| ReflectArrayHandler.SetByte | JavaUtils/src/main/java/com/sol/reflect/ArrayHandler.java:343-363 | stores into `byte`, `short`, `int`, `long`, `float` and `double` arrays only; IllegalArgumentException with the array unchanged otherwise; only slot `index` changes; the integer value is kept |
| ReflectArrayHandler.SetShort | JavaUtils/src/main/java/com/sol/reflect/ArrayHandler.java:365-383 | the same for `short`, `int`, `long`, `float` and `double` arrays |
| ReflectArrayHandler.SetChar | JavaUtils/src/main/java/com/sol/reflect/ArrayHandler.java:385-403 | the same for `char`, `int`, `long`, `float` and `double` arrays |
| ReflectArrayHandler.SetInt | JavaUtils/src/main/java/com/sol/reflect/ArrayHandler.java:405-421 | the same for `int`, `long`, `float` and `double` arrays |
| ReflectArrayHandler.SetLong | JavaUtils/src/main/java/com/sol/reflect/ArrayHandler.java:423-437 | the same for `long`, `float` and `double` arrays |
| ReflectArrayHandler.SetBoolean | JavaUtils/src/main/java/com/sol/reflect/ArrayHandler.java:332-341 | writes slot `index` of a `boolean[]` and then throws IllegalArgumentException anyway; never returns normally |
| ReflectArrayHandler.SetFloat | JavaUtils/src/main/java/com/sol/reflect/ArrayHandler.java:439-449 | stores into a `float[]`; every other array goes to `setDouble`, so it returns normally only on a `float[]` |
| ReflectArrayHandler.SetDouble | JavaUtils/src/main/java/com/sol/reflect/ArrayHandler.java:451-460 | writes slot `index` of a `double[]` and then throws IllegalArgumentException anyway; never returns normally |
| ReflectArrayHandler.Set | JavaUtils/src/main/java/com/sol/reflect/ArrayHandler.java:294-330 | on an `Object[]`: NullPointerException for null, then the `isInstance` test, the bounds check and the store check, then the reference is stored; on a primitive array: ClassCastException for a Boolean, the matching setter for other wrappers, IllegalArgumentException for anything else; slot kinds preserved |
| ReflectArrayHandler.NewInstance | JavaUtils/src/main/java/com/sol/reflect/ArrayHandler.java:281-292 | NullPointerException for a null type, then NegativeArraySizeException for a negative length; otherwise a fresh array of `length` default values of that kind |
| ReflectArrayHandler.NewInstanceDims | JavaUtils/src/main/java/com/sol/reflect/ArrayHandler.java:262-279 | in order, before anything is allocated: NullPointerException for a null type, IllegalArgumentException for 0 or more than 255 dimensions, NegativeArraySizeException for any negative dimension; otherwise a fresh outer array as long as the first dimension |
| ReflectArrayHandler.WidenFits | JavaUtils/src/main/java/com/sol/reflect/ArrayHandler.java:343-437 | a value stored through an accepted widening fits the target slot, and an integer stored into an integer array keeps its value |
| ReflectArrayHandler.SetterTargetsAreJlsWidening | JavaUtils/src/main/java/com/sol/reflect/ArrayHandler.java:332-460 | each setter accepts exactly the array kinds that its value converts to by identity or by JLS widening (section 5.1.2) |
| ReflectArrayHandler.SetterOkIff | JavaUtils/src/main/java/com/sol/reflect/ArrayHandler.java:332-460 | a setter returns normally if and only if its value widens to the array's kind, the index is in range, and it is not a store-then-throw setter |
| ReflectArrayHandler.SetterWritesOnlyOnSuccess | JavaUtils/src/main/java/com/sol/reflect/ArrayHandler.java:332-460 | a setter that returns normally has written its slot; a setter that writes and still throws is one of the store-then-throw cases, and it throws IllegalArgumentException |
| ReflectArrayHandler.StoreThenThrowSetters | JavaUtils/src/main/java/com/sol/reflect/ArrayHandler.java:332-341 | `setBoolean` and `setDouble` never return normally, yet write a `boolean[]` and a `double[]` in range; `setFloat` returns normally only on a `float[]` |
| ReflectArrayHandler.GetterSourcesVsJls | JavaUtils/src/main/java/com/sol/reflect/ArrayHandler.java:73-222 | every kind a getter accepts widens to the getter's kind, and the getters accept every JLS widening except char to long, char to float, long to float and char to double; `getChar` accepts nothing |
| ReflectArrayHandler.ShortArrayRejected | JavaUtils/src/main/java/com/sol/reflect/ArrayHandler.java:34-71 | `get` and `getLength` reject a `short[]` with IllegalArgumentException that `getShort` reads |
| ReflectArrayHandler.SetRejectsBooleanAndWrappers | JavaUtils/src/main/java/com/sol/reflect/ArrayHandler.java:294-330 | a Boolean value into a primitive array gives ClassCastException with nothing written; a wrapper value into an `Object[]` gives IllegalArgumentException with nothing written |
| ReflectArrayHandler.SetWritesThenThrows | JavaUtils/src/main/java/com/sol/reflect/ArrayHandler.java:294-330 | `set` writes and still throws only for a Float or Double value into a `double[]` |
| ReflectArrayHandler.SetIntThenGetLong | JavaUtils/src/main/java/com/sol/reflect/ArrayHandler.java:405-421 | an int stored by `setInt` into an `int[]` or `long[]` reads back unchanged through `getLong`, or both fail with ArrayIndexOutOfBoundsException |

## Left out

- Floating-point arithmetic: float and double values are abstract, and the rounding of int to float, long to float and long to double is not modelled. Only the integer the value came from is recorded.
- `Class` objects: a component type is one of the nine kinds, and every reference component type is `Object`. An attempt to allocate an array of `void` is not modelled. In the reference-array helpers, the new array's component type is the Dafny type parameter.
- Set: the answers to `value.getClass().isInstance(array)` and to the JVM array store check are parameters (`Reflection`), because classes are not represented.
- NewInstanceDims: only the outermost array of a multi-dimensional allocation is described. The nested arrays it holds are not modelled, and neither is a null `dimentions` array.
- `getComponentType` in `com.sol.reflect.ArrayHandler` is pure reflection on `Class` objects and is not part of this model.
- The identity of wrapper objects (`Integer.valueOf` caching and the like) is not modelled. A box is just a non-null `Option`.
- The parallel fills of `toPrimitiveArray` and `toPrimitiveWrapper` are sequential loops here. Each index is written once, so the final contents are the same. On the error path of `toPrimitiveArray`, the partly filled array is discarded in both cases.
- The `System.out.println` in `set` is left out: it follows the failing cast and is never reached.
- Exception detail messages are kept only for `IndexOutOfBoundsException` in `requireValidIndex`, where the caller chooses them.
- Exceptions thrown by a stored function or supplier in the registries are not modelled: a stored function is a total Dafny function.
- The commented-out part of `ArrayUtililities` (everything after its `createArrayInstance`) is not code and is not modelled.
- The Selenium and Appium wrappers, the property files, the soft and weak reference containers, the browser constants and the test listener are outside this model. They delegate to drivers, the file system or the garbage collector.
