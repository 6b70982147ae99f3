/** com.sol.reflect.ArrayHandler: reading, writing and allocating arrays
    through an untyped `Object` reference, by testing the runtime array type
    in a chain of `instanceof` branches.

    The Java argument `Object array` is a `Handle`: null, an object that is
    not an array, or an array of one of the nine kinds the branches test
    (`Object` stands for every array whose components are references). A slot
    holds a `Value`; floating-point numbers are abstract (`Fp`), and the model
    only records which integer a floating-point value was converted from.

    The acceptance tables are written out as in the code, defects included;
    `JlsWidens` (identity and widening primitive conversion, sections 5.1.1
    and 5.1.2 of the Java Language Specification) is the independent
    reference they are compared with. */
module ReflectArrayHandler {
  import opened JavaLang

  datatype Kind = Boolean | Byte | Short | Char | Int | Long | Float | Double | Object

  /** A float or double value, left abstract: either some IEEE 754 bit
      pattern, or the value nearest to an integer that was converted to
      float or to double. Rounding is not modelled. */
  datatype Fp = FpBits(bits: nat) | NearestFloat(n: int) | NearestDouble(n: int)

  /** The content of one array slot. A reference is null (`None`) or the
      identity of some object. */
  datatype Value = BoolVal(b: bool) | IntVal(n: int) | FpVal(x: Fp) | RefVal(ref: Option<nat>)

  /** The Java `Object array` argument. */
  datatype Handle = NullRef | NonArray | ArrayRef(kind: Kind, data: array<Value>)

  /** An object passed as the value of `set`: null, an instance of a
      primitive wrapper class (Boolean, Byte, ..., Double) holding `prim`, or
      an instance of any other class. */
  datatype BoxedValue = NullValue | Wrapper(kind: Kind, prim: Value) | Instance(id: nat)

  /** The two answers the JVM gives when `set` stores an object into an
      `Object[]`: whether `value.getClass().isInstance(array)` holds, and
      whether the array store check admits the value. The model does not
      represent classes, so it takes both as given. */
  datatype Reflection = Reflection(isInstance: bool, storable: bool)

  predicate IsIntegral(k: Kind) {
    k == Byte || k == Short || k == Char || k == Int || k == Long
  }

  /** `v` is a legal content of a slot of kind `k`. */
  predicate Fits(k: Kind, v: Value) {
    match k
    case Boolean => v.BoolVal?
    case Byte => v.IntVal? && IsByte(v.n)
    case Short => v.IntVal? && IsShort(v.n)
    case Char => v.IntVal? && IsChar(v.n)
    case Int => v.IntVal? && IsInt(v.n)
    case Long => v.IntVal? && IsLong(v.n)
    case Float => v.FpVal?
    case Double => v.FpVal?
    case Object => v.RefVal?
  }

  predicate WellFormedBox(b: BoxedValue) {
    b.Wrapper? ==> b.kind != Object && Fits(b.kind, b.prim)
  }

  /** The value a fresh array of kind `k` holds in every slot. */
  function Default(k: Kind): (v: Value)
    ensures Fits(k, v)
  {
    match k
    case Boolean => BoolVal(false)
    case Float => FpVal(FpBits(0))
    case Double => FpVal(FpBits(0))
    case Object => RefVal(None)
    case _ => IntVal(0)
  }

  function Frame(h: Handle): set<object> {
    if h.ArrayRef? then {h.data} else {}
  }

  /** Every slot of the array holds a value of the array's kind, as the JVM
      guarantees. */
  ghost predicate WellTyped(h: Handle)
    reads Frame(h)
  {
    h.ArrayRef? ==> forall i | 0 <= i < h.data.Length :: Fits(h.kind, h.data[i])
  }

  // ---------------------------------------------------------------------
  // The reference: identity and widening primitive conversion

  /** A value of kind `from` converts to kind `to` by identity (JLS section
      5.1.1) or by widening primitive conversion (JLS section 5.1.2). */
  predicate JlsWidens(from: Kind, to: Kind) {
    from == to ||
    match from
    case Byte => to in {Short, Int, Long, Float, Double}
    case Short => to in {Int, Long, Float, Double}
    case Char => to in {Int, Long, Float, Double}
    case Int => to in {Long, Float, Double}
    case Long => to in {Float, Double}
    case Float => to == Double
    case _ => false
  }

  /** The conversion applied when a value is read or stored as kind
      `target`: integers keep their value in every integer kind and become
      the nearest float or double in a floating-point kind; a float becomes
      a double without change of value. */
  function Widen(v: Value, target: Kind): Value {
    if v.IntVal? && target == Float then FpVal(NearestFloat(v.n))
    else if v.IntVal? && target == Double then FpVal(NearestDouble(v.n))
    else v
  }

  // ---------------------------------------------------------------------
  // requireValidArray, get, getLength and the typed getters

  /** `requireValidArray(array)`: NullPointerException on null,
      IllegalArgumentException on an object that is not an array, and
      otherwise the argument itself. */
  function RequireValidArray(h: Handle): (r: Outcome<Handle>)
    ensures h.NullRef? ==> r == Threw(NullPointer)
    ensures h.NonArray? ==> r == Threw(IllegalArgument)
    ensures h.ArrayRef? ==> r == Ok(h)
  {
    match h
    case NullRef => Threw(NullPointer)
    case NonArray => Threw(IllegalArgument)
    case ArrayRef(_, _) => Ok(h)
  }

  /** `get(array, index)`: the stored element, unconverted. There is no
      `short[]` branch, so a short array is rejected like a non-array. */
  function Get(h: Handle, index: int): (r: Outcome<Value>)
    reads Frame(h)
    ensures r.Ok? <==> h.ArrayRef? && h.kind != Short && 0 <= index < h.data.Length
    ensures r.Ok? ==> r.value == h.data[index]
    ensures r.Threw? ==> r.exc == (if h.NullRef? then NullPointer
                                   else if h.ArrayRef? && h.kind != Short then ArrayIndexOutOfBounds
                                   else IllegalArgument)
  {
    match RequireValidArray(h)
    case Threw(e) => Threw(e)
    case Ok(_) =>
      if h.kind == Short then Threw(IllegalArgument)
      else if 0 <= index < h.data.Length then Ok(h.data[index])
      else Threw(ArrayIndexOutOfBounds)
  }

  /** `getLength(array)`: the length of every array but a `short[]`, which,
      as in `get`, has no branch. */
  function GetLength(h: Handle): (r: Outcome<nat>)
    ensures r.Ok? <==> h.ArrayRef? && h.kind != Short
    ensures r.Ok? ==> r.value == h.data.Length
    ensures r.Threw? ==> r.exc == (if h.NullRef? then NullPointer else IllegalArgument)
  {
    match RequireValidArray(h)
    case Threw(e) => Threw(e)
    case Ok(_) => if h.kind == Short then Threw(IllegalArgument) else Ok(h.data.Length)
  }

  /** The array kinds for which the typed getter `getX` returns normally:
      its `instanceof` branches, as written. `getChar` has none (see
      `GetChar`), and there is no getter for `Object`. */
  function GetterSources(x: Kind): set<Kind> {
    match x
    case Boolean => {Boolean}
    case Byte => {Byte}
    case Short => {Short, Byte}
    case Char => {}
    case Int => {Int, Short, Char, Byte}
    case Long => {Long, Int, Short, Byte}
    case Float => {Float, Int, Short, Byte}
    case Double => {Double, Float, Long, Int, Short, Byte}
    case Object => {}
  }

  /** The common shape of the typed getters: null throws
      NullPointerException, an unlisted kind (or a non-array)
      IllegalArgumentException, a bad index ArrayIndexOutOfBoundsException;
      otherwise the element, converted to kind `x`. */
  function ReadAs(x: Kind, h: Handle, index: int): Outcome<Value>
    reads Frame(h)
  {
    if h.NullRef? then Threw(NullPointer)
    else if h.NonArray? || h.kind !in GetterSources(x) then Threw(IllegalArgument)
    else if !(0 <= index < h.data.Length) then Threw(ArrayIndexOutOfBounds)
    else Ok(Widen(h.data[index], x))
  }

  /** `getBoolean(array, index)`: only a `boolean[]` is accepted. */
  function GetBoolean(h: Handle, index: int): (r: Outcome<bool>)
    requires WellTyped(h)
    reads Frame(h)
    ensures r.Ok? <==> h.ArrayRef? && h.kind == Boolean && 0 <= index < h.data.Length
    ensures r.Ok? ==> h.data[index] == BoolVal(r.value)
    ensures r.Threw? ==> r.exc == (if h.NullRef? then NullPointer
                                   else if h.ArrayRef? && h.kind == Boolean then ArrayIndexOutOfBounds
                                   else IllegalArgument)
  {
    match ReadAs(Boolean, h, index)
    case Ok(v) => Ok(v.b)
    case Threw(e) => Threw(e)
  }

  /** `getbyte(array, index)`: only a `byte[]` is accepted. */
  function GetByte(h: Handle, index: int): (r: Outcome<int>)
    requires WellTyped(h)
    reads Frame(h)
    ensures r.Ok? <==> h.ArrayRef? && h.kind == Byte && 0 <= index < h.data.Length
    ensures r.Ok? ==> h.data[index] == IntVal(r.value) && IsByte(r.value)
    ensures r.Threw? ==> r.exc == (if h.NullRef? then NullPointer
                                   else if h.ArrayRef? && h.kind == Byte then ArrayIndexOutOfBounds
                                   else IllegalArgument)
  {
    match ReadAs(Byte, h, index)
    case Ok(v) => Ok(v.n)
    case Threw(e) => Threw(e)
  }

  /** `getChar(array, index)`: its only branch tests for `byte[]` and then
      casts to `char[]`, which fails; so it never returns normally, and a
      `char[]` is rejected with IllegalArgumentException. */
  function GetChar(h: Handle, index: int): (r: Outcome<int>)
    ensures r.Threw?
    ensures r.exc == (if h.NullRef? then NullPointer
                      else if h.ArrayRef? && h.kind == Byte then ClassCast
                      else IllegalArgument)
  {
    if h.NullRef? then Threw(NullPointer)
    else if h.ArrayRef? && h.kind == Byte then Threw(ClassCast)
    else Threw(IllegalArgument)
  }

  /** `getShort(array, index)`: accepts `short[]` and `byte[]`. */
  function GetShort(h: Handle, index: int): (r: Outcome<int>)
    requires WellTyped(h)
    reads Frame(h)
    ensures r.Ok? <==> h.ArrayRef? && h.kind in {Short, Byte} && 0 <= index < h.data.Length
    ensures r.Ok? ==> h.data[index] == IntVal(r.value) && IsShort(r.value)
    ensures r.Threw? ==> r.exc == (if h.NullRef? then NullPointer
                                   else if h.ArrayRef? && h.kind in {Short, Byte} then ArrayIndexOutOfBounds
                                   else IllegalArgument)
  {
    match ReadAs(Short, h, index)
    case Ok(v) => Ok(v.n)
    case Threw(e) => Threw(e)
  }

  /** `getInt(array, index)`: accepts `int[]`, `short[]`, `char[]` and
      `byte[]`. */
  function GetInt(h: Handle, index: int): (r: Outcome<int>)
    requires WellTyped(h)
    reads Frame(h)
    ensures r.Ok? <==> h.ArrayRef? && h.kind in {Int, Short, Char, Byte} && 0 <= index < h.data.Length
    ensures r.Ok? ==> h.data[index] == IntVal(r.value) && IsInt(r.value)
    ensures r.Threw? ==> r.exc == (if h.NullRef? then NullPointer
                                   else if h.ArrayRef? && h.kind in {Int, Short, Char, Byte} then ArrayIndexOutOfBounds
                                   else IllegalArgument)
  {
    match ReadAs(Int, h, index)
    case Ok(v) => Ok(v.n)
    case Threw(e) => Threw(e)
  }

  /** `getLong(array, index)`: accepts `long[]`, `int[]`, `short[]` and
      `byte[]`, but not `char[]`. */
  function GetLong(h: Handle, index: int): (r: Outcome<int>)
    requires WellTyped(h)
    reads Frame(h)
    ensures r.Ok? <==> h.ArrayRef? && h.kind in {Long, Int, Short, Byte} && 0 <= index < h.data.Length
    ensures r.Ok? ==> h.data[index] == IntVal(r.value) && IsLong(r.value)
    ensures r.Threw? ==> r.exc == (if h.NullRef? then NullPointer
                                   else if h.ArrayRef? && h.kind in {Long, Int, Short, Byte} then ArrayIndexOutOfBounds
                                   else IllegalArgument)
  {
    match ReadAs(Long, h, index)
    case Ok(v) => Ok(v.n)
    case Threw(e) => Threw(e)
  }

  /** `getFloat(array, index)`: accepts `float[]`, `int[]`, `short[]` and
      `byte[]`, but neither `long[]` nor `char[]`. An integer element comes
      back as the nearest float. */
  function GetFloat(h: Handle, index: int): (r: Outcome<Fp>)
    requires WellTyped(h)
    reads Frame(h)
    ensures r.Ok? <==> h.ArrayRef? && h.kind in {Float, Int, Short, Byte} && 0 <= index < h.data.Length
    ensures r.Ok? && h.kind == Float ==> h.data[index] == FpVal(r.value)
    ensures r.Ok? && h.kind != Float ==> h.data[index].IntVal? && r.value == NearestFloat(h.data[index].n)
    ensures r.Threw? ==> r.exc == (if h.NullRef? then NullPointer
                                   else if h.ArrayRef? && h.kind in {Float, Int, Short, Byte} then ArrayIndexOutOfBounds
                                   else IllegalArgument)
  {
    match ReadAs(Float, h, index)
    case Ok(v) => Ok(v.x)
    case Threw(e) => Threw(e)
  }

  /** `getDouble(array, index)`: accepts every numeric array but `char[]`. A
      float element keeps its value; an integer element comes back as the
      nearest double. */
  function GetDouble(h: Handle, index: int): (r: Outcome<Fp>)
    requires WellTyped(h)
    reads Frame(h)
    ensures r.Ok? <==>
      h.ArrayRef? && h.kind in {Double, Float, Long, Int, Short, Byte} && 0 <= index < h.data.Length
    ensures r.Ok? && h.kind in {Double, Float} ==> h.data[index] == FpVal(r.value)
    ensures r.Ok? && h.kind !in {Double, Float} ==>
      h.data[index].IntVal? && r.value == NearestDouble(h.data[index].n)
    ensures r.Threw? ==> r.exc == (if h.NullRef? then NullPointer
                                   else if h.ArrayRef? && h.kind in {Double, Float, Long, Int, Short, Byte}
                                   then ArrayIndexOutOfBounds
                                   else IllegalArgument)
  {
    match ReadAs(Double, h, index)
    case Ok(v) => Ok(v.x)
    case Threw(e) => Threw(e)
  }

  // ---------------------------------------------------------------------
  // The setters

  /** The array kinds the setter `setX` stores into: its `instanceof`
      branches, as written. */
  function SetterTargets(x: Kind): set<Kind> {
    match x
    case Boolean => {Boolean}
    case Byte => {Byte, Short, Int, Long, Float, Double}
    case Short => {Short, Int, Long, Float, Double}
    case Char => {Char, Int, Long, Float, Double}
    case Int => {Int, Long, Float, Double}
    case Long => {Long, Float, Double}
    case Float => {Float, Double}
    case Double => {Double}
    case Object => {}
  }

  /** `setBoolean` and `setDouble` throw IllegalArgumentException after
      their store, unconditionally; `setFloat` reaches that store through
      `setDouble` on a `double[]`. */
  predicate StoreThenThrow(x: Kind, target: Kind) {
    x == Boolean || x == Double || (x == Float && target == Double)
  }

  /** How `setX(array, index, value)` ends. */
  function SetterOutcome(x: Kind, h: Handle, index: int): Outcome<()> {
    if h.NullRef? then Threw(NullPointer)
    else if h.NonArray? || h.kind !in SetterTargets(x) then Threw(IllegalArgument)
    else if !(0 <= index < h.data.Length) then Threw(ArrayIndexOutOfBounds)
    else if StoreThenThrow(x, h.kind) then Threw(IllegalArgument)
    else Ok(())
  }

  /** Whether `setX(array, index, value)` writes slot `index`, whatever the
      outcome. */
  predicate SetterWrites(x: Kind, h: Handle, index: int) {
    h.ArrayRef? && h.kind in SetterTargets(x) && 0 <= index < h.data.Length
  }

  /** The contents after `setX(array, index, v)`, given the contents
      `before`: slot `index` holds `v` converted to the array's kind when the
      setter writes, and nothing changes otherwise. */
  function AfterSetter(x: Kind, h: Handle, index: int, v: Value, before: seq<Value>): seq<Value>
    requires h.ArrayRef? && |before| == h.data.Length
  {
    if SetterWrites(x, h, index) then before[index := Widen(v, h.kind)] else before
  }

  /** One slot store, `((T[]) array)[index] = value`. */
  method StoreAt(a: array<Value>, index: int, v: Value) returns (r: Outcome<()>)
    modifies a
    ensures r == if 0 <= index < a.Length then Ok(()) else Threw(ArrayIndexOutOfBounds)
    ensures a[..] == if r.Ok? then old(a[..])[index := v] else old(a[..])
  {
    if !(0 <= index < a.Length) {
      return Threw(ArrayIndexOutOfBounds);
    }
    a[index] := v;
    return Ok(());
  }

  /** The shape shared by `setByte`, `setShort`, `setChar`, `setInt` and
      `setLong`: validate the array, find the first branch whose kind
      matches, store the converted value. */
  method StoreWidened(x: Kind, h: Handle, index: int, v: Value) returns (r: Outcome<()>)
    requires IsIntegral(x) && Fits(x, v)
    modifies Frame(h)
    ensures r == SetterOutcome(x, h, index)
    ensures h.ArrayRef? ==> h.data[..] == AfterSetter(x, h, index, v, old(h.data[..]))
    ensures old(WellTyped(h)) ==> WellTyped(h)
  {
    if h.NullRef? {
      return Threw(NullPointer);
    }
    if h.NonArray? || h.kind !in SetterTargets(x) {
      return Threw(IllegalArgument);
    }
    WidenFits(x, h.kind, v);
    r := StoreAt(h.data, index, Widen(v, h.kind));
  }

  /** `setByte(array, index, value)`. */
  method SetByte(h: Handle, index: int, value: int) returns (r: Outcome<()>)
    requires IsByte(value)
    modifies Frame(h)
    ensures r == SetterOutcome(Byte, h, index)
    ensures h.ArrayRef? ==> h.data[..] == AfterSetter(Byte, h, index, IntVal(value), old(h.data[..]))
    ensures old(WellTyped(h)) ==> WellTyped(h)
  {
    r := StoreWidened(Byte, h, index, IntVal(value));
  }

  /** `setShort(array, index, value)`. */
  method SetShort(h: Handle, index: int, value: int) returns (r: Outcome<()>)
    requires IsShort(value)
    modifies Frame(h)
    ensures r == SetterOutcome(Short, h, index)
    ensures h.ArrayRef? ==> h.data[..] == AfterSetter(Short, h, index, IntVal(value), old(h.data[..]))
    ensures old(WellTyped(h)) ==> WellTyped(h)
  {
    r := StoreWidened(Short, h, index, IntVal(value));
  }

  /** `setChar(array, index, value)`. */
  method SetChar(h: Handle, index: int, value: int) returns (r: Outcome<()>)
    requires IsChar(value)
    modifies Frame(h)
    ensures r == SetterOutcome(Char, h, index)
    ensures h.ArrayRef? ==> h.data[..] == AfterSetter(Char, h, index, IntVal(value), old(h.data[..]))
    ensures old(WellTyped(h)) ==> WellTyped(h)
  {
    r := StoreWidened(Char, h, index, IntVal(value));
  }

  /** `setInt(array, index, value)`. */
  method SetInt(h: Handle, index: int, value: int) returns (r: Outcome<()>)
    requires IsInt(value)
    modifies Frame(h)
    ensures r == SetterOutcome(Int, h, index)
    ensures h.ArrayRef? ==> h.data[..] == AfterSetter(Int, h, index, IntVal(value), old(h.data[..]))
    ensures old(WellTyped(h)) ==> WellTyped(h)
  {
    r := StoreWidened(Int, h, index, IntVal(value));
  }

  /** `setLong(array, index, value)`. */
  method SetLong(h: Handle, index: int, value: int) returns (r: Outcome<()>)
    requires IsLong(value)
    modifies Frame(h)
    ensures r == SetterOutcome(Long, h, index)
    ensures h.ArrayRef? ==> h.data[..] == AfterSetter(Long, h, index, IntVal(value), old(h.data[..]))
    ensures old(WellTyped(h)) ==> WellTyped(h)
  {
    r := StoreWidened(Long, h, index, IntVal(value));
  }

  /** `setBoolean(array, index, value)`: stores into a `boolean[]` and then
      throws IllegalArgumentException anyway. */
  method SetBoolean(h: Handle, index: int, value: bool) returns (r: Outcome<()>)
    modifies Frame(h)
    ensures r == SetterOutcome(Boolean, h, index)
    ensures h.ArrayRef? ==> h.data[..] == AfterSetter(Boolean, h, index, BoolVal(value), old(h.data[..]))
    ensures old(WellTyped(h)) ==> WellTyped(h)
  {
    if h.NullRef? {
      return Threw(NullPointer);
    }
    if h.ArrayRef? && h.kind == Boolean {
      var stored := StoreAt(h.data, index, BoolVal(value));
      if stored.Threw? {
        return stored;
      }
    }
    return Threw(IllegalArgument);
  }

  /** `setDouble(array, index, value)`: stores into a `double[]` and then
      throws IllegalArgumentException anyway. */
  method SetDouble(h: Handle, index: int, value: Fp) returns (r: Outcome<()>)
    modifies Frame(h)
    ensures r == SetterOutcome(Double, h, index)
    ensures h.ArrayRef? ==> h.data[..] == AfterSetter(Double, h, index, FpVal(value), old(h.data[..]))
    ensures old(WellTyped(h)) ==> WellTyped(h)
  {
    if h.NullRef? {
      return Threw(NullPointer);
    }
    if h.ArrayRef? && h.kind == Double {
      var stored := StoreAt(h.data, index, FpVal(value));
      if stored.Threw? {
        return stored;
      }
    }
    return Threw(IllegalArgument);
  }

  /** `setFloat(array, index, value)`: stores into a `float[]`, and hands
      every other array to `setDouble` (the float converts to double
      exactly). */
  method SetFloat(h: Handle, index: int, value: Fp) returns (r: Outcome<()>)
    modifies Frame(h)
    ensures r == SetterOutcome(Float, h, index)
    ensures h.ArrayRef? ==> h.data[..] == AfterSetter(Float, h, index, FpVal(value), old(h.data[..]))
    ensures old(WellTyped(h)) ==> WellTyped(h)
  {
    if h.NullRef? {
      return Threw(NullPointer);
    }
    if h.NonArray? {
      return Threw(IllegalArgument);
    }
    if h.kind == Float {
      r := StoreAt(h.data, index, FpVal(value));
    } else {
      r := SetDouble(h, index, value);
    }
  }

  /** How `set(array, index, value)` ends. On an `Object[]` it needs a
      non-null value whose class passes `isInstance(array)`, which a wrapper
      never does; on a primitive array it hands the value to the setter of
      the value's wrapper class, except that a Boolean fails at the `(int)`
      cast, and any other object is rejected. */
  function SetOutcome(h: Handle, index: int, value: BoxedValue, rt: Reflection): Outcome<()> {
    if h.NullRef? then Threw(NullPointer)
    else if h.NonArray? then Threw(IllegalArgument)
    else if h.kind == Object then
      if value.NullValue? then Threw(NullPointer)
      else if !(value.Instance? && rt.isInstance) then Threw(IllegalArgument)
      else if !(0 <= index < h.data.Length) then Threw(ArrayIndexOutOfBounds)
      else if !rt.storable then Threw(IllegalArgument)
      else Ok(())
    else
      match value
      case Wrapper(k, _) => if k == Boolean then Threw(ClassCast) else SetterOutcome(k, h, index)
      case _ => Threw(IllegalArgument)
  }

  /** Whether `set(array, index, value)` writes slot `index`. */
  predicate SetWrites(h: Handle, index: int, value: BoxedValue, rt: Reflection) {
    h.ArrayRef? &&
    if h.kind == Object then
      value.Instance? && rt.isInstance && 0 <= index < h.data.Length && rt.storable
    else
      value.Wrapper? && value.kind != Boolean && SetterWrites(value.kind, h, index)
  }

  /** The value `set` writes: the reference itself into an `Object[]`, the
      converted primitive into a primitive array. */
  function SetStored(h: Handle, value: BoxedValue): Value
    requires h.ArrayRef? && !value.NullValue?
  {
    if h.kind == Object then
      if value.Instance? then RefVal(Some(value.id)) else RefVal(None)
    else if value.Wrapper? then Widen(value.prim, h.kind)
    else RefVal(None)
  }

  /** `set(array, index, value)`. */
  method Set(h: Handle, index: int, value: BoxedValue, rt: Reflection) returns (r: Outcome<()>)
    requires WellFormedBox(value)
    modifies Frame(h)
    ensures r == SetOutcome(h, index, value, rt)
    ensures h.ArrayRef? ==>
      h.data[..] == if SetWrites(h, index, value, rt)
                    then old(h.data[..])[index := SetStored(h, value)]
                    else old(h.data[..])
    ensures old(WellTyped(h)) ==> WellTyped(h)
  {
    if h.NullRef? {
      return Threw(NullPointer);
    }
    if h.NonArray? {
      return Threw(IllegalArgument);
    }
    if h.kind == Object {
      if value.NullValue? {
        return Threw(NullPointer);
      }
      if !(value.Instance? && rt.isInstance) {
        return Threw(IllegalArgument);
      }
      if !(0 <= index < h.data.Length) {
        return Threw(ArrayIndexOutOfBounds);
      }
      if !rt.storable {
        return Threw(IllegalArgument);
      }
      h.data[index] := RefVal(Some(value.id));
      return Ok(());
    }
    match value
    case NullValue =>
      return Threw(IllegalArgument);
    case Instance(_) =>
      return Threw(IllegalArgument);
    case Wrapper(k, v) =>
      if k == Boolean {
        return Threw(ClassCast);
      } else if k == Byte {
        r := SetByte(h, index, v.n);
      } else if k == Short {
        r := SetShort(h, index, v.n);
      } else if k == Char {
        r := SetChar(h, index, v.n);
      } else if k == Int {
        r := SetInt(h, index, v.n);
      } else if k == Long {
        r := SetLong(h, index, v.n);
      } else if k == Float {
        r := SetFloat(h, index, v.x);
      } else {
        r := SetDouble(h, index, v.x);
      }
  }

  // ---------------------------------------------------------------------
  // Allocation

  /** `newInstance(componentType, length)`: a null component type (`None`)
      throws NullPointerException, a negative length
      NegativeArraySizeException; otherwise a new array of `length` default
      values. */
  method NewInstance(componentType: Option<Kind>, length: int) returns (r: Outcome<Handle>)
    ensures componentType.None? ==> r == Threw(NullPointer)
    ensures componentType.Some? && length < 0 ==> r == Threw(NegativeArraySize)
    ensures componentType.Some? && length >= 0 ==>
      r.Ok? && r.value.ArrayRef? && r.value.kind == componentType.value
      && fresh(r.value.data) && r.value.data.Length == length
      && forall i | 0 <= i < length :: r.value.data[i] == Default(componentType.value)
  {
    if componentType.None? {
      return Threw(NullPointer);
    }
    if length < 0 {
      return Threw(NegativeArraySize);
    }
    var k := componentType.value;
    var data := new Value[length](_ => Default(k));
    return Ok(ArrayRef(k, data));
  }

  /** `newInstance(componentType, dimentions...)`: rejects, in this order
      and before anything is allocated, a null component type, a dimension
      count of 0 or above 255, and a negative dimension. The result is the
      outermost array: as long as the first dimension, of the component kind
      when there is one dimension and of references otherwise. */
  method NewInstanceDims(componentType: Option<Kind>, dims: seq<int>) returns (r: Outcome<Handle>)
    ensures componentType.None? ==> r == Threw(NullPointer)
    ensures componentType.Some? && (|dims| == 0 || |dims| > 255) ==> r == Threw(IllegalArgument)
    ensures componentType.Some? && 0 < |dims| <= 255 && (exists j | 0 <= j < |dims| :: dims[j] < 0) ==>
      r == Threw(NegativeArraySize)
    ensures componentType.Some? && 0 < |dims| <= 255 && (forall j | 0 <= j < |dims| :: dims[j] >= 0) ==>
      r.Ok? && r.value.ArrayRef? && fresh(r.value.data) && r.value.data.Length == dims[0]
      && r.value.kind == (if |dims| == 1 then componentType.value else Object)
      && (|dims| == 1 ==> forall i | 0 <= i < dims[0] :: r.value.data[i] == Default(componentType.value))
  {
    if componentType.None? {
      return Threw(NullPointer);
    }
    if |dims| == 0 || |dims| > 255 {
      return Threw(IllegalArgument);
    }
    for i := 0 to |dims|
      invariant forall j | 0 <= j < i :: dims[j] >= 0
    {
      if dims[i] < 0 {
        return Threw(NegativeArraySize);
      }
    }
    var k := if |dims| == 1 then componentType.value else Object;
    var data := new Value[dims[0]](_ => Default(k));
    return Ok(ArrayRef(k, data));
  }

  // ---------------------------------------------------------------------
  // Properties

  /** Converting a value that fits kind `from` to a kind it widens to gives
      a value that fits the target, and an integer keeps its value in every
      integer kind. */
  lemma WidenFits(from: Kind, to: Kind, v: Value)
    requires from != Object && to in SetterTargets(from) && Fits(from, v)
    ensures Fits(to, Widen(v, to))
    ensures IsIntegral(to) ==> Widen(v, to) == v
  {
  }

  /** Every setter accepts exactly the array kinds its value widens to: the
      setter tables are identity plus JLS section 5.1.2. */
  lemma SetterTargetsAreJlsWidening(x: Kind, k: Kind)
    requires x != Object
    ensures k in SetterTargets(x) <==> JlsWidens(x, k)
  {
  }

  /** A setter returns normally exactly when the array's kind is one its
      value widens to, the index is in range, and the setter is not one of
      the store-then-throw ones. */
  lemma SetterOkIff(x: Kind, h: Handle, index: int)
    requires x != Object
    ensures SetterOutcome(x, h, index).Ok? <==>
      h.ArrayRef? && JlsWidens(x, h.kind) && 0 <= index < h.data.Length && !StoreThenThrow(x, h.kind)
  {
  }

  /** A setter that returns normally has written its slot; one that throws
      has written nothing unless it is a store-then-throw setter. */
  lemma SetterWritesOnlyOnSuccess(x: Kind, h: Handle, index: int)
    ensures SetterOutcome(x, h, index).Ok? ==> SetterWrites(x, h, index)
    ensures SetterWrites(x, h, index) && SetterOutcome(x, h, index).Threw? ==>
      StoreThenThrow(x, h.kind) && SetterOutcome(x, h, index) == Threw(IllegalArgument)
  {
  }

  /** `setBoolean` and `setDouble` never return normally, yet on their own
      array kind with a good index they write the slot; `setFloat` returns
      normally only on a `float[]`. */
  lemma StoreThenThrowSetters(h: Handle, index: int)
    ensures SetterOutcome(Boolean, h, index).Threw? && SetterOutcome(Double, h, index).Threw?
    ensures h.ArrayRef? && h.kind == Boolean && 0 <= index < h.data.Length ==>
      SetterWrites(Boolean, h, index) && SetterOutcome(Boolean, h, index) == Threw(IllegalArgument)
    ensures h.ArrayRef? && h.kind == Double && 0 <= index < h.data.Length ==>
      SetterWrites(Double, h, index) && SetterOutcome(Double, h, index) == Threw(IllegalArgument)
    ensures SetterOutcome(Float, h, index).Ok? ==> h.kind == Float
  {
  }

  /** Every kind a getter accepts widens to the getter's kind; the converse
      fails for exactly four pairs (char to long, char to float, long to
      float, char to double), and `getChar` accepts nothing. */
  lemma GetterSourcesVsJls(x: Kind, k: Kind)
    requires x != Object
    ensures k in GetterSources(x) ==> JlsWidens(k, x)
    ensures x != Char ==>
      (k in GetterSources(x) <==>
       JlsWidens(k, x) && (k, x) !in {(Char, Long), (Char, Float), (Long, Float), (Char, Double)})
    ensures GetterSources(Char) == {} && JlsWidens(Char, Char)
  {
  }

  /** The missing `short[]` branch: `get` and `getLength` reject a short
      array that `getShort` reads. */
  lemma ShortArrayRejected(h: Handle, index: int)
    requires h.ArrayRef? && h.kind == Short && WellTyped(h)
    ensures Get(h, index) == Threw(IllegalArgument)
    ensures GetLength(h) == Threw(IllegalArgument)
    ensures 0 <= index < h.data.Length ==> GetShort(h, index) == Ok(h.data[index].n)
  {
  }

  /** `set` with a Boolean value into a primitive array fails at the cast,
      before anything is stored; a wrapper into an `Object[]` fails the
      `isInstance` test. */
  lemma SetRejectsBooleanAndWrappers(h: Handle, index: int, b: bool, w: BoxedValue, rt: Reflection)
    requires h.ArrayRef? && w.Wrapper?
    ensures h.kind != Object ==>
      SetOutcome(h, index, Wrapper(Boolean, BoolVal(b)), rt) == Threw(ClassCast)
      && !SetWrites(h, index, Wrapper(Boolean, BoolVal(b)), rt)
    ensures h.kind == Object ==>
      SetOutcome(h, index, w, rt) == Threw(IllegalArgument) && !SetWrites(h, index, w, rt)
  {
  }

  /** The only way `set` writes and still throws is a Float or Double value
      reaching `setDouble` on a `double[]`. */
  lemma SetWritesThenThrows(h: Handle, index: int, value: BoxedValue, rt: Reflection)
    requires SetWrites(h, index, value, rt) && SetOutcome(h, index, value, rt).Threw?
    ensures h.kind == Double && value.Wrapper? && value.kind in {Float, Double}
  {
  }

  /** An int stored with `setInt` into an `int[]` or a `long[]` reads back
      unchanged through `getLong`. */
  method SetIntThenGetLong(h: Handle, index: int, value: int) returns (r: Outcome<int>)
    requires IsInt(value) && WellTyped(h) && h.ArrayRef? && h.kind in {Int, Long}
    modifies Frame(h)
    ensures r == if 0 <= index < h.data.Length then Ok(value) else Threw(ArrayIndexOutOfBounds)
  {
    var stored := SetInt(h, index, value);
    if stored.Threw? {
      return Threw(stored.exc);
    }
    r := GetLong(h, index);
  }
}
