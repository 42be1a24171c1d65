/**
 * What the two legacy binders, binding.go and pkg/kcd/binding.go, share.
 *
 * Both files carry the same `bindStringValue`, build the same binding
 * error (an input error naming the struct type, the field, the extractor,
 * the message and the wrapped error), and treat one field the same way
 * once its strings are known: a nil pointer field is allocated, more than
 * one string is refused unless the field is a slice or an array, an array
 * must receive exactly its length in strings before anything is written,
 * a slice is reset and then grown one converted string at a time, an
 * array is written index by index, and any other field gets the first
 * string converted.
 *
 * A field reached through an unexported field cannot be set: `CanSet` is
 * false for it, and `reflect.Value.Set` on it panics. The binders track
 * that as a flag, and a panic is a `Crash`, kept apart from a returned
 * error.
 */
module BindCore {
  import opened Wrappers
  import opened GoTypes
  import opened Values
  import Strconv
  import Failures

  /**
   * Code `bindStringValue` calls whose behaviour is not modelled: float
   * parsing (its payload left uninterpreted), duration parsing (in
   * nanoseconds) and the `UnmarshalText` method of a type (the value it
   * produces, or an error text).
   */
  datatype Foreign = Foreign(
    parseFloat: (string, nat) -> Result<nat, string>,
    parseDuration: string -> Result<int, string>,
    unmarshalText: (GoType, string) -> Result<Value, string>)

  /** The errors `bindStringValue` returns. */
  datatype ConvError =
    | Unaddressable
    | UnmarshalFailed(text: string)
    | DurationFailed(text: string)
    | NumFailed(fn: string, input: string, err: Strconv.NumError)
    | FloatFailed(text: string)
    | Unsupported(kind: Kind)

  /** A binding error's message: fixed text, or one of the two messages built with `fmt.Sprintf`. */
  datatype Message =
    | Fixed(text: string)
    | ExpectCount(want: nat, got: nat)      // "parameter expect %d values, got %d"
    | CannotSet(value: string, typ: GoType) // "unable to set the value %q as type %+v"

  /** What a binding error wraps: an extractor's error or a conversion error. */
  datatype Cause = Extraction(err: Failures.Err) | Conversion(conv: ConvError)

  /** The binders' input error: message, struct type, field, extractor, wrapped error. */
  datatype InputError = InputError(message: Message, fieldType: GoType, field: string, extractor: string, err: Option<Cause>)

  /** How a bind stops early: a returned error, or a panic. */
  datatype Halt = Refuse(e: InputError) | Crash(reason: string)

  /** The destination after a bind step, and why it stopped, if it did. */
  datatype Bound = Bound(value: Value, stop: Option<Halt>)

  const IndexOutOfRange := "reflect: array index out of range"

  /** `time.Duration` as the test of the duration branch sees it: the dynamic type must be exactly the duration type. */
  predicate IsDuration(dynamic: GoType)
  {
    dynamic == Duration
  }

  /**
   * The duration branch: it asks whether the `*T` that `reflect.New`
   * returned is a `time.Duration`. When it is, a failing parse is returned,
   * and a successful one still falls through to the kind switch.
   */
  function DurationStep(t: GoType, s: string, ext: Foreign): Option<ConvError>
  {
    if IsDuration(Pointer(t)) then
      match ext.parseDuration(s)
      case Failure(m) => Some(DurationFailed(m))
      case Success(_) => None
    else None
  }

  /** The kind switch: strings verbatim, integers in base 10 within the kind's width, booleans, floats. */
  function KindSwitch(t: GoType, s: string, ext: Foreign): Result<Value, ConvError>
  {
    var k := KindOf(t);
    if k == String then Success(StringV(s))
    else if IsIntKind(k) then
      match Strconv.ParseInt(s, Bits(k))
      case Failure(e) => Failure(NumFailed("ParseInt", s, e))
      case Success(i) => Success(IntV(i))
    else if IsUintKind(k) then
      match Strconv.ParseUint(s, Bits(k))
      case Failure(e) => Failure(NumFailed("ParseUint", s, e))
      case Success(u) => Success(UintV(u))
    else if k == Bool then
      match Strconv.ParseBool(s)
      case Failure(e) => Failure(NumFailed("ParseBool", s, e))
      case Success(b) => Success(BoolV(b))
    else if IsFloatKind(k) then
      match ext.parseFloat(s, Bits(k))
      case Failure(m) => Failure(FloatFailed(m))
      case Success(f) => Success(FloatV(f))
    else Failure(Unsupported(k))
  }

  /**
   * `bindStringValue(s, v)` for a value `v` of type `t`: the value `v` is
   * set to, or the error. A value that cannot be set is refused first; a
   * type whose pointer has `UnmarshalText` is handed to it whatever its
   * kind; otherwise the kind decides, and a kind outside the native ones
   * is unsupported.
   */
  function BindStringValue(s: string, t: GoType, canSet: bool, ext: Foreign): (r: Result<Value, ConvError>)
    ensures !canSet ==> r == Failure(Unaddressable)
    ensures canSet && Implements(Pointer(t), TextUnmarshaler) ==>
      (r.Success? <==> ext.unmarshalText(t, s).Success?) &&
      (r.Success? ==> r.value == ext.unmarshalText(t, s).value)
    ensures canSet && !Implements(Pointer(t), TextUnmarshaler) && KindOf(t) !in NativeKinds ==>
      r == Failure(Unsupported(KindOf(t)))
    ensures r.Success? ==> canSet && (Implements(Pointer(t), TextUnmarshaler) || KindOf(t) in NativeKinds)
  {
    if !canSet then Failure(Unaddressable)
    else if Implements(Pointer(t), TextUnmarshaler) then
      match ext.unmarshalText(t, s)
      case Failure(m) => Failure(UnmarshalFailed(m))
      case Success(v) => Success(v)
    else
      match DurationStep(t, s, ext)
      case Some(e) => Failure(e)
      case None => KindSwitch(t, s, ext)
  }

  /** A pointer field's new content written through the pointer; any other field's written in place. */
  function Box(ft: GoType, x: Value): Value
  {
    if ft.Pointer? then PtrV(x) else x
  }

  /** The step both binders take on a nil pointer field: `field.Set(reflect.New(elem))`. */
  function Allocate(ft: GoType, at: Loc, canSet: bool, value: Value): (r: Result<Value, Halt>)
    ensures r.Failure? ==> r.error == Crash(UnexportedSet)
  {
    if ft.Pointer? && Get(value, at) == Some(NilV) then
      if canSet then Success(Put(value, at, PtrV(Zero(ft.elem)))) else Failure(Crash(UnexportedSet))
    else Success(value)
  }

  /** The elements built so far, and why the element loop stopped, if it did. */
  datatype Filling = Filling(elems: seq<Value>, stop: Option<Halt>)

  /** One pass of the element loop: convert a fresh element, then append it (slice) or set it at its index (array). */
  function FillStep(ext: Foreign, slot: GoType, canSet: bool, values: seq<string>, e: InputError, elems: seq<Value>, i: nat): Filling
    requires slot.SliceOf? || slot.ArrayOf?
    requires i < |values|
  {
    match BindStringValue(values[i], slot.elem, true, ext)
    case Failure(c) => Filling(elems, Some(Refuse(e.(err := Some(Conversion(c)), message := CannotSet(values[i], slot.elem)))))
    case Success(x) =>
      if slot.SliceOf? then Filling(elems + [x], None)
      else if !canSet then Filling(elems, Some(Crash(UnexportedSet)))
      else if i < |elems| then Filling(elems[i := x], None)
      else Filling(elems, Some(Crash(IndexOutOfRange)))
  }

  /** The element loop over the first `n` strings, from the elements `start`. */
  function FillElems(ext: Foreign, slot: GoType, canSet: bool, values: seq<string>, e: InputError, start: seq<Value>, n: nat): Filling
    requires slot.SliceOf? || slot.ArrayOf?
    requires n <= |values|
  {
    if n == 0 then Filling(start, None)
    else
      var f := FillElems(ext, slot, canSet, values, e, start, n - 1);
      if f.stop.Some? then f else FillStep(ext, slot, canSet, values, e, f.elems, n - 1)
  }

  /** The value at a field holds an array of the field's shape (through its pointer when it is one). */
  predicate ArrayHeld(cur: Option<Value>, ft: GoType)
  {
    cur.Some? && Deref(cur.value).ListV? && cur.value == Box(ft, Deref(cur.value))
  }

  /**
   * `handleSliceAndArray`: a slice is reset to an empty one and grown, an
   * array is written in place; the field holds whatever was written when
   * an element fails.
   */
  function Collection(ext: Foreign, ft: GoType, at: Loc, canSet: bool, values: seq<string>, e: InputError, value: Value): Bound
    requires DerefType(ft).SliceOf? || DerefType(ft).ArrayOf?
  {
    var slot := DerefType(ft);
    if slot.SliceOf? then
      if !canSet then Bound(value, Some(Crash(UnexportedSet)))
      else
        var f := FillElems(ext, slot, canSet, values, e, [], |values|);
        Bound(Put(value, at, Box(ft, ListV(f.elems))), f.stop)
    else
      var cur := Get(value, at);
      if !ArrayHeld(cur, ft) then Bound(value, Some(Crash(IndexOutOfRange)))
      else
        var f := FillElems(ext, slot, canSet, values, e, Deref(cur.value).elems, |values|);
        Bound(Put(value, at, Box(ft, ListV(f.elems))), f.stop)
  }

  /**
   * One field with its strings known: allocate a nil pointer, check the
   * number of strings, then fill a collection or convert the first string.
   */
  function Fill(ext: Foreign, ft: GoType, at: Loc, canSet: bool, values: seq<string>, e: InputError, value: Value): Bound
    requires |values| > 0
  {
    match Allocate(ft, at, canSet, value)
    case Failure(h) => Bound(value, Some(h))
    case Success(v1) =>
      var slot := DerefType(ft);
      if |values| > 1 && !(slot.SliceOf? || slot.ArrayOf?) then
        Bound(v1, Some(Refuse(e.(message := Fixed("multiple values not supported")))))
      else if slot.ArrayOf? && slot.length != |values| then
        Bound(v1, Some(Refuse(e.(message := ExpectCount(slot.length, |values|)))))
      else if slot.SliceOf? || slot.ArrayOf? then
        Collection(ext, ft, at, canSet, values, e, v1)
      else
        match BindStringValue(values[0], slot, canSet, ext)
        case Failure(c) => Bound(v1, Some(Refuse(e.(err := Some(Conversion(c)), message := CannotSet(values[0], slot)))))
        case Success(x) => Bound(Put(v1, at, Box(ft, x)), None)
  }

  /** Once the element loop has stopped it stays stopped. */
  /** One more string: none once the loop has stopped, and otherwise one pass on the elements so far. */
  lemma FillElemsNext(ext: Foreign, slot: GoType, canSet: bool, values: seq<string>, e: InputError, start: seq<Value>, n: nat)
    requires slot.SliceOf? || slot.ArrayOf?
    requires 0 < n <= |values|
    ensures var f := FillElems(ext, slot, canSet, values, e, start, n - 1);
      FillElems(ext, slot, canSet, values, e, start, n) == if f.stop.Some? then f else FillStep(ext, slot, canSet, values, e, f.elems, n - 1)
  {
  }

  lemma {:induction false} FillElemsStop(ext: Foreign, slot: GoType, canSet: bool, values: seq<string>, e: InputError, start: seq<Value>, k: nat, n: nat)
    requires slot.SliceOf? || slot.ArrayOf?
    requires k <= n <= |values|
    requires FillElems(ext, slot, canSet, values, e, start, k).stop.Some?
    ensures FillElems(ext, slot, canSet, values, e, start, n) == FillElems(ext, slot, canSet, values, e, start, k)
    decreases n - k
  {
    if k < n {
      FillElemsStop(ext, slot, canSet, values, e, start, k, n - 1);
    }
  }

  /** `field.Set(reflect.New(elem))` on a nil pointer field of the destination. */
  method AllocateAt(t: Target, ft: GoType, at: Loc, canSet: bool) returns (stop: Option<Halt>)
    modifies t
    ensures var r := Allocate(ft, at, canSet, old(t.value));
      if r.Success? then t.value == r.value && stop == None else t.value == old(t.value) && stop == Some(r.error)
  {
    stop := None;
    if ft.Pointer? && Get(t.value, at) == Some(NilV) {
      if !canSet {
        stop := Some(Crash(UnexportedSet));
      } else {
        t.Store(at, PtrV(Zero(ft.elem)));
      }
    }
  }

  /** `handleSliceAndArray` on the field at `at` of the destination, writing each element as it is converted. */
  method FillCollection(t: Target, ext: Foreign, ft: GoType, at: Loc, canSet: bool, values: seq<string>, e: InputError)
    returns (stop: Option<Halt>)
    requires DerefType(ft).SliceOf? || DerefType(ft).ArrayOf?
    modifies t
    ensures Bound(t.value, stop) == Collection(ext, ft, at, canSet, values, e, old(t.value))
  {
    var slot := DerefType(ft);
    var start: seq<Value>;
    if slot.SliceOf? {
      if !canSet {
        return Some(Crash(UnexportedSet));
      }
      start := [];
      t.Store(at, Box(ft, ListV([])));
    } else {
      var cur := Get(t.value, at);
      if !ArrayHeld(cur, ft) {
        return Some(Crash(IndexOutOfRange));
      }
      start := Deref(cur.value).elems;
      PutGet(t.value, at);
    }
    var elems := start;
    var i := 0;
    stop := None;
    while i < |values| && stop.None?
      invariant 0 <= i <= |values|
      invariant FillElems(ext, slot, canSet, values, e, start, i) == Filling(elems, stop)
      invariant t.value == Put(old(t.value), at, Box(ft, ListV(elems)))
    {
      var x := BindStringValue(values[i], slot.elem, true, ext);
      if x.Failure? {
        stop := Some(Refuse(e.(err := Some(Conversion(x.error)), message := CannotSet(values[i], slot.elem))));
      } else if slot.SliceOf? {
        var prev := elems;
        elems := elems + [x.value];
        PutPut(old(t.value), at, Box(ft, ListV(prev)), Box(ft, ListV(elems)));
        t.Store(at, Box(ft, ListV(elems)));
      } else if !canSet {
        stop := Some(Crash(UnexportedSet));
      } else if i < |elems| {
        var prev := elems;
        elems := elems[i := x.value];
        PutPut(old(t.value), at, Box(ft, ListV(prev)), Box(ft, ListV(elems)));
        t.Store(at, Box(ft, ListV(elems)));
      } else {
        stop := Some(Crash(IndexOutOfRange));
      }
      i := i + 1;
    }
    if stop.Some? {
      FillElemsStop(ext, slot, canSet, values, e, start, i, |values|);
    }
  }

  /** The tail both binders share once a field's strings are known, on the destination. */
  method FillAt(t: Target, ext: Foreign, ft: GoType, at: Loc, canSet: bool, values: seq<string>, e: InputError)
    returns (stop: Option<Halt>)
    requires |values| > 0
    modifies t
    ensures Bound(t.value, stop) == Fill(ext, ft, at, canSet, values, e, old(t.value))
  {
    stop := AllocateAt(t, ft, at, canSet);
    if stop.Some? {
      return;
    }
    var slot := DerefType(ft);
    if |values| > 1 && !(slot.SliceOf? || slot.ArrayOf?) {
      return Some(Refuse(e.(message := Fixed("multiple values not supported"))));
    }
    if slot.ArrayOf? && slot.length != |values| {
      return Some(Refuse(e.(message := ExpectCount(slot.length, |values|))));
    }
    if slot.SliceOf? || slot.ArrayOf? {
      stop := FillCollection(t, ext, ft, at, canSet, values, e);
      return;
    }
    var x := BindStringValue(values[0], slot, canSet, ext);
    if x.Failure? {
      return Some(Refuse(e.(err := Some(Conversion(x.error)), message := CannotSet(values[0], slot))));
    }
    t.Store(at, Box(ft, x.value));
  }
}
