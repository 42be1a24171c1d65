/**
 * internal/decoder/field_setter.go: turning one extracted value into the
 * value of one destination field.
 *
 * A value whose type fits the field is assigned as it is. Otherwise it
 * must be a `[]string`, a `string` or a `[]byte`, read as a list of
 * strings; an empty list leaves the field alone. A slice or array field
 * is rebuilt element by element, any other field is converted from the
 * first string. Each conversion tries, in this order, the duration type,
 * the native kinds (strings, booleans, integers checked against the
 * field's bit width, floats) and the unmarshaler interfaces.
 *
 * Every write to the field goes through `reflect.Value.Set`, which panics
 * when the field cannot be set (it was reached through an unexported
 * field); the job carries `CanSet` of the field.
 *
 * The functions say what a set produces; the methods `Set` and
 * `BuildElements` do it the way the source does, writing the field of
 * the destination in place and growing the element list in a loop.
 */
module FieldSetter {
  import opened Wrappers
  import opened GoTypes
  import opened Values
  import Strconv
  import opened Failures
  import opened Cache

  /**
   * Code the setter calls whose behaviour is not modelled: float parsing
   * (the payload it returns is left uninterpreted), duration parsing (in
   * nanoseconds) and the bodies of the unmarshal methods (the value of the
   * unmarshaled type, or an error text).
   */
  datatype Outside = Outside(
    parseFloat: (string, nat) -> Result<nat, string>,
    parseDuration: string -> Result<int, string>,
    unmarshal: (Unmarshaler, GoType, string) -> Result<Value, string>)

  /** One field to set: its static type, whether it can be set, the extracted value and where the value came from. */
  datatype Job = Job(fieldType: GoType, canSet: bool, value: Dyn, md: FieldMetadata, path: string, tag: string)

  /** The context fields every setter error carries that are not rendered with `fmt` or `Type.String`. */
  function ErrFields(j: Job): map<string, FieldValue>
  {
    map["path" := Str(j.path), "tag" := Str(j.tag)]
  }

  /** What a set does to the field: nothing, a new value, or stop with an error or a panic. */
  datatype Outcome = Keep | Store(v: Value) | Stop(abort: Abort)

  /** `el` (a fresh pointer) when `ptr`, otherwise `el.Elem()`. */
  function Boxed(t: GoType, v: Value, ptr: bool): Dyn
  {
    if ptr then Dyn(Pointer(t), PtrV(v)) else Dyn(t, v)
  }

  /** A parse failure: the parser's error wrapped with `message`, kind `Input`. */
  function InputError(message: string, cause: Cause, fields: map<string, FieldValue>): Err
  {
    WithFields(WithKind(Wrap(cause, message), Input), fields)
  }

  function Critical(message: string, fields: map<string, FieldValue>): Err
  {
    WithFields(NewWithKind(InputCritical, message), fields)
  }

  /** `makeNative`: parse `str` as the kind of `t`; the result has type `t`, or `*t` when `ptr`. */
  function MakeNative(t: GoType, str: string, ptr: bool, ext: Outside, fields: map<string, FieldValue>)
    : (r: Result<Dyn, Abort>)
    ensures r.Success? ==> r.value.typ == (if ptr then Pointer(t) else t)
    ensures r.Failure? ==> r.error.Raise?
  {
    var k := KindOf(t);
    if k == String then Success(Boxed(t, StringV(str), ptr))
    else if IsIntKind(k) then
      match Strconv.ParseInt(str, Bits(k))
      case Success(i) => Success(Boxed(t, IntV(i), ptr))
      case Failure(e) => Failure(Raise(InputError("invalid integer", ParseFailure("ParseInt", str, e), fields)))
    else if IsUintKind(k) then
      match Strconv.ParseUint(str, Bits(k))
      case Success(u) => Success(Boxed(t, UintV(u), ptr))
      case Failure(e) => Failure(Raise(InputError("invalid positive integer", ParseFailure("ParseUint", str, e), fields)))
    else if k == Bool then
      match Strconv.ParseBool(str)
      case Success(b) => Success(Boxed(t, BoolV(b), ptr))
      case Failure(e) => Failure(Raise(InputError("invalid boolean", ParseFailure("ParseBool", str, e), fields)))
    else if IsFloatKind(k) then
      match ext.parseFloat(str, Bits(k))
      case Success(x) => Success(Boxed(t, FloatV(x), ptr))
      case Failure(text) => Failure(Raise(InputError("invalid floating number", Foreign(text), fields)))
    else Failure(Raise(Critical("an error occur with this getValueFromHttp", fields)))
  }

  /** The message a failing unmarshal method is wrapped with, as written (text and binary are swapped). */
  function UnmarshalMessage(u: Unmarshaler): string
  {
    match u
    case TextUnmarshaler => "unable to unmarshal from binary format"
    case JSONUnmarshaler => "unable to unmarshal from json format"
    case BinaryUnmarshaler => "unable to unmarshal from text format"
  }

  /** The order `makeWithUnmarshaller` tries the interfaces in. */
  const UnmarshalOrder: seq<Unmarshaler> := [TextUnmarshaler, JSONUnmarshaler, BinaryUnmarshaler]

  /** The first interface of `UnmarshalOrder`, from position `k`, that `p` implements. */
  function FirstImplemented(p: GoType, k: nat): (r: Option<Unmarshaler>)
    requires k <= |UnmarshalOrder|
    ensures r.Some? ==> Implements(p, r.value) && r.value in UnmarshalOrder[k..]
    ensures r.None? ==> forall j :: k <= j < |UnmarshalOrder| ==> !Implements(p, UnmarshalOrder[j])
    decreases |UnmarshalOrder| - k
  {
    if k == |UnmarshalOrder| then None
    else if Implements(p, UnmarshalOrder[k]) then Some(UnmarshalOrder[k])
    else FirstImplemented(p, k + 1)
  }

  /**
   * `makeWithUnmarshaller`: a fresh `*T` (for `t` a pointer, `T` is its
   * element) filled by the first unmarshal method `*T` has; the result is
   * always that pointer.
   */
  function MakeWithUnmarshaller(t: GoType, str: string, ext: Outside, fields: map<string, FieldValue>)
    : (r: Result<Dyn, Abort>)
    ensures r.Success? ==> r.value.typ == Pointer(if t.Pointer? then t.elem else t)
    ensures r.Failure? ==> r.error.Raise?
  {
    var e := if KindOf(t) == Ptr then t.elem else t;
    match FirstImplemented(Pointer(e), 0)
    case Some(u) =>
      (match ext.unmarshal(u, e, str)
       case Success(v) => Success(Dyn(Pointer(e), PtrV(v)))
       case Failure(text) => Failure(Raise(InputError(UnmarshalMessage(u), Foreign(text), fields))))
    case None => Failure(Raise(Critical("an error occur with this getValueFromHttp", fields)))
  }

  /** `ConvertibleTo(time.Duration)`: the numeric basic types. */
  predicate ConvertibleToDuration(t: GoType)
  {
    t.Basic? && (IsIntKind(t.bkind) || IsUintKind(t.bkind) || IsFloatKind(t.bkind))
  }

  /** `makeCustomType`: a duration parsed from `str`, stored in a fresh `t` (which panics unless a duration fits it). */
  function MakeCustomType(t: GoType, str: string, ptr: bool, ext: Outside, fields: map<string, FieldValue>)
    : (r: Result<Dyn, Abort>)
    ensures r.Success? ==> r.value.typ == (if ptr then Pointer(t) else t)
  {
    if ConvertibleToDuration(t) then
      match ext.parseDuration(str)
      case Success(d) =>
        if AssignableTo(Duration, t) then Success(Boxed(t, IntV(d), ptr))
        else Failure(Panic("reflect.Set: duration not assignable"))
      case Failure(text) =>
        Failure(Raise(InputError("unable to parse duration (format: 1ms, 1s, 3h3s)", Foreign(text), fields)))
    else Failure(Raise(Critical("an error occur with this getValueFromHttp", fields)))
  }

  /** One string converted by the first rule that applies to the recorded type: custom, native, unmarshaler. */
  function Convert(j: Job, str: string, ptr: bool, ext: Outside): Result<Dyn, Abort>
  {
    var t := j.md.typ;
    if IsCustomType(t) then MakeCustomType(t, str, ptr, ext, ErrFields(j))
    else if IsNative(t) then MakeNative(t, str, ptr, ext, ErrFields(j))
    else if IsImplementingUnmarshaller(t) then MakeWithUnmarshaller(t, str, ext, ErrFields(j))
    else Failure(Raise(Critical("type is not native, unmarshaller or custom type", ErrFields(j))))
  }

  /** `types.IsImplementingUnmarshaller`, the name the setter calls `types.IsImplementingUnmarshaler` by. */
  predicate IsImplementingUnmarshaller(t: GoType)
  {
    IsImplementingUnmarshaler(t)
  }

  /** `reflect.Value.Set` on the field: a field that cannot be set panics, then so does a value not assignable to it. */
  function Assign(j: Job, d: Dyn): Outcome
  {
    if !j.canSet then Stop(Panic(UnexportedSet))
    else if AssignableTo(d.typ, j.fieldType) then Store(d.val)
    else Stop(Panic("reflect.Set: value not assignable"))
  }

  /** `setForNormalType`. */
  function SetNormal(j: Job, str: string, ptr: bool, ext: Outside): Outcome
  {
    match Convert(j, str, ptr, ext)
    case Success(d) => Assign(j, d)
    case Failure(a) => Stop(a)
  }

  /** The slice or array type the elements go into: the field's type, or what it points to; `None` makes `setForArrayOrSlice` panic. */
  function Container(fieldType: GoType, ptr: bool): (r: Option<GoType>)
    ensures r.Some? ==> r.value.SliceOf? || r.value.ArrayOf?
  {
    var c := if ptr && fieldType.Pointer? then fieldType.elem else fieldType;
    if c.SliceOf? || c.ArrayOf? then Some(c) else None
  }

  /** An element's error gains the element's position as `value-index`; a panic stays a panic. */
  function AtIndex(a: Abort, i: nat): Abort
  {
    match a
    case Raise(e) => Raise(WithField(e, "value-index", Num(i)))
    case Panic(_) => a
  }

  /** The element list before any string is converted: the zero array, or an empty slice. */
  function InitialElements(c: GoType): seq<Value>
    requires c.SliceOf? || c.ArrayOf?
  {
    if c.ArrayOf? then seq(c.length, _ => Zero(c.elem)) else []
  }

  /** The conversion `setForArrayOrSlice` applies to each string, boxing it when the elements are pointers. */
  function ElementConverter(j: Job, c: GoType, ext: Outside): string -> Result<Dyn, Abort>
    requires c.SliceOf? || c.ArrayOf?
  {
    str => Convert(j, str, c.elem.Pointer?, ext)
  }

  /**
   * `addToElem` for the string at position `i`: an indexed write into the
   * array (`Index` checks the position before `Set` checks the type), or
   * an append to the slice.
   */
  function AddElement(c: GoType, elems: seq<Value>, i: nat, d: Result<Dyn, Abort>): Result<seq<Value>, Abort>
    requires c.SliceOf? || c.ArrayOf?
  {
    match d
    case Failure(a) => Failure(AtIndex(a, i))
    case Success(x) =>
      if c.ArrayOf? && i >= |elems| then Failure(Panic("reflect: array index out of range"))
      else if !AssignableTo(x.typ, c.elem) then Failure(Panic("reflect.Set: value not assignable"))
      else if c.SliceOf? then Success(elems + [x.val])
      else Success(elems[i := x.val])
  }

  /** The elements after the first `n` strings of `list`, each converted by `conv`. */
  function Elements(c: GoType, list: seq<string>, n: nat, conv: string -> Result<Dyn, Abort>): Result<seq<Value>, Abort>
    requires c.SliceOf? || c.ArrayOf?
    requires n <= |list|
  {
    if n == 0 then Success(InitialElements(c))
    else
      match Elements(c, list, n - 1, conv)
      case Failure(a) => Failure(a)
      case Success(elems) => AddElement(c, elems, n - 1, conv(list[n - 1]))
  }

  /**
   * `setForArrayOrSlice`: the whole collection is replaced, behind a fresh
   * pointer when the field is one; the elements are built before the field
   * is written, so their errors come before the field's own panic.
   */
  function SetArrayOrSlice(j: Job, ptr: bool, list: seq<string>, ext: Outside): Outcome
  {
    match Container(j.fieldType, ptr)
    case None => Stop(Panic("reflect: Elem of invalid type"))
    case Some(c) =>
      match Elements(c, list, |list|, ElementConverter(j, c, ext))
      case Failure(a) => Stop(a)
      case Success(elems) =>
        if !j.canSet then Stop(Panic(UnexportedSet))
        else Store(if ptr then PtrV(ListV(elems)) else ListV(elems))
  }

  function StringOf(v: Value): string
  {
    if v.StringV? then v.s else ""
  }

  /** `string(b)` for a `[]byte`, one character per byte. */
  function CharOf(v: Value): char
  {
    if v.UintV? then (v.u % 256) as char else 0 as char
  }

  /** The value read as a list of strings: a `[]string`, a `string` or a `[]byte`; anything else is not. */
  function Strings(d: Dyn): (r: Option<seq<string>>)
    ensures d.typ == StringType ==> r == Some([StringOf(d.val)])
    ensures d.typ == StringSlice && d.val.ListV? ==> r.Some? && |r.value| == |d.val.elems|
    ensures r.Some? <==> d.typ in {StringType, StringSlice, ByteSlice}
  {
    if d.typ == StringSlice then
      Some(if d.val.ListV? then seq(|d.val.elems|, i requires 0 <= i < |d.val.elems| => StringOf(d.val.elems[i])) else [])
    else if d.typ == StringType then Some([StringOf(d.val)])
    else if d.typ == ByteSlice then
      Some([if d.val.ListV? then seq(|d.val.elems|, i requires 0 <= i < |d.val.elems| => CharOf(d.val.elems[i])) else ""])
    else None
  }

  /** `set`, with the test for direct assignment given as `direct`. */
  function SetWith(j: Job, direct: bool, ext: Outside): Outcome
  {
    if direct then Assign(j, j.value)
    else
      match Strings(j.value)
      case None => Stop(Raise(Critical("incompatible type", ErrFields(j))))
      case Some(list) =>
        if |list| == 0 then Keep
        else if j.md.arrayOrSlice then SetArrayOrSlice(j, j.fieldType.Pointer?, list, ext)
        else SetNormal(j, list[0], j.fieldType.Pointer?, ext)
  }

  /** `set` as written: it asks whether the field's type is assignable to the value's type. */
  function SetAsWritten(j: Job, ext: Outside): Outcome
  {
    SetWith(j, AssignableTo(j.fieldType, j.value.typ), ext)
  }

  /** `set` with the direct-assignment test the right way round: is the value assignable to the field. */
  function SetSpec(j: Job, ext: Outside): Outcome
  {
    SetWith(j, AssignableTo(j.value.typ, j.fieldType), ext)
  }

  /** The setter as a function of the job, as the decoders apply it to each field: the test as written. */
  function Setter(ext: Outside): Job -> Outcome
  {
    j => SetAsWritten(j, ext)
  }

  /** The element loop of `setForArrayOrSlice`, as the source runs it. */
  method BuildElements(c: GoType, list: seq<string>, conv: string -> Result<Dyn, Abort>) returns (r: Result<seq<Value>, Abort>)
    requires c.SliceOf? || c.ArrayOf?
    ensures r == Elements(c, list, |list|, conv)
  {
    var elems := InitialElements(c);
    var i := 0;
    while i < |list|
      invariant 0 <= i <= |list|
      invariant Elements(c, list, i, conv) == Success(elems)
    {
      var d := conv(list[i]);
      if d.Failure? {
        ElementsStop(c, list, i + 1, |list|, conv);
        return Failure(AtIndex(d.error, i));
      }
      if c.ArrayOf? && i >= |elems| {
        ElementsStop(c, list, i + 1, |list|, conv);
        return Failure(Panic("reflect: array index out of range"));
      }
      if !AssignableTo(d.value.typ, c.elem) {
        ElementsStop(c, list, i + 1, |list|, conv);
        return Failure(Panic("reflect.Set: value not assignable"));
      }
      if c.SliceOf? {
        elems := elems + [d.value.val];
      } else {
        elems := elems[i := d.value.val];
      }
      i := i + 1;
    }
    return Success(elems);
  }

  /** Once the element loop has stopped it stays stopped with the same abort. */
  lemma {:induction false} ElementsStop(c: GoType, list: seq<string>, k: nat, n: nat, conv: string -> Result<Dyn, Abort>)
    requires c.SliceOf? || c.ArrayOf?
    requires k <= n <= |list|
    requires Elements(c, list, k, conv).Failure?
    ensures Elements(c, list, n, conv) == Elements(c, list, k, conv)
    decreases n - k
  {
    if k < n {
      ElementsStop(c, list, k, n - 1, conv);
    }
  }

  /**
   * `newFieldSetter(field, ctx).set()` on the field at `loc` of the
   * destination, with the direct-assignment test as written: the field is
   * written only when the set produces a value; on an error or a panic it
   * is left as it was.
   */
  method Set(t: Target, loc: Loc, j: Job, ext: Outside) returns (stop: Option<Abort>)
    modifies t
    ensures SetAsWritten(j, ext).Store? ==> t.value == Put(old(t.value), loc, SetAsWritten(j, ext).v) && stop == None
    ensures SetAsWritten(j, ext).Keep? ==> t.value == old(t.value) && stop == None
    ensures SetAsWritten(j, ext).Stop? ==> t.value == old(t.value) && stop == Some(SetAsWritten(j, ext).abort)
  {
    var out: Outcome;
    if AssignableTo(j.fieldType, j.value.typ) {
      out := Assign(j, j.value);
    } else {
      var list := Strings(j.value);
      if list.None? {
        return Some(Raise(Critical("incompatible type", ErrFields(j))));
      }
      if |list.value| == 0 {
        return None;
      }
      var ptr := j.fieldType.Pointer?;
      if j.md.arrayOrSlice {
        var c := Container(j.fieldType, ptr);
        if c.None? {
          return Some(Panic("reflect: Elem of invalid type"));
        }
        var elems := BuildElements(c.value, list.value, ElementConverter(j, c.value, ext));
        if elems.Failure? {
          return Some(elems.error);
        }
        if !j.canSet {
          return Some(Panic(UnexportedSet));
        }
        out := Store(if ptr then PtrV(ListV(elems.value)) else ListV(elems.value));
      } else {
        out := SetNormal(j, list.value[0], ptr, ext);
      }
    }
    match out
    case Store(v) => t.Store(loc, v); stop := None;
    case Keep => stop := None;
    case Stop(a) => stop := Some(a);
  }
}
