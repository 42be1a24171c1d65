/**
 * What the field setter promises: how a list of strings reaches the field,
 * what each conversion accepts and produces, which interface an
 * unmarshaled value goes through, and how errors are labelled.
 */
module SetterProps {
  import opened Wrappers
  import opened GoTypes
  import opened Values
  import Strconv
  import opened Failures
  import opened Cache
  import opened FieldSetter

  /** Reading a boxed `[]string` back as a list gives the list. */
  lemma StringsRoundTrip(list: seq<string>)
    ensures Strings(StringsDyn(list)) == Some(list)
  {
    var d := StringsDyn(list);
    var r := Strings(d).value;
    assert |r| == |list|;
    forall i | 0 <= i < |list|
      ensures r[i] == list[i]
    {
      assert d.val.elems[i] == StringV(list[i]);
    }
    assert r == list;
  }

  /**
   * An empty `[]string` leaves a field that fails the direct test
   * untouched, and is not an error, even when the field cannot be set:
   * nothing is written, so nothing panics.
   */
  lemma EmptyListKeeps(j: Job, ext: Outside)
    requires j.value == StringsDyn([])
    requires !AssignableTo(j.fieldType, StringSlice)
    ensures SetAsWritten(j, ext) == Keep
  {
    StringsRoundTrip([]);
  }

  /** A value that fails the direct test and is not a `[]string`, `string` or `[]byte` is an `InputCritical` error. */
  lemma IncompatibleValue(j: Job, ext: Outside)
    requires !AssignableTo(j.fieldType, j.value.typ)
    requires j.value.typ !in {StringType, StringSlice, ByteSlice}
    ensures SetAsWritten(j, ext).Stop? && SetAsWritten(j, ext).abort.Raise?
    ensures var e := SetAsWritten(j, ext).abort.err;
      e.kind == InputCritical && e.message == "incompatible type" && e.cause == NoCause
      && "path" in e.fields && e.fields["path"] == Str(j.path) && "tag" in e.fields && e.fields["tag"] == Str(j.tag)
  {
  }

  /** With the test the right way round, a value assignable to the field is stored as it is, if the field can be set. */
  lemma DirectAssignment(j: Job, ext: Outside)
    requires AssignableTo(j.value.typ, j.fieldType)
    ensures SetSpec(j, ext) == if j.canSet then Store(j.value.val) else Stop(Panic(UnexportedSet))
  {
  }

  /**
   * The two tests differ only where an interface type is involved: for a
   * field and a dynamic type that are not interfaces, the setter as
   * written and the corrected one do the same thing.
   */
  lemma SettersAgree(j: Job, ext: Outside)
    requires !IsInterface(j.fieldType) && !IsInterface(j.value.typ)
    ensures SetAsWritten(j, ext) == SetSpec(j, ext)
  {
    assert AssignableTo(j.fieldType, j.value.typ) <==> AssignableTo(j.value.typ, j.fieldType);
  }

  /**
   * A field that cannot be set, because it was reached through an
   * unexported field, is never written: a value meant for it makes
   * `reflect.Value.Set` panic, unless the set stops earlier.
   */
  lemma UnsettableNeverWritten(j: Job, ext: Outside)
    requires !j.canSet
    ensures !SetAsWritten(j, ext).Store? && !SetSpec(j, ext).Store?
    ensures AssignableTo(j.fieldType, j.value.typ) ==> SetAsWritten(j, ext) == Stop(Panic(UnexportedSet))
  {
  }

  /**
   * The direct-assignment test as written asks the question the wrong way
   * round, but whenever it says yes for a dynamic type (never an interface)
   * the assignment it then makes is also allowed, so it does not panic.
   */
  lemma ReversedTestNeverPanics(fieldType: GoType, v: GoType)
    requires !IsInterface(v)
    requires AssignableTo(fieldType, v)
    ensures AssignableTo(v, fieldType)
  {
  }

  /**
   * The test as written refuses a `string` for a field of type
   * `interface{}`: the string then goes through the conversion rules, which
   * have nothing for an interface, and the set fails. With the test the
   * right way round the string is stored.
   */
  lemma ReversedTestRefusesInterface(j: Job, ext: Outside)
    requires j.fieldType == Basic(Interface, Unnamed, NoMethods) && j.md.typ == j.fieldType
    requires j.canSet && !j.md.arrayOrSlice && j.value == StringDyn("x")
    ensures SetAsWritten(j, ext).Stop? && SetAsWritten(j, ext).abort.Raise?
    ensures SetAsWritten(j, ext).abort.err.message == "type is not native, unmarshaller or custom type"
    ensures SetSpec(j, ext) == Store(StringV("x"))
  {
    NoRuleForInterface(j, "x", false, ext);
    assert !AssignableTo(j.fieldType, StringType);
    assert Strings(j.value) == Some(["x"]);
    DirectAssignment(j, ext);
  }

  /** No conversion rule applies to an interface type: the set fails with an `InputCritical` error. */
  lemma NoRuleForInterface(j: Job, str: string, ptr: bool, ext: Outside)
    requires IsInterface(j.md.typ)
    ensures Convert(j, str, ptr, ext) == Failure(Raise(Critical("type is not native, unmarshaller or custom type", ErrFields(j))))
  {
    CustomTypeSpec(j.md.typ);
    ImplementingUnmarshalerSpec(j.md.typ);
    assert !IsCustomType(j.md.typ) && !IsNative(j.md.typ) && !IsImplementingUnmarshaller(j.md.typ);
  }

  /** For a field that is not a slice or array, only the first string counts. */
  lemma FirstStringOnly(j: Job, list: seq<string>, ext: Outside)
    requires !j.md.arrayOrSlice && |list| > 0
    requires !AssignableTo(j.fieldType, StringSlice)
    ensures SetAsWritten(j.(value := StringsDyn(list)), ext) == SetAsWritten(j.(value := StringsDyn([list[0]])), ext)
  {
    var j1 := j.(value := StringsDyn(list));
    var j2 := j.(value := StringsDyn([list[0]]));
    var ptr := j.fieldType.Pointer?;
    StringsRoundTrip(list);
    StringsRoundTrip([list[0]]);
    assert SetAsWritten(j1, ext) == SetNormal(j1, list[0], ptr, ext);
    assert SetAsWritten(j2, ext) == SetNormal(j2, list[0], ptr, ext);
    assert ErrFields(j1) == ErrFields(j2);
    assert Convert(j1, list[0], ptr, ext) == Convert(j2, list[0], ptr, ext);
  }

  /** Every one of the first `n` strings converts to a value the element type accepts. */
  predicate Converts(c: GoType, list: seq<string>, n: nat, conv: string -> Result<Dyn, Abort>)
    requires c.SliceOf? || c.ArrayOf?
    requires n <= |list|
  {
    forall k :: 0 <= k < n ==> conv(list[k]).Success? && AssignableTo(conv(list[k]).value.typ, c.elem)
  }

  /**
   * A slice is rebuilt with exactly one element per string, in input
   * order, when every string converts to a value the element type accepts.
   */
  lemma {:induction false} SliceElements(c: GoType, list: seq<string>, n: nat, conv: string -> Result<Dyn, Abort>)
    requires c.SliceOf? && n <= |list|
    requires Converts(c, list, n, conv)
    ensures Elements(c, list, n, conv).Success?
    ensures var es := Elements(c, list, n, conv).value;
      |es| == n && forall k :: 0 <= k < n ==> es[k] == conv(list[k]).value.val
  {
    if n > 0 {
      assert Converts(c, list, n - 1, conv);
      SliceElements(c, list, n - 1, conv);
    }
  }

  /**
   * When every string converts, an array is filled from index 0 in input
   * order and keeps zero values after the last string; more strings than
   * the array's length make the indexed write panic.
   */
  lemma {:induction false} ArrayElements(c: GoType, list: seq<string>, n: nat, conv: string -> Result<Dyn, Abort>)
    requires c.ArrayOf? && n <= |list|
    requires Converts(c, list, n, conv)
    ensures Elements(c, list, n, conv).Success? <==> n <= c.length
    ensures n <= c.length ==>
      var es := Elements(c, list, n, conv).value;
      && |es| == c.length
      && (forall k :: 0 <= k < n ==> es[k] == conv(list[k]).value.val)
      && (forall k :: n <= k < c.length ==> es[k] == Zero(c.elem))
    ensures n > c.length ==> Elements(c, list, n, conv).error == Panic("reflect: array index out of range")
  {
    if n > 0 {
      assert Converts(c, list, n - 1, conv);
      ArrayElements(c, list, n - 1, conv);
    }
  }

  /**
   * A string past the end of the array panics with "array index out of
   * range" whatever type it converts to: `Index` is checked before `Set`
   * looks at the element's type.
   */
  lemma ArrayIndexFirst(c: GoType, list: seq<string>, n: nat, conv: string -> Result<Dyn, Abort>)
    requires c.ArrayOf? && c.length < n <= |list|
    requires Converts(c, list, c.length, conv)
    requires conv(list[c.length]).Success?
    ensures Elements(c, list, n, conv) == Failure(Panic("reflect: array index out of range"))
  {
    ArrayElements(c, list, c.length, conv);
    assert Elements(c, list, c.length + 1, conv) == Failure(Panic("reflect: array index out of range"));
    ElementsStop(c, list, c.length + 1, n, conv);
  }

  /** The element loop fails as soon as one string does not convert, or converts to a value the element type refuses. */
  lemma {:induction false} ElementsFail(c: GoType, list: seq<string>, n: nat, conv: string -> Result<Dyn, Abort>)
    requires (c.SliceOf? || c.ArrayOf?) && n <= |list|
    requires !Converts(c, list, n, conv)
    ensures Elements(c, list, n, conv).Failure?
  {
    if Converts(c, list, n - 1, conv) {
      if c.ArrayOf? {
        ArrayElements(c, list, n - 1, conv);
      } else {
        SliceElements(c, list, n - 1, conv);
      }
    } else {
      ElementsFail(c, list, n - 1, conv);
    }
  }

  /** An element's error names, as `value-index`, the position of the string that failed to convert. */
  lemma {:induction false} ElementErrorIndex(c: GoType, list: seq<string>, n: nat, conv: string -> Result<Dyn, Abort>)
    requires (c.SliceOf? || c.ArrayOf?) && n <= |list|
    requires Elements(c, list, n, conv).Failure? && Elements(c, list, n, conv).error.Raise?
    ensures exists k :: (0 <= k < n && conv(list[k]).Failure?
      && Elements(c, list, n, conv).error == AtIndex(conv(list[k]).error, k))
    ensures var e := Elements(c, list, n, conv).error.err;
      "value-index" in e.fields && e.fields["value-index"].Num? && 0 <= e.fields["value-index"].n < n
  {
    if Elements(c, list, n - 1, conv).Failure? {
      ElementErrorIndex(c, list, n - 1, conv);
    } else {
      var k := n - 1;
      assert conv(list[k]).Failure?;
    }
  }

  /**
   * A slice field given a list of strings that all convert ends holding
   * exactly those values, in order, behind a fresh pointer when the field
   * is a pointer; a field that cannot be set panics once the elements are
   * built.
   */
  lemma SliceField(j: Job, list: seq<string>, ext: Outside)
    requires j.md.arrayOrSlice && |list| > 0 && j.value == StringsDyn(list)
    requires !AssignableTo(j.fieldType, StringSlice)
    requires Container(j.fieldType, j.fieldType.Pointer?).Some?
    requires Container(j.fieldType, j.fieldType.Pointer?).value.SliceOf?
    requires var c := Container(j.fieldType, j.fieldType.Pointer?).value;
      Converts(c, list, |list|, ElementConverter(j, c, ext))
    ensures SetAsWritten(j, ext).Store? <==> j.canSet
    ensures !j.canSet ==> SetAsWritten(j, ext) == Stop(Panic(UnexportedSet))
    ensures j.canSet ==>
      var v := SetAsWritten(j, ext).v;
      var c := Container(j.fieldType, j.fieldType.Pointer?).value;
      && v.PtrV? == j.fieldType.Pointer?
      && Deref(v).ListV? && |Deref(v).elems| == |list|
      && forall k :: 0 <= k < |list| ==> Deref(v).elems[k] == Convert(j, list[k], c.elem.Pointer?, ext).value.val
  {
    StringsRoundTrip(list);
    var c := Container(j.fieldType, j.fieldType.Pointer?).value;
    var conv := ElementConverter(j, c, ext);
    SliceElements(c, list, |list|, conv);
    assert SetAsWritten(j, ext) == SetArrayOrSlice(j, j.fieldType.Pointer?, list, ext);
    var es := Elements(c, list, |list|, conv).value;
    assert SetArrayOrSlice(j, j.fieldType.Pointer?, list, ext)
      == if !j.canSet then Stop(Panic(UnexportedSet))
         else Store(if j.fieldType.Pointer? then PtrV(ListV(es)) else ListV(es));
  }

  /**
   * A signed integer field takes the string exactly when `strconv.ParseInt`
   * accepts it in base 10 at the field's bit width; the value is in the
   * signed range of that width, and a rejection is an `Input` error
   * "invalid integer" wrapping the parser's error.
   */
  lemma IntConversion(j: Job, str: string, ptr: bool, ext: Outside)
    requires IsIntKind(KindOf(j.md.typ)) && !IsCustomType(j.md.typ)
    ensures var b := Bits(KindOf(j.md.typ));
      var p := Strconv.ParseInt(str, b);
      var r := Convert(j, str, ptr, ext);
      && (r.Success? <==> p.Success?)
      && (r.Success? ==> r.value == Boxed(j.md.typ, IntV(p.value), ptr)
                         && -(Strconv.Pow2(b - 1) as int) <= p.value < Strconv.Pow2(b - 1))
      && (r.Failure? ==> r.error.Raise? && r.error.err.kind == Input && r.error.err.message == "invalid integer"
                         && r.error.err.cause == ParseFailure("ParseInt", str, p.error))
  {
    var k := KindOf(j.md.typ);
    IntKindNotString(k);
    assert IsNative(j.md.typ);
    assert Convert(j, str, ptr, ext) == MakeNative(j.md.typ, str, ptr, ext, ErrFields(j));
  }

  /**
   * An unsigned integer field takes the string exactly when
   * `strconv.ParseUint` accepts it at the field's bit width; a rejection is
   * an `Input` error "invalid positive integer".
   */
  lemma UintConversion(j: Job, str: string, ptr: bool, ext: Outside)
    requires IsUintKind(KindOf(j.md.typ)) && !IsCustomType(j.md.typ)
    ensures var b := Bits(KindOf(j.md.typ));
      var p := Strconv.ParseUint(str, b);
      var r := Convert(j, str, ptr, ext);
      && (r.Success? <==> p.Success?)
      && (r.Success? ==> r.value == Boxed(j.md.typ, UintV(p.value), ptr) && p.value < Strconv.Pow2(b))
      && (r.Failure? ==> r.error.Raise? && r.error.err.kind == Input && r.error.err.message == "invalid positive integer"
                         && r.error.err.cause == ParseFailure("ParseUint", str, p.error))
  {
    var k := KindOf(j.md.typ);
    UintKindNotInt(k);
    assert IsNative(j.md.typ);
    assert Convert(j, str, ptr, ext) == MakeNative(j.md.typ, str, ptr, ext, ErrFields(j));
  }

  /** A boolean field accepts exactly the spellings `strconv.ParseBool` knows; anything else is "invalid boolean". */
  lemma BoolConversion(j: Job, str: string, ptr: bool, ext: Outside)
    requires KindOf(j.md.typ) == Bool && !IsCustomType(j.md.typ)
    ensures var r := Convert(j, str, ptr, ext);
      && (r.Success? <==> str in {"1", "t", "T", "TRUE", "true", "True", "0", "f", "F", "FALSE", "false", "False"})
      && (r.Success? ==> r.value == Boxed(j.md.typ, BoolV(str in {"1", "t", "T", "TRUE", "true", "True"}), ptr))
      && (r.Failure? ==> r.error.Raise? && r.error.err.kind == Input && r.error.err.message == "invalid boolean")
  {
  }

  /** A string field receives the raw string, unchanged. */
  lemma StringConversion(j: Job, str: string, ptr: bool, ext: Outside)
    requires KindOf(j.md.typ) == String && !IsCustomType(j.md.typ)
    ensures Convert(j, str, ptr, ext) == Success(Boxed(j.md.typ, StringV(str), ptr))
  {
  }

  /**
   * A duration field is parsed by the duration parser, not as the 64-bit
   * integer it is underneath: the custom rule comes before the native one.
   */
  lemma DurationConversion(j: Job, str: string, ptr: bool, ext: Outside)
    requires j.md.typ == Duration
    ensures var d := ext.parseDuration(str);
      var r := Convert(j, str, ptr, ext);
      && (r.Success? <==> d.Success?)
      && (r.Success? ==> r.value == Boxed(Duration, IntV(d.value), ptr))
      && (r.Failure? ==> r.error.Raise? && r.error.err.kind == Input
                         && r.error.err.message == "unable to parse duration (format: 1ms, 1s, 3h3s)")
  {
    CustomTypeSpec(Duration);
  }

  /** The unmarshal method used is the first of text, JSON, binary that the pointer type has. */
  lemma FirstImplementedOrder(p: GoType)
    ensures Implements(p, TextUnmarshaler) ==> FirstImplemented(p, 0) == Some(TextUnmarshaler)
    ensures !Implements(p, TextUnmarshaler) && Implements(p, JSONUnmarshaler) ==>
      FirstImplemented(p, 0) == Some(JSONUnmarshaler)
    ensures !Implements(p, TextUnmarshaler) && !Implements(p, JSONUnmarshaler) && Implements(p, BinaryUnmarshaler) ==>
      FirstImplemented(p, 0) == Some(BinaryUnmarshaler)
    ensures FirstImplemented(p, 0).None? <==> MethodSet(p) == {}
  {
    if MethodSet(p) != {} {
      var u :| u in MethodSet(p);
      assert u == UnmarshalOrder[0] || u == UnmarshalOrder[1] || u == UnmarshalOrder[2];
    }
  }

  /**
   * A type that is neither custom nor native but implements an
   * unmarshaler is filled through a fresh pointer by the first unmarshal
   * method in order; the result is that pointer.
   */
  lemma UnmarshalerConversion(j: Job, str: string, ptr: bool, ext: Outside)
    requires !IsCustomType(j.md.typ) && !IsNative(j.md.typ) && IsImplementingUnmarshaler(j.md.typ)
    requires !j.md.typ.Pointer?
    ensures FirstImplemented(Pointer(j.md.typ), 0).Some?
    ensures var u := FirstImplemented(Pointer(j.md.typ), 0).value;
      var m := ext.unmarshal(u, j.md.typ, str);
      var r := Convert(j, str, ptr, ext);
      && (r.Success? <==> m.Success?)
      && (r.Success? ==> r.value == Dyn(Pointer(j.md.typ), PtrV(m.value)))
      && (r.Failure? ==> r.error.Raise? && r.error.err.kind == Input && r.error.err.message == UnmarshalMessage(u))
  {
    FirstImplementedOrder(Pointer(j.md.typ));
  }

  /**
   * The unmarshaler result is always a pointer, so a field of the
   * unmarshaled type itself (not a pointer to it) makes the assignment
   * panic, while a pointer field receives the fresh pointer.
   */
  lemma UnmarshalerIntoField(j: Job, str: string, ext: Outside)
    requires !IsCustomType(j.md.typ) && !IsNative(j.md.typ) && IsImplementingUnmarshaler(j.md.typ)
    requires !j.md.typ.Pointer? && !j.md.arrayOrSlice
    requires j.value == StringDyn(str) && (j.fieldType == j.md.typ || j.fieldType == Pointer(j.md.typ))
    requires ext.unmarshal(FirstImplemented(Pointer(j.md.typ), 0).value, j.md.typ, str).Success?
    ensures j.fieldType == j.md.typ ==> SetAsWritten(j, ext).Stop? && SetAsWritten(j, ext).abort.Panic?
    ensures j.fieldType == Pointer(j.md.typ) ==>
      SetAsWritten(j, ext) == if j.canSet then Store(PtrV(ext.unmarshal(FirstImplemented(Pointer(j.md.typ), 0).value, j.md.typ, str).value))
                              else Stop(Panic(UnexportedSet))
  {
    var ptr := j.fieldType.Pointer?;
    UnmarshalerConversion(j, str, ptr, ext);
    ImplementingUnmarshalerSpec(j.md.typ);
    assert !AssignableTo(j.fieldType, StringType) by {
      assert KindOf(j.fieldType) != String;
    }
    assert Strings(j.value) == Some([str]);
    assert SetAsWritten(j, ext) == SetNormal(j, str, ptr, ext);
  }
}
