/**
 * What the legacy binders promise: the conversions of `bindStringValue`,
 * the cardinality and array-length rules, a slice rebuilt in order, an
 * array written index by index, the order in which extractors and the
 * default tag are consulted, embedded pointers allocated before they are
 * entered, and a bind that writes nothing outside the struct it binds.
 */
module BindProps {
  import opened Wrappers
  import opened GoTypes
  import opened Values
  import Strconv
  import opened BindCore
  import Cache
  import Decoder
  import DecoderProps
  import Binding
  import KcdBinding

  // ---------------------------------------------------------------- bindStringValue

  /** A signed integer survives rendering in base 10 and binding, within the field's width. */
  lemma IntRoundTrip(i: int, t: GoType, ext: Foreign)
    requires IsIntKind(KindOf(t)) && !Implements(Pointer(t), TextUnmarshaler)
    requires -(Strconv.Pow2(Bits(KindOf(t)) - 1) as int) <= i < Strconv.Pow2(Bits(KindOf(t)) - 1)
    ensures BindStringValue(Strconv.FormatInt(i), t, true, ext) == Success(IntV(i))
  {
    var k := KindOf(t);
    var s := Strconv.FormatInt(i);
    Strconv.ParseIntFormat(i, Bits(k));
    IntKindNotString(k);
    assert KindSwitch(t, s, ext) == Success(IntV(i));
    assert DurationStep(t, s, ext) == None;
  }

  /** An unsigned integer survives rendering in base 10 and binding, within the field's width. */
  lemma UintRoundTrip(n: nat, t: GoType, ext: Foreign)
    requires IsUintKind(KindOf(t)) && !Implements(Pointer(t), TextUnmarshaler)
    requires n < Strconv.Pow2(Bits(KindOf(t)))
    ensures BindStringValue(Strconv.FormatUint(n), t, true, ext) == Success(UintV(n))
  {
    UintSwitch(n, t, ext);
    assert DurationStep(t, Strconv.FormatUint(n), ext) == None;
  }

  /** The kind switch parses a rendered unsigned integer back, within the field's width. */
  lemma UintSwitch(n: nat, t: GoType, ext: Foreign)
    requires IsUintKind(KindOf(t))
    requires n < Strconv.Pow2(Bits(KindOf(t)))
    ensures KindSwitch(t, Strconv.FormatUint(n), ext) == Success(UintV(n))
  {
    Strconv.ParseUintFormat(n, Bits(KindOf(t)));
    UintParsed(t, Strconv.FormatUint(n), n, ext);
  }

  /** On an unsigned kind, the kind switch yields what `ParseUint` yields at the kind's width. */
  lemma UintParsed(t: GoType, s: string, n: nat, ext: Foreign)
    requires IsUintKind(KindOf(t))
    requires Strconv.ParseUint(s, Bits(KindOf(t))) == Success(n)
    ensures KindSwitch(t, s, ext) == Success(UintV(n))
  {
    UintKindNotInt(KindOf(t));
  }

  /** A string field receives the string unchanged, and a boolean field the canonical spellings. */
  lemma StringAndBool(s: string, b: bool, ts: GoType, tb: GoType, ext: Foreign)
    requires KindOf(ts) == String && !Implements(Pointer(ts), TextUnmarshaler)
    requires KindOf(tb) == Bool && !Implements(Pointer(tb), TextUnmarshaler)
    ensures BindStringValue(s, ts, true, ext) == Success(StringV(s))
    ensures BindStringValue(if b then "true" else "false", tb, true, ext) == Success(BoolV(b))
  {
    Strconv.ParseBoolFormat(b);
  }

  /**
   * The duration branch never fires: it tests the `*T` that `reflect.New`
   * returned, never a `time.Duration` itself. A duration field is parsed
   * as a plain integer, so a duration written with its unit is refused.
   */
  lemma DurationParsedAsInteger(s: string, ext: Foreign)
    ensures forall t :: DurationStep(t, s, ext) == None
    ensures BindStringValue(s, Duration, true, ext) == KindSwitch(Duration, s, ext)
    ensures BindStringValue("1s", Duration, true, ext).Failure?
  {
    assert !Implements(Pointer(Duration), TextUnmarshaler);
    var body := "1s";
    assert !Strconv.IsDigit(body[1]);
    Strconv.ScanNonDigit(body, 0, 0, Strconv.Pow2(64) - 1);
  }

  // ---------------------------------------------------------------- one field

  /** Every string converts to the element type. */
  predicate AllConvert(ext: Foreign, elem: GoType, values: seq<string>)
  {
    forall i :: 0 <= i < |values| ==> BindStringValue(values[i], elem, true, ext).Success?
  }

  /** The converted strings, in order. */
  function Converted(ext: Foreign, elem: GoType, values: seq<string>): (xs: seq<Value>)
    requires AllConvert(ext, elem, values)
    ensures |xs| == |values|
    ensures forall i :: 0 <= i < |values| ==> BindStringValue(values[i], elem, true, ext) == Success(xs[i])
  {
    seq(|values|, i requires 0 <= i < |values| => BindStringValue(values[i], elem, true, ext).value)
  }

  lemma {:induction false} SliceElems(ext: Foreign, slot: GoType, canSet: bool, values: seq<string>, e: InputError, n: nat)
    requires slot.SliceOf? && n <= |values| && AllConvert(ext, slot.elem, values)
    ensures FillElems(ext, slot, canSet, values, e, [], n) == Filling(Converted(ext, slot.elem, values)[..n], None)
  {
    if n > 0 {
      SliceElems(ext, slot, canSet, values, e, n - 1);
      var xs := Converted(ext, slot.elem, values);
      assert xs[..n] == xs[..n - 1] + [xs[n - 1]];
    }
  }

  lemma {:induction false} ArrayElems(ext: Foreign, slot: GoType, values: seq<string>, e: InputError, start: seq<Value>, n: nat)
    requires slot.ArrayOf? && n <= |values| == |start| && AllConvert(ext, slot.elem, values)
    ensures FillElems(ext, slot, true, values, e, start, n) == Filling(Converted(ext, slot.elem, values)[..n] + start[n..], None)
  {
    if n > 0 {
      ArrayElems(ext, slot, values, e, start, n - 1);
      var xs := Converted(ext, slot.elem, values);
      var before := xs[..n - 1] + start[n - 1..];
      FillElemsNext(ext, slot, true, values, e, start, n);
      ArrayStep(ext, slot, values, e, before, n - 1, xs[n - 1]);
      assert before[n - 1 := xs[n - 1]] == xs[..n] + start[n..];
    }
  }

  /** An element that converts is set at its index of the array. */
  lemma ArrayStep(ext: Foreign, slot: GoType, values: seq<string>, e: InputError, elems: seq<Value>, i: nat, x: Value)
    requires slot.ArrayOf? && i < |values| && i < |elems|
    requires BindStringValue(values[i], slot.elem, true, ext) == Success(x)
    ensures FillStep(ext, slot, true, values, e, elems, i) == Filling(elems[i := x], None)
  {
  }

  /** A field gets a fresh pointer to a zero value if it is a nil pointer; nothing else changes. */
  lemma AllocateSpec(ft: GoType, at: Loc, value: Value)
    requires Get(value, at).Some?
    ensures var r := Allocate(ft, at, true, value);
      r.Success? && Get(r.value, at).Some? &&
      (ft.Pointer? && Get(value, at) == Some(NilV) ==> Get(r.value, at) == Some(PtrV(Zero(ft.elem)))) &&
      (!(ft.Pointer? && Get(value, at) == Some(NilV)) ==> r.value == value)
  {
    if ft.Pointer? && Get(value, at) == Some(NilV) {
      GetPut(value, at, PtrV(Zero(ft.elem)));
    }
  }

  /** More than one string for a field that is neither a slice nor an array is refused, and nothing is written. */
  lemma MultipleValuesRefused(ext: Foreign, ft: GoType, at: Loc, canSet: bool, values: seq<string>, e: InputError, value: Value)
    requires |values| > 1 && !DerefType(ft).SliceOf? && !DerefType(ft).ArrayOf?
    requires !ft.Pointer? || Get(value, at) != Some(NilV)
    ensures Fill(ext, ft, at, canSet, values, e, value)
      == Bound(value, Some(Refuse(e.(message := Fixed("multiple values not supported")))))
  {
  }

  /**
   * An array field must receive exactly its length in strings; otherwise
   * the bind is refused before any element is written (a nil pointer to
   * the array is still allocated first).
   */
  lemma ArrayCountChecked(ext: Foreign, ft: GoType, at: Loc, canSet: bool, values: seq<string>, e: InputError, value: Value)
    requires |values| > 0 && DerefType(ft).ArrayOf? && DerefType(ft).length != |values|
    requires Allocate(ft, at, canSet, value).Success?
    ensures var r := Fill(ext, ft, at, canSet, values, e, value);
      r.value == Allocate(ft, at, canSet, value).value &&
      r.stop == Some(Refuse(e.(message := ExpectCount(DerefType(ft).length, |values|))))
  {
  }

  /** A slice field ends up holding exactly the converted strings, in order. */
  lemma SliceRebuilt(ext: Foreign, ft: GoType, at: Loc, values: seq<string>, e: InputError, value: Value)
    requires |values| > 0 && DerefType(ft).SliceOf? && Get(value, at).Some?
    requires AllConvert(ext, DerefType(ft).elem, values)
    ensures var r := Fill(ext, ft, at, true, values, e, value);
      r.stop == None && Get(r.value, at) == Some(Box(ft, ListV(Converted(ext, DerefType(ft).elem, values))))
  {
    var slot := DerefType(ft);
    AllocateSpec(ft, at, value);
    var v1 := Allocate(ft, at, true, value).value;
    SliceElems(ext, slot, true, values, e, |values|);
    var xs := Converted(ext, slot.elem, values);
    assert xs[..|values|] == xs;
    GetPut(v1, at, Box(ft, ListV(xs)));
  }

  /** An array field receiving its length in strings holds the converted strings, each at its index. */
  lemma ArrayFilled(ext: Foreign, ft: GoType, at: Loc, values: seq<string>, e: InputError, value: Value, held: seq<Value>)
    requires |values| > 0 && DerefType(ft).ArrayOf? && DerefType(ft).length == |values|
    requires (ft.Pointer? && Get(value, at) == Some(NilV)) || (Get(value, at) == Some(Box(ft, ListV(held))) && |held| == |values|)
    requires AllConvert(ext, DerefType(ft).elem, values)
    ensures var r := Fill(ext, ft, at, true, values, e, value);
      r.stop == None && Get(r.value, at) == Some(Box(ft, ListV(Converted(ext, DerefType(ft).elem, values))))
  {
    var slot := DerefType(ft);
    AllocateSpec(ft, at, value);
    var v1 := Allocate(ft, at, true, value).value;
    var cur := Get(v1, at);
    if ft.Pointer? && Get(value, at) == Some(NilV) {
      var z := Zero(slot);
      assert z == ListV(seq(slot.length, _ => Zero(slot.elem)));
      assert cur == Some(PtrV(z));
    } else {
      assert cur == Some(Box(ft, ListV(held)));
    }
    assert ArrayHeld(cur, ft);
    var start := Deref(cur.value).elems;
    assert |start| == |values|;
    ArrayElems(ext, slot, values, e, start, |values|);
    var xs := Converted(ext, slot.elem, values);
    assert xs[..|values|] + start[|values|..] == xs;
    GetPut(v1, at, Box(ft, ListV(xs)));
  }

  /** Any other field gets its one string converted, written through a pointer that is allocated first if nil. */
  lemma SingleValueSet(ext: Foreign, ft: GoType, at: Loc, s: string, e: InputError, value: Value, x: Value)
    requires !DerefType(ft).SliceOf? && !DerefType(ft).ArrayOf? && Get(value, at).Some?
    requires BindStringValue(s, DerefType(ft), true, ext) == Success(x)
    ensures var r := Fill(ext, ft, at, true, [s], e, value);
      r.stop == None && Get(r.value, at) == Some(Box(ft, x))
  {
    AllocateSpec(ft, at, value);
    GetPut(Allocate(ft, at, true, value).value, at, Box(ft, x));
  }

  /** Filling a field writes nothing apart from it. */
  lemma FillFrame(ext: Foreign, ft: GoType, at: Loc, canSet: bool, values: seq<string>, e: InputError, value: Value, other: Loc)
    requires |values| > 0 && DecoderProps.Apart(at, other)
    ensures Get(Fill(ext, ft, at, canSet, values, e, value).value, other) == Get(value, other)
  {
    var a := Allocate(ft, at, canSet, value);
    if a.Success? {
      if ft.Pointer? && Get(value, at) == Some(NilV) {
        GetPutOther(value, at, other, PtrV(Zero(ft.elem)));
      }
      var v1 := a.value;
      var r := Fill(ext, ft, at, canSet, values, e, value);
      if r.value != v1 {
        var x :| r.value == Put(v1, at, x);
        GetPutOther(v1, at, other, x);
      }
    }
  }

  // ---------------------------------------------------------------- binding.go

  /** An extractor that has nothing for the field: the field lacks its tag, or it finds no strings. */
  predicate Quiet(x: Decoder.StringsExtractor, tags: map<string, string>)
  {
    Cache.TagGet(tags, x.tag) == "" || x.extract(Cache.TagGet(tags, x.tag)) == Success([])
  }

  /** `extractValue` finds no strings exactly when every extractor is quiet for the field. */
  lemma {:induction false} ExtractNothing(sx: seq<Decoder.StringsExtractor>, tags: map<string, string>, e: InputError)
    ensures (Binding.ExtractFrom(sx, tags, e).Success? && Binding.ExtractFrom(sx, tags, e).value.values == [])
      <==> forall j :: 0 <= j < |sx| ==> Quiet(sx[j], tags)
  {
    if |sx| > 0 {
      var tv := Cache.TagGet(tags, sx[0].tag);
      var e' := if tv == "" then e else e.(field := tv, extractor := sx[0].tag);
      ExtractNothing(sx[1..], tags, e');
      assert forall j :: 1 <= j < |sx| ==> sx[j] == sx[1..][j - 1];
    }
  }

  /** The error `extractValue` returns when extractor `x` fails on the tag's value `tv`. */
  predicate Wrapped(x: Decoder.StringsExtractor, tv: string, e: InputError, err: InputError)
  {
    x.extract(tv).Failure? &&
    err == InputError(Fixed("unable to extract value from request"), e.fieldType, tv, x.tag, Some(Extraction(x.extract(tv).error)))
  }

  /**
   * Extractor `k` is the first that is not quiet for the field, and `r`
   * is what it made of `extractValue`: its strings, with the binding error
   * naming it and the tag's value, or its error wrapped.
   */
  predicate Voice(sx: seq<Decoder.StringsExtractor>, tags: map<string, string>, e: InputError,
                  r: Result<Binding.Extracted, InputError>, k: nat)
    requires k < |sx|
  {
    var tv := Cache.TagGet(tags, sx[k].tag);
    && (forall j :: 0 <= j < k ==> Quiet(sx[j], tags))
    && tv != ""
    && (r.Success? ==> sx[k].extract(tv) == Success(r.value.values) && r.value.e == e.(field := tv, extractor := sx[k].tag))
    && (r.Failure? ==> Wrapped(sx[k], tv, e, r.error))
  }

  /** Whatever `extractValue` returns, strings or an error, comes from the first extractor that is not quiet. */
  lemma {:induction false} ExtractFirstVoice(sx: seq<Decoder.StringsExtractor>, tags: map<string, string>, e: InputError)
    requires Binding.ExtractFrom(sx, tags, e).Failure? || |Binding.ExtractFrom(sx, tags, e).value.values| > 0
    ensures exists k :: 0 <= k < |sx| && Voice(sx, tags, e, Binding.ExtractFrom(sx, tags, e), k)
  {
    var tv := Cache.TagGet(tags, sx[0].tag);
    var r := Binding.ExtractFrom(sx, tags, e);
    if tv != "" && (sx[0].extract(tv).Failure? || |sx[0].extract(tv).value| > 0) {
      assert Voice(sx, tags, e, r, 0);
    } else {
      var e' := if tv == "" then e else e.(field := tv, extractor := sx[0].tag);
      assert r == Binding.ExtractFrom(sx[1..], tags, e');
      ExtractFirstVoice(sx[1..], tags, e');
      var k :| 0 <= k < |sx[1..]| && Voice(sx[1..], tags, e', r, k);
      assert Quiet(sx[0], tags);
      assert forall j :: 0 <= j < k + 1 ==> Quiet(sx[j], tags) by {
        forall j | 0 <= j < k + 1 ensures Quiet(sx[j], tags) {
          if j > 0 { assert sx[j] == sx[1..][j - 1]; }
        }
      }
      assert sx[k + 1] == sx[1..][k];
      assert Voice(sx, tags, e, r, k + 1);
    }
  }

  /** A plain field with no strings from any extractor and no default tag is left alone. */
  lemma FieldWithoutValue(b: Binding.Binder, st: GoType, k: nat, value: Value, loc: Loc, ro: bool)
    requires st.StructOf? && k < |st.fields|
    requires !st.fields[k].anonymous && KindOf(st.fields[k].typ) != Struct && "default" !in st.fields[k].tag
    requires forall j :: 0 <= j < |b.sx| ==> Quiet(b.sx[j], st.fields[k].tag)
    ensures Binding.BindField(b, st, k, value, loc, ro) == Bound(value, None)
  {
    ExtractNothing(b.sx, st.fields[k].tag, InputError(Fixed(""), st, Binding.NameOf(st), "", None));
  }

  /** A plain field with no strings from any extractor is bound with its default tag, as the only string. */
  lemma DefaultWhenQuiet(b: Binding.Binder, st: GoType, k: nat, value: Value, loc: Loc, ro: bool)
    requires st.StructOf? && k < |st.fields|
    requires !st.fields[k].anonymous && KindOf(st.fields[k].typ) != Struct && "default" in st.fields[k].tag
    requires forall j :: 0 <= j < |b.sx| ==> Quiet(b.sx[j], st.fields[k].tag)
    ensures exists e :: (Binding.BindField(b, st, k, value, loc, ro)
      == Fill(b.ext, st.fields[k].typ, loc + [k], Binding.Settable(st.fields[k], ro), [st.fields[k].tag["default"]], e, value))
  {
    var f := st.fields[k];
    var e0 := InputError(Fixed(""), st, Binding.NameOf(st), "", None);
    ExtractNothing(b.sx, f.tag, e0);
    var e := Binding.ExtractFrom(b.sx, f.tag, e0).value.e;
    assert Binding.BindField(b, st, k, value, loc, ro)
      == Fill(b.ext, f.typ, loc + [k], Binding.Settable(f, ro), [f.tag["default"]], e, value);
  }

  /** A nil embedded pointer is allocated before the struct it points to is bound; one that cannot be set panics. */
  lemma EmbeddedAllocated(b: Binding.Binder, st: GoType, k: nat, value: Value, loc: Loc, ro: bool)
    requires st.StructOf? && k < |st.fields|
    requires st.fields[k].anonymous && st.fields[k].typ.Pointer? && Get(value, loc + [k]) == Some(NilV)
    ensures var f := st.fields[k];
      Binding.BindField(b, st, k, value, loc, ro) ==
        if Binding.Settable(f, ro) then Binding.BindStruct(b, f.typ.elem, Put(value, loc + [k], PtrV(Zero(f.typ.elem))), loc + [k], ro)
        else Bound(value, Some(Crash(UnexportedSet)))
  {
  }

  /** Binding the struct at `loc` writes nothing apart from it. */
  lemma {:induction false} BindStaysBelow(b: Binding.Binder, st: GoType, value: Value, loc: Loc, ro: bool, other: Loc)
    requires DecoderProps.Apart(loc, other)
    ensures Get(Binding.BindStruct(b, st, value, loc, ro).value, other) == Get(value, other)
    decreases st, 2
  {
    if st.StructOf? {
      FieldsStayBelow(b, st, value, loc, ro, |st.fields|, other);
    }
  }

  lemma {:induction false} FieldsStayBelow(b: Binding.Binder, st: GoType, value: Value, loc: Loc, ro: bool, n: nat, other: Loc)
    requires st.StructOf? && n <= |st.fields| && DecoderProps.Apart(loc, other)
    ensures Get(Binding.BindFields(b, st, value, loc, ro, n).value, other) == Get(value, other)
    decreases st, 1, n
  {
    if n > 0 {
      FieldsStayBelow(b, st, value, loc, ro, n - 1, other);
      var r := Binding.BindFields(b, st, value, loc, ro, n - 1);
      if r.stop.None? {
        FieldStaysBelow(b, st, n - 1, r.value, loc, ro, other);
      }
    }
  }

  lemma {:induction false} FieldStaysBelow(b: Binding.Binder, st: GoType, k: nat, value: Value, loc: Loc, ro: bool, other: Loc)
    requires st.StructOf? && k < |st.fields| && DecoderProps.Apart(loc, other)
    ensures Get(Binding.BindField(b, st, k, value, loc, ro).value, other) == Get(value, other)
    decreases st, 0
  {
    var f := st.fields[k];
    assert f in st.fields;
    var at := loc + [k];
    assert Prefix(loc, at);
    DecoderProps.ApartBelow(loc, at, other);
    assert Prefix(at, at + []);
    if f.anonymous {
      var a := Allocate(f.typ, at, Binding.Settable(f, ro), value);
      if a.Success? {
        if f.typ.Pointer? && Get(value, at) == Some(NilV) {
          GetPutOther(value, at, other, PtrV(Zero(f.typ.elem)));
        }
        BindStaysBelow(b, DerefType(f.typ), a.value, at, ro, other);
      }
    } else if KindOf(f.typ) == Struct {
      BindStaysBelow(b, f.typ, value, at, ro || !f.exported, other);
    } else {
      var x := Binding.ExtractFrom(b.sx, f.tag, InputError(Fixed(""), st, Binding.NameOf(st), "", None));
      if x.Success? {
        var values := if |x.value.values| == 0 && "default" in f.tag then [f.tag["default"]] else x.value.values;
        if |values| > 0 {
          FillFrame(b.ext, f.typ, at, Binding.Settable(f, ro), values, x.value.e, value, other);
        }
      }
    }
  }

  // ---------------------------------------------------------------- pkg/kcd/binding.go

  /** The strings a tagged field is bound with: what the extractor found, or else the default tag. */
  lemma DefaultOnlyWhenEmpty(w: KcdBinding.Single, f: StructField, found: seq<string>)
    ensures |found| > 0 ==> KcdBinding.WithDefault(w, f, found) == found
    ensures |found| == 0 && w.defaultTag in f.tag ==> KcdBinding.WithDefault(w, f, found) == [f.tag[w.defaultTag]]
    ensures |found| == 0 && w.defaultTag !in f.tag ==> KcdBinding.WithDefault(w, f, found) == []
  {
  }

  /** A struct none of whose fields is embedded or carries the tag is left alone: untagged fields are skipped. */
  lemma {:induction false} UntaggedSkipped(w: KcdBinding.Single, st: GoType, value: Value, loc: Loc, ro: bool, n: nat)
    requires st.StructOf? && n <= |st.fields|
    requires forall i :: 0 <= i < |st.fields| ==> !st.fields[i].anonymous && Cache.TagGet(st.fields[i].tag, w.tag) == ""
    ensures KcdBinding.BindFields(w, st, value, loc, ro, n) == Bound(value, None)
  {
    if n > 0 {
      UntaggedSkipped(w, st, value, loc, ro, n - 1);
    }
  }

  /** An error from the extractor is wrapped with "unable to extract value from request", and the field is left alone. */
  lemma ExtractionWrapped(w: KcdBinding.Single, st: GoType, k: nat, value: Value, loc: Loc, ro: bool)
    requires st.StructOf? && k < |st.fields| && !st.fields[k].anonymous
    requires Cache.TagGet(st.fields[k].tag, w.tag) != ""
    requires w.extract(Cache.TagGet(st.fields[k].tag, w.tag)).Failure?
    ensures var tv := Cache.TagGet(st.fields[k].tag, w.tag);
      KcdBinding.BindField(w, st, k, value, loc, ro) == Bound(value, Some(Refuse(
        InputError(Fixed("unable to extract value from request"), st, tv, w.tag, Some(Extraction(w.extract(tv).error))))))
  {
  }

  /** A nil embedded pointer is allocated before the struct it points to is bound. */
  lemma KcdEmbeddedAllocated(w: KcdBinding.Single, st: GoType, k: nat, value: Value, loc: Loc, ro: bool)
    requires st.StructOf? && k < |st.fields|
    requires st.fields[k].anonymous && st.fields[k].typ.Pointer? && Get(value, loc + [k]) == Some(NilV)
    ensures var f := st.fields[k];
      KcdBinding.BindField(w, st, k, value, loc, ro) ==
        if KcdBinding.Settable(f, ro) then KcdBinding.BindStruct(w, f.typ.elem, Put(value, loc + [k], PtrV(Zero(f.typ.elem))), loc + [k], ro)
        else Bound(value, Some(Crash(UnexportedSet)))
  {
  }
}
