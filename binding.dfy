/**
 * binding.go: the binder that fills a fresh input struct from the request
 * with the string extractors, field by field, in declaration order.
 *
 * An embedded field is bound recursively (a nil embedded pointer is
 * allocated first); any other field of struct kind is bound recursively
 * too. Every other field takes the strings of the first extractor whose
 * tag the field carries and which finds something, or else its `default`
 * tag; a field with neither is left alone. The strings are then written
 * as the shared tail in `BindCore` says. The first error, or panic, stops
 * the whole bind.
 *
 * The binder's value extractors are stored but never consulted, and the
 * request and response only reach the extractors; an extractor is its
 * tag and a function from the tag's value to what it finds.
 */
module Binding {
  import opened Wrappers
  import opened GoTypes
  import opened Values
  import opened BindCore
  import Cache
  import Decoder

  /** The binder: its string extractors and value extractors, with the code `bindStringValue` calls. */
  datatype Binder = Binder(sx: seq<Decoder.StringsExtractor>, vx: seq<Decoder.ValueExtractor>, ext: Foreign)

  /** What `extractValue` hands back: the strings it found and the binding error as it left it. */
  datatype Extracted = Extracted(values: seq<string>, e: InputError)

  /** `reflect.Type.Name()` of a struct type. */
  function NameOf(t: GoType): string
  {
    if !t.Pointer? && t.name.Declared? then t.name.name else ""
  }

  /**
   * `extractValue`: the extractors in order; one whose tag the field does
   * not carry is passed over; the others record their tag and the tag's
   * value on the binding error before they run.
   */
  function ExtractFrom(sx: seq<Decoder.StringsExtractor>, tags: map<string, string>, e: InputError): (r: Result<Extracted, InputError>)
    ensures r.Failure? ==> r.error.message == Fixed("unable to extract value from request") && r.error.err.Some?
  {
    if |sx| == 0 then Success(Extracted([], e))
    else
      var tv := Cache.TagGet(tags, sx[0].tag);
      if tv == "" then ExtractFrom(sx[1..], tags, e)
      else
        var e' := e.(field := tv, extractor := sx[0].tag);
        match sx[0].extract(tv)
        case Failure(err) => Failure(e'.(err := Some(Extraction(err)), message := Fixed("unable to extract value from request")))
        case Success(list) => if |list| > 0 then Success(Extracted(list, e')) else ExtractFrom(sx[1..], tags, e')
  }

  /** `CanSet` of field `f` of a struct reached through an unexported non-embedded field (`ro`). */
  function Settable(f: StructField, ro: bool): bool
  {
    !ro && f.exported
  }

  /** `bind` on the struct of type `st` at `loc`; `ro` when it was reached through an unexported field. */
  function BindStruct(b: Binder, st: GoType, value: Value, loc: Loc, ro: bool): Bound
    decreases st, 2
  {
    if !st.StructOf? then Bound(value, Some(Crash("reflect: NumField of non-struct type")))
    else BindFields(b, st, value, loc, ro, |st.fields|)
  }

  /** The field loop of `bind` over the first `n` fields. */
  function BindFields(b: Binder, st: GoType, value: Value, loc: Loc, ro: bool, n: nat): Bound
    requires st.StructOf? && n <= |st.fields|
    decreases st, 1, n
  {
    if n == 0 then Bound(value, None)
    else
      var r := BindFields(b, st, value, loc, ro, n - 1);
      if r.stop.Some? then r else BindField(b, st, n - 1, r.value, loc, ro)
  }

  /** `handleEmbeddedField`: allocate a nil embedded pointer, then bind what it points to. */
  function Embedded(b: Binder, st: GoType, k: nat, value: Value, loc: Loc, ro: bool): Bound
    requires st.StructOf? && k < |st.fields|
    decreases st, 0, 0
  {
    var f := st.fields[k];
    assert f in st.fields;
    match Allocate(f.typ, loc + [k], Settable(f, ro), value)
    case Failure(h) => Bound(value, Some(h))
    case Success(v1) => BindStruct(b, DerefType(f.typ), v1, loc + [k], ro)
  }

  /** One pass of the field loop. */
  function BindField(b: Binder, st: GoType, k: nat, value: Value, loc: Loc, ro: bool): Bound
    requires st.StructOf? && k < |st.fields|
    decreases st, 0, 1
  {
    var f := st.fields[k];
    assert f in st.fields;
    if f.anonymous then Embedded(b, st, k, value, loc, ro)
    else if KindOf(f.typ) == Struct then BindStruct(b, f.typ, value, loc + [k], ro || !f.exported)
    else
      match ExtractFrom(b.sx, f.tag, InputError(Fixed(""), st, NameOf(st), "", None))
      case Failure(e) => Bound(value, Some(Refuse(e)))
      case Success(x) =>
        var values := if |x.values| == 0 && "default" in f.tag then [f.tag["default"]] else x.values;
        if |values| == 0 then Bound(value, None)
        else Fill(b.ext, f.typ, loc + [k], Settable(f, ro), values, x.e, value)
  }

  /** `b.bind(reflect.New(T))`: the whole input struct. */
  function BindSpec(b: Binder, t: GoType, value: Value): Bound
  {
    BindStruct(b, t, value, [], false)
  }

  /** Once the field loop has stopped it stays stopped: the first error ends the bind. */
  lemma {:induction false} BindFieldsStop(b: Binder, st: GoType, value: Value, loc: Loc, ro: bool, k: nat, n: nat)
    requires st.StructOf? && k <= n <= |st.fields|
    requires BindFields(b, st, value, loc, ro, k).stop.Some?
    ensures BindFields(b, st, value, loc, ro, n) == BindFields(b, st, value, loc, ro, k)
    decreases n - k
  {
    if k < n {
      BindFieldsStop(b, st, value, loc, ro, k, n - 1);
    }
  }

  /** One more field: none once the loop has stopped, and otherwise one pass on that field. */
  lemma BindFieldsNext(b: Binder, st: GoType, value: Value, loc: Loc, ro: bool, n: nat)
    requires st.StructOf? && 0 < n <= |st.fields|
    ensures var r := BindFields(b, st, value, loc, ro, n - 1);
      BindFields(b, st, value, loc, ro, n) == if r.stop.Some? then r else BindField(b, st, n - 1, r.value, loc, ro)
  {
  }

  /** `extractValue`, as the source runs it: the loop over the extractors, updating the binding error. */
  method ExtractValue(sx: seq<Decoder.StringsExtractor>, tags: map<string, string>, e0: InputError)
    returns (r: Result<Extracted, InputError>)
    ensures r == ExtractFrom(sx, tags, e0)
  {
    var e := e0;
    var i := 0;
    while i < |sx|
      invariant 0 <= i <= |sx|
      invariant ExtractFrom(sx, tags, e0) == ExtractFrom(sx[i..], tags, e)
    {
      assert sx[i..][1..] == sx[i + 1..];
      var tv := Cache.TagGet(tags, sx[i].tag);
      if tv != "" {
        e := e.(field := tv, extractor := sx[i].tag);
        var found := sx[i].extract(tv);
        if found.Failure? {
          return Failure(e.(err := Some(Extraction(found.error)), message := Fixed("unable to extract value from request")));
        }
        if |found.value| > 0 {
          return Success(Extracted(found.value, e));
        }
      }
      i := i + 1;
    }
    return Success(Extracted([], e));
  }

  /** `b.bind(v)` for `v` the pointer `reflect.New` returned for the destination's type. */
  method Bind(t: Target, b: Binder) returns (stop: Option<Halt>)
    modifies t
    ensures Bound(t.value, stop) == BindSpec(b, t.typ, old(t.value))
  {
    stop := BindAt(t, b, t.typ, [], false);
  }

  /** `bind` on the struct of type `st` at `loc` of the destination. */
  method BindAt(t: Target, b: Binder, st: GoType, loc: Loc, ro: bool) returns (stop: Option<Halt>)
    modifies t
    ensures Bound(t.value, stop) == BindStruct(b, st, old(t.value), loc, ro)
    decreases st, 2
  {
    if !st.StructOf? {
      return Some(Crash("reflect: NumField of non-struct type"));
    }
    var i := 0;
    stop := None;
    while i < |st.fields| && stop.None?
      invariant 0 <= i <= |st.fields|
      invariant BindFields(b, st, old(t.value), loc, ro, i) == Bound(t.value, stop)
    {
      BindFieldsNext(b, st, old(t.value), loc, ro, i + 1);
      stop := BindFieldAt(t, b, st, i, loc, ro);
      i := i + 1;
    }
    if stop.Some? {
      BindFieldsStop(b, st, old(t.value), loc, ro, i, |st.fields|);
    }
  }

  /** `handleEmbeddedField` on field `k` of the struct at `loc`. */
  method HandleEmbeddedField(t: Target, b: Binder, st: GoType, k: nat, loc: Loc, ro: bool) returns (stop: Option<Halt>)
    requires st.StructOf? && k < |st.fields|
    modifies t
    ensures Bound(t.value, stop) == Embedded(b, st, k, old(t.value), loc, ro)
    decreases st, 0, 0
  {
    var f := st.fields[k];
    assert f in st.fields;
    stop := AllocateAt(t, f.typ, loc + [k], Settable(f, ro));
    if stop.None? {
      stop := BindAt(t, b, DerefType(f.typ), loc + [k], ro);
    }
  }

  /** One pass of the field loop of `bind`, on the destination. */
  method BindFieldAt(t: Target, b: Binder, st: GoType, k: nat, loc: Loc, ro: bool) returns (stop: Option<Halt>)
    requires st.StructOf? && k < |st.fields|
    modifies t
    ensures Bound(t.value, stop) == BindField(b, st, k, old(t.value), loc, ro)
    decreases st, 0, 1
  {
    var f := st.fields[k];
    assert f in st.fields;
    if f.anonymous {
      stop := HandleEmbeddedField(t, b, st, k, loc, ro);
      return;
    }
    if KindOf(f.typ) == Struct {
      stop := BindAt(t, b, f.typ, loc + [k], ro || !f.exported);
      return;
    }
    var x := ExtractValue(b.sx, f.tag, InputError(Fixed(""), st, NameOf(st), "", None));
    if x.Failure? {
      return Some(Refuse(x.error));
    }
    var values := x.value.values;
    if |values| == 0 && "default" in f.tag {
      values := [f.tag["default"]];
    }
    if |values| == 0 {
      return None;
    }
    stop := FillAt(t, b.ext, f.typ, loc + [k], Settable(f, ro), values, x.value.e);
  }
}
