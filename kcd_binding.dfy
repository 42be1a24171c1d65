/**
 * pkg/kcd/binding.go: the single-tag binder. One call binds the fields
 * that carry one tag (`query`, `path`, `header`, ...) with one extract
 * function.
 *
 * An embedded field is bound recursively after a nil embedded pointer is
 * allocated. A field without the tag is skipped; unlike the binder of
 * binding.go, a nested struct that is not embedded is not entered. A
 * tagged field takes what the extract function finds under the tag's
 * value, or the default tag when it finds nothing, and is then written as
 * the shared tail in `BindCore` says. The first error, or panic, stops the
 * whole bind.
 *
 * The name of the default tag is configuration the file reads
 * (`Config.DefaultTag`), so it is a parameter here.
 */
module KcdBinding {
  import opened Wrappers
  import opened GoTypes
  import opened Values
  import opened BindCore
  import Cache
  import Failures

  /** The arguments `bind` passes down unchanged: the tag, the extract function, the default tag's name. */
  datatype Single = Single(
    tag: string,
    extract: string -> Result<seq<string>, Failures.Err>,
    defaultTag: string,
    ext: Foreign)

  /** `CanSet` of field `f` of a struct reached through an unexported non-embedded field (`ro`). */
  function Settable(f: StructField, ro: bool): bool
  {
    !ro && f.exported
  }

  /** `bind` on the struct of type `st` at `loc`. */
  function BindStruct(w: Single, st: GoType, value: Value, loc: Loc, ro: bool): Bound
    decreases st, 2
  {
    if !st.StructOf? then Bound(value, Some(Crash("reflect: NumField of non-struct type")))
    else BindFields(w, st, value, loc, ro, |st.fields|)
  }

  /** The field loop over the first `n` fields. */
  function BindFields(w: Single, st: GoType, value: Value, loc: Loc, ro: bool, n: nat): Bound
    requires st.StructOf? && n <= |st.fields|
    decreases st, 1, n
  {
    if n == 0 then Bound(value, None)
    else
      var r := BindFields(w, st, value, loc, ro, n - 1);
      if r.stop.Some? then r else BindField(w, st, n - 1, r.value, loc, ro)
  }

  /** The strings a tagged field is bound with: what was extracted, or else the default tag when there is one. */
  function WithDefault(w: Single, f: StructField, found: seq<string>): seq<string>
  {
    if w.defaultTag in f.tag && |found| == 0 then found + [f.tag[w.defaultTag]] else found
  }

  /** One pass of the field loop. */
  function BindField(w: Single, st: GoType, k: nat, value: Value, loc: Loc, ro: bool): Bound
    requires st.StructOf? && k < |st.fields|
    decreases st, 0
  {
    var f := st.fields[k];
    assert f in st.fields;
    if f.anonymous then
      match Allocate(f.typ, loc + [k], Settable(f, ro), value)
      case Failure(h) => Bound(value, Some(h))
      case Success(v1) => BindStruct(w, DerefType(f.typ), v1, loc + [k], ro)
    else
      var tv := Cache.TagGet(f.tag, w.tag);
      if tv == "" then Bound(value, None)
      else
        var e := InputError(Fixed(""), st, tv, w.tag, None);
        match w.extract(tv)
        case Failure(err) => Bound(value, Some(Refuse(e.(err := Some(Extraction(err)), message := Fixed("unable to extract value from request")))))
        case Success(found) =>
          var values := WithDefault(w, f, found);
          if |values| == 0 then Bound(value, None)
          else Fill(w.ext, f.typ, loc + [k], Settable(f, ro), values, e, value)
  }

  /** `bind(w, r, reflect.New(T), tag, extract)`: the whole input struct. */
  function BindSpec(w: Single, t: GoType, value: Value): Bound
  {
    BindStruct(w, t, value, [], false)
  }

  lemma {:induction false} BindFieldsStop(w: Single, st: GoType, value: Value, loc: Loc, ro: bool, k: nat, n: nat)
    requires st.StructOf? && k <= n <= |st.fields|
    requires BindFields(w, st, value, loc, ro, k).stop.Some?
    ensures BindFields(w, st, value, loc, ro, n) == BindFields(w, st, value, loc, ro, k)
    decreases n - k
  {
    if k < n {
      BindFieldsStop(w, st, value, loc, ro, k, n - 1);
    }
  }

  /** `bind` for `v` the pointer `reflect.New` returned for the destination's type. */
  method Bind(t: Target, w: Single) returns (stop: Option<Halt>)
    modifies t
    ensures Bound(t.value, stop) == BindSpec(w, t.typ, old(t.value))
  {
    stop := BindAt(t, w, t.typ, [], false);
  }

  /** `bind` on the struct of type `st` at `loc` of the destination. */
  method BindAt(t: Target, w: Single, st: GoType, loc: Loc, ro: bool) returns (stop: Option<Halt>)
    modifies t
    ensures Bound(t.value, stop) == BindStruct(w, st, old(t.value), loc, ro)
    decreases st, 2
  {
    if !st.StructOf? {
      return Some(Crash("reflect: NumField of non-struct type"));
    }
    var i := 0;
    stop := None;
    while i < |st.fields| && stop.None?
      invariant 0 <= i <= |st.fields|
      invariant BindFields(w, st, old(t.value), loc, ro, i) == Bound(t.value, stop)
    {
      stop := BindFieldAt(t, w, st, i, loc, ro);
      i := i + 1;
    }
    if stop.Some? {
      BindFieldsStop(w, st, old(t.value), loc, ro, i, |st.fields|);
    }
  }

  /** One pass of the field loop of `bind`, on the destination. */
  method BindFieldAt(t: Target, w: Single, st: GoType, k: nat, loc: Loc, ro: bool) returns (stop: Option<Halt>)
    requires st.StructOf? && k < |st.fields|
    modifies t
    ensures Bound(t.value, stop) == BindField(w, st, k, old(t.value), loc, ro)
    decreases st, 0
  {
    var f := st.fields[k];
    assert f in st.fields;
    if f.anonymous {
      stop := AllocateAt(t, f.typ, loc + [k], Settable(f, ro));
      if stop.None? {
        stop := BindAt(t, w, DerefType(f.typ), loc + [k], ro);
      }
      return;
    }
    var tv := Cache.TagGet(f.tag, w.tag);
    if tv == "" {
      return None;
    }
    var e := InputError(Fixed(""), st, tv, w.tag, None);
    var found := w.extract(tv);
    if found.Failure? {
      return Some(Refuse(e.(err := Some(Extraction(found.error)), message := Fixed("unable to extract value from request"))));
    }
    var values := found.value;
    if w.defaultTag in f.tag && |values| == 0 {
      values := values + [f.tag[w.defaultTag]];
    }
    if |values| == 0 {
      return None;
    }
    stop := FillAt(t, w.ext, f.typ, loc + [k], Settable(f, ro), values, e);
  }
}
