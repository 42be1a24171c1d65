/**
 * The two binders side by side: binding.go's binder with a single string
 * extractor and the single-tag binder of pkg/kcd/binding.go with that
 * extractor's tag and extract function, and `default` as the default tag.
 * On a struct whose fields are neither embedded nor of struct kind, and
 * where no field has a default without also carrying the tag, the two bind
 * the same strings into the same places and stop on the same error.
 */
module BindAgree {
  import opened Wrappers
  import opened GoTypes
  import opened Values
  import opened BindCore
  import Cache
  import Decoder
  import Binding
  import KcdBinding
  /** The binding.go binder with one extractor standing for the single tag and its extract function. */
  function AsBinder(w: KcdBinding.Single, vx: seq<Decoder.ValueExtractor>): Binding.Binder
  {
    Binding.Binder([Decoder.StringsExtractor(w.tag, w.extract)], vx, w.ext)
  }

  /**
   * A field both binders treat alike: not embedded, not of struct kind,
   * and either carrying the tag or without a default (binding.go applies
   * the default even to a field without the tag).
   */
  predicate Plain(w: KcdBinding.Single, f: StructField)
  {
    !f.anonymous && KindOf(f.typ) != Struct && (Cache.TagGet(f.tag, w.tag) != "" || "default" !in f.tag)
  }

  /** A struct all of whose fields are plain. */
  predicate AllPlain(w: KcdBinding.Single, st: GoType)
  {
    st.StructOf? && forall i :: 0 <= i < |st.fields| ==> Plain(w, st.fields[i])
  }

  /** A field loop: `step` runs on each index in turn until one stops. */
  function Loop(step: (nat, Value) -> Bound, value: Value, n: nat): Bound
  {
    if n == 0 then Bound(value, None)
    else
      var r := Loop(step, value, n - 1);
      if r.stop.Some? then r else step(n - 1, r.value)
  }

  /** One pass of binding.go's field loop, as a step of `Loop`. */
  function BindingStep(b: Binding.Binder, st: GoType, loc: Loc, ro: bool): (nat, Value) -> Bound
  {
    (k: nat, v: Value) => if st.StructOf? && k < |st.fields| then Binding.BindField(b, st, k, v, loc, ro) else Bound(v, None)
  }

  /** One pass of the single-tag binder's field loop, as a step of `Loop`. */
  function KcdStep(w: KcdBinding.Single, st: GoType, loc: Loc, ro: bool): (nat, Value) -> Bound
  {
    (k: nat, v: Value) => if st.StructOf? && k < |st.fields| then KcdBinding.BindField(w, st, k, v, loc, ro) else Bound(v, None)
  }

  /** binding.go's field loop is `Loop` of its step. */
  lemma {:induction false} BindingLoop(b: Binding.Binder, st: GoType, value: Value, loc: Loc, ro: bool, n: nat)
    requires st.StructOf? && n <= |st.fields|
    ensures Binding.BindFields(b, st, value, loc, ro, n) == Loop(BindingStep(b, st, loc, ro), value, n)
  {
    if n > 0 {
      BindingLoop(b, st, value, loc, ro, n - 1);
    }
  }

  /** The single-tag binder's field loop is `Loop` of its step. */
  lemma {:induction false} KcdLoop(w: KcdBinding.Single, st: GoType, value: Value, loc: Loc, ro: bool, n: nat)
    requires st.StructOf? && n <= |st.fields|
    ensures KcdBinding.BindFields(w, st, value, loc, ro, n) == Loop(KcdStep(w, st, loc, ro), value, n)
  {
    if n > 0 {
      KcdLoop(w, st, value, loc, ro, n - 1);
    }
  }

  /** Two loops whose steps agree on every index below `n` agree after `n` passes. */
  lemma {:induction false} LoopsAgree(s1: (nat, Value) -> Bound, s2: (nat, Value) -> Bound, value: Value, n: nat)
    requires forall k: nat, v: Value :: k < n ==> s1(k, v) == s2(k, v)
    ensures Loop(s1, value, n) == Loop(s2, value, n)
  {
    if n > 0 {
      LoopsAgree(s1, s2, value, n - 1);
    }
  }

  /**
   * On a struct of plain fields, the single-tag binder with the default tag
   * `default` and the binder of binding.go with the one matching extractor
   * leave the same destination and stop the same way.
   */
  lemma BindersAgree(w: KcdBinding.Single, vx: seq<Decoder.ValueExtractor>, st: GoType, value: Value, loc: Loc, ro: bool)
    requires w.defaultTag == "default"
    requires AllPlain(w, st)
    ensures Binding.BindStruct(AsBinder(w, vx), st, value, loc, ro) == KcdBinding.BindStruct(w, st, value, loc, ro)
  {
    var n := |st.fields|;
    var s1 := BindingStep(AsBinder(w, vx), st, loc, ro);
    var s2 := KcdStep(w, st, loc, ro);
    forall k: nat, v: Value | k < n
      ensures s1(k, v) == s2(k, v)
    {
      FieldAgrees(w, vx, st, k, v, loc, ro);
    }
    BindingLoop(AsBinder(w, vx), st, value, loc, ro, n);
    KcdLoop(w, st, value, loc, ro, n);
    LoopsAgree(s1, s2, value, n);
  }

  /** The two binders agree on one plain field, whatever the destination holds. */
  lemma FieldAgrees(w: KcdBinding.Single, vx: seq<Decoder.ValueExtractor>, st: GoType, k: nat, value: Value, loc: Loc, ro: bool)
    requires w.defaultTag == "default"
    requires st.StructOf? && k < |st.fields| && Plain(w, st.fields[k])
    ensures Binding.BindField(AsBinder(w, vx), st, k, value, loc, ro) == KcdBinding.BindField(w, st, k, value, loc, ro)
  {
    var f := st.fields[k];
    var tv := Cache.TagGet(f.tag, w.tag);
    var e0 := InputError(Fixed(""), st, Binding.NameOf(st), "", None);
    var x := Binding.ExtractFrom(AsBinder(w, vx).sx, f.tag, e0);
    ExtractOne(w, vx, f, e0);
    if tv != "" {
      if x.Success? {
        FoundAgrees(w, vx, st, k, value, loc, ro, x.value.values);
      }
    }
  }

  /** With the one extractor, `extractValue` finds nothing on a field without the tag, and otherwise is the extract function run on the tag's value. */
  lemma ExtractOne(w: KcdBinding.Single, vx: seq<Decoder.ValueExtractor>, f: StructField, e0: InputError)
    ensures Cache.TagGet(f.tag, w.tag) == "" ==> Binding.ExtractFrom(AsBinder(w, vx).sx, f.tag, e0) == Success(Binding.Extracted([], e0))
    ensures var tv := Cache.TagGet(f.tag, w.tag);
      var e := e0.(field := tv, extractor := w.tag);
      var r := w.extract(tv);
      tv != "" ==>
        (Binding.ExtractFrom(AsBinder(w, vx).sx, f.tag, e0) ==
          if r.Failure? then Failure(e.(err := Some(Extraction(r.error)), message := Fixed("unable to extract value from request")))
          else Success(Binding.Extracted(r.value, e)))
  {
    assert AsBinder(w, vx).sx[1..] == [];
  }

  /** The two binders agree on a plain field whose tag's value the extract function found `found` under. */
  lemma FoundAgrees(w: KcdBinding.Single, vx: seq<Decoder.ValueExtractor>, st: GoType, k: nat, value: Value, loc: Loc, ro: bool, found: seq<string>)
    requires w.defaultTag == "default"
    requires st.StructOf? && k < |st.fields| && Plain(w, st.fields[k])
    requires Cache.TagGet(st.fields[k].tag, w.tag) != ""
    requires w.extract(Cache.TagGet(st.fields[k].tag, w.tag)) == Success(found)
    requires Binding.ExtractFrom(AsBinder(w, vx).sx, st.fields[k].tag, InputError(Fixed(""), st, Binding.NameOf(st), "", None))
      == Success(Binding.Extracted(found, InputError(Fixed(""), st, Cache.TagGet(st.fields[k].tag, w.tag), w.tag, None)))
    ensures Binding.BindField(AsBinder(w, vx), st, k, value, loc, ro) == KcdBinding.BindField(w, st, k, value, loc, ro)
  {
    var f := st.fields[k];
    assert |found| == 0 && "default" in f.tag ==> KcdBinding.WithDefault(w, f, found) == [f.tag["default"]];
  }
}
