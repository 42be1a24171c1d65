/**
 * Go values as the binding engine sees them through `reflect.Value`: a
 * finite tree, a destination object holding the struct behind the pointer
 * that `reflect.New` returned, and addressing of nested fields in which a
 * pointer met on the way is followed, as `FieldByIndex` after `Elem()` is.
 */
module Values {
  import opened Wrappers
  import opened GoTypes

  datatype Value =
    | NilV                        // nil pointer, nil slice, nil map, chan, func or interface
    | BoolV(b: bool)
    | IntV(i: int)                // every signed integer kind, durations included
    | UintV(u: nat)               // every unsigned integer kind
    | FloatV(bits: nat)           // a float, its payload left uninterpreted
    | StringV(s: string)
    | PtrV(target: Value)
    | ListV(elems: seq<Value>)    // an array, or a slice that is not nil
    | StructV(fields: seq<Value>)
    | ForeignV(id: nat)           // a value of a kind the engine never looks inside

  /** An `interface{}` holding a value together with its dynamic type. */
  datatype Dyn = Dyn(typ: GoType, val: Value)

  /** A `[]string` boxed in an `interface{}`. */
  function StringsDyn(list: seq<string>): (d: Dyn)
    ensures d.typ == StringSlice && d.val.ListV? && |d.val.elems| == |list|
    ensures forall i :: 0 <= i < |list| ==> d.val.elems[i] == StringV(list[i])
  {
    Dyn(StringSlice, ListV(seq(|list|, i requires 0 <= i < |list| => StringV(list[i]))))
  }

  /** A `string` boxed in an `interface{}`. */
  function StringDyn(s: string): Dyn
  {
    Dyn(StringType, StringV(s))
  }

  /** The zero value of a type, which is what `reflect.New` points to. */
  function Zero(t: GoType): (v: Value)
    decreases t, 1, 0
  {
    match t
    case Basic(k, _, _) =>
      if k == Bool then BoolV(false)
      else if IsIntKind(k) then IntV(0)
      else if IsUintKind(k) || k == Uintptr then UintV(0)
      else if IsFloatKind(k) then FloatV(0)
      else if k == String then StringV("")
      else if k in {Complex64, Complex128} then ForeignV(0)
      else NilV
    case Pointer(_) => NilV
    case SliceOf(_, _, _) => NilV
    case ArrayOf(n, e, _, _) => ListV(seq(n, _ => Zero(e)))
    case StructOf(fs, _, _) => StructV(ZeroFields(t, |fs|))
  }

  function ZeroFields(t: GoType, n: nat): (vs: seq<Value>)
    requires t.StructOf? && n <= |t.fields|
    ensures |vs| == n
    decreases t, 0, n
  {
    if n == 0 then []
    else
      assert t.fields[n - 1] in t.fields;
      ZeroFields(t, n - 1) + [Zero(t.fields[n - 1].typ)]
  }

  /** What `Elem()` gives on a value that may be a pointer. */
  function Deref(v: Value): Value
  {
    if v.PtrV? then v.target else v
  }

  /** Field positions from a struct value, each step following a pointer first. */
  type Loc = seq<nat>

  /** The value at `loc`, if every step lands on a struct that has that field. */
  function Get(v: Value, loc: Loc): Option<Value>
    decreases |loc|
  {
    if loc == [] then Some(v)
    else
      var s := Deref(v);
      if s.StructV? && loc[0] < |s.fields| then Get(s.fields[loc[0]], loc[1..]) else None
  }

  /** `v` with the value at `loc` replaced by `x`; `v` itself when `loc` leads nowhere. */
  function Put(v: Value, loc: Loc, x: Value): Value
    decreases |loc|
  {
    if loc == [] then x
    else
      var s := Deref(v);
      if s.StructV? && loc[0] < |s.fields| then
        var s' := StructV(s.fields[loc[0] := Put(s.fields[loc[0]], loc[1..], x)]);
        if v.PtrV? then PtrV(s') else s'
      else v
  }

  /** The static type found at `loc`. */
  function TypeAt(t: GoType, loc: Loc): Option<GoType>
    decreases |loc|
  {
    if loc == [] then Some(t)
    else
      var s := DerefType(t);
      if s.StructOf? && loc[0] < |s.fields| then TypeAt(s.fields[loc[0]].typ, loc[1..]) else None
  }

  /** The struct field declared at `loc`, when `loc` is not empty and names one. */
  function FieldAt(t: GoType, loc: Loc): Option<StructField>
    decreases |loc|
  {
    if loc == [] then None
    else
      var s := DerefType(t);
      if s.StructOf? && loc[0] < |s.fields| then
        if |loc| == 1 then Some(s.fields[loc[0]]) else FieldAt(s.fields[loc[0]].typ, loc[1..])
      else None
  }

  /** The panic `reflect.Value.Set` raises on a value that cannot be set. */
  const UnexportedSet := "reflect: reflect.Value.Set using value obtained using unexported field"

  /**
   * `CanSet` of the value reached at `loc` from the struct behind a fresh
   * pointer. `Field` makes a value read-only for good when the field is
   * unexported and not embedded, and read-only for this step only when it
   * is unexported and embedded (the mark survives `Elem()` but the next
   * `Field` drops it). So the value can be set exactly when the last field
   * is exported and every field before it is exported or embedded.
   */
  predicate CanSetAt(t: GoType, loc: Loc)
  {
    forall k :: 0 < k <= |loc| ==> OnSettablePath(t, loc, k)
  }

  /** The `k`-th field on the way to `loc` exists, and is exported, or embedded when it is not the last. */
  predicate OnSettablePath(t: GoType, loc: Loc, k: nat)
    requires k <= |loc|
  {
    var f := FieldAt(t, loc[..k]);
    f.Some? && (f.value.exported || (k < |loc| && f.value.anonymous))
  }

  predicate Prefix(a: Loc, b: Loc)
  {
    |a| <= |b| && b[..|a|] == a
  }

  /** Reading back what was just written gives it. */
  lemma {:induction false} GetPut(v: Value, loc: Loc, x: Value)
    requires Get(v, loc).Some?
    ensures Get(Put(v, loc, x), loc) == Some(x)
    decreases |loc|
  {
    if loc != [] {
      GetPut(Deref(v).fields[loc[0]], loc[1..], x);
    }
  }

  /** Writing where nothing is addressable changes nothing. */
  lemma {:induction false} PutMissing(v: Value, loc: Loc, x: Value)
    requires Get(v, loc).None?
    ensures Put(v, loc, x) == v
    decreases |loc|
  {
    var s := Deref(v);
    if s.StructV? && loc[0] < |s.fields| {
      PutMissing(s.fields[loc[0]], loc[1..], x);
      assert s.fields[loc[0] := s.fields[loc[0]]] == s.fields;
    }
  }

  /** A write leaves every location that is neither above nor below it unchanged. */
  lemma {:induction false} GetPutOther(v: Value, loc: Loc, other: Loc, x: Value)
    requires !Prefix(loc, other) && !Prefix(other, loc)
    ensures Get(Put(v, loc, x), other) == Get(v, other)
    decreases |loc|
  {
    assert loc != [] && other != [];
    var s := Deref(v);
    if s.StructV? && loc[0] < |s.fields| {
      if loc[0] == other[0] {
        assert !Prefix(loc[1..], other[1..]);
        assert !Prefix(other[1..], loc[1..]);
        GetPutOther(s.fields[loc[0]], loc[1..], other[1..], x);
      }
    }
  }

  /** A second write to the same place replaces the first. */
  lemma {:induction false} PutPut(v: Value, loc: Loc, a: Value, b: Value)
    ensures Put(Put(v, loc, a), loc, b) == Put(v, loc, b)
    decreases |loc|
  {
    if loc != [] {
      var s := Deref(v);
      if s.StructV? && loc[0] < |s.fields| {
        PutPut(s.fields[loc[0]], loc[1..], a, b);
        assert s.fields[loc[0] := Put(s.fields[loc[0]], loc[1..], a)][loc[0] := Put(s.fields[loc[0]], loc[1..], b)]
          == s.fields[loc[0] := Put(s.fields[loc[0]], loc[1..], b)];
      }
    }
  }

  /** Writing back what is already there changes nothing. */
  lemma {:induction false} PutGet(v: Value, loc: Loc)
    requires Get(v, loc).Some?
    ensures Put(v, loc, Get(v, loc).value) == v
    decreases |loc|
  {
    if loc != [] {
      var s := Deref(v);
      PutGet(s.fields[loc[0]], loc[1..]);
      assert s.fields[loc[0] := s.fields[loc[0]]] == s.fields;
    }
  }

  /** The zero value of a struct holds the zero value of each field. */
  lemma ZeroStructField(t: GoType, k: nat)
    requires t.StructOf? && k < |t.fields|
    ensures Get(Zero(t), [k]) == Some(Zero(t.fields[k].typ))
  {
    ZeroFieldsAt(t, |t.fields|, k);
  }

  lemma {:induction false} ZeroFieldsAt(t: GoType, n: nat, k: nat)
    requires t.StructOf? && k < n <= |t.fields|
    ensures ZeroFields(t, n)[k] == Zero(t.fields[k].typ)
  {
    if k < n - 1 {
      ZeroFieldsAt(t, n - 1, k);
    }
  }

  /**
   * The destination of a decode or bind: the struct behind the pointer
   * `reflect.New` returned for the input type.
   */
  class Target {
    const typ: GoType
    var value: Value

    constructor (t: GoType)
      ensures typ == t && value == Zero(t)
    {
      typ := t;
      value := Zero(t);
    }

    /** `reflect.Value.Set` on the field at `loc`. */
    method Store(loc: Loc, x: Value)
      modifies this
      ensures value == Put(old(value), loc, x)
    {
      value := Put(value, loc, x);
    }
  }
}
