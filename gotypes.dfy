/**
 * The part of Go's type system the binding engine inspects through
 * `reflect`: kinds, pointer/slice/array/struct structure, struct tags,
 * names (for assignability) and which of the three unmarshaler interfaces
 * a type's method sets provide. It also holds the type predicates of
 * internal/types/types.go.
 */
module GoTypes {

  /** `reflect.Kind`. */
  datatype Kind =
    | Invalid | Bool | Int | Int8 | Int16 | Int32 | Int64
    | Uint | Uint8 | Uint16 | Uint32 | Uint64 | Uintptr
    | Float32 | Float64 | Complex64 | Complex128
    | Array | Chan | Func | Interface | Map | Ptr | Slice | String | Struct | UnsafePointer

  /** The four kinds that have a constructor of their own in `GoType`. */
  predicate Composite(k: Kind)
  {
    k.Array? || k.Ptr? || k.Slice? || k.Struct?
  }

  type BasicKind = k: Kind | !Composite(k) witness Bool

  /** `encoding.TextUnmarshaler`, `encoding.BinaryUnmarshaler`, `json.Unmarshaler`. */
  datatype Unmarshaler = TextUnmarshaler | BinaryUnmarshaler | JSONUnmarshaler

  /** The supported unmarshalers, in the order they are listed. */
  const Unmarshalers: seq<Unmarshaler> := [TextUnmarshaler, BinaryUnmarshaler, JSONUnmarshaler]

  /** A predeclared name (`int64`, `string`), a name declared in a package, or a type literal. */
  datatype TypeName = Unnamed | Predeclared | Declared(pkg: string, name: string)

  /**
   * The unmarshal methods of a named type, split by receiver: methods with
   * a value receiver belong to `T` and `*T`, those with a pointer receiver
   * to `*T` only. For an interface type, `value` lists the methods the
   * interface requires.
   */
  datatype Methods = Methods(value: set<Unmarshaler>, pointer: set<Unmarshaler>)

  const NoMethods := Methods({}, {})

  /** One field of a struct type: its tag is the parsed `key:"value"` list. */
  datatype StructField = StructField(
    name: string,
    typ: GoType,
    tag: map<string, string>,
    anonymous: bool,
    exported: bool)

  datatype GoType =
    | Basic(bkind: BasicKind, name: TypeName, methods: Methods)
    | Pointer(elem: GoType)
    | SliceOf(elem: GoType, name: TypeName, methods: Methods)
    | ArrayOf(length: nat, elem: GoType, name: TypeName, methods: Methods)
    | StructOf(fields: seq<StructField>, name: TypeName, methods: Methods)

  /** The predeclared `string`, `[]string` and `[]byte` types. */
  const StringType: GoType := Basic(String, Predeclared, NoMethods)
  const StringSlice: GoType := SliceOf(StringType, Unnamed, NoMethods)
  const ByteSlice: GoType := SliceOf(Basic(Uint8, Predeclared, NoMethods), Unnamed, NoMethods)

  /** `reflect.Type.Kind()`. */
  function KindOf(t: GoType): (k: Kind)
    ensures k == Ptr <==> t.Pointer?
    ensures k == Slice <==> t.SliceOf?
    ensures k == Array <==> t.ArrayOf?
    ensures k == Struct <==> t.StructOf?
  {
    match t
    case Basic(k, _, _) => k
    case Pointer(_) => Ptr
    case SliceOf(_, _, _) => Slice
    case ArrayOf(_, _, _, _) => Array
    case StructOf(_, _, _) => Struct
  }

  predicate IsIntKind(k: Kind)
  {
    k == Int || k == Int8 || k == Int16 || k == Int32 || k == Int64
  }

  predicate IsUintKind(k: Kind)
  {
    k == Uint || k == Uint8 || k == Uint16 || k == Uint32 || k == Uint64
  }

  /** The signed kinds are not strings. */
  lemma IntKindNotString(k: Kind)
    requires IsIntKind(k)
    ensures k != String
  {
  }

  /** The unsigned kinds are neither signed nor strings. */
  lemma UintKindNotInt(k: Kind)
    requires IsUintKind(k)
    ensures !IsIntKind(k) && k != String
  {
  }

  predicate IsFloatKind(k: Kind)
  {
    k == Float32 || k == Float64
  }

  /** `reflect.Type.Bits()` for the sized kinds, with `int` and `uint` on a 64-bit platform. */
  function Bits(k: Kind): (b: nat)
    requires IsIntKind(k) || IsUintKind(k) || IsFloatKind(k)
    ensures b in {8, 16, 32, 64}
  {
    match k
    case Int8 => 8
    case Uint8 => 8
    case Int16 => 16
    case Uint16 => 16
    case Int32 => 32
    case Uint32 => 32
    case Float32 => 32
    case _ => 64
  }

  /** `reflect.Type.Elem()` on the kinds that have an element type. */
  function ElemOf(t: GoType): GoType
    requires t.Pointer? || t.SliceOf? || t.ArrayOf?
  {
    t.elem
  }

  /** The type `Elem()` gives on a pointer; any other type stands for itself. */
  function DerefType(t: GoType): GoType
  {
    if t.Pointer? then t.elem else t
  }

  predicate IsNamed(t: GoType)
  {
    !t.Pointer? && t.name != Unnamed
  }

  predicate PredeclaredKind(k: Kind)
  {
    !(k.Invalid? || k.Chan? || k.Func? || k.Interface? || k.Map?)
  }

  /** The underlying type: the predeclared type or the type literal a named type is declared with. */
  function Underlying(t: GoType): GoType
  {
    match t
    case Basic(k, n, _) => Basic(k, if n != Unnamed && PredeclaredKind(k) then Predeclared else Unnamed, NoMethods)
    case Pointer(_) => t
    case SliceOf(e, _, _) => SliceOf(e, Unnamed, NoMethods)
    case ArrayOf(n, e, _, _) => ArrayOf(n, e, Unnamed, NoMethods)
    case StructOf(fs, _, _) => StructOf(fs, Unnamed, NoMethods)
  }

  predicate IsInterface(t: GoType)
  {
    t.Basic? && t.bkind == Interface
  }

  /** The unmarshal methods in the method set of `t`; a pointer to a pointer or to an interface has none. */
  function MethodSet(t: GoType): set<Unmarshaler>
  {
    match t
    case Pointer(e) =>
      if e.Pointer? || IsInterface(e) then {} else e.methods.value + e.methods.pointer
    case _ => t.methods.value
  }

  /** `reflect.Type.Implements(u)`. */
  predicate Implements(t: GoType, u: Unmarshaler)
  {
    u in MethodSet(t)
  }

  /** `reflect.Type.AssignableTo(t)`, for `v` the type of a value. */
  predicate AssignableTo(v: GoType, t: GoType)
  {
    || v == t
    || (Underlying(v) == Underlying(t) && (!IsNamed(v) || !IsNamed(t)))
    || (IsInterface(t) && t.methods.value <= MethodSet(v))
  }

  /** `types.IsImplementingUnmarshaler`: a non-pointer type is judged by its pointer type. */
  predicate IsImplementingUnmarshaler(t: GoType)
  {
    var p := if KindOf(t) == Ptr then t else Pointer(t);
    exists i :: 0 <= i < |Unmarshalers| && Implements(p, Unmarshalers[i])
  }

  /** `time.Duration`. */
  const Duration: GoType := Basic(Int64, Declared("time", "Duration"), NoMethods)

  /** `types.Custom`: the duration type and a pointer to it. */
  const Custom: seq<GoType> := [Duration, Pointer(Duration)]

  /** `types.IsCustomType`. */
  predicate IsCustomType(t: GoType)
  {
    exists i :: 0 <= i < |Custom| && AssignableTo(t, Custom[i])
  }

  /** `types.Native`: the kinds a string can be parsed into directly. */
  const NativeKinds: set<Kind> :=
    {String, Bool, Int, Int8, Int16, Int32, Int64, Uint, Uint8, Uint16, Uint32, Uint64, Float32, Float64}

  /** `types.IsNative`. */
  predicate IsNative(t: GoType)
  {
    KindOf(t) in NativeKinds
  }

  /** `types.IsUnmarshallable`. */
  predicate IsUnmarshallable(t: GoType)
  {
    IsNative(t) || IsCustomType(t) || IsImplementingUnmarshaler(t)
  }

  /**
   * A non-pointer type implements an unmarshaler through its pointer type,
   * so methods with either receiver count; a pointer to a pointer and an
   * interface never qualify.
   */
  lemma ImplementingUnmarshalerSpec(t: GoType)
    ensures !t.Pointer? && !IsInterface(t) ==>
      (IsImplementingUnmarshaler(t) <==> t.methods.value + t.methods.pointer != {})
    ensures t.Pointer? && !t.elem.Pointer? && !IsInterface(t.elem) ==>
      (IsImplementingUnmarshaler(t) <==> t.elem.methods.value + t.elem.methods.pointer != {})
    ensures t.Pointer? && t.elem.Pointer? ==> !IsImplementingUnmarshaler(t)
    ensures IsInterface(t) ==> !IsImplementingUnmarshaler(t)
  {
    var p := if KindOf(t) == Ptr then t else Pointer(t);
    var ms := MethodSet(p);
    if ms != {} {
      var u :| u in ms;
      match u
      case TextUnmarshaler => assert Implements(p, Unmarshalers[0]);
      case BinaryUnmarshaler => assert Implements(p, Unmarshalers[1]);
      case JSONUnmarshaler => assert Implements(p, Unmarshalers[2]);
    }
  }

  /** Only the duration type and the pointer to it are custom types: no other type is assignable to either. */
  lemma CustomTypeSpec(t: GoType)
    ensures IsCustomType(t) <==> t == Duration || t == Pointer(Duration)
  {
    if t == Duration {
      assert AssignableTo(t, Custom[0]);
    } else if t == Pointer(Duration) {
      assert AssignableTo(t, Custom[1]);
    }
  }

  /** Every native, custom or unmarshaler-implementing type is unmarshallable, and nothing else is. */
  lemma UnmarshallableSpec(t: GoType)
    ensures IsUnmarshallable(t) <==>
      KindOf(t) in NativeKinds || t == Duration || t == Pointer(Duration) || IsImplementingUnmarshaler(t)
  {
    CustomTypeSpec(t);
  }
}
