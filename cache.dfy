/**
 * The binding plan of internal/cache/cache.go. `StructAnalyzer.Cache`
 * walks the fields of the input struct type once and records, level by
 * level, which fields can receive a value and under which tag paths;
 * nested structs that carry tags become child levels.
 *
 * The analysis is written twice: as the functions `CacheSpec`,
 * `FieldsSpec` and `FieldSpec`, which say what the result is, and as the
 * methods `Cache`, `CacheInto` and `CacheField`, which build it the way
 * the source does (appending to the level being built, a `TagsPath` cloned
 * and updated in place per field) and are proved to return what the
 * functions say.
 */
module Cache {
  import opened Wrappers
  import opened GoTypes
  import opened TagsPaths

  /** The tags looked up on every field, the subset of them that carry whole values, and the input type. */
  datatype StructAnalyzer = StructAnalyzer(tags: seq<string>, valueTag: seq<string>, mainStructType: Option<GoType>)

  /** What the decoder needs to fill one field. */
  datatype FieldMetadata = FieldMetadata(
    index: seq<nat>,
    paths: Paths,
    typ: GoType,
    implementUnmarshaller: bool,
    arrayOrSlice: bool,
    defaultValue: string,
    exploder: string)

  /**
   * `FieldMetadata.GetDefaultFieldName`: the path of the first tag other
   * than `default` met while ranging over the paths, or "unknown". Go
   * ranges over a map in an unspecified order, given here as `order`.
   */
  function DefaultFieldName(paths: Paths, order: seq<string>): (r: string)
    ensures r == "unknown" || exists tag :: tag in paths && tag != "default" && paths[tag] == r
    ensures (forall tag :: tag in paths && tag != "default" ==> tag in order) && (exists tag :: tag in paths && tag != "default") ==>
      exists tag :: tag in paths && tag != "default" && paths[tag] == r
  {
    if |order| == 0 then "unknown"
    else if order[0] in paths && order[0] != "default" then paths[order[0]]
    else
      assert forall tag :: tag in order && tag != order[0] ==> tag in order[1..];
      DefaultFieldName(paths, order[1..])
  }

  /** One level of the plan: the fields to fill at this level and the nested levels below it. */
  datatype StructCache = StructCache(
    isRoot: bool,
    index: seq<nat>,
    resolvable: seq<FieldMetadata>,
    child: seq<StructCache>)

  /** The running state of the field loop: the level built so far and whether a tag was seen. */
  datatype Level = Level(cache: StructCache, containTags: bool)

  /** `NewStructAnalyzer`: every value tag is looked up too, after the string tags. */
  function NewStructAnalyzer(stringsTags: seq<string>, valueTags: seq<string>, mainStructType: Option<GoType>)
    : (a: StructAnalyzer)
    ensures |a.tags| == |stringsTags| + |valueTags|
    ensures a.tags[..|stringsTags|] == stringsTags && a.tags[|stringsTags|..] == valueTags
    ensures forall i :: 0 <= i < |valueTags| ==> valueTags[i] in a.tags
    ensures a.valueTag == valueTags && a.mainStructType == mainStructType
  {
    StructAnalyzer(stringsTags + valueTags, valueTags, mainStructType)
  }

  function NewStructCache(): StructCache
  {
    StructCache(true, [], [], [])
  }

  function NewStructCacheFromField(i: nat): StructCache
  {
    StructCache(false, [i], [], [])
  }

  /** `reflect.StructTag.Get`: the empty string when the key is absent. */
  function TagGet(tag: map<string, string>, key: string): string
  {
    if key in tag then tag[key] else ""
  }

  predicate DoublePointer(t: GoType)
  {
    t.Pointer? && t.elem.Pointer?
  }

  /** Some tag of the analyzer is present on the field. */
  predicate AnyTag(tags: seq<string>, fieldTag: map<string, string>)
  {
    exists k :: 0 <= k < |tags| && tags[k] in fieldTag
  }

  /** The paths `lookupTags` leaves behind: for each analyzer tag in order, `Add` when the field has it. */
  function LookupSpec(tags: seq<string>, fieldTag: map<string, string>, m: Paths): Paths
  {
    if |tags| == 0 then m
    else
      var before := LookupSpec(tags[..|tags| - 1], fieldTag, m);
      var t := tags[|tags| - 1];
      if t in fieldTag then Extend(before, t, fieldTag[t]) else before
  }

  /** `cache(&sc, paths, t)`: strip one pointer, give up on a second one, then run the field loop. */
  function CacheSpec(a: StructAnalyzer, t: GoType, paths: Paths, sc0: StructCache): Level
    decreases t, 2, 0
  {
    if DoublePointer(t) then Level(sc0, false)
    else
      var s := DerefType(t);
      if s.StructOf? then FieldsSpec(a, s, paths, |s.fields|, sc0) else Level(sc0, false)
  }

  /** The field loop after its first `n` iterations. */
  function FieldsSpec(a: StructAnalyzer, s: GoType, paths: Paths, n: nat, sc0: StructCache): Level
    requires s.StructOf? && n <= |s.fields|
    decreases s, 1, n
  {
    if n == 0 then Level(sc0, false)
    else
      assert s.fields[n - 1] in s.fields;
      FieldSpec(a, paths, s.fields[n - 1], n - 1, FieldsSpec(a, s, paths, n - 1, sc0))
  }

  /** One iteration of the field loop, for field `f` at position `i`. */
  function FieldSpec(a: StructAnalyzer, paths: Paths, f: StructField, i: nat, acc: Level): Level
    decreases f.typ, 3, 0
  {
    if DoublePointer(f.typ) then acc
    else
      var impl := IsImplementingUnmarshaler(f.typ);
      var typ := DerefType(f.typ);
      var fieldHasTag := AnyTag(a.tags, f.tag);
      var containTags := acc.containTags || fieldHasTag;
      var currentPaths := LookupSpec(a.tags, f.tag, paths);
      var hasValueTag := HasValueTag(currentPaths, a.valueTag);
      var recurse := !hasValueTag && (f.anonymous || typ.StructOf?);
      var sub := CacheSpec(a, typ, currentPaths, NewStructCacheFromField(i));
      var childContain := recurse && sub.containTags;
      var sc := if childContain then acc.cache.(child := acc.cache.child + [sub.cache]) else acc.cache;
      var contain := containTags || childContain;
      if recurse && (childContain || !impl) then Level(sc, contain)
      else if !impl && (typ.SliceOf? || typ.ArrayOf?) && DoublePointer(typ.elem) then Level(sc, contain)
      else
        var arrayOrSlice := !impl && (typ.SliceOf? || typ.ArrayOf?);
        var mtyp := if arrayOrSlice then DerefType(typ.elem) else typ;
        if !(hasValueTag || (fieldHasTag && (impl || IsUnmarshallable(mtyp)))) then Level(sc, contain)
        else
          var md := FieldMetadata([i], currentPaths, mtyp, impl, arrayOrSlice,
                                  TagGet(f.tag, "default"), TagGet(f.tag, "exploder"));
          Level(sc.(resolvable := sc.resolvable + [md]), contain)
  }

  /** The whole plan for the analyzer's input type. */
  function AnalyzeSpec(a: StructAnalyzer): StructCache
  {
    match a.mainStructType
    case None => NewStructCache()
    case Some(t) => CacheSpec(a, t, map[], NewStructCache()).cache
  }

  /** `sanitizePtrType`: one pointer level is stripped; a second one is a failure. */
  method SanitizePtrType(t: GoType) returns (r: GoType, success: bool)
    ensures r == DerefType(t)
    ensures success <==> !DoublePointer(t)
    ensures success ==> !r.Pointer?
  {
    r := t;
    success := true;
    if KindOf(t) == Ptr {
      r := t.elem;
      if KindOf(r) == Ptr {
        success := false;
      }
    }
  }

  /** `lookupTags`: adds the field's value of every analyzer tag it carries, in the analyzer's order. */
  method LookupTags(a: StructAnalyzer, f: StructField, currentPaths: TagsPath) returns (containTags: bool)
    modifies currentPaths
    ensures currentPaths.entries == LookupSpec(a.tags, f.tag, old(currentPaths.entries))
    ensures containTags <==> AnyTag(a.tags, f.tag)
  {
    var hasTags := false;
    var i := 0;
    while i < |a.tags|
      invariant 0 <= i <= |a.tags|
      invariant currentPaths.entries == LookupSpec(a.tags[..i], f.tag, old(currentPaths.entries))
      invariant hasTags <==> exists k :: 0 <= k < i && a.tags[k] in f.tag
    {
      var tag := a.tags[i];
      assert a.tags[..i + 1][..i] == a.tags[..i];
      if tag in f.tag {
        hasTags := true;
        currentPaths.Add(tag, f.tag[tag]);
      }
      i := i + 1;
    }
    assert a.tags[..i] == a.tags;
    containTags := hasTags;
  }

  /** `StructAnalyzer.Cache`. */
  method Cache(a: StructAnalyzer) returns (sc: StructCache)
    ensures sc == AnalyzeSpec(a)
    ensures sc.isRoot && sc.index == []
    ensures a.mainStructType.None? || (a.mainStructType.Some? && DoublePointer(a.mainStructType.value))
      ==> sc.resolvable == [] && sc.child == []
  {
    sc := NewStructCache();
    if a.mainStructType.Some? {
      var paths := new TagsPath(map[]);
      var contain;
      sc, contain := CacheInto(a, paths, a.mainStructType.value, sc);
      CacheKeepsHeader(a, a.mainStructType.value, map[], NewStructCache());
    }
  }

  /** `cache`: the field loop over the struct `t` is, or points to. */
  method CacheInto(a: StructAnalyzer, paths: TagsPath, t: GoType, sc0: StructCache) returns (sc: StructCache, containTags: bool)
    ensures Level(sc, containTags) == CacheSpec(a, t, paths.entries, sc0)
    decreases t, 2, 0
  {
    sc, containTags := sc0, false;
    var s, ok := SanitizePtrType(t);
    if !ok || KindOf(s) != Struct {
      return;
    }
    var i := 0;
    while i < |s.fields|
      invariant 0 <= i <= |s.fields|
      invariant Level(sc, containTags) == FieldsSpec(a, s, paths.entries, i, sc0)
    {
      assert s.fields[i] in s.fields;
      var r := CacheField(a, paths, s.fields[i], i, Level(sc, containTags));
      sc, containTags := r.cache, r.containTags;
      i := i + 1;
    }
  }

  /** The body of the field loop of `cache`; each early `return` is a `continue` of the source. */
  method CacheField(a: StructAnalyzer, paths: TagsPath, f: StructField, i: nat, acc: Level) returns (r: Level)
    ensures r == FieldSpec(a, paths.entries, f, i, acc)
    decreases f.typ, 3, 0
  {
    r := acc;
    var sc := acc.cache;
    var containTags := acc.containTags;
    var implementUnmarshaller := IsImplementingUnmarshaler(f.typ);
    var typ, ok := SanitizePtrType(f.typ);
    if !ok {
      return;
    }
    var fieldHasTag := false;
    var currentPaths := paths.Clone();
    var found := LookupTags(a, f, currentPaths);
    if found {
      fieldHasTag := true;
      containTags := true;
    }
    var hasValueTag := HasValueTag(currentPaths.entries, a.valueTag);
    if !hasValueTag && (f.anonymous || KindOf(typ) == Struct) {
      var child, childContain := CacheInto(a, currentPaths, typ, NewStructCacheFromField(i));
      if childContain {
        sc := sc.(child := sc.child + [child]);
        fieldHasTag := true;
        containTags := true;
      }
      if childContain || !implementUnmarshaller {
        return Level(sc, containTags);
      }
    }
    var arrayOrSlice := false;
    if !implementUnmarshaller && (KindOf(typ) == Slice || KindOf(typ) == Array) {
      var elem, elemOk := SanitizePtrType(typ.elem);
      if !elemOk {
        return Level(sc, containTags);
      }
      arrayOrSlice := true;
      typ := elem;
    }
    if !(hasValueTag || (fieldHasTag && (implementUnmarshaller || IsUnmarshallable(typ)))) {
      return Level(sc, containTags);
    }
    var md := FieldMetadata([i], currentPaths.entries, typ, implementUnmarshaller, arrayOrSlice,
                            TagGet(f.tag, "default"), TagGet(f.tag, "exploder"));
    r := Level(sc.(resolvable := sc.resolvable + [md]), containTags);
  }

  /** The field loop only appends: the root flag and the index of the level it starts from are kept. */
  lemma CacheKeepsHeader(a: StructAnalyzer, t: GoType, paths: Paths, sc0: StructCache)
    ensures CacheSpec(a, t, paths, sc0).cache.isRoot == sc0.isRoot
    ensures CacheSpec(a, t, paths, sc0).cache.index == sc0.index
    ensures DoublePointer(t) ==> CacheSpec(a, t, paths, sc0) == Level(sc0, false)
  {
    var s := DerefType(t);
    if !DoublePointer(t) && s.StructOf? {
      FieldsKeepHeader(a, s, paths, |s.fields|, sc0);
    }
  }

  lemma {:induction false} FieldsKeepHeader(a: StructAnalyzer, s: GoType, paths: Paths, n: nat, sc0: StructCache)
    requires s.StructOf? && n <= |s.fields|
    ensures FieldsSpec(a, s, paths, n, sc0).cache.isRoot == sc0.isRoot
    ensures FieldsSpec(a, s, paths, n, sc0).cache.index == sc0.index
  {
    if n > 0 {
      FieldsKeepHeader(a, s, paths, n - 1, sc0);
    }
  }
}
