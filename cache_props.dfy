/**
 * What the binding plan guarantees about every level it builds: which
 * fields are recorded and with what metadata, which nested levels are
 * kept, in which order, and how tag paths grow from level to level.
 */
module CacheProps {
  import opened Wrappers
  import opened GoTypes
  import opened TagsPaths
  import opened Cache

  function Head(ix: seq<nat>): nat
  {
    if |ix| == 0 then 0 else ix[0]
  }

  /**
   * The metadata recorded for field `f` of a level whose paths start as
   * `paths`: the field is not a pointer to a pointer, its type is stored
   * with one pointer removed (for a slice or array without unmarshaler,
   * the element type with one pointer removed), its default and exploder
   * are copied from its tag, and it has a value tag or some tag and a
   * supported type.
   */
  predicate RecordedField(a: StructAnalyzer, f: StructField, paths: Paths, md: FieldMetadata)
  {
    var ft := DerefType(f.typ);
    && !DoublePointer(f.typ)
    && !md.typ.Pointer?
    && md.paths == LookupSpec(a.tags, f.tag, paths)
    && md.implementUnmarshaller == IsImplementingUnmarshaler(f.typ)
    && md.defaultValue == TagGet(f.tag, "default")
    && md.exploder == TagGet(f.tag, "exploder")
    && (md.arrayOrSlice <==> !md.implementUnmarshaller && (ft.SliceOf? || ft.ArrayOf?))
    && (md.arrayOrSlice ==> !DoublePointer(ft.elem) && md.typ == DerefType(ft.elem))
    && (!md.arrayOrSlice ==> md.typ == ft)
    && (HasValueTag(md.paths, a.valueTag)
        || (AnyTag(a.tags, f.tag) && (md.implementUnmarshaller || IsUnmarshallable(md.typ))))
  }

  /**
   * A nested level kept for field `f` at position `i`: the field carries
   * no value tag, is embedded or a struct, and its own analysis found a tag.
   */
  predicate ChildField(a: StructAnalyzer, f: StructField, i: nat, paths: Paths, c: StructCache)
  {
    var cp := LookupSpec(a.tags, f.tag, paths);
    && c.index == [i]
    && !c.isRoot
    && !DoublePointer(f.typ)
    && !HasValueTag(cp, a.valueTag)
    && (f.anonymous || DerefType(f.typ).StructOf?)
    && CacheSpec(a, DerefType(f.typ), cp, NewStructCacheFromField(i)) == Level(c, true)
  }

  predicate Recorded(a: StructAnalyzer, s: GoType, paths: Paths, md: FieldMetadata)
    requires s.StructOf?
  {
    |md.index| == 1 && md.index[0] < |s.fields| && RecordedField(a, s.fields[md.index[0]], paths, md)
  }

  predicate ChildOk(a: StructAnalyzer, s: GoType, paths: Paths, c: StructCache)
    requires s.StructOf?
  {
    |c.index| == 1 && c.index[0] < |s.fields| && ChildField(a, s.fields[c.index[0]], c.index[0], paths, c)
  }

  /** Entries for fields among the first `n` of `s`, each sound, in declaration order. */
  predicate EntriesOk(a: StructAnalyzer, s: GoType, paths: Paths, rs: seq<FieldMetadata>, n: nat)
    requires s.StructOf?
  {
    && (forall j :: 0 <= j < |rs| ==> Recorded(a, s, paths, rs[j]) && Head(rs[j].index) < n)
    && (forall j, k :: 0 <= j < k < |rs| ==> Head(rs[j].index) < Head(rs[k].index))
  }

  /** Nested levels for fields among the first `n` of `s`, each kept for a reason, in declaration order. */
  predicate ChildrenOk(a: StructAnalyzer, s: GoType, paths: Paths, cs: seq<StructCache>, n: nat)
    requires s.StructOf?
  {
    && (forall j :: 0 <= j < |cs| ==> ChildOk(a, s, paths, cs[j]) && Head(cs[j].index) < n)
    && (forall j, k :: 0 <= j < k < |cs| ==> Head(cs[j].index) < Head(cs[k].index))
  }

  /** One level built from the first `n` fields of `s`. */
  predicate LevelOk(a: StructAnalyzer, s: GoType, paths: Paths, sc: StructCache, n: nat)
    requires s.StructOf?
  {
    EntriesOk(a, s, paths, sc.resolvable, n) && ChildrenOk(a, s, paths, sc.child, n)
  }

  /** The whole tree below a level is sound, each nested level judged against its own struct type and paths. */
  predicate TreeOk(a: StructAnalyzer, s: GoType, paths: Paths, sc: StructCache)
    requires s.StructOf?
    decreases sc
  {
    && LevelOk(a, s, paths, sc, |s.fields|)
    && forall j :: 0 <= j < |sc.child| ==>
         var c := sc.child[j];
         var f := s.fields[c.index[0]];
         DerefType(f.typ).StructOf? && TreeOk(a, DerefType(f.typ), LookupSpec(a.tags, f.tag, paths), c)
  }

  predicate AppendedEntries(a: StructAnalyzer, paths: Paths, f: StructField, i: nat, before: seq<FieldMetadata>, after: seq<FieldMetadata>)
  {
    && before <= after && |after| <= |before| + 1
    && (forall j :: |before| <= j < |after| ==> after[j].index == [i] && RecordedField(a, f, paths, after[j]))
  }

  predicate AppendedChildren(a: StructAnalyzer, paths: Paths, f: StructField, i: nat, before: seq<StructCache>, after: seq<StructCache>)
  {
    && before <= after && |after| <= |before| + 1
    && (forall j :: |before| <= j < |after| ==> ChildField(a, f, i, paths, after[j]))
  }

  /** `after` is `before` with at most one entry and at most one nested level appended, both for field `f` at position `i`. */
  predicate Appended(a: StructAnalyzer, paths: Paths, f: StructField, i: nat, before: StructCache, after: StructCache)
  {
    && after.isRoot == before.isRoot && after.index == before.index
    && AppendedEntries(a, paths, f, i, before.resolvable, after.resolvable)
    && AppendedChildren(a, paths, f, i, before.child, after.child)
  }

  /** One iteration of the field loop appends at most one entry and one nested level, both for that field. */
  lemma FieldStep(a: StructAnalyzer, paths: Paths, f: StructField, i: nat, acc: Level)
    ensures Appended(a, paths, f, i, acc.cache, FieldSpec(a, paths, f, i, acc).cache)
  {
    if !DoublePointer(f.typ) {
      var cp := LookupSpec(a.tags, f.tag, paths);
      CacheKeepsHeader(a, DerefType(f.typ), cp, NewStructCacheFromField(i));
    }
  }

  lemma {:induction false} FieldsSound(a: StructAnalyzer, s: GoType, paths: Paths, n: nat, sc0: StructCache)
    requires s.StructOf? && n <= |s.fields|
    requires sc0.resolvable == [] && sc0.child == []
    ensures LevelOk(a, s, paths, FieldsSpec(a, s, paths, n, sc0).cache, n)
  {
    if n > 0 {
      FieldsSound(a, s, paths, n - 1, sc0);
      FieldsStep(a, s, paths, n, sc0);
    }
  }

  lemma FieldsStep(a: StructAnalyzer, s: GoType, paths: Paths, n: nat, sc0: StructCache)
    requires s.StructOf? && 0 < n <= |s.fields|
    requires LevelOk(a, s, paths, FieldsSpec(a, s, paths, n - 1, sc0).cache, n - 1)
    ensures LevelOk(a, s, paths, FieldsSpec(a, s, paths, n, sc0).cache, n)
  {
    FieldsAppend(a, s, paths, n, sc0);
    LevelGrows(a, s, paths, n, FieldsSpec(a, s, paths, n - 1, sc0).cache, FieldsSpec(a, s, paths, n, sc0).cache);
  }

  /** Field `n - 1` appends at most one entry and one nested level to the level built from the fields before it. */
  lemma FieldsAppend(a: StructAnalyzer, s: GoType, paths: Paths, n: nat, sc0: StructCache)
    requires s.StructOf? && 0 < n <= |s.fields|
    ensures Appended(a, paths, s.fields[n - 1], n - 1, FieldsSpec(a, s, paths, n - 1, sc0).cache, FieldsSpec(a, s, paths, n, sc0).cache)
  {
    FieldStep(a, paths, s.fields[n - 1], n - 1, FieldsSpec(a, s, paths, n - 1, sc0));
  }

  /** Appending entries for field `n - 1` to a sound level over the first `n - 1` fields gives a sound level over `n`. */
  lemma LevelGrows(a: StructAnalyzer, s: GoType, paths: Paths, n: nat, before: StructCache, after: StructCache)
    requires s.StructOf? && 0 < n <= |s.fields|
    ensures LevelOk(a, s, paths, before, n - 1) && Appended(a, paths, s.fields[n - 1], n - 1, before, after) ==>
      LevelOk(a, s, paths, after, n)
  {
    if LevelOk(a, s, paths, before, n - 1) && Appended(a, paths, s.fields[n - 1], n - 1, before, after) {
      EntriesGrow(a, s, paths, n, before.resolvable, after.resolvable);
      ChildrenGrow(a, s, paths, n, before.child, after.child);
    }
  }

  lemma EntriesGrow(a: StructAnalyzer, s: GoType, paths: Paths, n: nat, before: seq<FieldMetadata>, after: seq<FieldMetadata>)
    requires s.StructOf? && 0 < n <= |s.fields|
    requires EntriesOk(a, s, paths, before, n - 1)
    requires AppendedEntries(a, paths, s.fields[n - 1], n - 1, before, after)
    ensures EntriesOk(a, s, paths, after, n)
  {
    forall j | 0 <= j < |after|
      ensures Recorded(a, s, paths, after[j]) && Head(after[j].index) < n
    {
      if j < |before| {
        assert after[j] == before[j];
      }
    }
    forall j, k | 0 <= j < k < |after|
      ensures Head(after[j].index) < Head(after[k].index)
    {
      assert after[j] == before[j];
      if k < |before| {
        assert after[k] == before[k];
      }
    }
  }

  lemma ChildrenGrow(a: StructAnalyzer, s: GoType, paths: Paths, n: nat, before: seq<StructCache>, after: seq<StructCache>)
    requires s.StructOf? && 0 < n <= |s.fields|
    requires ChildrenOk(a, s, paths, before, n - 1)
    requires AppendedChildren(a, paths, s.fields[n - 1], n - 1, before, after)
    ensures ChildrenOk(a, s, paths, after, n)
  {
    forall j | 0 <= j < |after|
      ensures ChildOk(a, s, paths, after[j]) && Head(after[j].index) < n
    {
      if j < |before| {
        assert after[j] == before[j];
      }
    }
    forall j, k | 0 <= j < k < |after|
      ensures Head(after[j].index) < Head(after[k].index)
    {
      assert after[j] == before[j];
      if k < |before| {
        assert after[k] == before[k];
      }
    }
  }

  /**
   * Every level of the plan, down to the deepest nested struct, records
   * only sound fields and kept children, in declaration order.
   */
  lemma {:induction false} CacheTreeSound(a: StructAnalyzer, t: GoType, paths: Paths, sc0: StructCache)
    requires sc0.resolvable == [] && sc0.child == []
    requires !DoublePointer(t) && DerefType(t).StructOf?
    ensures TreeOk(a, DerefType(t), paths, CacheSpec(a, t, paths, sc0).cache)
    decreases t
  {
    var s := DerefType(t);
    var sc := CacheSpec(a, t, paths, sc0).cache;
    FieldsSound(a, s, paths, |s.fields|, sc0);
    forall j | 0 <= j < |sc.child|
      ensures var c := sc.child[j];
        var f := s.fields[c.index[0]];
        DerefType(f.typ).StructOf? && TreeOk(a, DerefType(f.typ), LookupSpec(a.tags, f.tag, paths), c)
    {
      var c := sc.child[j];
      var i := c.index[0];
      var f := s.fields[i];
      assert f in s.fields;
      var cp := LookupSpec(a.tags, f.tag, paths);
      assert CacheSpec(a, DerefType(f.typ), cp, NewStructCacheFromField(i)) == Level(c, true);
      assert DerefType(f.typ).StructOf?;
      CacheTreeSound(a, DerefType(f.typ), cp, NewStructCacheFromField(i));
    }
  }

  /** The plan `Cache` returns for a struct (or pointer-to-struct) input type is sound throughout. */
  lemma AnalyzeSound(a: StructAnalyzer)
    requires a.mainStructType.Some? && !DoublePointer(a.mainStructType.value)
    requires DerefType(a.mainStructType.value).StructOf?
    ensures TreeOk(a, DerefType(a.mainStructType.value), map[], AnalyzeSpec(a))
  {
    CacheTreeSound(a, a.mainStructType.value, map[], NewStructCache());
  }

  /** `lookupTags` adds exactly the analyzer tags the field carries. */
  lemma {:induction false} LookupKeys(tags: seq<string>, fieldTag: map<string, string>, m: Paths)
    ensures forall t :: t in LookupSpec(tags, fieldTag, m) <==> t in m || (t in tags && t in fieldTag)
  {
    if |tags| > 0 {
      LookupKeys(tags[..|tags| - 1], fieldTag, m);
      assert tags == tags[..|tags| - 1] + [tags[|tags| - 1]];
    }
  }

  /** A field without any analyzer tag passes its level's paths through unchanged. */
  lemma {:induction false} LookupUntagged(tags: seq<string>, fieldTag: map<string, string>, m: Paths)
    requires !AnyTag(tags, fieldTag)
    ensures LookupSpec(tags, fieldTag, m) == m
  {
    if |tags| > 0 {
      LookupUntagged(tags[..|tags| - 1], fieldTag, m);
    }
  }

  /**
   * With distinct analyzer tags, a tagged field's path for a tag is the
   * parent path for that tag, then a dot, then the field's key; a tag the
   * field lacks keeps the parent path.
   */
  lemma {:induction false} LookupDistinct(tags: seq<string>, fieldTag: map<string, string>, m: Paths, t: string)
    requires forall j, k :: 0 <= j < k < |tags| ==> tags[j] != tags[k]
    ensures t in tags && t in fieldTag ==>
      t in LookupSpec(tags, fieldTag, m) && LookupSpec(tags, fieldTag, m)[t] == (if t in m && m[t] != "" then m[t] + "." + fieldTag[t] else fieldTag[t])
    ensures !(t in tags && t in fieldTag) && t in m ==>
      t in LookupSpec(tags, fieldTag, m) && LookupSpec(tags, fieldTag, m)[t] == m[t]
  {
    if |tags| > 0 {
      var init := tags[..|tags| - 1];
      LookupDistinct(init, fieldTag, m, t);
      LookupKeys(init, fieldTag, m);
      assert tags == init + [tags[|tags| - 1]];
    }
  }

  /**
   * A tag listed twice is added twice: with the tag list the package's own
   * table test uses, a `query:"name"` field gets the path `name.name`.
   */
  lemma DuplicateTagComposes()
    ensures LookupSpec(["query", "path", "query"], map["query" := "name"], map[]) == map["query" := "name.name"]
  {
    var ft := map["query" := "name"];
    assert ["query"][..0] == [];
    assert ["query", "path"][..1] == ["query"];
    assert ["query", "path", "query"][..2] == ["query", "path"];
    assert "name" + "." + "name" == "name.name";
    calc {
      LookupSpec(["query", "path", "query"], ft, map[]);
      Extend(LookupSpec(["query", "path"], ft, map[]), "query", "name");
      Extend(LookupSpec(["query"], ft, map[]), "query", "name");
      Extend(Extend(map[], "query", "name"), "query", "name");
      Extend(map["query" := "name"], "query", "name");
      map["query" := "name.name"];
    }
  }

  /**
   * With no value tag among a level's starting paths and every value tag
   * looked up, a recorded field carries some analyzer tag itself: an
   * untagged plain field is never recorded.
   */
  lemma RecordedTagged(a: StructAnalyzer, f: StructField, paths: Paths, md: FieldMetadata)
    requires RecordedField(a, f, paths, md)
    requires !HasValueTag(paths, a.valueTag)
    requires forall k :: 0 <= k < |a.valueTag| ==> a.valueTag[k] in a.tags
    ensures AnyTag(a.tags, f.tag)
  {
    LookupKeys(a.tags, f.tag, paths);
    if HasValueTag(md.paths, a.valueTag) {
      var k :| 0 <= k < |a.valueTag| && a.valueTag[k] in md.paths;
      var v := a.valueTag[k];
      assert v in a.tags && v in f.tag;
      var j :| 0 <= j < |a.tags| && a.tags[j] == v;
    }
  }
}
