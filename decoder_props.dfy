/**
 * What the decoder promises: the order in which sources are consulted,
 * when values are cut by the exploder, that the first error stops the
 * decode, that a level where nothing was found allocates nothing, that
 * the pending chain is re-allocated link by link, that nothing reached
 * through an unexported field is written, and that decoding a level
 * writes nowhere outside the struct it starts from.
 */
module DecoderProps {
  import opened Wrappers
  import opened GoTypes
  import opened Values
  import opened Failures
  import TagsPaths
  import opened Cache
  import Text
  import opened FieldSetter
  import opened Decoder
  import Decoding
  import SetterProps

  /** A string extractor gives an answer for the field: an error or at least one string. */
  predicate StringsAnswers(e: StringsExtractor, md: FieldMetadata)
  {
    e.tag in md.paths && e.extract(md.paths[e.tag]) != Success([])
  }

  /** A value extractor gives an answer for the field: an error or a non-nil value. */
  predicate ValueAnswers(e: ValueExtractor, md: FieldMetadata)
  {
    e.tag in md.paths && e.extract(md.paths[e.tag]) != Success(None)
  }

  /** The string extractors fall through exactly when none of them answers; an extractor that finds nothing is skipped. */
  lemma {:induction false} StringsSilent(sx: seq<StringsExtractor>, md: FieldMetadata)
    ensures FromStrings(sx, md) == Success(None) <==> forall j :: 0 <= j < |sx| ==> !StringsAnswers(sx[j], md)
  {
    if |sx| > 0 {
      StringsSilent(sx[1..], md);
      assert forall j :: 1 <= j < |sx| ==> sx[j] == sx[1..][j - 1];
    }
  }

  /** The first string extractor that answers decides, alone, what the string extractors give. */
  lemma {:induction false} StringsFirstAnswer(sx: seq<StringsExtractor>, md: FieldMetadata, k: nat)
    requires k < |sx| && StringsAnswers(sx[k], md)
    requires forall j :: 0 <= j < k ==> !StringsAnswers(sx[j], md)
    ensures FromStrings(sx, md) == FromStrings([sx[k]], md) != Success(None)
  {
    if k > 0 {
      StringsFirstAnswer(sx[1..], md, k - 1);
    }
  }

  /** The value extractors fall through exactly when none of them answers. */
  lemma {:induction false} ValuesSilent(vx: seq<ValueExtractor>, md: FieldMetadata)
    ensures FromValues(vx, md) == Success(None) <==> forall j :: 0 <= j < |vx| ==> !ValueAnswers(vx[j], md)
  {
    if |vx| > 0 {
      ValuesSilent(vx[1..], md);
      assert forall j :: 1 <= j < |vx| ==> vx[j] == vx[1..][j - 1];
    }
  }

  /** The first value extractor that answers decides, alone, what the value extractors give. */
  lemma {:induction false} ValuesFirstAnswer(vx: seq<ValueExtractor>, md: FieldMetadata, k: nat)
    requires k < |vx| && ValueAnswers(vx[k], md)
    requires forall j :: 0 <= j < k ==> !ValueAnswers(vx[j], md)
    ensures FromValues(vx, md) == FromValues([vx[k]], md) != Success(None)
  {
    if k > 0 {
      ValuesFirstAnswer(vx[1..], md, k - 1);
    }
  }

  /** A string extractor that answers wins over every value extractor and the default. */
  lemma StringsWin(sx: seq<StringsExtractor>, vx: seq<ValueExtractor>, md: FieldMetadata, key: string, k: nat)
    requires k < |sx| && StringsAnswers(sx[k], md)
    requires forall j :: 0 <= j < k ==> !StringsAnswers(sx[j], md)
    ensures PickWith(sx, vx, md, key) == FromStrings([sx[k]], md)
  {
    StringsFirstAnswer(sx, md, k);
  }

  /** When no string extractor answers, the first value extractor that answers wins over the default. */
  lemma ValuesWin(sx: seq<StringsExtractor>, vx: seq<ValueExtractor>, md: FieldMetadata, key: string, k: nat)
    requires forall j :: 0 <= j < |sx| ==> !StringsAnswers(sx[j], md)
    requires k < |vx| && ValueAnswers(vx[k], md)
    requires forall j :: 0 <= j < k ==> !ValueAnswers(vx[j], md)
    ensures PickWith(sx, vx, md, key) == FromValues([vx[k]], md)
  {
    StringsSilent(sx, md);
    ValuesFirstAnswer(vx, md, k);
  }

  /** The default is consulted only when no extractor answers. */
  lemma DefaultLast(sx: seq<StringsExtractor>, vx: seq<ValueExtractor>, md: FieldMetadata, key: string)
    requires forall j :: 0 <= j < |sx| ==> !StringsAnswers(sx[j], md)
    requires forall j :: 0 <= j < |vx| ==> !ValueAnswers(vx[j], md)
    ensures PickWith(sx, vx, md, key) == Success(FromDefault(md, key))
  {
    StringsSilent(sx, md);
    ValuesSilent(vx, md);
  }

  /**
   * The strings found are cut by the exploder only when the exploder is
   * set, the field is a collection and exactly one string was found;
   * joining the pieces back gives that string.
   */
  lemma ExplodeStringsSpec(md: FieldMetadata, list: seq<string>)
    ensures !(|md.exploder| > 0 && |list| == 1 && md.arrayOrSlice) ==> ExplodeStrings(md, list) == list
    ensures |md.exploder| > 0 && |list| == 1 && md.arrayOrSlice ==>
      |ExplodeStrings(md, list)| >= 1 && Text.Join(ExplodeStrings(md, list), md.exploder) == list[0]
  {
    if |md.exploder| > 0 && |list| == 1 && md.arrayOrSlice {
      Text.SplitNonEmpty(list[0], md.exploder);
      Text.JoinSplit(list[0], md.exploder);
    }
  }

  /**
   * A single value is cut only when the exploder is set, the field is a
   * collection and the value contains the exploder; the pieces join back
   * to the value.
   */
  lemma ExplodeValueSpec(md: FieldMetadata, s: string)
    ensures ExplodeValue(md, s).Some? <==> |md.exploder| > 0 && md.arrayOrSlice && Text.Contains(s, md.exploder)
    ensures ExplodeValue(md, s).Some? ==>
      |ExplodeValue(md, s).value| > 1 && Text.Join(ExplodeValue(md, s).value, md.exploder) == s
  {
    if |md.exploder| > 0 {
      Text.SplitMany(s, md.exploder);
      Text.JoinSplit(s, md.exploder);
    }
  }

  /**
   * The default is used only when it is not empty, under the tag
   * "default"; it is handed over as pieces exactly when the exploder
   * applies and cuts it, and as the plain string otherwise.
   */
  lemma DefaultSpec(md: FieldMetadata, key: string)
    ensures FromDefault(md, key).Some? <==> |md.defaultValue| > 0
    ensures FromDefault(md, key).Some? ==> FromDefault(md, key).value.tag == "default" && FromDefault(md, key).value.path == key
    ensures FromDefault(md, key).Some? && !(|md.exploder| > 0 && md.arrayOrSlice && Text.Contains(md.defaultValue, md.exploder)) ==>
      FromDefault(md, key).value.value == StringDyn(md.defaultValue)
    ensures FromDefault(md, key).Some? && |md.exploder| > 0 && md.arrayOrSlice && Text.Contains(md.defaultValue, md.exploder) ==>
      exists pieces :: FromDefault(md, key).value.value == StringsDyn(pieces) && |pieces| > 1
        && Text.Join(pieces, md.exploder) == md.defaultValue
  {
    ExplodeValueSpec(md, md.defaultValue);
    if ExplodeValue(md, md.defaultValue).Some? {
      assert FromDefault(md, key).value.value == StringsDyn(ExplodeValue(md, md.defaultValue).value);
    }
  }

  /** In the decoder the default is reported under some non-default path of the field, or "unknown". */
  lemma DecoderDefaultName(sx: seq<StringsExtractor>, vx: seq<ValueExtractor>, order: TagsPaths.Paths -> seq<string>, md: FieldMetadata)
    requires forall j :: 0 <= j < |sx| ==> !StringsAnswers(sx[j], md)
    requires forall j :: 0 <= j < |vx| ==> !ValueAnswers(vx[j], md)
    requires |md.defaultValue| > 0
    ensures GetValueFromHTTP(sx, vx, order, md).Success? && GetValueFromHTTP(sx, vx, order, md).value.Some?
    ensures var p := GetValueFromHTTP(sx, vx, order, md).value.value;
      p.tag == "default" && (p.path == "unknown" || exists tag :: tag in md.paths && tag != "default" && md.paths[tag] == p.path)
  {
    var key := DefaultFieldName(md.paths, order(md.paths));
    DefaultLast(sx, vx, md, key);
    DefaultSpec(md, key);
  }

  /** In the older decoder a default is reported under the tag "default" and an empty path. */
  lemma DecodingDefaultName(sx: seq<StringsExtractor>, vx: seq<ValueExtractor>, md: FieldMetadata)
    requires forall j :: 0 <= j < |sx| ==> !StringsAnswers(sx[j], md)
    requires forall j :: 0 <= j < |vx| ==> !ValueAnswers(vx[j], md)
    requires |md.defaultValue| > 0
    ensures Decoding.Value(sx, vx, md).Success? && Decoding.Value(sx, vx, md).value.Some?
    ensures Decoding.Value(sx, vx, md).value.value.tag == "default" && Decoding.Value(sx, vx, md).value.value.path == ""
  {
    DefaultLast(sx, vx, md, "");
    DefaultSpec(md, "");
  }

  /**
   * A string from a value extractor is handed over as pieces, with no tag
   * and no path, exactly when the exploder applies and the string contains
   * it; otherwise it is handed over as it is, under the extractor's tag.
   */
  lemma ValueStringExploded(e: ValueExtractor, md: FieldMetadata, s: string)
    requires e.tag in md.paths && e.extract(md.paths[e.tag]) == Success(Some(StringDyn(s)))
    ensures |md.exploder| > 0 && md.arrayOrSlice && Text.Contains(s, md.exploder) ==>
      FromValues([e], md) == Success(Some(Pick("", "", StringsDyn(Text.Split(s, md.exploder)))))
    ensures !(|md.exploder| > 0 && md.arrayOrSlice && Text.Contains(s, md.exploder)) ==>
      FromValues([e], md) == Success(Some(Pick(e.tag, md.paths[e.tag], StringDyn(s))))
  {
    ExplodeValueSpec(md, s);
  }

  /** The fields `decode` sets at a level are those that won a value, each with the value it won, in declaration order. */
  lemma {:induction false} PicksSpec(pick: FieldMetadata -> Result<Option<Pick>, Err>, mds: seq<FieldMetadata>, n: nat)
    requires n <= |mds|
    requires forall j :: 0 <= j < n ==> pick(mds[j]).Success?
    ensures Picks(pick, mds, n).Success?
    ensures var fs := Picks(pick, mds, n).value;
      && (forall f :: f in fs ==> f.md in mds[..n] && pick(f.md) == Success(Some(f.pick)))
      && (|fs| > 0 <==> exists j :: 0 <= j < n && pick(mds[j]).value.Some?)
  {
    if n > 0 {
      PicksSpec(pick, mds, n - 1);
      assert mds[..n - 1] <= mds[..n];
    }
  }

  /** The first field whose extraction fails stops the level, with that error, before anything is written. */
  lemma {:induction false} FirstErrorStops(pick: FieldMetadata -> Result<Option<Pick>, Err>, mds: seq<FieldMetadata>, k: nat, n: nat)
    requires k < n <= |mds|
    requires pick(mds[k]).Failure?
    requires forall j :: 0 <= j < k ==> pick(mds[j]).Success?
    ensures Picks(pick, mds, n) == Failure(pick(mds[k]).error)
  {
    if n - 1 > k {
      FirstErrorStops(pick, mds, k, n - 1);
    } else {
      PicksSpec(pick, mds, k);
    }
  }

  /** An extraction error at a level ends the decode with that error and leaves the destination as it was. */
  lemma LevelErrorStops(
    pick: FieldMetadata -> Result<Option<Pick>, Err>, setter: Job -> Outcome,
    typ: GoType, c: StructCache, value: Value, base: Loc, chain: seq<Loc>, k: nat)
    requires k < |c.resolvable| && pick(c.resolvable[k]).Failure?
    requires forall j :: 0 <= j < k ==> pick(c.resolvable[j]).Success?
    ensures DecodeLevel(pick, setter, typ, c, value, base, chain) == Run(value, Some(Raise(pick(c.resolvable[k]).error)))
  {
    FirstErrorStops(pick, c.resolvable, k, |c.resolvable|);
  }

  /** No field of the level or of any level below it wins a value, and no extraction fails. */
  predicate Silent(pick: FieldMetadata -> Result<Option<Pick>, Err>, c: StructCache)
  {
    && (forall j :: 0 <= j < |c.resolvable| ==> pick(c.resolvable[j]) == Success(None))
    && (forall k :: 0 <= k < |c.child| ==> Silent(pick, c.child[k]))
  }

  /** Where no value is found, nothing is allocated and nothing is written, however long the pending chain. */
  lemma {:induction false} SilentKeeps(
    pick: FieldMetadata -> Result<Option<Pick>, Err>, setter: Job -> Outcome,
    typ: GoType, c: StructCache, value: Value, base: Loc, chain: seq<Loc>)
    requires Silent(pick, c)
    ensures DecodeLevel(pick, setter, typ, c, value, base, chain) == Run(value, None)
    decreases c, 1
  {
    PicksSpec(pick, c.resolvable, |c.resolvable|);
    SilentChildren(pick, setter, typ, c, |c.child|, value, base, chain);
  }

  lemma {:induction false} SilentChildren(
    pick: FieldMetadata -> Result<Option<Pick>, Err>, setter: Job -> Outcome,
    typ: GoType, c: StructCache, n: nat, value: Value, base: Loc, chain: seq<Loc>)
    requires n <= |c.child|
    requires forall k :: 0 <= k < n ==> Silent(pick, c.child[k])
    ensures Children(pick, setter, typ, c, n, value, base, chain) == Run(value, None)
    decreases c, 0, n
  {
    if n > 0 {
      SilentChildren(pick, setter, typ, c, n - 1, value, base, chain);
      var child := c.child[n - 1];
      assert child in c.child;
      assert Children(pick, setter, typ, c, n, value, base, chain)
        == DecodeLevel(pick, setter, typ, child, value, base, chain + [child.index]);
      SilentKeeps(pick, setter, typ, child, value, base, chain + [child.index]);
    }
  }

  /** The chain's locations end to end. */
  function Joined(chain: seq<Loc>): (r: Loc)
    ensures |chain| > 0 ==> Prefix(chain[0], r)
  {
    if |chain| == 0 then [] else chain[0] + Joined(chain[1..])
  }

  lemma {:induction false} JoinedSnoc(chain: seq<Loc>, n: nat)
    requires 0 < n <= |chain|
    ensures Joined(chain[..n]) == Joined(chain[..n - 1]) + chain[n - 1]
  {
    if n > 1 {
      assert chain[..n][1..] == chain[1..][..n - 1];
      assert chain[..n - 1][1..] == chain[1..][..n - 2];
      JoinedSnoc(chain[1..], n - 1);
    } else {
      assert chain[..1][1..] == [];
    }
  }

  /** A walk that goes through ends at the struct the whole chain leads to. */
  lemma {:induction false} WalkAt(typ: GoType, value: Value, base: Loc, chain: seq<Loc>, n: nat)
    requires n <= |chain|
    requires Walk(typ, value, base, chain, n).stop.None?
    ensures Walk(typ, value, base, chain, n).at == base + Joined(chain[..n])
  {
    if n > 0 {
      WalkNext(typ, value, base, chain, n);
      var w := Walk(typ, value, base, chain, n - 1);
      assert w.stop.None?;
      WalkAt(typ, value, base, chain, n - 1);
      JoinedSnoc(chain, n);
      var pre := Joined(chain[..n - 1]);
      assert Walk(typ, value, base, chain, n).at == (base + pre) + chain[n - 1];
      assert (base + pre) + chain[n - 1] == base + (pre + chain[n - 1]);
    }
  }

  /**
   * Every pointer link is allocated afresh, even one that already held a
   * value: when the last link walked is a pointer, it points to a zero
   * value, whatever it held before.
   */
  lemma WalkFresh(typ: GoType, value: Value, base: Loc, chain: seq<Loc>, n: nat, e: GoType)
    requires 0 < n <= |chain|
    requires Walk(typ, value, base, chain, n).stop.None?
    requires TypeAt(typ, Walk(typ, value, base, chain, n).at) == Some(Pointer(e))
    ensures Get(Walk(typ, value, base, chain, n).value, Walk(typ, value, base, chain, n).at) == Some(PtrV(Zero(e)))
  {
    WalkNext(typ, value, base, chain, n);
    var w := Walk(typ, value, base, chain, n - 1);
    GetPut(w.value, w.at + chain[n - 1], PtrV(Zero(e)));
  }

  /** Neither of two locations is a prefix of the other: what is at one is not inside what is at the other. */
  predicate Apart(a: Loc, b: Loc)
  {
    !Prefix(a, b) && !Prefix(b, a)
  }

  /** A location apart from `base` is apart from everything below `base`. */
  lemma ApartBelow(base: Loc, loc: Loc, other: Loc)
    requires Prefix(base, loc) && Apart(base, other)
    ensures Apart(loc, other)
  {
    var m := if |base| <= |other| then |base| else |other|;
    assert base[..m] != other[..m];
    var i :| 0 <= i < m && base[i] != other[i];
    assert loc[i] == base[i];
  }

  /** Walking the chain writes only below `base`, and ends below it. */
  lemma {:induction false} WalkStaysBelow(typ: GoType, value: Value, base: Loc, chain: seq<Loc>, n: nat, other: Loc)
    requires n <= |chain| && Apart(base, other)
    ensures Prefix(base, Walk(typ, value, base, chain, n).at)
    ensures Get(Walk(typ, value, base, chain, n).value, other) == Get(value, other)
  {
    if n > 0 {
      WalkNext(typ, value, base, chain, n);
      WalkStaysBelow(typ, value, base, chain, n - 1, other);
      var w := Walk(typ, value, base, chain, n - 1);
      if w.stop.None? {
        var loc := w.at + chain[n - 1];
        assert Prefix(base, loc) by {
          assert loc[..|base|] == w.at[..|base|];
        }
        ApartBelow(base, loc, other);
        LinkApart(typ, w.value, loc, other);
      }
    }
  }

  /** One link writes nothing apart from the location it steps to. */
  lemma LinkApart(typ: GoType, value: Value, loc: Loc, other: Loc)
    requires Apart(loc, other)
    ensures Get(Link(typ, value, loc).value, other) == Get(value, other)
  {
    var ft := TypeAt(typ, loc);
    if Get(value, loc).Some? && ft.Some? && ft.value.Pointer? {
      GetPutOther(value, loc, other, PtrV(Zero(ft.value.elem)));
    }
  }

  /**
   * A pointer link that cannot be set is never allocated: the walk stops
   * there with the panic of `reflect.Value.Set`, and the destination is
   * as it was before the link.
   */
  lemma WalkUnsettable(typ: GoType, value: Value, base: Loc, chain: seq<Loc>, n: nat)
    requires 0 < n <= |chain|
    requires var w := Walk(typ, value, base, chain, n - 1);
      && w.stop.None? && Get(w.value, w.at + chain[n - 1]).Some?
      && TypeAt(typ, w.at + chain[n - 1]).Some? && TypeAt(typ, w.at + chain[n - 1]).value.Pointer?
    ensures var w := Walk(typ, value, base, chain, n - 1);
      CanSetAt(typ, w.at + chain[n - 1]) <==> Walk(typ, value, base, chain, n).stop.None?
    ensures var w := Walk(typ, value, base, chain, n - 1);
      !CanSetAt(typ, w.at + chain[n - 1]) ==>
        Walk(typ, value, base, chain, n) == Walked(w.value, w.at + chain[n - 1], Some(Panic(UnexportedSet)))
  {
    WalkNext(typ, value, base, chain, n);
  }

  /**
   * With the setter the decoders run, a field that cannot be set keeps its
   * value: the set either stops before writing or panics.
   */
  lemma UnsettableFieldKept(typ: GoType, value: Value, at: Loc, f: ToSet, ext: Outside)
    requires !CanSetAt(typ, at + f.md.index)
    ensures SetOne(typ, value, at, f, Setter(ext)).value == value
  {
    var loc := at + f.md.index;
    if Get(value, loc).Some? && TypeAt(typ, loc).Some? {
      SetterProps.UnsettableNeverWritten(JobAt(typ, loc, f), ext);
    }
  }

  /** Setting the fields of the struct at `at` writes only below `at`. */
  lemma {:induction false} SetFieldsStayBelow(
    typ: GoType, value: Value, at: Loc, fs: seq<ToSet>, n: nat, setter: Job -> Outcome, other: Loc)
    requires n <= |fs| && Apart(at, other)
    ensures Get(SetFields(typ, value, at, fs, n, setter).value, other) == Get(value, other)
  {
    if n > 0 {
      SetFieldsNext(typ, value, at, fs, n, setter);
      SetFieldsStayBelow(typ, value, at, fs, n - 1, setter, other);
      var r := SetFields(typ, value, at, fs, n - 1, setter);
      if r.stop.None? {
        var loc := at + fs[n - 1].md.index;
        assert Prefix(at, loc);
        ApartBelow(at, loc, other);
        if Get(r.value, loc).Some? && TypeAt(typ, loc).Some? {
          var out := setter(JobAt(typ, loc, fs[n - 1]));
          if out.Store? {
            GetPutOther(r.value, loc, other, out.v);
          }
        }
      }
    }
  }

  /**
   * Decoding a level, children included, writes nothing outside the
   * struct it starts from: every child is decoded below its parent.
   */
  lemma {:induction false} DecodeStaysBelow(
    pick: FieldMetadata -> Result<Option<Pick>, Err>, setter: Job -> Outcome,
    typ: GoType, c: StructCache, value: Value, base: Loc, chain: seq<Loc>, other: Loc)
    requires Apart(base, other)
    ensures Get(DecodeLevel(pick, setter, typ, c, value, base, chain).value, other) == Get(value, other)
    decreases c, 1
  {
    var picked := Picks(pick, c.resolvable, |c.resolvable|);
    if picked.Success? {
      if |picked.value| > 0 {
        WalkStaysBelow(typ, value, base, chain, |chain|, other);
        var w := Walk(typ, value, base, chain, |chain|);
        if w.stop.None? {
          ApartBelow(base, w.at, other);
          SetFieldsStayBelow(typ, w.value, w.at, picked.value, |picked.value|, setter, other);
          var r := SetFields(typ, w.value, w.at, picked.value, |picked.value|, setter);
          if r.stop.None? {
            ChildrenStayBelow(pick, setter, typ, c, |c.child|, r.value, w.at, [], other);
          }
        }
      } else {
        ChildrenStayBelow(pick, setter, typ, c, |c.child|, value, base, chain, other);
      }
    }
  }

  lemma {:induction false} ChildrenStayBelow(
    pick: FieldMetadata -> Result<Option<Pick>, Err>, setter: Job -> Outcome,
    typ: GoType, c: StructCache, n: nat, value: Value, base: Loc, chain: seq<Loc>, other: Loc)
    requires n <= |c.child| && Apart(base, other)
    ensures Get(Children(pick, setter, typ, c, n, value, base, chain).value, other) == Get(value, other)
    decreases c, 0, n
  {
    if n > 0 {
      ChildrenStayBelow(pick, setter, typ, c, n - 1, value, base, chain, other);
      var r := Children(pick, setter, typ, c, n - 1, value, base, chain);
      if r.stop.None? {
        assert c.child[n - 1] in c.child;
        DecodeStaysBelow(pick, setter, typ, c.child[n - 1], r.value, base, chain + [c.child[n - 1].index], other);
      }
    }
  }
}
