/**
 * internal/decoder/decoder.go: filling a fresh destination from the
 * binding plan, level by level.
 *
 * At each level every recorded field is offered to the sources in a fixed
 * priority (the string extractors in order, then the value extractors,
 * then the static default). If some field won a value, the chain of
 * nested pointers still pending above the level is allocated link by link
 * (every pointer link gets a fresh zero value, even one that was already
 * set; a link that cannot be set, because it was reached through an
 * unexported field, panics), the fields are set one after the other, and
 * the level becomes the new starting point. The child levels are decoded
 * next, each with the pending chain extended by the child's index. The
 * first error stops everything.
 *
 * The request and the response are not modelled: an extractor is its tag
 * and a function from a path to what it finds in the request. The engine
 * is written once, over the function that picks a field's value, because
 * internal/decoding/decoding.go runs the same loop with a picker of its
 * own. The functions say what a decode produces; the methods do it the
 * way the source does, writing the destination in place.
 */
module Decoder {
  import opened Wrappers
  import opened GoTypes
  import opened Values
  import opened Failures
  import opened TagsPaths
  import opened Cache
  import Text
  import opened FieldSetter

  /** `extractor.Strings`: its tag, and the strings it finds in the request under a path. */
  datatype StringsExtractor = StringsExtractor(tag: string, extract: string -> Result<seq<string>, Err>)

  /** `extractor.Value`: its tag, and the value it finds under a path (`None` for nil). */
  datatype ValueExtractor = ValueExtractor(tag: string, extract: string -> Result<Option<Dyn>, Err>)

  /** The value a field won: the tag of the source that gave it, the path it was found under, the value. */
  datatype Pick = Pick(tag: string, path: string, value: Dyn)

  /** The strings an extractor found, split on the exploder when the field is a collection and there is one string. */
  function ExplodeStrings(md: FieldMetadata, list: seq<string>): seq<string>
  {
    if |md.exploder| > 0 && |list| == 1 && md.arrayOrSlice then Text.Split(list[0], md.exploder) else list
  }

  /** The pieces of `s` when the exploder applies to the field and cuts `s` in more than one piece. */
  function ExplodeValue(md: FieldMetadata, s: string): Option<seq<string>>
  {
    if |md.exploder| > 0 && md.arrayOrSlice && |Text.Split(s, md.exploder)| > 1 then Some(Text.Split(s, md.exploder))
    else None
  }

  /** The loop over the string extractors; `None` when none of them gave a value. */
  function FromStrings(sx: seq<StringsExtractor>, md: FieldMetadata): Result<Option<Pick>, Err>
  {
    if |sx| == 0 then Success(None)
    else
      var e := sx[0];
      if e.tag in md.paths then
        match e.extract(md.paths[e.tag])
        case Failure(err) => Failure(err)
        case Success(list) =>
          if |list| == 0 then FromStrings(sx[1..], md)
          else Success(Some(Pick(e.tag, md.paths[e.tag], StringsDyn(ExplodeStrings(md, list)))))
      else FromStrings(sx[1..], md)
  }

  /** The loop over the value extractors: a string the exploder cuts is returned as pieces, with no tag and no path. */
  function FromValues(vx: seq<ValueExtractor>, md: FieldMetadata): Result<Option<Pick>, Err>
  {
    if |vx| == 0 then Success(None)
    else
      var e := vx[0];
      if e.tag in md.paths then
        match e.extract(md.paths[e.tag])
        case Failure(err) => Failure(err)
        case Success(None) => FromValues(vx[1..], md)
        case Success(Some(v)) =>
          if v.typ == StringType && ExplodeValue(md, StringOf(v.val)).Some? then
            Success(Some(Pick("", "", StringsDyn(ExplodeValue(md, StringOf(v.val)).value))))
          else Success(Some(Pick(e.tag, md.paths[e.tag], v)))
      else FromValues(vx[1..], md)
  }

  /** The static default, under the tag "default" and the path `key`, cut by the exploder when that gives several pieces. */
  function FromDefault(md: FieldMetadata, key: string): Option<Pick>
  {
    if |md.defaultValue| > 0 then
      match ExplodeValue(md, md.defaultValue)
      case Some(list) => Some(Pick("default", key, StringsDyn(list)))
      case None => Some(Pick("default", key, StringDyn(md.defaultValue)))
    else None
  }

  /** The three sources in priority order, the default reported under `key`. */
  function PickWith(sx: seq<StringsExtractor>, vx: seq<ValueExtractor>, md: FieldMetadata, key: string)
    : Result<Option<Pick>, Err>
  {
    match FromStrings(sx, md)
    case Failure(err) => Failure(err)
    case Success(Some(p)) => Success(Some(p))
    case Success(None) =>
      match FromValues(vx, md)
      case Failure(err) => Failure(err)
      case Success(Some(p)) => Success(Some(p))
      case Success(None) => Success(FromDefault(md, key))
  }

  /**
   * `getValueFromHTTP`: the default is reported under the field's default
   * name; `order` gives the order Go ranges over a field's paths in.
   */
  function GetValueFromHTTP(sx: seq<StringsExtractor>, vx: seq<ValueExtractor>, order: Paths -> seq<string>, md: FieldMetadata)
    : Result<Option<Pick>, Err>
  {
    PickWith(sx, vx, md, DefaultFieldName(md.paths, order(md.paths)))
  }

  /** The picker `decode` uses: `getValueFromHTTP` over the decoder's extractors. */
  function Picker(sx: seq<StringsExtractor>, vx: seq<ValueExtractor>, order: Paths -> seq<string>)
    : FieldMetadata -> Result<Option<Pick>, Err>
  {
    md => GetValueFromHTTP(sx, vx, order, md)
  }

  /** A field that won a value, waiting to be set (`setterContext`). */
  datatype ToSet = ToSet(md: FieldMetadata, pick: Pick)

  /** The first loop of `decode`, after its first `n` fields: the fields that won a value, in order. */
  function Picks(pick: FieldMetadata -> Result<Option<Pick>, Err>, mds: seq<FieldMetadata>, n: nat): Result<seq<ToSet>, Err>
    requires n <= |mds|
  {
    if n == 0 then Success([])
    else
      match Picks(pick, mds, n - 1)
      case Failure(err) => Failure(err)
      case Success(fs) =>
        match pick(mds[n - 1])
        case Failure(err) => Failure(err)
        case Success(None) => Success(fs)
        case Success(Some(p)) => Success(fs + [ToSet(mds[n - 1], p)])
  }

  /** Where a walk down the pending chain ended, and the destination after it. */
  datatype Walked = Walked(value: Value, at: Loc, stop: Option<Abort>)

  /**
   * One link of the chain: step to the field at `loc` and, when it is a
   * pointer, point it to a fresh zero value (`Set` panics when the field
   * cannot be set).
   */
  function Link(typ: GoType, value: Value, loc: Loc): (w: Walked)
    ensures w.at == loc
  {
    if Get(value, loc).None? then Walked(value, loc, Some(Panic("reflect: FieldByIndex through a nil pointer")))
    else
      match TypeAt(typ, loc)
      case Some(Pointer(e)) =>
        if CanSetAt(typ, loc) then Walked(Put(value, loc, PtrV(Zero(e))), loc, None)
        else Walked(value, loc, Some(Panic(UnexportedSet)))
      case _ => Walked(value, loc, None)
  }

  /** A walk along a chain of relative locations, `step` taking one link until one of them stops it. */
  function Chained(step: (Walked, Loc) -> Walked, start: Walked, chain: seq<Loc>, n: nat): Walked
    requires n <= |chain|
  {
    if n == 0 then start
    else
      var w := Chained(step, start, chain, n - 1);
      if w.stop.Some? then w else step(w, chain[n - 1])
  }

  /** The link `getCurrentReflectValue` takes: from where the walk stands, down to `l` below it. */
  function LinkStep(typ: GoType): (Walked, Loc) -> Walked
  {
    (w: Walked, l: Loc) => Link(typ, w.value, w.at + l)
  }

  /** `getCurrentReflectValue` after its first `n` links, starting at `base`. */
  function Walk(typ: GoType, value: Value, base: Loc, chain: seq<Loc>, n: nat): Walked
    requires n <= |chain|
  {
    Chained(LinkStep(typ), Walked(value, base, None), chain, n)
  }

  /** What a decode leaves: the destination, and the error or panic it stopped with. */
  datatype Run = Run(value: Value, stop: Option<Abort>)

  /** The setter's job for a field at `loc`. */
  function JobAt(typ: GoType, loc: Loc, f: ToSet): Job
    requires TypeAt(typ, loc).Some?
  {
    Job(TypeAt(typ, loc).value, CanSetAt(typ, loc), f.pick.value, f.md, f.pick.path, f.pick.tag)
  }

  /** `newFieldSetter(field, setterCtx).set()` on the field `f` of the struct at `at`. */
  function SetOne(typ: GoType, value: Value, at: Loc, f: ToSet, setter: Job -> Outcome): Run
  {
    var loc := at + f.md.index;
    if Get(value, loc).None? || TypeAt(typ, loc).None? then Run(value, Some(Panic("reflect: FieldByIndex out of range")))
    else
      match setter(JobAt(typ, loc, f))
      case Store(v) => Run(Put(value, loc, v), None)
      case Keep => Run(value, None)
      case Stop(a) => Run(value, Some(a))
  }

  /** A run over a list of fields, `step` setting one field until one of them stops it. */
  function Applied(step: (Run, ToSet) -> Run, start: Run, fs: seq<ToSet>, n: nat): Run
    requires n <= |fs|
  {
    if n == 0 then start
    else
      var r := Applied(step, start, fs, n - 1);
      if r.stop.Some? then r else step(r, fs[n - 1])
  }

  /** The setting of one field of the struct at `at`, on the destination the run has reached. */
  function SetStep(typ: GoType, at: Loc, setter: Job -> Outcome): (Run, ToSet) -> Run
  {
    (r: Run, f: ToSet) => SetOne(typ, r.value, at, f, setter)
  }

  /** The second loop of `decode`, after its first `n` fields. */
  function SetFields(typ: GoType, value: Value, at: Loc, fs: seq<ToSet>, n: nat, setter: Job -> Outcome): Run
    requires n <= |fs|
  {
    Applied(SetStep(typ, at, setter), Run(value, None), fs, n)
  }

  /**
   * `decode` of the level `c` of the plan, with the struct reached at
   * `base` and the chain of field indices still to walk below it.
   */
  function DecodeLevel(
    pick: FieldMetadata -> Result<Option<Pick>, Err>, setter: Job -> Outcome,
    typ: GoType, c: StructCache, value: Value, base: Loc, chain: seq<Loc>): Run
    decreases c, 1
  {
    match Picks(pick, c.resolvable, |c.resolvable|)
    case Failure(err) => Run(value, Some(Raise(err)))
    case Success(fs) =>
      if |fs| > 0 then
        var w := Walk(typ, value, base, chain, |chain|);
        if w.stop.Some? then Run(w.value, w.stop)
        else
          var r := SetFields(typ, w.value, w.at, fs, |fs|, setter);
          if r.stop.Some? then r
          else Children(pick, setter, typ, c, |c.child|, r.value, w.at, [])
      else Children(pick, setter, typ, c, |c.child|, value, base, chain)
  }

  /** The loop over the child levels, after its first `n` children: each one extends the chain with its own index. */
  function Children(
    pick: FieldMetadata -> Result<Option<Pick>, Err>, setter: Job -> Outcome,
    typ: GoType, c: StructCache, n: nat, value: Value, base: Loc, chain: seq<Loc>): Run
    requires n <= |c.child|
    decreases c, 0, n
  {
    if n == 0 then Run(value, None)
    else
      var r := Children(pick, setter, typ, c, n - 1, value, base, chain);
      if r.stop.Some? then r
      else
        assert c.child[n - 1] in c.child;
        DecodeLevel(pick, setter, typ, c.child[n - 1], r.value, base, chain + [c.child[n - 1].index])
  }

  /** `Decode(c, root)`: the plan's root level on the struct behind the root pointer. */
  function DecodeSpec(pick: FieldMetadata -> Result<Option<Pick>, Err>, setter: Job -> Outcome, typ: GoType, c: StructCache, value: Value): Run
  {
    DecodeLevel(pick, setter, typ, c, value, [], [])
  }

  /** The first loop of `decode`: the fields that won a value, or the first extraction error. */
  method CollectPicks(pick: FieldMetadata -> Result<Option<Pick>, Err>, mds: seq<FieldMetadata>)
    returns (r: Result<seq<ToSet>, Err>)
    ensures r == Picks(pick, mds, |mds|)
  {
    r := Success([]);
    var i := 0;
    while i < |mds| && r.Success?
      invariant 0 <= i <= |mds|
      invariant Picks(pick, mds, i) == r
    {
      match pick(mds[i]) {
        case Failure(err) => r := Failure(err);
        case Success(None) =>
        case Success(Some(p)) => r := Success(r.value + [ToSet(mds[i], p)]);
      }
      i := i + 1;
    }
    if r.Failure? {
      PicksStop(pick, mds, i, |mds|);
    }
  }

  /** Once the first loop has failed it stays failed with the same error. */
  lemma {:induction false} PicksStop(pick: FieldMetadata -> Result<Option<Pick>, Err>, mds: seq<FieldMetadata>, k: nat, n: nat)
    requires k <= n <= |mds|
    requires Picks(pick, mds, k).Failure?
    ensures Picks(pick, mds, n) == Picks(pick, mds, k)
    decreases n - k
  {
    if k < n {
      PicksStop(pick, mds, k, n - 1);
    }
  }

  /** Once a walk has stopped it stays stopped. */
  lemma WalkStop(typ: GoType, value: Value, base: Loc, chain: seq<Loc>, k: nat, n: nat)
    requires k <= n <= |chain|
    requires Walk(typ, value, base, chain, k).stop.Some?
    ensures Walk(typ, value, base, chain, n) == Walk(typ, value, base, chain, k)
  {
    ChainedStop(LinkStep(typ), Walked(value, base, None), chain, k, n);
  }

  lemma {:induction false} ChainedStop(step: (Walked, Loc) -> Walked, start: Walked, chain: seq<Loc>, k: nat, n: nat)
    requires k <= n <= |chain|
    requires Chained(step, start, chain, k).stop.Some?
    ensures Chained(step, start, chain, n) == Chained(step, start, chain, k)
    decreases n - k
  {
    if k < n {
      ChainedStop(step, start, chain, k, n - 1);
    }
  }

  /** One more link of the walk: none once it has stopped, and otherwise the link to the next location. */
  lemma WalkNext(typ: GoType, value: Value, base: Loc, chain: seq<Loc>, n: nat)
    requires 0 < n <= |chain|
    ensures var w := Walk(typ, value, base, chain, n - 1);
      Walk(typ, value, base, chain, n) == if w.stop.Some? then w else Link(typ, w.value, w.at + chain[n - 1])
  {
  }

  /** Once setting has stopped it stays stopped. */
  lemma SetFieldsStop(typ: GoType, value: Value, at: Loc, fs: seq<ToSet>, k: nat, n: nat, setter: Job -> Outcome)
    requires k <= n <= |fs|
    requires SetFields(typ, value, at, fs, k, setter).stop.Some?
    ensures SetFields(typ, value, at, fs, n, setter) == SetFields(typ, value, at, fs, k, setter)
  {
    AppliedStop(SetStep(typ, at, setter), Run(value, None), fs, k, n);
  }

  lemma {:induction false} AppliedStop(step: (Run, ToSet) -> Run, start: Run, fs: seq<ToSet>, k: nat, n: nat)
    requires k <= n <= |fs|
    requires Applied(step, start, fs, k).stop.Some?
    ensures Applied(step, start, fs, n) == Applied(step, start, fs, k)
    decreases n - k
  {
    if k < n {
      AppliedStop(step, start, fs, k, n - 1);
    }
  }

  /** One more field: none once setting has stopped, and otherwise the setting of the next field. */
  lemma SetFieldsNext(typ: GoType, value: Value, at: Loc, fs: seq<ToSet>, n: nat, setter: Job -> Outcome)
    requires 0 < n <= |fs|
    ensures var r := SetFields(typ, value, at, fs, n - 1, setter);
      SetFields(typ, value, at, fs, n, setter) == if r.stop.Some? then r else SetOne(typ, r.value, at, fs[n - 1], setter)
  {
  }

  /** One more child: none once the decode has stopped, and otherwise that child's level with the chain extended by its index. */
  lemma ChildrenNext(
    pick: FieldMetadata -> Result<Option<Pick>, Err>, setter: Job -> Outcome,
    typ: GoType, c: StructCache, n: nat, value: Value, base: Loc, chain: seq<Loc>)
    requires 0 < n <= |c.child|
    ensures var r := Children(pick, setter, typ, c, n - 1, value, base, chain);
      var child := c.child[n - 1];
      Children(pick, setter, typ, c, n, value, base, chain)
        == if r.stop.Some? then r else DecodeLevel(pick, setter, typ, child, r.value, base, chain + [child.index])
  {
  }

  /** Once a child has stopped the decode, the later children are not decoded. */
  lemma {:induction false} ChildrenStop(
    pick: FieldMetadata -> Result<Option<Pick>, Err>, setter: Job -> Outcome,
    typ: GoType, c: StructCache, k: nat, n: nat, value: Value, base: Loc, chain: seq<Loc>)
    requires k <= n <= |c.child|
    requires Children(pick, setter, typ, c, k, value, base, chain).stop.Some?
    ensures Children(pick, setter, typ, c, n, value, base, chain) == Children(pick, setter, typ, c, k, value, base, chain)
    decreases n - k
  {
    if k < n {
      ChildrenStop(pick, setter, typ, c, k, n - 1, value, base, chain);
    }
  }

  /** `getCurrentReflectValue`: walks the chain from `base`, allocating every pointer link. */
  method ResolveChain(t: Target, base: Loc, chain: seq<Loc>) returns (at: Loc, stop: Option<Abort>)
    modifies t
    ensures var w := Walk(t.typ, old(t.value), base, chain, |chain|);
      t.value == w.value && at == w.at && stop == w.stop
  {
    ghost var start := t.value;
    at, stop := base, None;
    var i := 0;
    while i < |chain| && stop.None?
      invariant 0 <= i <= |chain|
      invariant Walk(t.typ, start, base, chain, i) == Walked(t.value, at, stop)
    {
      WalkNext(t.typ, start, base, chain, i + 1);
      at := at + chain[i];
      stop := TakeLink(t, at);
      i := i + 1;
    }
    if stop.Some? {
      WalkStop(t.typ, start, base, chain, i, |chain|);
    }
  }

  /** One pass of the loop of `getCurrentReflectValue`: the field at `loc`, allocated when it is a pointer. */
  method TakeLink(t: Target, loc: Loc) returns (stop: Option<Abort>)
    modifies t
    ensures Link(t.typ, old(t.value), loc) == Walked(t.value, loc, stop)
  {
    if Get(t.value, loc).None? {
      stop := Some(Panic("reflect: FieldByIndex through a nil pointer"));
    } else {
      stop := None;
      var ft := TypeAt(t.typ, loc);
      if ft.Some? && ft.value.Pointer? {
        if CanSetAt(t.typ, loc) {
          t.Store(loc, PtrV(Zero(ft.value.elem)));
        } else {
          stop := Some(Panic(UnexportedSet));
        }
      }
    }
  }

  /** The second loop of `decode`: each field is set in turn, and the first failure stops the loop. */
  method SetAll(t: Target, at: Loc, fs: seq<ToSet>, setter: Job -> Outcome) returns (stop: Option<Abort>)
    modifies t
    ensures var r := SetFields(t.typ, old(t.value), at, fs, |fs|, setter);
      t.value == r.value && stop == r.stop
  {
    ghost var start := t.value;
    stop := None;
    var i := 0;
    while i < |fs| && stop.None?
      invariant 0 <= i <= |fs|
      invariant SetFields(t.typ, start, at, fs, i, setter) == Run(t.value, stop)
    {
      SetFieldsNext(t.typ, start, at, fs, i + 1, setter);
      var loc := at + fs[i].md.index;
      if Get(t.value, loc).None? || TypeAt(t.typ, loc).None? {
        stop := Some(Panic("reflect: FieldByIndex out of range"));
      } else {
        match setter(JobAt(t.typ, loc, fs[i])) {
          case Store(v) => t.Store(loc, v);
          case Keep =>
          case Stop(a) => stop := Some(a);
        }
      }
      i := i + 1;
    }
    if stop.Some? {
      SetFieldsStop(t.typ, start, at, fs, i, |fs|, setter);
    }
  }

  /** `decode`, writing the destination in place. */
  method DecodeAt(
    t: Target, pick: FieldMetadata -> Result<Option<Pick>, Err>, setter: Job -> Outcome,
    c: StructCache, base: Loc, chain: seq<Loc>) returns (stop: Option<Abort>)
    modifies t
    ensures var r := DecodeLevel(pick, setter, t.typ, c, old(t.value), base, chain);
      t.value == r.value && stop == r.stop
    decreases c, 1
  {
    var picked := CollectPicks(pick, c.resolvable);
    if picked.Failure? {
      return Some(Raise(picked.error));
    }
    var fs := picked.value;
    var from, pending := base, chain;
    if |fs| > 0 {
      var at;
      at, stop := ResolveChain(t, base, chain);
      if stop.Some? {
        return;
      }
      stop := SetAll(t, at, fs, setter);
      if stop.Some? {
        return;
      }
      from, pending := at, [];
    }
    stop := DecodeChildren(t, pick, setter, c, from, pending);
  }

  /** The loop over the child levels of `decode`. */
  method DecodeChildren(
    t: Target, pick: FieldMetadata -> Result<Option<Pick>, Err>, setter: Job -> Outcome,
    c: StructCache, from: Loc, pending: seq<Loc>) returns (stop: Option<Abort>)
    modifies t
    ensures var r := Children(pick, setter, t.typ, c, |c.child|, old(t.value), from, pending);
      t.value == r.value && stop == r.stop
    decreases c, 0, 1
  {
    ghost var start := t.value;
    stop := None;
    var i := 0;
    while i < |c.child| && stop.None?
      invariant 0 <= i <= |c.child|
      invariant Children(pick, setter, t.typ, c, i, start, from, pending) == Run(t.value, stop)
    {
      stop := DecodeChild(t, pick, setter, c, i, start, from, pending);
      i := i + 1;
    }
    if stop.Some? {
      ChildrenStop(pick, setter, t.typ, c, i, |c.child|, start, from, pending);
    }
  }

  /** One pass of the loop over the child levels: the child at index `n`, decoded with the chain extended by its index. */
  method DecodeChild(
    t: Target, pick: FieldMetadata -> Result<Option<Pick>, Err>, setter: Job -> Outcome,
    c: StructCache, n: nat, ghost start: Value, from: Loc, pending: seq<Loc>) returns (stop: Option<Abort>)
    requires n < |c.child|
    requires Children(pick, setter, t.typ, c, n, start, from, pending) == Run(t.value, None)
    modifies t
    ensures Children(pick, setter, t.typ, c, n + 1, start, from, pending) == Run(t.value, stop)
    decreases c, 0, 0
  {
    var child := c.child[n];
    ChildrenNext(pick, setter, t.typ, c, n + 1, start, from, pending);
    stop := DecodeAt(t, pick, setter, child, from, pending + [child.index]);
  }

  /** `Decoder.Decode(c, root)` on a destination. */
  method Decode(
    t: Target, sx: seq<StringsExtractor>, vx: seq<ValueExtractor>, order: Paths -> seq<string>,
    ext: Outside, c: StructCache) returns (stop: Option<Abort>)
    modifies t
    ensures var r := DecodeSpec(Picker(sx, vx, order), Setter(ext), t.typ, c, old(t.value));
      t.value == r.value && stop == r.stop
  {
    stop := DecodeAt(t, Picker(sx, vx, order), Setter(ext), c, [], []);
  }
}
