/**
 * extractors.go: the default string extractors of the binder, which read
 * a header, the query string and the router's path parameters of the
 * request. A request is reduced to what they read of it.
 */
module Extractors {
  import opened Wrappers
  import Text
  import Failures

  /**
   * The parts of a request the extractors read: the header values under
   * each (canonical) name, the query values under each key in the order
   * they appear in the URL, and the router's path parameters.
   */
  datatype Request = Request(
    header: map<string, seq<string>>,
    query: map<string, seq<string>>,
    path: map<string, string>)

  /** `r.Header.Get(name)`: the first value under the name, or "" when there is none. */
  function HeaderGet(r: Request, name: string): string
  {
    if name in r.header && |r.header[name]| > 0 then r.header[name][0] else ""
  }

  /** `chi.URLParam(r, key)`: the path parameter, or "" when the route has none by that name. */
  function UrlParam(r: Request, key: string): string
  {
    if key in r.path then r.path[key] else ""
  }

  /** `r.URL.Query()[key]`: the raw query values under the key, none when it is absent. */
  function QueryValues(r: Request, key: string): seq<string>
  {
    if key in r.query then r.query[key] else []
  }

  /** A found value is handed on alone; an empty one means nothing was found. */
  function OneOrNone(s: string): (r: seq<string>)
    ensures |r| <= 1
    ensures r == [] <==> s == ""
    ensures r != [] ==> r[0] == s
  {
    if s == "" then [] else [s]
  }

  /** `defaultHeaderExtractor`. */
  function HeaderExtractor(r: Request, tag: string): (res: Result<seq<string>, Failures.Err>)
    ensures res.Success?
    ensures res.value == [] <==> HeaderGet(r, tag) == ""
    ensures res.value != [] ==> res.value == [HeaderGet(r, tag)]
  {
    Success(OneOrNone(HeaderGet(r, tag)))
  }

  /** `defaultPathExtractor`. */
  function PathExtractor(r: Request, tag: string): (res: Result<seq<string>, Failures.Err>)
    ensures res.Success?
    ensures res.value == [] <==> (tag !in r.path || r.path[tag] == "")
    ensures res.value != [] ==> res.value == [r.path[tag]]
  {
    Success(OneOrNone(UrlParam(r, tag)))
  }

  /** The comma fields of each raw value, one value after the other. */
  function AllFields(raw: seq<string>): seq<string>
  {
    if |raw| == 0 then [] else AllFields(raw[..|raw| - 1]) + Text.Fields(raw[|raw| - 1])
  }

  /** Concatenation of raw values separated by nothing. */
  function Glued(raw: seq<string>): string
  {
    if |raw| == 0 then "" else Glued(raw[..|raw| - 1]) + raw[|raw| - 1]
  }

  /** `defaultQueryExtractor`: append the comma fields of every raw value, in order. */
  method QueryExtractor(r: Request, tag: string) returns (res: Result<seq<string>, Failures.Err>)
    ensures res == Success(AllFields(QueryValues(r, tag)))
    ensures tag !in r.query ==> res == Success([])
  {
    var params: seq<string> := [];
    var query := QueryValues(r, tag);
    var i := 0;
    while i < |query|
      invariant 0 <= i <= |query|
      invariant params == AllFields(query[..i])
    {
      assert query[..i + 1][..i] == query[..i];
      params := params + Text.Fields(query[i]);
      i := i + 1;
    }
    assert query[..i] == query;
    return Success(params);
  }

  /** The fields of several raw values are the fields of each, in the order of the values. */
  lemma {:induction false} FieldsInOrder(a: seq<string>, b: seq<string>)
    ensures AllFields(a + b) == AllFields(a) + AllFields(b)
    decreases |b|
  {
    if |b| == 0 {
      assert a + b == a;
    } else {
      var init := b[..|b| - 1];
      var last := b[|b| - 1];
      assert (a + b)[..|a + b| - 1] == a + init;
      assert (a + b)[|a + b| - 1] == last;
      FieldsInOrder(a, init);
      assert AllFields(a + b) == AllFields(a + init) + Text.Fields(last);
      assert AllFields(b) == AllFields(init) + Text.Fields(last);
    }
  }

  /**
   * Every piece the query extractor hands back is non-empty and holds no
   * comma, and the pieces spell the raw values with their commas taken out.
   */
  lemma {:induction false} FieldsClean(raw: seq<string>)
    ensures forall p :: p in AllFields(raw) ==> p != "" && ',' !in p
    ensures Text.Concat(AllFields(raw)) == Text.Remove(Glued(raw), ',')
  {
    if |raw| > 0 {
      var init := raw[..|raw| - 1];
      var last := raw[|raw| - 1];
      FieldsClean(init);
      Text.FieldsShape(last);
      ConcatAppend(AllFields(init), Text.Fields(last));
      Text.RemoveAppend(Glued(init), last, ',');
    }
  }

  lemma {:induction false} ConcatAppend(a: seq<string>, b: seq<string>)
    ensures Text.Concat(a + b) == Text.Concat(a) + Text.Concat(b)
  {
    if |a| == 0 {
      assert a + b == b;
    } else {
      assert (a + b)[1..] == a[1..] + b;
      ConcatAppend(a[1..], b);
    }
  }

  /** A query value without commas comes back whole. */
  lemma {:induction false} QuerySingle(r: Request, tag: string, v: string)
    requires r.query == map[tag := [v]] && v != "" && ',' !in v
    ensures AllFields(QueryValues(r, tag)) == [v]
  {
    assert QueryValues(r, tag) == [v];
    assert [v][..0] == [];
    FieldsOfPlain(v);
  }

  /** A non-empty string without commas is one comma field. */
  lemma {:induction false} FieldsOfPlain(v: string)
    requires v != "" && ',' !in v
    ensures Text.Fields(v) == [v]
  {
    NoComma(v);
  }

  lemma {:induction false} NoComma(v: string)
    requires ',' !in v
    ensures Text.IndexFrom(v, ",", 0).None?
  {
    forall j: nat | j < |v|
      ensures !Text.At(v, ",", j)
    {
      assert v[j..j + 1] == [v[j]];
    }
  }
}
