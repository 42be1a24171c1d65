/**
 * The string helpers the binding engine leans on: `strings.Split` with a
 * non-empty separator (the exploder), its inverse `strings.Join`, and
 * `strings.FieldsFunc` cutting on commas (the query extractor).
 */
module Text {
  import opened Wrappers

  /** `sep` occurs in `s` starting at position `j`. */
  predicate At(s: string, sep: string, j: nat)
  {
    j + |sep| <= |s| && s[j..j + |sep|] == sep
  }

  predicate Contains(s: string, sep: string)
  {
    exists j: nat | j <= |s| :: At(s, sep, j)
  }

  /** Leftmost occurrence of `sep` in `s` at or after `i`. */
  function IndexFrom(s: string, sep: string, i: nat): (r: Option<nat>)
    requires i <= |s|
    decreases |s| - i
    ensures r.Some? ==> i <= r.value && At(s, sep, r.value)
    ensures r.Some? ==> forall j: nat :: i <= j < r.value ==> !At(s, sep, j)
    ensures r.None? ==> forall j: nat :: i <= j ==> !At(s, sep, j)
  {
    if At(s, sep, i) then Some(i)
    else if i == |s| then None
    else IndexFrom(s, sep, i + 1)
  }

  /** `strings.Split(s, sep)` for a non-empty `sep`: cut at every leftmost, non-overlapping occurrence. */
  function Split(s: string, sep: string): (r: seq<string>)
    requires |sep| > 0
    decreases |s|
  {
    match IndexFrom(s, sep, 0)
    case None => [s]
    case Some(k) => [s[..k]] + Split(s[k + |sep|..], sep)
  }

  /** `strings.Join(parts, sep)`. */
  function Join(parts: seq<string>, sep: string): string
  {
    if |parts| == 0 then ""
    else if |parts| == 1 then parts[0]
    else parts[0] + sep + Join(parts[1..], sep)
  }

  /** Concatenation of all pieces, without separator. */
  function Concat(parts: seq<string>): string
  {
    if |parts| == 0 then "" else parts[0] + Concat(parts[1..])
  }

  /** The pieces that are not empty, in order. */
  function NonEmpty(parts: seq<string>): (r: seq<string>)
    ensures forall p :: p in r ==> p in parts && p != ""
    ensures |r| <= |parts|
  {
    if |parts| == 0 then []
    else if parts[0] == "" then NonEmpty(parts[1..])
    else [parts[0]] + NonEmpty(parts[1..])
  }

  /** `s` with every occurrence of the character `c` removed. */
  function Remove(s: string, c: char): (r: string)
    ensures c !in r
  {
    if |s| == 0 then ""
    else if s[0] == c then Remove(s[1..], c)
    else [s[0]] + Remove(s[1..], c)
  }

  /** `strings.FieldsFunc(s, func(r rune) bool { return r == ',' })`. */
  function Fields(s: string): seq<string>
  {
    NonEmpty(Split(s, ","))
  }

  /** Splitting and joining again gives back the original string. */
  lemma {:induction false} JoinSplit(s: string, sep: string)
    requires |sep| > 0
    ensures Join(Split(s, sep), sep) == s
    decreases |s|
  {
    match IndexFrom(s, sep, 0)
    case None =>
    case Some(k) =>
      var rest := s[k + |sep|..];
      JoinSplit(rest, sep);
      var tail := Split(rest, sep);
      assert Split(s, sep) == [s[..k]] + tail;
      SplitNonEmpty(rest, sep);
      JoinCons(s[..k], tail, sep);
      Rejoin(s, sep, k);
  }

  lemma JoinCons(a: string, tail: seq<string>, sep: string)
    requires |tail| >= 1
    ensures Join([a] + tail, sep) == a + sep + Join(tail, sep)
  {
    assert ([a] + tail)[1..] == tail;
  }

  /** A string is the part before an occurrence of `sep`, `sep`, and the part after. */
  lemma Rejoin(s: string, sep: string, k: nat)
    requires At(s, sep, k)
    ensures s == s[..k] + sep + s[k + |sep|..]
  {
    assert s == s[..k] + s[k..k + |sep|] + s[k + |sep|..];
  }

  /** Splitting yields more than one piece exactly when the separator occurs. */
  lemma SplitMany(s: string, sep: string)
    requires |sep| > 0
    ensures |Split(s, sep)| > 1 <==> Contains(s, sep)
    ensures !Contains(s, sep) ==> Split(s, sep) == [s]
  {
    match IndexFrom(s, sep, 0)
    case None =>
      assert Split(s, sep) == [s];
    case Some(k) =>
      SplitNonEmpty(s[k + |sep|..], sep);
      assert At(s, sep, k);
  }

  lemma SplitNonEmpty(s: string, sep: string)
    requires |sep| > 0
    ensures |Split(s, sep)| >= 1
  {
  }

  /** With a one-character separator no piece contains that character. */
  lemma {:induction false} SplitPiecesClean(s: string, c: char)
    ensures forall p :: p in Split(s, [c]) ==> c !in p
    decreases |s|
  {
    match IndexFrom(s, [c], 0)
    case None =>
      forall j | 0 <= j < |s|
        ensures s[j] != c
      {
        assert !At(s, [c], j);
        assert s[j..j + 1] == [s[j]];
      }
    case Some(k) =>
      SplitPiecesClean(s[k + 1..], c);
      forall j | 0 <= j < k
        ensures s[j] != c
      {
        assert !At(s, [c], j);
        assert s[j..j + 1] == [s[j]];
      }
  }

  /** With a one-character separator the pieces put together are the string without that character. */
  lemma {:induction false} ConcatSplit(s: string, c: char)
    ensures Concat(Split(s, [c])) == Remove(s, c)
    decreases |s|
  {
    match IndexFrom(s, [c], 0)
    case None =>
      SplitPiecesClean(s, c);
      assert s in Split(s, [c]);
      RemoveAbsent(s, c);
    case Some(k) =>
      var rest := s[k + 1..];
      var tail := Split(rest, [c]);
      assert Split(s, [c]) == [s[..k]] + tail;
      assert ([s[..k]] + tail)[1..] == tail;
      ConcatSplit(rest, c);
      FirstHit(s, c, k);
      RemoveAtFirst(s, c, k);
  }

  /** The first occurrence of a one-character separator is that character, with none before it. */
  lemma FirstHit(s: string, c: char, k: nat)
    requires IndexFrom(s, [c], 0) == Some(k)
    ensures k < |s| && s[k] == c && c !in s[..k]
  {
    assert At(s, [c], k);
    assert s[k..k + 1][0] == s[k];
    forall j | 0 <= j < k
      ensures s[j] != c
    {
      assert !At(s, [c], j);
      assert s[j..j + 1][0] == s[j];
    }
    NotInPrefix(s, c, k);
  }

  lemma NotInPrefix(s: string, c: char, k: nat)
    requires k <= |s|
    requires forall j :: 0 <= j < k ==> s[j] != c
    ensures c !in s[..k]
  {
    var pre := s[..k];
    assert forall j :: 0 <= j < |pre| ==> pre[j] == s[j];
  }

  /** Taking out `c` up to its first occurrence leaves the prefix whole. */
  lemma RemoveAtFirst(s: string, c: char, k: nat)
    requires k < |s| && s[k] == c && c !in s[..k]
    ensures Remove(s, c) == s[..k] + Remove(s[k + 1..], c)
  {
    var rest := s[k + 1..];
    assert s == s[..k] + ([c] + rest);
    RemoveAbsent(s[..k], c);
    RemoveAppend(s[..k], [c] + rest, c);
    assert ([c] + rest)[1..] == rest;
  }

  lemma {:induction false} RemoveAbsent(s: string, c: char)
    requires c !in s
    ensures Remove(s, c) == s
    decreases |s|
  {
    if |s| > 0 {
      RemoveAbsent(s[1..], c);
    }
  }

  lemma {:induction false} RemoveAppend(a: string, b: string, c: char)
    ensures Remove(a + b, c) == Remove(a, c) + Remove(b, c)
    decreases |a|
  {
    if |a| > 0 {
      RemoveAppend(a[1..], b, c);
      assert (a + b)[1..] == a[1..] + b;
    } else {
      assert a + b == b;
    }
  }

  lemma {:induction false} ConcatNonEmpty(parts: seq<string>)
    ensures Concat(NonEmpty(parts)) == Concat(parts)
  {
    if |parts| > 0 {
      ConcatNonEmpty(parts[1..]);
    }
  }

  /**
   * The comma fields are non-empty, hold no comma, and together spell the
   * input with its commas taken out.
   */
  lemma FieldsShape(s: string)
    ensures forall p :: p in Fields(s) ==> p != "" && ',' !in p
    ensures Concat(Fields(s)) == Remove(s, ',')
  {
    SplitPiecesClean(s, ',');
    ConcatSplit(s, ',');
    ConcatNonEmpty(Split(s, ","));
  }
}
