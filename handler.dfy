/**
 * handler.go: the checks `Handler` makes on the signature of the function
 * it wraps, before any request arrives. `input` sorts the parameters into
 * the response writer, the context, the request and the one input struct;
 * `output` checks the results. Both panic on a signature they refuse.
 *
 * A parameter or result is its type together with what reflection answers
 * about it: whether it implements `http.ResponseWriter`, `context.Context`
 * or `error`, and whether it converts to `*http.Request`.
 */
module Handler {
  import opened Wrappers
  import opened GoTypes

  datatype Param = Param(typ: GoType, writer: bool, context: bool, request: bool, isError: bool)

  /** `inputType`: what a parameter of the handler stands for. */
  datatype InputType = Response | Ctx | Request | Input

  /** Why `input` or `output` panics; the index and counts are those the messages print. */
  datatype Refusal =
    | TooManyInputs(n: nat)
    | Duplicate(i: nat, what: InputType)
    | NotStructPointer(n: nat)
    | OutputCount(n: nat)
    | LastNotError

  /** The switch of `input`: the first case that matches. */
  function Classify(p: Param): (c: InputType)
    ensures c == Response <==> p.writer
    ensures c == Ctx <==> !p.writer && p.context
    ensures c == Request <==> !p.writer && !p.context && p.request
    ensures c == Input <==> !p.writer && !p.context && !p.request
  {
    if p.writer then Response
    else if p.context then Ctx
    else if p.request then Request
    else Input
  }

  predicate StructPointer(t: GoType)
  {
    t.Pointer? && t.elem.StructOf?
  }

  /** The loop of `input` part way: the categories so far and the input struct, or the panic that ended it. */
  datatype Scan = Scanning(ordered: seq<InputType>, input: Option<GoType>) | Stopped(why: Refusal)

  /** One pass of the loop of `input` on parameter `i` of `n`. */
  function Step(s: Scan, p: Param, i: nat, n: nat): Scan
  {
    if s.Stopped? then s
    else
      var c := Classify(p);
      if c in s.ordered then Stopped(Duplicate(i, c))
      else if c == Input && !StructPointer(p.typ) then Stopped(NotStructPointer(n))
      else Scanning(s.ordered + [c], if c == Input then Some(p.typ.elem) else s.input)
  }

  /** The loop of `input` over the first `k` parameters. */
  function ScanTo(ps: seq<Param>, k: nat): Scan
    requires k <= |ps|
  {
    if k == 0 then Scanning([], None) else Step(ScanTo(ps, k - 1), ps[k - 1], k - 1, |ps|)
  }

  /** `input`: the refusal of more than four parameters, then the loop. */
  function InputSpec(ps: seq<Param>): Scan
  {
    if |ps| > 4 then Stopped(TooManyInputs(|ps|)) else ScanTo(ps, |ps|)
  }

  lemma {:induction false} ScanStopped(ps: seq<Param>, k: nat, n: nat)
    requires k <= n <= |ps| && ScanTo(ps, k).Stopped?
    ensures ScanTo(ps, n) == ScanTo(ps, k)
    decreases n - k
  {
    if k < n {
      ScanStopped(ps, k, n - 1);
    }
  }

  /** `input`, as the source runs it: one pass of the loop per parameter, appending as it goes. */
  method ReadInputs(ps: seq<Param>) returns (r: Scan)
    ensures r == InputSpec(ps)
  {
    if |ps| > 4 {
      return Stopped(TooManyInputs(|ps|));
    }
    var ordered: seq<InputType> := [];
    var input: Option<GoType> := None;
    var i := 0;
    r := Scanning(ordered, input);
    while i < |ps| && r.Scanning?
      invariant 0 <= i <= |ps|
      invariant r == ScanTo(ps, i)
      invariant r.Scanning? ==> r == Scanning(ordered, input)
    {
      var c := Classify(ps[i]);
      if c in ordered {
        r := Stopped(Duplicate(i, c));
      } else if c == Input && !StructPointer(ps[i].typ) {
        r := Stopped(NotStructPointer(|ps|));
      } else {
        ordered := ordered + [c];
        if c == Input {
          input := Some(ps[i].typ.elem);
        }
        r := Scanning(ordered, input);
      }
      i := i + 1;
    }
    if r.Stopped? {
      ScanStopped(ps, i, |ps|);
    }
  }

  /** The category of every parameter, in parameter order. */
  function Classes(ps: seq<Param>): (cs: seq<InputType>)
    ensures |cs| == |ps|
    ensures forall i :: 0 <= i < |ps| ==> cs[i] == Classify(ps[i])
  {
    if |ps| == 0 then [] else Classes(ps[..|ps| - 1]) + [Classify(ps[|ps| - 1])]
  }

  /** No two parameters fall in the same category. */
  predicate Distinct(ps: seq<Param>)
  {
    forall i, j :: 0 <= i < j < |ps| ==> Classify(ps[i]) != Classify(ps[j])
  }

  /** The input parameter is a pointer to a struct. */
  predicate InputsPointToStructs(ps: seq<Param>)
  {
    forall i :: 0 <= i < |ps| && Classify(ps[i]) == Input ==> StructPointer(ps[i].typ)
  }

  /** What `input` hands back for a signature it accepts. */
  predicate Accepted(ps: seq<Param>, s: Scan)
  {
    s.Scanning? && s.ordered == Classes(ps)
    && (s.input.Some? <==> exists i :: 0 <= i < |ps| && Classify(ps[i]) == Input)
    && (forall i :: 0 <= i < |ps| && Classify(ps[i]) == Input ==> ps[i].typ.Pointer? && s.input == Some(ps[i].typ.elem))
  }

  lemma {:induction false} ScanSpec(ps: seq<Param>, k: nat)
    requires k <= |ps|
    ensures ScanTo(ps, k).Scanning? <==> Distinct(ps[..k]) && InputsPointToStructs(ps[..k])
    ensures ScanTo(ps, k).Scanning? ==> Accepted(ps[..k], ScanTo(ps, k))
  {
    if k > 0 {
      var pre := ps[..k - 1];
      var cur := ps[..k];
      assert cur[..k - 1] == pre;
      ScanSpec(ps, k - 1);
      var s := ScanTo(ps, k - 1);
      var c := Classify(ps[k - 1]);
      if s.Scanning? {
        assert s.ordered == Classes(pre);
        if c in s.ordered {
          var j :| 0 <= j < |s.ordered| && s.ordered[j] == c;
          assert Classify(cur[j]) == Classify(cur[k - 1]);
          assert !Distinct(cur);
        } else {
          assert Distinct(cur) by {
            forall i, j | 0 <= i < j < |cur|
              ensures Classify(cur[i]) != Classify(cur[j])
            {
              if j == k - 1 {
                assert s.ordered[i] == Classify(cur[i]);
              } else {
                assert Classify(pre[i]) != Classify(pre[j]);
              }
            }
          }
          if c == Input && !StructPointer(ps[k - 1].typ) {
            assert cur[k - 1] == ps[k - 1];
          } else {
            assert InputsPointToStructs(cur) by {
              forall i | 0 <= i < |cur| && Classify(cur[i]) == Input
                ensures StructPointer(cur[i].typ)
              {
                if i < k - 1 {
                  assert cur[i] == pre[i];
                }
              }
            }
            assert Classes(cur) == Classes(pre) + [c];
            InputFound(ps, k, s, c);
          }
        }
      } else {
        assert !(Distinct(pre) && InputsPointToStructs(pre));
        PrefixBreaks(pre, cur);
      }
    }
  }

  /** After a pass that accepted parameter `k - 1`, the input struct is the one of the parameter classified `Input`. */
  lemma InputFound(ps: seq<Param>, k: nat, s: Scan, c: InputType)
    requires 0 < k <= |ps| && s == ScanTo(ps, k - 1) && c == Classify(ps[k - 1])
    requires Accepted(ps[..k - 1], s) && c !in s.ordered
    requires c == Input ==> StructPointer(ps[k - 1].typ)
    ensures Accepted(ps[..k], ScanTo(ps, k))
  {
    var pre := ps[..k - 1];
    var cur := ps[..k];
    assert cur[..k - 1] == pre;
    assert Classes(cur) == Classes(pre) + [c];
    var r := ScanTo(ps, k);
    forall i | 0 <= i < |cur| && Classify(cur[i]) == Input
      ensures cur[i].typ.Pointer? && r.input == Some(cur[i].typ.elem)
    {
      if i < k - 1 {
        assert cur[i] == pre[i];
        assert s.ordered[i] == Input;
      }
    }
    if r.input.Some? && c != Input {
      var i :| 0 <= i < |pre| && Classify(pre[i]) == Input;
      assert cur[i] == pre[i];
    }
  }

  /** A prefix that breaks either rule breaks it for every longer prefix. */
  lemma PrefixBreaks(pre: seq<Param>, cur: seq<Param>)
    requires |pre| <= |cur| && cur[..|pre|] == pre
    requires !(Distinct(pre) && InputsPointToStructs(pre))
    ensures !(Distinct(cur) && InputsPointToStructs(cur))
  {
    if !Distinct(pre) {
      var i, j :| 0 <= i < j < |pre| && Classify(pre[i]) == Classify(pre[j]);
      assert cur[i] == pre[i] && cur[j] == pre[j];
    } else {
      var i :| 0 <= i < |pre| && Classify(pre[i]) == Input && !StructPointer(pre[i].typ);
      assert cur[i] == pre[i];
    }
  }

  /**
   * `input` accepts exactly the signatures of at most four parameters,
   * no two of one category, whose input parameter points to a struct; it
   * then hands back each parameter's category in parameter order, and the
   * input struct's type when there is an input parameter.
   */
  lemma InputAccepts(ps: seq<Param>)
    ensures InputSpec(ps).Scanning? <==> |ps| <= 4 && Distinct(ps) && InputsPointToStructs(ps)
    ensures InputSpec(ps).Scanning? ==> Accepted(ps, InputSpec(ps))
  {
    if |ps| <= 4 {
      ScanSpec(ps, |ps|);
      assert ps[..|ps|] == ps;
    }
  }

  /** `output`: one or two results, the last an `error`; the first of two, with a pointer taken off, is the response type. */
  function Output(outs: seq<Param>): (r: Result<Option<GoType>, Refusal>)
    ensures r.Success? <==> 1 <= |outs| <= 2 && outs[|outs| - 1].isError
    ensures r.Failure? && |outs| in {1, 2} ==> r.error == LastNotError
    ensures r.Success? && |outs| == 1 ==> r.value == None
    ensures r.Success? && |outs| == 2 ==> r.value == Some(DerefType(outs[0].typ))
    ensures r.Success? && |outs| == 2 && !(outs[0].typ.Pointer? && outs[0].typ.elem.Pointer?) ==> !r.value.value.Pointer?
  {
    var n := |outs|;
    if n < 1 || n > 2 then Failure(OutputCount(n))
    else if !outs[n - 1].isError then Failure(LastNotError)
    else if n == 2 then Success(Some(DerefType(outs[0].typ)))
    else Success(None)
  }
}
