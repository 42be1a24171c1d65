/**
 * pkg/errors/errors.go: the library's error, an object with a kind, a
 * message, a map of context fields and the error it wraps.
 *
 * Wrapping an `*Error` shares its map of fields: the map is an object of
 * its own, and a field added through either error is seen through both.
 * The wrapped error never changes after construction, so the chain below
 * an error is fixed and finite; its messages and kinds do change, through
 * `WithMessage` and `WithKind`.
 *
 * Messages are the already formatted text (`fmt.Sprintf` is left out), and
 * a field's value is one of the values `Failures.FieldValue` holds.
 */
module Errors {
  import opened ErrorKinds
  import Text
  import Failures

  /** The map of context fields, shared by an error and the errors that wrap it. */
  class FieldMap {
    var m: map<string, Failures.FieldValue>

    constructor ()
      ensures m == map[]
    {
      m := map[];
    }
  }

  /** What an error wraps: nothing (`nil`), an `*Error`, or some other error, of which only its text is seen. */
  datatype Wrapped = Nil | Own(e: Error) | Other(text: string)

  /** The outcome of `WrapWithKind`, which can dereference a nil pointer. */
  datatype Made = Made(e: Error) | Panicked(reason: string)

  const NilDereference := "runtime error: invalid memory address or nil pointer dereference"

  class Error {
    var kind: Kind
    var message: string
    const fields: FieldMap
    const err: Wrapped
    /** How many `*Error`s the chain below holds. */
    ghost const depth: nat
    /** The `*Error`s of the chain below. */
    ghost const below: set<Error>

    /** The chain below is well founded and `below` is exactly its errors. */
    ghost predicate Valid()
      decreases depth
    {
      if err.Own? then err.e.depth < depth && below == {err.e} + err.e.below && err.e.Valid()
      else below == {}
    }

    /** The composite literal `&Error{...}` the constructors build. */
    constructor Build(kind: Kind, message: string, fields: FieldMap, err: Wrapped)
      requires err.Own? ==> err.e.Valid()
      ensures Valid()
      ensures this.kind == kind && this.message == message && this.fields == fields && this.err == err
    {
      this.kind := kind;
      this.message := message;
      this.fields := fields;
      this.err := err;
      this.depth := if err.Own? then err.e.depth + 1 else 0;
      this.below := if err.Own? then {err.e} + err.e.below else {};
    }

    /** What the loop of `Error()` appends while it walks the chain below, as written. */
    function After(): seq<string>
      reads this, below
      requires Valid()
      decreases depth, 0
    {
      match err
      case Nil => []
      case Other(t) => [t]
      case Own(x) => [if x.message != "" then x.message else x.ErrorText()] + x.After()
    }

    /** `Error()`, as written: an inner error with no message contributes its whole `Error()` text. */
    function ErrorText(): string
      reads this, below
      requires Valid()
      decreases depth, 1
    {
      Text.Join((if message != "" then [message] else []) + After(), ": ")
    }

    /** The non-empty messages of the chain below, then the text of the first error that is not an `*Error`. */
    function Down(): (r: seq<string>)
      reads this, below
      requires Valid()
      ensures forall i :: 0 <= i < |r| - 1 ==> r[i] != ""
      decreases depth
    {
      match err
      case Nil => []
      case Other(t) => [t]
      case Own(x) => (if x.message != "" then [x.message] else []) + x.Down()
    }

    /** `Error()` as its comment describes it: the messages of the chain, joined by ": ". */
    function IntendedText(): string
      reads this, below
      requires Valid()
    {
      Text.Join((if message != "" then [message] else []) + Down(), ": ")
    }

    /** Every `*Error` of the chain below carries a message. */
    ghost predicate Named()
      reads below
      requires Valid()
      decreases depth
    {
      err.Own? ==> err.e.message != "" && err.e.Named()
    }

    /** Where every inner error carries a message, `Error()` as written is the intended text. */
    lemma {:induction false} ErrorTextWhenNamed()
      requires Valid() && Named()
      ensures After() == Down()
      ensures ErrorText() == IntendedText()
      decreases depth
    {
      if err.Own? {
        err.e.ErrorTextWhenNamed();
      }
    }

    /** `WithMessage`: replaces the message and nothing else, and hands back the receiver. */
    method WithMessage(message: string) returns (r: Error)
      modifies this
      ensures r == this
      ensures this.message == message && kind == old(kind)
    {
      this.message := message;
      return this;
    }

    /** `WithKind`: replaces the kind and nothing else, and hands back the receiver. */
    method WithKind(kind: Kind) returns (r: Error)
      modifies this
      ensures r == this
      ensures this.kind == kind && message == old(message)
    {
      this.kind := kind;
      return this;
    }

    /** `WithField`: sets one field in the shared map, and hands back the receiver. */
    method WithField(key: string, value: Failures.FieldValue) returns (r: Error)
      modifies fields
      ensures r == this
      ensures fields.m == old(fields.m)[key := value]
    {
      fields.m := fields.m[key := value];
      return this;
    }

    /** `WithFields`: sets every field of `m` in the shared map, in whatever order the map yields them. */
    method WithFields(m: map<string, Failures.FieldValue>) returns (r: Error)
      modifies fields
      ensures r == this
      ensures fields.m == old(fields.m) + m
    {
      var todo := m.Keys;
      while todo != {}
        invariant todo <= m.Keys
        invariant fields.m == old(fields.m) + map k | k in m.Keys - todo :: m[k]
        decreases todo
      {
        var k :| k in todo;
        fields.m := fields.m[k := m[k]];
        todo := todo - {k};
      }
      assert m == map k | k in m.Keys - todo :: m[k];
      return this;
    }

    /** `GetField`: the field's value, and whether it is set. */
    method GetField(key: string) returns (value: Failures.FieldValue, ok: bool)
      ensures ok <==> key in fields.m
      ensures ok ==> value == fields.m[key]
    {
      ok := key in fields.m;
      value := if ok then fields.m[key] else Failures.Str("");
    }
  }

  /** `New`: kind `internal`, no fields, nothing wrapped. */
  method New(message: string) returns (r: Error)
    ensures fresh(r) && fresh(r.fields) && r.Valid()
    ensures r.kind == Internal && r.message == message && r.fields.m == map[] && r.err == Nil
  {
    var fields := new FieldMap();
    r := new Error.Build(Internal, message, fields, Nil);
  }

  /** `NewWithKind`: the given kind, no fields, nothing wrapped. */
  method NewWithKind(kind: Kind, message: string) returns (r: Error)
    ensures fresh(r) && fresh(r.fields) && r.Valid()
    ensures r.kind == kind && r.message == message && r.fields.m == map[] && r.err == Nil
  {
    var fields := new FieldMap();
    r := new Error.Build(kind, message, fields, Nil);
  }

  /**
   * `Wrap`: an `*Error` lends its kind and its very map of fields; any
   * other error (or none) gives kind `internal` and a fresh empty map.
   */
  method Wrap(err: Wrapped, message: string) returns (r: Error)
    requires err.Own? ==> err.e.Valid()
    ensures fresh(r) && r.Valid() && r.message == message && r.err == err
    ensures err.Own? ==> r.kind == err.e.kind && r.fields == err.e.fields
    ensures !err.Own? ==> r.kind == Internal && fresh(r.fields) && r.fields.m == map[]
  {
    var fields := new FieldMap();
    if err.Own? {
      r := new Error.Build(err.e.kind, message, err.e.fields, err);
    } else {
      r := new Error.Build(Internal, message, fields, err);
    }
  }

  /**
   * `WrapWithKind`, as written: the kind comes from the wrapped `*Error`
   * and the `kind` argument is never read; wrapping anything else reads the
   * kind through a nil pointer and panics.
   */
  method WrapWithKind(kind: Kind, err: Wrapped, message: string) returns (r: Made)
    requires err.Own? ==> err.e.Valid()
    ensures err.Own? <==> r.Made?
    ensures r.Made? ==> fresh(r.e) && r.e.Valid() && r.e.message == message && r.e.err == err
    ensures r.Made? ==> r.e.kind == err.e.kind && r.e.fields == err.e.fields
    ensures r.Panicked? ==> r.reason == NilDereference
  {
    if !err.Own? {
      return Panicked(NilDereference);
    }
    var e := new Error.Build(err.e.kind, message, err.e.fields, err);
    return Made(e);
  }

  /** Asking `WrapWithKind` for `not_found` around a fresh error yields kind `internal`. */
  method KindIgnored() returns (r: Made)
    ensures r.Made? && r.e.kind == Internal
  {
    var inner := New("missing");
    r := WrapWithKind(NotFound, Own(inner), "lookup");
  }

  /**
   * `WrapWithKind` as its comment describes it: the given kind, sharing
   * the fields of a wrapped `*Error`, and a fresh empty map otherwise.
   */
  method WrapWithKindIntended(kind: Kind, err: Wrapped, message: string) returns (r: Error)
    requires err.Own? ==> err.e.Valid()
    ensures fresh(r) && r.Valid() && r.kind == kind && r.message == message && r.err == err
    ensures err.Own? ==> r.fields == err.e.fields
    ensures !err.Own? ==> fresh(r.fields) && r.fields.m == map[]
  {
    var fields := new FieldMap();
    if err.Own? {
      r := new Error.Build(kind, message, err.e.fields, err);
    } else {
      r := new Error.Build(kind, message, fields, err);
    }
  }

  /**
   * A field added to a wrapping error is seen through the wrapped one, and
   * the other way round: the two share one map.
   */
  method SharedFields(inner: Error, key: string, value: Failures.FieldValue) returns (outer: Error, seen: Failures.FieldValue, ok: bool)
    requires inner.Valid()
    modifies inner.fields
    ensures ok && seen == value
  {
    outer := Wrap(Own(inner), "wrapped");
    var _ := outer.WithField(key, value);
    seen, ok := inner.GetField(key);
  }

  /**
   * `Error()` repeats the text of a chain below an inner error that has no
   * message: "top" wrapping a message-less error wrapping "a" reads
   * "top: a: a", where the intended text is "top: a".
   */
  lemma RepeatedText(top: Error)
    requires top.Valid() && top.message == "top" && top.err.Own?
    requires top.err.e.message == "" && top.err.e.err.Own?
    requires top.err.e.err.e.message == "a" && top.err.e.err.e.err == Nil
    ensures top.ErrorText() == "top: a: a"
    ensures top.IntendedText() == "top: a"
  {
    var mid := top.err.e;
    var low := mid.err.e;
    assert low.After() == [] && low.Down() == [];
    assert mid.ErrorText() == "a";
    assert top.After() == ["a", "a"];
    assert top.Down() == ["a"];
    var parts := ["top", "a", "a"];
    assert parts[1..] == ["a", "a"] && parts[1..][1..] == ["a"];
    assert Text.Join(["a", "a"], ": ") == "a: a";
    assert Text.Join(["top", "a"], ": ") == "top: a";
  }

  /** The chain of `RepeatedText` can be built: "top" wrapping "" wrapping "a". */
  method RepeatedTextChain() returns (top: Error)
    ensures top.Valid() && top.ErrorText() == "top: a: a" && top.IntendedText() == "top: a"
  {
    var low := New("a");
    var mid := Wrap(Own(low), "");
    top := Wrap(Own(mid), "top");
    RepeatedText(top);
  }
}
