/**
 * The errors the field setter and the decoders return, as the values they
 * carry: a kind, a message, context fields and the error they wrap. The
 * setter builds them with the constructors of the external library
 * github.com/expectedsh/errors (`NewWithKind`, `Wrap`, `WithKind`,
 * `WithFields`, `WithField`), which field_setter.go imports in place of
 * the repository's own pkg/errors. That library is not part of this
 * model's sources; these functions are its constructors on values, the
 * same shape as `Errors.Error` but without the shared field map, because
 * the setter is modelled by functions, which cannot allocate objects, and
 * its errors are never changed after they are returned. A Go panic is
 * kept apart from a returned error, since it unwinds instead of
 * returning.
 */
module Failures {
  import opened Strconv

  /** The kinds the setter uses: `internal` from `Wrap`, and the package's `Input` and `InputCritical`. */
  datatype Kind = Internal | Input | InputCritical

  /** A context field's value: the model keeps strings and integers. */
  datatype FieldValue = Str(s: string) | Num(n: int)

  /** What an error wraps: nothing, a `strconv.NumError`, or an error from code outside the model. */
  datatype Cause = NoCause | ParseFailure(fn: string, input: string, err: NumError) | Foreign(text: string)

  datatype Err = Err(kind: Kind, message: string, fields: map<string, FieldValue>, cause: Cause)

  /** How a decode or a set stops early: a returned error, or a panic. */
  datatype Abort = Raise(err: Err) | Panic(reason: string)

  /** `errors.NewWithKind`: no fields, nothing wrapped. */
  function NewWithKind(kind: Kind, message: string): Err
  {
    Err(kind, message, map[], NoCause)
  }

  /** `errors.Wrap` of an error that is not an `*Error`: kind `internal`, no fields. */
  function Wrap(cause: Cause, message: string): Err
  {
    Err(Internal, message, map[], cause)
  }

  function WithKind(e: Err, kind: Kind): Err
  {
    e.(kind := kind)
  }

  /** `WithFields`: every given key is inserted or overwritten, every other key kept. */
  function WithFields(e: Err, m: map<string, FieldValue>): (r: Err)
    ensures r.kind == e.kind && r.message == e.message && r.cause == e.cause
    ensures r.fields.Keys == e.fields.Keys + m.Keys
    ensures forall k :: k in m ==> r.fields[k] == m[k]
    ensures forall k :: k in e.fields && k !in m ==> r.fields[k] == e.fields[k]
  {
    e.(fields := e.fields + m)
  }

  function WithField(e: Err, key: string, value: FieldValue): (r: Err)
    ensures key in r.fields && r.fields[key] == value
    ensures forall k :: k in e.fields && k != key ==> k in r.fields && r.fields[k] == e.fields[k]
  {
    WithFields(e, map[key := value])
  }
}
