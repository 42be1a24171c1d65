/**
 * internal/decoding/decoding.go, the older twin of the decoder. Its
 * `decode` and `getCurrentValue` are the decoder's loop and chain walk
 * line for line, so they are the engine of the `Decoder` module run with
 * this file's picker, `value`. The one difference is where a default is
 * reported: under the tag "default" and an empty path.
 *
 * The field setter this file calls is not part of the sources modelled;
 * the decoder's setter stands in for it.
 */
module Decoding {
  import opened Wrappers
  import opened Values
  import opened Failures
  import opened Cache
  import opened FieldSetter
  import opened Decoder

  /** `Decoder.value`: string extractors, then value extractors, then the default under an empty path. */
  function Value(sx: seq<StringsExtractor>, vx: seq<ValueExtractor>, md: FieldMetadata): Result<Option<Pick>, Err>
  {
    PickWith(sx, vx, md, "")
  }

  function ValuePicker(sx: seq<StringsExtractor>, vx: seq<ValueExtractor>): FieldMetadata -> Result<Option<Pick>, Err>
  {
    md => Value(sx, vx, md)
  }

  /** `Decoder.Decode(c, root)` on a destination. */
  method Decode(t: Target, sx: seq<StringsExtractor>, vx: seq<ValueExtractor>, ext: Outside, c: StructCache)
    returns (stop: Option<Abort>)
    modifies t
    ensures var r := DecodeSpec(ValuePicker(sx, vx), Setter(ext), t.typ, c, old(t.value));
      t.value == r.value && stop == r.stop
  {
    stop := DecodeAt(t, ValuePicker(sx, vx), Setter(ext), c, [], []);
  }
}
