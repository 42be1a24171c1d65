# kcd request binding, modelled in Dafny

kcd turns an HTTP handler with a typed input struct into a plain
`http.HandlerFunc`. Before the handler runs, its input struct is filled from
the request. The struct's fields carry tags such as `query`, `path`,
`header`, `ctx`, `default` and `exploder`. This project models the engine
behind that binding and proves what it promises.

- **Schema analysis** (`internal/cache`, `internal/types`).
  - Go types are an inductive datatype (`GoTypes.GoType`).
  - `Cache.Cache` walks a struct type once and builds the binding plan: a finite tree of `StructCache` levels.
  - `TagsPaths.TagsPath` is the map from tag to dotted path. It is a class, because `Add` updates it in place.
  - The loops of `cache` and `lookupTags` are methods. Each is proved equal to a specification function, and `CacheProps` proves that plan sound at every level.
- **Decoding** (`internal/decoder`, `internal/decoding`).
  - The destination is a `Values.Target` object holding a value tree.
  - `Decoder.Decode` picks a value for each field: string extractors first, then value extractors, then the default.
  - It then resolves the chain of nested pointers, sets the fields and recurses into the children.
  - The older twin in `internal/decoding` is the same level loop with its own picker.
- **Field setting** (`internal/decoder/field_setter.go`).
  - `FieldSetter.Set` writes one field of the destination.
  - The conversions (duration, native, unmarshaler) and the element loop of slices and arrays are modelled as the source runs them.
  - `FieldSetter.Setter`, the setter both decoders run, keeps the direct-assignment test of field_setter.go:45 as written (`FieldSetter.SetAsWritten`). The corrected test is `FieldSetter.SetSpec`; the two differ only on interface types (`SetterProps.SettersAgree`, and the first row under Findings).
  - Every write goes through `reflect.Value.Set`, which panics on a field reached through an unexported field. `Values.CanSetAt` says which fields can be set, by the same rule the binders follow with their read-only flag.
  - `Strconv` models the base-10 parsers the setter relies on, at an exact bit width.
- **Legacy binders** (`binding.go`, `pkg/kcd/binding.go`).
  - Both binders share the tail in `BindCore`: nil-pointer allocation, the cardinality and array-length checks, and slice and array filling.
  - `BindAgree` proves that on structs of plain fields the two binders do the same thing.
- **Default extractors** (`extractors.go`): header, query and path, over a request reduced to three maps.
- **Errors** (`pkg/errors`).
  - `Errors.Error` is a class: an error's message and kind change in place.
  - Wrapping an `*Error` shares its map of fields (`Errors.FieldMap`).
  - `ErrorKinds.ToStatusCode` maps a kind to its HTTP status.
- **Handler signature checks** (`handler.go`): `Handler.ReadInputs` and `Handler.Output`. A panic is a `Refusal` value.

A Go panic is an explicit outcome wherever the source can reach one. Examples are a `reflect.Set` of an unassignable value, a write past the end of an array, a `Set` on a field reached through an unexported field (in the decoders' chain walk and setter as in the binders), and a nil dereference. The function whose result carries the panic holds it as a `Panic`, `Crash` or `Panicked` value, and the methods return it.

Some source files come from different revisions and would not compile together. Each file is modelled as written, over shared types. Two examples:

- The setter calls `types.IsImplementingUnmarshaller`, which the types file spells `IsImplementingUnmarshaler`. `FieldSetter.IsImplementingUnmarshaller` is the same predicate under the caller's name.
- The two decoders differ in the path they report for a default value. `Decoder` uses `GetDefaultFieldName`, while `Decoding` reports an empty path.

Several behaviours are kept exactly as the source has them:

- The chain resolver allocates a fresh value for every pointer link, even one that is already set (`DecoderProps.WalkFresh`).
- A tag listed twice composes its own path (`CacheProps.DuplicateTagComposes`).
- The duration branch of the legacy `bindStringValue` never fires (`BindProps.DurationParsedAsInteger`).
- A failing `UnmarshalText` is reported as "unable to unmarshal from binary format", and a failing `UnmarshalBinary` as "... from text format" (`FieldSetter.UnmarshalMessage`).
- The newer setter writes array elements by index with no count check. Too many strings for an array is therefore the panic it causes (`SetterProps.ArrayElements`), not a precondition.

## Model

| member | source | states |
|---|---|---|
| TagsPaths.Extend | internal/cache/tags_path.go:8-22 | the tag's entry becomes `key` when absent or empty and `old.key` otherwise; the key set grows by exactly the tag and every other entry is unchanged |
| TagsPaths.HasValueTag | internal/cache/tags_path.go:35-43 | true exactly when some tag of the list is a key of the map |
| TagsPaths.TagsPath.Add | internal/cache/tags_path.go:8-22 | the receiver's map afterwards is `Extend` of its map before |
| TagsPaths.TagsPath.Clone | internal/cache/tags_path.go:25-32 | a fresh map object with exactly the receiver's entries |
| TagsPaths.CloneIsolated | internal/cache/tags_path.go:25-32 | adding to a clone leaves the original's entries unchanged |
| GoTypes.KindOf | internal/types/types.go:30 | the kind is `Ptr`, `Slice`, `Array` or `Struct` exactly for pointer, slice, array and struct types |
| GoTypes.Bits | internal/decoder/field_setter.go:198-223 | the bit width of a sized kind is 8, 16, 32 or 64 (64 for `int` and `uint`) |
| GoTypes.ImplementingUnmarshalerSpec | internal/types/types.go:29-40 | a non-pointer type qualifies by the methods of either receiver, a pointer by its element's; a pointer to a pointer and an interface never qualify |
| GoTypes.CustomTypeSpec | internal/types/types.go:42-58 | the custom types are exactly `time.Duration` and `*time.Duration` |
| GoTypes.UnmarshallableSpec | internal/types/types.go:61-87 | unmarshallable means one of the 14 native kinds, a custom type, or an unmarshaler implementation, and nothing else |
| Cache.DefaultFieldName | internal/cache/cache.go:52-59 | the result is "unknown" or the path of some tag other than `default`; with an iteration order covering the tags it is "unknown" only when no such tag exists |
| Cache.NewStructAnalyzer | internal/cache/cache.go:18-24 | the tags looked up are the string tags followed by the value tags; the value tags and the input type are kept |
| Cache.SanitizePtrType | internal/cache/cache.go:171-181 | one pointer level is removed, the call fails exactly on a pointer to a pointer, and on success the type is not a pointer |
| Cache.LookupTags | internal/cache/cache.go:143-153 | the paths become `Add` of each carried analyzer tag in order, and the result says whether any was carried |
| Cache.Cache | internal/cache/cache.go:62-68 | the plan is the analysis of the input type; the root has `IsRoot` and no index; no type or a pointer to a pointer gives an empty plan |
| Cache.CacheInto | internal/cache/cache.go:70-141 | the level and the `containTags` flag are the analysis of the type |
| Cache.CacheField | internal/cache/cache.go:80-137 | one pass of the field loop gives the level the specification computes for that field |
| Cache.CacheKeepsHeader | internal/cache/cache.go:70-79 | the root flag and the index of a level are kept; a pointer to a pointer leaves the level as it was |
| Cache.FieldsKeepHeader | internal/cache/cache.go:79-138 | the field loop never changes the root flag or the index of its level |
| CacheProps.FieldStep | internal/cache/cache.go:80-137 | one pass appends at most one entry and one nested level, both for that field |
| CacheProps.FieldsSound | internal/cache/cache.go:79-138 | after the first `n` fields, every entry and nested level is sound and in declaration order |
| CacheProps.FieldsAppend | internal/cache/cache.go:79-138 | field `n - 1` appends at most one entry and one nested level to what the fields before it built |
| CacheProps.LevelGrows | internal/cache/cache.go:104-137 | appending the entries of the next field to a sound level keeps it sound |
| CacheProps.EntriesGrow | internal/cache/cache.go:118-137 | an entry appended for field `n - 1` is sound and keeps the entries in declaration order |
| CacheProps.ChildrenGrow | internal/cache/cache.go:103-111 | a nested level appended for field `n - 1` is kept for a reason and keeps the children in declaration order |
| CacheProps.CacheTreeSound | internal/cache/cache.go:70-141 | every level of the plan, down to the deepest nested struct, is sound: no pointer-to-pointer field, stripped types, element types for collections, default and exploder copied, a tag behind every entry, a child kept only when its analysis found a tag, with the child's index that of its field |
| CacheProps.AnalyzeSound | internal/cache/cache.go:62-68 | the plan for a struct input type is sound throughout |
| CacheProps.LookupKeys | internal/cache/cache.go:143-153 | the tags with paths afterwards are the earlier ones plus the analyzer tags the field carries |
| CacheProps.LookupUntagged | internal/cache/cache.go:143-153 | a field without any analyzer tag passes its level's paths through unchanged |
| CacheProps.LookupDistinct | internal/cache/cache.go:94-105 | with distinct tags, a carried tag's path is the parent path, a dot, then the field's key; a tag the field lacks keeps the parent path |
| CacheProps.DuplicateTagComposes | internal/cache/cache.go:143-153 | a tag listed twice is added twice: the path of `query:"name"` becomes `name.name` |
| CacheProps.RecordedTagged | internal/cache/cache.go:129-131 | with no value tag in the starting paths, a recorded field carries an analyzer tag itself, so an untagged plain field is never recorded |
| Decoder.Link | internal/decoder/decoder.go:44-56 | one link of the chain steps to exactly the location of that link; a pointer link is allocated only when it can be set, and panics otherwise (`DecoderProps.WalkUnsettable`) |
| Decoder.CollectPicks | internal/decoder/decoder.go:69-85 | the first loop of `decode` yields the fields that won a value, or the first extraction error |
| Decoder.PicksStop | internal/decoder/decoder.go:72-75 | once the first loop fails it stays failed with that error |
| Decoder.WalkStop | internal/decoder/decoder.go:44-57 | once the chain walk has stopped it stays stopped |
| Decoder.WalkNext | internal/decoder/decoder.go:44-56 | one more link of the walk: nothing once it has stopped, and otherwise the step to that link's location |
| Decoder.SetFieldsStop | internal/decoder/decoder.go:95-107 | once setting a field fails, no later field is set |
| Decoder.SetFieldsNext | internal/decoder/decoder.go:95-107 | one more field: nothing once setting has stopped, and otherwise the setting of that field |
| Decoder.ChildrenStop | internal/decoder/decoder.go:110-129 | once a child level fails, the later children are not decoded |
| Decoder.ChildrenNext | internal/decoder/decoder.go:110-129 | one more child: nothing once the decode has stopped, and otherwise that child's level with the chain extended by its index |
| Decoder.ResolveChain | internal/decoder/decoder.go:41-60 | the destination, the location reached and the panic, if any, are those of the walk over the whole chain |
| Decoder.TakeLink | internal/decoder/decoder.go:44-56 | one pass of the walk's loop leaves the destination and the stop of one link |
| Decoder.SetAll | internal/decoder/decoder.go:95-107 | the destination and the stop are those of setting every picked field in turn |
| Decoder.DecodeAt | internal/decoder/decoder.go:68-132 | the destination and the stop are those of the level's specification: picks, chain resolved only when something was picked, fields set, then children |
| Decoder.DecodeChildren | internal/decoder/decoder.go:110-129 | each child is decoded with the chain extended by its own index, in order, until one fails |
| Decoder.DecodeChild | internal/decoder/decoder.go:110-129 | one pass of that loop: from the destination the earlier children left, without a failure, decoding the next child leaves what the specification of one more child says |
| Decoder.Decode | internal/decoder/decoder.go:64-66 | `Decode` on the root is the specification of the root level with the extractor picker and the field setter as written, settability panics included |
| DecoderProps.StringsSilent | internal/decoder/decoder.go:135-153 | the string extractors fall through exactly when none of them answers; one that finds nothing is skipped |
| DecoderProps.StringsFirstAnswer | internal/decoder/decoder.go:135-153 | the first string extractor that answers decides alone what the string extractors give |
| DecoderProps.ValuesSilent | internal/decoder/decoder.go:155-176 | the value extractors fall through exactly when none of them answers |
| DecoderProps.ValuesFirstAnswer | internal/decoder/decoder.go:155-176 | the first value extractor that answers decides alone what the value extractors give |
| DecoderProps.StringsWin | internal/decoder/decoder.go:134-192 | a string extractor that answers wins over every value extractor and the default |
| DecoderProps.ValuesWin | internal/decoder/decoder.go:134-192 | with no string answer, the first value extractor that answers wins over the default |
| DecoderProps.DefaultLast | internal/decoder/decoder.go:178-191 | the default is consulted only when no extractor answers |
| DecoderProps.ExplodeStringsSpec | internal/decoder/decoder.go:147-149 | the strings are cut only when the exploder is set, exactly one string came back and the field is a collection; the pieces join back to it |
| DecoderProps.ExplodeValueSpec | internal/decoder/decoder.go:163-170 | a single value is cut only when the exploder is set, the field is a collection and the value contains the exploder; the pieces join back to it |
| DecoderProps.DefaultSpec | internal/decoder/decoder.go:178-189 | the default is used only when non-empty, under the tag `default`, and as pieces exactly when the exploder applies and cuts it |
| DecoderProps.DecoderDefaultName | internal/decoder/decoder.go:184-188 | the decoder reports the default under some non-default path of the field, or "unknown" |
| DecoderProps.DecodingDefaultName | internal/decoding/decoding.go:178-189 | the older decoder reports the default under the tag `default` and an empty path |
| DecoderProps.ValueStringExploded | internal/decoding/decoding.go:162-174 | a string from a value extractor comes back as pieces with no tag and no path exactly when the exploder applies and cuts it, and whole under the extractor's tag otherwise |
| DecoderProps.PicksSpec | internal/decoder/decoder.go:71-85 | the fields to set are those that won a value, each with the value it won, in declaration order |
| DecoderProps.FirstErrorStops | internal/decoder/decoder.go:72-75 | the first field whose extraction fails stops the loop with that error |
| DecoderProps.LevelErrorStops | internal/decoder/decoder.go:72-75 | an extraction error ends the decode with that error and leaves the destination as it was |
| DecoderProps.SilentKeeps | internal/decoder/decoder.go:87-93 | where no field of a level or below wins a value, nothing is allocated and nothing is written, however long the pending chain |
| DecoderProps.SilentChildren | internal/decoder/decoder.go:110-129 | silent child levels leave the destination as it was |
| DecoderProps.Joined | internal/decoder/decoder.go:120-123 | the chain's locations end to end start with the first link |
| DecoderProps.JoinedSnoc | internal/decoder/decoder.go:120-123 | one more link extends the joined location by that link |
| DecoderProps.WalkAt | internal/decoder/decoder.go:44-59 | a walk that goes through ends at the struct the whole chain leads to |
| DecoderProps.WalkFresh | internal/decoder/decoder.go:51-55 | every pointer link is allocated afresh: after the walk the last pointer link holds a zero value, whatever it held before |
| DecoderProps.WalkUnsettable | internal/decoder/decoder.go:51-53 | a pointer link is allocated exactly when it can be set; otherwise the walk stops with the panic of `Set` and the destination is as before |
| DecoderProps.UnsettableFieldKept | internal/decoder/decoder.go:95-107 | with the setter as written, a field that cannot be set keeps its value |
| DecoderProps.LinkApart | internal/decoder/decoder.go:51-54 | allocating one pointer link writes nothing apart from that link |
| DecoderProps.ApartBelow | internal/decoder/decoder.go:98-102 | a location apart from `base` is apart from everything below `base` |
| DecoderProps.WalkStaysBelow | internal/decoder/decoder.go:44-59 | walking the chain writes only below its base and ends below it |
| DecoderProps.SetFieldsStayBelow | internal/decoder/decoder.go:95-107 | setting the fields of a struct writes only inside that struct |
| DecoderProps.DecodeStaysBelow | internal/decoder/decoder.go:68-132 | decoding a level, children included, writes nothing outside the struct it starts from |
| DecoderProps.ChildrenStayBelow | internal/decoder/decoder.go:110-129 | decoding the children writes nothing outside their parent |
| Decoding.Decode | internal/decoding/decoding.go:61-131 | the older decoder is the same level specification, with the setter as written and the same settability panics, run with its own picker, `value`, whose default path is empty |
| FieldSetter.MakeNative | internal/decoder/field_setter.go:185-256 | a parsed value has the field's type, or a pointer to it when the field is a pointer; every failure is an error, never a panic |
| FieldSetter.FirstImplemented | internal/decoder/field_setter.go:258-306 | the interface found is implemented and comes from the tried order; none found means the pointer type implements none of the rest |
| FieldSetter.MakeWithUnmarshaller | internal/decoder/field_setter.go:258-306 | a success is always a pointer to the element type (the type itself when it is not a pointer); every failure is an error |
| FieldSetter.MakeCustomType | internal/decoder/field_setter.go:308-329 | a parsed duration has the field's type, or a pointer to it |
| FieldSetter.Container | internal/decoder/field_setter.go:75-106 | the collection written into is a slice or an array type |
| FieldSetter.Strings | internal/decoder/field_setter.go:59-70 | a list of strings is read exactly from a `string`, a `[]string` or a `[]byte`; a `string` gives itself alone and a `[]string` one string per element |
| FieldSetter.BuildElements | internal/decoder/field_setter.go:107-134 | the element loop yields what the element specification gives for the whole list |
| FieldSetter.ElementsStop | internal/decoder/field_setter.go:107-134 | once an element fails, the loop's result is that failure |
| FieldSetter.Set | internal/decoder/field_setter.go:44-73 | with the direct-assignment test as written, the field is written with the value the set computes, and only then; an empty list leaves it unchanged, and an error or panic (a field that cannot be set included) leaves it unchanged and is returned |
| SetterProps.StringsRoundTrip | internal/decoder/field_setter.go:59-70 | a boxed `[]string` reads back as the same list |
| SetterProps.EmptyListKeeps | internal/decoder/field_setter.go:62-64 | an empty list leaves a field that fails the direct test untouched, without error, even one that cannot be set |
| SetterProps.IncompatibleValue | internal/decoder/field_setter.go:58-60 | a value that fails the direct test and is not a string kind fails as `input_critical` "incompatible type", with the field's path and tag |
| SetterProps.DirectAssignment | internal/decoder/field_setter.go:45-48 | with the test the right way round, a value assignable to the field is stored unchanged, and a field that cannot be set panics |
| SetterProps.SettersAgree | internal/decoder/field_setter.go:45-48 | the setter as written and the corrected one agree whenever neither the field's type nor the value's type is an interface |
| SetterProps.UnsettableNeverWritten | internal/decoder/field_setter.go:46 | a field that cannot be set is never written, and a value that passes the direct test panics in `Set` |
| SetterProps.ReversedTestNeverPanics | internal/decoder/field_setter.go:45-48 | the reversed assignability test never lets through a non-interface value that the assignment would refuse |
| SetterProps.ReversedTestRefusesInterface | internal/decoder/field_setter.go:45-48 | with the test as written, a `string` for an `interface{}` field fails with "type is not native, unmarshaller or custom type"; with the test the right way round it is stored |
| SetterProps.NoRuleForInterface | internal/decoder/field_setter.go:155-183 | no conversion rule applies to an interface type: the result is the `input_critical` error "type is not native, unmarshaller or custom type" |
| SetterProps.FirstStringOnly | internal/decoder/field_setter.go:72 | a field that is not a collection, and that fails the direct test for `[]string`, is set from the first string alone |
| SetterProps.SliceElements | internal/decoder/field_setter.go:107-134 | when every string converts, a slice gets exactly one element per string, in order |
| SetterProps.ArrayElements | internal/decoder/field_setter.go:107-134 | when every string converts, an array is filled from index 0 and keeps zero values after; more strings than its length panic with "array index out of range", the index being checked before the element's type |
| SetterProps.ArrayIndexFirst | internal/decoder/field_setter.go:99-105 | a string past the end of the array panics with "array index out of range" whatever type it converts to, the index being checked before the element's type |
| SetterProps.ElementsFail | internal/decoder/field_setter.go:107-134 | one string that fails to convert, or converts to a value the element type refuses, fails the loop |
| SetterProps.ElementErrorIndex | internal/decoder/field_setter.go:111-132 | an element error is the conversion error of some string, tagged with that string's position as `value-index` |
| SetterProps.SliceField | internal/decoder/field_setter.go:75-153 | a slice field given strings that all convert holds exactly those values in order, behind a pointer exactly when the field is a pointer; a field that cannot be set panics instead |
| SetterProps.IntConversion | internal/decoder/field_setter.go:196-209 | a signed field accepts exactly what `ParseInt` accepts at its width, the value in range; a rejection is `input` "invalid integer" wrapping the parse error |
| SetterProps.UintConversion | internal/decoder/field_setter.go:210-223 | an unsigned field accepts exactly what `ParseUint` accepts at its width; a rejection is `input` "invalid positive integer" |
| SetterProps.BoolConversion | internal/decoder/field_setter.go:224-237 | a boolean field accepts exactly the twelve spellings `ParseBool` knows, true for the six true ones; anything else is "invalid boolean" |
| SetterProps.StringConversion | internal/decoder/field_setter.go:189-195 | a string field receives the raw string unchanged |
| SetterProps.DurationConversion | internal/decoder/field_setter.go:155-167 | a duration field is parsed by the duration parser before the integer rule; a rejection is `input` "unable to parse duration (format: 1ms, 1s, 3h3s)" |
| SetterProps.FirstImplementedOrder | internal/decoder/field_setter.go:266-302 | text, then JSON, then binary: the first interface the pointer type implements is used, and none only when it implements none |
| SetterProps.UnmarshalerConversion | internal/decoder/field_setter.go:258-306 | an unmarshaler type is filled through a fresh pointer by the first method in order; a failure is `input` with that method's message |
| SetterProps.UnmarshalerIntoField | internal/decoder/field_setter.go:258-306 | the unmarshaler result is a pointer, so a field of the type itself panics on assignment while a pointer field that can be set receives exactly the unmarshaled value behind it |
| Failures.WithFields | pkg/errors/errors.go:204-209 | the error keeps its kind, message and cause; its fields are the old ones overridden by the given ones, and nothing else |
| Failures.WithField | pkg/errors/errors.go:198-201 | the key holds the new value and every other field is kept |
| Strconv.Pow2 | internal/decoder/field_setter.go:196-223 | a power of two is at least one |
| Strconv.DigitChar | internal/decoder/field_setter.go:196-223 | a digit's character is a digit character that reads back as the digit |
| Strconv.ParseIntRange | internal/decoder/field_setter.go:196-209 | an accepted value lies in the signed range of the bit width |
| Strconv.ParseBool | internal/decoder/field_setter.go:224-237 | exactly the twelve spellings are accepted, six of them as true; any other string is a syntax error |
| Strconv.FormatUint | internal/decoder/field_setter.go:210-223 | the decimal form of a natural is a non-empty run of digits |
| Strconv.ValueFormat | internal/decoder/field_setter.go:210-223 | the decimal form reads back as the number |
| Strconv.ParseUintSpec | internal/decoder/field_setter.go:210-223 | a string is accepted exactly when it is a non-empty run of digits whose value fits the width, and the value is then the digits' value |
| Strconv.ParseUintFormat | internal/decoder/field_setter.go:210-223 | a number that fits the width survives formatting and parsing |
| Strconv.ParseIntFormat | internal/decoder/field_setter.go:196-209 | a signed number in the width's range survives formatting and parsing |
| Strconv.ParseBoolFormat | internal/decoder/field_setter.go:224-237 | "true" and "false" parse back to the boolean they spell |
| Text.IndexFrom | internal/decoder/decoder.go:148 | the position found is the first occurrence of the separator from the start position; none means there is no occurrence at all |
| Text.NonEmpty | extractors.go:28-33 | the pieces kept are non-empty pieces of the input, no more of them than there were |
| Text.Remove | extractors.go:28-33 | the character no longer occurs |
| Text.JoinSplit | internal/decoder/decoder.go:148 | the pieces of a cut string, joined by the separator, are the string again |
| Text.SplitMany | internal/decoder/decoder.go:163-170 | a string is cut in more than one piece exactly when it contains the separator, and is its own single piece otherwise |
| Text.SplitNonEmpty | internal/decoder/decoder.go:148 | cutting a string gives at least one piece |
| Text.SplitPiecesClean | internal/decoder/decoder.go:148 | no piece cut at a one-character separator contains it |
| Text.ConcatSplit | internal/decoder/decoder.go:148 | the pieces cut at a character, glued together, are the string with that character taken out |
| Text.RemoveAbsent | extractors.go:28-33 | taking out a character that does not occur changes nothing |
| Text.RemoveAppend | extractors.go:32-34 | taking out a character distributes over concatenation |
| Text.ConcatNonEmpty | extractors.go:28-33 | dropping empty pieces does not change what they spell |
| Text.FieldsShape | extractors.go:28-33 | every comma field is non-empty and comma-free, and the fields spell the string without its commas |
| Extractors.OneOrNone | extractors.go:12-20 | at most one value, none exactly for the empty string, and otherwise the string itself |
| Extractors.HeaderExtractor | extractors.go:12-20 | never fails; nothing when the header's first value is empty or missing, otherwise exactly that value |
| Extractors.PathExtractor | extractors.go:41-48 | never fails; nothing when the route has no such parameter or it is empty, otherwise exactly that parameter |
| Extractors.QueryExtractor | extractors.go:24-37 | the comma fields of every raw value under the key, in order; nothing when the key is absent |
| Extractors.FieldsInOrder | extractors.go:32-34 | the fields of several values are the fields of each, value after value |
| Extractors.FieldsClean | extractors.go:24-37 | every value handed back is non-empty and holds no comma, and together they spell the raw values without commas |
| Extractors.ConcatAppend | extractors.go:32-34 | gluing pieces distributes over appending lists of pieces |
| Extractors.QuerySingle | extractors.go:24-37 | a single comma-free query value comes back whole |
| Extractors.FieldsOfPlain | extractors.go:28-33 | a non-empty comma-free string is one field |
| Extractors.NoComma | extractors.go:28-30 | a comma-free string has no comma position |
| ErrorKinds.ToStatusCode | pkg/errors/kind.go:100-131 | a known kind answers with its entry in the documented table; any other kind with what the hook answers |
| ErrorKinds.HookOnlyForUnknownKinds | pkg/errors/kind.go:94-131 | two hooks can give different statuses only for a kind the switch does not know, and only where they differ |
| ErrorKinds.DefaultStatuses | pkg/errors/kind.go:94-131 | with the default hook every kind answers one of the ten statuses, and an unknown kind 500 |
| ErrorKinds.KnownKindsAreErrors | pkg/errors/kind.go:100-131 | a known kind always answers 4xx or 5xx, 5xx exactly for unknown, unimplemented, internal, data loss, the empty kind and unavailable |
| Errors.FieldMap.constructor | pkg/errors/errors.go:38-46 | a new map of fields is empty |
| Errors.Error.Build | pkg/errors/errors.go:38-46 | the error holds the kind, message, fields and wrapped error given, and its chain is well founded |
| Errors.Error.Down | pkg/errors/errors.go:100-126 | only the last element of the intended chain text can be empty |
| Errors.Error.ErrorTextWhenNamed | pkg/errors/errors.go:100-126 | when every inner error has a message, `Error()` as written is the intended text |
| Errors.Error.WithMessage | pkg/errors/errors.go:192-195 | the receiver's message is replaced, its kind kept, and the receiver returned |
| Errors.Error.WithKind | pkg/errors/errors.go:212-215 | the receiver's kind is replaced, its message kept, and the receiver returned |
| Errors.Error.WithField | pkg/errors/errors.go:198-201 | the shared map gains the key with that value, all else kept |
| Errors.Error.WithFields | pkg/errors/errors.go:204-209 | the shared map becomes the old one overridden by every given field |
| Errors.Error.GetField | pkg/errors/errors.go:224-227 | found exactly when the key is set, with its value |
| Errors.New | pkg/errors/errors.go:38-46 | a fresh error of kind `internal` with the message, no fields and nothing wrapped |
| Errors.NewWithKind | pkg/errors/errors.go:49-57 | a fresh error of the given kind with the message, no fields and nothing wrapped |
| Errors.Wrap | pkg/errors/errors.go:61-78 | wrapping an `*Error` takes its kind and shares its very map of fields; wrapping anything else gives `internal` and a fresh empty map |
| Errors.WrapWithKind | pkg/errors/errors.go:81-97 | as written: it succeeds exactly for a wrapped `*Error`, taking that error's kind and fields, and otherwise panics on a nil dereference |
| Errors.KindIgnored | pkg/errors/errors.go:81-97 | asking for `not_found` around a new error gives kind `internal` |
| Errors.WrapWithKindIntended | pkg/errors/errors.go:80-97 | the new error has the given kind, shares a wrapped `*Error`'s fields and otherwise gets a fresh empty map |
| Errors.SharedFields | pkg/errors/errors.go:61-78 | a field added to the wrapping error is read back from the wrapped one |
| Errors.RepeatedText | pkg/errors/errors.go:100-126 | "top" over an error with no message over "a" reads "top: a: a" as written, and "top: a" as intended |
| Errors.RepeatedTextChain | pkg/errors/errors.go:100-126 | that chain is built by `New` and `Wrap` and shows the repetition |
| Handler.Classify | handler.go:167-215 | the first matching case: response writer, then context, then request, then the input |
| Handler.ReadInputs | handler.go:151-219 | the loop yields the categories and input type of the specification, or its panic |
| Handler.ScanStopped | handler.go:160-217 | once the loop has panicked, later parameters change nothing |
| Handler.Classes | handler.go:160-217 | one category per parameter, each the parameter's own |
| Handler.ScanSpec | handler.go:160-217 | the first `k` parameters pass exactly when no two share a category and the input points to a struct, and then the loop holds their categories and input type |
| Handler.InputFound | handler.go:195-213 | a parameter that passes keeps the accepted categories and sets the input type from the input parameter |
| Handler.PrefixBreaks | handler.go:160-217 | a prefix that breaks a rule breaks it for every longer signature |
| Handler.InputAccepts | handler.go:151-219 | the signature is accepted exactly when it has at most four parameters, no category twice and its input a pointer to a struct; the result lists their categories and the struct type |
| Handler.Output | handler.go:223-248 | accepted exactly for one or two results ending in an `error`; one result gives no response type, two give the first with a pointer taken off |
| BindCore.BindStringValue | binding.go:198-260 | a value that cannot be set is refused first; a type whose pointer has `UnmarshalText` takes exactly what that method gives; a kind outside the native ones is unsupported; a success needs a settable, unmarshalable or native target |
| BindCore.Allocate | binding.go:79-82 | allocating a nil pointer that cannot be set panics, and that is the only failure |
| BindCore.FillElemsStop | binding.go:157-171 | once an element fails, the loop's result is that failure |
| BindCore.FillElemsNext | binding.go:157-171 | one more string: nothing once the loop has stopped, and otherwise one pass over that string |
| BindCore.AllocateAt | binding.go:79-82 | the destination becomes what `Allocate` gives, or stays as it was when the allocation panics |
| BindCore.FillCollection | binding.go:149-173 | the destination and the stop are the collection specification's: a slice reset and grown in order, an array written index by index, stopping at the first failing element |
| BindCore.FillAt | binding.go:77-116 | the destination and the stop are those of the field specification: allocate, check the count, then fill a collection or convert the first string |
| Binding.ExtractFrom | binding.go:122-147 | an extractor's failure becomes "unable to extract value from request" wrapping that failure |
| Binding.BindFieldsStop | binding.go:40-117 | once a field stops the loop, the later fields change nothing |
| Binding.BindFieldsNext | binding.go:40-117 | one more field of the loop is one pass on that field, unless the loop has already stopped |
| Binding.ExtractValue | binding.go:122-147 | the loop over the extractors gives what the specification gives, the updated binding error included |
| Binding.Bind | binding.go:32-38 | binding through the new pointer gives the destination and stop of the whole-struct specification |
| Binding.BindAt | binding.go:32-120 | the destination and stop are those of binding the struct at that location |
| Binding.HandleEmbeddedField | binding.go:178-195 | the destination and stop are those of allocating a nil embedded pointer and then binding what it points to |
| Binding.BindFieldAt | binding.go:41-116 | the destination and stop are those of the specification of one pass of the field loop |
| KcdBinding.BindFieldsStop | pkg/kcd/binding.go:25-134 | once a field stops the loop, the later fields change nothing |
| KcdBinding.Bind | pkg/kcd/binding.go:18-24 | binding through the new pointer gives the destination and stop of the whole-struct specification |
| KcdBinding.BindAt | pkg/kcd/binding.go:18-137 | the destination and stop are those of binding the struct at that location |
| KcdBinding.BindFieldAt | pkg/kcd/binding.go:26-134 | the destination and stop are those of the specification of one pass of the field loop |
| BindProps.IntRoundTrip | binding.go:232-237 | a signed integer in the field's range, written in base 10, binds back to itself |
| BindProps.UintRoundTrip | binding.go:238-243 | an unsigned integer below 2 to the field's width, written in base 10, binds back to itself |
| BindProps.UintParsed | binding.go:238-243 | on an unsigned kind the kind switch yields what `ParseUint` yields at the kind's width |
| BindProps.StringAndBool | binding.go:229-249 | a string field takes the string unchanged; a boolean field takes "true" and "false" as the booleans |
| BindProps.DurationParsedAsInteger | binding.go:218-225 | the duration branch never fires, a duration field goes through the integer rule, and "1s" is refused |
| BindProps.Converted | binding.go:157-164 | one converted value per string, each what `bindStringValue` gives for it |
| BindProps.SliceElems | binding.go:154-167 | when every string converts, the slice loop builds exactly the converted strings in order |
| BindProps.ArrayElems | binding.go:157-170 | when every string converts, the array loop writes each converted string at its own index |
| BindProps.ArrayStep | binding.go:158-170 | an element that converts is set at its own index of the array |
| BindProps.AllocateSpec | binding.go:79-82 | a nil pointer field gets a fresh pointer to a zero value; any other field is left as it is |
| BindProps.MultipleValuesRefused | binding.go:90-93 | more than one string for a field that is neither a slice nor an array is refused with "multiple values not supported" and nothing is written |
| BindProps.ArrayCountChecked | binding.go:95-101 | an array field given a different number of strings than its length is refused with "parameter expect N values, got M" before any element is written |
| BindProps.SliceRebuilt | binding.go:103-108 | a slice field ends holding exactly the converted strings, in order |
| BindProps.ArrayFilled | binding.go:103-108 | an array field given its length in strings holds the converted strings, each at its index |
| BindProps.SingleValueSet | binding.go:110-116 | any other field gets its one string converted, through a pointer allocated first if nil |
| BindProps.FillFrame | binding.go:77-116 | binding a field writes nothing apart from that field |
| BindProps.ExtractNothing | binding.go:122-147 | no strings and no error exactly when every extractor lacks its tag on the field or finds nothing |
| BindProps.ExtractFirstVoice | binding.go:122-147 | whatever strings or error come back come from the first extractor that has the tag and finds something or fails |
| BindProps.FieldWithoutValue | binding.go:66-75 | a plain field without strings and without a default is left alone |
| BindProps.DefaultWhenQuiet | binding.go:66-71 | a plain field without strings is bound with its default tag as the only string |
| BindProps.EmbeddedAllocated | binding.go:178-189 | a nil embedded pointer is allocated before the struct it points to is bound; one that cannot be set panics |
| BindProps.BindStaysBelow | binding.go:32-120 | binding a struct writes nothing outside it |
| BindProps.FieldsStayBelow | binding.go:40-117 | the field loop writes nothing outside the struct |
| BindProps.FieldStaysBelow | binding.go:41-116 | one pass of the field loop writes nothing outside the struct |
| BindProps.DefaultOnlyWhenEmpty | pkg/kcd/binding.go:69-75 | what was extracted wins; the default tag only when nothing was, and nothing when there is no default either |
| BindProps.UntaggedSkipped | pkg/kcd/binding.go:53-56 | a struct with no embedded field and no field carrying the tag is left alone |
| BindProps.ExtractionWrapped | pkg/kcd/binding.go:60-65 | an extraction error is returned as "unable to extract value from request" naming the tag and its value, and the field is left alone |
| BindProps.KcdEmbeddedAllocated | pkg/kcd/binding.go:34-51 | a nil embedded pointer is allocated before the struct it points to is bound; one that cannot be set panics |
| BindAgree.BindingLoop | binding.go:40-117 | binding.go's field loop is the generic loop of its one-field step |
| BindAgree.KcdLoop | pkg/kcd/binding.go:25-134 | the single-tag binder's field loop is the generic loop of its one-field step |
| BindAgree.LoopsAgree | binding.go:40-117 | two loops whose steps agree on every index agree |
| BindAgree.BindersAgree | pkg/kcd/binding.go:18-137 | on a struct of plain fields, binding.go with one extractor and the single-tag binder with `default` bind the same strings into the same places and stop on the same error |
| BindAgree.FieldAgrees | pkg/kcd/binding.go:26-134 | the two binders agree on one plain field, whatever the destination holds |
| BindAgree.ExtractOne | binding.go:122-147 | with one extractor, nothing is found on a field without the tag, and otherwise the extract function decides |
| BindAgree.FoundAgrees | pkg/kcd/binding.go:60-134 | the two binders agree on a tagged plain field once the extract function's result is known |
| CacheProps.FieldsStep | internal/cache/cache.go:79-138 | one more pass of the field loop keeps the level sound |
| Values.Target.Store | internal/decoder/field_setter.go:46 | `Set` writes the value at the location and leaves the rest of the destination as `Put` says |
| Values.StringsDyn | internal/decoder/field_setter.go:59-70 | a boxed `[]string` has one string element per string, in order |

## Left out

- Reflection itself (`reflect.Value`, `Set`, `FieldByIndex`, `reflect.New`): types are the `GoType` datatype and values a tree. Aliasing between `reflect.Value`s and pointer identity inside the destination are not modelled: a pointer is the value it points to.
- Cache.Cache: `reflect.Type.NumField` panics on a type that is not a struct, which an embedded non-struct field (`struct{ MyInt }`) reaches at cache.go:79; the cache analysis treats such a type as having no fields. The binders do model this panic.
- Cache.CacheInto: the same `NumField` panic, for the same embedded non-struct field, is not modelled; the loop sees no fields.
- GoTypes.Bits: `int` and `uint` are 64 bits wide, as on 64-bit targets; on a 32-bit target Go's `strconv.IntSize` is 32 and their ranges would be narrower.
- FieldSetter.ErrFields: setter errors carry the context fields "path" and "tag" only; the fields "value" (`fmt.Sprint` of the value), "value-type" and "field-type" (`Type.String()`) depend on formatting that is not modelled.
- HTTP plumbing: the closure `Handler` builds (handler.go:73-141), `hv.Call`, rendering, and every file under `pkg/extractor`. An extractor is a function from a tag's value to strings, a value or an error.
- The request is reduced to its header, query and path maps; header name canonicalisation and URL parsing are not modelled.
- Floating-point parsing, `time.ParseDuration` and the bodies of `UnmarshalText`, `UnmarshalJSON` and `UnmarshalBinary` are parameters that may fail; their results are not interpreted.
- `fmt.Sprintf` formatting: messages are the formatted text, or a datatype naming the parts for the two messages the binders format; the panic messages of `input` and `output` are the `Handler.Refusal` values they print.
- `internal/kcderr` and `pkg/kcderr` are not part of this model beyond the fields the binders fill in.
- `Config.DefaultTag` is global configuration; the single-tag binder takes it as a parameter.
- The value extractors of the legacy `binder` are stored but never read; they are carried and ignored.
- Cache.DefaultFieldName: Go's map iteration order is a parameter, so the result is stated as some path other than `default`'s, or "unknown", and not which one Go picks.
- Errors.Error.WithFields: Go's map order is not modelled; the loop takes keys in any order and the result is the same map.
- The location, stack trace and logging of `pkg/errors/errors.go` (`retrieveLocation`, `Stacktrace`, `locations`, `Log`) depend on runtime caller data and a logger.
- A field value of `pkg/errors` is a string or an integer, the only kinds the modelled code stores.
- Errors.WrapWithKind: a typed nil `*Error` passed as the wrapped error is not a case of the model; an error is nil, an `*Error`, or some other error.
- `hooks.go`, `pkg/hook`, `kcd.go` and `pkg/kcd/kcd.go` are not part of this model (kcd.go wires the path and header extractors the other way round; the extractors are passed explicitly here).
- Concurrency: the plan cache is built once per handler and nothing here runs concurrently.

## Findings

| source | as written | input that shows it | evidently intended | confidence | as-written member | corrected member |
|---|---|---|---|---|---|---|
| internal/decoder/field_setter.go:45 | the direct-assignment test asks whether the field's type is assignable to the value's type | a `string` value for a field of type `interface{}`: the test says no, no conversion rule applies, and the set fails with "type is not native, unmarshaller or custom type" | ask whether the value's type is assignable to the field's type, as `Set` then requires; the string is stored | not executed | SetterProps.ReversedTestRefusesInterface | SetterProps.DirectAssignment |
| pkg/errors/errors.go:113-117 | an inner `*Error` without a message contributes its whole `Error()` text, and the loop then goes on below it | "top" wrapping an error with no message wrapping "a" reads "top: a: a" | the non-empty messages of the chain joined once each: "top: a" | not executed | Errors.RepeatedText | Errors.Error.Down |
| pkg/errors/errors.go:94 | the new error's kind is read from the wrapped `*Error`; the `kind` argument is never used, and for any other error the pointer is nil and the read panics | `WrapWithKind("not_found", New("missing"), "lookup")` has kind `internal` | the new error has the kind asked for | not executed | Errors.KindIgnored | Errors.WrapWithKindIntended |
