# Key path lenses over optionals

This project models the core of the Swift package `swift-keypaths-extensions`:
the algebra of key paths that unwrap optionals with a default, lift a key path
onto an optional root, and compose such key paths, together with the
`KeyPathMapper` box and the accessors that make values addressable through it.

A Swift key path is modelled as a lens `Lens<R, V>`: a pure getter
`get: R -> V` and a setter `put: (R, V) -> R` that returns the rebuilt root.
`Path<R, V>` tags a lens with the key path's class (`KeyPath`,
`WritableKeyPath`, `ReferenceWritableKeyPath`), because the library's
overloads decide the class of their results. Swift's `Optional` is
`Option<T>`. Swift's `appending(path:)` is `Compose` (`Append` on tagged
paths). A Swift setter on a value type receives `self` inout and may replace
it; each setter is the `put` of a lens and returns the new `self`.
`KeyPathMapper<Value>` is a struct, and key paths take and return it by value,
so its value is the datatype `Mapper<V>`. A mutable variable holding one, which
the mutating members update in place, is the class `KeyPathMapper<V>`.

Files, one module each:

- `Optionals.dfy`: `Option`, with `??` as `GetOr`.
- `Lenses.dfy`: lenses, tagged paths, composition, the lens laws (get-put,
  put-get, put-put), and preservation of each law under composition.
- `Hashing.dfy`: `Hashed<T>` and `_ForceHashable<T>` as a value plus an opaque token.
- `OptionalSubscripts.dfy`: `Helpers/Optional+.swift`.
- `KeyPathOptional.dfy`: `KeyPath+Optional.swift`.
- `KeyPathHelpers.dfy`: `Helpers/KeyPath+.swift`.
- `KeyPathMappers.dfy`: `KeyPathMapper.swift`.
- `Mappable.dfy`: `KeyPathMappable.swift`.
- `MapperOptional.dfy`, `MapperCollection.dfy`, `MapperHashable.dfy`: the
  `KeyPathMapper` extensions.
- `Scenarios.dfy`: the repository's test scenarios, replayed as lemmas and one client method.

The model follows the code on four points a reader might expect otherwise:

- The kind of an appended key path is not "writable iff both links are,
  reference-writable iff either link is". The five `appending(_:)` overloads,
  `KeyPath+Optional.swift:96-220`, agree with Swift's own `appending(path:)`
  rule. A read-only base followed by a reference-writable path is
  reference-writable. A reference-writable base followed by a read-only path
  is read-only. See `AppendingKindTable`.
- An aggressive unwrap does not always materialise an absent value, even with
  value types only. `property.appending(field).unwrapped(with:, aggressive: true)`
  cannot create the missing `property`. The aggressive write reaches the
  lifted key path, and that lift ignores writes into an absent root. See
  `UnwrappedAppendingCannotMaterialise`. Only
  `property.unwrapped(with:, aggressive: true).appending(path: field)`
  materialises it.
- The tests build `combined` as `property.appending(path: propertyValue)`
  (`Tests/KeypathsExtensionsTests/KeyPathsOptionalTests.swift:35`), where
  `property` yields an optional. Swift's own `appending(path:)` does not
  accept a key path on the wrapped type, and no visible overload with that
  label does; the model reads the call as the library's `appending(_:)`
  (`Scenarios.Combined`).
- The optional `hashedBy` setter writes absence through: it makes the value
  absent. It does not follow the no-op policy of the other optional accessors.

## Model

| member | source | states |
|---|---|---|
| `Lenses.AppendKind` | Sources/KeypathsExtensions/KeyPath+Optional.swift:15-68 | appending a writable key path keeps the base's kind, so each `unwrapped` overload returns its base's kind; a reference-writable appended path gives reference-writable, a read-only one read-only; the result is writable iff the appended path is reference-writable or both are writable |
| `Lenses.Append` | Sources/KeypathsExtensions/KeyPath+Optional.swift:19 | `appending(path:)` on tagged key paths: the kind follows Swift's appending rule; for every root the read goes through the outer then the inner key path, and a write updates the inner value and writes it back through the outer one; get-put and put-get carry over from the parts (by `ComposeGetPut`, `ComposePutGet`) |
| `Lenses.Compose` | Sources/KeypathsExtensions/KeyPath+Optional.swift:19 | the lens of `outer.appending(path: inner)`; its behaviour is stated by `ComposePut` and its laws by `ComposeGetPut`, `ComposePutGet`, `ComposePutPut` |
| `Lenses.ComposePut` | Sources/KeypathsExtensions/KeyPath+Optional.swift:43 | `Compose`'s defining write equation, as a lemma for unfolding: a write through an appended key path writes the inner value and writes the intermediate back through the outer key path |
| `Lenses.ComposeGetPut` | Sources/KeypathsExtensions/KeyPath+Optional.swift:43 | composition of two key paths obeying get-put obeys get-put |
| `Lenses.ComposePutGet` | Sources/KeypathsExtensions/KeyPath+Optional.swift:43 | composition of two key paths obeying put-get obeys put-get |
| `Lenses.ComposePutPut` | Sources/KeypathsExtensions/KeyPath+Optional.swift:43 | composition preserves put-put when the outer key path also obeys put-get |
| `Hashing.WrappedValueLaws` | Sources/KeypathsExtensions/Helpers/KeyPath+.swift:34 | `\Hashed.wrappedValue` obeys all three lens laws |
| `OptionalSubscripts.ForceSetUnwrapped` | Sources/KeypathsExtensions/Helpers/Optional+.swift:3-12 | the `_forceSet:unwrappedWith:` subscript; its read is stated by `ForceSetRead`, its write policy by `ForceSetWritePolicy`, its laws by `ForceSetPutGet` and `ForceSetGetPut` |
| `OptionalSubscripts.ForceSetUnwrappedHashable` | Sources/KeypathsExtensions/Helpers/Optional+.swift:14-25 | the `_ForceHashable` overload, with the discarded read of line 21; `ForceSetHashableAgrees` states that it reads and writes as the plain overload |
| `OptionalSubscripts.ForceSetRead` | Sources/KeypathsExtensions/Helpers/Optional+.swift:7 | the unwrapped read is the present value, else the default |
| `OptionalSubscripts.ForceSetWritePolicy` | Sources/KeypathsExtensions/Helpers/Optional+.swift:8-11 | a forced write, or a write on a present value, stores the new value as present; an unforced write on an absent value leaves it absent |
| `OptionalSubscripts.ForceSetPutGet` | Sources/KeypathsExtensions/Helpers/Optional+.swift:7-11 | after a write the read returns the written value if the write was performed and the default if it was skipped |
| `OptionalSubscripts.ForceSetGetPut` | Sources/KeypathsExtensions/Helpers/Optional+.swift:7-11 | writing back what was read is a no-op iff the write is not forced or a value is present; a forced write-back of the default materialises it |
| `OptionalSubscripts.ForceSetHashableAgrees` | Sources/KeypathsExtensions/Helpers/Optional+.swift:14-24 | the `_ForceHashable` overload reads `self ?? default.value` and writes as the plain overload; its discarded read changes nothing |
| `OptionalSubscripts.LiftPath` | Sources/KeypathsExtensions/KeyPath+Optional.swift:223-242 | each `_…OfOptionalRoot` property keeps the lifted key path's kind; for every optional root it reads absent iff the root is absent and `some(get(r))` otherwise; it ignores a write of absent or into an absent root and otherwise stores `some(put(r, v))`; it keeps get-put (by `LiftGetPut`) |
| `OptionalSubscripts.Lift` | Sources/KeypathsExtensions/Helpers/Optional+.swift:27-48 | the `_unwrappedKeyPath:` subscripts; stated by `LiftRead`, `LiftWrite`, `LiftGetPut`, `LiftPutPut`, `LiftPutGet` |
| `OptionalSubscripts.LiftRead` | Sources/KeypathsExtensions/Helpers/Optional+.swift:27-30 | the lifted read is absent iff the root is absent, and `some(get(r))` for `some(r)` |
| `OptionalSubscripts.LiftWrite` | Sources/KeypathsExtensions/Helpers/Optional+.swift:32-47 | writing absent is a no-op; writing into an absent root is a no-op; otherwise the result is `some(put(r, v))` |
| `OptionalSubscripts.LiftGetPut` | Sources/KeypathsExtensions/Helpers/Optional+.swift:32-39 | the lift of a key path obeying get-put obeys get-put |
| `OptionalSubscripts.LiftPutPut` | Sources/KeypathsExtensions/Helpers/Optional+.swift:32-39 | a later present write through the lift overrides an earlier write |
| `OptionalSubscripts.LiftPutGet` | Sources/KeypathsExtensions/Helpers/Optional+.swift:41-48 | a present value written through the lift is read back iff the root is present |
| `KeyPathOptional.Unwrapped` | Sources/KeypathsExtensions/KeyPath+Optional.swift:15-68 | the three `unwrapped(with:aggressive:)` overloads return a key path of the base's kind that reads, for every root, the base value or the default when it is absent; the write is stated by `UnwrappedWrite` |
| `KeyPathOptional.UnwrappedRead` | Sources/KeypathsExtensions/KeyPath+Optional.swift:15-20 | the unwrapped read is the base read, or the default when the base yields absent |
| `KeyPathOptional.UnwrappedWrite` | Sources/KeypathsExtensions/KeyPath+Optional.swift:39-44 | every write goes through the base's setter: it writes `some(v)` when aggressive or present, and otherwise writes back the absent value it read; for a base obeying get-put (a stored property) the latter leaves the root unchanged |
| `KeyPathOptional.AppendingKind` | Sources/KeypathsExtensions/KeyPath+Optional.swift:96-220 | the result kind of the five `appending(_:)` overloads under most-specific overload selection; `AppendingKindTable` states it |
| `KeyPathOptional.AppendingKindTable` | Sources/KeypathsExtensions/KeyPath+Optional.swift:96-220 | the overloads' result kind equals Swift's appending rule; writable iff the appended path is reference-writable or both are writable; reference-writable iff the appended path is, or the base is and the appended path is writable |
| `KeyPathOptional.Appending` | Sources/KeypathsExtensions/KeyPath+Optional.swift:96-100 | `appending(_:)` has the kind of its overload table; for every root it reads absent iff the intermediate is absent and otherwise `some` of the inner read; a present value written at a present intermediate updates the inner value and writes it back through `self`; every other write writes back the intermediate it read, a no-op for a base obeying get-put |
| `KeyPathOptional.AppendingRead` | Sources/KeypathsExtensions/KeyPath+Optional.swift:96-100 | the appended read is absent iff the intermediate is absent, and otherwise the inner value |
| `KeyPathOptional.AppendingWrite` | Sources/KeypathsExtensions/KeyPath+Optional.swift:156-160 | every write goes through the base's setter: with a present intermediate and value it writes back the intermediate with the inner value updated, otherwise it writes back the intermediate it read; for a base obeying get-put (a stored property) the latter leaves the root unchanged |
| `KeyPathOptional.AppendingPutGet` | Sources/KeypathsExtensions/KeyPath+Optional.swift:156-160 | with lawful parts and a present intermediate, a written value is read back |
| `KeyPathOptional.UnwrappedAppendingCannotMaterialise` | Tests/KeypathsExtensionsTests/KeyPathsOptionalTests.swift:121-126 | aggressively unwrapping an appended path cannot create an absent intermediate: the write only writes absent back through the base's setter, and for a base obeying get-put (a stored property) leaves the root unchanged |
| `KeyPathOptional.AggressiveUnwrapThenAppendMaterialises` | Tests/KeypathsExtensionsTests/KeyPathsOptionalTests.swift:173-178 | aggressively unwrapping and then appending a field writes into an absent property the default with the field set, and reads the default's field |
| `KeyPathOptional.NonAggressiveUnwrapThenAppendIsNoOp` | Tests/KeypathsExtensionsTests/KeyPathsOptionalTests.swift:147-152 | non-aggressively, the same composition at an absent property only writes absent back through the base's setter, and for a base obeying get-put (a stored property) leaves the root unchanged |
| `KeyPathHelpers.Uww` | Sources/KeypathsExtensions/Helpers/KeyPath+.swift:38-49 | the `uww:aggressive:` subscript; stated by `UwwRead`, `UwwWrite` and `UnwrapPathAgrees` |
| `KeyPathHelpers.UwwRead` | Sources/KeypathsExtensions/Helpers/KeyPath+.swift:43 | the `uww` read is `self ?? default.wrappedValue` |
| `KeyPathHelpers.UwwWrite` | Sources/KeypathsExtensions/Helpers/KeyPath+.swift:44-48 | the write makes `self` `some(v)` when aggressive or present and otherwise leaves it unchanged; a performed write is read back |
| `KeyPathHelpers.UnwrapLens` | Sources/KeypathsExtensions/Helpers/KeyPath+.swift:27-34 | the lens of the composed key path `\.[mapPath: \.[hashedBy: self][unwrappedWith: _hashed(default), aggressive:]].wrappedValue`; stated by `UnwrapPathRead` and `UnwrapPathWrite` |
| `KeyPathHelpers.UnwrapPath` | Sources/KeypathsExtensions/Helpers/KeyPath+.swift:23-35 | `unwrapPath` returns a writable key path that, for every optional, reads `self ?? default` and writes `some(v)` when aggressive or present and is otherwise a no-op |
| `KeyPathHelpers.UnwrapPathRead` | Sources/KeypathsExtensions/Helpers/KeyPath+.swift:23-35 | the four-layer composed lens reads `self ?? default` |
| `KeyPathHelpers.UnwrapPathWrite` | Sources/KeypathsExtensions/Helpers/KeyPath+.swift:23-35 | the four-layer composed lens writes `some(v)` iff aggressive or present, else it is a no-op |
| `KeyPathHelpers.UnwrapPathAgrees` | Sources/KeypathsExtensions/Helpers/KeyPath+.swift:23-48 | the composed path, the `uww` subscript and the `_forceSet` unwrapping subscript read and write alike |
| `KeyPathMappers.WrapRoundTrip` | Sources/KeyPathMapper/KeyPathMapper.swift:10-12 | `KeyPathMapper(v).value == v`, and a mapper is rebuilt from its value |
| `KeyPathMappers.MapperEquality` | Sources/KeyPathMapper/KeyPathMapper.swift:42 | mappers are equal iff their values are equal |
| `KeyPathMappers.ValueLensLaws` | Sources/KeyPathMapper/KeyPathMapper.swift:15-18 | `subscript()` obeys get-put, put-get and put-put |
| `KeyPathMappers.ValueLens` | Sources/KeyPathMapper/KeyPathMapper.swift:15-18 | `subscript()` (and `\.value`); its laws are stated by `ValueLensLaws` |
| `KeyPathMappers.SubscriptKind` | Sources/KeyPathMapper/KeyPathMapper.swift:26-38 | `subscript(map:)` and `subscript(mapPath:)` are writable iff their key path is, and never reference-writable: a reference-writable argument selects the overload with a mutating setter |
| `KeyPathMappers.MapSubscript` | Sources/KeyPathMapper/KeyPathMapper.swift:26-38 | `subscript(map:)` is writable iff its key path is (never reference-writable); for every mapper it reads and writes what the key path reads and writes, and keeps each of the three lens laws the key path obeys |
| `KeyPathMappers.MapSubscriptAgrees` | Sources/KeyPathMapper/KeyPathMapper.swift:26-38 | reading and writing through `map` equal reading and writing through the key path directly |
| `KeyPathMappers.KeyPathMapper.constructor` | Sources/KeyPathMapper/KeyPathMapper.swift:10-12 | `init` stores the given value |
| `KeyPathMappers.KeyPathMapper.Subscript` | Sources/KeyPathMapper/KeyPathMapper.swift:16 | the getter of `subscript()` on the held mapper; `SetSubscript` states the read-back |
| `KeyPathMappers.KeyPathMapper.SetSubscript` | Sources/KeyPathMapper/KeyPathMapper.swift:17 | the setter replaces the stored value and a read afterwards returns it |
| `KeyPathMappers.KeyPathMapper.CallAsFunction` | Sources/KeyPathMapper/KeyPathMapper.swift:21-23 | `callAsFunction(v)` sets the value to `v` and changes nothing else |
| `KeyPathMappers.KeyPathMapper.Map` | Sources/KeyPathMapper/KeyPathMapper.swift:29 | the getter of `subscript(map:)` on the held mapper; `SetMap` states the read-back |
| `KeyPathMappers.KeyPathMapper.SetMap` | Sources/KeyPathMapper/KeyPathMapper.swift:33-38 | the `map` setter writes the held mapper through the key path; for a key path obeying put-get the `map` getter then returns the written value |
| `Mappable.MapLens` | Sources/KeyPathMapper/KeyPathMappable.swift:16-19 | the `__map` property; stated by `MapLensLaws` and `MapRoundTrip` |
| `Mappable.MapLensLaws` | Sources/KeyPathMapper/KeyPathMappable.swift:16-19 | `__map` obeys all three lens laws |
| `Mappable.MapRoundTrip` | Sources/KeyPathMapper/KeyPathMappable.swift:16-19 | `__map.value == self`, and reading `__map` and writing it back leaves `self` unchanged |
| `Mappable.MapPath` | Sources/KeyPathMapper/KeyPathMappable.swift:21-32 | the lens of `subscript(mapPath:)`, `__map[keyPath: path].value`; stated by `MapPathUnfolds` and `MapPathLaws` |
| `Mappable.MapPathOf` | Sources/KeyPathMapper/KeyPathMappable.swift:21-32 | `mapPath` is writable iff the mapper key path is (never reference-writable); for every value it reads `path.get(wrap(self)).value` and writes `path.put(wrap(self), wrap(v)).value`; a lawful mapper key path gives a lawful result |
| `Mappable.MapPathUnfolds` | Sources/KeyPathMapper/KeyPathMappable.swift:27-32 | the `mapPath` read is `get(wrap(self)).value`; the write is `put(wrap(self), wrap(v)).value` |
| `Mappable.MapPathLaws` | Sources/KeyPathMapper/KeyPathMappable.swift:27-32 | a lawful mapper key path gives a lawful `mapPath` key path |
| `MapperOptional.OptionalLens` | Sources/KeyPathMapper/Extensions/KeyPathMapper+Optional.swift:7-10 | the `optional` property; stated by `OptionalRead`, `OptionalWrite`, `OptionalLaws` |
| `MapperOptional.UnwrappedWith` | Sources/KeyPathMapper/Extensions/KeyPathMapper+Optional.swift:14-24 | the `unwrappedWith:aggressive:` subscript; stated by `UnwrappedWithRead`, `UnwrappedWithWrite`, `UnwrappedWithModify` |
| `MapperOptional.UnwrappedWithHashed` | Sources/KeyPathMapper/Extensions/KeyPathMapper+Optional.swift:26-33 | the `Hashed` overload; `UnwrappedWithHashedAgrees` states it |
| `MapperOptional.OptionalRead` | Sources/KeyPathMapper/Extensions/KeyPathMapper+Optional.swift:8 | `optional` reads a present optional carrying the same value |
| `MapperOptional.OptionalWrite` | Sources/KeyPathMapper/Extensions/KeyPathMapper+Optional.swift:9 | writing absent through `optional` is a no-op; writing `some(x)` sets the value to `x` |
| `MapperOptional.OptionalLaws` | Sources/KeyPathMapper/Extensions/KeyPathMapper+Optional.swift:7-10 | `optional` obeys get-put; a written value is read back iff it is present |
| `MapperOptional.UnwrappedWithRead` | Sources/KeyPathMapper/Extensions/KeyPathMapper+Optional.swift:18 | the `unwrappedWith` read is `value ?? default` whatever the flag |
| `MapperOptional.UnwrappedWithWrite` | Sources/KeyPathMapper/Extensions/KeyPathMapper+Optional.swift:19-23 | a write on a present value replaces it regardless of the flag; on absent, aggressive stores the new value and non-aggressive leaves it absent |
| `MapperOptional.UnwrappedWithModify` | Sources/KeyPathMapper/Extensions/KeyPathMapper+Optional.swift:17-23 | a compound assignment on absent leaves it absent when non-aggressive and stores the result computed from the default when aggressive |
| `MapperOptional.UnwrappedWithHashedAgrees` | Sources/KeyPathMapper/Extensions/KeyPathMapper+Optional.swift:26-33 | the `Hashed` overload reads and writes as the plain overload with `default.wrappedValue`; its read ignores the flag |
| `MapperOptional.UnwrappedWithIncrementScenario` | Tests/KeyPathMapperTests/KeyPathMapperOptionalTests.swift:14-45 | `+= 1` from absent with default 0 gives absent non-aggressively and 1 aggressively; assigning 2 then gives 2 |
| `MapperCollection.UnsafeIndexGet` | Sources/KeyPathMapper/Extensions/KeyPathMapper+Collection.swift:5-7 | the `unsafeIndex` getter at a valid index; stated by `UnsafeIndexLaws` |
| `MapperCollection.UnsafeIndexPut` | Sources/KeyPathMapper/Extensions/KeyPathMapper+Collection.swift:24 | the `unsafeIndex` write replaces exactly the element at the index; the length and all other elements are unchanged |
| `MapperCollection.UnsafeIndexLaws` | Sources/KeyPathMapper/Extensions/KeyPathMapper+Collection.swift:21-25 | at a valid index the read is that element, and get-put, put-get and put-put hold |
| `MapperCollection.SafeIndex` | Sources/KeyPathMapper/Extensions/KeyPathMapper+Collection.swift:28-43 | the `safeIndex` subscript; stated by `SafeIndexRead`, `SafeIndexWrite`, `SafeIndexLaws` |
| `MapperCollection.SafeIndexRead` | Sources/KeyPathMapper/Extensions/KeyPathMapper+Collection.swift:28-34 | the `safeIndex` read is absent iff the index is outside `indices`, and `some(element)` inside |
| `MapperCollection.SafeIndexWrite` | Sources/KeyPathMapper/Extensions/KeyPathMapper+Collection.swift:35-42 | writing absent or at an invalid index is a no-op; writing `some(x)` at a valid index updates only that position |
| `MapperCollection.SafeIndexAgreesWithUnsafe` | Sources/KeyPathMapper/Extensions/KeyPathMapper+Collection.swift:20-43 | at a valid index the safe accessor reads and writes as the unsafe one |
| `MapperCollection.SafeIndexLaws` | Sources/KeyPathMapper/Extensions/KeyPathMapper+Collection.swift:27-43 | `safeIndex` obeys get-put; a written value is read back iff it is present at a valid index or absent at an invalid one |
| `MapperHashable.HashedBy` | Sources/KeyPathMapper/Extensions/KeyPathMapper+Hashable.swift:5-10 | the `hashedBy` subscript; stated by `HashedByRead`, `HashedByWrite`, `HashedByLaws` |
| `MapperHashable.HashedByOptional` | Sources/KeyPathMapper/Extensions/KeyPathMapper+Hashable.swift:14-19 | the optional `hashedBy` subscript; stated by `HashedByOptionalRead`, `HashedByOptionalWrite`, `HashedByOptionalGetPut` |
| `MapperHashable.HashedByRead` | Sources/KeyPathMapper/Extensions/KeyPathMapper+Hashable.swift:8 | the `hashedBy` read wraps the current value, so `wrappedValue` equals it, under the given token |
| `MapperHashable.HashedByWrite` | Sources/KeyPathMapper/Extensions/KeyPathMapper+Hashable.swift:9 | the write stores the written `wrappedValue` whatever its token |
| `MapperHashable.HashedByLaws` | Sources/KeyPathMapper/Extensions/KeyPathMapper+Hashable.swift:5-10 | reading then writing back leaves the value unchanged; a written value is read back iff its token is the given one |
| `MapperHashable.HashedByOptionalRead` | Sources/KeyPathMapper/Extensions/KeyPathMapper+Hashable.swift:17 | the optional `hashedBy` read is absent iff the value is absent |
| `MapperHashable.HashedByOptionalWrite` | Sources/KeyPathMapper/Extensions/KeyPathMapper+Hashable.swift:18 | writing absent makes the value absent; writing `some(h)` stores `h.wrappedValue` |
| `MapperHashable.HashedByOptionalGetPut` | Sources/KeyPathMapper/Extensions/KeyPathMapper+Hashable.swift:13-19 | reading then writing back leaves the optional value unchanged |
| `Scenarios.PropertyPathGetPut` | Tests/KeypathsExtensionsTests/KeyPathsOptionalTests.swift:31 | the stored-property key path `\Root.property` obeys get-put |
| `Scenarios.ScenarioKinds` | Tests/KeypathsExtensionsTests/KeyPathsOptionalTests.swift:29-53 | the combined, unwrapped and unwrapped-then-appended paths are writable |
| `Scenarios.CombinedScenario` | Tests/KeypathsExtensionsTests/KeyPathsOptionalTests.swift:57-84 | the combined path reads nil and 100; writing 0 leaves `Root(nil)` unchanged and makes `Root(100)` into `Root(0)` |
| `Scenarios.CombinedUnwrappedScenario` | Tests/KeypathsExtensionsTests/KeyPathsOptionalTests.swift:86-136 | unwrapping the combined path with either policy reads 69 and 100, leaves `Root(nil)` unchanged on writing 0, and makes `Root(100)` into `Root(0)` |
| `Scenarios.UnwrappedThenValueScenario` | Tests/KeypathsExtensionsTests/KeyPathsOptionalTests.swift:138-188 | unwrapping the property then appending its field reads 69 and 100; writing 0 into `Root(nil)` is a no-op non-aggressively and gives `Root(0)` aggressively |
| `Scenarios.UnsafeIndexScenario` | Tests/KeyPathMapperTests/KeyPathMapperCollectionsTests.swift:6-20 | `unsafeIndex: 0` reads 0 from `[0,1,2,3]` and writing 1 gives `[1,1,2,3]` |
| `Scenarios.SafeIndexScenario` | Tests/KeyPathMapperTests/KeyPathMapperCollectionsTests.swift:22-46 | `safeIndex` reads 0 at 0; writing nil at 0 or 1 at -1 is a no-op; writing 1 at 0 gives `[1,1,2,3]` |
| `Scenarios.UnwrappingClient` | Tests/KeyPathMapperTests/KeyPathMapperOptionalTests.swift:14-45 | on a mutable mapper holding nil, `+= 1` then `= 1` through a non-aggressive `unwrappedWith: 0` leave it nil; through an aggressive one they give 1, and `= 2` gives 2 |

## Left out

- Reference-typed intermediate links: with a class between two links, the Swift key path runtime skips a downstream setter when the upstream optional is nil. This is runtime behaviour, not library logic. Every lens here has value semantics, and a `ReferenceWritable` tag only records the kind.
- Reference-writable setters (`nonmutating set`) are modelled as value updates of the root. Aliasing through shared class instances is not modelled.
- Key path identity and equality (`!==` in the tests), and the equality and hashing of composed key paths: these are runtime object identity.
- `_ForceEquatable` and `_ForceHashable` equality and hashing rely on dynamic casts, `dump` strings and an opaque `Hasher` closure. A hash is an opaque `HashToken`; only the wrapped value is modelled.
- `_hashed` and `forceHashable` are thin constructors over the external `Hashed` package. `Hashed<T>` is a wrapped value plus a token.
- `KeyPathMappable+Conformances.swift` repeats the default `mapPath` implementation per container. `Mappable.MapPath` covers them all.
- `Collection+.swift` is entirely commented out. `Package.swift` and `Package@swift-5.10.swift` are build configuration.
- `Sendable`, `@MainActor` and `async` annotations carry no logic.
- Collections are Swift arrays with integer indices `0 ..< count`, as sequences. Other `Collection` index types are not modelled. The read-only `Collection` overloads of `unsafeIndex` and `safeIndex` have the same getters as the `MutableCollection` ones and share their model.
- `MapperCollection.UnsafeIndexPut`, `MapperCollection.UnsafeIndexGet`, `MapperCollection.UnsafeIndexLaws`: an out-of-range index traps in Swift. Here a valid index is a precondition of each, not a modelled failure.
- `KeyPathMapperProtocol` is a one-property protocol and needs no model beyond `Mapper.value`.
