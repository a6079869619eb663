# Declaration transformations of the suspend-wrapper annotation processor

This project is a Dafny model of the code-generation core of the Kotlin
annotation processor in `kmm-ios-suspendwrapper` / koru. The processor turns
annotated Kotlin declarations into Swift-friendly bridges.

- For a type annotated with `@ToNativeInterface` it generates an interface.
  The interface holds every non-private function as an abstract, non-suspend
  declaration with no body.
- For a class annotated with `@ToNativeClass` it generates a wrapper class.
  The wrapper holds the original instance in a private `wrapped` property and
  forwards each function to it. A suspend function is wrapped in a
  `SuspendWrapper` and a flow-returning function in a `FlowWrapper`, each
  optionally bound to a scope provider.
- A type annotated with `@ExportedScopeProvider` must implement `ScopeProvider`.
  It gets a generated property that wrappers can launch their work on.

The round in `Processor.process` runs three phases in a fixed order: scope
providers, then interfaces, then wrapper classes. Any exception ends the round
with one ERROR message and `false`.

Modules:

- `Wrappers`: `Option` (Kotlin's nullable `T?`) and `Result` (a value or the
  exception a call threw).
- `Poet`: the declaration model. It covers the parts of KotlinPoet's
  `TypeName`, `ParameterSpec`, `FunSpec`, `PropertySpec` and `TypeSpec` that the
  transformations touch, plus `GeneratedSuperInterface` and
  `OriginalToGeneratedInterface`. It also defines `Helpers`, which stands for the
  helpers whose code is not part of the model.
- `WrapperInterfaceBuilder`: `WrapperInterfaceBuilder.kt` as functions.
- `WrapperClassBuilder`: `WrapperClassBuilder.kt` as functions.
  `ParseInvocation` reads an `asInvocation` text back into its parts, so the
  invocation can be checked by a round trip.
- `Processor`: `Processor.kt`.
  - Each per-element generator is a function returning `Result`.
  - The phases are the spec functions `ScopeProviderPhase`, `InterfacePhase`
    and `ClassPhase`, and `RoundOutcome` is the whole round.
  - The imperative parts are methods proved equal to those functions:
    `Process`, its three phase loops, `MatchGeneratedInterfaceName` (fills an
    insertion-ordered set with the loop `AddAll`, then runs the loop `Find`) and `ObtainScopeProviderSpec` (a
    `var` assigned in a `catch`).

Facts about the source that the model records:

- `matchGeneratedInterfaceName` (Processor.kt:221-229) puts the declared
  superinterfaces and then the class itself into a `mutableSetOf` (a
  LinkedHashSet). It returns the first of them that is a key of the
  generated-interface map. So a declared superinterface with a generated
  interface is chosen over the class itself
  (`SuperinterfaceMatchesBeforeClass`).
- No code raises an error when a wrapper has no generated interface. Without a
  match, the wrapper lists its declared superinterfaces unchanged
  (`UnlinkedKeepsSuperinterfaces`).
- The interface's return type comes from `setReturnType`
  (WrapperInterfaceBuilder.kt:17). The wrapper's comes from
  `addReturnStatement` (WrapperClassBuilder.kt:35).
  - Neither helper is part of this model, so each is a separate
    uninterpreted field of `Helpers`.
  - `OverridesGeneratedInterface` proves the wrapper function matches the
    interface function in signature.
  - It also proves which helper produces each return type, from the same inputs.
  - The two return types are equal only if the two helpers agree on those
    inputs. The model assumes nothing about that.
- The two modules disagree on argument names and types.
  - `Processor.kt` passes a `Pair<TypeName, GeneratedSuperInterface>` and a
    `PropertySpec`.
  - `WrapperClassBuilder.kt` expects an `OriginalToGeneratedInterface` and a
    `MemberName`.
  - The model uses one `OriginalToGeneratedInterface(originalName, generated)`
    record and one `Member` reference for both.
- The wrapper class forwards every original function, private ones included.
  Only the interface builder filters out `PRIVATE`.

## Model

| member | source | states |
|---|---|---|
| `WrapperInterfaceBuilder.InterfaceFunction` | koru-processor/src/jvmMain/kotlin/com/futuremind/koru/processor/WrapperInterfaceBuilder.kt:14-22 | the interface function has the original's name and parameters and no body; `SUSPEND` is removed and `ABSTRACT` added; every other modifier is unchanged; the return type is `setReturnType` applied while `suspend` is still present |
| `WrapperInterfaceBuilder.InterfaceFunctions` | koru-processor/src/jvmMain/kotlin/com/futuremind/koru/processor/WrapperInterfaceBuilder.kt:12-23 | there are never more interface functions than originals; none of them is private or suspend, every one is abstract, and none has a body |
| `WrapperInterfaceBuilder.InterfaceFunctionsAreKeptInOrder` | koru-processor/src/jvmMain/kotlin/com/futuremind/koru/processor/WrapperInterfaceBuilder.kt:12-23 | the k-th interface function is derived from the k-th non-private original, positions in increasing order, with every non-private position kept |
| `WrapperInterfaceBuilder.KeptIffNotPrivate` | koru-processor/src/jvmMain/kotlin/com/futuremind/koru/processor/WrapperInterfaceBuilder.kt:12-14 | every non-private original appears in the interface, and each interface function comes from a non-private original |
| `WrapperInterfaceBuilder.InterfaceFunctionsIdempotent` | koru-processor/src/jvmMain/kotlin/com/futuremind/koru/processor/WrapperInterfaceBuilder.kt:12-23 | deriving the functions again from the derived functions gives the same list, provided `setReturnType` leaves its own output unchanged |
| `WrapperInterfaceBuilder.Build` | koru-processor/src/jvmMain/kotlin/com/futuremind/koru/processor/WrapperInterfaceBuilder.kt:25-28 | the result is an interface named `newTypeName` holding exactly the derived functions, with no superinterface, constructor or property |
| `WrapperClassBuilder.InvocationRoundTrip` | koru-processor/src/jvmMain/kotlin/com/futuremind/koru/processor/WrapperClassBuilder.kt:109-112 | for identifier names, the invocation text reads back as the call of `wrapped.<name>` with exactly the parameter names, in declaration order |
| `WrapperClassBuilder.AsInvocation` | koru-processor/src/jvmMain/kotlin/com/futuremind/koru/processor/WrapperClassBuilder.kt:109-112 | the text is `wrapped.`, then the function's name, then `(`, the joined parameter names and `)`; `InvocationRoundTrip` is its inverse |
| `WrapperClassBuilder.ForwardingFunction` | koru-processor/src/jvmMain/kotlin/com/futuremind/koru/processor/WrapperClassBuilder.kt:30-42 | the name and parameters are kept; the return type is `addReturnStatement` applied while `suspend` is still present; `SUSPEND` and `ABSTRACT` are removed; `OVERRIDE` is present iff it was already there or the linked generated interface declares the same signature; other modifiers are unchanged; the body is a SuspendWrapper iff the original is suspend, a FlowWrapper iff it is not suspend and returns a flow, and a plain return otherwise; both wrappers get exactly the scope provider's member, or null; every body invokes `asInvocation` of the original |
| `WrapperClassBuilder.ForwardingFunctions` | koru-processor/src/jvmMain/kotlin/com/futuremind/koru/processor/WrapperClassBuilder.kt:30-33 | there is exactly one forwarding function per original, in the same order, each derived from the original at its position |
| `WrapperClassBuilder.ForwardingBody` | koru-processor/src/jvmMain/kotlin/com/futuremind/koru/processor/WrapperClassBuilder.kt:77-107 | the statement is a SuspendWrapper iff the original is suspend, a FlowWrapper iff it is not suspend and returns a flow, and a plain return otherwise; both wrappers take exactly the scope provider's member, or null; every statement calls `asInvocation` of the original |
| `WrapperClassBuilder.DeclaresSignatureIffKept` | koru-processor/src/jvmMain/kotlin/com/futuremind/koru/processor/WrapperClassBuilder.kt:45-56 | for an interface generated from the same functions, `addMissingOverrideModifier` adds OVERRIDE to a function iff some non-private original has the same name and parameters |
| `WrapperClassBuilder.SuperInterfaces` | koru-processor/src/jvmMain/kotlin/com/futuremind/koru/processor/WrapperClassBuilder.kt:63-75 | the list has the original length, plus one exactly when the generated interface was derived from the wrapped type itself |
| `WrapperClassBuilder.SuperInterfacesAt` | koru-processor/src/jvmMain/kotlin/com/futuremind/koru/processor/WrapperClassBuilder.kt:58-75 | each declared superinterface is kept, except one equal to the linked original name, which becomes the generated interface; the appended entry is the generated interface |
| `WrapperClassBuilder.UnlinkedKeepsSuperinterfaces` | koru-processor/src/jvmMain/kotlin/com/futuremind/koru/processor/WrapperClassBuilder.kt:63-75 | without a linked interface, the superinterfaces are the declared ones, verbatim |
| `WrapperClassBuilder.ConstructorParams` | koru-processor/src/jvmMain/kotlin/com/futuremind/koru/processor/WrapperClassBuilder.kt:20-22 | the constructor has exactly one parameter, `wrapped`, of the original type |
| `WrapperClassBuilder.WrappedProperty` | koru-processor/src/jvmMain/kotlin/com/futuremind/koru/processor/WrapperClassBuilder.kt:24-28 | the property is named `wrapped`, has the original type, is PRIVATE only, and is initialised from the constructor parameter `wrapped` |
| `WrapperClassBuilder.Build` | koru-processor/src/jvmMain/kotlin/com/futuremind/koru/processor/WrapperClassBuilder.kt:114-120 | the result is a class named `newTypeName`; its primary constructor takes `wrapped` of the original type; its single property `wrapped` is PRIVATE, of that type, and initialised from it; its functions are exactly the forwarding functions of the originals; its superinterfaces are exactly the substituted-and-appended list |
| `WrapperClassBuilder.OverridesGeneratedInterface` | koru-processor/src/jvmMain/kotlin/com/futuremind/koru/processor/WrapperClassBuilder.kt:45-56 | when linked to an interface derived from the same functions, each non-private forwarding function carries `OVERRIDE`; the interface declares a function with the same signature, whose return type is `setReturnType` of the original's suspend flag and return type, while the wrapper's is `addReturnStatement` of the same |
| `Processor.ErrorMessage` | ioswrapper-processor/src/jvmMain/kotlin/com/futuremind/iossuspendwrapper/processor/Processor.kt:86-88 | the report is an ERROR reading "<exception simple name>: <message>", with "null" for a missing message |
| `Processor.NonEmptyOr` | ioswrapper-processor/src/jvmMain/kotlin/com/futuremind/iossuspendwrapper/processor/Processor.kt:250-253 | the result is the receiver when it is non-empty, otherwise the fallback |
| `Processor.GetClassName` | ioswrapper-processor/src/jvmMain/kotlin/com/futuremind/iossuspendwrapper/processor/Processor.kt:258-259 | the class name has the element's package and simple name and no type arguments |
| `Processor.InterfaceName` | ioswrapper-processor/src/jvmMain/kotlin/com/futuremind/iossuspendwrapper/processor/Processor.kt:128 | the annotation's name if one is given, else `<Simple>NativeProtocol`; never empty |
| `Processor.WrapperName` | ioswrapper-processor/src/jvmMain/kotlin/com/futuremind/iossuspendwrapper/processor/Processor.kt:156-157 | the annotation's name if one is given, else `<Simple>Native`; never empty |
| `Processor.AssertExtendsScopeProvider` | ioswrapper-processor/src/jvmMain/kotlin/com/futuremind/iossuspendwrapper/processor/Processor.kt:261-265 | it throws (an IllegalArgumentException) iff `ScopeProvider` is not among the superinterfaces |
| `Processor.GenerateScopeProvider` | ioswrapper-processor/src/jvmMain/kotlin/com/futuremind/iossuspendwrapper/processor/Processor.kt:92-116 | it succeeds iff metadata is available and the type implements `ScopeProvider`, and otherwise fails with `NotAScopeProvider` when the metadata is available; the entry is keyed by the element's class name; its value is the property `ScopeProviderBuilder` builds from the element's package and declaration; that property is written to `<Simple>Container`; a metadata failure is passed on unchanged |
| `Processor.ScopeProviderFor` | ioswrapper-processor/src/jvmMain/kotlin/com/futuremind/iossuspendwrapper/processor/Processor.kt:234-248 | a provider is found iff reading the attribute threw a MirroredTypeException whose type is a key; the provider is that key's entry |
| `Processor.ObtainScopeProviderSpec` | ioswrapper-processor/src/jvmMain/kotlin/com/futuremind/iossuspendwrapper/processor/Processor.kt:234-248 | the `var`-in-`catch` method returns the entry for the type carried by the exception, or none; it never returns a value that is not in the map |
| `Processor.FirstKey` | ioswrapper-processor/src/jvmMain/kotlin/com/futuremind/iossuspendwrapper/processor/Processor.kt:229 | `find` returns nothing iff no candidate is a key; otherwise it returns the candidate at the first position that is a key |
| `Processor.CandidatesFirstKey` | ioswrapper-processor/src/jvmMain/kotlin/com/futuremind/iossuspendwrapper/processor/Processor.kt:221-229 | removing repeats while filling the insertion-ordered set does not change which candidate `find` picks from "superinterfaces, then the class" |
| `Processor.MatchGeneratedInterface` | ioswrapper-processor/src/jvmMain/kotlin/com/futuremind/iossuspendwrapper/processor/Processor.kt:217-232 | the result is null iff no declared superinterface and not the class itself is a key; otherwise its original name is the first such candidate and its generated part is that key's map entry |
| `Processor.AddAll` | ioswrapper-processor/src/jvmMain/kotlin/com/futuremind/iossuspendwrapper/processor/Processor.kt:226 | `addAll` on the LinkedHashSet appends each element not already present, in order: the loop computes `InsertAll` |
| `Processor.Find` | ioswrapper-processor/src/jvmMain/kotlin/com/futuremind/iossuspendwrapper/processor/Processor.kt:229 | the loop of `find` returns the first candidate that is a key of the map, or none: it computes `FirstKey` |
| `Processor.MatchGeneratedInterfaceName` | ioswrapper-processor/src/jvmMain/kotlin/com/futuremind/iossuspendwrapper/processor/Processor.kt:217-232 | the loops that fill the set and then run `find` compute exactly the match above |
| `Processor.SuperinterfaceMatchesBeforeClass` | ioswrapper-processor/src/jvmMain/kotlin/com/futuremind/iossuspendwrapper/processor/Processor.kt:221-229 | when any declared superinterface is a key, the match is a declared superinterface at or before that one |
| `Processor.GenerateInterface` | ioswrapper-processor/src/jvmMain/kotlin/com/futuremind/iossuspendwrapper/processor/Processor.kt:119-141 | it succeeds iff metadata is available; the entry is keyed by the original's class name and records `ClassName(originalPackage, newTypeName)` with the built interface, which is written to `newTypeName` in the original package |
| `Processor.GenerateWrappedClass` | ioswrapper-processor/src/jvmMain/kotlin/com/futuremind/iossuspendwrapper/processor/Processor.kt:144-189 | it succeeds iff metadata is available; the file is written to the generated directory, in the original package, named after the wrapper name; it holds the class the class builder makes from the original, the wrapper name, the generated interface `matchGeneratedInterfaceName` picks, and the provider `obtainScopeProviderSpec` finds |
| `Processor.WrapperImplementsMatchedInterface` | ioswrapper-processor/src/jvmMain/kotlin/com/futuremind/iossuspendwrapper/processor/Processor.kt:169-182 | a matched generated interface is always among the wrapper's superinterfaces; without a match the declared superinterfaces are kept |
| `Processor.WrapperUsesScopeProvider` | ioswrapper-processor/src/jvmMain/kotlin/com/futuremind/iossuspendwrapper/processor/Processor.kt:176-182 | each suspend function of a wrapper becomes a SuspendWrapper, and each non-suspend flow function a FlowWrapper; both launch on the provider found for `launchOnScope`, or on null, and call the original through `asInvocation` |
| `Processor.WrapperLaunchesOnExportedScope` | ioswrapper-processor/src/jvmMain/kotlin/com/futuremind/iossuspendwrapper/processor/Processor.kt:52-82 | in a successful round, a wrapper whose `launchOnScope` names a scope provider exported in the same round launches its suspend and flow functions on the property generated in phase 1 for a provider of that class name |
| `Processor.RoundOutcome` | ioswrapper-processor/src/jvmMain/kotlin/com/futuremind/iossuspendwrapper/processor/Processor.kt:39-89 | without the `kapt.kotlin.generated` option the round writes nothing, reports one IllegalStateException error and returns false; a true round reports no ERROR; a false round reports exactly one ERROR |
| `Processor.ScopeProviderPhase` | ioswrapper-processor/src/jvmMain/kotlin/com/futuremind/iossuspendwrapper/processor/Processor.kt:52-61 | a completed scope-provider phase has written one file per element; a failed one has written fewer files than it has elements |
| `Processor.InterfacePhase` | ioswrapper-processor/src/jvmMain/kotlin/com/futuremind/iossuspendwrapper/processor/Processor.kt:63-71 | a completed interface phase has written one file per element; a failed one has written fewer files than it has elements |
| `Processor.ClassPhase` | ioswrapper-processor/src/jvmMain/kotlin/com/futuremind/iossuspendwrapper/processor/Processor.kt:73-82 | a completed wrapper phase has written one file per element; a failed one has written fewer files than it has elements |
| `Processor.ScopeProviderPhaseSpec` | ioswrapper-processor/src/jvmMain/kotlin/com/futuremind/iossuspendwrapper/processor/Processor.kt:52-61 | the scope-provider phase completes iff no element throws, and then it has written one container per element, in order |
| `Processor.ScopeProviderMapKeys` | ioswrapper-processor/src/jvmMain/kotlin/com/futuremind/iossuspendwrapper/processor/Processor.kt:52-61 | every provider's class name is a key of the completed scope-provider map |
| `Processor.ScopeProviderMapEntries` | ioswrapper-processor/src/jvmMain/kotlin/com/futuremind/iossuspendwrapper/processor/Processor.kt:52-61 | every entry of the completed scope-provider map is keyed by a provider's class name and holds the property built for that provider |
| `Processor.InterfacePhaseSpec` | ioswrapper-processor/src/jvmMain/kotlin/com/futuremind/iossuspendwrapper/processor/Processor.kt:63-71 | the interface phase completes iff every element's metadata is available, and then it has written one interface per element, in order |
| `Processor.InterfaceMapKeys` | ioswrapper-processor/src/jvmMain/kotlin/com/futuremind/iossuspendwrapper/processor/Processor.kt:63-71 | every original type's class name is a key of the completed generated-interface map |
| `Processor.InterfaceMapEntries` | ioswrapper-processor/src/jvmMain/kotlin/com/futuremind/iossuspendwrapper/processor/Processor.kt:125-139 | every entry of the generated-interface map is keyed by an original type's name and holds the interface generated from that type |
| `Processor.ClassPhaseSpec` | ioswrapper-processor/src/jvmMain/kotlin/com/futuremind/iossuspendwrapper/processor/Processor.kt:73-82 | the wrapper phase completes iff every element's metadata is available, and then it has written one wrapper per element, in order |
| `Processor.RoundSucceedsIffNothingThrows` | ioswrapper-processor/src/jvmMain/kotlin/com/futuremind/iossuspendwrapper/processor/Processor.kt:42-89 | `process` returns true iff the option is present, every element's metadata is available and every scope provider implements `ScopeProvider`, i.e. iff none of the exceptions the model represents is thrown |
| `Processor.ScopeProviderPhaseFailsAtFirst` | ioswrapper-processor/src/jvmMain/kotlin/com/futuremind/iossuspendwrapper/processor/Processor.kt:52-61 | the scope-provider phase stops at the first provider whose generation throws; it fails with that exception and keeps the containers of the providers before it, all of which were written |
| `Processor.InterfacePhaseFailsAtFirst` | ioswrapper-processor/src/jvmMain/kotlin/com/futuremind/iossuspendwrapper/processor/Processor.kt:63-71 | the interface phase stops at the first element without metadata; it fails with that element's exception and keeps the interfaces of the elements before it |
| `Processor.ClassPhaseFailsAtFirst` | ioswrapper-processor/src/jvmMain/kotlin/com/futuremind/iossuspendwrapper/processor/Processor.kt:73-82 | the wrapper phase stops at the first element without metadata; it fails with that element's exception and keeps the wrappers of the elements before it |
| `Processor.RoundFailsAtFirstProvider` | ioswrapper-processor/src/jvmMain/kotlin/com/futuremind/iossuspendwrapper/processor/Processor.kt:52-89 | when phase 1 throws, `process` returns false, reports `ErrorMessage` of the first provider's exception as its only diagnostic, and has written the containers of the providers before it |
| `Processor.ProviderWithoutScopeProviderFailsRound` | ioswrapper-processor/src/jvmMain/kotlin/com/futuremind/iossuspendwrapper/processor/Processor.kt:96-104 | a provider that does not implement `ScopeProvider`, after providers that do, makes the round return false with the single ERROR for that IllegalArgumentException; the earlier providers' containers stay written, in order |
| `Processor.RoundFailsAtFirstInterface` | ioswrapper-processor/src/jvmMain/kotlin/com/futuremind/iossuspendwrapper/processor/Processor.kt:63-89 | when phase 2 throws, the round reports the first failing element's exception as its only ERROR and has written every container and then the interfaces before that element |
| `Processor.RoundFailsAtFirstWrapper` | ioswrapper-processor/src/jvmMain/kotlin/com/futuremind/iossuspendwrapper/processor/Processor.kt:73-89 | when phase 3 throws, the round reports the first failing element's exception as its only ERROR and has written every container, every interface and the wrappers before that element |
| `Processor.WrappersSeeCompletedMaps` | ioswrapper-processor/src/jvmMain/kotlin/com/futuremind/iossuspendwrapper/processor/Processor.kt:52-82 | a successful round writes all scope-provider files, then all interface files, then all wrapper files; every wrapper is built against the completed scope-provider and generated-interface maps |
| `Processor.GenerateScopeProviders` | ioswrapper-processor/src/jvmMain/kotlin/com/futuremind/iossuspendwrapper/processor/Processor.kt:52-61 | the loop over scope-provider elements computes the phase: the map and the files written, or the first exception and the files written before it |
| `Processor.GenerateInterfaces` | ioswrapper-processor/src/jvmMain/kotlin/com/futuremind/iossuspendwrapper/processor/Processor.kt:63-71 | the loop over interface elements computes the phase, stopping at the first exception |
| `Processor.GenerateWrappedClasses` | ioswrapper-processor/src/jvmMain/kotlin/com/futuremind/iossuspendwrapper/processor/Processor.kt:73-82 | the loop over class elements, with its calls to the match and scope-provider methods, computes the phase, stopping at the first exception |
| `Processor.Process` | ioswrapper-processor/src/jvmMain/kotlin/com/futuremind/iossuspendwrapper/processor/Processor.kt:39-89 | `process` returns, reports and writes exactly what `RoundOutcome` describes |

## Left out

- The annotation-processing plumbing is left out. The elements carrying each
  annotation are given as sequences, and the options as a map. The debug
  WARNING messages printed in `matchGeneratedInterfaceName` are not modelled.
  Writing a file is an append to the list of emitted files, and a write never
  fails.
- KotlinPoet's own validation in `build()` (for example, its refusal of an
  interface function that is `internal` or `protected`) is assumed never to
  throw. The builders are modelled as total functions. A round that KotlinPoet
  would stop with such an exception is therefore modelled as succeeding.
- Metadata reconstruction (`toImmutableKmClass().toTypeSpec(...)`) belongs to a
  foreign library. Each element carries its result: the declaration, or the
  exception it throws. A failed `as TypeElement` cast counts as such an
  exception.
- `isFlow`, `setReturnType`, `addReturnStatement` and `ScopeProviderBuilder`
  are not part of this model. They are the uninterpreted fields of `Helpers`.
  - Each return-type helper is a function of two inputs: whether the builder
    is still `suspend`, and the original return type.
  - The property `ScopeProviderBuilder` builds is represented by a `Member`
    reference.
- KotlinPoet's code templates (`%T`, `%M`) are not rendered. A generated body is
  a tagged statement that carries the scope argument and the invocation text.
- Parameter equality compares name and type only. KotlinPoet's `ParameterSpec`
  equality also compares modifiers, annotations and default values. KDoc,
  annotations and receivers carried over by `toBuilder` are not modelled.
- The runtime behaviour of `SuspendWrapper`, `FlowWrapper` and scope
  cancellation belongs to library code, not to the processor.
- The commented-out `generateInterfaceFromClass` path is not modelled.
- The `MirroredTypeException` mechanism is modelled only as the value read from
  the `launchOnScope` attribute: the exception carrying a type, or a normal
  return.
- KotlinPoet may merge repeated superinterfaces when `addSuperinterfaces` builds
  its map. The model keeps the list exactly as `superInterfaces` computes it.
- `WrapperInterfaceBuilder.InterfaceFunctionsIdempotent`: proved only for a
  return-type helper that leaves its own output unchanged once `suspend` is
  gone, because the helper is not part of the model.
- The builders are pure functions. The in-place `remove`/`add` on a fresh
  builder's modifier set is a set difference and union. The `add` on the fresh
  `toMutableList()` is an append.
