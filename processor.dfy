/**
 * The annotation processor's round: scope providers first, then generated
 * interfaces, then wrapper classes, with any exception turned into one ERROR
 * diagnostic and a `false` result.
 */
module Processor {
  import opened Wrappers
  import opened Poet
  import WrapperInterfaceBuilder
  import WrapperClassBuilder

  const KaptKotlinGeneratedOptionName: string := "kapt.kotlin.generated"

  /** `ScopeProvider::class.asTypeName()`. */
  const ScopeProviderTypeName: TypeName := ClassName("com.futuremind.iossuspendwrapper", "ScopeProvider")

  // ---------------------------------------------------------------------------
  // Inputs and outputs of a round
  // ---------------------------------------------------------------------------

  /** An exception: its class's simple name and its (nullable) message. */
  datatype Throwable = Throwable(simpleName: string, message: Option<string>)

  /** The round reports only errors; the debug warnings are not modelled. */
  datatype DiagnosticKind = Error

  datatype Diagnostic = Diagnostic(kind: DiagnosticKind, text: string)

  /** A file written to the generated-sources directory. */
  datatype FileContent = TypeFile(typeSpec: TypeSpec) | PropertyFile(property: Member)

  datatype EmittedFile = EmittedFile(directory: string, packageName: string, fileName: string, content: FileContent)

  /**
   * An annotated element: its package and simple name, and what metadata
   * reconstruction gives for it (the declaration, or the exception it throws).
   */
  datatype Element = Element(packageName: string, simpleName: string, metadata: Result<TypeSpec, Throwable>)

  datatype ToNativeInterface = ToNativeInterface(name: string)

  /**
   * Reading the class-valued `launchOnScope` attribute: either it throws a
   * MirroredTypeException carrying the type, or it returns normally.
   */
  datatype AttributeRead = Mirrored(typeMirror: TypeName) | Returned

  datatype ToNativeClass = ToNativeClass(name: string, launchOnScope: AttributeRead)

  /** The elements carrying each of the three annotations, in discovery order. */
  datatype RoundEnvironment = RoundEnvironment(
    scopeProviders: seq<Element>,
    interfaces: seq<(Element, ToNativeInterface)>,
    classes: seq<(Element, ToNativeClass)>)

  /** What a round returns, reports and writes. */
  datatype Outcome = Outcome(result: bool, diagnostics: seq<Diagnostic>, emitted: seq<EmittedFile>)

  /** The ERROR message `process` prints for a caught exception: "<simpleName>: <message>". */
  function ErrorMessage(e: Throwable): (d: Diagnostic)
    ensures d.kind == Error
    ensures |d.text| >= |e.simpleName| + 2 && d.text[..|e.simpleName| + 2] == e.simpleName + ": "
    ensures d.text[|e.simpleName| + 2..] == if e.message.Some? then e.message.value else "null"
  {
    var text := e.simpleName + ": " + (match e.message case Some(m) => m case None => "null");
    assert text[..|e.simpleName| + 2] == e.simpleName + ": ";
    assert text[|e.simpleName| + 2..] == if e.message.Some? then e.message.value else "null";
    Diagnostic(Error, text)
  }

  const MissingGeneratedDir: Throwable := Throwable("IllegalStateException", Some("Cannot access kaptKotlinGeneratedDir"))

  const NotAScopeProvider: Throwable :=
    Throwable("IllegalArgumentException", Some("ExportedScopeProvider can only be applied to a class extending ScopeProvider interface"))

  // ---------------------------------------------------------------------------
  // Naming
  // ---------------------------------------------------------------------------

  /** `String.nonEmptyOr`. */
  function NonEmptyOr(s: string, or: string): (r: string)
    ensures |s| > 0 ==> r == s
    ensures |s| == 0 ==> r == or
  {
    if |s| == 0 then or else s
  }

  function GetClassName(e: Element): (n: TypeName)
    ensures n.packageName == e.packageName && n.simpleName == e.simpleName && n.typeArguments == []
  {
    ClassName(e.packageName, e.simpleName)
  }

  /** The generated interface's name: the annotation's, or `<Simple>NativeProtocol`; never empty. */
  function InterfaceName(e: Element, annotation: ToNativeInterface): (r: string)
    ensures annotation.name != "" ==> r == annotation.name
    ensures annotation.name == "" ==> r == e.simpleName + "NativeProtocol"
    ensures |r| > 0
  {
    NonEmptyOr(annotation.name, e.simpleName + "NativeProtocol")
  }

  /** The wrapper class's name: the annotation's, or `<Simple>Native`; never empty. */
  function WrapperName(e: Element, annotation: ToNativeClass): (r: string)
    ensures annotation.name != "" ==> r == annotation.name
    ensures annotation.name == "" ==> r == e.simpleName + "Native"
    ensures |r| > 0
  {
    NonEmptyOr(annotation.name, e.simpleName + "Native")
  }

  // ---------------------------------------------------------------------------
  // Scope providers
  // ---------------------------------------------------------------------------

  /** `assertExtendsScopeProvider`: the exception it throws, if any. */
  function AssertExtendsScopeProvider(spec: TypeSpec): (thrown: Option<Throwable>)
    ensures thrown.None? <==> ScopeProviderTypeName in spec.superinterfaces
    ensures thrown.Some? ==> thrown.value.simpleName == "IllegalArgumentException"
  {
    if ScopeProviderTypeName in spec.superinterfaces then None else Some(NotAScopeProvider)
  }

  /** `generateScopeProvider`: the map entry and the `<Simple>Container` file, or the exception. */
  function GenerateScopeProvider(e: Element, targetDir: string, h: Helpers): (r: Result<(TypeName, Member, EmittedFile), Throwable>)
    ensures r.Success? <==> e.metadata.Success? && ScopeProviderTypeName in e.metadata.value.superinterfaces
    ensures r.Success? ==>
      && r.value.0 == GetClassName(e)
      && r.value.2 == EmittedFile(targetDir, e.packageName, e.simpleName + "Container", PropertyFile(r.value.1))
    ensures r.Success? ==> r.value.1 == h.scopeProviderProperty(e.packageName, e.metadata.value)
    ensures r.Failure? && e.metadata.Failure? ==> r.error == e.metadata.error
    ensures e.metadata.Success? && ScopeProviderTypeName !in e.metadata.value.superinterfaces ==> r == Failure(NotAScopeProvider)
  {
    match e.metadata
    case Failure(err) => Failure(err)
    case Success(spec) =>
      match AssertExtendsScopeProvider(spec)
      case Some(err) => Failure(err)
      case None =>
        var originalClassName := GetClassName(e);
        var property := h.scopeProviderProperty(e.packageName, spec);
        Success((originalClassName, property,
          EmittedFile(targetDir, originalClassName.packageName, originalClassName.simpleName + "Container", PropertyFile(property))))
  }

  /** `obtainScopeProviderSpec` as a value: the provider registered for the mirrored type, if any. */
  function ScopeProviderFor(annotation: ToNativeClass, scopeProviders: map<TypeName, Member>): (r: Option<Member>)
    ensures r.Some? <==> annotation.launchOnScope.Mirrored? && annotation.launchOnScope.typeMirror in scopeProviders
    ensures r.Some? ==> r.value == scopeProviders[annotation.launchOnScope.typeMirror]
  {
    match annotation.launchOnScope
    case Mirrored(t) => if t in scopeProviders then Some(scopeProviders[t]) else None
    case Returned => None
  }

  /**
   * `obtainScopeProviderSpec`: the type is taken from the exception reading the
   * attribute throws; when nothing is thrown the type stays null and no
   * provider is found.
   */
  method ObtainScopeProviderSpec(annotation: ToNativeClass, scopeProviders: map<TypeName, Member>) returns (r: Option<Member>)
    ensures r == ScopeProviderFor(annotation, scopeProviders)
    ensures r.Some? ==> annotation.launchOnScope.Mirrored? && r.value in scopeProviders.Values
  {
    var typeMirror: Option<TypeName> := None;
    match annotation.launchOnScope {
      case Mirrored(t) => typeMirror := Some(t);
      case Returned =>
    }
    if typeMirror.Some? && typeMirror.value in scopeProviders {
      r := Some(scopeProviders[typeMirror.value]);
    } else {
      r := None;
    }
  }

  // ---------------------------------------------------------------------------
  // Matching a class against the generated interfaces
  // ---------------------------------------------------------------------------

  /** `add` on a LinkedHashSet kept as its iteration order. */
  function LinkedInsert(s: seq<TypeName>, x: TypeName): seq<TypeName>
  {
    if x in s then s else s + [x]
  }

  function InsertAll(s: seq<TypeName>, xs: seq<TypeName>): seq<TypeName>
  {
    if xs == [] then s else LinkedInsert(InsertAll(s, xs[..|xs| - 1]), xs[|xs| - 1])
  }

  /** The candidate set: the declared superinterfaces, then the class itself, without repeats. */
  function Candidates(superInterfacesOfClass: seq<TypeName>, className: TypeName): seq<TypeName>
  {
    LinkedInsert(InsertAll([], superInterfacesOfClass), className)
  }

  /** `i` is the first position of `cands` that is a key of `m`. */
  predicate FirstKeyAt<V>(cands: seq<TypeName>, m: map<TypeName, V>, i: int)
  {
    0 <= i < |cands| && cands[i] in m && forall j :: 0 <= j < i ==> cands[j] !in m
  }

  /** `find { m[it] != null }`. */
  function FirstKey<V>(cands: seq<TypeName>, m: map<TypeName, V>): (r: Option<TypeName>)
    ensures r.None? <==> forall k :: k in cands ==> k !in m
    ensures r.Some? ==> r.value in m && exists i :: FirstKeyAt(cands, m, i) && cands[i] == r.value
  {
    if cands == [] then None
    else if cands[0] in m then
      assert FirstKeyAt(cands, m, 0);
      Some(cands[0])
    else
      var r := FirstKey(cands[1..], m);
      if r.Some? then
        var i :| FirstKeyAt(cands[1..], m, i) && cands[1..][i] == r.value;
        assert FirstKeyAt(cands, m, i + 1);
        r
      else r
  }

  lemma FirstKeySkip<V>(cands: seq<TypeName>, m: map<TypeName, V>)
    requires cands != [] && cands[0] !in m
    ensures FirstKey(cands, m) == FirstKey(cands[1..], m)
  {
  }

  lemma {:induction false} FirstKeyAppend<V>(a: seq<TypeName>, b: seq<TypeName>, m: map<TypeName, V>)
    ensures FirstKey(a + b, m) == if FirstKey(a, m).Some? then FirstKey(a, m) else FirstKey(b, m)
  {
    if a != [] {
      assert (a + b)[0] == a[0];
      assert (a + b)[1..] == a[1..] + b;
      FirstKeyAppend(a[1..], b, m);
    } else {
      assert a + b == b;
    }
  }

  lemma {:induction false} FirstKeyInsertAll<V>(s: seq<TypeName>, xs: seq<TypeName>, m: map<TypeName, V>)
    ensures FirstKey(InsertAll(s, xs), m) == FirstKey(s + xs, m)
  {
    if xs == [] {
      assert s + xs == s;
    } else {
      var n := |xs| - 1;
      var prefix := InsertAll(s, xs[..n]);
      var last := [xs[n]];
      calc {
        FirstKey(InsertAll(s, xs), m);
        FirstKey(LinkedInsert(prefix, xs[n]), m);
        { FirstKeyLinkedInsert(prefix, xs[n], m); }
        FirstKey(prefix + last, m);
        { FirstKeyAppend(prefix, last, m); }
        if FirstKey(prefix, m).Some? then FirstKey(prefix, m) else FirstKey(last, m);
        { FirstKeyInsertAll(s, xs[..n], m); }
        if FirstKey(s + xs[..n], m).Some? then FirstKey(s + xs[..n], m) else FirstKey(last, m);
        { FirstKeyAppend(s + xs[..n], last, m); }
        FirstKey(s + xs[..n] + last, m);
        { assert s + xs[..n] + last == s + xs; }
        FirstKey(s + xs, m);
      }
    }
  }

  lemma FirstKeyLinkedInsert<V>(s: seq<TypeName>, x: TypeName, m: map<TypeName, V>)
    ensures FirstKey(LinkedInsert(s, x), m) == FirstKey(s + [x], m)
  {
    FirstKeyAppend(s, [x], m);
  }

  /** Removing repeats from "superinterfaces, then the class" does not change the first key found. */
  lemma CandidatesFirstKey<V>(superInterfacesOfClass: seq<TypeName>, className: TypeName, m: map<TypeName, V>)
    ensures FirstKey(Candidates(superInterfacesOfClass, className), m) == FirstKey(superInterfacesOfClass + [className], m)
  {
    var s := InsertAll([], superInterfacesOfClass);
    FirstKeyLinkedInsert(s, className, m);
    FirstKeyInsertAll([], superInterfacesOfClass, m);
    assert [] + superInterfacesOfClass == superInterfacesOfClass;
    FirstKeyAppend(s, [className], m);
    FirstKeyAppend(superInterfacesOfClass, [className], m);
  }

  /**
   * `matchGeneratedInterfaceName` as a value: the first of the declared
   * superinterfaces, then the class itself, that is a key of the map, paired
   * with its entry; none iff no candidate is a key.
   */
  function MatchGeneratedInterface(
    superInterfacesOfClass: seq<TypeName>,
    className: TypeName,
    allGeneratedInterfaces: map<TypeName, GeneratedSuperInterface>): (r: Option<OriginalToGeneratedInterface>)
    ensures r.None? <==> forall k :: k in superInterfacesOfClass + [className] ==> k !in allGeneratedInterfaces
    ensures r.Some? ==>
      && r.value.originalName in allGeneratedInterfaces
      && r.value.generated == allGeneratedInterfaces[r.value.originalName]
      && exists i :: FirstKeyAt(superInterfacesOfClass + [className], allGeneratedInterfaces, i)
                     && (superInterfacesOfClass + [className])[i] == r.value.originalName
  {
    CandidatesFirstKey(superInterfacesOfClass, className, allGeneratedInterfaces);
    match FirstKey(Candidates(superInterfacesOfClass, className), allGeneratedInterfaces)
    case None => None
    case Some(k) => Some(OriginalToGeneratedInterface(k, allGeneratedInterfaces[k]))
  }

  /** `addAll` on a LinkedHashSet: each element not yet present is appended. */
  method AddAll(s: seq<TypeName>, xs: seq<TypeName>) returns (r: seq<TypeName>)
    ensures r == InsertAll(s, xs)
  {
    r := s;
    var i := 0;
    while i < |xs|
      invariant 0 <= i <= |xs|
      invariant r == InsertAll(s, xs[..i])
    {
      assert xs[..i + 1][..i] == xs[..i];
      if xs[i] !in r {
        r := r + [xs[i]];
      }
      i := i + 1;
    }
    assert xs[..i] == xs;
  }

  /** `find { m[it] != null }` over the set in iteration order. */
  method Find<V>(cands: seq<TypeName>, m: map<TypeName, V>) returns (r: Option<TypeName>)
    ensures r == FirstKey(cands, m)
  {
    var j := 0;
    while j < |cands| && cands[j] !in m
      invariant 0 <= j <= |cands|
      invariant FirstKey(cands, m) == FirstKey(cands[j..], m)
    {
      FirstKeySkip(cands[j..], m);
      assert cands[j..][1..] == cands[j + 1..];
      j := j + 1;
    }
    if j < |cands| {
      r := Some(cands[j]);
    } else {
      assert cands[j..] == [];
      r := None;
    }
  }

  /**
   * `matchGeneratedInterfaceName`: fills an insertion-ordered set with the
   * superinterfaces and then the class, and returns the first member that is a
   * key of the generated-interfaces map.
   */
  method MatchGeneratedInterfaceName(
    superInterfacesOfClass: seq<TypeName>,
    className: TypeName,
    allGeneratedInterfaces: map<TypeName, GeneratedSuperInterface>) returns (r: Option<OriginalToGeneratedInterface>)
    ensures r == MatchGeneratedInterface(superInterfacesOfClass, className, allGeneratedInterfaces)
  {
    var candidates := AddAll([], superInterfacesOfClass);
    if className !in candidates {
      candidates := candidates + [className];
    }
    assert candidates == Candidates(superInterfacesOfClass, className);
    var found := Find(candidates, allGeneratedInterfaces);
    match found
    case None => r := None;
    case Some(originalName) =>
      r := Some(OriginalToGeneratedInterface(originalName, allGeneratedInterfaces[originalName]));
  }

  // ---------------------------------------------------------------------------
  // Interfaces and wrapper classes
  // ---------------------------------------------------------------------------

  /**
   * `generateInterface`: the entry keyed by the original type, recording the
   * generated interface under the original package, and its file.
   */
  function GenerateInterface(e: Element, annotation: ToNativeInterface, targetDir: string, h: Helpers)
    : (r: Result<(TypeName, GeneratedSuperInterface, EmittedFile), Throwable>)
    ensures r.Success? <==> e.metadata.Success?
    ensures r.Failure? ==> r.error == e.metadata.error
    ensures r.Success? ==>
      var newTypeName := InterfaceName(e, annotation);
      && r.value.0 == GetClassName(e)
      && r.value.1.name == ClassName(e.packageName, newTypeName)
      && r.value.1.typeSpec == WrapperInterfaceBuilder.Build(newTypeName, e.metadata.value, h)
      && r.value.2 == EmittedFile(targetDir, e.packageName, newTypeName, TypeFile(r.value.1.typeSpec))
  {
    match e.metadata
    case Failure(err) => Failure(err)
    case Success(typeSpec) =>
      var typeName := GetClassName(e);
      var newTypeName := InterfaceName(e, annotation);
      var generatedType := WrapperInterfaceBuilder.Build(newTypeName, typeSpec, h);
      var file := EmittedFile(targetDir, typeName.packageName, newTypeName, TypeFile(generatedType));
      Success((typeName, GeneratedSuperInterface(ClassName(typeName.packageName, newTypeName), generatedType), file))
  }

  /** `generateWrappedClasses` for one element: the wrapper's file, or the exception. */
  function GenerateWrappedClass(
    e: Element,
    annotation: ToNativeClass,
    kaptGeneratedDir: string,
    generatedInterfaces: map<TypeName, GeneratedSuperInterface>,
    scopeProviders: map<TypeName, Member>,
    h: Helpers): (r: Result<EmittedFile, Throwable>)
    ensures r.Success? <==> e.metadata.Success?
    ensures r.Failure? ==> r.error == e.metadata.error
    ensures r.Success? ==>
      && r.value.directory == kaptGeneratedDir
      && r.value.packageName == e.packageName
      && r.value.fileName == WrapperName(e, annotation)
      && r.value.content == TypeFile(WrapperClassBuilder.Build(
           GetClassName(e), e.metadata.value, WrapperName(e, annotation),
           MatchGeneratedInterface(e.metadata.value.superinterfaces, GetClassName(e), generatedInterfaces),
           ScopeProviderFor(annotation, scopeProviders), h))
      && r.value.content.typeSpec.name == WrapperName(e, annotation)
  {
    match e.metadata
    case Failure(err) => Failure(err)
    case Success(typeSpec) =>
      var originalTypeName := GetClassName(e);
      var generatedClassName := WrapperName(e, annotation);
      var link := MatchGeneratedInterface(typeSpec.superinterfaces, originalTypeName, generatedInterfaces);
      var classToGenerateSpec := WrapperClassBuilder.Build(
        originalTypeName, typeSpec, generatedClassName, link, ScopeProviderFor(annotation, scopeProviders), h);
      Success(EmittedFile(kaptGeneratedDir, originalTypeName.packageName, generatedClassName, TypeFile(classToGenerateSpec)))
  }

  // ---------------------------------------------------------------------------
  // The three phases
  // ---------------------------------------------------------------------------

  /** A phase in progress: what it has built and written so far, or the exception that stopped it. */
  datatype Progress<M> = Running(acc: M, emitted: seq<EmittedFile>) | Failed(error: Throwable, emitted: seq<EmittedFile>)

  /** Phase 1: the scope-provider map, element by element. */
  function ScopeProviderPhase(es: seq<Element>, dir: string, h: Helpers): (p: Progress<map<TypeName, Member>>)
    ensures p.Running? ==> |p.emitted| == |es|
    ensures p.Failed? ==> |p.emitted| < |es|
  {
    if es == [] then Running(map[], [])
    else
      match ScopeProviderPhase(es[..|es| - 1], dir, h)
      case Failed(err, fs) => Failed(err, fs)
      case Running(m, fs) =>
        match GenerateScopeProvider(es[|es| - 1], dir, h)
        case Failure(err) => Failed(err, fs)
        case Success((k, v, file)) => Running(m[k := v], fs + [file])
  }

  /** Phase 2: the generated-interface map, element by element. */
  function InterfacePhase(es: seq<(Element, ToNativeInterface)>, dir: string, h: Helpers): (p: Progress<map<TypeName, GeneratedSuperInterface>>)
    ensures p.Running? ==> |p.emitted| == |es|
    ensures p.Failed? ==> |p.emitted| < |es|
  {
    if es == [] then Running(map[], [])
    else
      match InterfacePhase(es[..|es| - 1], dir, h)
      case Failed(err, fs) => Failed(err, fs)
      case Running(m, fs) =>
        var last := es[|es| - 1];
        match GenerateInterface(last.0, last.1, dir, h)
        case Failure(err) => Failed(err, fs)
        case Success((k, v, file)) => Running(m[k := v], fs + [file])
  }

  /** Phase 3: one wrapper class per element, all built against the same two maps. */
  function ClassPhase(
    es: seq<(Element, ToNativeClass)>,
    dir: string,
    generatedInterfaces: map<TypeName, GeneratedSuperInterface>,
    scopeProviders: map<TypeName, Member>,
    h: Helpers): (p: Progress<()>)
    ensures p.Running? ==> |p.emitted| == |es|
    ensures p.Failed? ==> |p.emitted| < |es|
  {
    if es == [] then Running((), [])
    else
      match ClassPhase(es[..|es| - 1], dir, generatedInterfaces, scopeProviders, h)
      case Failed(err, fs) => Failed(err, fs)
      case Running(_, fs) =>
        var last := es[|es| - 1];
        match GenerateWrappedClass(last.0, last.1, dir, generatedInterfaces, scopeProviders, h)
        case Failure(err) => Failed(err, fs)
        case Success(file) => Running((), fs + [file])
  }

  /** `process`: the whole round as a value. */
  function RoundOutcome(options: map<string, string>, roundEnv: RoundEnvironment, h: Helpers): (o: Outcome)
    ensures KaptKotlinGeneratedOptionName !in options ==>
      o == Outcome(false, [ErrorMessage(MissingGeneratedDir)], [])
    ensures o.result ==> o.diagnostics == []
    ensures !o.result ==> |o.diagnostics| == 1 && o.diagnostics[0].kind == Error
  {
    if KaptKotlinGeneratedOptionName !in options then Outcome(false, [ErrorMessage(MissingGeneratedDir)], [])
    else
      var dir := options[KaptKotlinGeneratedOptionName];
      match ScopeProviderPhase(roundEnv.scopeProviders, dir, h)
      case Failed(err, fs1) => Outcome(false, [ErrorMessage(err)], fs1)
      case Running(scopeProviders, fs1) =>
        match InterfacePhase(roundEnv.interfaces, dir, h)
        case Failed(err, fs2) => Outcome(false, [ErrorMessage(err)], fs1 + fs2)
        case Running(generatedInterfaces, fs2) =>
          match ClassPhase(roundEnv.classes, dir, generatedInterfaces, scopeProviders, h)
          case Failed(err, fs3) => Outcome(false, [ErrorMessage(err)], fs1 + fs2 + fs3)
          case Running(_, fs3) => Outcome(true, [], fs1 + fs2 + fs3)
  }

  // ---------------------------------------------------------------------------
  // Properties of the phases
  // ---------------------------------------------------------------------------

  /** A completed phase 2 completed its prefix and then wrote the last element's interface. */
  lemma InterfacePhaseLastRunning(es: seq<(Element, ToNativeInterface)>, dir: string, h: Helpers)
    requires es != [] && InterfacePhase(es, dir, h).Running?
    ensures var n := |es| - 1;
      var q := InterfacePhase(es[..n], dir, h);
      var g := GenerateInterface(es[n].0, es[n].1, dir, h);
      && q.Running? && g.Success?
      && InterfacePhase(es, dir, h).emitted == q.emitted + [g.value.2]
  {
  }

  /** Phase 2 fails at element `i` when it reaches it and its metadata is missing. */
  lemma InterfacePhaseFailsAt(es: seq<(Element, ToNativeInterface)>, dir: string, h: Helpers, i: nat)
    requires i < |es| && InterfacePhase(es[..i], dir, h).Running? && es[i].0.metadata.Failure?
    ensures InterfacePhase(es[..i + 1], dir, h) == Failed(es[i].0.metadata.error, InterfacePhase(es[..i], dir, h).emitted)
  {
    var s := es[..i + 1];
    assert s[..i] == es[..i] && s[i] == es[i];
    var g := GenerateInterface(es[i].0, es[i].1, dir, h);
    assert g == Failure(es[i].0.metadata.error);
  }

  /** A completed phase 3 completed its prefix and then wrote the last element's wrapper. */
  lemma ClassPhaseLastRunning(
    es: seq<(Element, ToNativeClass)>, dir: string,
    gi: map<TypeName, GeneratedSuperInterface>, sp: map<TypeName, Member>, h: Helpers)
    requires es != [] && ClassPhase(es, dir, gi, sp, h).Running?
    ensures var n := |es| - 1;
      var q := ClassPhase(es[..n], dir, gi, sp, h);
      var g := GenerateWrappedClass(es[n].0, es[n].1, dir, gi, sp, h);
      && q.Running? && g.Success?
      && ClassPhase(es, dir, gi, sp, h).emitted == q.emitted + [g.value]
  {
  }

  /** Phase 3 over `es[..i + 1]` extends a running phase over `es[..i]` by element `i`. */
  lemma ClassPhaseExtend(
    es: seq<(Element, ToNativeClass)>, dir: string,
    gi: map<TypeName, GeneratedSuperInterface>, sp: map<TypeName, Member>, h: Helpers, i: nat)
    requires i < |es| && ClassPhase(es[..i], dir, gi, sp, h).Running?
    ensures var fs := ClassPhase(es[..i], dir, gi, sp, h).emitted;
      ClassPhase(es[..i + 1], dir, gi, sp, h)
        == match GenerateWrappedClass(es[i].0, es[i].1, dir, gi, sp, h)
           case Failure(err) => Failed(err, fs)
           case Success(file) => Running((), fs + [file])
  {
    var s := es[..i + 1];
    assert s[..i] == es[..i] && s[i] == es[i];
  }

  /** Phase 3 fails at element `i` when it reaches it and its metadata is missing. */
  lemma ClassPhaseFailsAt(
    es: seq<(Element, ToNativeClass)>, dir: string,
    gi: map<TypeName, GeneratedSuperInterface>, sp: map<TypeName, Member>, h: Helpers, i: nat)
    requires i < |es| && ClassPhase(es[..i], dir, gi, sp, h).Running? && es[i].0.metadata.Failure?
    ensures ClassPhase(es[..i + 1], dir, gi, sp, h) == Failed(es[i].0.metadata.error, ClassPhase(es[..i], dir, gi, sp, h).emitted)
  {
    var s := es[..i + 1];
    assert s[..i] == es[..i] && s[i] == es[i];
    var g := GenerateWrappedClass(es[i].0, es[i].1, dir, gi, sp, h);
    assert g == Failure(es[i].0.metadata.error);
  }

  lemma {:induction false} ScopeProviderPhaseStaysFailed(es: seq<Element>, i: nat, dir: string, h: Helpers)
    requires i <= |es| && ScopeProviderPhase(es[..i], dir, h).Failed?
    ensures ScopeProviderPhase(es, dir, h) == ScopeProviderPhase(es[..i], dir, h)
  {
    if i < |es| {
      var n := |es| - 1;
      assert es[..n][..i] == es[..i];
      ScopeProviderPhaseStaysFailed(es[..n], i, dir, h);
    } else {
      assert es[..i] == es;
    }
  }

  lemma {:induction false} InterfacePhaseStaysFailed(es: seq<(Element, ToNativeInterface)>, i: nat, dir: string, h: Helpers)
    requires i <= |es| && InterfacePhase(es[..i], dir, h).Failed?
    ensures InterfacePhase(es, dir, h) == InterfacePhase(es[..i], dir, h)
  {
    if i < |es| {
      var n := |es| - 1;
      assert es[..n][..i] == es[..i];
      InterfacePhaseStaysFailed(es[..n], i, dir, h);
    } else {
      assert es[..i] == es;
    }
  }

  lemma {:induction false} ClassPhaseStaysFailed(
    es: seq<(Element, ToNativeClass)>, i: nat, dir: string,
    gi: map<TypeName, GeneratedSuperInterface>, sp: map<TypeName, Member>, h: Helpers)
    requires i <= |es| && ClassPhase(es[..i], dir, gi, sp, h).Failed?
    ensures ClassPhase(es, dir, gi, sp, h) == ClassPhase(es[..i], dir, gi, sp, h)
  {
    if i < |es| {
      var n := |es| - 1;
      assert es[..n][..i] == es[..i];
      ClassPhaseStaysFailed(es[..n], i, dir, gi, sp, h);
    } else {
      assert es[..i] == es;
    }
  }

  /** A scope provider's generation does not throw: metadata is available and it implements `ScopeProvider`. */
  predicate ProviderOk(e: Element)
  {
    e.metadata.Success? && ScopeProviderTypeName in e.metadata.value.superinterfaces
  }

  lemma {:induction false} ScopeProviderPhaseCompletes(es: seq<Element>, dir: string, h: Helpers)
    ensures ScopeProviderPhase(es, dir, h).Running? <==> forall i :: 0 <= i < |es| ==> ProviderOk(es[i])
  {
    if es != [] {
      var n := |es| - 1;
      var pre := es[..n];
      ScopeProviderPhaseCompletes(pre, dir, h);
      var g := GenerateScopeProvider(es[n], dir, h);
      assert g.Success? <==> ProviderOk(es[n]);
      if ScopeProviderPhase(pre, dir, h).Running? {
        assert ScopeProviderPhase(es, dir, h).Running? <==> g.Success?;
        forall i | 0 <= i < n
          ensures ProviderOk(es[i])
        {
          assert pre[i] == es[i];
        }
      } else {
        assert ScopeProviderPhase(es, dir, h).Failed?;
        var i :| 0 <= i < n && !ProviderOk(pre[i]);
        assert pre[i] == es[i];
      }
    }
  }

  lemma {:induction false} ScopeProviderPhaseEmitted(es: seq<Element>, dir: string, h: Helpers)
    requires ScopeProviderPhase(es, dir, h).Running?
    ensures var p := ScopeProviderPhase(es, dir, h);
      && |p.emitted| == |es|
      && forall i :: 0 <= i < |es| ==>
           GenerateScopeProvider(es[i], dir, h).Success? && p.emitted[i] == GenerateScopeProvider(es[i], dir, h).value.2
  {
    if es != [] {
      var n := |es| - 1;
      var pre := es[..n];
      var q := ScopeProviderPhase(pre, dir, h);
      var g := GenerateScopeProvider(es[n], dir, h);
      assert q.Running? && g.Success?;
      ScopeProviderPhaseEmitted(pre, dir, h);
      var p := ScopeProviderPhase(es, dir, h);
      assert p.emitted == q.emitted + [g.value.2];
      forall i | 0 <= i < n
        ensures GenerateScopeProvider(es[i], dir, h).Success?
        ensures p.emitted[i] == GenerateScopeProvider(es[i], dir, h).value.2
      {
        assert pre[i] == es[i];
      }
    }
  }

  /**
   * Phase 1 completes iff no element throws; then it has written one
   * container file per element, in order.
   */
  lemma ScopeProviderPhaseSpec(es: seq<Element>, dir: string, h: Helpers)
    ensures ScopeProviderPhase(es, dir, h).Running? <==> forall i :: 0 <= i < |es| ==> ProviderOk(es[i])
    ensures var p := ScopeProviderPhase(es, dir, h);
      p.Running? ==>
        && |p.emitted| == |es|
        && (forall i :: 0 <= i < |es| ==>
              GenerateScopeProvider(es[i], dir, h).Success? && p.emitted[i] == GenerateScopeProvider(es[i], dir, h).value.2)
  {
    ScopeProviderPhaseCompletes(es, dir, h);
    if ScopeProviderPhase(es, dir, h).Running? {
      ScopeProviderPhaseEmitted(es, dir, h);
    }
  }

  /** Every provider's class name is a key of the completed scope-provider map. */
  lemma {:induction false} ScopeProviderMapKeys(es: seq<Element>, dir: string, h: Helpers)
    requires ScopeProviderPhase(es, dir, h).Running?
    ensures forall i :: 0 <= i < |es| ==> GetClassName(es[i]) in ScopeProviderPhase(es, dir, h).acc
  {
    if es != [] {
      var n := |es| - 1;
      var pre := es[..n];
      ScopeProviderMapKeys(pre, dir, h);
      forall i | 0 <= i < n
        ensures GetClassName(es[i]) in ScopeProviderPhase(es, dir, h).acc
      {
        assert pre[i] == es[i];
      }
    }
  }

  /** Every entry of the completed scope-provider map is the property built for a provider of that class name. */
  lemma {:induction false} ScopeProviderMapEntries(es: seq<Element>, dir: string, h: Helpers)
    requires ScopeProviderPhase(es, dir, h).Running?
    ensures var m := ScopeProviderPhase(es, dir, h).acc;
      forall k :: k in m ==>
        (exists i :: 0 <= i < |es| && GetClassName(es[i]) == k
           && GenerateScopeProvider(es[i], dir, h).Success? && m[k] == GenerateScopeProvider(es[i], dir, h).value.1)
  {
    if es != [] {
      var n := |es| - 1;
      var pre := es[..n];
      var q := ScopeProviderPhase(pre, dir, h);
      var g := GenerateScopeProvider(es[n], dir, h);
      assert q.Running? && g.Success?;
      ScopeProviderMapEntries(pre, dir, h);
      var m := ScopeProviderPhase(es, dir, h).acc;
      assert m == q.acc[g.value.0 := g.value.1];
      forall k | k in m
        ensures exists i :: (0 <= i < |es| && GetClassName(es[i]) == k
          && GenerateScopeProvider(es[i], dir, h).Success? && m[k] == GenerateScopeProvider(es[i], dir, h).value.1)
      {
        if k == g.value.0 {
          assert GetClassName(es[n]) == k && m[k] == g.value.1;
        } else {
          var i :| 0 <= i < n && GetClassName(pre[i]) == k
            && GenerateScopeProvider(pre[i], dir, h).Success? && q.acc[k] == GenerateScopeProvider(pre[i], dir, h).value.1;
          assert pre[i] == es[i] && m[k] == q.acc[k];
        }
      }
    }
  }

  lemma {:induction false} InterfacePhaseCompletes(es: seq<(Element, ToNativeInterface)>, dir: string, h: Helpers)
    ensures InterfacePhase(es, dir, h).Running? <==> forall i :: 0 <= i < |es| ==> es[i].0.metadata.Success?
  {
    if es != [] {
      var n := |es| - 1;
      var pre := es[..n];
      InterfacePhaseCompletes(pre, dir, h);
      var g := GenerateInterface(es[n].0, es[n].1, dir, h);
      assert g.Success? <==> es[n].0.metadata.Success?;
      if InterfacePhase(pre, dir, h).Running? {
        assert InterfacePhase(es, dir, h).Running? <==> g.Success?;
        forall i | 0 <= i < n
          ensures es[i].0.metadata.Success?
        {
          assert pre[i] == es[i];
        }
      } else {
        assert InterfacePhase(es, dir, h).Failed?;
        var i :| 0 <= i < n && !pre[i].0.metadata.Success?;
        assert pre[i] == es[i];
      }
    }
  }

  lemma {:induction false} InterfacePhaseEmitted(es: seq<(Element, ToNativeInterface)>, dir: string, h: Helpers)
    requires InterfacePhase(es, dir, h).Running?
    ensures var p := InterfacePhase(es, dir, h);
      && |p.emitted| == |es|
      && forall i :: 0 <= i < |es| ==>
           GenerateInterface(es[i].0, es[i].1, dir, h).Success?
           && p.emitted[i] == GenerateInterface(es[i].0, es[i].1, dir, h).value.2
  {
    if es != [] {
      var n := |es| - 1;
      var pre := es[..n];
      InterfacePhaseLastRunning(es, dir, h);
      InterfacePhaseEmitted(pre, dir, h);
      var p := InterfacePhase(es, dir, h);
      forall i | 0 <= i < |es|
        ensures GenerateInterface(es[i].0, es[i].1, dir, h).Success?
        ensures p.emitted[i] == GenerateInterface(es[i].0, es[i].1, dir, h).value.2
      {
        if i < n {
          assert pre[i] == es[i];
        }
      }
    }
  }

  /**
   * Phase 2 completes iff every element's metadata is available; then it has
   * written one interface file per element, in order.
   */
  lemma InterfacePhaseSpec(es: seq<(Element, ToNativeInterface)>, dir: string, h: Helpers)
    ensures InterfacePhase(es, dir, h).Running? <==> forall i :: 0 <= i < |es| ==> es[i].0.metadata.Success?
    ensures var p := InterfacePhase(es, dir, h);
      p.Running? ==>
        && |p.emitted| == |es|
        && (forall i :: 0 <= i < |es| ==>
              GenerateInterface(es[i].0, es[i].1, dir, h).Success?
              && p.emitted[i] == GenerateInterface(es[i].0, es[i].1, dir, h).value.2)
  {
    InterfacePhaseCompletes(es, dir, h);
    if InterfacePhase(es, dir, h).Running? {
      InterfacePhaseEmitted(es, dir, h);
    }
  }

  /** Every original type's class name is a key of the completed generated-interface map. */
  lemma {:induction false} InterfaceMapKeys(es: seq<(Element, ToNativeInterface)>, dir: string, h: Helpers)
    requires InterfacePhase(es, dir, h).Running?
    ensures forall i :: 0 <= i < |es| ==> GetClassName(es[i].0) in InterfacePhase(es, dir, h).acc
  {
    if es != [] {
      var n := |es| - 1;
      var pre := es[..n];
      InterfaceMapKeys(pre, dir, h);
      forall i | 0 <= i < n
        ensures GetClassName(es[i].0) in InterfacePhase(es, dir, h).acc
      {
        assert pre[i] == es[i];
      }
    }
  }

  /**
   * Every entry of the completed generated-interface map is keyed by an
   * original type's class name and holds the interface generated from it.
   */
  lemma {:induction false} InterfaceMapEntries(es: seq<(Element, ToNativeInterface)>, dir: string, h: Helpers)
    requires InterfacePhase(es, dir, h).Running?
    ensures var m := InterfacePhase(es, dir, h).acc;
      forall k :: k in m ==>
        (exists i :: 0 <= i < |es| && GetClassName(es[i].0) == k
           && GenerateInterface(es[i].0, es[i].1, dir, h).Success?
           && m[k] == GenerateInterface(es[i].0, es[i].1, dir, h).value.1)
  {
    if es != [] {
      var n := |es| - 1;
      var pre := es[..n];
      var q := InterfacePhase(pre, dir, h);
      var g := GenerateInterface(es[n].0, es[n].1, dir, h);
      assert q.Running? && g.Success?;
      InterfaceMapEntries(pre, dir, h);
      var m := InterfacePhase(es, dir, h).acc;
      assert m == q.acc[g.value.0 := g.value.1];
      forall k | k in m
        ensures exists i :: (0 <= i < |es| && GetClassName(es[i].0) == k
          && GenerateInterface(es[i].0, es[i].1, dir, h).Success?
          && m[k] == GenerateInterface(es[i].0, es[i].1, dir, h).value.1)
      {
        if k == g.value.0 {
          assert GetClassName(es[n].0) == k && m[k] == g.value.1;
        } else {
          var i :| 0 <= i < n && GetClassName(pre[i].0) == k
            && GenerateInterface(pre[i].0, pre[i].1, dir, h).Success?
            && q.acc[k] == GenerateInterface(pre[i].0, pre[i].1, dir, h).value.1;
          assert pre[i] == es[i] && m[k] == q.acc[k];
        }
      }
    }
  }

  /** Phase 3 goes on past its last element iff it got that far and the element's metadata is available. */
  lemma ClassPhaseStep(
    es: seq<(Element, ToNativeClass)>, dir: string,
    gi: map<TypeName, GeneratedSuperInterface>, sp: map<TypeName, Member>, h: Helpers)
    requires es != []
    ensures ClassPhase(es, dir, gi, sp, h).Running? <==>
      ClassPhase(es[..|es| - 1], dir, gi, sp, h).Running? && es[|es| - 1].0.metadata.Success?
  {
    var g := GenerateWrappedClass(es[|es| - 1].0, es[|es| - 1].1, dir, gi, sp, h);
    assert g.Success? <==> es[|es| - 1].0.metadata.Success?;
  }

  /** Phase 3 completes iff every element's metadata is available. */
  lemma {:induction false} ClassPhaseCompletes(
    es: seq<(Element, ToNativeClass)>, dir: string,
    gi: map<TypeName, GeneratedSuperInterface>, sp: map<TypeName, Member>, h: Helpers)
    ensures ClassPhase(es, dir, gi, sp, h).Running? <==> forall i :: 0 <= i < |es| ==> es[i].0.metadata.Success?
  {
    if es != [] {
      var n := |es| - 1;
      var pre := es[..n];
      ClassPhaseCompletes(pre, dir, gi, sp, h);
      ClassPhaseStep(es, dir, gi, sp, h);
      if forall i :: 0 <= i < |es| ==> es[i].0.metadata.Success? {
        forall i | 0 <= i < n
          ensures pre[i].0.metadata.Success?
        {
          assert pre[i] == es[i];
        }
      }
      if ClassPhase(es, dir, gi, sp, h).Running? {
        forall i | 0 <= i < |es|
          ensures es[i].0.metadata.Success?
        {
          if i < n {
            assert pre[i] == es[i];
          }
        }
      }
    }
  }

  /** A completed phase 3 has written one wrapper per element, in order. */
  lemma {:induction false} ClassPhaseEmitted(
    es: seq<(Element, ToNativeClass)>, dir: string,
    gi: map<TypeName, GeneratedSuperInterface>, sp: map<TypeName, Member>, h: Helpers)
    requires ClassPhase(es, dir, gi, sp, h).Running?
    ensures var p := ClassPhase(es, dir, gi, sp, h);
      && |p.emitted| == |es|
      && forall i :: 0 <= i < |es| ==>
           GenerateWrappedClass(es[i].0, es[i].1, dir, gi, sp, h).Success?
           && p.emitted[i] == GenerateWrappedClass(es[i].0, es[i].1, dir, gi, sp, h).value
  {
    if es != [] {
      var n := |es| - 1;
      var pre := es[..n];
      ClassPhaseLastRunning(es, dir, gi, sp, h);
      ClassPhaseEmitted(pre, dir, gi, sp, h);
      var p := ClassPhase(es, dir, gi, sp, h);
      forall i | 0 <= i < |es|
        ensures GenerateWrappedClass(es[i].0, es[i].1, dir, gi, sp, h).Success?
        ensures p.emitted[i] == GenerateWrappedClass(es[i].0, es[i].1, dir, gi, sp, h).value
      {
        if i < n {
          assert pre[i] == es[i];
        }
      }
    }
  }

  /** Phase 3 completes iff every element's metadata is available; then it has written one wrapper per element, in order. */
  lemma ClassPhaseSpec(
    es: seq<(Element, ToNativeClass)>, dir: string,
    gi: map<TypeName, GeneratedSuperInterface>, sp: map<TypeName, Member>, h: Helpers)
    ensures ClassPhase(es, dir, gi, sp, h).Running? <==> forall i :: 0 <= i < |es| ==> es[i].0.metadata.Success?
    ensures var p := ClassPhase(es, dir, gi, sp, h);
      p.Running? ==>
        && |p.emitted| == |es|
        && forall i :: 0 <= i < |es| ==>
             GenerateWrappedClass(es[i].0, es[i].1, dir, gi, sp, h).Success?
             && p.emitted[i] == GenerateWrappedClass(es[i].0, es[i].1, dir, gi, sp, h).value
  {
    ClassPhaseCompletes(es, dir, gi, sp, h);
    if ClassPhase(es, dir, gi, sp, h).Running? {
      ClassPhaseEmitted(es, dir, gi, sp, h);
    }
  }

  lemma InterfacePrefixCompletes(es: seq<(Element, ToNativeInterface)>, dir: string, h: Helpers, i: nat)
    requires i <= |es| && forall j :: 0 <= j < i ==> es[j].0.metadata.Success?
    ensures InterfacePhase(es[..i], dir, h).Running?
  {
    InterfacePhaseCompletes(es[..i], dir, h);
    assert forall j :: 0 <= j < i ==> es[..i][j] == es[j];
  }

  lemma ClassPrefixCompletes(
    es: seq<(Element, ToNativeClass)>, dir: string,
    gi: map<TypeName, GeneratedSuperInterface>, sp: map<TypeName, Member>, h: Helpers, i: nat)
    requires i <= |es| && forall j :: 0 <= j < i ==> es[j].0.metadata.Success?
    ensures ClassPhase(es[..i], dir, gi, sp, h).Running?
  {
    ClassPhaseCompletes(es[..i], dir, gi, sp, h);
    assert forall j :: 0 <= j < i ==> es[..i][j] == es[j];
  }

  /**
   * Phase 1 stops at the first provider whose generation throws: the phase
   * fails with that exception, keeping the containers of the providers before it.
   */
  lemma ScopeProviderPhaseFailsAtFirst(es: seq<Element>, dir: string, h: Helpers, i: nat)
    requires i < |es| && !ProviderOk(es[i])
    requires forall j :: 0 <= j < i ==> ProviderOk(es[j])
    ensures ScopeProviderPhase(es[..i], dir, h).Running?
    ensures ScopeProviderPhase(es, dir, h)
      == Failed(GenerateScopeProvider(es[i], dir, h).error, ScopeProviderPhase(es[..i], dir, h).emitted)
  {
    ScopeProviderPhaseCompletes(es[..i], dir, h);
    assert forall j :: 0 <= j < i ==> es[..i][j] == es[j];
    assert es[..i + 1][..i] == es[..i];
    ScopeProviderPhaseStaysFailed(es, i + 1, dir, h);
  }

  /** Phase 2 stops at the first element without metadata, keeping the interfaces before it. */
  lemma InterfacePhaseFailsAtFirst(es: seq<(Element, ToNativeInterface)>, dir: string, h: Helpers, i: nat)
    requires i < |es| && es[i].0.metadata.Failure?
    requires forall j :: 0 <= j < i ==> es[j].0.metadata.Success?
    ensures InterfacePhase(es[..i], dir, h).Running?
    ensures InterfacePhase(es, dir, h) == Failed(es[i].0.metadata.error, InterfacePhase(es[..i], dir, h).emitted)
  {
    InterfacePrefixCompletes(es, dir, h, i);
    InterfacePhaseFailsAt(es, dir, h, i);
    InterfacePhaseStaysFailed(es, i + 1, dir, h);
  }

  /** Phase 3 stops at the first element without metadata, keeping the wrappers before it. */
  lemma ClassPhaseFailsAtFirst(
    es: seq<(Element, ToNativeClass)>, dir: string,
    gi: map<TypeName, GeneratedSuperInterface>, sp: map<TypeName, Member>, h: Helpers, i: nat)
    requires i < |es| && es[i].0.metadata.Failure?
    requires forall j :: 0 <= j < i ==> es[j].0.metadata.Success?
    ensures ClassPhase(es[..i], dir, gi, sp, h).Running?
    ensures ClassPhase(es, dir, gi, sp, h) == Failed(es[i].0.metadata.error, ClassPhase(es[..i], dir, gi, sp, h).emitted)
  {
    ClassPrefixCompletes(es, dir, gi, sp, h, i);
    ClassPhaseFailsAt(es, dir, gi, sp, h, i);
    ClassPhaseStaysFailed(es, i + 1, dir, gi, sp, h);
  }

  /** The round raises no exception: the option is set, metadata is available, every provider is a ScopeProvider. */
  ghost predicate NothingThrows(options: map<string, string>, roundEnv: RoundEnvironment)
  {
    && KaptKotlinGeneratedOptionName in options
    && (forall i :: 0 <= i < |roundEnv.scopeProviders| ==> ProviderOk(roundEnv.scopeProviders[i]))
    && (forall i :: 0 <= i < |roundEnv.interfaces| ==> roundEnv.interfaces[i].0.metadata.Success?)
    && (forall i :: 0 <= i < |roundEnv.classes| ==> roundEnv.classes[i].0.metadata.Success?)
  }

  /** `process` returns true iff no phase throws; otherwise it reports exactly one ERROR. */
  lemma RoundSucceedsIffNothingThrows(options: map<string, string>, roundEnv: RoundEnvironment, h: Helpers)
    ensures RoundOutcome(options, roundEnv, h).result <==> NothingThrows(options, roundEnv)
  {
    if KaptKotlinGeneratedOptionName in options {
      var dir := options[KaptKotlinGeneratedOptionName];
      ScopeProviderPhaseCompletes(roundEnv.scopeProviders, dir, h);
      InterfacePhaseCompletes(roundEnv.interfaces, dir, h);
      var p1 := ScopeProviderPhase(roundEnv.scopeProviders, dir, h);
      var p2 := InterfacePhase(roundEnv.interfaces, dir, h);
      if p1.Running? && p2.Running? {
        ClassPhaseCompletes(roundEnv.classes, dir, p2.acc, p1.acc, h);
        assert RoundOutcome(options, roundEnv, h).result <==> ClassPhase(roundEnv.classes, dir, p2.acc, p1.acc, h).Running?;
      } else {
        assert !RoundOutcome(options, roundEnv, h).result;
      }
    }
  }

  /**
   * A round that fails in phase 1 reports the exception of the first provider
   * that throws, as its only ERROR, and keeps the containers written before it.
   */
  lemma RoundFailsAtFirstProvider(options: map<string, string>, roundEnv: RoundEnvironment, h: Helpers, i: nat)
    requires KaptKotlinGeneratedOptionName in options
    requires i < |roundEnv.scopeProviders| && !ProviderOk(roundEnv.scopeProviders[i])
    requires forall j :: 0 <= j < i ==> ProviderOk(roundEnv.scopeProviders[j])
    ensures var dir := options[KaptKotlinGeneratedOptionName];
      var sps := roundEnv.scopeProviders;
      RoundOutcome(options, roundEnv, h)
        == Outcome(false, [ErrorMessage(GenerateScopeProvider(sps[i], dir, h).error)], ScopeProviderPhase(sps[..i], dir, h).emitted)
  {
    ScopeProviderPhaseFailsAtFirst(roundEnv.scopeProviders, options[KaptKotlinGeneratedOptionName], h, i);
  }

  /**
   * A provider that does not implement `ScopeProvider`, after providers that
   * do, fails the round with that error; the earlier providers' containers stay written.
   */
  lemma ProviderWithoutScopeProviderFailsRound(options: map<string, string>, roundEnv: RoundEnvironment, h: Helpers, i: nat)
    requires KaptKotlinGeneratedOptionName in options
    requires i < |roundEnv.scopeProviders| && roundEnv.scopeProviders[i].metadata.Success?
    requires ScopeProviderTypeName !in roundEnv.scopeProviders[i].metadata.value.superinterfaces
    requires forall j :: 0 <= j < i ==> ProviderOk(roundEnv.scopeProviders[j])
    ensures var o := RoundOutcome(options, roundEnv, h);
      && !o.result
      && o.diagnostics == [ErrorMessage(NotAScopeProvider)]
      && |o.emitted| == i
      && forall j :: 0 <= j < i ==>
           var g := GenerateScopeProvider(roundEnv.scopeProviders[j], options[KaptKotlinGeneratedOptionName], h);
           g.Success? && o.emitted[j] == g.value.2
  {
    var dir := options[KaptKotlinGeneratedOptionName];
    var sps := roundEnv.scopeProviders;
    RoundFailsAtFirstProvider(options, roundEnv, h, i);
    ScopeProviderPhaseFailsAtFirst(sps, dir, h, i);
    ScopeProviderPhaseEmitted(sps[..i], dir, h);
    assert forall j :: 0 <= j < i ==> sps[..i][j] == sps[j];
  }

  /**
   * A round that fails in phase 2 reports the metadata exception of the first
   * interface element without metadata; every container and the interfaces
   * before that element stay written.
   */
  lemma RoundFailsAtFirstInterface(options: map<string, string>, roundEnv: RoundEnvironment, h: Helpers, i: nat)
    requires KaptKotlinGeneratedOptionName in options
    requires forall j :: 0 <= j < |roundEnv.scopeProviders| ==> ProviderOk(roundEnv.scopeProviders[j])
    requires i < |roundEnv.interfaces| && roundEnv.interfaces[i].0.metadata.Failure?
    requires forall j :: 0 <= j < i ==> roundEnv.interfaces[j].0.metadata.Success?
    ensures var dir := options[KaptKotlinGeneratedOptionName];
      var sps, ifs := roundEnv.scopeProviders, roundEnv.interfaces;
      RoundOutcome(options, roundEnv, h)
        == Outcome(false, [ErrorMessage(ifs[i].0.metadata.error)],
                   ScopeProviderPhase(sps, dir, h).emitted + InterfacePhase(ifs[..i], dir, h).emitted)
  {
    var dir := options[KaptKotlinGeneratedOptionName];
    ScopeProviderPhaseCompletes(roundEnv.scopeProviders, dir, h);
    InterfacePhaseFailsAtFirst(roundEnv.interfaces, dir, h, i);
  }

  /**
   * A round that fails in phase 3 reports the metadata exception of the first
   * class element without metadata; every container, every interface and the
   * wrappers before that element stay written.
   */
  lemma RoundFailsAtFirstWrapper(options: map<string, string>, roundEnv: RoundEnvironment, h: Helpers, i: nat)
    requires KaptKotlinGeneratedOptionName in options
    requires forall j :: 0 <= j < |roundEnv.scopeProviders| ==> ProviderOk(roundEnv.scopeProviders[j])
    requires forall j :: 0 <= j < |roundEnv.interfaces| ==> roundEnv.interfaces[j].0.metadata.Success?
    requires i < |roundEnv.classes| && roundEnv.classes[i].0.metadata.Failure?
    requires forall j :: 0 <= j < i ==> roundEnv.classes[j].0.metadata.Success?
    ensures var dir := options[KaptKotlinGeneratedOptionName];
      var sps, ifs, cls := roundEnv.scopeProviders, roundEnv.interfaces, roundEnv.classes;
      var p1 := ScopeProviderPhase(sps, dir, h);
      var p2 := InterfacePhase(ifs, dir, h);
      && p1.Running? && p2.Running?
      && RoundOutcome(options, roundEnv, h)
           == Outcome(false, [ErrorMessage(cls[i].0.metadata.error)],
                      p1.emitted + p2.emitted + ClassPhase(cls[..i], dir, p2.acc, p1.acc, h).emitted)
  {
    var dir := options[KaptKotlinGeneratedOptionName];
    ScopeProviderPhaseCompletes(roundEnv.scopeProviders, dir, h);
    InterfacePhaseCompletes(roundEnv.interfaces, dir, h);
    var p1 := ScopeProviderPhase(roundEnv.scopeProviders, dir, h);
    var p2 := InterfacePhase(roundEnv.interfaces, dir, h);
    ClassPhaseFailsAtFirst(roundEnv.classes, dir, p2.acc, p1.acc, h, i);
  }

  lemma MiddleIndex<T>(a: seq<T>, b: seq<T>, c: seq<T>, j: nat)
    requires j < |b|
    ensures |a| + j < |a + b + c| && (a + b + c)[|a| + j] == b[j]
  {
  }

  /** A successful round completed all three phases and wrote their files in phase order. */
  lemma RoundPhases(options: map<string, string>, roundEnv: RoundEnvironment, h: Helpers)
    requires RoundOutcome(options, roundEnv, h).result
    ensures KaptKotlinGeneratedOptionName in options
    ensures var dir := options[KaptKotlinGeneratedOptionName];
      var p1 := ScopeProviderPhase(roundEnv.scopeProviders, dir, h);
      var p2 := InterfacePhase(roundEnv.interfaces, dir, h);
      && p1.Running? && p2.Running?
      && var p3 := ClassPhase(roundEnv.classes, dir, p2.acc, p1.acc, h);
         && p3.Running?
         && RoundOutcome(options, roundEnv, h).emitted == p1.emitted + p2.emitted + p3.emitted
  {
  }

  lemma FirstIndex<T>(a: seq<T>, b: seq<T>, c: seq<T>, j: nat)
    requires j < |a|
    ensures j < |a + b + c| && (a + b + c)[j] == a[j]
  {
  }

  /** From `offset` on, `out` holds the container file of every scope provider of `sps`, in order. */
  ghost predicate WritesScopeProviders(out: seq<EmittedFile>, offset: nat, sps: seq<Element>, dir: string, h: Helpers)
  {
    && offset + |sps| <= |out|
    && forall j :: 0 <= j < |sps| ==>
         GenerateScopeProvider(sps[j], dir, h).Success? && out[offset + j] == GenerateScopeProvider(sps[j], dir, h).value.2
  }

  /** From `offset` on, `out` holds the generated interface of every element of `ifs`, in order. */
  ghost predicate WritesInterfaces(out: seq<EmittedFile>, offset: nat, ifs: seq<(Element, ToNativeInterface)>, dir: string, h: Helpers)
  {
    && offset + |ifs| <= |out|
    && forall j :: 0 <= j < |ifs| ==>
         GenerateInterface(ifs[j].0, ifs[j].1, dir, h).Success?
         && out[offset + j] == GenerateInterface(ifs[j].0, ifs[j].1, dir, h).value.2
  }

  /** From `offset` on, `out` holds the wrapper of every element of `cls`, each built against `gi` and `sp`, in order. */
  ghost predicate WritesWrappers(
    out: seq<EmittedFile>, offset: nat, cls: seq<(Element, ToNativeClass)>, dir: string,
    gi: map<TypeName, GeneratedSuperInterface>, sp: map<TypeName, Member>, h: Helpers)
  {
    && offset + |cls| <= |out|
    && forall j :: 0 <= j < |cls| ==>
         GenerateWrappedClass(cls[j].0, cls[j].1, dir, gi, sp, h).Success?
         && out[offset + j] == GenerateWrappedClass(cls[j].0, cls[j].1, dir, gi, sp, h).value
  }

  /** The files of a completed phase 1 at the head of an output. */
  lemma ScopeProvidersWrittenFirst(
    sps: seq<Element>, dir: string, h: Helpers, middle: seq<EmittedFile>, last: seq<EmittedFile>, out: seq<EmittedFile>)
    requires ScopeProviderPhase(sps, dir, h).Running?
    requires out == ScopeProviderPhase(sps, dir, h).emitted + middle + last
    ensures WritesScopeProviders(out, 0, sps, dir, h)
  {
    var p1 := ScopeProviderPhase(sps, dir, h);
    ScopeProviderPhaseEmitted(sps, dir, h);
    forall j | 0 <= j < |sps|
      ensures GenerateScopeProvider(sps[j], dir, h).Success? && out[0 + j] == GenerateScopeProvider(sps[j], dir, h).value.2
    {
      FirstIndex(p1.emitted, middle, last, j);
    }
  }

  /** The files of a completed phase 2 between two other runs of files. */
  lemma InterfacesWrittenBetween(
    ifs: seq<(Element, ToNativeInterface)>, dir: string, h: Helpers,
    first: seq<EmittedFile>, last: seq<EmittedFile>, out: seq<EmittedFile>, offset: nat)
    requires InterfacePhase(ifs, dir, h).Running?
    requires out == first + InterfacePhase(ifs, dir, h).emitted + last && offset == |first|
    ensures WritesInterfaces(out, offset, ifs, dir, h)
  {
    var p2 := InterfacePhase(ifs, dir, h);
    forall j | 0 <= j < |ifs|
      ensures GenerateInterface(ifs[j].0, ifs[j].1, dir, h).Success?
      ensures out[offset + j] == GenerateInterface(ifs[j].0, ifs[j].1, dir, h).value.2
    {
      InterfaceWrittenAt(ifs, dir, h, j);
      MiddleIndex(first, p2.emitted, last, j);
    }
  }

  lemma InterfaceWrittenAt(ifs: seq<(Element, ToNativeInterface)>, dir: string, h: Helpers, j: nat)
    requires InterfacePhase(ifs, dir, h).Running? && j < |ifs|
    ensures var p2 := InterfacePhase(ifs, dir, h);
      && |p2.emitted| == |ifs|
      && GenerateInterface(ifs[j].0, ifs[j].1, dir, h).Success?
      && p2.emitted[j] == GenerateInterface(ifs[j].0, ifs[j].1, dir, h).value.2
  {
    InterfacePhaseEmitted(ifs, dir, h);
  }

  /** One file of a completed phase 3. */
  lemma WrapperWrittenAt(
    cls: seq<(Element, ToNativeClass)>, dir: string,
    gi: map<TypeName, GeneratedSuperInterface>, sp: map<TypeName, Member>, h: Helpers, j: nat)
    requires ClassPhase(cls, dir, gi, sp, h).Running? && j < |cls|
    ensures var p3 := ClassPhase(cls, dir, gi, sp, h);
      && |p3.emitted| == |cls|
      && GenerateWrappedClass(cls[j].0, cls[j].1, dir, gi, sp, h).Success?
      && p3.emitted[j] == GenerateWrappedClass(cls[j].0, cls[j].1, dir, gi, sp, h).value
  {
    ClassPhaseEmitted(cls, dir, gi, sp, h);
  }

  /** The files of a completed phase 3 at the tail of an output. */
  lemma WrappersWrittenLast(
    cls: seq<(Element, ToNativeClass)>, dir: string,
    gi: map<TypeName, GeneratedSuperInterface>, sp: map<TypeName, Member>, h: Helpers,
    before: seq<EmittedFile>, out: seq<EmittedFile>, offset: nat)
    requires ClassPhase(cls, dir, gi, sp, h).Running?
    requires out == before + ClassPhase(cls, dir, gi, sp, h).emitted && offset == |before|
    ensures |out| == offset + |cls|
    ensures WritesWrappers(out, offset, cls, dir, gi, sp, h)
  {
    var p3 := ClassPhase(cls, dir, gi, sp, h);
    forall j | 0 <= j < |cls|
      ensures GenerateWrappedClass(cls[j].0, cls[j].1, dir, gi, sp, h).Success?
      ensures out[offset + j] == GenerateWrappedClass(cls[j].0, cls[j].1, dir, gi, sp, h).value
    {
      WrapperWrittenAt(cls, dir, gi, sp, h, j);
      assert out[offset + j] == p3.emitted[j];
    }
  }

  /**
   * Phase order: a successful round writes every scope-provider container,
   * then every generated interface, then every wrapper class, and each wrapper
   * is built against the completed scope-provider and generated-interface maps.
   */
  lemma WrappersSeeCompletedMaps(options: map<string, string>, roundEnv: RoundEnvironment, h: Helpers)
    requires RoundOutcome(options, roundEnv, h).result
    ensures KaptKotlinGeneratedOptionName in options
    ensures var dir := options[KaptKotlinGeneratedOptionName];
      var sps, ifs, cls := roundEnv.scopeProviders, roundEnv.interfaces, roundEnv.classes;
      var sp := ScopeProviderPhase(sps, dir, h).acc;
      var gi := InterfacePhase(ifs, dir, h).acc;
      var out := RoundOutcome(options, roundEnv, h).emitted;
      && |out| == |sps| + |ifs| + |cls|
      && WritesScopeProviders(out, 0, sps, dir, h)
      && WritesInterfaces(out, |sps|, ifs, dir, h)
      && WritesWrappers(out, |sps| + |ifs|, cls, dir, gi, sp, h)
  {
    RoundPhases(options, roundEnv, h);
    var dir := options[KaptKotlinGeneratedOptionName];
    var sps, ifs, cls := roundEnv.scopeProviders, roundEnv.interfaces, roundEnv.classes;
    var p1 := ScopeProviderPhase(sps, dir, h);
    var p2 := InterfacePhase(ifs, dir, h);
    var p3 := ClassPhase(cls, dir, p2.acc, p1.acc, h);
    var out := RoundOutcome(options, roundEnv, h).emitted;
    ScopeProvidersWrittenFirst(sps, dir, h, p2.emitted, p3.emitted, out);
    InterfacesWrittenBetween(ifs, dir, h, p1.emitted, p3.emitted, out, |sps|);
    WrappersWrittenLast(cls, dir, p2.acc, p1.acc, h, p1.emitted + p2.emitted, out, |sps| + |ifs|);
  }

  /**
   * A wrapper built in the round implements the generated interface it was
   * matched with: substituted for the declared superinterface it was
   * generated from, or appended when it was generated from the class itself.
   * Without a match it implements its declared superinterfaces verbatim.
   */
  lemma WrapperImplementsMatchedInterface(
    e: Element, annotation: ToNativeClass, dir: string,
    gi: map<TypeName, GeneratedSuperInterface>, sp: map<TypeName, Member>, h: Helpers)
    requires e.metadata.Success?
    ensures var spec := e.metadata.value;
      var link := MatchGeneratedInterface(spec.superinterfaces, GetClassName(e), gi);
      var supers := GenerateWrappedClass(e, annotation, dir, gi, sp, h).value.content.typeSpec.superinterfaces;
      && (link.Some? ==> link.value.generated.name in supers)
      && (link.None? ==> supers == spec.superinterfaces)
  {
    var spec := e.metadata.value;
    var link := MatchGeneratedInterface(spec.superinterfaces, GetClassName(e), gi);
    WrapperClassBuilder.SuperInterfacesAt(spec.superinterfaces, GetClassName(e), link);
    if link.None? {
      WrapperClassBuilder.UnlinkedKeepsSuperinterfaces(spec.superinterfaces, GetClassName(e));
    } else {
      var cands := spec.superinterfaces + [GetClassName(e)];
      var i :| FirstKeyAt(cands, gi, i) && cands[i] == link.value.originalName;
      if i < |spec.superinterfaces| {
        assert spec.superinterfaces[i] == cands[i];
      }
    }
  }

  /**
   * Every suspend or flow function of a wrapper launches on the scope provider
   * the annotation's `launchOnScope` names, or on `null` when that type has no
   * provider; the wrapped call is the original function's invocation.
   */
  lemma WrapperUsesScopeProvider(
    e: Element, annotation: ToNativeClass, dir: string,
    gi: map<TypeName, GeneratedSuperInterface>, sp: map<TypeName, Member>, h: Helpers, i: nat)
    requires e.metadata.Success? && i < |e.metadata.value.funSpecs|
    ensures var f := e.metadata.value.funSpecs[i];
      var w := GenerateWrappedClass(e, annotation, dir, gi, sp, h).value.content.typeSpec.funSpecs[i];
      var invocation := WrapperClassBuilder.AsInvocation(f);
      && (Suspend in f.modifiers ==> w.body == SuspendWrapperStmt(ScopeProviderFor(annotation, sp), invocation))
      && (Suspend !in f.modifiers && h.isFlow(f.returnType) ==>
            w.body == FlowWrapperStmt(ScopeProviderFor(annotation, sp), invocation))
  {
  }

  /**
   * The reason for the phase order: in a successful round, a wrapper whose
   * `launchOnScope` names an exported scope provider of the same round
   * launches its suspend and flow functions on the property generated for a
   * provider of that class name.
   */
  lemma WrapperLaunchesOnExportedScope(options: map<string, string>, roundEnv: RoundEnvironment, h: Helpers, j: nat, k: nat, i: nat)
    requires RoundOutcome(options, roundEnv, h).result
    requires j < |roundEnv.classes| && k < |roundEnv.scopeProviders|
    requires roundEnv.classes[j].1.launchOnScope == Mirrored(GetClassName(roundEnv.scopeProviders[k]))
    requires roundEnv.classes[j].0.metadata.Success? && i < |roundEnv.classes[j].0.metadata.value.funSpecs|
    ensures var sps, ifs := roundEnv.scopeProviders, roundEnv.interfaces;
      var out := RoundOutcome(options, roundEnv, h).emitted;
      && |sps| + |ifs| + j < |out|
      && out[|sps| + |ifs| + j].content.TypeFile?
      && i < |out[|sps| + |ifs| + j].content.typeSpec.funSpecs|
      && var w := out[|sps| + |ifs| + j].content.typeSpec.funSpecs[i];
         (w.body.SuspendWrapperStmt? || w.body.FlowWrapperStmt?) ==>
           exists k' :: 0 <= k' < |sps| && GetClassName(sps[k']) == GetClassName(sps[k])
             && sps[k'].metadata.Success?
             && w.body.scope == Some(h.scopeProviderProperty(sps[k'].packageName, sps[k'].metadata.value))
  {
    var dir := options[KaptKotlinGeneratedOptionName];
    var sps, ifs, cls := roundEnv.scopeProviders, roundEnv.interfaces, roundEnv.classes;
    WrappersSeeCompletedMaps(options, roundEnv, h);
    ScopeProviderPhaseSpec(sps, dir, h);
    var sp := ScopeProviderPhase(sps, dir, h).acc;
    var gi := InterfacePhase(ifs, dir, h).acc;
    ScopeProviderMapKeys(sps, dir, h);
    ScopeProviderMapEntries(sps, dir, h);
    var key := GetClassName(sps[k]);
    assert key in sp;
    var e, annotation := cls[j].0, cls[j].1;
    assert ScopeProviderFor(annotation, sp) == Some(sp[key]);
    WrapperUsesScopeProvider(e, annotation, dir, gi, sp, h, i);
    var k' :| 0 <= k' < |sps| && GetClassName(sps[k']) == key
      && GenerateScopeProvider(sps[k'], dir, h).Success? && sp[key] == GenerateScopeProvider(sps[k'], dir, h).value.1;
    assert sp[key] == h.scopeProviderProperty(sps[k'].packageName, sps[k'].metadata.value);
  }

  /** When some declared superinterface has a generated interface, the class itself is not the match. */
  lemma SuperinterfaceMatchesBeforeClass(
    superInterfacesOfClass: seq<TypeName>, className: TypeName, gi: map<TypeName, GeneratedSuperInterface>, k: nat)
    requires k < |superInterfacesOfClass| && superInterfacesOfClass[k] in gi
    ensures var r := MatchGeneratedInterface(superInterfacesOfClass, className, gi);
      r.Some? && r.value.originalName in superInterfacesOfClass[..k + 1]
  {
    var cands := superInterfacesOfClass + [className];
    var r := MatchGeneratedInterface(superInterfacesOfClass, className, gi);
    assert cands[k] in gi;
    var i :| FirstKeyAt(cands, gi, i) && cands[i] == r.value.originalName;
    assert i <= k;
    assert superInterfacesOfClass[..k + 1][i] == cands[i];
  }

  // ---------------------------------------------------------------------------
  // process
  // ---------------------------------------------------------------------------

  /** The `map { generateScopeProvider(...) }.toMap()` of `process`, stopping at the first exception. */
  method GenerateScopeProviders(elements: seq<Element>, kaptGeneratedDir: string, h: Helpers)
    returns (thrown: Option<Throwable>, scopeProviders: map<TypeName, Member>, written: seq<EmittedFile>)
    ensures ScopeProviderPhase(elements, kaptGeneratedDir, h)
      == if thrown.None? then Running(scopeProviders, written) else Failed(thrown.value, written)
  {
    thrown, scopeProviders, written := None, map[], [];
    var i := 0;
    while i < |elements| && thrown.None?
      invariant 0 <= i <= |elements|
      invariant ScopeProviderPhase(elements[..i], kaptGeneratedDir, h)
        == if thrown.None? then Running(scopeProviders, written) else Failed(thrown.value, written)
    {
      assert elements[..i + 1][..i] == elements[..i];
      match GenerateScopeProvider(elements[i], kaptGeneratedDir, h) {
        case Failure(err) =>
          thrown := Some(err);
        case Success((originalClassName, propertySpec, file)) =>
          scopeProviders := scopeProviders[originalClassName := propertySpec];
          written := written + [file];
      }
      i := i + 1;
    }
    if thrown.Some? {
      ScopeProviderPhaseStaysFailed(elements, i, kaptGeneratedDir, h);
    } else {
      assert elements[..i] == elements;
    }
  }

  /** The `map { generateInterface(...) }.toMap()` of `process`, stopping at the first exception. */
  method GenerateInterfaces(elements: seq<(Element, ToNativeInterface)>, kaptGeneratedDir: string, h: Helpers)
    returns (thrown: Option<Throwable>, generatedInterfaces: map<TypeName, GeneratedSuperInterface>, written: seq<EmittedFile>)
    ensures InterfacePhase(elements, kaptGeneratedDir, h)
      == if thrown.None? then Running(generatedInterfaces, written) else Failed(thrown.value, written)
  {
    thrown, generatedInterfaces, written := None, map[], [];
    var i := 0;
    while i < |elements| && thrown.None?
      invariant 0 <= i <= |elements|
      invariant InterfacePhase(elements[..i], kaptGeneratedDir, h)
        == if thrown.None? then Running(generatedInterfaces, written) else Failed(thrown.value, written)
    {
      assert elements[..i + 1][..i] == elements[..i];
      match GenerateInterface(elements[i].0, elements[i].1, kaptGeneratedDir, h) {
        case Failure(err) =>
          thrown := Some(err);
        case Success((typeName, generated, file)) =>
          generatedInterfaces := generatedInterfaces[typeName := generated];
          written := written + [file];
      }
      i := i + 1;
    }
    if thrown.Some? {
      InterfacePhaseStaysFailed(elements, i, kaptGeneratedDir, h);
    } else {
      assert elements[..i] == elements;
    }
  }

  /** The `forEach { generateWrappedClasses(...) }` of `process`, stopping at the first exception. */
  method GenerateWrappedClasses(
    elements: seq<(Element, ToNativeClass)>,
    kaptGeneratedDir: string,
    generatedInterfaces: map<TypeName, GeneratedSuperInterface>,
    scopeProviders: map<TypeName, Member>,
    h: Helpers)
    returns (thrown: Option<Throwable>, written: seq<EmittedFile>)
    ensures ClassPhase(elements, kaptGeneratedDir, generatedInterfaces, scopeProviders, h)
      == if thrown.None? then Running((), written) else Failed(thrown.value, written)
  {
    thrown, written := None, [];
    var i := 0;
    while i < |elements| && thrown.None?
      invariant 0 <= i <= |elements|
      invariant ClassPhase(elements[..i], kaptGeneratedDir, generatedInterfaces, scopeProviders, h)
        == if thrown.None? then Running((), written) else Failed(thrown.value, written)
    {
      ClassPhaseExtend(elements, kaptGeneratedDir, generatedInterfaces, scopeProviders, h, i);
      var element, annotation := elements[i].0, elements[i].1;
      match element.metadata {
        case Failure(err) =>
          thrown := Some(err);
        case Success(typeSpec) =>
          var originalTypeName := GetClassName(element);
          var generatedClassName := WrapperName(element, annotation);
          var link := MatchGeneratedInterfaceName(typeSpec.superinterfaces, originalTypeName, generatedInterfaces);
          var scopeProviderSpec := ObtainScopeProviderSpec(annotation, scopeProviders);
          var classToGenerateSpec := WrapperClassBuilder.Build(
            originalTypeName, typeSpec, generatedClassName, link, scopeProviderSpec, h);
          written := written + [EmittedFile(kaptGeneratedDir, originalTypeName.packageName, generatedClassName, TypeFile(classToGenerateSpec))];
      }
      i := i + 1;
    }
    if thrown.Some? {
      ClassPhaseStaysFailed(elements, i, kaptGeneratedDir, generatedInterfaces, scopeProviders, h);
    } else {
      assert elements[..i] == elements;
    }
  }

  /**
   * `process`: the try block runs the three phases in order, each file written
   * as it is generated; the first exception ends the round with one ERROR
   * message and `false`, the files already written staying written.
   */
  method Process(options: map<string, string>, roundEnv: RoundEnvironment, h: Helpers)
    returns (result: bool, diagnostics: seq<Diagnostic>, emitted: seq<EmittedFile>)
    ensures Outcome(result, diagnostics, emitted) == RoundOutcome(options, roundEnv, h)
  {
    if KaptKotlinGeneratedOptionName !in options {
      return false, [ErrorMessage(MissingGeneratedDir)], [];
    }
    var kaptGeneratedDir := options[KaptKotlinGeneratedOptionName];

    var thrown, scopeProviders, written := GenerateScopeProviders(roundEnv.scopeProviders, kaptGeneratedDir, h);
    emitted := written;
    if thrown.Some? {
      return false, [ErrorMessage(thrown.value)], emitted;
    }

    var generatedInterfaces;
    thrown, generatedInterfaces, written := GenerateInterfaces(roundEnv.interfaces, kaptGeneratedDir, h);
    emitted := emitted + written;
    if thrown.Some? {
      return false, [ErrorMessage(thrown.value)], emitted;
    }

    thrown, written := GenerateWrappedClasses(roundEnv.classes, kaptGeneratedDir, generatedInterfaces, scopeProviders, h);
    emitted := emitted + written;
    if thrown.Some? {
      return false, [ErrorMessage(thrown.value)], emitted;
    }
    return true, [], emitted;
  }
}
