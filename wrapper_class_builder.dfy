/**
 * Wrapper-class synthesis: a class that holds the original instance in a
 * private `wrapped` property and forwards every function to it, bridging
 * suspend functions and flows.
 */
module WrapperClassBuilder {
  import opened Wrappers
  import opened Poet
  import WrapperInterfaceBuilder

  const WrappedPropertyName: string := "wrapped"

  // ---------------------------------------------------------------------------
  // asInvocation
  // ---------------------------------------------------------------------------

  /** `joinToString(", ")`. */
  function JoinNames(names: seq<string>): string
  {
    if names == [] then ""
    else if |names| == 1 then names[0]
    else names[0] + ", " + JoinNames(names[1..])
  }

  function ParamNames(params: seq<Param>): (names: seq<string>)
    ensures |names| == |params|
    ensures forall i :: 0 <= i < |params| ==> names[i] == params[i].name
  {
    seq(|params|, i requires 0 <= i < |params| => params[i].name)
  }

  /** The delegate call written into every wrapper body: `wrapped.f(a, b)`. */
  function AsInvocation(f: Fun): (s: string)
    ensures |s| == |WrappedPropertyName| + |f.name| + |JoinNames(ParamNames(f.params))| + 3
    ensures s[..|WrappedPropertyName| + 1] == WrappedPropertyName + "."
    ensures s[|WrappedPropertyName| + 1..|WrappedPropertyName| + 1 + |f.name|] == f.name
    ensures s[|WrappedPropertyName| + 1 + |f.name|] == '(' && s[|s| - 1] == ')'
  {
    WrappedPropertyName + "." + f.name + "(" + JoinNames(ParamNames(f.params)) + ")"
  }

  /** A name the invocation text can be read back from: non-empty, without `,` or `(`. */
  predicate IsIdentifier(s: string)
  {
    |s| > 0 && ',' !in s && '(' !in s
  }

  /** The first position of `c` in `s`. */
  function IndexOf(s: string, c: char): (r: Option<nat>)
    ensures r.None? <==> c !in s
    ensures r.Some? ==> r.value < |s| && s[r.value] == c && c !in s[..r.value]
  {
    if s == [] then None
    else if s[0] == c then Some(0)
    else match IndexOf(s[1..], c)
      case None => None
      case Some(k) => assert s[..k + 1] == [s[0]] + s[1..][..k]; Some(k + 1)
  }

  /** Splits `s` at every `", "`; `current` is the piece read so far. */
  function SplitAt(s: string, current: string): seq<string>
    decreases |s|
  {
    if s == [] then [current]
    else if |s| >= 2 && s[0] == ',' && s[1] == ' ' then [current] + SplitAt(s[2..], "")
    else SplitAt(s[1..], current + [s[0]])
  }

  function SplitArgs(s: string): seq<string>
  {
    if s == [] then [] else SplitAt(s, "")
  }

  /** Reads an invocation text back into the called name and the argument names. */
  function ParseInvocation(s: string): Option<(string, seq<string>)>
  {
    var p := |WrappedPropertyName| + 1;
    if |s| < p + 2 || s[..p] != WrappedPropertyName + "." || s[|s| - 1] != ')' then None
    else
      var inner := s[p..|s| - 1];
      match IndexOf(inner, '(')
      case None => None
      case Some(k) => Some((inner[..k], SplitArgs(inner[k + 1..])))
  }

  lemma {:induction false} SplitAtSkipsName(w: string, rest: string, current: string)
    requires ',' !in w
    ensures SplitAt(w + rest, current) == SplitAt(rest, current + w)
  {
    if w != [] {
      assert (w + rest)[0] == w[0];
      assert (w + rest)[1..] == w[1..] + rest;
      assert ',' !in w[1..];
      SplitAtSkipsName(w[1..], rest, current + [w[0]]);
      assert current + [w[0]] + w[1..] == current + w;
    } else {
      assert w + rest == rest && current + w == current;
    }
  }

  lemma {:induction false} JoinNamesNonEmpty(names: seq<string>)
    requires |names| > 0 && IsIdentifier(names[0])
    ensures JoinNames(names) != [] && JoinNames(names)[0] == names[0][0]
  {
    if |names| > 1 {
      assert JoinNames(names) == names[0] + (", " + JoinNames(names[1..]));
    }
  }

  lemma {:induction false} SplitJoin(names: seq<string>)
    requires forall k :: 0 <= k < |names| ==> IsIdentifier(names[k])
    ensures SplitArgs(JoinNames(names)) == names
  {
    if |names| == 1 {
      SplitAtSkipsName(names[0], "", "");
      assert names[0] + "" == names[0];
      assert [] + names[0] == names[0];
    } else if |names| > 1 {
      var tail := names[1..];
      var rest := JoinNames(tail);
      var sep := ", " + rest;
      SplitJoin(tail);
      assert IsIdentifier(tail[0]);
      JoinNamesNonEmpty(tail);
      assert JoinNames(names) == names[0] + sep;
      JoinNamesNonEmpty(names);
      SplitAtSkipsName(names[0], sep, "");
      assert [] + names[0] == names[0];
      assert sep[0] == ',' && sep[1] == ' ' && sep[2..] == rest;
      calc {
        SplitArgs(JoinNames(names));
        SplitAt(names[0] + sep, "");
        SplitAt(sep, names[0]);
        [names[0]] + SplitAt(rest, "");
        [names[0]] + SplitArgs(rest);
        [names[0]] + tail;
        names;
      }
    }
  }

  /**
   * The invocation names the original function and passes its parameters by
   * name in declaration order: it reads back to exactly those names.
   */
  lemma InvocationRoundTrip(f: Fun)
    requires IsIdentifier(f.name)
    requires forall k :: 0 <= k < |f.params| ==> IsIdentifier(f.params[k].name)
    ensures ParseInvocation(AsInvocation(f)) == Some((f.name, ParamNames(f.params)))
  {
    var names := ParamNames(f.params);
    var args := JoinNames(names);
    var s := AsInvocation(f);
    var p := |WrappedPropertyName| + 1;
    assert s == (WrappedPropertyName + ".") + (f.name + "(" + args) + ")";
    var inner := f.name + "(" + args;
    assert s[..p] == WrappedPropertyName + ".";
    assert s[|s| - 1] == ')';
    assert s[p..|s| - 1] == inner;
    assert inner[..|f.name|] == f.name;
    assert inner[|f.name|] == '(';
    assert IndexOf(inner, '(') == Some(|f.name|);
    assert inner[|f.name| + 1..] == args;
    SplitJoin(names);
  }

  // ---------------------------------------------------------------------------
  // The forwarding functions
  // ---------------------------------------------------------------------------

  /** `addMissingOverrideModifier`: the linked generated interface declares `f`'s signature. */
  predicate DeclaresSignature(link: Option<OriginalToGeneratedInterface>, f: Fun)
  {
    link.Some? && exists g :: g in link.value.generated.typeSpec.funSpecs && SameSignature(g, f)
  }

  /**
   * `addFunctionBody`: decided on the builder copied from the original, so
   * `suspend` is still present and takes precedence over a flow return type.
   */
  function ForwardingBody(f: Fun, scopeProviderMemberName: Option<Member>, h: Helpers): (b: Body)
    ensures b.SuspendWrapperStmt? <==> Suspend in f.modifiers
    ensures b.FlowWrapperStmt? <==> Suspend !in f.modifiers && h.isFlow(f.returnType)
    ensures b.ReturnStmt? <==> Suspend !in f.modifiers && !h.isFlow(f.returnType)
    ensures b.SuspendWrapperStmt? || b.FlowWrapperStmt? ==> b.scope == scopeProviderMemberName
    ensures (b.SuspendWrapperStmt? || b.FlowWrapperStmt? || b.ReturnStmt?) && b.invocation == AsInvocation(f)
  {
    if Suspend in f.modifiers then SuspendWrapperStmt(scopeProviderMemberName, AsInvocation(f))
    else if h.isFlow(f.returnType) then FlowWrapperStmt(scopeProviderMemberName, AsInvocation(f))
    else ReturnStmt(AsInvocation(f))
  }

  lemma DeclaredSignatureIsKept(funs: seq<Fun>, link: Option<OriginalToGeneratedInterface>, h: Helpers, f: Fun)
    requires link.Some? && link.value.generated.typeSpec.funSpecs == WrapperInterfaceBuilder.InterfaceFunctions(funs, h)
    requires DeclaresSignature(link, f)
    ensures exists i :: 0 <= i < |funs| && Private !in funs[i].modifiers && SameSignature(funs[i], f)
  {
    var r := WrapperInterfaceBuilder.InterfaceFunctions(funs, h);
    var g :| g in r && SameSignature(g, f);
    var k :| 0 <= k < |r| && r[k] == g;
    var idx := WrapperInterfaceBuilder.KeptPositions(funs);
    WrapperInterfaceBuilder.InterfaceFunctionsAreKeptInOrder(funs, h);
    assert SameSignature(funs[idx[k]], f);
  }

  lemma KeptSignatureIsDeclared(funs: seq<Fun>, link: Option<OriginalToGeneratedInterface>, h: Helpers, f: Fun, i: nat)
    requires link.Some? && link.value.generated.typeSpec.funSpecs == WrapperInterfaceBuilder.InterfaceFunctions(funs, h)
    requires i < |funs| && Private !in funs[i].modifiers && SameSignature(funs[i], f)
    ensures DeclaresSignature(link, f)
  {
    var r := WrapperInterfaceBuilder.InterfaceFunctions(funs, h);
    var idx := WrapperInterfaceBuilder.KeptPositions(funs);
    WrapperInterfaceBuilder.InterfaceFunctionsAreKeptInOrder(funs, h);
    var k :| 0 <= k < |idx| && idx[k] == i;
    assert r[k] in r && SameSignature(r[k], f);
  }

  /**
   * Linked to an interface generated from the same functions, a function's
   * signature is declared there iff some non-private original has it.
   */
  lemma DeclaresSignatureIffKept(funs: seq<Fun>, link: Option<OriginalToGeneratedInterface>, h: Helpers, f: Fun)
    requires link.Some? && link.value.generated.typeSpec.funSpecs == WrapperInterfaceBuilder.InterfaceFunctions(funs, h)
    ensures DeclaresSignature(link, f) <==>
      exists i :: 0 <= i < |funs| && Private !in funs[i].modifiers && SameSignature(funs[i], f)
  {
    if DeclaresSignature(link, f) {
      DeclaredSignatureIsKept(funs, link, h, f);
    }
    if exists i :: 0 <= i < |funs| && Private !in funs[i].modifiers && SameSignature(funs[i], f) {
      var i :| 0 <= i < |funs| && Private !in funs[i].modifiers && SameSignature(funs[i], f);
      KeptSignatureIsDeclared(funs, link, h, f, i);
    }
  }

  /** One forwarding function of the wrapper class. */
  function ForwardingFunction(f: Fun, link: Option<OriginalToGeneratedInterface>, scopeProviderMemberName: Option<Member>, h: Helpers): (g: Fun)
    ensures SameSignature(g, f)
    ensures g.returnType == h.addReturnStatement(Suspend in f.modifiers, f.returnType)
    ensures Suspend !in g.modifiers && Abstract !in g.modifiers
    ensures Override in g.modifiers <==> Override in f.modifiers || DeclaresSignature(link, f)
    ensures forall m :: m != Suspend && m != Abstract && m != Override ==> (m in g.modifiers <==> m in f.modifiers)
    ensures g.body.SuspendWrapperStmt? <==> Suspend in f.modifiers
    ensures g.body.FlowWrapperStmt? <==> Suspend !in f.modifiers && h.isFlow(f.returnType)
    ensures g.body.ReturnStmt? <==> Suspend !in f.modifiers && !h.isFlow(f.returnType)
    ensures g.body.SuspendWrapperStmt? || g.body.FlowWrapperStmt? ==> g.body.scope == scopeProviderMemberName
    ensures (g.body.SuspendWrapperStmt? || g.body.FlowWrapperStmt? || g.body.ReturnStmt?) && g.body.invocation == AsInvocation(f)
  {
    Fun(f.name, f.params,
        h.addReturnStatement(Suspend in f.modifiers, f.returnType),
        f.modifiers - {Suspend, Abstract} + (if DeclaresSignature(link, f) then {Override} else {}),
        ForwardingBody(f, scopeProviderMemberName, h))
  }

  /** The `funSpecs.map { ... }` of the builder. */
  function ForwardingFunctions(funs: seq<Fun>, link: Option<OriginalToGeneratedInterface>, scopeProviderMemberName: Option<Member>, h: Helpers): (r: seq<Fun>)
    ensures |r| == |funs|
    ensures forall i :: 0 <= i < |funs| ==> r[i] == ForwardingFunction(funs[i], link, scopeProviderMemberName, h)
  {
    seq(|funs|, i requires 0 <= i < |funs| => ForwardingFunction(funs[i], link, scopeProviderMemberName, h))
  }

  // ---------------------------------------------------------------------------
  // Superinterfaces
  // ---------------------------------------------------------------------------

  /** A declared superinterface is replaced by the generated one when it is the linked original. */
  predicate Substitutes(link: Option<OriginalToGeneratedInterface>, superinterface: TypeName)
  {
    link.Some? && link.value.originalName == superinterface
  }

  /** The generated interface is appended when it was generated from the wrapped type itself. */
  predicate Appends(originalTypeName: TypeName, link: Option<OriginalToGeneratedInterface>)
  {
    link.Some? && link.value.originalName == originalTypeName
  }

  function SubstitutedSuperinterfaces(supers: seq<TypeName>, link: Option<OriginalToGeneratedInterface>): (r: seq<TypeName>)
    ensures |r| == |supers|
  {
    if supers == [] then []
    else
      var n := |supers| - 1;
      SubstitutedSuperinterfaces(supers[..n], link)
        + [if Substitutes(link, supers[n]) then link.value.generated.name else supers[n]]
  }

  /** The class's superinterface list: the substituted originals, then the optional appended one. */
  function SuperInterfaces(supers: seq<TypeName>, originalTypeName: TypeName, link: Option<OriginalToGeneratedInterface>): (r: seq<TypeName>)
    ensures |r| == |supers| + (if Appends(originalTypeName, link) then 1 else 0)
  {
    SubstitutedSuperinterfaces(supers, link) + (if Appends(originalTypeName, link) then [link.value.generated.name] else [])
  }

  /**
   * Position by position, a declared superinterface is kept unless it is the
   * linked original, which becomes the generated interface; the generated
   * interface is appended exactly when it was generated from the wrapped type.
   */
  lemma {:induction false} SuperInterfacesAt(supers: seq<TypeName>, originalTypeName: TypeName, link: Option<OriginalToGeneratedInterface>)
    ensures var r := SuperInterfaces(supers, originalTypeName, link);
      && (forall i :: 0 <= i < |supers| ==>
            r[i] == (if Substitutes(link, supers[i]) then link.value.generated.name else supers[i]))
      && (Appends(originalTypeName, link) ==> r[|supers|] == link.value.generated.name)
  {
    SubstitutedAt(supers, link);
  }

  lemma {:induction false} SubstitutedAt(supers: seq<TypeName>, link: Option<OriginalToGeneratedInterface>)
    ensures forall i :: 0 <= i < |supers| ==>
      SubstitutedSuperinterfaces(supers, link)[i] == (if Substitutes(link, supers[i]) then link.value.generated.name else supers[i])
  {
    if supers != [] {
      var n := |supers| - 1;
      SubstitutedAt(supers[..n], link);
      forall i | 0 <= i < n
        ensures SubstitutedSuperinterfaces(supers, link)[i] == (if Substitutes(link, supers[i]) then link.value.generated.name else supers[i])
      {
        assert supers[..n][i] == supers[i];
      }
    }
  }

  /** Without a link, the wrapper implements the declared superinterfaces verbatim. */
  lemma {:induction false} UnlinkedKeepsSuperinterfaces(supers: seq<TypeName>, originalTypeName: TypeName)
    ensures SuperInterfaces(supers, originalTypeName, None) == supers
  {
    SuperInterfacesAt(supers, originalTypeName, None);
  }

  // ---------------------------------------------------------------------------
  // build()
  // ---------------------------------------------------------------------------

  /** The `wrapped` primary-constructor parameter of the original type. */
  function ConstructorParams(originalTypeName: TypeName): (ps: seq<Param>)
    ensures |ps| == 1 && ps[0].name == WrappedPropertyName && ps[0].paramType == originalTypeName
  {
    [Param(WrappedPropertyName, originalTypeName)]
  }

  /** The private `wrapped` property initialised from the constructor parameter. */
  function WrappedProperty(originalTypeName: TypeName): (p: Property)
    ensures p.name == WrappedPropertyName && p.propertyType == originalTypeName
    ensures p.modifiers == {Private} && p.initializer == WrappedPropertyName
  {
    Property(WrappedPropertyName, originalTypeName, {Private}, WrappedPropertyName)
  }

  /** `WrapperClassBuilder(...).build()`. */
  function Build(
    originalTypeName: TypeName,
    originalTypeSpec: TypeSpec,
    newTypeName: string,
    originalToGeneratedInterface: Option<OriginalToGeneratedInterface>,
    scopeProviderMemberName: Option<Member>,
    h: Helpers): (t: TypeSpec)
    ensures t.kind == ClassKind && t.name == newTypeName
    ensures t.primaryConstructor == Some([Param(WrappedPropertyName, originalTypeName)])
    ensures |t.propertySpecs| == 1
    ensures var p := t.propertySpecs[0];
      p.name == WrappedPropertyName && p.propertyType == originalTypeName
      && p.modifiers == {Private} && p.initializer == WrappedPropertyName
    ensures t.funSpecs == ForwardingFunctions(originalTypeSpec.funSpecs, originalToGeneratedInterface, scopeProviderMemberName, h)
    ensures t.superinterfaces == SuperInterfaces(originalTypeSpec.superinterfaces, originalTypeName, originalToGeneratedInterface)
  {
    TypeSpec(
      ClassKind,
      newTypeName,
      SuperInterfaces(originalTypeSpec.superinterfaces, originalTypeName, originalToGeneratedInterface),
      ForwardingFunctions(originalTypeSpec.funSpecs, originalToGeneratedInterface, scopeProviderMemberName, h),
      Some(ConstructorParams(originalTypeName)),
      [WrappedProperty(originalTypeName)])
  }

  /**
   * A wrapper linked to an interface generated from the same functions
   * overrides every non-private one. The interface declares the same signature;
   * its return type comes from `setReturnType` and the wrapper's from
   * `addReturnStatement`, both given the original's `suspend` flag and return type.
   */
  lemma OverridesGeneratedInterface(
    spec: TypeSpec,
    link: Option<OriginalToGeneratedInterface>,
    scope: Option<Member>,
    h: Helpers,
    i: nat)
    requires link.Some?
    requires link.value.generated.typeSpec.funSpecs == WrapperInterfaceBuilder.InterfaceFunctions(spec.funSpecs, h)
    requires i < |spec.funSpecs| && Private !in spec.funSpecs[i].modifiers
    ensures var f := spec.funSpecs[i];
      var w := ForwardingFunctions(spec.funSpecs, link, scope, h)[i];
      && Override in w.modifiers
      && w.returnType == h.addReturnStatement(Suspend in f.modifiers, f.returnType)
      && exists g :: (g in link.value.generated.typeSpec.funSpecs && SameSignature(g, w)
           && g.returnType == h.setReturnType(Suspend in f.modifiers, f.returnType))
  {
    var f := spec.funSpecs[i];
    WrapperInterfaceBuilder.KeptIffNotPrivate(spec.funSpecs, h, f);
    var g := WrapperInterfaceBuilder.InterfaceFunction(f, h);
    assert g in link.value.generated.typeSpec.funSpecs && SameSignature(g, f);
  }
}
