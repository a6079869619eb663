/**
 * Interface synthesis: from a type's declaration, an interface holding every
 * non-private function as an abstract, non-suspend declaration without body.
 */
module WrapperInterfaceBuilder {
  import opened Wrappers
  import opened Poet

  /** The interface counterpart of one original function. */
  function InterfaceFunction(f: Fun, h: Helpers): (g: Fun)
    ensures SameSignature(g, f)
    ensures g.returnType == h.setReturnType(Suspend in f.modifiers, f.returnType)
    ensures Suspend !in g.modifiers && Abstract in g.modifiers && g.body == NoBody
    ensures forall m :: m != Suspend && m != Abstract ==> (m in g.modifiers <==> m in f.modifiers)
  {
    Fun(f.name, f.params, h.setReturnType(Suspend in f.modifiers, f.returnType),
        f.modifiers - {Suspend} + {Abstract}, NoBody)
  }

  /** The `filter { not private }.map { ... }` pipeline over the original functions. */
  function InterfaceFunctions(funs: seq<Fun>, h: Helpers): (r: seq<Fun>)
    ensures |r| <= |funs|
    ensures forall g :: g in r ==>
      Private !in g.modifiers && Suspend !in g.modifiers && Abstract in g.modifiers && g.body == NoBody
  {
    if funs == [] then []
    else
      var last := funs[|funs| - 1];
      InterfaceFunctions(funs[..|funs| - 1], h) + (if Private in last.modifiers then [] else [InterfaceFunction(last, h)])
  }

  /** The positions of the non-private functions, in increasing order. */
  function KeptPositions(funs: seq<Fun>): (idx: seq<nat>)
    ensures forall k :: 0 <= k < |idx| ==> idx[k] < |funs| && Private !in funs[idx[k]].modifiers
    ensures forall k, l :: 0 <= k < l < |idx| ==> idx[k] < idx[l]
    ensures forall i :: 0 <= i < |funs| && Private !in funs[i].modifiers ==> i in idx
  {
    if funs == [] then []
    else
      var n := |funs| - 1;
      KeptPositions(funs[..n]) + (if Private in funs[n].modifiers then [] else [n])
  }

  /** The last function extends both the output and the kept positions, or neither. */
  /** Appending the last function keeps the output aligned with the kept positions. */
  lemma KeptAppend(funs: seq<Fun>, h: Helpers, out: seq<Fun>, idx: seq<nat>)
    requires funs != [] && |out| == |idx|
    requires forall k :: 0 <= k < |idx| ==>
      idx[k] < |funs| - 1 && out[k] == InterfaceFunction(funs[..|funs| - 1][idx[k]], h)
    ensures var n := |funs| - 1; var kept := Private !in funs[n].modifiers;
      var out' := out + (if kept then [InterfaceFunction(funs[n], h)] else []);
      var idx' := idx + (if kept then [n] else []);
      && |out'| == |idx'|
      && forall k :: 0 <= k < |idx'| ==> out'[k] == InterfaceFunction(funs[idx'[k]], h)
  {
    var n := |funs| - 1;
    forall k | 0 <= k < |idx|
      ensures out[k] == InterfaceFunction(funs[idx[k]], h)
    {
      assert funs[..n][idx[k]] == funs[idx[k]];
    }
  }

  lemma KeptStep(funs: seq<Fun>, h: Helpers)
    requires funs != []
    ensures var n := |funs| - 1; var kept := Private !in funs[n].modifiers;
      && InterfaceFunctions(funs, h) == InterfaceFunctions(funs[..n], h) + (if kept then [InterfaceFunction(funs[n], h)] else [])
      && KeptPositions(funs) == KeptPositions(funs[..n]) + (if kept then [n] else [])
  {
  }

  /**
   * The generated functions are exactly the non-private originals, in their
   * original order, each turned into its interface counterpart.
   */
  lemma {:induction false} InterfaceFunctionsAreKeptInOrder(funs: seq<Fun>, h: Helpers)
    ensures |InterfaceFunctions(funs, h)| == |KeptPositions(funs)|
    ensures forall k :: 0 <= k < |KeptPositions(funs)| ==>
      InterfaceFunctions(funs, h)[k] == InterfaceFunction(funs[KeptPositions(funs)[k]], h)
  {
    if funs != [] {
      var n := |funs| - 1;
      var pre := funs[..n];
      InterfaceFunctionsAreKeptInOrder(pre, h);
      KeptStep(funs, h);
      KeptAppend(funs, h, InterfaceFunctions(pre, h), KeptPositions(pre));
    }
  }

  /** A function is carried into the interface iff it is not private. */
  lemma {:induction false} KeptIffNotPrivate(funs: seq<Fun>, h: Helpers, f: Fun)
    requires f in funs
    ensures InterfaceFunction(f, h) in InterfaceFunctions(funs, h) <== Private !in f.modifiers
    ensures forall g :: g in InterfaceFunctions(funs, h) ==>
      exists i :: 0 <= i < |funs| && Private !in funs[i].modifiers && g == InterfaceFunction(funs[i], h)
  {
    var n := |funs| - 1;
    if f == funs[n] {
    } else {
      assert f in funs[..n];
      KeptIffNotPrivate(funs[..n], h, f);
    }
    InterfaceFunctionsAreKeptInOrder(funs, h);
    var idx := KeptPositions(funs);
    forall g | g in InterfaceFunctions(funs, h)
      ensures exists i :: 0 <= i < |funs| && Private !in funs[i].modifiers && g == InterfaceFunction(funs[i], h)
    {
      var k :| 0 <= k < |InterfaceFunctions(funs, h)| && InterfaceFunctions(funs, h)[k] == g;
      assert g == InterfaceFunction(funs[idx[k]], h);
    }
  }

  /** The return-type helper leaves a type it already produced unchanged once `suspend` is gone. */
  ghost predicate StableReturnTypes(h: Helpers)
  {
    forall b, t :: h.setReturnType(false, h.setReturnType(b, t)) == h.setReturnType(b, t)
  }

  /** An interface function is its own interface counterpart. */
  lemma InterfaceFunctionFixed(f: Fun, h: Helpers)
    requires StableReturnTypes(h)
    ensures InterfaceFunction(InterfaceFunction(f, h), h) == InterfaceFunction(f, h)
  {
    var g := InterfaceFunction(f, h);
    assert g.modifiers - {Suspend} + {Abstract} == g.modifiers;
  }

  /** Appending one function appends at most its interface counterpart. */
  lemma InterfaceFunctionsSnoc(prefix: seq<Fun>, g: Fun, h: Helpers)
    ensures InterfaceFunctions(prefix + [g], h) ==
      InterfaceFunctions(prefix, h) + (if Private in g.modifiers then [] else [InterfaceFunction(g, h)])
  {
    assert (prefix + [g])[..|prefix|] == prefix;
  }

  /** Deriving an interface from a generated interface's own functions changes nothing. */
  lemma {:induction false} InterfaceFunctionsIdempotent(funs: seq<Fun>, h: Helpers)
    requires StableReturnTypes(h)
    ensures InterfaceFunctions(InterfaceFunctions(funs, h), h) == InterfaceFunctions(funs, h)
  {
    if funs != [] {
      var n := |funs| - 1;
      var prefix := InterfaceFunctions(funs[..n], h);
      InterfaceFunctionsIdempotent(funs[..n], h);
      if Private !in funs[n].modifiers {
        var g := InterfaceFunction(funs[n], h);
        assert InterfaceFunctions(funs, h) == prefix + [g];
        assert Private !in g.modifiers;
        InterfaceFunctionsSnoc(prefix, g, h);
        InterfaceFunctionFixed(funs[n], h);
        calc {
          InterfaceFunctions(prefix + [g], h);
          InterfaceFunctions(prefix, h) + [InterfaceFunction(g, h)];
          prefix + [g];
        }
      } else {
        assert InterfaceFunctions(funs, h) == prefix;
      }
    }
  }

  /** `build()`: an interface named `newTypeName` holding exactly the derived functions. */
  function Build(newTypeName: string, poetMetadataSpec: TypeSpec, h: Helpers): (t: TypeSpec)
    ensures t.kind == InterfaceKind && t.name == newTypeName
    ensures t.funSpecs == InterfaceFunctions(poetMetadataSpec.funSpecs, h)
    ensures t.superinterfaces == [] && t.primaryConstructor == None && t.propertySpecs == []
  {
    TypeSpec(InterfaceKind, newTypeName, [], InterfaceFunctions(poetMetadataSpec.funSpecs, h), None, [])
  }
}
