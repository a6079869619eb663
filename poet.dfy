/**
 * The declaration model the processor works on: the parts of KotlinPoet's
 * TypeName, ParameterSpec, FunSpec, PropertySpec and TypeSpec that the
 * transformations read or write.
 */
module Poet {
  import opened Wrappers

  /** A type reference: package, simple name and type arguments; equality is structural. */
  datatype TypeName = TypeName(packageName: string, simpleName: string, typeArguments: seq<TypeName>)

  /** KotlinPoet's `ClassName(packageName, simpleName)`: a type reference without arguments. */
  function ClassName(packageName: string, simpleName: string): TypeName
  {
    TypeName(packageName, simpleName, [])
  }

  datatype Modifier =
    | Public | Protected | Internal | Private
    | Open | Final | Abstract | Override
    | Suspend | Inline | Operator | Infix | Tailrec | External

  /** A function parameter; signature matching compares name and type, in order. */
  datatype Param = Param(name: string, paramType: TypeName)

  /**
   * A member reference emitted into generated code (KotlinPoet's MemberName).
   * The property built for a scope provider is represented by its reference.
   */
  datatype Member = Member(packageName: string, simpleName: string)

  /**
   * A function body. Originals carry whatever metadata reconstruction put there
   * (`Stub`) or nothing; every wrapper function carries exactly one generated
   * statement. A `None` scope is the literal `null` argument.
   */
  datatype Body =
    | NoBody
    | Stub
    | SuspendWrapperStmt(scope: Option<Member>, invocation: string)
    | FlowWrapperStmt(scope: Option<Member>, invocation: string)
    | ReturnStmt(invocation: string)

  datatype Fun = Fun(name: string, params: seq<Param>, returnType: TypeName, modifiers: set<Modifier>, body: Body)

  /** Two functions have the same signature iff their names and parameter lists are equal. */
  predicate SameSignature(f: Fun, g: Fun)
  {
    f.name == g.name && f.params == g.params
  }

  datatype Property = Property(name: string, propertyType: TypeName, modifiers: set<Modifier>, initializer: string)

  datatype Kind = ClassKind | InterfaceKind

  /**
   * A type declaration. `superinterfaces` lists the keys of KotlinPoet's
   * superinterface map in their insertion order.
   */
  datatype TypeSpec = TypeSpec(
    kind: Kind,
    name: string,
    superinterfaces: seq<TypeName>,
    funSpecs: seq<Fun>,
    primaryConstructor: Option<seq<Param>>,
    propertySpecs: seq<Property>)

  /** An interface generated by the processor: its reference and its declaration. */
  datatype GeneratedSuperInterface = GeneratedSuperInterface(name: TypeName, typeSpec: TypeSpec)

  /** A generated interface together with the original type it was generated from. */
  datatype OriginalToGeneratedInterface = OriginalToGeneratedInterface(originalName: TypeName, generated: GeneratedSuperInterface)

  /**
   * Helpers of the processor whose code is not part of this model, as
   * uninterpreted functions:
   *  - `isFlow`: whether a return type is a flow;
   *  - `setReturnType`: the return type an interface function declares, given
   *    whether the builder is still `suspend` and the original return type;
   *  - `addReturnStatement`: the return type a wrapper function declares, given
   *    the same two inputs;
   *  - `scopeProviderProperty`: the property `ScopeProviderBuilder` builds from
   *    a package name and a scope provider's declaration.
   */
  datatype Helpers = Helpers(
    isFlow: TypeName -> bool,
    setReturnType: (bool, TypeName) -> TypeName,
    addReturnStatement: (bool, TypeName) -> TypeName,
    scopeProviderProperty: (string, TypeSpec) -> Member)
}
