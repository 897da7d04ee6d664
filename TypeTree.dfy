/** Abstract syntax shared by every stage of the call-wrapper generator:
    type expressions with node identities, import declarations, handler
    signatures, action records and the statement-level syntax of a service
    definition file. */
module TypeTree {

  datatype Option<T> = None | Some(value: T)

  /** Identity of a type-reference node. Nodes of a parsed definition file
      carry a unique id (the key of the rewrite table); nodes built by the
      generator's factory calls have no source file and no id. */
  datatype Origin = Parsed(id: nat) | Synthetic

  /** `Foo`, or `Left.Right` for a qualified entity name. */
  datatype TypeName = Simple(ident: string) | Qualified(left: TypeName, right: string)

  datatype Keyword = StringKw | NumberKw | VoidKw | UndefinedKw | NeverKw | UnknownKw | AnyKw

  /** A type expression. `Composite` stands for every other kind of type node
      (union, array, function and object-literal types...), kept only for its
      ordered children. */
  datatype TypeExpr =
    | Ref(origin: Origin, name: TypeName, args: seq<TypeExpr>)
    | Kw(kw: Keyword)
    | StrLit(text: string)
    | NumLit(num: nat)
    | Conditional(check: TypeExpr, extendsType: TypeExpr, trueType: TypeExpr, falseType: TypeExpr)
    | Tuple(elems: seq<TypeExpr>)
    | IndexedAccess(objectType: TypeExpr, indexType: TypeExpr)
    | KeyOf(operand: TypeExpr)
    | Composite(kind: string, children: seq<TypeExpr>)

  /** `Name extends Constraint = Default` */
  datatype TypeParam = TypeParam(name: string, constraint: Option<TypeExpr>, default: Option<TypeExpr>)

  /** One element of `import { name }` or `import { propertyName as name }`. */
  datatype ImportSpecifier = ImportSpecifier(name: string, propertyName: Option<string>)

  /** An import declaration: its module specifier (without quotes) and its
      named bindings, `None` when the clause has no `{ ... }` list (default,
      namespace or side-effect imports). */
  datatype ImportDecl = ImportDecl(specifier: string, namedBindings: Option<seq<ImportSpecifier>>)

  /** What a matched handler contributes to an action record. */
  datatype HandlerTypes = HandlerTypes(params: Option<TypeExpr>, returnType: Option<TypeExpr>,
                                       typeParameters: Option<seq<TypeParam>>)

  /** The external type contract of one action. */
  datatype ActionRecord = ActionRecord(id: Option<string>, params: Option<TypeExpr>,
                                       returnType: Option<TypeExpr>,
                                       typeParameters: Option<seq<TypeParam>>)

  /** The extension contract: `b` is `a` with, at most, some absent fields
      filled in. The id and the type parameters are kept, and an authored
      params or return type is never replaced. */
  predicate FillsOnly(a: ActionRecord, b: ActionRecord)
  {
    && b.id == a.id && b.typeParameters == a.typeParameters
    && (a.params.Some? ==> b.params == a.params)
    && (a.returnType.Some? ==> b.returnType == a.returnType)
  }

  lemma FillsOnlyTransitive(a: ActionRecord, b: ActionRecord, c: ActionRecord)
    requires FillsOnly(a, b) && FillsOnly(b, c)
    ensures FillsOnly(a, c)
  {
  }

  /** Statement-level syntax of a service definition file, reduced to the node
      kinds the extractors look at. A call keeps the source text of its callee
      beside the callee node, whose own subtree is searched too. */
  datatype AstNode =
    | MethodDecl(methodName: string, parameters: seq<ParamDecl>, returnType: Option<TypeExpr>,
                 typeParameters: Option<seq<TypeParam>>, body: seq<AstNode>)
    | PropertyAssignment(propName: string, initializer: AstNode)
    | CallExpr(calleeText: string, callee: AstNode, typeArgs: seq<TypeExpr>, arguments: seq<AstNode>)
    | OtherNode(children: seq<AstNode>)

  datatype ParamDecl = ParamDecl(paramType: Option<TypeExpr>)

  /** A parsed definition file: its import declarations and its top-level statements. */
  datatype SourceFile = SourceFile(imports: seq<ImportDecl>, statements: seq<AstNode>)

  /** One entry of a service's `actions` object: `false`/`true`, a bare
      handler function, or an action object with an optional `visibility`. */
  datatype ActionDef = BoolDef(enabled: bool) | HandlerFn | ObjectDef(visibility: Option<string>)

  /** A mixin of the service's original schema, reduced to its method names. */
  datatype Mixin = Mixin(methodNames: set<string>)

  /** A service descriptor. An empty `version` stands for a missing (falsy) one. */
  datatype Service = Service(name: string, version: string, actions: seq<(string, ActionDef)>,
                             mixins: seq<Mixin>)

  /** `v{version}.{name}.`, or `{name}.` without a version: the namespace
      every action id of the service starts with. Both the extractor and the
      database-mixin builtin use this one definition. */
  function ServicePrefix(s: Service): string
  {
    (if s.version != "" then "v" + s.version + "." else "") + s.name + "."
  }

  /** The source text of a type name. */
  function NameText(n: TypeName): string
  {
    match n
    case Simple(s) => s
    case Qualified(l, r) => NameText(l) + "." + r
  }

  /** The name a type reference is looked up under: the left side when qualified. */
  function LeadingName(n: TypeName): string
  {
    match n
    case Simple(s) => s
    case Qualified(l, _) => NameText(l)
  }

  /** The children of a syntax node, in traversal order. */
  function Children(n: AstNode): (r: seq<AstNode>)
    ensures forall c :: c in r ==> c < n
  {
    match n
    case MethodDecl(_, _, _, _, body) => body
    case PropertyAssignment(_, init) => [init]
    case CallExpr(_, callee, _, args) => [callee] + args
    case OtherNode(ch) => ch
  }
}
