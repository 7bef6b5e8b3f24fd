/** The slice of the ESTree syntax tree, and of the TypeScript type checker's answers,
    that the no-getState rule looks at. */
module Estree {
  import opened Wrappers

  /** Syntax-tree nodes. Only `Identifier` and `PrivateIdentifier` carry a `name`
      property in ESTree; every other kind here has none. */
  datatype Node =
    | Identifier(name: string)
    | PrivateIdentifier(name: string)   // `#x` in `this.#x`, with `name` "x"
    | Literal(raw: string)              // `"k"`, `0`, ...
    | ThisExpression
    | Super
    | MemberExpression(obj: Node, property: Node, computed: bool)  // `obj` is ESTree's `object`
    | CallExpression(callee: Node, arguments: seq<Node>)
    | OtherExpression(children: seq<Node>)  // every other kind: none has a `name`

  /** `node.name`: present only on the identifier kinds. */
  function Name(node: Node): (r: Option<string>)
    ensures r.Some? <==> node.Identifier? || node.PrivateIdentifier?
    ensures r.Some? ==> r.value == node.name
  {
    match node
    case Identifier(n) => Some(n)
    case PrivateIdentifier(n) => Some(n)
    case _ => None
  }

  /** A TypeScript symbol: its `escapedName` and its optional `parent` symbol
      (for an exported declaration, the symbol of the module that declares it). */
  datatype Symbol = Symbol(escapedName: string, parent: Option<Symbol>)

  /** A TypeScript type, with its optional originating `symbol`. */
  datatype Type = Type(symbol: Option<Symbol>)

  /** What `parserServices` gives the rule: the `hasFullTypeInformation` flag and, as one
      oracle, the composition of `esTreeNodeToTSNodeMap.get` with the checker's
      `getTypeAtLocation`; `None` stands for an undefined type. */
  datatype ParserServices = ParserServices(
    hasFullTypeInformation: bool,
    typeAtLocation: Node -> Option<Type>)
}
