/** The `no-getState` rule: flags `.getState()` calls whose receiver is an Effector store.
    One visit of a `CallExpression` node runs three stages: a fast reject on the method
    name, the receiver resolver `traverseNestedObject`, and a store classifier that uses
    the TypeScript checker when full type information is available and the `$` naming
    convention otherwise. */
module NoGetState {
  import opened Wrappers
  import opened JsString
  import opened Estree

  const METHOD_NAME: string := "getState"
  const MESSAGE_ID: string := "abusiveCall"
  const STORE_SYMBOL: string := "Store"
  const EFFECTOR_MODULE: string := "effector"
  const STORE_PREFIX: string := "$"

  /** The descriptor handed to `context.report`: the anchor node, the message id and the
      `storeName` interpolated into the message. */
  datatype Descriptor = Descriptor(node: Node, messageId: string, storeName: string)

  /** `callee?.property?.name`: only a member expression has a `property`. */
  function MethodName(callee: Node): (r: Option<string>)
    ensures r.Some? ==> callee.MemberExpression? && Name(callee.property) == r
    ensures callee.MemberExpression? ==> r == Name(callee.property)
  {
    if callee.MemberExpression? then Name(callee.property) else None
  }

  // ---------------------------------------------------------------------------
  // Receiver resolver

  /** `walk` is the sequence of nodes met by following `property` links from `node`
      through member expressions until the first node that is not one. */
  ghost predicate IsPropertyWalk(node: Node, walk: seq<Node>) {
    && |walk| >= 1
    && walk[0] == node
    && !walk[|walk| - 1].MemberExpression?
    && forall i :: 0 <= i < |walk| - 1 ==> walk[i].MemberExpression? && walk[i + 1] == walk[i].property
  }

  /** `traverseNestedObject`: descends into the `property` (never the `object`) of each
      member expression and returns the first node that is not one. Each step goes to a
      strict sub-node, which is the termination argument. */
  function TraverseNestedObject(node: Node): (r: Node)
    ensures !r.MemberExpression?
    ensures !node.MemberExpression? ==> r == node
    decreases node
  {
    if node.MemberExpression? then TraverseNestedObject(node.property) else node
  }

  /** The property walk from `node`, built independently of the traversal. */
  ghost function PropertySpine(node: Node): (walk: seq<Node>)
    ensures IsPropertyWalk(node, walk)
    decreases node
  {
    if node.MemberExpression? then [node] + PropertySpine(node.property) else [node]
  }

  /** The traversal returns the last node of the property walk, whichever walk is given
      (so the walk is the unique one). */
  lemma {:induction false} TraverseEndsPropertyWalk(node: Node, walk: seq<Node>)
    requires IsPropertyWalk(node, walk)
    ensures TraverseNestedObject(node) == walk[|walk| - 1]
    decreases |walk|
  {
    if |walk| > 1 {
      assert walk[0].MemberExpression? && walk[1] == node.property;
      var rest := walk[1..];
      TraverseEndsPropertyWalk(node.property, rest);
    }
  }

  /** Lines 24-30: the fast reject on the method name, then the resolved receiver node
      of `callee.object`, which is the last node of its property walk. */
  function ResolveReceiver(callee: Node): (r: Option<Node>)
    ensures r.Some? <==> MethodName(callee) == Some(METHOD_NAME)
    ensures r.Some? ==> callee.MemberExpression? && r.value == TraverseNestedObject(callee.obj)
    ensures r.Some? ==> var walk := PropertySpine(callee.obj); r.value == walk[|walk| - 1]
  {
    if MethodName(callee) != Some(METHOD_NAME) then None
    else
      TraverseEndsPropertyWalk(callee.obj, PropertySpine(callee.obj));
      Some(TraverseNestedObject(callee.obj))
  }

  /** Lines 30-34: `object?.name`, where an absent or empty name stops the visit. */
  function ReceiverName(receiver: Node): (r: Option<string>)
    ensures r.Some? ==> Name(receiver) == r && r.value != ""
    ensures r.None? ==> Name(receiver).None? || Name(receiver) == Some("")
  {
    match Name(receiver)
    case Some(n) => if n == "" then None else Some(n)
    case None => None
  }

  // ---------------------------------------------------------------------------
  // Store classifier

  /** The type has a symbol named `Store` whose parent symbol's name has `effector` at
      some position: the reference reading of lines 42-44. */
  ghost predicate NamesEffectorStore(t: Option<Type>) {
    match t
    case None => false
    case Some(ty) =>
      match ty.symbol
      case None => false
      case Some(sym) =>
        && sym.escapedName == "Store"
        && match sym.parent
           case None => false
           case Some(parent) => exists i :: OccursAt(parent.escapedName, "effector", i)
  }

  /** Lines 42-44: the type's symbol is named exactly `Store` and its parent symbol's name
      contains `effector`; any missing link fails closed. */
  function IsEffectorStoreType(t: Option<Type>): (r: bool)
    ensures r <==> NamesEffectorStore(t)
    ensures r ==> t.Some? && t.value.symbol.Some? && t.value.symbol.value.parent.Some?
  {
    if t.Some? && t.value.symbol.Some? && t.value.symbol.value.parent.Some? then
      IncludesIff(t.value.symbol.value.parent.value.escapedName, EFFECTOR_MODULE);
      && t.value.symbol.value.escapedName == STORE_SYMBOL
      && Includes(t.value.symbol.value.parent.value.escapedName, EFFECTOR_MODULE)
    else false
  }

  /** Lines 37-57: the strategy is chosen by `hasFullTypeInformation`; the type strategy
      asks the oracle about the resolved node, the name strategy tests for a leading `$`. */
  function IsStore(services: ParserServices, receiver: Node, name: string): (r: bool)
    ensures !services.hasFullTypeInformation ==> (r <==> |name| > 0 && name[0] == '$')
    ensures services.hasFullTypeInformation ==> (r <==> NamesEffectorStore(services.typeAtLocation(receiver)))
  {
    StartsWithChar(name, '$');
    if services.hasFullTypeInformation then IsEffectorStoreType(services.typeAtLocation(receiver))
    else StartsWith(name, STORE_PREFIX)
  }

  // ---------------------------------------------------------------------------
  // One visit

  /** The report, if any, that one visit of the call expression `node` makes. */
  function Check(services: ParserServices, node: Node): (r: Option<Descriptor>)
    requires node.CallExpression?
    ensures r.Some? ==> r.value.node == node && r.value.messageId == MESSAGE_ID
    ensures r.Some? ==> && MethodName(node.callee) == Some(METHOD_NAME)
                        && node.callee.MemberExpression?
                        && Name(TraverseNestedObject(node.callee.obj)) == Some(r.value.storeName)
                        && r.value.storeName != ""
  {
    match ResolveReceiver(node.callee)
    case None => None
    case Some(receiver) =>
      match ReceiverName(receiver)
      case None => None
      case Some(name) =>
        if IsStore(services, receiver, name) then Some(Descriptor(node, MESSAGE_ID, name)) else None
  }

  /** The reports one visit appends. */
  function ReportsOf(r: Option<Descriptor>): seq<Descriptor> {
    if r.Some? then [r.value] else []
  }

  /** The part of ESLint's rule `context` that the rule uses: its `parserServices` and
      the reports it has collected so far through `context.report`. */
  class RuleContext {
    const parserServices: ParserServices
    var reports: seq<Descriptor>

    constructor (parserServices: ParserServices)
      ensures this.parserServices == parserServices && reports == []
    {
      this.parserServices := parserServices;
      reports := [];
    }

    /** `context.report(descriptor)`. */
    method Report(descriptor: Descriptor)
      modifies this
      ensures reports == old(reports) + [descriptor]
    {
      reports := reports + [descriptor];
    }
  }

  /** `reportGetStateCall`: one report anchored at `node`, carrying `storeName`. */
  method ReportGetStateCall(context: RuleContext, node: Node, storeName: string)
    modifies context
    ensures context.reports == old(context.reports) + [Descriptor(node, MESSAGE_ID, storeName)]
  {
    context.Report(Descriptor(node, MESSAGE_ID, storeName));
  }

  /** The `CallExpression` visitor, with the early returns of the handler. It appends
      exactly the reports of `Check` on the context's services, and changes nothing else. */
  method VisitCallExpression(context: RuleContext, node: Node)
    requires node.CallExpression?
    modifies context
    ensures context.reports == old(context.reports) + ReportsOf(Check(context.parserServices, node))
  {
    var methodName := MethodName(node.callee);
    if methodName != Some(METHOD_NAME) {
      return;
    }

    var receiver := TraverseNestedObject(node.callee.obj);
    var receiverName := Name(receiver);
    if receiverName.None? || receiverName.value == "" {
      return;
    }

    if context.parserServices.hasFullTypeInformation {
      var t := context.parserServices.typeAtLocation(receiver);
      var isEffectorStore := IsEffectorStoreType(t);
      if !isEffectorStore {
        return;
      }
      ReportGetStateCall(context, node, receiverName.value);
    } else {
      var isEffectorStore := StartsWith(receiverName.value, STORE_PREFIX);
      if !isEffectorStore {
        return;
      }
      ReportGetStateCall(context, node, receiverName.value);
    }
  }
}
