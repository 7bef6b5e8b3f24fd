/** What the no-getState rule guarantees, stated over the model of one visit. */
module NoGetStateProperties {
  import opened Wrappers
  import opened JsString
  import opened Estree
  import opened NoGetState

  /** A member chain `root.p1.p2...pn` as the parser nests it: the last step is outermost. */
  datatype Step = Step(property: Node, computed: bool)

  function Chain(root: Node, steps: seq<Step>): Node
    decreases |steps|
  {
    if steps == [] then root
    else
      var last := steps[|steps| - 1];
      MemberExpression(Chain(root, steps[..|steps| - 1]), last.property, last.computed)
  }

  // ---------------------------------------------------------------------------
  // Receiver resolution

  /** For a chain of at least one step the resolved node comes from the last step's
      property alone: the root, the earlier steps and every `computed` flag are ignored. */
  lemma ChainResolvesThroughLastProperty(root: Node, steps: seq<Step>)
    requires |steps| > 0
    ensures TraverseNestedObject(Chain(root, steps)) == TraverseNestedObject(steps[|steps| - 1].property)
  {
  }

  /** `a.b.c` resolves to `c`, and to neither `a` nor `b`. */
  lemma ChainResolvesToLastName(a: string, b: string, c: string)
    requires a != c && b != c
    ensures var chain := Chain(Identifier(a), [Step(Identifier(b), false), Step(Identifier(c), false)]);
            && TraverseNestedObject(chain) == Identifier(c)
            && TraverseNestedObject(chain) != Identifier(a)
            && TraverseNestedObject(chain) != Identifier(b)
  {
  }

  /** Resolution is idempotent: its result is already a non-member node. */
  lemma TraverseIdempotent(node: Node)
    ensures TraverseNestedObject(TraverseNestedObject(node)) == TraverseNestedObject(node)
  {
  }

  // ---------------------------------------------------------------------------
  // The fast reject and the nameless receiver

  /** A callee without a property, or whose property is not named exactly `getState`,
      is never reported, under either strategy. */
  lemma FastReject(services: ParserServices, node: Node)
    requires node.CallExpression?
    requires MethodName(node.callee) != Some(METHOD_NAME)
    ensures Check(services, node) == None
  {
  }

  /** When the resolved node has no name, or an empty one, nothing is reported under
      either strategy. */
  lemma NamelessReceiverNotReported(services: ParserServices, node: Node)
    requires node.CallExpression? && node.callee.MemberExpression?
    requires var name := Name(TraverseNestedObject(node.callee.obj)); name.None? || name == Some("")
    ensures Check(services, node) == None
  {
  }

  // ---------------------------------------------------------------------------
  // The two strategies, stated over the property walk of the receiver

  /** Without full type information a report is made exactly when the method is
      `getState` and the last node of the receiver's property walk has a name whose first
      character is `$`; the report carries that name. */
  lemma {:induction false} NameStrategyIff(services: ParserServices, node: Node, walk: seq<Node>)
    requires !services.hasFullTypeInformation
    requires node.CallExpression? && node.callee.MemberExpression?
    requires IsPropertyWalk(node.callee.obj, walk)
    ensures var end := walk[|walk| - 1];
            Check(services, node).Some? <==>
              && MethodName(node.callee) == Some(METHOD_NAME)
              && Name(end).Some?
              && |end.name| > 0 && end.name[0] == '$'
    ensures Check(services, node).Some? ==>
              Check(services, node).value == Descriptor(node, MESSAGE_ID, walk[|walk| - 1].name)
  {
    TraverseEndsPropertyWalk(node.callee.obj, walk);
    var end := walk[|walk| - 1];
    if Name(end).Some? {
      StartsWithChar(end.name, '$');
    }
  }

  /** With full type information a report is made exactly when the method is `getState`,
      the last node of the receiver's property walk has a non-empty name, and the oracle
      gives THAT node a type whose symbol is named `Store` and whose parent symbol's name
      has `effector` at some position. The `$` convention plays no part. */
  lemma {:induction false} TypeStrategyIff(services: ParserServices, node: Node, walk: seq<Node>)
    requires services.hasFullTypeInformation
    requires node.CallExpression? && node.callee.MemberExpression?
    requires IsPropertyWalk(node.callee.obj, walk)
    ensures var end := walk[|walk| - 1];
            var t := services.typeAtLocation(end);
            Check(services, node).Some? <==>
              && MethodName(node.callee) == Some(METHOD_NAME)
              && Name(end).Some? && end.name != ""
              && t.Some? && t.value.symbol.Some?
              && t.value.symbol.value.escapedName == "Store"
              && t.value.symbol.value.parent.Some?
              && exists i :: OccursAt(t.value.symbol.value.parent.value.escapedName, "effector", i)
    ensures Check(services, node).Some? ==>
              Check(services, node).value == Descriptor(node, MESSAGE_ID, walk[|walk| - 1].name)
  {
    TraverseEndsPropertyWalk(node.callee.obj, walk);
    var t := services.typeAtLocation(walk[|walk| - 1]);
    if t.Some? && t.value.symbol.Some? && t.value.symbol.value.parent.Some? {
      IncludesIff(t.value.symbol.value.parent.value.escapedName, "effector");
    }
  }

  /** The name strategy's exact condition for every call, over the receiver's own walk. */
  lemma NameStrategyExact(services: ParserServices, node: Node)
    requires !services.hasFullTypeInformation
    requires node.CallExpression? && node.callee.MemberExpression?
    ensures var walk := PropertySpine(node.callee.obj);
            var end := walk[|walk| - 1];
            Check(services, node).Some? <==>
              && MethodName(node.callee) == Some(METHOD_NAME)
              && Name(end).Some?
              && |end.name| > 0 && end.name[0] == '$'
  {
  }

  /** The type strategy's exact condition for every call, over the receiver's own walk. */
  lemma TypeStrategyExact(services: ParserServices, node: Node)
    requires services.hasFullTypeInformation
    requires node.CallExpression? && node.callee.MemberExpression?
    ensures var walk := PropertySpine(node.callee.obj);
            var end := walk[|walk| - 1];
            var t := services.typeAtLocation(end);
            Check(services, node).Some? <==>
              && MethodName(node.callee) == Some(METHOD_NAME)
              && Name(end).Some? && end.name != ""
              && t.Some? && t.value.symbol.Some?
              && t.value.symbol.value.escapedName == "Store"
              && t.value.symbol.value.parent.Some?
              && exists i :: OccursAt(t.value.symbol.value.parent.value.escapedName, "effector", i)
  {
  }

  /** A missing type, symbol or parent symbol means no report under the type strategy. */
  lemma TypeStrategyFailsClosed(services: ParserServices, node: Node)
    requires services.hasFullTypeInformation
    requires node.CallExpression? && node.callee.MemberExpression?
    requires var t := services.typeAtLocation(TraverseNestedObject(node.callee.obj));
             t.None? || t.value.symbol.None? || t.value.symbol.value.parent.None?
    ensures Check(services, node) == None
  {
  }

  /** Under the name strategy the type oracle is never consulted. */
  lemma NameStrategyIgnoresOracle(oracle1: Node -> Option<Type>, oracle2: Node -> Option<Type>, node: Node)
    requires node.CallExpression?
    ensures Check(ParserServices(false, oracle1), node) == Check(ParserServices(false, oracle2), node)
  {
  }

  /** Under the type strategy only the oracle's answer for the resolved node matters, not
      its answer for the whole receiver expression or any other node. */
  lemma TypeStrategyAsksResolvedNode(oracle1: Node -> Option<Type>, oracle2: Node -> Option<Type>, node: Node)
    requires node.CallExpression? && node.callee.MemberExpression?
    requires var receiver := TraverseNestedObject(node.callee.obj); oracle1(receiver) == oracle2(receiver)
    ensures Check(ParserServices(true, oracle1), node) == Check(ParserServices(true, oracle2), node)
  {
  }

  /** Under the type strategy renaming the store does not change the verdict: two
      `getState` calls whose resolved nodes have non-empty names and the same type are
      both reported or both not. */
  lemma TypeStrategyIgnoresNaming(services: ParserServices, node1: Node, node2: Node)
    requires services.hasFullTypeInformation
    requires node1.CallExpression? && node2.CallExpression?
    requires MethodName(node1.callee) == Some(METHOD_NAME) && MethodName(node2.callee) == Some(METHOD_NAME)
    requires var r1 := TraverseNestedObject(node1.callee.obj);
             var r2 := TraverseNestedObject(node2.callee.obj);
             && ReceiverName(r1).Some? && ReceiverName(r2).Some?
             && services.typeAtLocation(r1) == services.typeAtLocation(r2)
    ensures Check(services, node1).Some? == Check(services, node2).Some?
  {
  }

  // ---------------------------------------------------------------------------
  // Visits

  /** A second visit of the same node appends the same reports again: the outcome depends
      on nothing but the node and the context's parser services. */
  method VisitTwice(context: RuleContext, node: Node)
    requires node.CallExpression?
    modifies context
    ensures var rs := ReportsOf(Check(context.parserServices, node));
            && |rs| <= 1
            && context.reports == old(context.reports) + rs + rs
  {
    VisitCallExpression(context, node);
    VisitCallExpression(context, node);
  }

  // ---------------------------------------------------------------------------
  // Scenarios

  function Call(callee: Node): Node {
    CallExpression(callee, [])
  }

  function GetState(receiver: Node): Node {
    Call(MemberExpression(receiver, Identifier("getState"), false))
  }

  const NO_TYPES: ParserServices := ParserServices(false, _ => None)

  /** The parent symbol TypeScript gives a declaration of the external module `m`: its
      escaped name is the module name in double quotes. */
  function ModuleStore(m: string): Option<Type> {
    Some(Type(Some(Symbol("Store", Some(Symbol("\"" + m + "\"", None))))))
  }

  function TypedAs(node: Node, t: Option<Type>): ParserServices {
    ParserServices(true, n => if n == node then t else None)
  }

  lemma NameStrategyScenarios()
    ensures Check(NO_TYPES, GetState(Identifier("$user"))) ==
            Some(Descriptor(GetState(Identifier("$user")), "abusiveCall", "$user"))
    ensures Check(NO_TYPES, GetState(Identifier("user"))) == None
    ensures Check(NO_TYPES, Call(MemberExpression(Identifier("console"), Identifier("log"), false))) == None
    ensures Check(NO_TYPES, Call(Identifier("foo"))) == None
    ensures Check(NO_TYPES, GetState(ThisExpression)) == None
    ensures Check(NO_TYPES, GetState(Call(Identifier("$makeStore")))) == None
  {
  }

  lemma EffectorModuleAccepted()
    ensures IsEffectorStoreType(ModuleStore("effector"))
  {
  }

  /** A module whose name has no `f` cannot contain `effector`. */
  lemma ModuleWithoutFRejected(m: string)
    requires 'f' !in m
    ensures !IsEffectorStoreType(ModuleStore(m))
  {
    var parent := "\"" + m + "\"";
    if Includes(parent, "effector") {
      IncludesOnlyOwnChars(parent, "effector", 'f');
    }
  }

  lemma OtherModuleRejected()
    ensures !IsEffectorStoreType(ModuleStore("my-custom-lib"))
  {
    ModuleWithoutFRejected("my-custom-lib");
  }

  /** A parent symbol named by a path that contains `effector` also passes. */
  lemma EffectorPathAccepted()
    ensures IsEffectorStoreType(ModuleStore("/node_modules/effector/index"))
  {
    var path := "/node_modules/" + "effector" + "/index";
    assert "effector"[..|"effector"|] == "effector";
    IncludesInContext("/node_modules/", "effector", "/index", "effector");
    IncludesInContext("\"", path, "\"", "effector");
    assert "\"" + path + "\"" == "\"" + "/node_modules/effector/index" + "\"";
  }

  lemma TypedEffectorStoreReported()
    ensures var call := GetState(Identifier("$user"));
            Check(TypedAs(Identifier("$user"), ModuleStore("effector")), call) ==
              Some(Descriptor(call, "abusiveCall", "$user"))
  {
  }

  lemma TypedOtherStoreNotReported()
    ensures Check(TypedAs(Identifier("$user"), ModuleStore("my-custom-lib")), GetState(Identifier("$user"))) == None
  {
    OtherModuleRejected();
  }

  /** With types the `$` convention is irrelevant: `user` typed as effector's `Store` is
      reported. */
  lemma TypedStoreWithoutDollarReported()
    ensures var call := GetState(Identifier("user"));
            Check(TypedAs(Identifier("user"), ModuleStore("effector")), call) ==
              Some(Descriptor(call, "abusiveCall", "user"))
  {
  }

  /** Computed member access is not treated specially. A key that is neither an
      identifier nor a member expression (a literal, a call, ...) resolves to a nameless
      node and is never reported. `store[key]` resolves to the identifier `key`, so
      `store[$key].getState()` is reported under the name `$key`, and a member-expression
      key is descended into, so `store[a.$b].getState()` is reported as `$b`. And
      `obj[getState]()` passes the method-name check. */
  lemma ComputedAccessScenarios()
    ensures Check(NO_TYPES, GetState(MemberExpression(Identifier("store"), Literal("\"k\""), true))) == None
    ensures Check(NO_TYPES, GetState(MemberExpression(Identifier("store"), Identifier("key"), true))) == None
    ensures var call := GetState(MemberExpression(Identifier("store"), Identifier("$key"), true));
            Check(NO_TYPES, call) == Some(Descriptor(call, "abusiveCall", "$key"))
    ensures MethodName(MemberExpression(Identifier("obj"), Identifier("getState"), true)) == Some("getState")
  {
  }

  lemma ComputedKeyKinds(services: ParserServices)
    ensures Check(services, GetState(MemberExpression(Identifier("store"), Call(Identifier("f")), true))) == None
    ensures var call := GetState(MemberExpression(Identifier("store"),
                                                  MemberExpression(Identifier("a"), Identifier("$b"), false), true));
            Check(NO_TYPES, call) == Some(Descriptor(call, "abusiveCall", "$b"))
  {
  }
}
