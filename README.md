# no-getState, modelled in Dafny

This project models the ESLint rule `no-getState` of an Effector lint plugin. The rule
reports `.getState()` calls on Effector stores. ESLint calls the rule's `CallExpression`
visitor once for each call expression. Each visit goes through three stages:

1. **Fast reject.** The callee's `property.name` must be exactly `getState`.
2. **Receiver resolution.** `traverseNestedObject` starts at `callee.object` and follows
   the **property** of each member expression until it reaches a node that is not a member
   expression. That node's non-empty `name` is the store name.
3. **Store classification.**
   - With full type information, the TypeScript type of the resolved node must have a
     symbol named `Store` whose parent symbol's name contains `effector`.
   - Without type information, the name must start with `$`.

A positive verdict appends one report to the rule context. The report is anchored at the
call node, has message id `abusiveCall` and carries `storeName`.

Files:

- `wrappers.dfy` holds `Option`.
- `js_string.dfy` holds `startsWith` and `includes` with their characterisations.
- `estree.dfy` holds the syntax-tree nodes, TypeScript symbols and types, and
  `parserServices`. The type checker is an oracle `typeAtLocation: Node -> Option<Type>`.
  It stands for `esTreeNodeToTSNodeMap.get` followed by `getTypeAtLocation`.
- `no_get_state.dfy` holds the rule itself:
  - the resolver and the classifier;
  - the pure decision function `Check`;
  - the rule context as a class whose `reports` sequence `context.report` extends;
  - the visitor `VisitCallExpression`, written with the handler's early returns and proved
    to append exactly `Check`'s report.
- `no_get_state_properties.dfy` holds the properties and the documented scenarios.

Two consequences of the code are easy to miss:

- **Computed member access.** The rule never reads `computed`.
  - `store[key]` resolves to the identifier `key`, so `store[$key].getState()` is reported
    as `$key` when there is no type information.
  - A member-expression key is descended into, so `store[a.$b].getState()` is reported as
    `$b`.
  - Any other key resolves to a nameless node and is never reported. That covers a
    literal, a call and a template.
  - `ComputedAccessScenarios` and `ComputedKeyKinds` state these cases.
- **Method name.** `obj[getState]()` passes the method-name check.

## Model

| member | source | states |
|---|---|---|
| `Estree.Name` | rules/no-getState/no-getState.js:24-30 | Only identifier kinds have a `.name`. What an absent or empty name does to a visit is stated by `NamelessReceiverNotReported`, `NameStrategyIff` and `TypeStrategyIff` |
| `NoGetState.MethodName` | rules/no-getState/no-getState.js:24 | Reads the callee property's name. Its effect (only exactly `getState` goes on, whatever `computed` says) is stated by `FastReject` and `ComputedAccessScenarios` |
| `NoGetState.TraverseNestedObject` | rules/no-getState/no-getState.js:76-82 | The result is never a member expression; a node that is not a member expression is returned unchanged; terminates by structural descent into `property` |
| `NoGetState.PropertySpine` | rules/no-getState/no-getState.js:76-82 | There is a walk from every node that follows `property` links through member expressions and ends at the first non-member node |
| `NoGetState.TraverseEndsPropertyWalk` | rules/no-getState/no-getState.js:76-82 | On every such walk, the traversal returns the walk's last node. So the walk is unique and the traversal returns its first non-member node |
| `NoGetState.ResolveReceiver` | rules/no-getState/no-getState.js:24-29 | A receiver is resolved if and only if the method name is exactly `getState`. It is then the last node of the property walk from `callee.object` (`PropertySpine`), so the resolved node is the first non-member node along `property` links |
| `NoGetState.ReceiverName` | rules/no-getState/no-getState.js:30-34 | Gives `object?.name` unless it is absent or empty. That neither reports, under either strategy, is stated by `NamelessReceiverNotReported`, `NameStrategyIff` and `TypeStrategyIff` |
| `NoGetState.IsEffectorStoreType` | rules/no-getState/no-getState.js:42-44 | The verdict holds if and only if there is a type, with a symbol named exactly `Store`, whose parent symbol's name has `effector` at some position (`NamesEffectorStore`); any missing link fails closed |
| `NoGetState.IsStore` | rules/no-getState/no-getState.js:37-57 | Without type information, the verdict holds if and only if the name starts with `$`. With type information, it holds if and only if the oracle's type for the resolved node is an effector `Store` (`NamesEffectorStore`); the name is then ignored |
| `NoGetState.Check` | rules/no-getState/no-getState.js:23-61 | Any report is anchored at the visited call node with message id `abusiveCall`; it requires the method `getState`, a member-expression callee, and a store name that is the resolved node's non-empty name |
| `NoGetState.RuleContext.Report` | rules/no-getState/no-getState.js:67-73 | `context.report` appends its descriptor to the collected reports and changes nothing else |
| `NoGetState.ReportGetStateCall` | rules/no-getState/no-getState.js:66-74 | Appends exactly one report: the call node, `abusiveCall`, `storeName` |
| `NoGetState.VisitCallExpression` | rules/no-getState/no-getState.js:23-61 | One visit appends exactly the reports of `Check` for the node and the context's parser services (zero or one) and nothing else |
| `JsString.StartsWith` | rules/no-getState/no-getState.js:54 | `startsWith` holds if and only if the prefix is no longer than the string and agrees with it character by character |
| `JsString.Includes` | rules/no-getState/no-getState.js:44 | `includes` holds whenever the string starts with the substring, and never for a substring longer than the string (`IncludesIff` gives the exact condition) |
| `JsString.StartsWithChar` | rules/no-getState/no-getState.js:54 | `startsWith` of a one-character prefix holds if and only if the string is non-empty and begins with that character |
| `JsString.IncludesIff` | rules/no-getState/no-getState.js:44 | `includes` holds if and only if the substring occurs at some position |
| `JsString.IncludesInContext` | rules/no-getState/no-getState.js:44 | An occurrence survives any text before and after it, so a quoted or longer module name containing `effector` passes |
| `JsString.IncludesOnlyOwnChars` | rules/no-getState/no-getState.js:44 | Each character of an included string occurs in the including string |
| `NoGetStateProperties.ChainResolvesThroughLastProperty` | rules/no-getState/no-getState.js:76-82 | A chain `root.p1...pn` resolves through `pn` alone: the root, the earlier steps and the `computed` flags are ignored |
| `NoGetStateProperties.ChainResolvesToLastName` | rules/no-getState/no-getState.js:76-82 | `a.b.c` resolves to `c`, never to the root `a` or to `b` |
| `NoGetStateProperties.TraverseIdempotent` | rules/no-getState/no-getState.js:76-82 | Resolving a resolved node gives it back |
| `NoGetStateProperties.FastReject` | rules/no-getState/no-getState.js:24-27 | A callee with no property, or a property not named exactly `getState`, is never reported under either strategy |
| `NoGetStateProperties.NamelessReceiverNotReported` | rules/no-getState/no-getState.js:29-34 | A resolved node with no name or an empty name is never reported under either strategy |
| `NoGetStateProperties.NameStrategyIff` | rules/no-getState/no-getState.js:53-59 | Without type information, a report is made if and only if the method is `getState` and the last node of the receiver's property walk has a name beginning with `$`; the report carries that name |
| `NoGetStateProperties.TypeStrategyIff` | rules/no-getState/no-getState.js:37-50 | With type information, a report is made if and only if the method is `getState`, the resolved node has a non-empty name, and the oracle gives that node a type whose symbol is `Store` and whose parent symbol's name contains `effector` at some position; the report carries the name |
| `NoGetStateProperties.NameStrategyExact` | rules/no-getState/no-getState.js:53-59 | `NameStrategyIff` for every call, with no walk to supply: it is stated over the receiver's own property walk |
| `NoGetStateProperties.TypeStrategyExact` | rules/no-getState/no-getState.js:37-50 | `TypeStrategyIff` for every call, with no walk to supply: it is stated over the receiver's own property walk |
| `NoGetStateProperties.TypeStrategyFailsClosed` | rules/no-getState/no-getState.js:42-48 | A missing type, symbol or parent symbol means no report |
| `NoGetStateProperties.NameStrategyIgnoresOracle` | rules/no-getState/no-getState.js:53-59 | Without type information, the outcome does not depend on the type oracle |
| `NoGetStateProperties.TypeStrategyAsksResolvedNode` | rules/no-getState/no-getState.js:39-40 | With type information, only the oracle's answer for the resolved node matters |
| `NoGetStateProperties.TypeStrategyIgnoresNaming` | rules/no-getState/no-getState.js:37-50 | With type information, two named receivers with the same type get the same verdict, whatever their names; the `$` convention plays no part |
| `NoGetStateProperties.VisitTwice` | rules/no-getState/no-getState.js:23-61 | Two visits of one node append the same zero-or-one reports twice: the outcome depends only on the node and the parser services |
| `NoGetStateProperties.NameStrategyScenarios` | rules/no-getState/no-getState.js:23-59 | `$user.getState()` is reported as `$user`; `user.getState()`, `console.log()`, `foo()`, `this.getState()` and `$makeStore().getState()` are not |
| `NoGetStateProperties.EffectorModuleAccepted` | rules/no-getState/no-getState.js:42-44 | A `Store` symbol whose parent is the module `"effector"` classifies as a store |
| `NoGetStateProperties.ModuleWithoutFRejected` | rules/no-getState/no-getState.js:42-44 | A `Store` whose parent module's name has no `f` cannot pass the `includes("effector")` test |
| `NoGetStateProperties.OtherModuleRejected` | rules/no-getState/no-getState.js:42-44 | A `Store` symbol whose parent is the module `"my-custom-lib"` does not |
| `NoGetStateProperties.EffectorPathAccepted` | rules/no-getState/no-getState.js:42-44 | A `Store` symbol whose parent is named by a path containing `effector`, such as `"/node_modules/effector/index"`, classifies as a store |
| `NoGetStateProperties.TypedEffectorStoreReported` | rules/no-getState/no-getState.js:37-50 | With types, `$user` typed as effector's `Store` is reported as `$user` |
| `NoGetStateProperties.TypedOtherStoreNotReported` | rules/no-getState/no-getState.js:37-48 | With types, `$user` typed as another library's `Store` is not reported |
| `NoGetStateProperties.TypedStoreWithoutDollarReported` | rules/no-getState/no-getState.js:37-50 | With types, `user` typed as effector's `Store` is reported, so the `$` convention plays no part |
| `NoGetStateProperties.ComputedAccessScenarios` | rules/no-getState/no-getState.js:24-34 | `store["k"]` and `store[key]` are not reported, `store[$key]` is reported as `$key`, and `obj[getState]()` passes the method-name check |
| `NoGetStateProperties.ComputedKeyKinds` | rules/no-getState/no-getState.js:29-34 | `store[f()].getState()` is never reported under either strategy; `store[a.$b].getState()` is reported as `$b` |

## Left out

- The rule's `meta` object (lines 5-18) is static metadata with no behaviour.
- The message template and its `{{ storeName }}` interpolation are done by ESLint. Only
  the message id and the `storeName` value are modelled.
- The TypeScript checker's internals are not modelled: `getTypeChecker`,
  `esTreeNodeToTSNodeMap.get` and `getTypeAtLocation`. They are one abstract oracle
  parameter, a function of the node.
- Nodes carry no identity or source position; they are compared by structure. So one
  oracle gives two look-alike receivers the same type, even when `$s` is bound to a store
  in one block and to a number in another. Reports from look-alike call sites are also
  equal values. The source looks up and anchors by node object.
- The `extractImportedFromEffector` import (lines 1-3) is never used. The file that
  defines it is not part of this model.
- `create(context)` returning the visitor object is folded into `VisitCallExpression`,
  which takes the context. The order in which ESLint walks the tree, and how it collects
  reports across rules and files, belong to the host.
- An undefined `context.parserServices` would crash at line 37. This is a
  host-configuration artefact and is not modelled: `parserServices` is always present.
- ESTree nodes are reduced to the kinds that matter here. `OtherExpression` stands for
  every other kind, which has no `name`. `MetaProperty` (`new.target`) has a `property`
  but no `object`; ESTree never gives it a property named `getState`, so it is left out.
- TypeScript's escaping of symbol names that begin with `__` is not modelled.
  `escapedName` is taken as the plain name.
