# ServerAdapter: a Jetty server stand-in for servlet-container deployment

`ServerAdapter` lets a Dropwizard application whose startup code builds,
configures and starts a Jetty `Server` run inside a servlet container instead.
It subclasses `Server` but binds nothing: it records the connectors,
attributes, handlers and lifecycle listeners that startup code registers, so
later introspection can read them back. It reports a lifecycle state that is
fixed at `STARTED`. Its start and stop hooks do nothing, and it refuses every
request-dispatch call with `UnsupportedOperationException`.

The model has four modules.

- `Results`: Java `null` (`Option`), the two exceptions the adapter can raise,
  and the normal-or-exceptional ending of a `void` method (`Outcome`).
- `Lists`: `List.remove(Object)` as `RemoveFirst`, with an independent
  reference definition (`IndexOf` plus a splice) and the lemmas that connect
  the two.
- `Lifecycle`: the private `ServerState` enum and its names. It also models
  Java's `String.equals`, the readiness predicates as written, and the
  readiness predicates as evidently intended.
- `Bridge`: class `ServerAdapter`. Its four mutable `seq`/`map` fields stand
  for the `LinkedList` and `HashMap` fields. Each mutator carries a `modifies`
  clause on exactly the field it changes, and its contract states the new
  value of that field. The getters are functions or read-only methods. The
  `serverState` field is a `const`.

A fifth module, `Scenarios`, drives a fresh adapter through typical startup
sequences using only the class contracts.

The Jetty and servlet types are type parameters: `C` connector, `V` attribute
value, `H` handler, `L` lifecycle listener, and method-level parameters for
`HttpChannel` and the request and response types. Java `equals` on connectors
and listeners is Dafny `==`. A `null` attribute value or `null` handler
argument is `None`. For connectors and listeners, `null` is one more value of
the type parameter, because the lists store it like any other value.

The source itself shows what the readiness predicates are meant to answer.
The field `serverState` starts as `ServerState.STARTED` and is never
reassigned, `getState` reports `"STARTED"`, and Jetty's `LifeCycle.isStarted`
and `isRunning` are meant to be true in that state. As written, they always
answer false (see Findings). The class models the code as written.

## Model

| member | source | states |
|---|---|---|
| `Lists.IndexOf` | src/main/java/be/fluid_it/tools/dw/wiz2war/bridge/ServerAdapter.java:45 | the position `remove(Object)` looks for: an occurrence of the element with no equal element before it |
| `Lists.RemoveFirst` | src/main/java/be/fluid_it/tools/dw/wiz2war/bridge/ServerAdapter.java:45 | `List.remove(Object)`: removes the first element equal to the argument and is unchanged when none is equal; the length drops by one exactly when the element is present (the splice and no-op facts are the lemmas below) |
| `Lists.RemoveFirstAbsent` | src/main/java/be/fluid_it/tools/dw/wiz2war/bridge/ServerAdapter.java:44-46 | removing an element that no list entry equals leaves the list unchanged |
| `Lists.RemoveFirstSplice` | src/main/java/be/fluid_it/tools/dw/wiz2war/bridge/ServerAdapter.java:44-46 | removing a present element cuts out exactly its first occurrence; the elements before and after it keep their order |
| `Lists.RemoveFirstMultiset` | src/main/java/be/fluid_it/tools/dw/wiz2war/bridge/ServerAdapter.java:176-181 | removal takes away exactly one copy of the element when there is one and nothing else; length drops by one or stays the same |
| `Lists.RemoveFirstUndoesAppend` | src/main/java/be/fluid_it/tools/dw/wiz2war/bridge/ServerAdapter.java:36-46 | adding a connector not yet registered and then removing it restores the previous list |
| `Lifecycle.Name` | src/main/java/be/fluid_it/tools/dw/wiz2war/bridge/ServerAdapter.java:131-133 | every state has a non-empty name, the one `getState` reports |
| `Lifecycle.NameInjective` | src/main/java/be/fluid_it/tools/dw/wiz2war/bridge/ServerAdapter.java:131-133 | two states with the same name are the same state |
| `Lifecycle.StringEquals` | src/main/java/be/fluid_it/tools/dw/wiz2war/bridge/ServerAdapter.java:139 | `String.equals` is true exactly for another string with the same characters, never for an enum constant |
| `Lifecycle.ReadinessAsWrittenIsAlwaysFalse` | src/main/java/be/fluid_it/tools/dw/wiz2war/bridge/ServerAdapter.java:137-165 | as written, all six readiness predicates are false in every state |
| `Lifecycle.StartedDisagreement` | src/main/java/be/fluid_it/tools/dw/wiz2war/bridge/ServerAdapter.java:142-145 | in state STARTED, the intended `isStarted`/`isRunning` hold and the as-written ones do not |
| `Lifecycle.IntendedMatchesName` | src/main/java/be/fluid_it/tools/dw/wiz2war/bridge/ServerAdapter.java:137-165 | each intended readiness predicate holds exactly when the state's name equals the constant the source compares with |
| `Lifecycle.IntendedReadinessWhenStarted` | src/main/java/be/fluid_it/tools/dw/wiz2war/bridge/ServerAdapter.java:135-165 | in the state STARTED, the intended predicates report running and started and nothing else |
| `Bridge.ServerAdapter.constructor` | src/main/java/be/fluid_it/tools/dw/wiz2war/bridge/ServerAdapter.java:21-27 | a new adapter has no connectors, attributes, handlers or listeners |
| `Bridge.ServerAdapter.GetConnectors` | src/main/java/be/fluid_it/tools/dw/wiz2war/bridge/ServerAdapter.java:29-34 | returns a freshly allocated array holding exactly the registered connectors, in order, duplicates included |
| `Bridge.ServerAdapter.AddConnector` | src/main/java/be/fluid_it/tools/dw/wiz2war/bridge/ServerAdapter.java:36-41 | appends the connector at the end; no other field changes |
| `Bridge.ServerAdapter.RemoveConnector` | src/main/java/be/fluid_it/tools/dw/wiz2war/bridge/ServerAdapter.java:43-46 | removes only the first equal connector, keeping the others' order; no-op when none is equal; the multiset loses exactly one copy |
| `Bridge.ServerAdapter.GetAttribute` | src/main/java/be/fluid_it/tools/dw/wiz2war/bridge/ServerAdapter.java:59-64 | null for an absent name, otherwise the stored value (which may itself be null) |
| `Bridge.ServerAdapter.GetAttributeNames` | src/main/java/be/fluid_it/tools/dw/wiz2war/bridge/ServerAdapter.java:66-71 | lists exactly the names that have an entry |
| `Bridge.ServerAdapter.ClearAttributes` | src/main/java/be/fluid_it/tools/dw/wiz2war/bridge/ServerAdapter.java:52-57 | afterwards no name is listed and every name looks up as null |
| `Bridge.ServerAdapter.RemoveAttribute` | src/main/java/be/fluid_it/tools/dw/wiz2war/bridge/ServerAdapter.java:73-78 | the name is unlisted and looks up as null; all other names keep their values; removing an absent name changes nothing |
| `Bridge.ServerAdapter.SetAttribute` | src/main/java/be/fluid_it/tools/dw/wiz2war/bridge/ServerAdapter.java:80-85 | last write wins for the name, every other name keeps its value, and the name is listed even when the value is null |
| `Bridge.ServerAdapter.Handle` | src/main/java/be/fluid_it/tools/dw/wiz2war/bridge/ServerAdapter.java:89-92 | fails with UnsupportedOperationException for every channel, in every state, and changes nothing |
| `Bridge.ServerAdapter.HandleAsync` | src/main/java/be/fluid_it/tools/dw/wiz2war/bridge/ServerAdapter.java:94-97 | fails with UnsupportedOperationException for every channel, in every state, and changes nothing |
| `Bridge.ServerAdapter.HandleRequest` | src/main/java/be/fluid_it/tools/dw/wiz2war/bridge/ServerAdapter.java:124-127 | fails with UnsupportedOperationException for every target and request, and changes nothing |
| `Bridge.ServerAdapter.GetHandler` | src/main/java/be/fluid_it/tools/dw/wiz2war/bridge/ServerAdapter.java:102-107 | null exactly when no handler was ever set, otherwise the first handler set |
| `Bridge.ServerAdapter.GetHandlers` | src/main/java/be/fluid_it/tools/dw/wiz2war/bridge/ServerAdapter.java:109-114 | returns a freshly allocated array holding every handler set, in order |
| `Bridge.ServerAdapter.SetHandler` | src/main/java/be/fluid_it/tools/dw/wiz2war/bridge/ServerAdapter.java:116-122 | appends rather than replaces, so the primary handler stays the first one set; a null handler throws NullPointerException before anything is stored |
| `Bridge.ServerAdapter.IsRunning` | src/main/java/be/fluid_it/tools/dw/wiz2war/bridge/ServerAdapter.java:137-140 | reads only the fixed state and, as written, is false; it delegates to `Lifecycle.AsWrittenRunning`, the as-written comparison of an inherited `String` with the enum field |
| `Bridge.ServerAdapter.IsStarted` | src/main/java/be/fluid_it/tools/dw/wiz2war/bridge/ServerAdapter.java:142-145 | reads only the fixed state and, as written, is false; it delegates to `Lifecycle.AsWrittenStarted`, the as-written comparison of an inherited `String` with the enum field |
| `Bridge.ServerAdapter.IsStarting` | src/main/java/be/fluid_it/tools/dw/wiz2war/bridge/ServerAdapter.java:147-150 | reads only the fixed state and is false; it delegates to `Lifecycle.AsWrittenStarting`, the as-written comparison of an inherited `String` with the enum field |
| `Bridge.ServerAdapter.IsStopping` | src/main/java/be/fluid_it/tools/dw/wiz2war/bridge/ServerAdapter.java:152-155 | reads only the fixed state and is false; it delegates to `Lifecycle.AsWrittenStopping`, the as-written comparison of an inherited `String` with the enum field |
| `Bridge.ServerAdapter.IsStopped` | src/main/java/be/fluid_it/tools/dw/wiz2war/bridge/ServerAdapter.java:157-160 | reads only the fixed state and is false; it delegates to `Lifecycle.AsWrittenStopped`, the as-written comparison of an inherited `String` with the enum field |
| `Bridge.ServerAdapter.IsFailed` | src/main/java/be/fluid_it/tools/dw/wiz2war/bridge/ServerAdapter.java:162-165 | reads only the fixed state and is false; it delegates to `Lifecycle.AsWrittenFailed`, the as-written comparison of an inherited `String` with the enum field |
| `Bridge.ServerAdapter.GetState` | src/main/java/be/fluid_it/tools/dw/wiz2war/bridge/ServerAdapter.java:183-186 | always "STARTED", because the state is never reassigned |
| `Bridge.ServerAdapter.GetStopTimeout` | src/main/java/be/fluid_it/tools/dw/wiz2war/bridge/ServerAdapter.java:188-191 | always 0 |
| `Bridge.ServerAdapter.DoStart` | src/main/java/be/fluid_it/tools/dw/wiz2war/bridge/ServerAdapter.java:196-199 | returns normally, changes no field, and the state stays "STARTED" |
| `Bridge.ServerAdapter.DoStop` | src/main/java/be/fluid_it/tools/dw/wiz2war/bridge/ServerAdapter.java:201-204 | returns normally, changes no field, and the state stays "STARTED" |
| `Bridge.ServerAdapter.AddLifeCycleListener` | src/main/java/be/fluid_it/tools/dw/wiz2war/bridge/ServerAdapter.java:169-174 | appends the listener; no other field changes |
| `Bridge.ServerAdapter.RemoveLifeCycleListener` | src/main/java/be/fluid_it/tools/dw/wiz2war/bridge/ServerAdapter.java:176-181 | removes only the first equal listener, keeping the others' order; no-op when none is equal |
| `Scenarios.ConnectorScenario` | src/main/java/be/fluid_it/tools/dw/wiz2war/bridge/ServerAdapter.java:27-46 | add C1, add C2, list gives [C1, C2]; remove C1, list gives [C2] |
| `Scenarios.AttributeScenario` | src/main/java/be/fluid_it/tools/dw/wiz2war/bridge/ServerAdapter.java:50-85 | two writes to one name, then a read, give the second value; after clearing, no name is listed |
| `Scenarios.HandlerScenario` | src/main/java/be/fluid_it/tools/dw/wiz2war/bridge/ServerAdapter.java:100-122 | after setting H1 then H2, the primary handler is H1 and the list is [H1, H2] |
| `Scenarios.LifecycleScenario` | src/main/java/be/fluid_it/tools/dw/wiz2war/bridge/ServerAdapter.java:90-204 | dispatch fails before and after start/stop; after start/stop/start the state is still "STARTED" and `isStarted` as written is still false |

## Left out

- Concurrency: each operation is modelled as atomic and sequential. The `synchronized` blocks are not modelled. Neither is the fact that `removeConnector` (line 45) takes no lock while the other connector operations do.
- Logging (lines 17, 118, 198, 203) has no effect on state and is not modelled. The message at line 118 has no `{}` placeholder, so the handler's class name is never printed.
- The `Environment` constructor argument and field (lines 19-23) are stored but never read, so the constructor takes no argument.
- Inherited Jetty behaviour from `Server` and `AbstractLifeCycle` is foreign library code and is not part of this model. This covers the public `start()`/`stop()` wrappers, the base class's own state and listener list, and listener notification. `DoStart` and `DoStop` model only the two overridden hooks. The values of the inherited `String` constants `STARTED`, `STARTING`, ... are written as Jetty spells them. The finding does not depend on those values.
- `getState`'s `null` branch (line 185) cannot be taken, because `serverState` is initialised and never reassigned. `GetState` therefore returns a plain string.
- `Bridge.ServerAdapter.RemoveConnector` and `Bridge.ServerAdapter.RemoveLifeCycleListener` take Java `equals` to be Dafny `==` (identity for objects that do not override `equals`). Under a user-defined `equals`, `remove(x)` may unlink a different object that merely equals `x`; the model's splice and multiset clauses then promise more than Java does, since they say a copy of `x` itself is removed.
- Attribute names are non-null strings. `HashMap` would also accept a `null` name.
- Java container mechanics are modelled as values: `toArray` becomes a fresh Dafny array, `Vector`/`Enumeration` over the key set becomes a `set<string>`, and `LinkedList`/`HashMap` become `seq`/`map`.
- `Bridge.ServerAdapter.IsRunning`, `IsStarted` and the other readiness predicates keep the as-written behaviour (always false), because that is what callers of this class observe. The corrected predicates live in `Lifecycle` (`IntendedRunning`, `IntendedStarted`, ...), with their properties proved there.

## Findings

| source | as written | input that shows it | evidently intended | confidence | as-written member | corrected member |
|---|---|---|---|---|---|---|
| src/main/java/be/fluid_it/tools/dw/wiz2war/bridge/ServerAdapter.java:137-165 | `STARTED.equals(serverState)` and the five similar predicates use unqualified names. The nested enum's constants are not in scope in the outer class, so the names resolve to the `String` constants inherited from Jetty's `AbstractLifeCycle`. A `String` never equals an enum constant, so every predicate is false. | `serverState == STARTED` (the only state): `isStarted()` and `isRunning()` return false | `serverState == ServerState.STARTED`: `isStarted`/`isRunning` true, the others false | high; not executed | `Lifecycle.StartedDisagreement` | `Lifecycle.IntendedReadinessWhenStarted` |
