/**
 * The adapter that stands in for a Jetty `Server` inside a servlet container
 * (ServerAdapter.java:16-209). It keeps in-memory registries of connectors,
 * attributes, handlers and lifecycle listeners, reports a lifecycle state that
 * never changes, and refuses every request-dispatch call.
 *
 * Type parameters stand for the Jetty and servlet types, whose contents the
 * adapter never inspects: `C` for `Connector`, `V` for attribute values
 * (`Object`), `H` for `Handler`, `L` for `LifeCycle.Listener`. Java's
 * `equals` on connectors and listeners is Dafny's `==`; Java's `null` is one
 * more value of `C` and `L` (the lists accept it), while for attribute values
 * and handler arguments, where `null` behaves differently, it is `None`.
 *
 * Every operation is atomic and sequential here. In the source each registry
 * is guarded by its own `synchronized` block, except `removeConnector`
 * (ServerAdapter.java:44-46), which takes no lock.
 */
module Bridge {
  import opened Results
  import Lists
  import Lifecycle

  class ServerAdapter<C(==), V, H, L(==)> {

    /** `connectors` (line 27): every connector added and not yet removed, in insertion order. */
    var connectors: seq<C>
    /** `attributesByName` (line 50); a name mapped to `None` holds a `null` value. */
    var attributesByName: map<string, Option<V>>
    /** `handlers` (line 100), in insertion order; `null` is never stored. */
    var handlers: seq<H>
    /** `lifeCycleListeners` (line 167), in insertion order. */
    var lifeCycleListeners: seq<L>
    /** `serverState` (line 135): initialised to `STARTED` and never assigned again. */
    const serverState: Lifecycle.ServerState := Lifecycle.Started

    /** The adapter starts with every registry empty (lines 21-23, 27, 50, 100, 167). */
    constructor ()
      ensures connectors == [] && attributesByName == map[]
      ensures handlers == [] && lifeCycleListeners == []
    {
      connectors := [];
      attributesByName := map[];
      handlers := [];
      lifeCycleListeners := [];
    }

    // Connectors

    /** `getConnectors`: a new array holding the registered connectors in order. */
    method GetConnectors() returns (a: array<C>)
      ensures fresh(a)
      ensures a[..] == connectors
    {
      var s := connectors;
      a := new C[|s|](i requires 0 <= i < |s| => s[i]);
    }

    /** `addConnector`: appends, never rejects, never deduplicates. */
    method AddConnector(connector: C)
      modifies this`connectors
      ensures connectors == old(connectors) + [connector]
    {
      connectors := connectors + [connector];
    }

    /**
     * `removeConnector`: removes the first connector equal to the argument,
     * keeping the order of the others; no effect when none is equal.
     */
    method RemoveConnector(connector: C)
      modifies this`connectors
      ensures connectors == Lists.RemoveFirst(old(connectors), connector)
      ensures connector !in old(connectors) ==> connectors == old(connectors)
      ensures connector in old(connectors) ==>
        var k := Lists.IndexOf(old(connectors), connector);
        connectors == old(connectors)[..k] + old(connectors)[k + 1..]
      ensures multiset(connectors) == multiset(old(connectors)) - multiset{connector}
    {
      Lists.RemoveFirstMultiset(connectors, connector);
      if connector in connectors {
        Lists.RemoveFirstSplice(connectors, connector);
      } else {
        Lists.RemoveFirstAbsent(connectors, connector);
      }
      connectors := Lists.RemoveFirst(connectors, connector);
    }

    // Attributes

    /** `getAttribute`: the stored value, or `null` when the name is absent or holds `null`. */
    function GetAttribute(name: string): (r: Option<V>)
      reads this
      ensures name !in attributesByName ==> r == None
      ensures name in attributesByName ==> r == attributesByName[name]
    {
      if name in attributesByName then attributesByName[name] else None
    }

    /** `getAttributeNames`: a snapshot of exactly the names that have an entry. */
    function GetAttributeNames(): (names: set<string>)
      reads this
      ensures forall n :: n in names <==> n in attributesByName
    {
      attributesByName.Keys
    }

    /** `clearAttributes`: afterwards no name is listed and every lookup gives `null`. */
    method ClearAttributes()
      modifies this`attributesByName
      ensures attributesByName == map[]
      ensures GetAttributeNames() == {}
      ensures forall n :: GetAttribute(n) == None
    {
      attributesByName := map[];
    }

    /**
     * `removeAttribute`: the name is gone and looks up as `null`; every other
     * entry is untouched, and removing an absent name changes nothing.
     */
    method RemoveAttribute(name: string)
      modifies this`attributesByName
      ensures attributesByName == old(attributesByName) - {name}
      ensures GetAttribute(name) == None
      ensures GetAttributeNames() == old(GetAttributeNames()) - {name}
      ensures forall n :: n != name ==> GetAttribute(n) == old(GetAttribute(n))
      ensures name !in old(attributesByName) ==> attributesByName == old(attributesByName)
    {
      attributesByName := attributesByName - {name};
    }

    /**
     * `setAttribute`: last write wins for this name, every other name keeps its
     * value, and the name is listed even when the value is `null`.
     */
    method SetAttribute(name: string, attribute: Option<V>)
      modifies this`attributesByName
      ensures attributesByName == old(attributesByName)[name := attribute]
      ensures GetAttribute(name) == attribute
      ensures GetAttributeNames() == old(GetAttributeNames()) + {name}
      ensures forall n :: n != name ==> GetAttribute(n) == old(GetAttribute(n))
    {
      attributesByName := attributesByName[name := attribute];
    }

    // Dispatch: never supported

    /** `handle(HttpChannel)`: fails for every argument, in every state, and changes nothing. */
    method Handle<Channel>(connection: Channel) returns (r: Outcome)
      ensures r == Fail(UnsupportedOperation)
    {
      r := Fail(UnsupportedOperation);
    }

    /** `handleAsync(HttpChannel)`: fails for every argument, in every state, and changes nothing. */
    method HandleAsync<Channel>(connection: Channel) returns (r: Outcome)
      ensures r == Fail(UnsupportedOperation)
    {
      r := Fail(UnsupportedOperation);
    }

    /** `handle(target, baseRequest, request, response)`: fails for every argument and changes nothing. */
    method HandleRequest<Req, ServletRequest, ServletResponse>(
      target: string, baseRequest: Req, request: ServletRequest, response: ServletResponse)
      returns (r: Outcome)
      ensures r == Fail(UnsupportedOperation)
    {
      r := Fail(UnsupportedOperation);
    }

    // Handlers

    /** `getHandler`: the first handler ever set, or `null` when none has been set. */
    function GetHandler(): (h: Option<H>)
      reads this
      ensures h == None <==> handlers == []
      ensures h.Some? ==> h.value == handlers[0]
    {
      if |handlers| > 0 then Some(handlers[0]) else None
    }

    /** `getHandlers`: a new array holding every handler set, in order. */
    method GetHandlers() returns (a: array<H>)
      ensures fresh(a)
      ensures a[..] == handlers
    {
      var s := handlers;
      a := new H[|s|](i requires 0 <= i < |s| => s[i]);
    }

    /**
     * `setHandler`: appends rather than replaces, so the primary handler stays
     * the first one ever set. A `null` handler throws when its class is asked
     * for, before anything is stored.
     */
    method SetHandler(handler: Option<H>) returns (r: Outcome)
      modifies this`handlers
      ensures handler == None ==> r == Fail(NullPointer) && handlers == old(handlers)
      ensures handler.Some? ==> r == Pass && handlers == old(handlers) + [handler.value]
      ensures old(handlers) != [] ==> GetHandler() == old(GetHandler())
      ensures old(handlers) == [] ==> GetHandler() == handler
    {
      if handler == None {
        return Fail(NullPointer);
      }
      handlers := handlers + [handler.value];
      r := Pass;
    }

    // Lifecycle, as written: each predicate compares an inherited `String` with the enum field

    /** `isRunning`: false, because a `String` never equals an enum constant. */
    function IsRunning(): (r: bool)
      ensures r == Lifecycle.AsWrittenRunning(serverState)
      ensures !r
    {
      Lifecycle.AsWrittenRunning(serverState)
    }

    /** `isStarted`: false, for the same reason. */
    function IsStarted(): (r: bool)
      ensures r == Lifecycle.AsWrittenStarted(serverState)
      ensures !r
    {
      Lifecycle.AsWrittenStarted(serverState)
    }

    /** `isStarting`: false. */
    function IsStarting(): (r: bool)
      ensures r == Lifecycle.AsWrittenStarting(serverState)
      ensures !r
    {
      Lifecycle.AsWrittenStarting(serverState)
    }

    /** `isStopping`: false. */
    function IsStopping(): (r: bool)
      ensures r == Lifecycle.AsWrittenStopping(serverState)
      ensures !r
    {
      Lifecycle.AsWrittenStopping(serverState)
    }

    /** `isStopped`: false. */
    function IsStopped(): (r: bool)
      ensures r == Lifecycle.AsWrittenStopped(serverState)
      ensures !r
    {
      Lifecycle.AsWrittenStopped(serverState)
    }

    /** `isFailed`: false. */
    function IsFailed(): (r: bool)
      ensures r == Lifecycle.AsWrittenFailed(serverState)
      ensures !r
    {
      Lifecycle.AsWrittenFailed(serverState)
    }

    /** `getState`: the name of the fixed state, so always "STARTED". */
    function GetState(): (r: string)
      ensures r == "STARTED"
      ensures r == Lifecycle.InheritedStarted
    {
      Lifecycle.Name(serverState)
    }

    /** `getStopTimeout`: no graceful drain is ever needed, so always 0. */
    function GetStopTimeout(): (r: int)
      ensures r == 0
    {
      0
    }

    /** `doStart`: only logs; returns normally and changes no field (there is no `modifies`). */
    method DoStart() returns (r: Outcome)
      ensures r == Pass
      ensures GetState() == "STARTED"
    {
      r := Pass;
    }

    /** `doStop`: only logs; returns normally, changes no field, and the state stays "STARTED". */
    method DoStop() returns (r: Outcome)
      ensures r == Pass
      ensures GetState() == "STARTED"
    {
      r := Pass;
    }

    // Lifecycle listeners

    /** `addLifeCycleListener`: appends; listeners are stored and never notified. */
    method AddLifeCycleListener(listener: L)
      modifies this`lifeCycleListeners
      ensures lifeCycleListeners == old(lifeCycleListeners) + [listener]
    {
      lifeCycleListeners := lifeCycleListeners + [listener];
    }

    /**
     * `removeLifeCycleListener`: removes the first listener equal to the
     * argument, keeping the order of the others; no effect when none is equal.
     */
    method RemoveLifeCycleListener(listener: L)
      modifies this`lifeCycleListeners
      ensures lifeCycleListeners == Lists.RemoveFirst(old(lifeCycleListeners), listener)
      ensures listener !in old(lifeCycleListeners) ==> lifeCycleListeners == old(lifeCycleListeners)
      ensures listener in old(lifeCycleListeners) ==>
        var k := Lists.IndexOf(old(lifeCycleListeners), listener);
        lifeCycleListeners == old(lifeCycleListeners)[..k] + old(lifeCycleListeners)[k + 1..]
      ensures multiset(lifeCycleListeners) == multiset(old(lifeCycleListeners)) - multiset{listener}
    {
      Lists.RemoveFirstMultiset(lifeCycleListeners, listener);
      if listener in lifeCycleListeners {
        Lists.RemoveFirstSplice(lifeCycleListeners, listener);
      } else {
        Lists.RemoveFirstAbsent(lifeCycleListeners, listener);
      }
      lifeCycleListeners := Lists.RemoveFirst(lifeCycleListeners, listener);
    }
  }
}
