/**
 * Client code that drives a fresh adapter through the typical startup
 * sequences, using only the adapter's contracts (as the startup code of the
 * application would).
 */
module Scenarios {
  import opened Results
  import Bridge

  /** Add two connectors, list, remove the first, list again. */
  method ConnectorScenario<C(==)>(c1: C, c2: C) returns (listed: seq<C>, relisted: seq<C>)
    ensures listed == [c1, c2]
    ensures relisted == [c2]
  {
    var adapter := new Bridge.ServerAdapter<C, int, int, int>();
    adapter.AddConnector(c1);
    adapter.AddConnector(c2);
    var a := adapter.GetConnectors();
    listed := a[..];
    adapter.RemoveConnector(c1);
    var b := adapter.GetConnectors();
    relisted := b[..];
  }

  /** Overwrite one attribute, read it back, clear, list the names. */
  method AttributeScenario<V>(first: V, second: V) returns (got: Option<V>, names: set<string>)
    ensures got == Some(second)
    ensures names == {}
  {
    var adapter := new Bridge.ServerAdapter<int, V, int, int>();
    adapter.SetAttribute("region", Some(first));
    adapter.SetAttribute("region", Some(second));
    got := adapter.GetAttribute("region");
    adapter.ClearAttributes();
    names := adapter.GetAttributeNames();
  }

  /** Set two handlers: the first stays primary and both are listed in order. */
  method HandlerScenario<H>(h1: H, h2: H) returns (primary: Option<H>, all: seq<H>)
    ensures primary == Some(h1)
    ensures all == [h1, h2]
  {
    var adapter := new Bridge.ServerAdapter<int, int, H, int>();
    var r1 := adapter.SetHandler(Some(h1));
    var r2 := adapter.SetHandler(Some(h2));
    primary := adapter.GetHandler();
    var a := adapter.GetHandlers();
    all := a[..];
  }

  /**
   * Start, stop and start again, then dispatch: the reported state stays
   * "STARTED", the readiness predicates as written still answer false, and
   * dispatch fails before and after the lifecycle calls.
   */
  method LifecycleScenario<Channel>(channel: Channel)
    returns (state: string, started: bool, before: Outcome, after: Outcome)
    ensures state == "STARTED"
    ensures !started
    ensures before == Fail(UnsupportedOperation) && after == Fail(UnsupportedOperation)
  {
    var adapter := new Bridge.ServerAdapter<int, int, int, int>();
    before := adapter.Handle(channel);
    var s1 := adapter.DoStart();
    var s2 := adapter.DoStop();
    var s3 := adapter.DoStart();
    state := adapter.GetState();
    started := adapter.IsStarted();
    after := adapter.HandleAsync(channel);
  }
}
