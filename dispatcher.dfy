/**
 * The update dispatcher: a gateway that drops move updates until the
 * overlay is connected and afterwards forwards each one, once, in call
 * order. The lock and the queued Qt signal reduce to sequential steps; an
 * emitted signal is an append to the `delivered` log.
 */
module Dispatcher {
  import Models
  import Config
  import Window

  // -------------------------------------------------- specification

  /** The dispatcher's observable state: connected or not, and what it has forwarded. */
  datatype Gateway = Gateway(connected: bool, delivered: seq<Models.MoveDisplayData>)

  /** A fresh dispatcher. */
  const Fresh: Gateway := Gateway(false, [])

  /** A call on the dispatcher. */
  datatype Call = Connect | Send(data: Models.MoveDisplayData)

  /** One call: `Connect` sets the flag; `Send` forwards only when connected. */
  function Step(g: Gateway, call: Call): (h: Gateway)
    ensures h.connected == (g.connected || call == Connect)
    ensures call.Send? && g.connected ==> h.delivered == g.delivered + [call.data]
    ensures !(call.Send? && g.connected) ==> h.delivered == g.delivered
  {
    match call
    case Connect => g.(connected := true)
    case Send(data) => if g.connected then g.(delivered := g.delivered + [data]) else g
  }

  /** A sequence of calls from a given state. */
  function Run(g: Gateway, calls: seq<Call>): Gateway
    decreases |calls|
  {
    if calls == [] then g else Run(Step(g, calls[0]), calls[1..])
  }

  /** The data of every `Send`, in order. */
  function Sent(calls: seq<Call>): (r: seq<Models.MoveDisplayData>)
    ensures |r| <= |calls|
  {
    if calls == [] then []
    else if calls[0].Send? then [calls[0].data] + Sent(calls[1..])
    else Sent(calls[1..])
  }

  /** The data of the `Send`s that come after the first `Connect`, in order. */
  function SentAfterConnect(calls: seq<Call>): seq<Models.MoveDisplayData>
  {
    if calls == [] then []
    else if calls[0] == Connect then Sent(calls[1..])
    else SentAfterConnect(calls[1..])
  }

  /** A connected dispatcher forwards every later `Send`, and stays connected. */
  lemma {:induction false} ConnectedForwardsAll(delivered: seq<Models.MoveDisplayData>, calls: seq<Call>)
    ensures Run(Gateway(true, delivered), calls) == Gateway(true, delivered + Sent(calls))
    decreases |calls|
  {
    if calls != [] {
      var first: seq<Models.MoveDisplayData> := if calls[0].Send? then [calls[0].data] else [];
      var next := Step(Gateway(true, delivered), calls[0]);
      assert next == Gateway(true, delivered + first);
      ConnectedForwardsAll(delivered + first, calls[1..]);
      assert Sent(calls) == first + Sent(calls[1..]);
      assert delivered + first + Sent(calls[1..]) == delivered + Sent(calls);
    }
  }

  /**
   * From a fresh dispatcher, what is forwarded is exactly the data of the
   * sends made after the first connect, each once and in call order;
   * earlier sends are dropped. The dispatcher ends connected exactly when
   * some call connected it.
   */
  lemma {:induction false} DeliversExactlySendsAfterConnect(calls: seq<Call>)
    ensures Run(Fresh, calls).delivered == SentAfterConnect(calls)
    ensures Run(Fresh, calls).connected <==> Connect in calls
    decreases |calls|
  {
    if calls != [] {
      if calls[0] == Connect {
        ConnectedForwardsAll([], calls[1..]);
        assert [] + Sent(calls[1..]) == Sent(calls[1..]);
      } else {
        assert Step(Fresh, calls[0]) == Fresh;
        DeliversExactlySendsAfterConnect(calls[1..]);
        assert Connect in calls <==> Connect in calls[1..] by {
          assert calls == [calls[0]] + calls[1..];
        }
      }
    }
  }

  /** Before any connect nothing is forwarded, however many sends were made. */
  lemma DropsBeforeConnect(calls: seq<Call>)
    requires Connect !in calls
    ensures Run(Fresh, calls) == Fresh
  {
    DeliversExactlySendsAfterConnect(calls);
  }

  /** Connecting twice is the same as connecting once. */
  lemma ConnectIdempotent(g: Gateway)
    ensures Step(Step(g, Connect), Connect) == Step(g, Connect)
  {
  }

  /** Once connected, a dispatcher stays connected: no call disconnects it. */
  lemma {:induction false} ConnectedIsPermanent(g: Gateway, calls: seq<Call>)
    requires g.connected
    ensures Run(g, calls).connected
    decreases |calls|
  {
    if calls != [] {
      ConnectedIsPermanent(Step(g, calls[0]), calls[1..]);
    }
  }

  /** The log only grows: a run extends the log it started from. */
  lemma {:induction false} DeliveredOnlyGrows(g: Gateway, calls: seq<Call>)
    ensures g.delivered <= Run(g, calls).delivered
    decreases |calls|
  {
    if calls != [] {
      DeliveredOnlyGrows(Step(g, calls[0]), calls[1..]);
    }
  }

  // ------------------------------------------------------- the class

  /** `OverlayDispatcher`. */
  class OverlayDispatcher {
    /** `_overlay`: set when connected. */
    var overlay: Window.DraggableOverlay?
    /** `_connected`. */
    var connected: bool
    /** Every `move_received` emission so far, in order. */
    var delivered: seq<Models.MoveDisplayData>

    function State(): Gateway
      reads this
    {
      Gateway(connected, delivered)
    }

    /** Connected exactly when an overlay is held. */
    predicate Valid()
      reads this
    {
      connected <==> overlay != null
    }

    /** `OverlayDispatcher()`: not connected, no overlay, nothing forwarded. */
    constructor ()
      ensures Valid() && State() == Fresh && overlay == null
    {
      overlay := null;
      connected := false;
      delivered := [];
    }

    /**
     * `connect_overlay`: the first call fetches the shared overlay and
     * connects; any later call returns at once.
     */
    method ConnectOverlay(overlays: Window.OverlaySlot, store: Config.ConfigStore)
      requires Valid()
      modifies this`overlay, this`connected, overlays
      ensures Valid() && State() == Step(old(State()), Connect)
      ensures old(connected) ==> overlay == old(overlay) && overlays.instance == old(overlays.instance)
      ensures !old(connected) ==> overlay == overlays.instance
      ensures !old(connected) && old(overlays.instance) != null ==> overlay == old(overlays.instance)
    {
      if connected {
        return;
      }
      var o := overlays.GetOverlay(store);
      overlay := o;
      connected := true;
    }

    /**
     * `dispatch`: not connected, the data is dropped; connected, it is
     * emitted once, unchanged and without filtering.
     */
    method Dispatch(data: Models.MoveDisplayData)
      modifies this`delivered
      ensures State() == Step(old(State()), Send(data))
    {
      if !connected {
        return;
      }
      delivered := delivered + [data];
    }
  }

  /** `_dispatcher_instance`: the module-level dispatcher, created on first use. */
  class DispatcherSlot {
    var instance: OverlayDispatcher?

    constructor ()
      ensures instance == null
    {
      instance := null;
    }

    /** `_get_dispatcher`: creates the dispatcher once and returns that same instance on every call. */
    method GetDispatcher() returns (d: OverlayDispatcher)
      requires instance != null ==> instance.Valid()
      modifies this
      ensures old(instance) != null ==> d == old(instance)
      ensures old(instance) == null ==> fresh(d) && d.State() == Fresh && d.overlay == null
      ensures instance == d && d.Valid()
    {
      if instance == null {
        instance := new OverlayDispatcher();
      }
      d := instance;
    }

    /** `dispatch_data`: sends through the shared dispatcher, creating it (unconnected) if needed. */
    method DispatchData(data: Models.MoveDisplayData)
      requires instance != null ==> instance.Valid()
      modifies this, instance
      ensures instance != null && instance.Valid()
      ensures old(instance) != null ==> instance == old(instance) && instance.State() == Step(old(instance.State()), Send(data))
      ensures old(instance) == null ==> fresh(instance) && instance.State() == Fresh
    {
      var d := GetDispatcher();
      d.Dispatch(data);
    }

    /** `init_dispatcher`: connects the shared dispatcher to the shared overlay. */
    method InitDispatcher(overlays: Window.OverlaySlot, store: Config.ConfigStore)
      requires instance != null ==> instance.Valid()
      modifies this, instance, overlays
      ensures instance != null && instance.Valid() && instance.connected
      ensures old(instance) != null ==> instance == old(instance) && instance.delivered == old(instance.delivered)
      ensures old(instance) == null ==> fresh(instance) && instance.delivered == []
    {
      var d := GetDispatcher();
      d.ConnectOverlay(overlays, store);
    }
  }
}
