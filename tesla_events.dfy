/** The browser-side event bus: an append-only registry of event and alert
    handlers, and the list of alerts retained for the learner. */
module TeslaEvents {
  import opened Wrappers

  /** A registered handler, identified by name. Calling a handler is recorded
      as a Dispatch in the bus's log. */
  type HandlerId = string

  /** The JSON payloads carried by events and alerts. */
  datatype Info =
    | Null
    | EmptyObject
    | Notice(kind: string, source: string, message: string)
    | SpeedChange(speed: real, status: int)
    | Payload(description: string)

  datatype Alert = Alert(raisedAt: int, level: string, info: Info)

  datatype Event = Event(createdAt: int, kind: string, info: Info)

  datatype Message = Raised(alert: Alert) | Emitted(event: Event)

  /** One call of a handler with an alert or an event. */
  datatype Dispatch = Dispatch(handler: HandlerId, message: Message)

  /** Whether an alert is retained: an explicit flag wins, a null flag means
      "every level but info". */
  function Notifies(level: string, notify: Option<bool>): (r: bool)
    ensures notify == None ==> (r <==> level != "info")
    ensures notify == Some(true) ==> r
    ensures notify == Some(false) ==> !r
  {
    match notify
    case Some(b) => b
    case None => level != "info"
  }

  /** The calls made when `m` is delivered to `handlers`, one per handler. */
  function Calls(handlers: seq<HandlerId>, m: Message): seq<Dispatch>
  {
    if handlers == [] then []
    else Calls(handlers[..|handlers| - 1], m) + [Dispatch(handlers[|handlers| - 1], m)]
  }

  /** Delivery calls every handler exactly once, in registration order. */
  lemma {:induction false} CallsInRegistrationOrder(handlers: seq<HandlerId>, m: Message)
    ensures |Calls(handlers, m)| == |handlers|
    ensures forall k :: 0 <= k < |handlers| ==> Calls(handlers, m)[k] == Dispatch(handlers[k], m)
  {
    if handlers != [] {
      CallsInRegistrationOrder(handlers[..|handlers| - 1], m);
    }
  }

  /** Calls split with the handler list: delivering to `a + b` is delivering
      to `a`, then to `b`. */
  lemma {:induction false} CallsAppend(a: seq<HandlerId>, b: seq<HandlerId>, m: Message)
    ensures Calls(a + b, m) == Calls(a, m) + Calls(b, m)
    decreases |b|
  {
    if b != [] {
      var b' := b[..|b| - 1];
      assert (a + b)[..|a + b| - 1] == a + b';
      assert (a + b)[|a + b| - 1] == b[|b| - 1];
      CallsAppend(a, b', m);
      assert Calls(b, m) == Calls(b', m) + [Dispatch(b[|b| - 1], m)];
      assert Calls(a + b, m) == Calls(a + b', m) + [Dispatch(b[|b| - 1], m)];
    } else {
      assert a + b == a;
    }
  }

  /** The position of the first occurrence of `x`, as `indexOf` gives it. */
  function IndexOf<T(==)>(s: seq<T>, x: T): (i: nat)
    requires x in s
    ensures i < |s| && s[i] == x && x !in s[..i]
  {
    if s[0] == x then 0
    else
      var i := 1 + IndexOf(s[1..], x);
      assert s[..i] == [s[0]] + s[1..][..i - 1];
      i
  }

  class EventBus {
    var eventHandlers: seq<HandlerId>
    var alertHandlers: seq<HandlerId>
    /** The retained alerts, oldest first. */
    var alerts: seq<Alert>
    /** Every handler call made so far, in order. */
    var dispatched: seq<Dispatch>

    constructor ()
      ensures eventHandlers == [] && alertHandlers == [] && alerts == [] && dispatched == []
    {
      eventHandlers, alertHandlers, alerts, dispatched := [], [], [], [];
    }

    method RegisterEventHandler(h: HandlerId)
      modifies this
      ensures eventHandlers == old(eventHandlers) + [h]
      ensures alertHandlers == old(alertHandlers) && alerts == old(alerts) && dispatched == old(dispatched)
    {
      eventHandlers := eventHandlers + [h];
    }

    method RegisterAlertHandler(h: HandlerId)
      modifies this
      ensures alertHandlers == old(alertHandlers) + [h]
      ensures eventHandlers == old(eventHandlers) && alerts == old(alerts) && dispatched == old(dispatched)
    {
      alertHandlers := alertHandlers + [h];
    }

    /** Calls every alert handler with `a`, in registration order. */
    method OnAlert(a: Alert)
      modifies this
      ensures dispatched == old(dispatched) + Calls(alertHandlers, Raised(a))
      ensures eventHandlers == old(eventHandlers) && alertHandlers == old(alertHandlers) && alerts == old(alerts)
    {
      var i := 0;
      while i < |alertHandlers|
        invariant 0 <= i <= |alertHandlers|
        invariant dispatched == old(dispatched) + Calls(alertHandlers[..i], Raised(a))
        invariant eventHandlers == old(eventHandlers) && alertHandlers == old(alertHandlers) && alerts == old(alerts)
      {
        assert alertHandlers[..i + 1][..i] == alertHandlers[..i];
        dispatched := dispatched + [Dispatch(alertHandlers[i], Raised(a))];
        i := i + 1;
      }
      assert alertHandlers[..i] == alertHandlers;
    }

    /** Calls every event handler with `e`, in registration order. */
    method OnEvent(e: Event)
      modifies this
      ensures dispatched == old(dispatched) + Calls(eventHandlers, Emitted(e))
      ensures eventHandlers == old(eventHandlers) && alertHandlers == old(alertHandlers) && alerts == old(alerts)
    {
      OnEventBetween(e, 0, |eventHandlers|);
      assert eventHandlers[0..|eventHandlers|] == eventHandlers;
    }

    /** The iterations `lo` to `hi` (excluded) of the loop of onEvent: the
        handlers at those positions are called with `e`, in order. A handler
        that raises something itself does so between two such stretches. */
    method OnEventBetween(e: Event, lo: nat, hi: nat)
      requires lo <= hi <= |eventHandlers|
      modifies this
      ensures eventHandlers == old(eventHandlers) && alertHandlers == old(alertHandlers) && alerts == old(alerts)
      ensures dispatched == old(dispatched) + Calls(eventHandlers[lo..hi], Emitted(e))
    {
      var i := lo;
      while i < hi
        invariant lo <= i <= hi
        invariant eventHandlers == old(eventHandlers) && alertHandlers == old(alertHandlers) && alerts == old(alerts)
        invariant dispatched == old(dispatched) + Calls(eventHandlers[lo..i], Emitted(e))
      {
        assert eventHandlers[lo..i + 1][..i - lo] == eventHandlers[lo..i];
        dispatched := dispatched + [Dispatch(eventHandlers[i], Emitted(e))];
        i := i + 1;
      }
    }

    /** Raises an alert at time `now`: it is retained iff it notifies, and it is
        passed to every alert handler whether retained or not. */
    method RaiseAlert(level: string, info: Info, notify: Option<bool>, now: int) returns (a: Alert)
      modifies this
      ensures a == Alert(now, level, info)
      ensures alerts == if Notifies(level, notify) then old(alerts) + [a] else old(alerts)
      ensures dispatched == old(dispatched) + Calls(alertHandlers, Raised(a))
      ensures eventHandlers == old(eventHandlers) && alertHandlers == old(alertHandlers)
    {
      a := Alert(now, level, info);
      if Notifies(level, notify) {
        alerts := alerts + [a];
      }
      OnAlert(a);
    }

    /** Raises an event at time `now` and passes it to every event handler. */
    method RaiseEvent(kind: string, info: Info, now: int) returns (e: Event)
      modifies this
      ensures e == Event(now, kind, info)
      ensures dispatched == old(dispatched) + Calls(eventHandlers, Emitted(e))
      ensures eventHandlers == old(eventHandlers) && alertHandlers == old(alertHandlers) && alerts == old(alerts)
    {
      e := Event(now, kind, info);
      OnEvent(e);
    }

    /** Empties the retained alerts and always raises ALERTS_CLEARED with a null payload. */
    method ClearAlerts(now: int) returns (e: Event)
      modifies this
      ensures alerts == []
      ensures e == Event(now, "ALERTS_CLEARED", Null)
      ensures dispatched == old(dispatched) + Calls(eventHandlers, Emitted(e))
      ensures eventHandlers == old(eventHandlers) && alertHandlers == old(alertHandlers)
    {
      alerts := [];
      e := RaiseEvent("ALERTS_CLEARED", Null, now);
    }

    /** The retained alerts, in the order they were raised. */
    method GetAlerts() returns (r: seq<Alert>)
      ensures r == alerts
    {
      r := alerts;
    }
  }
}
