/** The browser-side delivery client. It keeps two outbound buffers (data
    requests and alerts), each with a single transmission slot, a bounded
    buffer of network-speed samples with a speed status, a de-duplicated
    connection-error flag, and the sample paths still awaiting confirmation.
    Timer ticks and XMLHttpRequest completions are explicit method calls. */
module TeslaCommunication {
  import opened Wrappers
  import TeslaEvents

  const MAX_SPEED_SAMPLES: nat := 10
  const MAX_RETRIES: nat := 3
  /** A refreshed token is renewed this long before it expires. */
  const REFRESH_MARGIN_MS: int := 60 * 1000
  /** A failed refresh is retried after this long. */
  const REFRESH_RETRY_MS: int := 30 * 1000

  /** The two handlers the client registers on the event bus when configured. */
  const ALERT_HANDLER: TeslaEvents.HandlerId := "TeslaCommunication.sendAlert"
  const EVENT_HANDLER: TeslaEvents.HandlerId := "TeslaCommunication.onNetworkError"

  const RECOVERED_INFO := TeslaEvents.Notice("CONNECTION_RECOVERED", "TeslaCommunications", "Connection recovered with server")
  const LOST_INFO := TeslaEvents.Notice("CONNECTION_ERROR", "TeslaCommunications", "Connection lost with server")

  /** Learner, activity and session the client reports for, as the core module returns them. */
  datatype Context = Context(institutionId: int, learnerId: string, courseId: int, activityId: int, sessionId: Option<int>)

  datatype Metadata = Metadata(filename: Option<string>, mimetype: string, context: Option<string>, createdAt: int)

  datatype Body =
    | EnrolmentBody(learnerId: string, data: string, instruments: Option<seq<int>>, metadata: Metadata)
    | VerificationBody(learnerId: string, courseId: int, activityId: int, sessionId: Option<int>,
                       data: string, instruments: Option<seq<int>>, metadata: Metadata)
    | AlertBody(level: string, learnerId: string, courseId: int, activityId: int, sessionId: Option<int>,
                alert: TeslaEvents.Alert, instruments: Option<seq<int>>, raisedAt: int)

  /** A queued message. Data requests carry their type; alerts carry none. */
  datatype Item = Item(kind: Option<string>, institutionId: int, learnerId: string, body: Body,
                       retryCount: nat, transmitStart: Option<int>)

  /** An outbound buffer: the queue, the transmission slot and the time the
      slot was filled. `inFlight` stands for the request of the item in the
      slot that still awaits its load or error callback. */
  datatype Buffer = Buffer(requests: seq<Item>, current: Option<Item>, startedAt: Option<int>, inFlight: bool)

  datatype Channel = DataChannel | AlertChannel

  /** A status-poll request body. */
  datatype StatusRequest = StatusRequest(learnerId: string, samples: seq<string>)

  /** One entry of a status-poll response. */
  datatype SampleStatus = SampleStatus(sample: string, status: string)

  /** What the client's error-flag logic reacts to: a network error event, or
      a successful transmission that yields a speed sample. */
  datatype Signal = NetworkError | SpeedSample

  const EMPTY_BUFFER := Buffer([], None, None, false)

  /** The slot is filled exactly when its start time is set; queued items
      have retries left, and an item in flight has retries left. */
  ghost predicate BufferOk(b: Buffer)
  {
    (b.current.None? <==> b.startedAt.None?) &&
    (b.inFlight ==> b.current.Some? && b.current.value.retryCount < MAX_RETRIES) &&
    (b.current.Some? ==> b.current.value.retryCount <= MAX_RETRIES) &&
    (forall i :: 0 <= i < |b.requests| ==> b.requests[i].retryCount < MAX_RETRIES)
  }

  function Push(b: Buffer, item: Item): Buffer
  {
    b.(requests := b.requests + [item])
  }

  /** A drain tick: nothing happens while the queue is empty or the slot is
      taken; otherwise the most recently queued item moves into the slot. */
  function Drain(b: Buffer, now: int): (r: Buffer)
    ensures b.requests == [] || b.current.Some? ==> r == b
    ensures b.requests != [] && b.current.None? ==>
              r.current.Some? && r.requests + [r.current.value] == b.requests &&
              r.startedAt == Some(now) && r.inFlight
  {
    if b.requests == [] || b.current.Some? then b
    else
      var n := |b.requests|;
      Buffer(b.requests[..n - 1], Some(b.requests[n - 1]), Some(now), true)
  }

  /** The load callback of the item in the slot: only status 200 empties the slot. */
  function Loaded(b: Buffer, status: int): (r: Buffer)
    ensures r.requests == b.requests && !r.inFlight
    ensures status == 200 ==> r.current.None? && r.startedAt.None?
    ensures status != 200 ==> r.current == b.current && r.startedAt == b.startedAt
  {
    if status == 200 then b.(current := None, startedAt := None, inFlight := false)
    else b.(inFlight := false)
  }

  /** The error callback of the item in the slot. The retry counter grows only
      when the request got an HTTP status; while retries remain the item is
      queued again (as the newest) and the slot is emptied, otherwise it stays
      in the slot. */
  function Failed(b: Buffer, status: int): (r: Buffer)
    requires b.current.Some?
    ensures !r.inFlight
    ensures var it := b.current.value;
            var n := if status > 0 then it.retryCount + 1 else it.retryCount;
            if n < MAX_RETRIES then
              r.current.None? && r.startedAt.None? &&
              r.requests == b.requests + [it.(retryCount := n, transmitStart := None)]
            else
              r.current == Some(it.(retryCount := n)) && r.startedAt == b.startedAt && r.requests == b.requests
  {
    var it := b.current.value;
    var item := if status > 0 then it.(retryCount := it.retryCount + 1) else it;
    if item.retryCount < MAX_RETRIES then
      Buffer(b.requests + [item.(transmitStart := None)], None, None, false)
    else
      b.(current := Some(item), inFlight := false)
  }

  /** Every buffer step keeps the slot discipline and the retry bound. */
  lemma BufferStepsKeepInvariant(b: Buffer, now: int, status: int, item: Item)
    requires BufferOk(b)
    ensures BufferOk(Drain(b, now))
    ensures BufferOk(Loaded(b, status))
    ensures b.inFlight ==> BufferOk(Failed(b, status))
    ensures item.retryCount < MAX_RETRIES ==> BufferOk(Push(b, item))
  {
  }

  /** An item whose retries are used up blocks its buffer: no tick sends anything else. */
  lemma {:induction false} ExhaustedItemBlocksBuffer(b: Buffer, status: int, ticks: seq<int>)
    requires b.current.Some? && b.current.value.retryCount == MAX_RETRIES - 1
    requires status > 0
    ensures Failed(b, status).current.Some?
    ensures DrainAll(Failed(b, status), ticks) == Failed(b, status)
  {
    if ticks != [] {
      ExhaustedItemBlocksBuffer(b, status, ticks[1..]);
    }
  }

  /** A load callback with any status but 200 keeps the item in the slot, so
      no later drain tick sends anything from that buffer. */
  lemma {:induction false} RejectedLoadBlocksBuffer(b: Buffer, status: int, ticks: seq<int>)
    requires b.current.Some? && status != 200
    ensures Loaded(b, status).current == b.current
    ensures DrainAll(Loaded(b, status), ticks) == Loaded(b, status)
    decreases |ticks|
  {
    if ticks != [] {
      RejectedLoadBlocksBuffer(b, status, ticks[1..]);
    }
  }

  /** The buffer after a run of drain ticks with no callbacks in between. */
  function DrainAll(b: Buffer, ticks: seq<int>): Buffer
    decreases |ticks|
  {
    if ticks == [] then b else DrainAll(Drain(b, ticks[0]), ticks[1..])
  }

  function Sum(s: seq<real>): real
  {
    if s == [] then 0.0 else Sum(s[..|s| - 1]) + s[|s| - 1]
  }

  function Mean(s: seq<real>): real
    requires |s| > 0
  {
    Sum(s) / (|s| as real)
  }

  /** The speed status of a mean speed in kb/s: 1 above 5, 2 above 1, else 3. */
  function SpeedStatus(mean: real): (t: int)
    ensures t in {1, 2, 3}
    ensures t == 1 <==> mean > 5.0
    ensures t == 3 <==> mean <= 1.0
  {
    if mean > 5.0 then 1 else if mean > 1.0 then 2 else 3
  }

  /** The speed of a transmission of `bytes` taking `ms` milliseconds, in kb/s. */
  function Speed(bytes: nat, ms: nat): real
    requires ms > 0
  {
    (bytes as real) / (ms as real) * 8.0
  }

  /** Adding a sample: when the buffer is full its newest sample is dropped
      first, so the buffer never exceeds its bound and keeps its oldest samples. */
  function AddSample(samples: seq<real>, x: real): (r: seq<real>)
    requires |samples| <= MAX_SPEED_SAMPLES
    ensures 1 <= |r| <= MAX_SPEED_SAMPLES
    ensures |r| == if |samples| < MAX_SPEED_SAMPLES then |samples| + 1 else MAX_SPEED_SAMPLES
    ensures r[|r| - 1] == x && r[..|r| - 1] == samples[..|r| - 1]
  {
    var kept := if |samples| >= MAX_SPEED_SAMPLES then samples[..|samples| - 1] else samples;
    kept + [x]
  }

  /** A sum of terms all above `lo` exceeds `lo` times their number. */
  lemma {:induction false} SumAbove(s: seq<real>, lo: real)
    requires |s| > 0 && forall i :: 0 <= i < |s| ==> s[i] > lo
    ensures Sum(s) > lo * (|s| as real)
  {
    if |s| > 1 {
      SumAbove(s[..|s| - 1], lo);
    }
  }

  /** A sum of terms all at most `hi` is at most `hi` times their number. */
  lemma {:induction false} SumAtMost(s: seq<real>, hi: real)
    requires forall i :: 0 <= i < |s| ==> s[i] <= hi
    ensures Sum(s) <= hi * (|s| as real)
  {
    if s != [] {
      SumAtMost(s[..|s| - 1], hi);
    }
  }

  /** If every sample is above 5 kb/s the status is 1; if every sample is at
      most 1 kb/s the status is 3. */
  lemma UniformSamplesStatus(s: seq<real>)
    requires |s| > 0
    ensures (forall i :: 0 <= i < |s| ==> s[i] > 5.0) ==> SpeedStatus(Mean(s)) == 1
    ensures (forall i :: 0 <= i < |s| ==> s[i] <= 1.0) ==> SpeedStatus(Mean(s)) == 3
  {
    var m := |s| as real;
    if forall i :: 0 <= i < |s| ==> s[i] > 5.0 {
      SumAbove(s, 5.0);
      QuotientBounds(Sum(s), m, 5.0);
    }
    if forall i :: 0 <= i < |s| ==> s[i] <= 1.0 {
      SumAtMost(s, 1.0);
      QuotientBounds(Sum(s), m, 1.0);
    }
  }

  /** Dividing by a positive count keeps a bound on the total. */
  lemma QuotientBounds(a: real, m: real, bound: real)
    requires m > 0.0
    ensures a > bound * m ==> a / m > bound
    ensures a <= bound * m ==> a / m <= bound
  {
    var q := a / m;
    assert q * m == a;
    if q <= bound {
      assert q * m <= bound * m;
    } else {
      assert q * m > bound * m;
    }
  }

  /** The connection-error flag after a signal: an error sets it, a speed sample clears it. */
  function NextFlag(flag: bool, s: Signal): bool
  {
    s == NetworkError
  }

  /** The number of CONNECTION_ERROR alerts raised along a run of signals. */
  function OutageAlerts(flag: bool, trace: seq<Signal>): nat
    decreases |trace|
  {
    if trace == [] then 0
    else (if trace[0] == NetworkError && !flag then 1 else 0) + OutageAlerts(NextFlag(flag, trace[0]), trace[1..])
  }

  /** Any number of consecutive network errors raise exactly one alert, and
      none at all while the flag is already set. */
  lemma {:induction false} OneAlertPerOutage(flag: bool, n: nat)
    ensures OutageAlerts(flag, seq(n, _ => NetworkError)) == if n == 0 || flag then 0 else 1
    decreases n
  {
    if n > 0 {
      var t := seq(n, _ => NetworkError);
      assert t[1..] == seq(n - 1, _ => NetworkError);
      OneAlertPerOutage(true, n - 1);
    }
  }

  /** The flag at the end of a run of signals. */
  function FlagAfter(flag: bool, trace: seq<Signal>): bool
    decreases |trace|
  {
    if trace == [] then flag else FlagAfter(NextFlag(flag, trace[0]), trace[1..])
  }

  /** The alerts of a run extended by one signal are those of the run plus
      those of the signal from the flag the run ends with. Together with the
      per-call contracts of Client.RaiseNetworkError and
      Client.UpdateNetworkSpeed, this gives the alert count of any sequence
      of calls. */
  lemma {:induction false} OutageAlertsAppend(flag: bool, trace: seq<Signal>, s: Signal)
    ensures OutageAlerts(flag, trace + [s]) == OutageAlerts(flag, trace) + OutageAlerts(FlagAfter(flag, trace), [s])
    ensures FlagAfter(flag, trace + [s]) == NextFlag(FlagAfter(flag, trace), s)
    decreases |trace|
  {
    if trace == [] {
      assert [] + [s] == [s];
      assert [s][1..] == [];
    } else {
      assert (trace + [s])[0] == trace[0];
      assert (trace + [s])[1..] == trace[1..] + [s];
      OutageAlertsAppend(NextFlag(flag, trace[0]), trace[1..], s);
    }
  }

  /** A successful speed sample ends the outage: the next error alerts again. */
  lemma RecoveryRearmsAlert(flag: bool, trace: seq<Signal>)
    ensures OutageAlerts(flag, [SpeedSample, NetworkError] + trace) == 1 + OutageAlerts(true, trace)
  {
    var t := [SpeedSample, NetworkError] + trace;
    assert t[1..] == [NetworkError] + trace;
    assert t[1..][1..] == trace;
  }

  /** Removes the first occurrence of `x`, if any, as `splice(indexOf(x), 1)`
      does; RemoveFirstAt states which element goes. */
  function RemoveFirst(s: seq<string>, x: string): (r: seq<string>)
    ensures x !in s ==> r == s
  {
    if s == [] then []
    else if s[0] == x then s[1..]
    else
      assert s == [s[0]] + s[1..];
      [s[0]] + RemoveFirst(s[1..], x)
  }

  /** The first occurrence of a present path is removed, and the paths
      before and after it stay, in order. */
  lemma {:induction false} RemoveFirstAt(s: seq<string>, x: string)
    requires x in s
    ensures RemoveFirst(s, x) == s[..TeslaEvents.IndexOf(s, x)] + s[TeslaEvents.IndexOf(s, x) + 1..]
  {
    if s[0] != x {
      var j := TeslaEvents.IndexOf(s[1..], x);
      RemoveFirstAt(s[1..], x);
      assert TeslaEvents.IndexOf(s, x) == 1 + j;
      assert s[..1 + j] == [s[0]] + s[1..][..j];
      assert s[1 + j + 1..] == s[1..][j + 1..];
    }
  }

  /** Removing a present path drops exactly one copy of it. */
  lemma RemoveFirstCount(s: seq<string>, x: string)
    ensures x in s ==> |RemoveFirst(s, x)| == |s| - 1 && multiset(RemoveFirst(s, x)) == multiset(s) - multiset{x}
  {
    if x in s {
      RemoveFirstAt(s, x);
      var i := TeslaEvents.IndexOf(s, x);
      assert s == s[..i] + [x] + s[i + 1..];
    }
  }

  /** The pending paths after a status response is processed in order: each
      entry whose status is not PENDING removes one occurrence of its sample. */
  function Prune(pending: seq<string>, responses: seq<SampleStatus>): seq<string>
    decreases |responses|
  {
    if responses == [] then pending
    else
      var next := if responses[0].status != "PENDING" then RemoveFirst(pending, responses[0].sample) else pending;
      Prune(next, responses[1..])
  }

  /** Pruning never adds a path, and removes at most one path per response entry. */
  lemma {:induction false} PruneShrinks(pending: seq<string>, responses: seq<SampleStatus>)
    ensures multiset(Prune(pending, responses)) <= multiset(pending)
    ensures |pending| - |responses| <= |Prune(pending, responses)| <= |pending|
    decreases |responses|
  {
    if responses != [] {
      RemoveFirstCount(pending, responses[0].sample);
      var next := if responses[0].status != "PENDING" then RemoveFirst(pending, responses[0].sample) else pending;
      PruneShrinks(next, responses[1..]);
    }
  }

  /** A response whose entries are all PENDING leaves the pending list as it was. */
  lemma {:induction false} PendingEntriesChangeNothing(pending: seq<string>, responses: seq<SampleStatus>)
    requires forall i :: 0 <= i < |responses| ==> responses[i].status == "PENDING"
    ensures Prune(pending, responses) == pending
    decreases |responses|
  {
    if responses != [] {
      PendingEntriesChangeNothing(pending, responses[1..]);
    }
  }

  /** A finished sample sent twice is confirmed one copy at a time. */
  lemma DuplicatesRemovedOneAtATime(pending: seq<string>, x: string, status: string)
    requires multiset(pending)[x] >= 2 && status != "PENDING"
    ensures x in Prune(pending, [SampleStatus(x, status)])
  {
    var r := Prune(pending, [SampleStatus(x, status)]);
    RemoveFirstCount(pending, x);
    assert [SampleStatus(x, status)][1..] == [];
    assert r == Prune(RemoveFirst(pending, x), []);
    assert multiset(r)[x] == multiset(pending)[x] - 1;
  }

  /** The queued data request for `kind`. The body's context and filename are
      always null: the sender passes null for both. */
  function DataItem(ctx: Context, kind: string, data: string, mimetype: string,
                    instruments: Option<seq<int>>, now: int): (r: Item)
    requires kind == "enrolment" || kind == "verification"
    ensures r.kind == Some(kind) && r.institutionId == ctx.institutionId && r.learnerId == ctx.learnerId
    ensures r.retryCount == 0 && r.transmitStart.None?
    ensures (r.body.EnrolmentBody? || r.body.VerificationBody?) &&
            r.body.metadata.filename.None? && r.body.metadata.context.None?
    ensures r.body.data == data && r.body.instruments == instruments
    ensures r.body.VerificationBody? <==> kind == "verification"
  {
    var md := Metadata(None, mimetype, None, now / 1000);
    var body := if kind == "enrolment" then EnrolmentBody(ctx.learnerId, data, instruments, md)
                else VerificationBody(ctx.learnerId, ctx.courseId, ctx.activityId, ctx.sessionId, data, instruments, md);
    Item(Some(kind), ctx.institutionId, ctx.learnerId, body, 0, None)
  }

  /** The queued message for a raised alert: the alert itself is the data,
      and no instruments are ever attached. */
  function AlertItem(ctx: Context, a: TeslaEvents.Alert, now: int): (r: Item)
    ensures r.kind.None? && r.retryCount == 0 && r.transmitStart.None?
    ensures r.body.AlertBody? && r.body.level == a.level && r.body.alert == a && r.body.instruments.None?
  {
    Item(None, ctx.institutionId, ctx.learnerId,
         AlertBody(a.level, ctx.learnerId, ctx.courseId, ctx.activityId, ctx.sessionId, a, None, now), 0, None)
  }

  function PushIf(c: bool, b: Buffer, item: Item): Buffer
  {
    if c then Push(b, item) else b
  }

  /** The CONNECTION_ERROR alert raised at time `now`. */
  function LostAlert(now: int): TeslaEvents.Alert
  {
    TeslaEvents.Alert(now, "error", LOST_INFO)
  }

  /** The handler calls made when NETWORK_ERROR is raised. The event handlers
      are called in order; when the error starts an outage, the client's own
      handler raises the CONNECTION_ERROR alert from inside its call, so every
      alert handler runs right after it and before the event handlers
      registered later. */
  function ErrorCalls(eventHandlers: seq<TeslaEvents.HandlerId>, alertHandlers: seq<TeslaEvents.HandlerId>,
                      now: int, alerted: bool): seq<TeslaEvents.Dispatch>
    requires EVENT_HANDLER in eventHandlers
  {
    var p := TeslaEvents.IndexOf(eventHandlers, EVENT_HANDLER);
    var e := TeslaEvents.Emitted(TeslaEvents.Event(now, "NETWORK_ERROR", TeslaEvents.EmptyObject));
    TeslaEvents.Calls(eventHandlers[..p + 1], e)
      + (if alerted then TeslaEvents.Calls(alertHandlers, TeslaEvents.Raised(LostAlert(now))) else [])
      + TeslaEvents.Calls(eventHandlers[p + 1..], e)
  }

  /** Dispatching to the handlers up to and including the client's, then the
      alert, then the remaining handlers appends exactly ErrorCalls. */
  lemma ErrorCallsInSteps(eventHandlers: seq<TeslaEvents.HandlerId>, alertHandlers: seq<TeslaEvents.HandlerId>,
                          now: int, alerted: bool, before: seq<TeslaEvents.Dispatch>, d1: seq<TeslaEvents.Dispatch>,
                          d2: seq<TeslaEvents.Dispatch>, d3: seq<TeslaEvents.Dispatch>)
    requires EVENT_HANDLER in eventHandlers
    requires var p := TeslaEvents.IndexOf(eventHandlers, EVENT_HANDLER);
      d1 == before + TeslaEvents.Calls(eventHandlers[0..p + 1],
                                       TeslaEvents.Emitted(TeslaEvents.Event(now, "NETWORK_ERROR", TeslaEvents.EmptyObject)))
    requires d2 == d1 + (if alerted then TeslaEvents.Calls(alertHandlers, TeslaEvents.Raised(LostAlert(now))) else [])
    requires var p := TeslaEvents.IndexOf(eventHandlers, EVENT_HANDLER);
      d3 == d2 + TeslaEvents.Calls(eventHandlers[p + 1..|eventHandlers|],
                                   TeslaEvents.Emitted(TeslaEvents.Event(now, "NETWORK_ERROR", TeslaEvents.EmptyObject)))
    ensures d3 == before + ErrorCalls(eventHandlers, alertHandlers, now, alerted)
  {
    var p := TeslaEvents.IndexOf(eventHandlers, EVENT_HANDLER);
    var e := TeslaEvents.Emitted(TeslaEvents.Event(now, "NETWORK_ERROR", TeslaEvents.EmptyObject));
    assert eventHandlers[0..p + 1] == eventHandlers[..p + 1];
    assert eventHandlers[p + 1..|eventHandlers|] == eventHandlers[p + 1..];
    var c1 := TeslaEvents.Calls(eventHandlers[..p + 1], e);
    var c2 := if alerted then TeslaEvents.Calls(alertHandlers, TeslaEvents.Raised(LostAlert(now))) else [];
    var c3 := TeslaEvents.Calls(eventHandlers[p + 1..], e);
    AppendThree(before, c1, c2, c3);
  }

  /** Regrouping four concatenated call lists. */
  lemma AppendThree<T>(a: seq<T>, b: seq<T>, c: seq<T>, d: seq<T>)
    ensures a + b + c + d == a + (b + c + d)
  {
  }

  /** Without an alert, raising NETWORK_ERROR is a plain delivery to every
      event handler in registration order. */
  lemma ErrorCallsWithoutAlert(eventHandlers: seq<TeslaEvents.HandlerId>, alertHandlers: seq<TeslaEvents.HandlerId>, now: int)
    requires EVENT_HANDLER in eventHandlers
    ensures ErrorCalls(eventHandlers, alertHandlers, now, false) ==
            TeslaEvents.Calls(eventHandlers, TeslaEvents.Emitted(TeslaEvents.Event(now, "NETWORK_ERROR", TeslaEvents.EmptyObject)))
  {
    var e := TeslaEvents.Emitted(TeslaEvents.Event(now, "NETWORK_ERROR", TeslaEvents.EmptyObject));
    var p := TeslaEvents.IndexOf(eventHandlers, EVENT_HANDLER);
    var c1 := TeslaEvents.Calls(eventHandlers[..p + 1], e);
    var c3 := TeslaEvents.Calls(eventHandlers[p + 1..], e);
    assert TeslaEvents.Calls(eventHandlers, e) == c1 + c3 by {
      TeslaEvents.CallsAppend(eventHandlers[..p + 1], eventHandlers[p + 1..], e);
      assert eventHandlers[..p + 1] + eventHandlers[p + 1..] == eventHandlers;
    }
    assert ErrorCalls(eventHandlers, alertHandlers, now, false) == c1 + [] + c3;
    assert c1 + [] + c3 == c1 + c3;
  }

  /** With an alert, the calls are the event handlers up to the client's own
      (the first of its registrations), then every alert handler with the
      CONNECTION_ERROR alert, then the remaining event handlers. */
  lemma ErrorCallsWithAlert(eventHandlers: seq<TeslaEvents.HandlerId>, alertHandlers: seq<TeslaEvents.HandlerId>,
                            now: int, k: nat)
    requires EVENT_HANDLER in eventHandlers && k < |alertHandlers|
    ensures var p := TeslaEvents.IndexOf(eventHandlers, EVENT_HANDLER);
            var calls := ErrorCalls(eventHandlers, alertHandlers, now, true);
            |calls| == |eventHandlers| + |alertHandlers| &&
            calls[p] == TeslaEvents.Dispatch(EVENT_HANDLER, TeslaEvents.Emitted(TeslaEvents.Event(now, "NETWORK_ERROR", TeslaEvents.EmptyObject))) &&
            calls[p + 1 + k] == TeslaEvents.Dispatch(alertHandlers[k], TeslaEvents.Raised(LostAlert(now)))
  {
    var e := TeslaEvents.Emitted(TeslaEvents.Event(now, "NETWORK_ERROR", TeslaEvents.EmptyObject));
    var p := TeslaEvents.IndexOf(eventHandlers, EVENT_HANDLER);
    var c1 := TeslaEvents.Calls(eventHandlers[..p + 1], e);
    var c2 := TeslaEvents.Calls(alertHandlers, TeslaEvents.Raised(LostAlert(now)));
    var c3 := TeslaEvents.Calls(eventHandlers[p + 1..], e);
    TeslaEvents.CallsInRegistrationOrder(eventHandlers[..p + 1], e);
    TeslaEvents.CallsInRegistrationOrder(alertHandlers, TeslaEvents.Raised(LostAlert(now)));
    TeslaEvents.CallsInRegistrationOrder(eventHandlers[p + 1..], e);
    var calls := c1 + c2 + c3;
    assert ErrorCalls(eventHandlers, alertHandlers, now, true) == calls;
    assert |c1| == p + 1 && c1[p] == TeslaEvents.Dispatch(EVENT_HANDLER, e);
    assert calls[p] == c1[p];
    assert calls[p + 1 + k] == c2[k];
  }

  class Client {
    const bus: TeslaEvents.EventBus
    const ctx: Context
    var requestBuffer: Buffer
    var alertBuffer: Buffer
    var speeds: seq<real>
    /** The last reported speed status; None before the first sample, -1 after a recovery. */
    var speedStatus: Option<int>
    var networkError: bool
    var pending: seq<string>
    var tokenExp: int
    /** The times at which a token refresh has been scheduled, in order. */
    var refreshTimers: seq<int>
    /** The number of token refresh requests sent. */
    var refreshRequests: nat

    ghost predicate Valid()
      reads this
    {
      BufferOk(requestBuffer) && BufferOk(alertBuffer) &&
      |speeds| <= MAX_SPEED_SAMPLES &&
      (speedStatus.Some? ==> speedStatus.value in {-1, 1, 2, 3})
    }

    /** The client's two handlers are registered on its bus. */
    ghost predicate Registered()
      reads bus
    {
      ALERT_HANDLER in bus.alertHandlers && EVENT_HANDLER in bus.eventHandlers
    }

    function Buf(ch: Channel): Buffer
      reads this
    {
      if ch == DataChannel then requestBuffer else alertBuffer
    }

    /** Configures the client: registers its alert and event handlers and
        schedules the token refresh, immediately when under a minute is left,
        otherwise at the expiry time itself. */
    constructor Configure(ctx: Context, bus: TeslaEvents.EventBus, tokenExp: int, now: int)
      modifies bus
      ensures Valid() && Registered()
      ensures this.ctx == ctx && this.bus == bus && this.tokenExp == tokenExp
      ensures requestBuffer == EMPTY_BUFFER && alertBuffer == EMPTY_BUFFER
      ensures speeds == [] && speedStatus.None? && !networkError && pending == []
      ensures bus.alertHandlers == old(bus.alertHandlers) + [ALERT_HANDLER]
      ensures bus.eventHandlers == old(bus.eventHandlers) + [EVENT_HANDLER]
      ensures bus.alerts == old(bus.alerts) && bus.dispatched == old(bus.dispatched)
      ensures tokenExp - now < REFRESH_MARGIN_MS ==> refreshRequests == 1 && refreshTimers == []
      ensures tokenExp - now >= REFRESH_MARGIN_MS ==> refreshRequests == 0 && refreshTimers == [tokenExp]
    {
      this.bus := bus;
      this.ctx := ctx;
      this.tokenExp := tokenExp;
      requestBuffer, alertBuffer := EMPTY_BUFFER, EMPTY_BUFFER;
      speeds, speedStatus, networkError, pending := [], None, false, [];
      var eta := tokenExp - now;
      if eta < REFRESH_MARGIN_MS {
        refreshTimers, refreshRequests := [], 1;
      } else {
        refreshTimers, refreshRequests := [now + eta], 0;
      }
      new;
      bus.RegisterAlertHandler(ALERT_HANDLER);
      bus.RegisterEventHandler(EVENT_HANDLER);
    }

    /** Queues a data request; a type other than enrolment or verification queues nothing. */
    method SendData(kind: string, data: string, mimetype: string, instruments: Option<seq<int>>,
                    context: Option<string>, filename: Option<string>, now: int) returns (queued: bool)
      requires Valid()
      modifies this
      ensures Valid()
      ensures queued <==> kind == "enrolment" || kind == "verification"
      ensures queued ==> requestBuffer == Push(old(requestBuffer), DataItem(ctx, kind, data, mimetype, instruments, now))
      ensures !queued ==> requestBuffer == old(requestBuffer)
      ensures alertBuffer == old(alertBuffer) && speeds == old(speeds) && speedStatus == old(speedStatus)
      ensures networkError == old(networkError) && pending == old(pending)
      ensures refreshTimers == old(refreshTimers) && refreshRequests == old(refreshRequests) && tokenExp == old(tokenExp)
    {
      queued := kind == "enrolment" || kind == "verification";
      if queued {
        requestBuffer := Push(requestBuffer, DataItem(ctx, kind, data, mimetype, instruments, now));
      }
    }

    /** The client's alert handler: every alert raised is queued for sending. */
    method SendAlert(a: TeslaEvents.Alert, now: int)
      requires Valid()
      modifies this
      ensures Valid()
      ensures alertBuffer == Push(old(alertBuffer), AlertItem(ctx, a, now))
      ensures requestBuffer == old(requestBuffer) && speeds == old(speeds) && speedStatus == old(speedStatus)
      ensures networkError == old(networkError) && pending == old(pending)
      ensures refreshTimers == old(refreshTimers) && refreshRequests == old(refreshRequests) && tokenExp == old(tokenExp)
    {
      alertBuffer := Push(alertBuffer, AlertItem(ctx, a, now));
    }

    /** A send-worker tick on one buffer: at most one item is taken, the most recent one. */
    method DrainTick(ch: Channel, now: int) returns (sent: Option<Item>)
      requires Valid()
      modifies this
      ensures Valid()
      ensures Buf(ch) == Drain(old(Buf(ch)), now)
      ensures sent.Some? <==> old(Buf(ch)).requests != [] && old(Buf(ch)).current.None?
      ensures sent.Some? ==> Buf(ch).current == sent && Buf(ch).requests + [sent.value] == old(Buf(ch)).requests
      ensures ch == DataChannel ==> alertBuffer == old(alertBuffer)
      ensures ch == AlertChannel ==> requestBuffer == old(requestBuffer)
      ensures speeds == old(speeds) && speedStatus == old(speedStatus)
      ensures networkError == old(networkError) && pending == old(pending)
      ensures refreshTimers == old(refreshTimers) && refreshRequests == old(refreshRequests) && tokenExp == old(tokenExp)
    {
      var b := Drain(Buf(ch), now);
      sent := if Buf(ch).requests != [] && Buf(ch).current.None? then b.current else None;
      if ch == DataChannel { requestBuffer := b; } else { alertBuffer := b; }
    }
    /** Raises NETWORK_ERROR. The event handlers are called in order; the
        client's own handler, at its registration position, sets the flag and,
        when it was clear, raises the CONNECTION_ERROR alert, which every
        alert handler receives (the client's queues it) before the remaining
        event handlers are called. */
    method RaiseNetworkError(now: int)
      requires Valid() && Registered()
      modifies this, bus
      ensures Valid() && Registered() && networkError == NextFlag(old(networkError), NetworkError)
      ensures bus.alerts == (if !old(networkError) then old(bus.alerts) + [LostAlert(now)] else old(bus.alerts))
      ensures |bus.alerts| == |old(bus.alerts)| + OutageAlerts(old(networkError), [NetworkError])
      ensures bus.dispatched == old(bus.dispatched) + ErrorCalls(bus.eventHandlers, bus.alertHandlers, now, !old(networkError))
      ensures alertBuffer == PushIf(!old(networkError), old(alertBuffer), AlertItem(ctx, LostAlert(now), now))
      ensures bus.alertHandlers == old(bus.alertHandlers) && bus.eventHandlers == old(bus.eventHandlers)
      ensures requestBuffer == old(requestBuffer) && speeds == old(speeds) && speedStatus == old(speedStatus)
      ensures pending == old(pending)
      ensures refreshTimers == old(refreshTimers) && refreshRequests == old(refreshRequests) && tokenExp == old(tokenExp)
    {
      var e := TeslaEvents.Event(now, "NETWORK_ERROR", TeslaEvents.EmptyObject);
      var p := TeslaEvents.IndexOf(bus.eventHandlers, EVENT_HANDLER);
      ghost var handlers := bus.eventHandlers;
      ghost var before := bus.dispatched;
      ghost var alerted := !networkError;
      bus.OnEventBetween(e, 0, p + 1);
      ghost var d1 := bus.dispatched;
      OnNetworkErrorEvent(now);
      ghost var d2 := bus.dispatched;
      bus.OnEventBetween(e, p + 1, |bus.eventHandlers|);
      ErrorCallsInSteps(handlers, bus.alertHandlers, now, alerted, before, d1, d2, bus.dispatched);
      assert [NetworkError][1..] == [];
    }

    /** The event handler the client registers: on NETWORK_ERROR, the first
        error of an outage sets the flag and raises the CONNECTION_ERROR
        alert, which every alert handler receives and the client's queues;
        a later error does nothing. */
    method OnNetworkErrorEvent(now: int)
      requires Valid() && Registered()
      modifies this, bus
      ensures Valid() && Registered() && networkError
      ensures bus.alerts == (if !old(networkError) then old(bus.alerts) + [LostAlert(now)] else old(bus.alerts))
      ensures bus.dispatched == old(bus.dispatched) +
                (if !old(networkError) then TeslaEvents.Calls(bus.alertHandlers, TeslaEvents.Raised(LostAlert(now))) else [])
      ensures alertBuffer == PushIf(!old(networkError), old(alertBuffer), AlertItem(ctx, LostAlert(now), now))
      ensures bus.alertHandlers == old(bus.alertHandlers) && bus.eventHandlers == old(bus.eventHandlers)
      ensures requestBuffer == old(requestBuffer) && speeds == old(speeds) && speedStatus == old(speedStatus)
      ensures pending == old(pending)
      ensures refreshTimers == old(refreshTimers) && refreshRequests == old(refreshRequests) && tokenExp == old(tokenExp)
    {
      if !networkError {
        networkError := true;
        var a := bus.RaiseAlert("error", LOST_INFO, None, now);
        SendAlert(a, now);
      }
    }

    /** A run of the client's two network callbacks in the order of
        `trace`, the k-th at time `times[k]`, a speed sample taking its value
        from `samples`: the flag ends as FlagAfter says, and the bus retains
        exactly the CONNECTION_ERROR alerts OutageAlerts counts. */
    method Replay(trace: seq<Signal>, samples: seq<real>, times: seq<int>)
      requires Valid() && Registered() && |samples| == |trace| && |times| == |trace|
      modifies this, bus
      ensures Valid() && Registered()
      ensures networkError == FlagAfter(old(networkError), trace)
      ensures |bus.alerts| == |old(bus.alerts)| + OutageAlerts(old(networkError), trace)
    {
      var i := 0;
      while i < |trace|
        invariant 0 <= i <= |trace|
        invariant Valid() && Registered()
        invariant networkError == FlagAfter(old(networkError), trace[..i])
        invariant |bus.alerts| == |old(bus.alerts)| + OutageAlerts(old(networkError), trace[..i])
      {
        OutageAlertsAppend(old(networkError), trace[..i], trace[i]);
        assert trace[..i + 1] == trace[..i] + [trace[i]];
        if trace[i] == NetworkError {
          RaiseNetworkError(times[i]);
        } else {
          UpdateNetworkSpeed(samples[i], times[i]);
        }
        i := i + 1;
      }
      assert trace[..|trace|] == trace;
    }

    /** Records a speed sample. Ending an outage clears the flag, resets the
        stored status to -1 and raises a non-retained info alert; the
        NETWORK_SPEED_CHANGE event is raised only when the status of the new
        mean differs from the stored one. */
    method UpdateNetworkSpeed(speed: real, now: int)
      requires Valid() && Registered()
      modifies this, bus
      ensures Valid() && Registered() && !networkError && networkError == NextFlag(old(networkError), SpeedSample)
      ensures |bus.alerts| == |old(bus.alerts)| + OutageAlerts(old(networkError), [SpeedSample])
      ensures speeds == AddSample(old(speeds), speed)
      ensures speedStatus == Some(SpeedStatus(Mean(speeds)))
      ensures var recovered := TeslaEvents.Alert(now, "info", RECOVERED_INFO);
              var previous := if old(networkError) then Some(-1) else old(speedStatus);
              var change := TeslaEvents.Event(now, "NETWORK_SPEED_CHANGE",
                                              TeslaEvents.SpeedChange(Mean(speeds), SpeedStatus(Mean(speeds))));
              bus.dispatched == old(bus.dispatched)
                + (if old(networkError) then TeslaEvents.Calls(bus.alertHandlers, TeslaEvents.Raised(recovered)) else [])
                + (if previous != speedStatus then TeslaEvents.Calls(bus.eventHandlers, TeslaEvents.Emitted(change)) else []) &&
              alertBuffer == PushIf(old(networkError), old(alertBuffer), AlertItem(ctx, recovered, now))
      ensures bus.alerts == old(bus.alerts)
      ensures bus.alertHandlers == old(bus.alertHandlers) && bus.eventHandlers == old(bus.eventHandlers)
      ensures requestBuffer == old(requestBuffer) && pending == old(pending)
      ensures refreshTimers == old(refreshTimers) && refreshRequests == old(refreshRequests) && tokenExp == old(tokenExp)
    {
      assert [SpeedSample][1..] == [];
      if networkError {
        networkError := false;
        speedStatus := Some(-1);
        var a := bus.RaiseAlert("info", RECOVERED_INFO, Some(false), now);
        SendAlert(a, now);
      }
      speeds := AddSample(speeds, speed);
      var mean := Mean(speeds);
      var status := SpeedStatus(mean);
      if speedStatus != Some(status) {
        var e := bus.RaiseEvent("NETWORK_SPEED_CHANGE", TeslaEvents.SpeedChange(mean, status), now);
        speedStatus := Some(status);
      }
    }

    /** A token refresh request is sent (by its timer or after a 401). */
    method RefreshToken()
      requires Valid()
      modifies this
      ensures Valid()
      ensures refreshRequests == old(refreshRequests) + 1
      ensures requestBuffer == old(requestBuffer) && alertBuffer == old(alertBuffer)
      ensures speeds == old(speeds) && speedStatus == old(speedStatus)
      ensures networkError == old(networkError) && pending == old(pending)
      ensures refreshTimers == old(refreshTimers) && tokenExp == old(tokenExp)
    {
      refreshRequests := refreshRequests + 1;
    }

    /** The load callback of the item in a buffer's slot. A 401 triggers a
        token refresh; a 200 stores the returned path for confirmation, feeds
        the transmission speed to the speed buffer and empties the slot; any
        other status leaves the item in the slot. */
    method OnLoad(ch: Channel, status: int, path: string, bytes: nat, ms: nat, now: int)
      requires Valid() && Registered() && Buf(ch).inFlight && ms > 0
      modifies this, bus
      ensures Valid() && Registered() && !Buf(ch).inFlight
      ensures refreshRequests == old(refreshRequests) + (if status == 401 then 1 else 0)
      ensures pending == if status == 200 then old(pending) + [path] else old(pending)
      ensures status != 200 ==>
                Buf(ch) == Loaded(old(Buf(ch)), status) && Buf(ch).current == old(Buf(ch)).current &&
                (ch == DataChannel ==> alertBuffer == old(alertBuffer)) &&
                (ch == AlertChannel ==> requestBuffer == old(requestBuffer)) &&
                speeds == old(speeds) && speedStatus == old(speedStatus) && networkError == old(networkError) &&
                bus.alerts == old(bus.alerts) && bus.dispatched == old(bus.dispatched)
      ensures status == 200 ==>
                Buf(ch).current.None? &&
                speeds == AddSample(old(speeds), Speed(bytes, ms)) &&
                speedStatus == Some(SpeedStatus(Mean(speeds))) && !networkError &&
                bus.alerts == old(bus.alerts) &&
                requestBuffer == (if ch == DataChannel then Loaded(old(requestBuffer), 200) else old(requestBuffer)) &&
                alertBuffer == PushIf(old(networkError),
                                      if ch == AlertChannel then Loaded(old(alertBuffer), 200) else old(alertBuffer),
                                      AlertItem(ctx, TeslaEvents.Alert(now, "info", RECOVERED_INFO), now))
      ensures bus.alertHandlers == old(bus.alertHandlers) && bus.eventHandlers == old(bus.eventHandlers)
      ensures refreshTimers == old(refreshTimers) && tokenExp == old(tokenExp)
    {
      if status == 401 {
        RefreshToken();
      }
      if status == 200 {
        Delivered(ch, path, bytes, ms, now);
      } else if ch == DataChannel {
        requestBuffer := Loaded(requestBuffer, status);
      } else {
        alertBuffer := Loaded(alertBuffer, status);
      }
    }

    /** A transmission answered with 200: its path waits for confirmation,
        its speed becomes a sample and the slot is emptied. */
    method Delivered(ch: Channel, path: string, bytes: nat, ms: nat, now: int)
      requires Valid() && Registered() && Buf(ch).inFlight && ms > 0
      modifies this, bus
      ensures Valid() && Registered() && !Buf(ch).inFlight
      ensures refreshRequests == old(refreshRequests) && pending == old(pending) + [path]
      ensures Buf(ch).current.None? &&
              speeds == AddSample(old(speeds), Speed(bytes, ms)) &&
              speedStatus == Some(SpeedStatus(Mean(speeds))) && !networkError &&
              bus.alerts == old(bus.alerts) &&
              requestBuffer == (if ch == DataChannel then Loaded(old(requestBuffer), 200) else old(requestBuffer)) &&
              alertBuffer == PushIf(old(networkError),
                                    if ch == AlertChannel then Loaded(old(alertBuffer), 200) else old(alertBuffer),
                                    AlertItem(ctx, TeslaEvents.Alert(now, "info", RECOVERED_INFO), now))
      ensures bus.alertHandlers == old(bus.alertHandlers) && bus.eventHandlers == old(bus.eventHandlers)
      ensures refreshTimers == old(refreshTimers) && tokenExp == old(tokenExp)
    {
      pending := pending + [path];
      UpdateNetworkSpeed(Speed(bytes, ms), now);
      if ch == DataChannel {
        requestBuffer := Loaded(requestBuffer, 200);
      } else {
        alertBuffer := Loaded(alertBuffer, 200);
      }
    }

    /** The error callback of the item in a buffer's slot: the item is retried
        or kept in the slot (see Failed), and NETWORK_ERROR is raised. */
    method OnError(ch: Channel, status: int, now: int)
      requires Valid() && Registered() && Buf(ch).inFlight
      modifies this, bus
      ensures Valid() && Registered() && networkError
      ensures var failed := Failed(old(Buf(ch)), status);
              requestBuffer == (if ch == DataChannel then failed else old(requestBuffer)) &&
              alertBuffer == PushIf(!old(networkError), if ch == AlertChannel then failed else old(alertBuffer),
                                    AlertItem(ctx, LostAlert(now), now))
      ensures bus.alerts == (if old(networkError) then old(bus.alerts) else old(bus.alerts) + [LostAlert(now)])
      ensures bus.dispatched == old(bus.dispatched) + ErrorCalls(bus.eventHandlers, bus.alertHandlers, now, !old(networkError))
      ensures bus.alertHandlers == old(bus.alertHandlers) && bus.eventHandlers == old(bus.eventHandlers)
      ensures speeds == old(speeds) && speedStatus == old(speedStatus) && pending == old(pending)
      ensures refreshTimers == old(refreshTimers) && refreshRequests == old(refreshRequests) && tokenExp == old(tokenExp)
    {
      if ch == DataChannel {
        requestBuffer := Failed(requestBuffer, status);
      } else {
        alertBuffer := Failed(alertBuffer, status);
      }
      RaiseNetworkError(now);
    }

    /** A status-poll tick: nothing is sent while no path awaits confirmation;
        otherwise every pending path is asked about. */
    method PollTick() returns (req: Option<StatusRequest>)
      ensures pending == [] ==> req.None?
      ensures pending != [] ==> req == Some(StatusRequest(ctx.learnerId, pending))
    {
      if pending == [] {
        req := None;
      } else {
        req := Some(StatusRequest(ctx.learnerId, pending));
      }
    }

    /** The load callback of a status poll. A 401 triggers a token refresh; on
        a 200 each entry that is no longer PENDING removes the first matching
        pending path. */
    method OnStatusResponse(status: int, responses: seq<SampleStatus>)
      requires Valid()
      modifies this
      ensures Valid()
      ensures pending == if status == 200 then Prune(old(pending), responses) else old(pending)
      ensures refreshRequests == old(refreshRequests) + (if status == 401 then 1 else 0)
      ensures requestBuffer == old(requestBuffer) && alertBuffer == old(alertBuffer)
      ensures speeds == old(speeds) && speedStatus == old(speedStatus) && networkError == old(networkError)
      ensures refreshTimers == old(refreshTimers) && tokenExp == old(tokenExp)
    {
      if status == 401 {
        RefreshToken();
      }
      if status == 200 {
        var p := pending;
        var i := 0;
        while i < |responses|
          invariant 0 <= i <= |responses|
          invariant Prune(p, responses[i..]) == Prune(old(pending), responses)
        {
          assert responses[i..][1..] == responses[i + 1..];
          if responses[i].status != "PENDING" {
            p := RemoveFirst(p, responses[i].sample);
          }
          i := i + 1;
        }
        pending := p;
      }
    }

    /** The load callback of a token refresh: on a 200 the new token is kept
        and the next refresh is scheduled a minute before it expires. */
    method OnRefreshLoad(status: int, newExp: int, now: int)
      requires Valid()
      modifies this
      ensures Valid()
      ensures status == 200 ==> tokenExp == newExp && refreshTimers == old(refreshTimers) + [newExp - REFRESH_MARGIN_MS]
      ensures status != 200 ==> tokenExp == old(tokenExp) && refreshTimers == old(refreshTimers)
      ensures refreshRequests == old(refreshRequests)
      ensures requestBuffer == old(requestBuffer) && alertBuffer == old(alertBuffer)
      ensures speeds == old(speeds) && speedStatus == old(speedStatus)
      ensures networkError == old(networkError) && pending == old(pending)
    {
      if status == 200 {
        tokenExp := newExp;
        var eta := (newExp - now) - REFRESH_MARGIN_MS;
        refreshTimers := refreshTimers + [now + eta];
      }
    }

    /** The error callback of a token refresh: it is retried in 30 seconds and
        NETWORK_ERROR is raised. */
    method OnRefreshError(now: int)
      requires Valid() && Registered()
      modifies this, bus
      ensures Valid() && Registered() && networkError
      ensures refreshTimers == old(refreshTimers) + [now + REFRESH_RETRY_MS]
      ensures bus.alerts == (if old(networkError) then old(bus.alerts) else old(bus.alerts) + [LostAlert(now)])
      ensures bus.dispatched == old(bus.dispatched) + ErrorCalls(bus.eventHandlers, bus.alertHandlers, now, !old(networkError))
      ensures alertBuffer == PushIf(!old(networkError), old(alertBuffer), AlertItem(ctx, LostAlert(now), now))
      ensures bus.alertHandlers == old(bus.alertHandlers) && bus.eventHandlers == old(bus.eventHandlers)
      ensures requestBuffer == old(requestBuffer) && speeds == old(speeds) && speedStatus == old(speedStatus)
      ensures pending == old(pending) && refreshRequests == old(refreshRequests) && tokenExp == old(tokenExp)
    {
      refreshTimers := refreshTimers + [now + REFRESH_RETRY_MS];
      RaiseNetworkError(now);
    }

    /** The error callback of a status poll: NETWORK_ERROR is raised and
        nothing else happens. */
    method OnPollError(now: int)
      requires Valid() && Registered()
      modifies this, bus
      ensures Valid() && Registered() && networkError
      ensures bus.alerts == (if old(networkError) then old(bus.alerts) else old(bus.alerts) + [LostAlert(now)])
      ensures bus.dispatched == old(bus.dispatched) + ErrorCalls(bus.eventHandlers, bus.alertHandlers, now, !old(networkError))
      ensures alertBuffer == PushIf(!old(networkError), old(alertBuffer), AlertItem(ctx, LostAlert(now), now))
      ensures bus.alertHandlers == old(bus.alertHandlers) && bus.eventHandlers == old(bus.eventHandlers)
      ensures requestBuffer == old(requestBuffer) && speeds == old(speeds) && speedStatus == old(speedStatus)
      ensures pending == old(pending) && refreshTimers == old(refreshTimers)
      ensures refreshRequests == old(refreshRequests) && tokenExp == old(tokenExp)
    {
      RaiseNetworkError(now);
    }
  }
}
