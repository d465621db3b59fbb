/** The battery event stream of ios/Runner/AppDelegate.swift as a state
    machine on values: the held sink, the battery-monitoring flag, the number
    of active observer registrations and the log of everything handed to a
    sink. Every transition below is the value-level meaning of one method of
    the stream handler; the lemmas speak about arbitrary sequences of them. */
module StreamModel {
  import opened BatteryEvents

  /** An opaque `FlutterEventSink` handle, told apart by an identity. */
  datatype Sink = Sink(id: nat)

  datatype Bridge = Bridge(
    sink: Option<Sink>,              // `eventSink`
    monitoring: bool,                // `UIDevice.current.isBatteryMonitoringEnabled`
    observers: nat,                  // registrations of the delegate for battery-state notifications
    delivered: seq<(Sink, Event)>)   // every sink call so far, in order

  /** Before any listener: no sink, monitoring off, no registration, nothing sent. */
  const Initial: Bridge := Bridge(None, false, 0, [])

  /** A sink is held exactly when at least one observer registration is active. */
  predicate Coupled(b: Bridge) {
    b.sink.Some? <==> b.observers > 0
  }

  /** `sendBatteryStateEvent`: without a sink nothing happens; with one, the
      mapped current state is handed to it and nothing else changes. */
  function SendBatteryStateEvent(b: Bridge, raw: RawState): (r: Bridge)
    ensures b.sink.None? ==> r == b
    ensures b.sink.Some? ==> r == b.(delivered := b.delivered + [(b.sink.value, BatteryEvent(raw))])
  {
    match b.sink
    case None => b
    case Some(s) => b.(delivered := b.delivered + [(s, BatteryEvent(raw))])
  }

  /** `onBatteryStateDidChange`: one call of the notification selector. */
  function OnBatteryStateDidChange(b: Bridge, raw: RawState): (r: Bridge)
    ensures r.sink == b.sink && r.monitoring == b.monitoring && r.observers == b.observers
    ensures b.sink.Some? ==> r.delivered == b.delivered + [(b.sink.value, BatteryEvent(raw))]
    ensures b.sink.None? ==> r.delivered == b.delivered
  {
    SendBatteryStateEvent(b, raw)
  }

  /** `onListen`: store the sink, switch monitoring on, send one snapshot of
      the current state to the new sink, then register the observer once more. */
  function OnListen(b: Bridge, s: Sink, raw: RawState): (r: Bridge)
    ensures r.sink == Some(s) && r.monitoring
    ensures r.observers == b.observers + 1
    ensures r.delivered == b.delivered + [(s, BatteryEvent(raw))]
    ensures Coupled(r)
  {
    var stored := b.(sink := Some(s), monitoring := true);
    var sent := SendBatteryStateEvent(stored, raw);
    sent.(observers := sent.observers + 1)
  }

  /** `onCancel`: drop every registration of the delegate and forget the sink;
      monitoring is left as it was and nothing is sent. */
  function OnCancel(b: Bridge): (r: Bridge)
    ensures r.sink.None? && r.observers == 0
    ensures r.monitoring == b.monitoring && r.delivered == b.delivered
    ensures Coupled(r)
  {
    b.(sink := None, observers := 0)
  }

  /** The notification centre calls the selector once per registration:
      `n` calls of `onBatteryStateDidChange` for the same state. */
  function Fanout(b: Bridge, raw: RawState, n: nat): (r: Bridge)
    decreases n
    ensures r.sink == b.sink && r.monitoring == b.monitoring && r.observers == b.observers
    ensures b.sink.None? ==> r.delivered == b.delivered
    ensures b.sink.Some? ==> |r.delivered| == |b.delivered| + n
    ensures r.delivered[..|b.delivered|] == b.delivered
    ensures forall i :: |b.delivered| <= i < |r.delivered| ==> r.delivered[i] == (b.sink.value, BatteryEvent(raw))
  {
    if n == 0 then b else Fanout(OnBatteryStateDidChange(b, raw), raw, n - 1)
  }

  /** A battery-state notification posted by the operating system. */
  function Post(b: Bridge, raw: RawState): Bridge {
    Fanout(b, raw, b.observers)
  }

  /** The calls the stream handler receives. */
  datatype Op = Listen(s: Sink, raw: RawState) | Notify(raw: RawState) | Cancel

  function Step(b: Bridge, op: Op): Bridge {
    match op
    case Listen(s, raw) => OnListen(b, s, raw)
    case Notify(raw) => Post(b, raw)
    case Cancel => OnCancel(b)
  }

  function Run(b: Bridge, ops: seq<Op>): Bridge
    decreases |ops|
  {
    if ops == [] then b else Run(Step(b, ops[0]), ops[1..])
  }

  predicate NoListen(ops: seq<Op>) {
    forall i :: 0 <= i < |ops| ==> !ops[i].Listen?
  }

  /** After any sequence of calls from a coupled state (the initial one
      included), a sink is held exactly when an observer is registered. */
  lemma {:induction false} CoupledRun(b: Bridge, ops: seq<Op>)
    requires Coupled(b)
    ensures Coupled(Run(b, ops))
    decreases |ops|
  {
    if ops != [] {
      CoupledRun(Step(b, ops[0]), ops[1..]);
    }
  }

  /** In a coupled state with a sink, a notification hands one event per
      registration, each the mapped state, to the held sink; without a sink
      it changes nothing. */
  lemma PostDelivers(b: Bridge, raw: RawState)
    requires Coupled(b)
    ensures b.sink.None? ==> Post(b, raw) == b
    ensures b.sink.Some? ==> |Post(b, raw).delivered| == |b.delivered| + b.observers >= |b.delivered| + 1
    ensures b.sink.Some? ==>
              Post(b, raw).delivered == b.delivered + seq(b.observers, _ => (b.sink.value, BatteryEvent(raw)))
    ensures b.sink.Some? && b.observers == 1 ==>
              Post(b, raw).delivered == b.delivered + [(b.sink.value, BatteryEvent(raw))]
  {
  }

  /** `onCancel` is idempotent, and afterwards the handler sends nothing. */
  lemma CancelIdempotent(b: Bridge, raw: RawState)
    ensures OnCancel(OnCancel(b)) == OnCancel(b)
    ensures OnBatteryStateDidChange(OnCancel(b), raw) == OnCancel(b)
    ensures Post(OnCancel(b), raw) == OnCancel(b)
  {
  }

  /** Without a sink, no sequence of notifications and cancels sends anything. */
  lemma {:induction false} SilentWhileDetached(b: Bridge, ops: seq<Op>)
    requires b.sink.None?
    requires NoListen(ops)
    ensures Run(b, ops).sink.None?
    ensures Run(b, ops).delivered == b.delivered
    decreases |ops|
  {
    if ops != [] {
      assert !ops[0].Listen?;
      SilentWhileDetached(Step(b, ops[0]), ops[1..]);
    }
  }

  /** Once `onCancel` has run, nothing reaches any sink until the next `onListen`. */
  lemma SilentAfterCancel(b: Bridge, ops: seq<Op>)
    requires NoListen(ops)
    ensures Run(OnCancel(b), ops).delivered == b.delivered
  {
    SilentWhileDetached(OnCancel(b), ops);
  }

  /** While `s` is the held sink (or no sink is held) and no new listener
      arrives, every event sent goes to `s` and the earlier log is kept. */
  lemma {:induction false} OnlyToSink(b: Bridge, s: Sink, ops: seq<Op>)
    requires b.sink == Some(s) || b.sink.None?
    requires NoListen(ops)
    ensures b.delivered <= Run(b, ops).delivered
    ensures forall i :: |b.delivered| <= i < |Run(b, ops).delivered| ==> Run(b, ops).delivered[i].0 == s
    decreases |ops|
  {
    if ops != [] {
      assert !ops[0].Listen?;
      var next := Step(b, ops[0]);
      assert b.delivered <= next.delivered;
      assert forall i :: |b.delivered| <= i < |next.delivered| ==> next.delivered[i].0 == s;
      OnlyToSink(next, s, ops[1..]);
    }
  }

  /** Last writer wins: after `onListen(s)` the snapshot and every later
      event, up to the next `onListen`, go to `s`. */
  lemma LatestSinkReceives(b: Bridge, s: Sink, raw: RawState, ops: seq<Op>)
    requires NoListen(ops)
    ensures var r := Run(OnListen(b, s, raw), ops);
      |r.delivered| > |b.delivered| &&
      r.delivered[|b.delivered|] == (s, BatteryEvent(raw)) &&
      forall i :: |b.delivered| <= i < |r.delivered| ==> r.delivered[i].0 == s
  {
    var l := OnListen(b, s, raw);
    OnlyToSink(l, s, ops);
    assert l.delivered[|b.delivered|] == (s, BatteryEvent(raw));
  }

  /** Because the code registers the observer again on every `onListen`,
      after two `onListen` calls without an `onCancel` in between, a
      notification reaches the second sink twice. */
  lemma RepeatedListenDuplicates(a: Sink, c: Sink, r1: RawState, r2: RawState, raw: RawState)
    ensures Post(OnListen(OnListen(Initial, a, r1), c, r2), raw).delivered ==
      [(a, BatteryEvent(r1)), (c, BatteryEvent(r2)), (c, BatteryEvent(raw)), (c, BatteryEvent(raw))]
  {
  }

  /** Attach a sink while unplugged, see the state become full, detach, then
      see it charging: the sink receives "discharging" then "charging", and
      the last notification reaches no one. */
  lemma EndToEnd(a: Sink)
    ensures Run(Initial, [Listen(a, Unplugged), Notify(Full), Cancel, Notify(Charging)]).delivered ==
      [(a, Str(DischargingText)), (a, Str(ChargingText))]
  {
    var b1 := OnListen(Initial, a, Unplugged);
    var b2 := Post(b1, Full);
    assert b2.delivered == [(a, Str(DischargingText)), (a, Str(ChargingText))] by {
      assert b2 == Fanout(OnBatteryStateDidChange(b1, Full), Full, 0);
    }
    var b3 := OnCancel(b2);
    var b4 := Post(b3, Charging);
    var ops := [Listen(a, Unplugged), Notify(Full), Cancel, Notify(Charging)];
    assert Run(Initial, ops) == Run(b1, ops[1..]);
    assert Run(b1, ops[1..]) == Run(b2, ops[2..]);
    assert Run(b2, ops[2..]) == Run(b3, ops[3..]);
    assert Run(b3, ops[3..]) == Run(b4, []);
  }
}
