/** The `FlutterStreamHandler` side of `AppDelegate` in
    ios/Runner/AppDelegate.swift, as a class whose methods update its fields
    in place. The operating system's battery state reaches each method as a
    parameter; the monitoring flag and the observer registrations, which live
    in `UIDevice` and `NotificationCenter`, are fields here. Each method is
    tied to its transition in StreamModel, where the lemmas about sequences
    of calls live. */
module StreamHandler {
  import opened BatteryEvents
  import StreamModel

  class AppDelegate {
    var eventSink: Option<StreamModel.Sink>
    var monitoringEnabled: bool
    var observerCount: nat
    /** Every call of a sink so far, oldest first, with the sink it went to. */
    var delivered: seq<(StreamModel.Sink, Event)>

    /** The state of the handler as a value of the model. */
    ghost function Model(): StreamModel.Bridge
      reads this
    {
      StreamModel.Bridge(eventSink, monitoringEnabled, observerCount, delivered)
    }

    /** Object invariant: a sink is held exactly while the delegate is registered. */
    ghost predicate Valid()
      reads this
    {
      StreamModel.Coupled(Model())
    }

    constructor ()
      ensures Valid()
      ensures Model() == StreamModel.Initial
    {
      eventSink := None;
      monitoringEnabled := false;
      observerCount := 0;
      delivered := [];
    }

    /** Hands the mapped battery state to the held sink, if there is one. */
    method SendBatteryStateEvent(raw: RawState)
      modifies this`delivered
      ensures Model() == StreamModel.SendBatteryStateEvent(old(Model()), raw)
      ensures eventSink.None? ==> delivered == old(delivered)
      ensures eventSink.Some? ==> delivered == old(delivered) + [(eventSink.value, BatteryEvent(raw))]
    {
      match eventSink {
        case None =>
          return;
        case Some(sink) =>
          delivered := delivered + [(sink, BatteryEvent(raw))];
      }
    }

    /** The selector registered for battery-state notifications. */
    method OnBatteryStateDidChange(raw: RawState)
      modifies this`delivered
      ensures Model() == StreamModel.OnBatteryStateDidChange(old(Model()), raw)
      ensures eventSink.None? ==> delivered == old(delivered)
      ensures eventSink.Some? ==> delivered == old(delivered) + [(eventSink.value, BatteryEvent(raw))]
      ensures old(Valid()) ==> Valid()
    {
      SendBatteryStateEvent(raw);
    }

    /** A listener attaches: the new sink replaces any earlier one, monitoring
        is switched on, the current state is sent to the new sink at once and
        the delegate registers for notifications once more. Never fails. */
    method OnListen(sink: StreamModel.Sink, raw: RawState) returns (err: Option<FlutterError>)
      modifies this
      ensures err == None
      ensures Model() == StreamModel.OnListen(old(Model()), sink, raw)
      ensures eventSink == Some(sink) && monitoringEnabled
      ensures observerCount == old(observerCount) + 1
      ensures delivered == old(delivered) + [(sink, BatteryEvent(raw))]
      ensures Valid()
    {
      eventSink := Some(sink);
      monitoringEnabled := true;
      SendBatteryStateEvent(raw);
      observerCount := observerCount + 1;
      err := None;
    }

    /** The listener detaches: every registration of the delegate is removed
        and the sink is forgotten. Monitoring stays as it was. Never fails. */
    method OnCancel() returns (err: Option<FlutterError>)
      modifies this`eventSink, this`observerCount
      ensures err == None
      ensures Model() == StreamModel.OnCancel(old(Model()))
      ensures eventSink.None? && observerCount == 0
      ensures Valid()
    {
      observerCount := 0;
      eventSink := None;
      err := None;
    }
  }

  /** A caller that only knows the contracts above: cancelling twice leaves
      the handler as one cancel does, and later notifications send nothing. */
  method CancelTwice(d: AppDelegate, raw: RawState)
    modifies d
    ensures d.Model() == StreamModel.OnCancel(old(d.Model()))
  {
    var e1 := d.OnCancel();
    ghost var once := d.Model();
    var e2 := d.OnCancel();
    assert d.Model() == once by {
      StreamModel.CancelIdempotent(old(d.Model()), raw);
    }
    d.OnBatteryStateDidChange(raw);
  }
}
