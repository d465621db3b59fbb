/** The values that travel on the battery event channel, and the mapping from
    the operating system's battery state to one outgoing event
    (`sendBatteryStateEvent` in ios/Runner/AppDelegate.swift). */
module BatteryEvents {

  datatype Option<+T> = None | Some(value: T)

  /** `UIDevice.BatteryState` as the operating system reports it. */
  datatype RawState = Unknown | Unplugged | Charging | Full

  /** A `FlutterError` value: a code, a message and optional details. */
  datatype FlutterError = FlutterError(code: string, message: string, details: Option<string>)

  /** One value handed to the event sink: a plain string or an error object.
      Both go through the same sink call. */
  datatype Event = Str(text: string) | Error(error: FlutterError)

  const ChargingText: string := "charging"
  const DischargingText: string := "discharging"
  const UnavailableCode: string := "UNAVAILABLE"
  const UnavailableMessage: string := "Charging status unavailable"

  /** The error event sent for every state that is neither charging nor unplugged. */
  const Unavailable: Event := Error(FlutterError(UnavailableCode, UnavailableMessage, None))

  /** The switch of `sendBatteryStateEvent`: full and charging report
      "charging", unplugged reports "discharging", anything else the
      UNAVAILABLE error with no details. */
  function BatteryEvent(raw: RawState): (e: Event)
    ensures e == Str(ChargingText) <==> raw == Full || raw == Charging
    ensures e == Str(DischargingText) <==> raw == Unplugged
    ensures e.Error? <==> raw != Full && raw != Charging && raw != Unplugged
    ensures e.Error? ==>
      e.error.code == UnavailableCode && e.error.message == UnavailableMessage && e.error.details == None
  {
    match raw
    case Full => Str(ChargingText)
    case Charging => Str(ChargingText)
    case Unplugged => Str(DischargingText)
    case _ => Unavailable
  }

  /** The three categories a listener can tell apart on the event stream. */
  datatype Status = IsCharging | IsDischarging | IsUnavailable

  /** How a listener reads an event back into a category; `None` for a value
      the handler never sends. */
  function StatusOf(e: Event): (st: Option<Status>)
    ensures st == Some(IsCharging) <==> e == Str(ChargingText)
    ensures st == Some(IsDischarging) <==> e == Str(DischargingText)
    ensures st == Some(IsUnavailable) <==> e.Error? && e.error.code == UnavailableCode
  {
    match e
    case Str(t) =>
      if t == ChargingText then Some(IsCharging)
      else if t == DischargingText then Some(IsDischarging)
      else None
    case Error(err) => if err.code == UnavailableCode then Some(IsUnavailable) else None
  }

  /** The classification the mapping is meant to implement, stated on its own. */
  function Category(raw: RawState): Status {
    if raw == Full || raw == Charging then IsCharging
    else if raw == Unplugged then IsDischarging
    else IsUnavailable
  }

  /** Totality: every raw state yields exactly one event, one of the three
      values the channel carries, and a listener reads it back as the
      intended category. */
  lemma MappingTotal(raw: RawState)
    ensures BatteryEvent(raw) in {Str(ChargingText), Str(DischargingText), Unavailable}
    ensures StatusOf(BatteryEvent(raw)) == Some(Category(raw))
  {
  }

  /** Two raw states give the same event exactly when they fall into the same category. */
  lemma SameEventIffSameCategory(a: RawState, b: RawState)
    ensures BatteryEvent(a) == BatteryEvent(b) <==> Category(a) == Category(b)
  {
  }
}
