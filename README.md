# Battery event stream of an iOS Flutter host, in Dafny

This project models the native side of a small Flutter sample app:
`AppDelegate` in `ios/Runner/AppDelegate.swift`. It has two parts.

- **Battery event stream.** `AppDelegate` is the `FlutterStreamHandler` of a battery event channel.
  - `onListen` stores the listener's event sink and switches battery monitoring on.
  - It then sends the current battery state to the new sink at once.
  - Last, it registers the delegate for battery-state notifications.
  - Each notification sends the mapped state again.
  - `onCancel` removes the delegate's observer registrations and forgets the sink.
  - `sendBatteryStateEvent` maps the battery state to one event:
    - `"charging"` for full or charging;
    - `"discharging"` for unplugged;
    - otherwise a `FlutterError` with code `UNAVAILABLE`, message `Charging status unavailable` and no details.
- **getString method channel.** The handler answers only the method `getStringMethodChannel`. It replies with `This is string returned from <user name>'s Device`. Any other method name gets `FlutterMethodNotImplemented`.

Modules:

- `BatteryEvents` (battery_events.dfy): the raw battery states, the event values and the mapping, with its totality lemma.
- `MethodChannel` (method_channel.dfy): the getString handler and its reply.
- `StreamModel` (stream_model.dfy): the stream handler as a state machine on values. The state is the sink, the monitoring flag, the number of observer registrations and the log of sink calls. The lemmas cover arbitrary sequences of listen, notify and cancel.
- `StreamHandler` (stream_handler.dfy): class `AppDelegate`. Its methods update these fields in place. Each method's contract ties the new state to its `StreamModel` transition and states the changed fields outright.

Two points of the code a reader might not expect:

- `onListen` switches monitoring on and registers the observer again on every call. After two `onListen` calls without an `onCancel` in between, each notification reaches the second sink twice (`StreamModel.PostDelivers`, `StreamModel.RepeatedListenDuplicates`).
- `onCancel` does not switch monitoring off. It only removes the registrations and clears the sink.

Inputs from outside the file become parameters:

- The current `UIDevice.current.batteryState` is the `raw` argument of each call.
- The user name of the device is a plain string argument.
- Whether the delegate behind the handler's `[weak self]` reference is still alive is a boolean argument.

## Model

| member | source | states |
|---|---|---|
| BatteryEvents.BatteryEvent | ios/Runner/AppDelegate.swift:93-104 | full or charging, and only those, give "charging"; unplugged, and only it, gives "discharging"; every other state gives an error event with code UNAVAILABLE, message "Charging status unavailable" and no details |
| BatteryEvents.StatusOf | ios/Runner/AppDelegate.swift:20-27 | reference decoder of the channel constants declared here (not code of the file): an event reads as charging exactly when it is the string "charging", as discharging exactly when it is "discharging", and as unavailable exactly when it is an error with code UNAVAILABLE |
| BatteryEvents.MappingTotal | ios/Runner/AppDelegate.swift:93-104 | every raw state maps to one of the three channel values, and a listener reads that value back as the intended category (charging, discharging, unavailable) |
| BatteryEvents.SameEventIffSameCategory | ios/Runner/AppDelegate.swift:93-104 | two raw states produce the same event if and only if they are in the same category |
| MethodChannel.GetString | ios/Runner/AppDelegate.swift:64-69 | the reply is the fixed leading text, then the user name, then "'s Device", with its exact length |
| MethodChannel.UserNameOf | ios/Runner/AppDelegate.swift:68 | the extracted name is the reply's length minus the fixed texts, and any reply that starts with the fixed leading text and ends with "'s Device" is exactly the `getString` reply for the extracted name |
| MethodChannel.GetStringRoundTrip | ios/Runner/AppDelegate.swift:66-68 | reading the user name back out of a reply gives the embedded name, so different users get different replies |
| MethodChannel.HandleMethodCall | ios/Runner/AppDelegate.swift:49-56 | a name other than "getStringMethodChannel" gets exactly one not-implemented result; the matching name gets exactly one string reply while the delegate is alive and none once it is gone; never more than one result |
| StreamModel.SendBatteryStateEvent | ios/Runner/AppDelegate.swift:88-105 | without a sink the state is unchanged; with one, only the log grows, by exactly the mapped state sent to the held sink |
| StreamModel.OnBatteryStateDidChange | ios/Runner/AppDelegate.swift:84-86 | one notification call keeps sink, flag and registrations, and sends exactly one mapped event to the held sink, or nothing without a sink |
| StreamModel.OnListen | ios/Runner/AppDelegate.swift:71-82 | the stored sink is the new one, monitoring is on, one more registration exists, exactly one event (the mapped current state) was sent, to the new sink, and sink and registrations are coupled |
| StreamModel.OnCancel | ios/Runner/AppDelegate.swift:107-111 | no sink and no registration remain, monitoring and the log are untouched, and sink and registrations are coupled |
| StreamModel.Fanout | ios/Runner/AppDelegate.swift:76-80 | n notification calls keep sink, flag and registrations, keep the earlier log, and append n copies of the mapped event for the held sink, or nothing without a sink |
| StreamModel.CoupledRun | ios/Runner/AppDelegate.swift:71-111 | over any sequence of listen, notify and cancel calls from a coupled state, a sink is held exactly when an observer registration is active |
| StreamModel.PostDelivers | ios/Runner/AppDelegate.swift:84-91 | in a coupled state a notification changes nothing without a sink; with a sink it appends exactly one copy of the mapped state for the held sink per active registration (at least one), and nothing else |
| StreamModel.CancelIdempotent | ios/Runner/AppDelegate.swift:107-111 | a second cancel leaves the state as the first left it, and after a cancel a notification changes nothing |
| StreamModel.SilentWhileDetached | ios/Runner/AppDelegate.swift:88-91 | with no sink held, any sequence of notifications and cancels keeps the sink absent and sends nothing |
| StreamModel.SilentAfterCancel | ios/Runner/AppDelegate.swift:107-111 | after a cancel, nothing is sent to any sink until the next listen |
| StreamModel.OnlyToSink | ios/Runner/AppDelegate.swift:88-104 | while sink s (or none) is held and no listener attaches, the earlier log is kept and every later event goes to s |
| StreamModel.LatestSinkReceives | ios/Runner/AppDelegate.swift:71-82 | after listen(s), the first new event is the snapshot of the current state sent to s, and every event up to the next listen goes to s (last writer wins) |
| StreamModel.RepeatedListenDuplicates | ios/Runner/AppDelegate.swift:73-80 | from the initial state, two onListen calls without an onCancel in between followed by one notification give the two snapshots and then two copies of the mapped state for the second sink, because the observer was registered twice |
| StreamModel.EndToEnd | ios/Runner/AppDelegate.swift:71-111 | listen while unplugged, then full, cancel, then charging: the sink receives "discharging" then "charging" and nothing else |
| StreamHandler.AppDelegate.constructor | ios/Runner/AppDelegate.swift:31 | a new delegate holds no sink, has monitoring off, no registration and an empty log, and satisfies the coupling invariant |
| StreamHandler.AppDelegate.SendBatteryStateEvent | ios/Runner/AppDelegate.swift:88-105 | without a sink the log is unchanged; with one, the mapped state is appended for the held sink; nothing else changes |
| StreamHandler.AppDelegate.OnBatteryStateDidChange | ios/Runner/AppDelegate.swift:84-86 | performs the notification transition of the model: without a sink the log is unchanged, with one the mapped state is appended for the held sink; only the log may change, and the coupling invariant is kept |
| StreamHandler.AppDelegate.OnListen | ios/Runner/AppDelegate.swift:71-82 | returns no error; the sink is replaced, monitoring is on, one more registration exists, the mapped current state was sent to the new sink, and the coupling invariant holds |
| StreamHandler.AppDelegate.OnCancel | ios/Runner/AppDelegate.swift:107-111 | returns no error; no sink and no registration remain, monitoring and the log are unchanged, and the coupling invariant holds |
| StreamHandler.CancelTwice | ios/Runner/AppDelegate.swift:107-111 | a caller that cancels twice and then receives a notification ends in the state of one cancel: nothing further is sent |

## Left out

- App start-up in `application(_:didFinishLaunchingWithOptions:)` is not modelled. This covers plugin registration, the root view controller check with its `fatalError`, and creating the channels. It is framework plumbing.
- The channels `voidChannel`, `timerMethodChannel` and the method channel named `eventChannel` are not modelled. They are created but never given a handler, so they have no behaviour.
- `ChannelName.charging` is declared only in a commented-out enum, and `device.userName` uses an undeclared `device`. Neither resolves in the file. The channel name is not modelled, and the user name is an opaque string argument.
- `UIDevice` and `NotificationCenter` are not modelled as objects. The monitoring flag and a registration counter stand in for them, and the battery state is an argument.
- The notification centre's delivery is modelled only as "one selector call per registration" (`StreamModel.Fanout`). Queues, threads and the notification object are not modelled.
- The sink is an opaque identity. A sink call appends an entry to the `delivered` log. What the Flutter engine does with the event is not modelled.
- `onListen` and `onCancel` ignore their `arguments` parameter, so the model has no such parameter.
