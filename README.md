# Cinder-3DConnexion Device, modelled in Dafny

This project models the `connexion::Device` class of Cinder-3DConnexion. The class is a thin wrapper over the 3DConnexion vendor driver and the Windows message pump. Three parts of it carry logic that can be stated and proved:

- **Lifecycle and LED cache** (`device.dfy`, module `Connexion`). A `Device` class has the fields `status`, `handle`, `name` and `ledState`, and a ghost log `driverLog` of the driver calls it makes.
  - The constructor starts at status `Uninitialized` with the LED on. A failed open (a null handle) gives status `Error`, terminates the library and leaves the name empty. A successful open gives status `Ok`, reads the device name and asks for an exclusive grab. A refused grab is only a warning, so the status stays `Ok`.
  - `SetLED` calls the driver only when the request differs from the cached state. The pure function `LedCalls` gives the calls made by any run of `setLED` requests, and lemmas about it state that no call is redundant and none is skipped.
- **The message loop of `update()`** (`Device.Update`, with its specification in `routing.dfy`, module `Routing`). The blocking `GetMessage` loop becomes a loop over a finite sequence of messages the driver has already classified: `NotMine(os)` or `IsEvent(os, raw)`. The loop returns, in order, the emissions on the four signals (each tagged by channel) and the messages handed to default handling. Its contract ties both logs to the functions `Emissions` and `Defaulted`. Lemmas about those functions say:
  - every recognised event is handled and no unrecognised message is lost;
  - routing goes by tag, with at most one emission per message;
  - emissions keep the order of the messages that caused them.
- **Raw-to-typed event mappings** (`events.dfy`, module `Events`). The four `dispatch*Event` bodies become pure functions from a raw event to one `Event` datatype with the variants `Motion`, `ButtonDown`, `ButtonUp` and `DeviceChange`. Vectors are integer triples.

Driver results are parameters: whether the library loaded, the handle `SiOpen` returns (0 is the null handle), the device name, and the grab result. The button-name query `SiGetButtonName` is a function parameter `buttonName` of the code. The axis positions `TX`…`RZ` are 0…5, the layout of the vendor SDK's six-element motion data array.

Where the header and the .cpp disagree, the model follows the .cpp:
- The header's private section lacks `mStatus`, `mHandle`, `mName` and the `dispatch*` methods (include/3DConnexion.h:79-85), but the .cpp uses them.
- `getStatus` is declared but never defined (include/3DConnexion.h:71). The model exposes the `status` field.
- `SiSetUiMode` is called with `mHandle` before `mHandle` is assigned (src/3DConnexion.cpp:60). The log entry `SetUiMode` therefore carries no handle. Nothing depends on it.

The typed events carry no device identifier (include/3DConnexion.h:14-53), so the model's events carry none.

## Model

| member | source | states |
|---|---|---|
| `Connexion.Device.constructor` | src/3DConnexion.cpp:47-83 | LED starts on. A null handle gives status Error, an empty name, and a Terminate call after Open. A non-null handle gives status Ok, the driver's name, then GetDeviceName and an exclusive GrabDevice. The grab result never changes the status. `Valid()` holds afterwards. |
| `Connexion.NewDevice` | src/3DConnexion.cpp:54-57 | No device exists exactly when the library fails to load (the constructor throws there). Otherwise the new device's status, handle, name, LED state and driver-call log are as the constructor sets them. |
| `Connexion.Device.SetLED` | src/3DConnexion.cpp:180-187 | Afterwards the cached state equals the request. No driver call is made when the request equals the cached state; otherwise exactly one `SetLEDs(handle, 1 or 0)` is made. Status, handle and name are unchanged and `Valid()` is kept. |
| `Connexion.LedCalls` | src/3DConnexion.cpp:180-187 | A run of setLED requests never makes more driver calls than there are requests. |
| `Connexion.LedCallsToggle` | src/3DConnexion.cpp:183-186 | Every call made is `SetLEDs` on the device handle with mask 0 or 1. The first call changes the mask from the cached state. Each later call changes it from the previous call. The last call matches the final cached state. So no call is redundant. |
| `Connexion.LedCallsNone` | src/3DConnexion.cpp:183-186 | A run of requests makes no driver call if and only if every request equals the cached state. |
| `Connexion.LedCallsAppend` | src/3DConnexion.cpp:180-187 | One more request adds exactly the calls a single setLED makes from the cached state the earlier requests left. This links SetLED's one-call contract to runs of calls. |
| `Connexion.LedRepeatIsFree` | src/3DConnexion.cpp:183-186 | After any history, asking twice in a row for the same LED state makes the same driver calls as asking once. |
| `Connexion.StatusOfCode` | include/3DConnexion.h:57-59 | Exactly 0, -1 and 1 are status values, and the status read back from a value has that value as its code. |
| `Connexion.StatusCodeRoundTrip` | include/3DConnexion.h:57-59 | Each status (uninitialized = 0, error = -1, ok = 1) is recovered from its integer code. |
| `Connexion.Status.Code` | include/3DConnexion.h:57-59 | Each status has an integer value in -1..1: error is the only negative one, ok the only positive one, so uninitialized is 0. `Connexion.StatusCodeRoundTrip` adds that each status is recovered from its value. |
| `Connexion.Device.Update` | src/3DConnexion.cpp:122-178 | The loop emits exactly `Emissions(msgs)` and hands exactly `Defaulted(msgs)` to default handling. It resets and sets `handled` for each message, as the source does. |
| `Connexion.Device.Release` | src/3DConnexion.cpp:117-120 | The destructor's only effect is one `ReleaseDevice` call on the device's handle. |
| `Routing.Route` | src/3DConnexion.cpp:140-167 | A recognised event yields no emission exactly when it is a command or an unlisted type; otherwise it yields exactly one. Every emission's event has its channel's type. |
| `Routing.RouteByTag` | src/3DConnexion.cpp:142-165 | Routing table, both directions: motion and zero go to the motion channel, press to button-down, release to button-up, device change to device-change. Each routed tag's event is the one its own dispatch function builds: DispatchMotion, DispatchZero, DispatchButtonDown, DispatchButtonUp or DispatchDeviceChange. |
| `Routing.Emissions` | src/3DConnexion.cpp:132-176 | Every emission of a run of messages is on the signal of its event's type. Which messages cause which emissions, and in what order, is stated by `Routing.Causes`. |
| `Routing.Defaulted` | src/3DConnexion.cpp:170-175 | Only unrecognised messages ever reach default handling. |
| `Routing.Causes` | src/3DConnexion.cpp:132-176 | Each emission has the index of the message that caused it. These indices strictly increase, so emissions keep message order and no message emits twice. Each index names a routed message whose routing gives that emission. Every routed message is among them. |
| `Routing.EmissionsAppend` | src/3DConnexion.cpp:132-176 | The emissions of two runs of messages, one after the other, are the first run's emissions followed by the second's. |
| `Routing.DefaultedAppend` | src/3DConnexion.cpp:132-176 | The default-handled messages of two runs, one after the other, are the first run's followed by the second's. |
| `Routing.DefaultedExactlyOnce` | src/3DConnexion.cpp:140-175 | Each unrecognised message reaches default handling exactly as many times as it occurs in the input. A recognised message reaches it zero times. |
| `Routing.RecognisedNeverDefaulted` | src/3DConnexion.cpp:162-175 | A recognised event of any type never reaches default handling, commands and unlisted types included. |
| `Routing.LogsBounded` | src/3DConnexion.cpp:132-176 | Emissions plus default-handled messages never outnumber the input. Input with no recognised event produces no emission. |
| `Events.DispatchMotion` | src/3DConnexion.cpp:189-205 | The result is a motion event whose vectors, laid back out in the driver's axis order, are exactly the six raw readings (none lost or swapped), with the raw period. |
| `Events.DispatchZero` | src/3DConnexion.cpp:207-210 | The result is a motion event whose six axis values are all zero, with the raw period. |
| `Events.DispatchButtonDown` | src/3DConnexion.cpp:212-220 | The result is a button-down event whose code reads back as the raw button payload, named by the driver's name for that code. |
| `Events.DispatchButtonUp` | src/3DConnexion.cpp:222-229 | The result is a button-up event whose code reads back as the raw button payload, named by the driver's name for that code. |
| `Events.DispatchDeviceChange` | src/3DConnexion.cpp:231-237 | The result is a device-change event from which the raw change type and device id read back unchanged. |
| `Events.MotionMapping` | src/3DConnexion.cpp:189-205 | A motion event takes rotation from (RX, RY, RZ) and translation from (TX, TY, TZ), in that order, and copies the period. |
| `Events.ZeroIsMotionAtRest` | src/3DConnexion.cpp:207-210 | A zero event equals the motion event of an all-zero reading: zero rotation, zero translation, and the raw period. |
| `Events.ButtonEventsAgree` | src/3DConnexion.cpp:212-229 | Button-down and button-up events carry the raw buttonNumber as code and the driver's name for that code. Both agree for the same raw event. |

## Left out

- Windows message pump (`GetMessage`, `TranslateMessage`, `DispatchMessage`): it is OS I/O. The loop runs over a finite sequence of messages, up to the one on which `GetMessage` returns false. Default handling is an output log.
- Vendor driver calls: they are foreign code. Their results are parameters. The classification made by `SiGetEvent` is part of each input message.
  - The lifecycle calls and `SiSetLEDs` appear in the ghost `driverLog`.
  - `SiGetEventWinInit`, `SiGetEvent` and `SiGetButtonName` inside `update()` are not logged: they are queries, and the button name is the pure parameter `buttonName`.
  - The `SI_AVERAGE_EVENTS` flag is not modelled.
- Connexion.Device.constructor: the exception thrown when the driver library fails to load is a precondition of the constructor. `NewDevice` models that path as "no device".
- Logging (`CI_LOG_W`, `CI_LOG_V`, `CI_LOG_D`): there is no logging collaborator. The warning for a refused grab and the note for a command event leave no trace, apart from the status staying `Ok` and nothing being emitted.
- Floating-point vectors: `vec3` of `float` becomes an integer triple, so no conversion or rounding of the long axis values is modelled.
- Cinder signals: they are a foreign library. Each `emit` is an entry in the ordered emission log, tagged by signal. Subscribers, and what they do, are not modelled. The `get*Signal` accessors are not modelled.
- Relative order between the two logs of `Update`: the emission log and the default-handling log are kept apart, so the model does not say that default handling of one message happens before the emission for a later message.
- Commented-out code (button reassignment, multiple connections; src/3DConnexion.cpp:85-113): it is not behaviour.
- A manager, device registry, per-device queues, a pump thread and a readiness wait are not part of this code. They are not modelled.
