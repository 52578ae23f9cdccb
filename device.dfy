/*
 * The Device class: its lifecycle status, its cached LED state, its message
 * loop, and the calls it makes into the vendor driver.
 *
 * Driver results (whether the library loaded, the handle the open returned,
 * the device name, the result of the exclusive grab) are parameters. The
 * driver calls the device makes are recorded in the ghost log driverLog, so
 * that which calls are made, and which are not, can be stated.
 */
module Connexion {
  import opened Events
  import opened Routing

  /** A device's lifecycle status, with the integer values the library gives it. */
  datatype Status = Uninitialized | Error | Ok
  {
    /** The error status is the only negative value and ok the only positive one. */
    function Code(): (c: int)
      ensures -1 <= c <= 1
      ensures c < 0 <==> this == Error
      ensures c > 0 <==> this == Ok
    {
      match this
      case Uninitialized => 0
      case Error => -1
      case Ok => 1
    }
  }

  /** Reads a status back from its integer value; only 0, -1 and 1 are statuses. */
  function StatusOfCode(c: int): (r: Option<Status>)
    ensures r.Some? <==> c == 0 || c == -1 || c == 1
    ensures r.Some? ==> r.value.Code() == c
  {
    if c == 0 then Some(Uninitialized)
    else if c == -1 then Some(Error)
    else if c == 1 then Some(Ok)
    else None
  }

  lemma StatusCodeRoundTrip(s: Status)
    ensures StatusOfCode(s.Code()) == Some(s)
  {
  }

  /** Driver return values as far as the device tells them apart. */
  datatype SpwRetVal = SpwNoError | SpwDllLoadError | SpwFailure(code: int)

  /** The handle value the driver's open returns on failure. */
  const NullHandle: int := 0

  /** One call into the vendor driver. */
  datatype DriverCall =
    | Initialize
    | OpenWinInit(window: int)
    | SetUiMode
    | Open
    | Terminate
    | GetDeviceName(handle: int)
    | GrabDevice(handle: int, exclusive: bool)
    | SetLEDs(handle: int, mask: int)
    | ReleaseDevice(handle: int)

  /** The LED mask setLED passes to the driver. */
  function LedMask(on: bool): int
  {
    if on then 1 else 0
  }

  /** The cached LED state after the requests: the last one, or the old state if there were none. */
  function FinalLed(cached: bool, requests: seq<bool>): bool
  {
    if requests == [] then cached else requests[|requests| - 1]
  }

  /** Every call is an LED call on handle, with mask 1 (on) or 0 (off). */
  predicate OnlyLedCalls(calls: seq<DriverCall>, handle: int)
  {
    forall k :: 0 <= k < |calls| ==>
      calls[k].SetLEDs? && calls[k].handle == handle && (calls[k].mask == 0 || calls[k].mask == 1)
  }

  /** The driver calls made by a device whose cached LED state is cached when setLED is called with each of requests in turn. */
  function LedCalls(cached: bool, handle: int, requests: seq<bool>): (calls: seq<DriverCall>)
    decreases |requests|
    ensures |calls| <= |requests|
  {
    if requests == [] then []
    else
      var on := requests[0];
      (if on != cached then [SetLEDs(handle, LedMask(on))] else []) + LedCalls(on, handle, requests[1..])
  }

  /**
   * Only LED calls are made, with mask 1 or 0, and none is redundant: the
   * first call changes the mask from the cached state, each later call
   * changes it from the one before, and the last one leaves the driver at
   * the final cached state.
   */
  lemma {:induction false} LedCallsToggle(cached: bool, handle: int, requests: seq<bool>)
    ensures var calls := LedCalls(cached, handle, requests);
      OnlyLedCalls(calls, handle)
      && (|calls| > 0 ==> calls[0].mask != LedMask(cached))
      && (forall k :: 0 < k < |calls| ==> calls[k].mask != calls[k - 1].mask)
      && (|calls| > 0 ==> calls[|calls| - 1].mask == LedMask(FinalLed(cached, requests)))
    decreases |requests|
  {
    if requests != [] {
      var on, rest := requests[0], requests[1..];
      LedCallsToggle(on, handle, rest);
      var tail := LedCalls(on, handle, rest);
      var head: seq<DriverCall> := if on != cached then [SetLEDs(handle, LedMask(on))] else [];
      assert LedCalls(cached, handle, requests) == head + tail;
      if tail != [] {
        assert rest != [];
        assert FinalLed(on, rest) == FinalLed(cached, requests);
      } else if head != [] {
        LedCallsNone(on, handle, rest);
        assert rest != [] ==> rest[|rest| - 1] == on;
      }
    }
  }

  /** No call is skipped either: there are none exactly when no request differs from the cached state. */
  lemma {:induction false} LedCallsNone(cached: bool, handle: int, requests: seq<bool>)
    ensures LedCalls(cached, handle, requests) == [] <==> forall i :: 0 <= i < |requests| ==> requests[i] == cached
    decreases |requests|
  {
    if requests != [] {
      var on, rest := requests[0], requests[1..];
      LedCallsNone(on, handle, rest);
      assert forall i :: 0 < i < |requests| ==> requests[i] == rest[i - 1];
    }
  }

  /** One more request adds the calls a single setLED makes from the state the earlier ones left. */
  lemma {:induction false} LedCallsAppend(cached: bool, handle: int, requests: seq<bool>, on: bool)
    ensures LedCalls(cached, handle, requests + [on])
         == LedCalls(cached, handle, requests) + LedCalls(FinalLed(cached, requests), handle, [on])
    decreases |requests|
  {
    if requests != [] {
      var first, rest := requests[0], requests[1..];
      var head: seq<DriverCall> := if first != cached then [SetLEDs(handle, LedMask(first))] else [];
      var longer := requests + [on];
      assert longer[0] == first && longer[1..] == rest + [on];
      LedCallsAppend(first, handle, rest, on);
      assert FinalLed(first, rest) == FinalLed(cached, requests);
      calc {
        LedCalls(cached, handle, longer);
        head + LedCalls(first, handle, rest + [on]);
        head + (LedCalls(first, handle, rest) + LedCalls(FinalLed(cached, requests), handle, [on]));
        (head + LedCalls(first, handle, rest)) + LedCalls(FinalLed(cached, requests), handle, [on]);
      }
    }
  }

  /** Whatever came before, asking for the same LED state twice in a row makes no more calls than asking once. */
  lemma LedRepeatIsFree(cached: bool, handle: int, requests: seq<bool>, on: bool)
    ensures LedCalls(cached, handle, requests + [on, on]) == LedCalls(cached, handle, requests + [on])
  {
    assert requests + [on, on] == (requests + [on]) + [on];
    LedCallsAppend(cached, handle, requests + [on], on);
  }

  class Device {
    var status: Status
    var handle: int
    var name: string
    var ledState: bool
    ghost var driverLog: seq<DriverCall>

    /** The status is settled by the open; an open device has a handle, a failed one has none and no name. */
    ghost predicate Valid()
      reads this
    {
      status != Uninitialized
      && (status == Ok <==> handle != NullHandle)
      && (status == Error ==> name == "")
    }

    /**
     * Opens the device. The library must have loaded: where it did not the
     * device is not constructed, which NewDevice models.
     */
    constructor (window: int, initResult: SpwRetVal, openResult: int, deviceName: string, grabResult: SpwRetVal)
      requires initResult != SpwDllLoadError
      ensures Valid()
      ensures ledState
      ensures handle == openResult
      ensures status == (if openResult == NullHandle then Error else Ok)
      ensures name == (if openResult == NullHandle then "" else deviceName)
      ensures driverLog == [Initialize, OpenWinInit(window), SetUiMode, Open]
        + (if openResult == NullHandle then [Terminate] else [GetDeviceName(openResult), GrabDevice(openResult, true)])
    {
      status := Uninitialized;
      ledState := true;
      name := "";
      handle := NullHandle;
      driverLog := [];
      new;
      driverLog := driverLog + [Initialize, OpenWinInit(window), SetUiMode];
      handle := openResult;
      driverLog := driverLog + [Open];
      if handle == NullHandle {
        driverLog := driverLog + [Terminate];
        status := Error;
      } else {
        driverLog := driverLog + [GetDeviceName(handle)];
        name := deviceName;
        status := Ok;
        driverLog := driverLog + [GrabDevice(handle, true)];
        // a refused exclusive claim is only a warning: the status stays Ok
      }
    }

    /** Sets the LED, calling the driver only when the request differs from the cached state. */
    method SetLED(on: bool)
      requires Valid()
      modifies this`ledState, this`driverLog
      ensures Valid()
      ensures ledState == on
      ensures driverLog == old(driverLog) + LedCalls(old(ledState), handle, [on])
      ensures old(ledState) == on ==> driverLog == old(driverLog)
      ensures old(ledState) != on ==> driverLog == old(driverLog) + [SetLEDs(handle, LedMask(on))]
    {
      if ledState != on {
        driverLog := driverLog + [SetLEDs(handle, LedMask(on))];
        ledState := on;
      }
    }

    /**
     * Runs the message loop over msgs, the messages the pump delivers before
     * it quits. Returns what was emitted on the four signals and what was
     * handed to default handling, both in order.
     */
    method Update(msgs: seq<Message>, buttonName: int -> string) returns (emitted: seq<Emission>, defaulted: seq<Message>)
      ensures emitted == Emissions(msgs, buttonName)
      ensures defaulted == Defaulted(msgs)
    {
      emitted, defaulted := [], [];
      var i := 0;
      while i < |msgs|
        invariant 0 <= i <= |msgs|
        invariant emitted == Emissions(msgs[..i], buttonName)
        invariant defaulted == Defaulted(msgs[..i])
      {
        var msg := msgs[i];
        var handled := false;
        if msg.IsEvent? {
          var event := msg.raw;
          if event.tag == MotionEvent {
            emitted := emitted + [Emission(MotionChannel, DispatchMotion(event))];
          } else if event.tag == ZeroEvent {
            emitted := emitted + [Emission(MotionChannel, DispatchZero(event))];
          } else if event.tag == ButtonPressEvent {
            emitted := emitted + [Emission(ButtonDownChannel, DispatchButtonDown(event, buttonName))];
          } else if event.tag == ButtonReleaseEvent {
            emitted := emitted + [Emission(ButtonUpChannel, DispatchButtonUp(event, buttonName))];
          } else if event.tag == DeviceChangeEvent {
            emitted := emitted + [Emission(DeviceChangeChannel, DispatchDeviceChange(event))];
          } else if event.tag == CmdEvent {
            // command events are only logged
          }
          handled := true;
        }
        if !handled {
          defaulted := defaulted + [msg];
        }
        assert msgs[..i + 1][..i] == msgs[..i];
        i := i + 1;
      }
      assert msgs[..|msgs|] == msgs;
    }

    /** Releases the device handle, as the destructor does. */
    method Release()
      modifies this`driverLog
      ensures driverLog == old(driverLog) + [ReleaseDevice(handle)]
    {
      driverLog := driverLog + [ReleaseDevice(handle)];
    }
  }

  /** Constructs a device, or none when the driver library fails to load (where the constructor throws). */
  method NewDevice(window: int, initResult: SpwRetVal, openResult: int, deviceName: string, grabResult: SpwRetVal)
    returns (r: Option<Device>)
    ensures r.None? <==> initResult == SpwDllLoadError
    ensures r.Some? ==> fresh(r.value) && r.value.Valid() && r.value.ledState
    ensures r.Some? ==> r.value.handle == openResult
    ensures r.Some? ==> r.value.status == (if openResult == NullHandle then Error else Ok)
    ensures r.Some? ==> r.value.name == (if openResult == NullHandle then "" else deviceName)
    ensures r.Some? ==> (r.value.driverLog == [Initialize, OpenWinInit(window), SetUiMode, Open]
      + (if openResult == NullHandle then [Terminate] else [GetDeviceName(openResult), GrabDevice(openResult, true)]))
  {
    if initResult == SpwDllLoadError {
      return None;
    }
    var d := new Device(window, initResult, openResult, deviceName, grabResult);
    return Some(d);
  }
}
