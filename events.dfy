/*
 * Raw driver events and the typed events a Device emits for them.
 *
 * The raw event stands for the vendor driver's SiSpwEvent: a type tag and a
 * C union of payloads (six-axis data with a period, a hardware button
 * number, device-change data). The typed events are the four event classes
 * of the library, folded into one datatype. Axis values are integers: the
 * library converts them to floating-point vectors, which this model does not.
 */
module Events {

  datatype Option<T> = None | Some(value: T)

  /** Positions of the six axes in a raw event's motion data (SI_TX … SI_RZ of the vendor SDK). */
  const TX: nat := 0
  const TY: nat := 1
  const TZ: nat := 2
  const RX: nat := 3
  const RY: nat := 4
  const RZ: nat := 5

  /** The driver's fixed array of six axis readings. */
  type AxisData = s: seq<int> | |s| == 6 witness [0, 0, 0, 0, 0, 0]

  /** The driver's event type tag; OtherEvent stands for every tag the device does not list. */
  datatype EventType =
    | MotionEvent
    | ZeroEvent
    | ButtonPressEvent
    | ButtonReleaseEvent
    | DeviceChangeEvent
    | CmdEvent
    | OtherEvent(code: int)

  datatype SpwData = SpwData(mData: AxisData, period: int)
  datatype HwButtonData = HwButtonData(buttonNumber: int)
  datatype DeviceChangeData = DeviceChangeData(changeType: int, devId: int)

  /** A raw event: its tag and every member of the payload union (only the one the tag selects is read). */
  datatype RawEvent = RawEvent(
    tag: EventType,
    spwData: SpwData,
    hwButtonEvent: HwButtonData,
    deviceChangeEventData: DeviceChangeData)

  /** An integer triple in place of the library's floating-point vector. */
  datatype Vec3 = Vec3(x: int, y: int, z: int)

  const Zero3: Vec3 := Vec3(0, 0, 0)

  /** The typed events: MotionEvent, ButtonDownEvent, ButtonUpEvent and DeviceChangeEvent. */
  datatype Event =
    | Motion(rotation: Vec3, translation: Vec3, timeSinceLast: int)
    | ButtonDown(code: int, name: string)
    | ButtonUp(code: int, name: string)
    | DeviceChange(changeType: int, deviceId: int)

  /** Lays a motion event's vectors back out in the driver's axis order. */
  function AxesOf(e: Event): (d: AxisData)
    requires e.Motion?
  {
    [e.translation.x, e.translation.y, e.translation.z, e.rotation.x, e.rotation.y, e.rotation.z]
  }

  /** Reads the raw button payload back from a button event. */
  function HwButtonOf(e: Event): HwButtonData
    requires e.ButtonDown? || e.ButtonUp?
  {
    HwButtonData(e.code)
  }

  /** Reads the raw device-change payload back from a device-change event. */
  function DeviceChangeDataOf(e: Event): DeviceChangeData
    requires e.DeviceChange?
  {
    DeviceChangeData(e.changeType, e.deviceId)
  }

  /** The motion event that dispatchMotionEvent emits: no axis reading is lost or swapped, and the period is kept. */
  function DispatchMotion(raw: RawEvent): (r: Event)
    ensures r.Motion? && AxesOf(r) == raw.spwData.mData
    ensures r.timeSinceLast == raw.spwData.period
  {
    var d := raw.spwData.mData;
    Motion(Vec3(d[RX], d[RY], d[RZ]), Vec3(d[TX], d[TY], d[TZ]), raw.spwData.period)
  }

  /** The motion event that dispatchZeroEvent emits: every axis at rest, with the raw period. */
  function DispatchZero(raw: RawEvent): (r: Event)
    ensures r.Motion? && AxesOf(r) == [0, 0, 0, 0, 0, 0]
    ensures r.timeSinceLast == raw.spwData.period
  {
    Motion(Zero3, Zero3, raw.spwData.period)
  }

  /** The event that dispatchButtonDownEvent emits; buttonName stands for the driver's button-name query. */
  function DispatchButtonDown(raw: RawEvent, buttonName: int -> string): (r: Event)
    ensures r.ButtonDown? && HwButtonOf(r) == raw.hwButtonEvent
    ensures r.name == buttonName(raw.hwButtonEvent.buttonNumber)
  {
    var code := raw.hwButtonEvent.buttonNumber;
    ButtonDown(code, buttonName(code))
  }

  /** The event that dispatchButtonUpEvent emits. */
  function DispatchButtonUp(raw: RawEvent, buttonName: int -> string): (r: Event)
    ensures r.ButtonUp? && HwButtonOf(r) == raw.hwButtonEvent
    ensures r.name == buttonName(raw.hwButtonEvent.buttonNumber)
  {
    var code := raw.hwButtonEvent.buttonNumber;
    ButtonUp(code, buttonName(code))
  }

  /** The event that dispatchDeviceChangeEvent emits: the raw change type and device id, unchanged. */
  function DispatchDeviceChange(raw: RawEvent): (r: Event)
    ensures r.DeviceChange? && DeviceChangeDataOf(r) == raw.deviceChangeEventData
  {
    DeviceChange(raw.deviceChangeEventData.changeType, raw.deviceChangeEventData.devId)
  }

  /** Rotation comes from (RX, RY, RZ), translation from (TX, TY, TZ), in that order; the period is copied. */
  lemma MotionMapping(raw: RawEvent)
    ensures DispatchMotion(raw).Motion?
    ensures DispatchMotion(raw).rotation == Vec3(raw.spwData.mData[RX], raw.spwData.mData[RY], raw.spwData.mData[RZ])
    ensures DispatchMotion(raw).translation == Vec3(raw.spwData.mData[TX], raw.spwData.mData[TY], raw.spwData.mData[TZ])
    ensures DispatchMotion(raw).timeSinceLast == raw.spwData.period
  {
  }

  /**
   * A zero event is the motion event of a reading with every axis at zero:
   * zero rotation, zero translation, and the raw period as timeSinceLast.
   */
  lemma ZeroIsMotionAtRest(raw: RawEvent)
    ensures DispatchZero(raw) == DispatchMotion(raw.(spwData := raw.spwData.(mData := [0, 0, 0, 0, 0, 0])))
    ensures DispatchZero(raw).rotation == Zero3 && DispatchZero(raw).translation == Zero3
    ensures DispatchZero(raw).timeSinceLast == raw.spwData.period
  {
  }

  /** Press and release of one raw button event carry the same code (the raw buttonNumber) and the same name. */
  lemma ButtonEventsAgree(raw: RawEvent, buttonName: int -> string)
    ensures DispatchButtonDown(raw, buttonName).ButtonDown?
    ensures DispatchButtonUp(raw, buttonName).ButtonUp?
    ensures DispatchButtonDown(raw, buttonName).code == raw.hwButtonEvent.buttonNumber
    ensures DispatchButtonUp(raw, buttonName).code == raw.hwButtonEvent.buttonNumber
    ensures DispatchButtonDown(raw, buttonName).name == buttonName(raw.hwButtonEvent.buttonNumber)
    ensures DispatchButtonUp(raw, buttonName).name == DispatchButtonDown(raw, buttonName).name
  {
  }
}
