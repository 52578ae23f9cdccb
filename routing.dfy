/*
 * What Device::update does with the messages it takes from the message pump:
 * a message the driver recognises as a 3D-mouse event is routed by its tag
 * to at most one of four signals and is marked handled; any other message is
 * handed to the default handling of the operating system.
 */
module Routing {
  import opened Events

  /** The operating-system message fields the driver's translation call reads. */
  datatype OsMessage = OsMessage(message: int, wParam: int, lParam: int)

  /** A message as the driver classified it: not a 3D-mouse event, or one (SI_IS_EVENT) with its raw event. */
  datatype Message =
    | NotMine(os: OsMessage)
    | IsEvent(os: OsMessage, raw: RawEvent)

  /** The four signals of a Device. */
  datatype Channel = MotionChannel | ButtonDownChannel | ButtonUpChannel | DeviceChangeChannel

  /** One emit call: the signal and the event passed to it. */
  datatype Emission = Emission(channel: Channel, event: Event)

  /** Each signal is typed: it only ever carries events of its own kind. */
  predicate Carries(c: Channel, e: Event)
  {
    match c
    case MotionChannel => e.Motion?
    case ButtonDownChannel => e.ButtonDown?
    case ButtonUpChannel => e.ButtonUp?
    case DeviceChangeChannel => e.DeviceChange?
  }

  /** The emission the tag test chain makes for one recognised raw event, if any. */
  function Route(raw: RawEvent, buttonName: int -> string): (r: Option<Emission>)
    ensures r.None? <==> raw.tag.CmdEvent? || raw.tag.OtherEvent?
    ensures r.Some? ==> Carries(r.value.channel, r.value.event)
  {
    match raw.tag
    case MotionEvent => Some(Emission(MotionChannel, DispatchMotion(raw)))
    case ZeroEvent => Some(Emission(MotionChannel, DispatchZero(raw)))
    case ButtonPressEvent => Some(Emission(ButtonDownChannel, DispatchButtonDown(raw, buttonName)))
    case ButtonReleaseEvent => Some(Emission(ButtonUpChannel, DispatchButtonUp(raw, buttonName)))
    case DeviceChangeEvent => Some(Emission(DeviceChangeChannel, DispatchDeviceChange(raw)))
    case CmdEvent => None
    case OtherEvent(_) => None
  }

  /** The routing table, in both directions: which tags reach which signal. */
  lemma RouteByTag(raw: RawEvent, buttonName: int -> string)
    ensures (raw.tag.MotionEvent? || raw.tag.ZeroEvent?)
      <==> (Route(raw, buttonName).Some? && Route(raw, buttonName).value.channel == MotionChannel)
    ensures raw.tag.ButtonPressEvent?
      <==> (Route(raw, buttonName).Some? && Route(raw, buttonName).value.channel == ButtonDownChannel)
    ensures raw.tag.ButtonReleaseEvent?
      <==> (Route(raw, buttonName).Some? && Route(raw, buttonName).value.channel == ButtonUpChannel)
    ensures raw.tag.DeviceChangeEvent?
      <==> (Route(raw, buttonName).Some? && Route(raw, buttonName).value.channel == DeviceChangeChannel)
    ensures raw.tag.MotionEvent? ==> Route(raw, buttonName).value.event == DispatchMotion(raw)
    ensures raw.tag.ZeroEvent? ==> Route(raw, buttonName).value.event == DispatchZero(raw)
    ensures raw.tag.ButtonPressEvent? ==> Route(raw, buttonName).value.event == DispatchButtonDown(raw, buttonName)
    ensures raw.tag.ButtonReleaseEvent? ==> Route(raw, buttonName).value.event == DispatchButtonUp(raw, buttonName)
    ensures raw.tag.DeviceChangeEvent? ==> Route(raw, buttonName).value.event == DispatchDeviceChange(raw)
  {
  }

  /** A message that leads to an emission: recognised, with a routed tag. */
  predicate Routed(m: Message, buttonName: int -> string)
  {
    m.IsEvent? && Route(m.raw, buttonName).Some?
  }

  /** The emissions one message causes: at most one. */
  function EmittedBy(m: Message, buttonName: int -> string): seq<Emission>
  {
    if Routed(m, buttonName) then [Route(m.raw, buttonName).value] else []
  }

  /** The messages one message hands to default handling: itself, exactly when it is not recognised. */
  function DefaultedBy(m: Message): seq<Message>
  {
    if m.NotMine? then [m] else []
  }

  /** Every emission update makes for the messages msgs, in order; each is on the signal of its event's type. */
  function Emissions(msgs: seq<Message>, buttonName: int -> string): (r: seq<Emission>)
    decreases |msgs|
    ensures forall k :: 0 <= k < |r| ==> Carries(r[k].channel, r[k].event)
  {
    if msgs == [] then []
    else Emissions(msgs[..|msgs| - 1], buttonName) + EmittedBy(msgs[|msgs| - 1], buttonName)
  }

  /** Every message update hands to default handling for the messages msgs, in order. */
  function Defaulted(msgs: seq<Message>): (r: seq<Message>)
    decreases |msgs|
    ensures forall k :: 0 <= k < |r| ==> r[k].NotMine?
  {
    if msgs == [] then []
    else Defaulted(msgs[..|msgs| - 1]) + DefaultedBy(msgs[|msgs| - 1])
  }

  /**
   * The position in msgs of the message that caused each emission. The
   * positions are strictly increasing (emissions keep the order of their
   * messages and no message causes two), each names a routed message whose
   * emission it is, and every routed message is among them.
   */
  function Causes(msgs: seq<Message>, buttonName: int -> string): (c: seq<nat>)
    decreases |msgs|
    ensures |c| == |Emissions(msgs, buttonName)|
    ensures forall k :: 0 <= k < |c| ==>
      c[k] < |msgs| && Routed(msgs[c[k]], buttonName)
      && Emissions(msgs, buttonName)[k] == Route(msgs[c[k]].raw, buttonName).value
    ensures forall k, l :: 0 <= k < l < |c| ==> c[k] < c[l]
    ensures forall i :: 0 <= i < |msgs| ==> (i in c <==> Routed(msgs[i], buttonName))
  {
    if msgs == [] then []
    else
      var n := |msgs| - 1;
      var front := msgs[..n];
      var c := Causes(front, buttonName);
      assert forall i :: 0 <= i < n ==> front[i] == msgs[i];
      c + (if Routed(msgs[n], buttonName) then [n] else [])
  }

  /** Concatenating message runs concatenates their emissions: update preserves order across runs. */
  lemma {:induction false} EmissionsAppend(a: seq<Message>, b: seq<Message>, buttonName: int -> string)
    ensures Emissions(a + b, buttonName) == Emissions(a, buttonName) + Emissions(b, buttonName)
    decreases |b|
  {
    if b == [] {
      assert a + b == a;
    } else {
      var n := |b| - 1;
      assert (a + b)[..|a + b| - 1] == a + b[..n];
      assert (a + b)[|a + b| - 1] == b[n];
      EmissionsAppend(a, b[..n], buttonName);
    }
  }

  /** Concatenating message runs concatenates what they hand to default handling. */
  lemma {:induction false} DefaultedAppend(a: seq<Message>, b: seq<Message>)
    ensures Defaulted(a + b) == Defaulted(a) + Defaulted(b)
    decreases |b|
  {
    if b == [] {
      assert a + b == a;
    } else {
      var n := |b| - 1;
      assert (a + b)[..|a + b| - 1] == a + b[..n];
      assert (a + b)[|a + b| - 1] == b[n];
      DefaultedAppend(a, b[..n]);
    }
  }

  /**
   * Every unrecognised message reaches default handling exactly as often as
   * it occurs in the input, and no recognised event reaches it at all.
   */
  lemma {:induction false} DefaultedExactlyOnce(msgs: seq<Message>, m: Message)
    ensures multiset(Defaulted(msgs))[m] == if m.NotMine? then multiset(msgs)[m] else 0
    decreases |msgs|
  {
    if msgs != [] {
      var n := |msgs| - 1;
      DefaultedExactlyOnce(msgs[..n], m);
      assert msgs == msgs[..n] + [msgs[n]];
      assert multiset(msgs) == multiset(msgs[..n]) + multiset{msgs[n]};
    }
  }

  /** A recognised event of any type, commands and unlisted tags included, never reaches default handling. */
  lemma RecognisedNeverDefaulted(msgs: seq<Message>, i: nat)
    requires i < |msgs| && msgs[i].IsEvent?
    ensures msgs[i] !in Defaulted(msgs)
  {
    DefaultedExactlyOnce(msgs, msgs[i]);
  }

  /** Update emits no more events than it receives messages, and defaults no more either. */
  lemma {:induction false} LogsBounded(msgs: seq<Message>, buttonName: int -> string)
    ensures |Emissions(msgs, buttonName)| + |Defaulted(msgs)| <= |msgs|
    ensures (forall i :: 0 <= i < |msgs| ==> msgs[i].NotMine?) ==> Emissions(msgs, buttonName) == []
    decreases |msgs|
  {
    if msgs != [] {
      var n := |msgs| - 1;
      LogsBounded(msgs[..n], buttonName);
      assert forall i :: 0 <= i < n ==> msgs[..n][i] == msgs[i];
    }
  }
}
