/** The per-device record `JoystickData` and `CheckForJoysticks`, which
    builds the list of physical devices from what the joystick library
    reports for each joystick slot. */
module Joystick {
  import opened Wrappers
  import opened Curve

  /** One physical device: its display name, the library's transient slot id,
      its GUID (the stable key), whether its panel is open, the virtual device
      it drives (0 = none) and its seven axis settings. */
  datatype JoystickData = JoystickData(
    name: string,
    jid: int,
    guid: string,
    selected: bool,
    mappedTo: int,
    axes: AxisSettings)

  /** The joystick library numbers its slots `GLFW_JOYSTICK_1` (0) to
      `GLFW_JOYSTICK_LAST` (15). */
  const JOYSTICK_SLOTS := 16

  /** The name under which the virtual devices show up as joysticks themselves. */
  const VIRTUAL_NAME := "vJoy Device"

  /** The text used for a name or GUID the library does not supply. */
  const UNKNOWN := "Unknown"

  /** What the library reports for one slot: nothing, or a present device
      whose name and GUID may each be missing. */
  datatype Probe = Absent | Present(name: Option<string>, guid: Option<string>)

  function OrUnknown(s: Option<string>): string {
    match s
    case Some(v) => v
    case None => UNKNOWN
  }

  /** A record as `{ name, jid, GUID }` builds it: the other fields take their
      defaults. */
  function NewDevice(name: string, jid: int, guid: string): JoystickData {
    JoystickData(name, jid, guid, false, 0, DefaultAxes)
  }

  /** Whether slot `jid` contributes a record: it must hold a device that is
      not one of the virtual devices. */
  predicate Listed(p: Probe) {
    p.Present? && OrUnknown(p.name) != VIRTUAL_NAME
  }

  function EntryFor(p: Probe, jid: int): JoystickData
    requires p.Present?
  {
    NewDevice(OrUnknown(p.name), jid, OrUnknown(p.guid))
  }

  /** The records for slots `0 .. n-1`, in slot order. */
  function DiscoveredUpTo(snapshot: seq<Probe>, n: nat): (r: seq<JoystickData>)
    requires n <= |snapshot|
    ensures |r| <= n
    ensures forall k :: 0 <= k < |r| ==> 0 <= r[k].jid < n
  {
    if n == 0 then []
    else
      var before := DiscoveredUpTo(snapshot, n - 1);
      if Listed(snapshot[n - 1]) then before + [EntryFor(snapshot[n - 1], n - 1)] else before
  }

  function Discovered(snapshot: seq<Probe>): seq<JoystickData>
    requires |snapshot| == JOYSTICK_SLOTS
  {
    DiscoveredUpTo(snapshot, JOYSTICK_SLOTS)
  }

  /** `CheckForJoysticks`, with the library's answers for the sixteen slots
      given as `snapshot` (slot `jid` at index `jid`). */
  method CheckForJoysticks(snapshot: seq<Probe>) returns (buffer: seq<JoystickData>)
    requires |snapshot| == JOYSTICK_SLOTS
    ensures buffer == Discovered(snapshot)
  {
    buffer := [];
    var jid := 0;
    while jid < JOYSTICK_SLOTS
      invariant 0 <= jid <= JOYSTICK_SLOTS
      invariant buffer == DiscoveredUpTo(snapshot, jid)
    {
      if snapshot[jid].Present? {
        var name := OrUnknown(snapshot[jid].name);
        if name != VIRTUAL_NAME {
          var guid := OrUnknown(snapshot[jid].guid);
          buffer := buffer + [NewDevice(name, jid, guid)];
        }
      }
      jid := jid + 1;
    }
  }

  /** A record is discovered exactly when its slot holds a device that is not a
      virtual device; it then carries that slot's id, the reported name and GUID
      (or "Unknown"), and the default state: unselected, unmapped, default axes. */
  lemma {:induction false} DiscoveredMembers(snapshot: seq<Probe>, n: nat, d: JoystickData)
    requires n <= |snapshot|
    ensures d in DiscoveredUpTo(snapshot, n) <==>
      (0 <= d.jid < n && Listed(snapshot[d.jid]) && d == EntryFor(snapshot[d.jid], d.jid))
  {
    if n > 0 {
      DiscoveredMembers(snapshot, n - 1, d);
    }
  }

  /** Records come out in strictly increasing slot order, so no slot is listed twice. */
  lemma {:induction false} DiscoveredOrdered(snapshot: seq<Probe>, n: nat)
    requires n <= |snapshot|
    ensures forall i, j :: 0 <= i < j < |DiscoveredUpTo(snapshot, n)| ==>
      DiscoveredUpTo(snapshot, n)[i].jid < DiscoveredUpTo(snapshot, n)[j].jid
  {
    if n > 0 {
      DiscoveredOrdered(snapshot, n - 1);
    }
  }

  /** No virtual device is ever listed, and every listed device starts unselected
      and unmapped. */
  lemma DiscoveredDefaults(snapshot: seq<Probe>)
    requires |snapshot| == JOYSTICK_SLOTS
    ensures forall d :: d in Discovered(snapshot) ==>
      d.name != VIRTUAL_NAME && !d.selected && d.mappedTo == 0 && d.axes == DefaultAxes
  {
    forall d | d in Discovered(snapshot)
      ensures d.name != VIRTUAL_NAME && !d.selected && d.mappedTo == 0 && d.axes == DefaultAxes
    {
      DiscoveredMembers(snapshot, JOYSTICK_SLOTS, d);
    }
  }
}
