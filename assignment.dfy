/** What the main window does to the device list besides discovery and
    pruning: the "Load" button applies the records read from the file, each
    device's button toggles its panel, and each open panel picks a virtual
    slot with the selector, avoiding the slots of the other open panels. */
module Assignment {
  import opened Wrappers
  import opened Curve
  import opened Joystick
  import opened Selector
  import opened Registry

  // ------------------------------------------------------------- Load apply

  /** What a matching record does to a device: its slot, its selection and
      its seven axis settings are taken from the record. */
  function Overwrite(d: JoystickData, n: JoystickData): (r: JoystickData)
    ensures r.name == d.name && r.jid == d.jid && r.guid == d.guid
    ensures r.selected && r.mappedTo == n.mappedTo && r.axes == n.axes
  {
    d.(mappedTo := n.mappedTo, selected := true, axes := n.axes)
  }

  /** One pass of the inner loop: the record is applied when its GUID matches. */
  function ApplyRecord(d: JoystickData, n: JoystickData): JoystickData {
    if d.guid == n.guid then Overwrite(d, n) else d
  }

  /** The inner loop over all loaded records, in file order. */
  function ApplyRecords(d: JoystickData, records: seq<JoystickData>): JoystickData
    decreases |records|
  {
    if records == [] then d
    else ApplyRecord(ApplyRecords(d, records[..|records| - 1]), records[|records| - 1])
  }

  /** The list after "Load": every device with the loaded records applied. */
  function Applied(joysticks: seq<JoystickData>, records: seq<JoystickData>): seq<JoystickData> {
    seq(|joysticks|, i requires 0 <= i < |joysticks| => ApplyRecords(joysticks[i], records))
  }

  /** The index of the last record in file order whose GUID is `g`, or -1. */
  function LastMatchIndex(records: seq<JoystickData>, g: string): (r: int)
    ensures -1 <= r < |records|
    ensures r == -1 <==> forall k :: 0 <= k < |records| ==> records[k].guid != g
    ensures r >= 0 ==> records[r].guid == g && forall k :: r < k < |records| ==> records[k].guid != g
    decreases |records|
  {
    if records == [] then -1
    else if records[|records| - 1].guid == g then |records| - 1
    else
      var init := records[..|records| - 1];
      assert forall k :: 0 <= k < |init| ==> init[k] == records[k];
      LastMatchIndex(init, g)
  }

  /** The last record whose GUID is `g`, if any. */
  function LastMatch(records: seq<JoystickData>, g: string): Option<JoystickData> {
    var k := LastMatchIndex(records, g);
    if k < 0 then None else Some(records[k])
  }

  /** The "Load" handler, given the records `load_file` returned. Each device
      is updated in place by every record with its GUID, the axis settings
      copied one by one. */
  method LoadApply(joysticks: seq<JoystickData>, records: seq<JoystickData>) returns (result: seq<JoystickData>)
    ensures result == Applied(joysticks, records)
  {
    result := joysticks;
    var k := 0;
    while k < |result|
      invariant 0 <= k <= |result| == |joysticks|
      invariant forall i :: 0 <= i < k ==> result[i] == ApplyRecords(joysticks[i], records)
      invariant forall i :: k <= i < |result| ==> result[i] == joysticks[i]
    {
      var j := result[k];
      var m := 0;
      while m < |records|
        invariant 0 <= m <= |records|
        invariant j == ApplyRecords(joysticks[k], records[..m])
      {
        var n := records[m];
        if j.guid == n.guid {
          j := j.(mappedTo := n.mappedTo);
          j := j.(selected := true);
          var axes := j.axes;
          var i := 0;
          while i < AXES
            invariant 0 <= i <= AXES
            invariant forall a :: 0 <= a < i ==> axes[a] == n.axes[a]
          {
            axes := axes[i := n.axes[i]];
            i := i + 1;
          }
          assert axes == n.axes;
          j := j.(axes := axes);
        }
        assert records[..m + 1][..m] == records[..m];
        m := m + 1;
      }
      assert records[..|records|] == records;
      result := result[k := j];
      k := k + 1;
    }
  }

  /** Applying records never changes a device's GUID. */
  lemma {:induction false} ApplyRecordsGuid(d: JoystickData, records: seq<JoystickData>)
    ensures ApplyRecords(d, records).guid == d.guid
    decreases |records|
  {
    if records != [] {
      ApplyRecordsGuid(d, records[..|records| - 1]);
    }
  }

  /** The last matching record wins; without one the device is untouched. */
  lemma {:induction false} ApplyRecordsLastMatch(d: JoystickData, records: seq<JoystickData>)
    ensures ApplyRecords(d, records) ==
      match LastMatch(records, d.guid)
      case None => d
      case Some(n) => Overwrite(d, n)
    decreases |records|
  {
    if records != [] {
      var init := records[..|records| - 1];
      ApplyRecordsLastMatch(d, init);
      ApplyRecordsGuid(d, init);
    }
  }

  /** "Load" keeps the list's length and order and each device's name, slot
      id and GUID; a device takes the slot, selection and axis settings of
      the last record with its GUID, and a device with no such record is
      left as it was. */
  lemma LoadApplySemantics(joysticks: seq<JoystickData>, records: seq<JoystickData>)
    ensures |Applied(joysticks, records)| == |joysticks|
    ensures forall i :: 0 <= i < |joysticks| ==>
      var d, r := joysticks[i], Applied(joysticks, records)[i];
      r.name == d.name && r.jid == d.jid && r.guid == d.guid &&
      (LastMatch(records, d.guid).None? ==> r == d) &&
      (LastMatch(records, d.guid).Some? ==>
        r.selected && r.mappedTo == LastMatch(records, d.guid).value.mappedTo &&
        r.axes == LastMatch(records, d.guid).value.axes)
  {
    forall i | 0 <= i < |joysticks|
      ensures ApplyRecords(joysticks[i], records) ==
        match LastMatch(records, joysticks[i].guid)
        case None => joysticks[i]
        case Some(n) => Overwrite(joysticks[i], n)
    {
      ApplyRecordsLastMatch(joysticks[i], records);
    }
  }

  /** Pressing "Load" twice with the same file is the same as pressing it once. */
  lemma LoadApplyIdempotent(joysticks: seq<JoystickData>, records: seq<JoystickData>)
    ensures Applied(Applied(joysticks, records), records) == Applied(joysticks, records)
  {
    var once := Applied(joysticks, records);
    forall i | 0 <= i < |joysticks| ensures ApplyRecords(once[i], records) == once[i] {
      ApplyRecordsLastMatch(joysticks[i], records);
      ApplyRecordsLastMatch(once[i], records);
    }
  }

  // ----------------------------------------------------------------- toggle

  /** A device's button: the panel opens or closes, and closing it releases
      the virtual slot. */
  function Toggled(d: JoystickData): (r: JoystickData)
    ensures r.selected == !d.selected
    ensures r.mappedTo == (if r.selected then d.mappedTo else 0)
    ensures r.name == d.name && r.jid == d.jid && r.guid == d.guid && r.axes == d.axes
  {
    var flipped := d.(selected := !d.selected);
    if !flipped.selected then flipped.(mappedTo := 0) else flipped
  }

  /** The list after a frame in which the buttons of the devices at the
      indices in `pressed` were clicked. */
  function ToggledAt(joysticks: seq<JoystickData>, pressed: set<int>): seq<JoystickData> {
    seq(|joysticks|, i requires 0 <= i < |joysticks| => if i in pressed then Toggled(joysticks[i]) else joysticks[i])
  }

  /** The loop over the device buttons, flipping each clicked device in place. */
  method ToggleFrame(joysticks: seq<JoystickData>, pressed: set<int>) returns (result: seq<JoystickData>)
    ensures result == ToggledAt(joysticks, pressed)
  {
    result := joysticks;
    var k := 0;
    while k < |result|
      invariant 0 <= k <= |result| == |joysticks|
      invariant forall i :: 0 <= i < k ==> result[i] == ToggledAt(joysticks, pressed)[i]
      invariant forall i :: k <= i < |result| ==> result[i] == joysticks[i]
    {
      if k in pressed {
        var joystick := result[k];
        joystick := joystick.(selected := !joystick.selected);
        if !joystick.selected {
          joystick := joystick.(mappedTo := 0);
        }
        result := result[k := joystick];
      }
      k := k + 1;
    }
  }

  /** Clicking a device twice leaves its panel as it was but releases its
      slot. */
  lemma ToggleTwice(d: JoystickData)
    ensures Toggled(Toggled(d)) == d.(mappedTo := 0)
  {
  }

  // --------------------------------------------------------- exclusion list

  /** The slots of the open panels other than the one with slot id `jid`,
      in list order. */
  function ExcludedSlots(joysticks: seq<JoystickData>, jid: int): (r: seq<int>)
    ensures |r| <= |joysticks|
    decreases |joysticks|
  {
    if joysticks == [] then []
    else
      var before := ExcludedSlots(joysticks[..|joysticks| - 1], jid);
      var j := joysticks[|joysticks| - 1];
      if !j.selected || j.jid == jid then before else before + [j.mappedTo]
  }

  /** Building `exclude` for the panel of the device with slot id `jid`. */
  method ExclusionList(joysticks: seq<JoystickData>, jid: int) returns (exclude: seq<int>)
    ensures exclude == ExcludedSlots(joysticks, jid)
  {
    exclude := [];
    var k := 0;
    while k < |joysticks|
      invariant 0 <= k <= |joysticks|
      invariant exclude == ExcludedSlots(joysticks[..k], jid)
    {
      var j := joysticks[k];
      assert joysticks[..k + 1][..k] == joysticks[..k];
      k := k + 1;
      if !j.selected {
        continue;
      }
      if j.jid == jid {
        continue;
      }
      exclude := exclude + [j.mappedTo];
    }
    assert joysticks[..k] == joysticks;
  }

  /** A slot is excluded exactly when some other open panel, with a different
      slot id, holds it. */
  lemma {:induction false} ExcludedSlotsMembers(joysticks: seq<JoystickData>, jid: int, v: int)
    ensures v in ExcludedSlots(joysticks, jid) <==>
      exists k :: 0 <= k < |joysticks| && joysticks[k].selected && joysticks[k].jid != jid && joysticks[k].mappedTo == v
    decreases |joysticks|
  {
    if joysticks != [] {
      var init := joysticks[..|joysticks| - 1];
      ExcludedSlotsMembers(init, jid, v);
      assert forall k :: 0 <= k < |init| ==> init[k] == joysticks[k];
      var last := |joysticks| - 1;
      if exists k :: 0 <= k < |joysticks| && joysticks[k].selected && joysticks[k].jid != jid && joysticks[k].mappedTo == v {
        var k :| 0 <= k < |joysticks| && joysticks[k].selected && joysticks[k].jid != jid && joysticks[k].mappedTo == v;
        if k < last {
          assert init[k] == joysticks[k];
        }
      }
    }
  }

  // ------------------------------------------------------------ slot choice

  /** The panel of device `i` running the selector over `[0, pads]`. */
  function SlotSelected(joysticks: seq<JoystickData>, i: int, pads: int, minus: bool, plus: bool): seq<JoystickData>
    requires 0 <= i < |joysticks|
  {
    var d := joysticks[i];
    joysticks[i := d.(mappedTo := AfterFrame(d.mappedTo, 0, pads, ExcludedSlots(joysticks, d.jid), minus, plus))]
  }

  /** One open panel's selector: the exclusion list is built from the current
      list, then the device's slot is stepped with it. */
  method SelectSlot(joysticks: seq<JoystickData>, i: int, pads: int, minus: bool, plus: bool) returns (result: seq<JoystickData>)
    requires 0 <= i < |joysticks|
    ensures result == SlotSelected(joysticks, i, pads, minus, plus)
  {
    var joystick := joysticks[i];
    var exclude := ExclusionList(joysticks, joystick.jid);
    var slot := IncrementSelector(joystick.mappedTo, 0, pads, exclude, minus, plus);
    result := joysticks[i := joystick.(mappedTo := slot)];
  }

  /** With no other open panel, the slot stays within `[0, pads]`. */
  lemma SlotSelectedAlone(joysticks: seq<JoystickData>, i: int, pads: int, minus: bool, plus: bool)
    requires 0 <= i < |joysticks| && 0 <= joysticks[i].mappedTo <= pads
    requires forall k :: 0 <= k < |joysticks| && k != i ==> !joysticks[k].selected
    ensures 0 <= SlotSelected(joysticks, i, pads, minus, plus)[i].mappedTo <= pads
  {
    var d := joysticks[i];
    if ExcludedSlots(joysticks, d.jid) != [] {
      var v := ExcludedSlots(joysticks, d.jid)[0];
      ExcludedSlotsMembers(joysticks, d.jid, v);
    }
    AfterFrameStaysInRange(d.mappedTo, 0, pads, minus, plus);
  }

  /** Two open panels can end on the same slot: with panels on slots 2 and 1,
      "+" on a third panel at slot 0 moves it to 1, shifts it past 1 to 2,
      and never looks at 2 again. */
  lemma SlotsCanCollide()
    ensures var a := JoystickData("A", 0, "ga", true, 2, DefaultAxes);
      var b := JoystickData("B", 1, "gb", true, 1, DefaultAxes);
      var c := JoystickData("C", 2, "gc", true, 0, DefaultAxes);
      SlotSelected([a, b, c], 2, 3, false, true)[2].mappedTo == a.mappedTo
  {
    var a := JoystickData("A", 0, "ga", true, 2, DefaultAxes);
    var b := JoystickData("B", 1, "gb", true, 1, DefaultAxes);
    var c := JoystickData("C", 2, "gc", true, 0, DefaultAxes);
    var js := [a, b, c];
    assert js[..2][..1] == [a] && js[..2] == [a, b];
    assert ExcludedSlots([a], 2) == [2] by {
      assert [a][..0] == [];
    }
    assert ExcludedSlots(js, 2) == [2, 1];
    IncrementCanLandOnExcluded();
  }

  // ------------------------------------------------------------ invariant

  /** Every closed panel has released its slot. */
  predicate Released(joysticks: seq<JoystickData>) {
    forall k :: 0 <= k < |joysticks| ==> !joysticks[k].selected ==> joysticks[k].mappedTo == 0
  }

  lemma DiscoveredReleased(snapshot: seq<Probe>)
    requires |snapshot| == JOYSTICK_SLOTS
    ensures Released(Discovered(snapshot))
  {
    DiscoveredDefaults(snapshot);
  }

  lemma {:induction false} MergeMembers(js: seq<JoystickData>, discovered: seq<JoystickData>, d: JoystickData)
    requires d in Merge(js, discovered)
    ensures d in js || d in discovered
    decreases |discovered|
  {
    if discovered != [] {
      MergeMembers(AddIfNew(js, discovered[0]), discovered[1..], d);
    }
  }

  lemma MergeReleased(js: seq<JoystickData>, discovered: seq<JoystickData>)
    requires Released(js) && Released(discovered)
    ensures Released(Merge(js, discovered))
  {
    var m := Merge(js, discovered);
    forall k | 0 <= k < |m| && !m[k].selected ensures m[k].mappedTo == 0 {
      MergeMembers(js, discovered, m[k]);
    }
  }

  lemma PrunedReleased(js: seq<JoystickData>, axisCounts: map<int, nat>)
    requires Released(js)
    ensures Released(Pruned(js, axisCounts))
  {
    var p := Pruned(js, axisCounts);
    forall k | 0 <= k < |p| && !p[k].selected ensures p[k].mappedTo == 0 {
      PrunedMembers(js, axisCounts, p[k]);
    }
  }

  lemma AppliedReleased(joysticks: seq<JoystickData>, records: seq<JoystickData>)
    requires Released(joysticks)
    ensures Released(Applied(joysticks, records))
  {
    LoadApplySemantics(joysticks, records);
  }

  lemma ToggledReleased(joysticks: seq<JoystickData>, pressed: set<int>)
    requires Released(joysticks)
    ensures Released(ToggledAt(joysticks, pressed))
  {
  }

  lemma SlotSelectedReleased(joysticks: seq<JoystickData>, i: int, pads: int, minus: bool, plus: bool)
    requires 0 <= i < |joysticks| && joysticks[i].selected && Released(joysticks)
    ensures Released(SlotSelected(joysticks, i, pads, minus, plus))
  {
  }
}
