/** Saving, loading and applying together: what "Save" followed, possibly in
    a later session, by "Load" does to the device list. */
module RoundTrip {
  import opened Wrappers
  import opened Curve
  import opened Joystick
  import opened Registry
  import opened Persistence
  import opened Assignment
  import opened TolerantLoad

  /** What `save_file` can write so that `load_file` reads it back exactly:
      the GUIDs of the selected devices hold no line break and their curve
      types are single digits. */
  predicate Saveable(saved: seq<JoystickData>) {
    forall k :: 0 <= k < |saved| ==> saved[k].selected ==> '\n' !in saved[k].guid && DigitCurves(saved[k])
  }

  /** The records read back from the saved file. */
  function Records(saved: seq<JoystickData>): seq<JoystickData> {
    ReloadedAll(SavedDevices(saved))
  }

  /** With unique GUIDs, the record a device meets last is the one written
      for the selected device with its GUID. */
  lemma RecordsLastMatch(saved: seq<JoystickData>, a: JoystickData)
    requires UniqueGuids(saved) && a in saved && a.selected
    ensures LastMatch(Records(saved), a.guid) == Some(Reloaded(a))
  {
    var s := SavedDevices(saved);
    var rs := Records(saved);
    SavedDevicesMembers(saved, a);
    var m :| 0 <= m < |s| && s[m] == a;
    ReloadedAllAt(s, m);
    assert rs[m].guid == a.guid;
    var r := LastMatchIndex(rs, a.guid);
    assert r != -1;
    ReloadedAllAt(s, r);
    assert s[r].guid == a.guid && s[r] in saved && s[r].selected;
    var i :| 0 <= i < |saved| && saved[i] == s[r];
    var j :| 0 <= j < |saved| && saved[j] == a;
    assert i == j;
  }

  /** A GUID no selected device has meets no record. */
  lemma RecordsNoMatch(saved: seq<JoystickData>, g: string)
    requires forall k :: 0 <= k < |saved| ==> saved[k].selected ==> saved[k].guid != g
    ensures LastMatch(Records(saved), g) == None
  {
    var s := SavedDevices(saved);
    var rs := Records(saved);
    forall k | 0 <= k < |rs| ensures rs[k].guid != g {
      ReloadedAllAt(s, k);
      assert s[k] in saved;
    }
  }

  /** "Save" on list `saved`, then "Load" on list `current`: a device of
      `current` takes the slot, the selection and the seven axis settings of
      the selected saved device with its GUID, keeping its own name and slot
      id; every other device is left as it was. */
  lemma RestoreSession(saved: seq<JoystickData>, current: seq<JoystickData>)
    requires UniqueGuids(saved) && Saveable(saved)
    ensures Loaded(Some(SaveText(saved))) == Some(Records(saved))
    ensures TolerantLoaded(Some(SaveText(saved))) == Records(saved)
    ensures |Applied(current, Records(saved))| == |current|
    ensures forall i, k :: 0 <= i < |current| && 0 <= k < |saved| && saved[k].selected && saved[k].guid == current[i].guid ==>
      Applied(current, Records(saved))[i] == Overwrite(current[i], saved[k])
    ensures forall i :: 0 <= i < |current| ==>
      (forall k :: 0 <= k < |saved| ==> saved[k].selected ==> saved[k].guid != current[i].guid) ==>
      Applied(current, Records(saved))[i] == current[i]
  {
    SaveLoad(saved);
    TolerantSaveLoad(saved);
    var rs := Records(saved);
    forall i, k | 0 <= i < |current| && 0 <= k < |saved| && saved[k].selected && saved[k].guid == current[i].guid
      ensures Applied(current, rs)[i] == Overwrite(current[i], saved[k])
    {
      RecordsLastMatch(saved, saved[k]);
      ApplyRecordsLastMatch(current[i], rs);
      RereadDigits(saved[k]);
    }
    forall i | 0 <= i < |current| && (forall k :: 0 <= k < |saved| ==> saved[k].selected ==> saved[k].guid != current[i].guid)
      ensures Applied(current, rs)[i] == current[i]
    {
      RecordsNoMatch(saved, current[i].guid);
      ApplyRecordsLastMatch(current[i], rs);
    }
  }

  /** "Save" then "Load" on the same devices changes nothing: every selected
      device gets back its own slot and axis settings, and no other device is
      touched. */
  lemma SaveLoadApply(ds: seq<JoystickData>)
    requires UniqueGuids(ds) && Saveable(ds)
    ensures Loaded(Some(SaveText(ds))).Some?
    ensures Applied(ds, Loaded(Some(SaveText(ds))).value) == ds
  {
    SaveLoad(ds);
    forall i | 0 <= i < |ds| ensures Applied(ds, Records(ds))[i] == ds[i] {
      RecordsRestore(ds, i);
    }
  }

  /** Each device gets back from the records exactly what it had. */
  lemma RecordsRestore(ds: seq<JoystickData>, i: nat)
    requires UniqueGuids(ds) && Saveable(ds) && i < |ds|
    ensures ApplyRecords(ds[i], Records(ds)) == ds[i]
  {
    var rs := Records(ds);
    ApplyRecordsLastMatch(ds[i], rs);
    if ds[i].selected {
      RecordsLastMatch(ds, ds[i]);
      RereadDigits(ds[i]);
    } else {
      RecordsNoMatch(ds, ds[i].guid);
    }
  }

  /** A device saved with GUID "ABC123", virtual slot 2 and a reversed cubic
      curve on axis 0 is restored onto a freshly discovered device with that
      GUID. */
  lemma RestoreScenario()
    ensures var axes := DefaultAxes[0 := CurveSettings(true, CUBIC)];
      var saved := [JoystickData("Pad", 0, "ABC123", true, 2, axes)];
      var current := [NewDevice("Pad", 3, "ABC123")];
      Loaded(Some(SaveText(saved))).Some? &&
      var after := Applied(current, Loaded(Some(SaveText(saved))).value);
      after[0].selected && after[0].mappedTo == 2 && after[0].axes[0] == CurveSettings(true, CUBIC)
  {
    var axes: AxisSettings := DefaultAxes[0 := CurveSettings(true, CUBIC)];
    var saved := [JoystickData("Pad", 0, "ABC123", true, 2, axes)];
    var current := [NewDevice("Pad", 3, "ABC123")];
    assert Saveable(saved);
    RestoreSession(saved, current);
    assert Applied(current, Records(saved))[0] == Overwrite(current[0], saved[0]);
  }
}
