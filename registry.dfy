/** The working list of devices, `std::vector<JoystickData> joysticks`, and
    the two main-loop operations that add and remove its entries: the merge
    behind the "Reload" button and the per-frame removal of disconnected
    devices. */
module Registry {
  import opened Joystick

  predicate HasGuid(js: seq<JoystickData>, g: string) {
    exists k :: 0 <= k < |js| && js[k].guid == g
  }

  /** No two entries share a GUID. */
  predicate UniqueGuids(js: seq<JoystickData>) {
    forall i, j :: 0 <= i < j < |js| ==> js[i].guid != js[j].guid
  }

  function AddIfNew(js: seq<JoystickData>, n: JoystickData): seq<JoystickData> {
    if HasGuid(js, n.guid) then js else js + [n]
  }

  /** The list after "Reload": each discovered device in turn is appended
      unless an entry with its GUID is already there, counting the entries
      appended earlier in the same batch. */
  function Merge(js: seq<JoystickData>, discovered: seq<JoystickData>): seq<JoystickData>
    decreases |discovered|
  {
    if discovered == [] then js else Merge(AddIfNew(js, discovered[0]), discovered[1..])
  }

  /** The "Reload" handler, given the result of `CheckForJoysticks`. */
  method Reload(joysticks: seq<JoystickData>, newBuffer: seq<JoystickData>) returns (result: seq<JoystickData>)
    ensures result == Merge(joysticks, newBuffer)
  {
    result := joysticks;
    var i := 0;
    while i < |newBuffer|
      invariant 0 <= i <= |newBuffer|
      invariant Merge(result, newBuffer[i..]) == Merge(joysticks, newBuffer)
    {
      var n := newBuffer[i];
      var found := FindGuid(result, n.guid);
      MergeFrom(result, newBuffer, i);
      if !found {
        result := result + [n];
      }
      i := i + 1;
    }
  }

  /** The inner loop of `Reload`: whether an entry of `js` has GUID `g`,
      stopping at the first one. */
  method FindGuid(js: seq<JoystickData>, g: string) returns (found: bool)
    ensures found == HasGuid(js, g)
  {
    found := false;
    var k := 0;
    while k < |js|
      invariant 0 <= k <= |js|
      invariant forall m :: 0 <= m < k ==> js[m].guid != g
    {
      if g == js[k].guid {
        found := true;
        break;
      }
      k := k + 1;
    }
  }

  /** One pass of the outer loop of `Reload`. */
  lemma MergeFrom(js: seq<JoystickData>, discovered: seq<JoystickData>, i: nat)
    requires i < |discovered|
    ensures Merge(js, discovered[i..]) == Merge(AddIfNew(js, discovered[i]), discovered[i + 1..])
  {
    assert discovered[i..][1..] == discovered[i + 1..];
  }

  lemma HasGuidPrefix(js: seq<JoystickData>, ks: seq<JoystickData>, g: string)
    requires js <= ks && HasGuid(js, g)
    ensures HasGuid(ks, g)
  {
    var k :| 0 <= k < |js| && js[k].guid == g;
    assert ks[k] == js[k];
  }

  /** The previous list is an unchanged prefix of the merged one: nothing is
      removed, reordered or overwritten. */
  lemma {:induction false} MergePrefix(js: seq<JoystickData>, discovered: seq<JoystickData>)
    ensures js <= Merge(js, discovered)
    decreases |discovered|
  {
    if discovered != [] {
      MergePrefix(AddIfNew(js, discovered[0]), discovered[1..]);
    }
  }

  /** Every discovered GUID occurs in the merged list. */
  lemma {:induction false} MergeCovers(js: seq<JoystickData>, discovered: seq<JoystickData>, g: string)
    requires HasGuid(js, g) || HasGuid(discovered, g)
    ensures HasGuid(Merge(js, discovered), g)
    decreases |discovered|
  {
    if discovered == [] {
    } else {
      var js' := AddIfNew(js, discovered[0]);
      assert HasGuid(js', discovered[0].guid) by {
        if !HasGuid(js, discovered[0].guid) {
          assert js'[|js|] == discovered[0];
        }
      }
      if HasGuid(js, g) {
        HasGuidPrefix(js, js', g);
      }
      if !HasGuid(js', g) {
        var k :| 0 <= k < |discovered| && discovered[k].guid == g;
        assert discovered[1..][k - 1] == discovered[k];
      }
      MergeCovers(js', discovered[1..], g);
    }
  }

  /** Each appended entry is one of the discovered devices, and its GUID does
      not occur anywhere before it, so no GUID is added twice. */
  lemma {:induction false} MergeAppendsFresh(js: seq<JoystickData>, discovered: seq<JoystickData>)
    ensures var r := Merge(js, discovered);
      forall i :: |js| <= i < |r| ==> r[i] in discovered && !HasGuid(r[..i], r[i].guid)
    decreases |discovered|
  {
    if discovered != [] {
      var js' := AddIfNew(js, discovered[0]);
      var r := Merge(js, discovered);
      MergeAppendsFresh(js', discovered[1..]);
      MergePrefix(js', discovered[1..]);
      forall i | |js| <= i < |r|
        ensures r[i] in discovered && !HasGuid(r[..i], r[i].guid)
      {
        if i < |js'| {
          assert r[..i] == js && r[i] == discovered[0];
        } else {
          assert r[i] in discovered[1..];
        }
      }
    }
  }

  /** Merging keeps GUIDs unique when they were unique before. */
  lemma {:induction false} MergeKeepsUnique(js: seq<JoystickData>, discovered: seq<JoystickData>)
    requires UniqueGuids(js)
    ensures UniqueGuids(Merge(js, discovered))
    decreases |discovered|
  {
    if discovered != [] {
      var js' := AddIfNew(js, discovered[0]);
      assert UniqueGuids(js') by {
        if !HasGuid(js, discovered[0].guid) {
          forall i, j | 0 <= i < j < |js'| ensures js'[i].guid != js'[j].guid {
            if j == |js| {
              assert js'[i] == js[i];
            }
          }
        }
      }
      MergeKeepsUnique(js', discovered[1..]);
    }
  }

  /** A batch whose GUIDs are all present already leaves the list unchanged. */
  lemma {:induction false} MergeKnown(js: seq<JoystickData>, discovered: seq<JoystickData>)
    requires forall k :: 0 <= k < |discovered| ==> HasGuid(js, discovered[k].guid)
    ensures Merge(js, discovered) == js
    decreases |discovered|
  {
    if discovered != [] {
      assert HasGuid(js, discovered[0].guid);
      forall k | 0 <= k < |discovered| - 1 ensures HasGuid(js, discovered[1..][k].guid) {
        assert discovered[1..][k] == discovered[k + 1];
      }
      MergeKnown(js, discovered[1..]);
    }
  }

  /** Pressing "Reload" twice over the same discovered batch changes nothing
      the second time. */
  lemma MergeIdempotent(js: seq<JoystickData>, discovered: seq<JoystickData>)
    ensures Merge(Merge(js, discovered), discovered) == Merge(js, discovered)
  {
    var r := Merge(js, discovered);
    forall k | 0 <= k < |discovered| ensures HasGuid(r, discovered[k].guid) {
      MergeCovers(js, discovered, discovered[k].guid);
    }
    MergeKnown(r, discovered);
  }

  /** The number of axes the library reports for slot `jid`; a slot it knows
      nothing about reports none. */
  function AxisCount(axisCounts: map<int, nat>, jid: int): nat {
    if jid in axisCounts then axisCounts[jid] else 0
  }

  /** An entry the per-frame loop erases: mapped to a virtual device, yet its
      physical device reports no axes. */
  predicate Disconnected(d: JoystickData, axisCounts: map<int, nat>) {
    d.mappedTo != 0 && AxisCount(axisCounts, d.jid) == 0
  }

  /** The list after the per-frame loop: the disconnected entries are gone. */
  function Pruned(js: seq<JoystickData>, axisCounts: map<int, nat>): seq<JoystickData> {
    if js == [] then []
    else (if Disconnected(js[0], axisCounts) then [] else [js[0]]) + Pruned(js[1..], axisCounts)
  }

  /** The per-frame loop over `joysticks` from the last index down to 0, which
      erases an entry while walking; `axisCounts` stands for the axis counts the
      library reports this frame. */
  method Prune(joysticks: seq<JoystickData>, axisCounts: map<int, nat>) returns (result: seq<JoystickData>)
    ensures result == Pruned(joysticks, axisCounts)
  {
    result := joysticks;
    var index := |joysticks| - 1;
    while index >= 0
      invariant -1 <= index < |joysticks|
      invariant result == joysticks[..index + 1] + Pruned(joysticks[index + 1..], axisCounts)
    {
      PruneFrom(joysticks, axisCounts, index, result);
      var joystick := result[index];
      if joystick.mappedTo == 0 {
        index := index - 1;
        continue;
      }
      var axisCount := AxisCount(axisCounts, joystick.jid);
      if axisCount == 0 {
        result := result[..index] + result[index + 1..];
        index := index - 1;
        continue;
      }
      index := index - 1;
    }
  }

  /** One pass of the loop of `Prune`: entry `index` is kept or erased, and
      the list is again an untouched prefix followed by a pruned suffix. */
  lemma PruneFrom(js: seq<JoystickData>, axisCounts: map<int, nat>, index: nat, result: seq<JoystickData>)
    requires index < |js| && result == js[..index + 1] + Pruned(js[index + 1..], axisCounts)
    ensures result[index] == js[index]
    ensures !Disconnected(js[index], axisCounts) ==> result == js[..index] + Pruned(js[index..], axisCounts)
    ensures Disconnected(js[index], axisCounts) ==>
      result[..index] + result[index + 1..] == js[..index] + Pruned(js[index..], axisCounts)
  {
    assert js[index..][1..] == js[index + 1..];
    assert js[..index + 1] == js[..index] + [js[index]];
    var rest := Pruned(js[index + 1..], axisCounts);
    if Disconnected(js[index], axisCounts) {
      assert result[..index] == js[..index];
      assert result[index + 1..] == rest;
    } else {
      assert Pruned(js[index..], axisCounts) == [js[index]] + rest;
      Regroup(js[..index], [js[index]], rest);
    }
  }

  /** An entry survives exactly when it is not disconnected; in particular an
      unmapped entry is never removed. */
  lemma {:induction false} PrunedMembers(js: seq<JoystickData>, axisCounts: map<int, nat>, d: JoystickData)
    ensures d in Pruned(js, axisCounts) <==> d in js && !Disconnected(d, axisCounts)
  {
    if js != [] {
      PrunedMembers(js[1..], axisCounts, d);
      assert js == [js[0]] + js[1..];
    }
  }

  /** Removal works entry by entry, so the survivors keep their relative order. */
  lemma {:induction false} PrunedConcat(a: seq<JoystickData>, b: seq<JoystickData>, axisCounts: map<int, nat>)
    ensures Pruned(a + b, axisCounts) == Pruned(a, axisCounts) + Pruned(b, axisCounts)
  {
    if a != [] {
      var ab := a + b;
      assert ab[0] == a[0] && ab[1..] == a[1..] + b;
      PrunedConcat(a[1..], b, axisCounts);
      PrunedHead(ab, a[1..], b, axisCounts);
    } else {
      assert a + b == b;
    }
  }

  lemma PrunedHead(ab: seq<JoystickData>, a: seq<JoystickData>, b: seq<JoystickData>, axisCounts: map<int, nat>)
    requires ab != [] && ab[1..] == a + b
    requires Pruned(a + b, axisCounts) == Pruned(a, axisCounts) + Pruned(b, axisCounts)
    ensures Pruned(ab, axisCounts) == Pruned([ab[0]] + a, axisCounts) + Pruned(b, axisCounts)
  {
    var head := if Disconnected(ab[0], axisCounts) then [] else [ab[0]];
    var a' := [ab[0]] + a;
    assert a'[0] == ab[0] && a'[1..] == a;
    assert Pruned(ab, axisCounts) == head + Pruned(a + b, axisCounts);
    assert Pruned(a', axisCounts) == head + Pruned(a, axisCounts);
    Regroup(head, Pruned(a, axisCounts), Pruned(b, axisCounts));
  }

  lemma Regroup(x: seq<JoystickData>, y: seq<JoystickData>, z: seq<JoystickData>)
    ensures x + (y + z) == (x + y) + z
  {
  }

  /** When nothing is disconnected the list is untouched; pruning a pruned
      list changes nothing. */
  lemma {:induction false} PrunedNoneDisconnected(js: seq<JoystickData>, axisCounts: map<int, nat>)
    requires forall k :: 0 <= k < |js| ==> !Disconnected(js[k], axisCounts)
    ensures Pruned(js, axisCounts) == js
  {
    if js != [] {
      assert !Disconnected(js[0], axisCounts);
      PrunedNoneDisconnected(js[1..], axisCounts);
    }
  }

  lemma PrunedIdempotent(js: seq<JoystickData>, axisCounts: map<int, nat>)
    ensures Pruned(Pruned(js, axisCounts), axisCounts) == Pruned(js, axisCounts)
  {
    var p := Pruned(js, axisCounts);
    forall k | 0 <= k < |p| ensures !Disconnected(p[k], axisCounts) {
      PrunedMembers(js, axisCounts, p[k]);
    }
    PrunedNoneDisconnected(p, axisCounts);
  }
}
