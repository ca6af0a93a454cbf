/** The assignment file: `save_file` as the lines it writes and `load_file`
    as the line-driven state machine that reads them back. */
module Persistence {
  import opened Wrappers
  import opened Text
  import opened Curve
  import opened Joystick

  // ---------------------------------------------------------------- saving

  function HeaderLine(guid: string): string {
    "[" + guid + "]"
  }

  /** One settings line per axis, in axis order. */
  function AxisLines(axes: seq<CurveSettings>): (lines: seq<string>)
    ensures |lines| == |axes|
  {
    if axes == [] then [] else [FormatSettings(axes[0])] + AxisLines(axes[1..])
  }

  /** The nine lines written for one device. */
  function Block(d: JoystickData): seq<string> {
    [HeaderLine(d.guid), IntToString(d.mappedTo)] + AxisLines(d.axes)
  }

  /** The devices `save_file` writes: the selected ones, in list order. */
  function SavedDevices(ds: seq<JoystickData>): (r: seq<JoystickData>)
    ensures |r| <= |ds|
    ensures forall k :: 0 <= k < |r| ==> r[k].selected && r[k] in ds
  {
    if ds == [] then []
    else (if ds[0].selected then [ds[0]] else []) + SavedDevices(ds[1..])
  }

  /** A device is written exactly when it is in the list and selected. */
  lemma {:induction false} SavedDevicesMembers(ds: seq<JoystickData>, d: JoystickData)
    ensures d in SavedDevices(ds) <==> d in ds && d.selected
  {
    if ds != [] {
      SavedDevicesMembers(ds[1..], d);
      assert ds == [ds[0]] + ds[1..];
    }
  }

  /** The lines `save_file` writes, device by device: a block for a selected
      device, nothing for an unselected one. */
  function SaveLines(ds: seq<JoystickData>): (lines: seq<string>)
    ensures |lines| == 9 * |SavedDevices(ds)|
  {
    if ds == [] then []
    else (if ds[0].selected then Block(ds[0]) else []) + SaveLines(ds[1..])
  }

  /** The text of the file: each line followed by '\n'. */
  function SaveText(ds: seq<JoystickData>): string {
    JoinLines(SaveLines(ds))
  }

  /** The blocks of a list of devices, one after the other. */
  function Blocks(ds: seq<JoystickData>): (lines: seq<string>)
    ensures |lines| == 9 * |ds|
  {
    if ds == [] then [] else Block(ds[0]) + Blocks(ds[1..])
  }

  lemma {:induction false} AxisLinesAt(axes: seq<CurveSettings>, i: nat)
    requires i < |axes|
    ensures AxisLines(axes)[i] == FormatSettings(axes[i])
  {
    if i > 0 {
      AxisLinesAt(axes[1..], i - 1);
    }
  }

  /** The file holds one block per selected device, in list order, and
      nothing for unselected devices. */
  lemma {:induction false} SaveLinesBlocks(ds: seq<JoystickData>)
    ensures SaveLines(ds) == Blocks(SavedDevices(ds))
  {
    if ds != [] {
      SaveLinesBlocks(ds[1..]);
      if ds[0].selected {
        assert SavedDevices(ds) == [ds[0]] + SavedDevices(ds[1..]);
        assert SavedDevices(ds)[1..] == SavedDevices(ds[1..]);
      } else {
        assert SavedDevices(ds) == SavedDevices(ds[1..]);
      }
    }
  }

  /** Each block has the bracketed GUID, the virtual slot in decimal, then
      the seven axis settings in axis order. */
  lemma BlockLines(d: JoystickData)
    ensures |Block(d)| == 9
    ensures Block(d)[0] == HeaderLine(d.guid) && Block(d)[1] == IntToString(d.mappedTo)
    ensures forall i :: 0 <= i < AXES ==> Block(d)[2 + i] == FormatSettings(d.axes[i])
  {
    forall i | 0 <= i < AXES ensures Block(d)[2 + i] == FormatSettings(d.axes[i]) {
      AxisLinesAt(d.axes, i);
    }
  }

  // --------------------------------------------------------------- loading

  /** `line[0] == '['`; on an empty line `line[0]` is the terminating '\0'. */
  predicate IsHeader(line: string) {
    |line| > 0 && line[0] == '['
  }

  /** `line.substr(1, line.size() - 2)`: the line without its first and last
      characters; on the one-character line "[" the count wraps around and
      the result is empty. */
  function GuidOf(line: string): string
    requires |line| > 0
  {
    if |line| >= 2 then line[1..|line| - 1] else ""
  }

  /** A default `JoystickData` with the GUID of the header just read. Its name
      is empty; its `jid`, left uninitialised by the source, is modelled as 0
      and is never read afterwards. */
  function NewRecord(guid: string): JoystickData {
    JoystickData("", 0, guid, false, 0, DefaultAxes)
  }

  /** The loop's variables: `type` (0 before any header, 1 after a header,
      2 after the slot line), `settings_num`, and `buffer`. */
  datatype LoadState = LoadState(kind: int, settingsNum: int, buffer: seq<JoystickData>)

  const Start := LoadState(0, 0, [])

  predicate Consistent(st: LoadState) {
    0 <= st.kind <= 2 && 0 <= st.settingsNum <= AXES && (st.kind != 0 ==> |st.buffer| > 0)
  }

  /** What one line may do to a settings line's target without undefined
      behaviour: `settings_num` must still index `axes_settings`, and the
      stripped line must reach index 2 of its characters and terminator. */
  predicate SettingsLineDefined(st: LoadState, line: string) {
    0 <= st.settingsNum < AXES && |Strip(line)| >= 2
  }

  /** One iteration of `while (getline(file, line))`. `None` stands for the
      undefined behaviour of the source: a settings line after the seventh
      (a write to `axes_settings[7]`) or one too short for `CurveSettings`.
      Before the first header the buffer is empty and `type` is 0, so a
      non-header line is ignored. */
  function Step(st: LoadState, line: string): (r: Option<LoadState>)
    ensures r.None? <==> !IsHeader(line) && st.buffer != [] && st.kind == 2 && !SettingsLineDefined(st, line)
  {
    if IsHeader(line) then
      Some(LoadState(1, 0, st.buffer + [NewRecord(GuidOf(line))]))
    else if st.buffer == [] then
      Some(st)
    else if st.kind == 1 then
      var last := st.buffer[|st.buffer| - 1];
      Some(LoadState(2, st.settingsNum, st.buffer[|st.buffer| - 1 := last.(mappedTo := Atoi(line))]))
    else if st.kind == 2 then
      if SettingsLineDefined(st, line) then
        var last := st.buffer[|st.buffer| - 1];
        var axes := last.axes[st.settingsNum := ParsedSettings(line)];
        Some(LoadState(2, st.settingsNum + 1, st.buffer[|st.buffer| - 1 := last.(axes := axes)]))
      else None
    else
      Some(st)
  }

  /** The loop keeps its variables consistent: a record exists once a header
      was read, and `settings_num` never passes the seven axes. */
  lemma StepConsistent(st: LoadState, line: string)
    requires Consistent(st)
    ensures Step(st, line).Some? ==> Consistent(Step(st, line).value)
  {
  }

  /** The loop over all remaining lines; `None` once any line is undefined. */
  function Run(st: LoadState, lines: seq<string>): (r: Option<LoadState>)
    decreases |lines|
  {
    if lines == [] then Some(st)
    else
      match Step(st, lines[0])
      case None => None
      case Some(next) => Run(next, lines[1..])
  }

  /** What `load_file` returns for a file that cannot be opened (`None`) or
      opens with text `t`; `None` when the source's behaviour is undefined. */
  function Loaded(file: Option<string>): Option<seq<JoystickData>> {
    match file
    case None => Some([])
    case Some(t) =>
      match Run(Start, GetLines(t))
      case None => None
      case Some(st) => Some(st.buffer)
  }

  /** `load_file`. The source bounds neither `settings_num` nor the length of
      a settings line, so the file must keep clear of both. */
  method LoadFile(file: Option<string>) returns (buffer: seq<JoystickData>)
    requires Loaded(file).Some?
    ensures Some(buffer) == Loaded(file)
    ensures file.None? ==> buffer == []
  {
    buffer := [];
    if file.Some? {
      var lines := GetLines(file.value);
      var kind := 0;
      var settingsNum := 0;
      var i := 0;
      while i < |lines|
        invariant 0 <= i <= |lines|
        invariant Consistent(LoadState(kind, settingsNum, buffer))
        invariant Run(LoadState(kind, settingsNum, buffer), lines[i..]) == Run(Start, lines)
      {
        RunFrom(LoadState(kind, settingsNum, buffer), lines, i);
        StepConsistent(LoadState(kind, settingsNum, buffer), lines[i]);
        kind, settingsNum, buffer := ReadLine(kind, settingsNum, buffer, lines[i]);
        i := i + 1;
      }
    }
  }

  /** The body of the loop of `load_file`: one line read into the loop's
      variables, as `Step` says. */
  method ReadLine(kind: int, settingsNum: int, buffer: seq<JoystickData>, line: string)
    returns (kind': int, settingsNum': int, buffer': seq<JoystickData>)
    requires Consistent(LoadState(kind, settingsNum, buffer))
    requires Step(LoadState(kind, settingsNum, buffer), line).Some?
    ensures Step(LoadState(kind, settingsNum, buffer), line) == Some(LoadState(kind', settingsNum', buffer'))
  {
    kind', settingsNum', buffer' := kind, settingsNum, buffer;
    if |line| > 0 && line[0] == '[' {
      kind' := 0;
      settingsNum' := 0;
      var data := NewRecord(GuidOf(line));
      buffer' := buffer' + [data];
      kind' := kind' + 1;
    } else if kind == 1 {
      var last := buffer'[|buffer'| - 1];
      buffer' := buffer'[|buffer'| - 1 := last.(mappedTo := Atoi(line))];
      kind' := kind' + 1;
    } else if kind == 2 {
      var settings := CurveSettingsFrom(line);
      var last := buffer'[|buffer'| - 1];
      buffer' := buffer'[|buffer'| - 1 := last.(axes := last.axes[settingsNum' := settings])];
      settingsNum' := settingsNum' + 1;
    }
  }

  /** One more line read by the loop of `load_file`. */
  lemma RunFrom(st: LoadState, lines: seq<string>, i: nat)
    requires i < |lines|
    ensures Run(st, lines[i..]) == match Step(st, lines[i]) case None => None case Some(next) => Run(next, lines[i + 1..])
  {
    assert lines[i..][0] == lines[i] && lines[i..][1..] == lines[i + 1..];
  }

  lemma {:induction false} RunConcat(st: LoadState, a: seq<string>, b: seq<string>)
    ensures Run(st, a + b) == match Run(st, a) case None => None case Some(mid) => Run(mid, b)
    decreases |a|
  {
    if a == [] {
      assert a + b == b;
    } else {
      assert (a + b)[0] == a[0] && (a + b)[1..] == a[1..] + b;
      if Step(st, a[0]).Some? {
        RunConcat(Step(st, a[0]).value, a[1..], b);
      }
    }
  }

  /** Lines before the first header leave the state as it was, so they are
      ignored. */
  lemma {:induction false} RunNoHeaders(lines: seq<string>)
    requires forall k :: 0 <= k < |lines| ==> !IsHeader(lines[k])
    ensures Run(Start, lines) == Some(Start)
    decreases |lines|
  {
    if lines != [] {
      RunNoHeaders(lines[1..]);
    }
  }

  lemma LeadingLinesIgnored(pre: seq<string>, rest: seq<string>)
    requires forall k :: 0 <= k < |pre| ==> !IsHeader(pre[k])
    ensures Run(Start, pre + rest) == Run(Start, rest)
  {
    RunConcat(Start, pre, rest);
    RunNoHeaders(pre);
  }

  /** A header line opens a new record, whose GUID is the header without its
      brackets, and the next line sets that record's virtual slot through
      `atoi`; the records read before are left as they were. */
  lemma HeaderThenSlot(st: LoadState, header: string, slot: string, rest: seq<string>)
    requires IsHeader(header) && !IsHeader(slot)
    ensures var r := NewRecord(GuidOf(header)).(mappedTo := Atoi(slot));
      Run(st, [header, slot] + rest) == Run(LoadState(2, 0, st.buffer + [r]), rest)
  {
    var mid := LoadState(1, 0, st.buffer + [NewRecord(GuidOf(header))]);
    var r := NewRecord(GuidOf(header)).(mappedTo := Atoi(slot));
    assert Step(st, header) == Some(mid);
    assert mid.buffer[|mid.buffer| - 1 := r] == st.buffer + [r];
    assert Step(mid, slot) == Some(LoadState(2, 0, st.buffer + [r]));
    var lines := [header, slot] + rest;
    assert lines[0] == header && lines[1..] == [slot] + rest;
    assert ([slot] + rest)[0] == slot && ([slot] + rest)[1..] == rest;
    assert Run(st, lines) == Run(mid, [slot] + rest);
  }

  // ----------------------------------------------------------- round trip

  /** The settings a saved line reads back as. */
  function Reread(c: CurveSettings): CurveSettings {
    TolerantSettings(FormatSettings(c))
  }

  function RereadAxes(axes: AxisSettings): AxisSettings {
    seq(AXES, i requires 0 <= i < AXES => Reread(axes[i]))
  }

  /** The record `load_file` builds from a saved device's block. */
  function Reloaded(d: JoystickData): JoystickData {
    JoystickData("", 0, d.guid, false, d.mappedTo, RereadAxes(d.axes))
  }

  function ReloadedAll(ds: seq<JoystickData>): (r: seq<JoystickData>)
    ensures |r| == |ds|
  {
    if ds == [] then [] else [Reloaded(ds[0])] + ReloadedAll(ds[1..])
  }

  lemma {:induction false} ReloadedAllAt(ds: seq<JoystickData>, k: nat)
    requires k < |ds|
    ensures ReloadedAll(ds)[k] == Reloaded(ds[k])
  {
    if k > 0 {
      ReloadedAllAt(ds[1..], k - 1);
    }
  }

  /** Every curve type is a single decimal digit, as the curve selector keeps it. */
  predicate DigitCurves(d: JoystickData) {
    forall i :: 0 <= i < AXES ==> 0 <= d.axes[i].curveType <= 9
  }

  lemma RereadDigits(d: JoystickData)
    requires DigitCurves(d)
    ensures RereadAxes(d.axes) == d.axes
  {
    forall i | 0 <= i < AXES ensures Reread(d.axes[i]) == d.axes[i] {
      FormatParseRoundTrip(d.axes[i]);
    }
  }

  /** A settings line read into axis `k` of the record being built. */
  function WithAxis(r: JoystickData, k: nat, c: CurveSettings): JoystickData
    requires k < AXES
  {
    r.(axes := r.axes[k := c])
  }

  lemma AxisLineStep(buf: seq<JoystickData>, r: JoystickData, c: CurveSettings, k: nat)
    requires k < AXES
    ensures Step(LoadState(2, k, buf + [r]), FormatSettings(c))
         == Some(LoadState(2, k + 1, buf + [WithAxis(r, k, Reread(c))]))
  {
    var line := FormatSettings(c);
    FormatSettingsStripped(c);
    assert line[0] == '{';
    assert (buf + [r])[|buf + [r]| - 1] == r;
    assert (buf + [r])[|buf + [r]| - 1 := WithAxis(r, k, Reread(c))] == buf + [WithAxis(r, k, Reread(c))];
  }

  /** Reading the seven settings lines of a block, from line `k` on, fills
      the record's remaining axes with what those lines read back as. */
  lemma {:induction false} RunAxisLines(buf: seq<JoystickData>, r: JoystickData, axes: AxisSettings, k: nat, rest: seq<string>)
    requires k <= AXES
    requires r.axes[..k] == RereadAxes(axes)[..k]
    ensures Run(LoadState(2, k, buf + [r]), AxisLines(axes)[k..] + rest)
         == Run(LoadState(2, AXES, buf + [r.(axes := RereadAxes(axes))]), rest)
    decreases AXES - k
  {
    if k == AXES {
      AxesComplete(buf, r, axes, rest);
    } else {
      var r' := WithAxis(r, k, Reread(axes[k]));
      RunAxisLine(buf, r, axes, k, rest);
      AxesPrefixGrows(r, axes, k);
      RunAxisLines(buf, r', axes, k + 1, rest);
    }
  }

  lemma AxesComplete(buf: seq<JoystickData>, r: JoystickData, axes: AxisSettings, rest: seq<string>)
    requires r.axes[..AXES] == RereadAxes(axes)[..AXES]
    ensures LoadState(2, AXES, buf + [r]) == LoadState(2, AXES, buf + [r.(axes := RereadAxes(axes))])
    ensures AxisLines(axes)[AXES..] + rest == rest
  {
    assert r.axes == r.axes[..AXES] && RereadAxes(axes) == RereadAxes(axes)[..AXES];
    assert r.(axes := RereadAxes(axes)) == r;
  }

  /** One settings line of a block read into axis `k`. */
  lemma RunAxisLine(buf: seq<JoystickData>, r: JoystickData, axes: AxisSettings, k: nat, rest: seq<string>)
    requires k < AXES
    ensures Run(LoadState(2, k, buf + [r]), AxisLines(axes)[k..] + rest)
         == Run(LoadState(2, k + 1, buf + [WithAxis(r, k, Reread(axes[k]))]), AxisLines(axes)[k + 1..] + rest)
  {
    AxisLinesSplit(axes, k, rest);
    AxisLineStep(buf, r, axes[k], k);
    RunCons(LoadState(2, k, buf + [r]), AxisLines(axes)[k..] + rest, LoadState(2, k + 1, buf + [WithAxis(r, k, Reread(axes[k]))]));
  }

  lemma AxisLinesSplit(axes: AxisSettings, k: nat, rest: seq<string>)
    requires k < AXES
    ensures (AxisLines(axes)[k..] + rest)[0] == FormatSettings(axes[k])
    ensures (AxisLines(axes)[k..] + rest)[1..] == AxisLines(axes)[k + 1..] + rest
  {
    AxisLinesAt(axes, k);
    SliceCons(AxisLines(axes), k, rest);
  }

  lemma SliceCons(a: seq<string>, k: nat, rest: seq<string>)
    requires k < |a|
    ensures (a[k..] + rest)[0] == a[k] && (a[k..] + rest)[1..] == a[k + 1..] + rest
  {
    assert (a[k..] + rest)[1..] == a[k..][1..] + rest;
  }

  lemma RunCons(st: LoadState, lines: seq<string>, next: LoadState)
    requires lines != [] && Step(st, lines[0]) == Some(next)
    ensures Run(st, lines) == Run(next, lines[1..])
  {
  }

  lemma AxesPrefixGrows(r: JoystickData, axes: AxisSettings, k: nat)
    requires k < AXES && r.axes[..k] == RereadAxes(axes)[..k]
    ensures WithAxis(r, k, Reread(axes[k])).axes[..k + 1] == RereadAxes(axes)[..k + 1]
    ensures WithAxis(r, k, Reread(axes[k])).(axes := RereadAxes(axes)) == r.(axes := RereadAxes(axes))
  {
    var r' := WithAxis(r, k, Reread(axes[k]));
    assert forall j :: 0 <= j < k ==> r'.axes[j] == r.axes[..k][j];
  }

  lemma HeaderLineParsed(guid: string)
    ensures IsHeader(HeaderLine(guid)) && GuidOf(HeaderLine(guid)) == guid
  {
    var h := HeaderLine(guid);
    assert h[1..|h| - 1] == guid;
  }

  /** Reading one saved block appends that device's record, whatever state
      the loop was in. */
  lemma RunBlock(st: LoadState, d: JoystickData, rest: seq<string>)
    ensures Run(st, Block(d) + rest) == Run(LoadState(2, AXES, st.buffer + [Reloaded(d)]), rest)
  {
    var slot := IntToString(d.mappedTo);
    HeaderLineParsed(d.guid);
    AtoiIntToString(d.mappedTo);
    assert Block(d) + rest == [HeaderLine(d.guid), slot] + (AxisLines(d.axes) + rest);
    HeaderThenSlot(st, HeaderLine(d.guid), slot, AxisLines(d.axes) + rest);
    var r := NewRecord(d.guid).(mappedTo := d.mappedTo);
    assert AxisLines(d.axes)[0..] == AxisLines(d.axes);
    RunAxisLines(st.buffer, r, d.axes, 0, rest);
    assert r.(axes := RereadAxes(d.axes)) == Reloaded(d);
  }

  /** Reading the saved lines from any state appends one record per selected
      device, in list order, and never reaches undefined behaviour. */
  lemma {:induction false} RunSaveLines(st: LoadState, ds: seq<JoystickData>)
    ensures Run(st, SaveLines(ds)).Some?
    ensures Run(st, SaveLines(ds)).value.buffer == st.buffer + ReloadedAll(SavedDevices(ds))
    decreases |ds|, 1
  {
    if ds == [] {
      assert st.buffer + ReloadedAll([]) == st.buffer;
    } else if ds[0].selected {
      RunSaveLinesSelected(st, ds);
    } else {
      RunUnselected(st, ds);
      RunSaveLines(st, ds[1..]);
    }
  }

  lemma {:induction false} RunSaveLinesSelected(st: LoadState, ds: seq<JoystickData>)
    requires ds != [] && ds[0].selected
    ensures Run(st, SaveLines(ds)).Some?
    ensures Run(st, SaveLines(ds)).value.buffer == st.buffer + ReloadedAll(SavedDevices(ds))
    decreases |ds|, 0
  {
    var next := LoadState(2, AXES, st.buffer + [Reloaded(ds[0])]);
    RunSelected(st, ds);
    ReloadedSelected(ds);
    RunSaveLines(next, ds[1..]);
    BufferThrough(Run(next, SaveLines(ds[1..])), st.buffer, Reloaded(ds[0]), ReloadedAll(SavedDevices(ds[1..])));
  }

  /** Regrouping the records appended in two goes. */
  lemma BufferThrough(o: Option<LoadState>, buf: seq<JoystickData>, rec: JoystickData, recs: seq<JoystickData>)
    requires o.Some? && o.value.buffer == (buf + [rec]) + recs
    ensures o.value.buffer == buf + ([rec] + recs)
  {
  }

  lemma RunUnselected(st: LoadState, ds: seq<JoystickData>)
    requires ds != [] && !ds[0].selected
    ensures SaveLines(ds) == SaveLines(ds[1..])
    ensures SavedDevices(ds) == SavedDevices(ds[1..])
  {
  }

  lemma RunSelected(st: LoadState, ds: seq<JoystickData>)
    requires ds != [] && ds[0].selected
    ensures Run(st, SaveLines(ds))
         == Run(LoadState(2, AXES, st.buffer + [Reloaded(ds[0])]), SaveLines(ds[1..]))
  {
    var d, tail := ds[0], ds[1..];
    assert SaveLines(ds) == Block(d) + SaveLines(tail);
    RunBlock(st, d, SaveLines(tail));
  }

  lemma ReloadedSelected(ds: seq<JoystickData>)
    requires ds != [] && ds[0].selected
    ensures ReloadedAll(SavedDevices(ds)) == [Reloaded(ds[0])] + ReloadedAll(SavedDevices(ds[1..]))
  {
    assert SavedDevices(ds) == [ds[0]] + SavedDevices(ds[1..]);
  }

  lemma {:induction false} SaveLinesNoNewlines(ds: seq<JoystickData>)
    requires forall k :: 0 <= k < |ds| ==> ds[k].selected ==> '\n' !in ds[k].guid
    ensures NoNewlines(SaveLines(ds))
  {
    if ds != [] {
      SaveLinesNoNewlines(ds[1..]);
      if ds[0].selected {
        var d := ds[0];
        forall i | 0 <= i < |Block(d)| ensures '\n' !in Block(d)[i] {
          if i == 0 {
            assert HeaderLine(d.guid) == ['['] + d.guid + [']'];
          } else if i == 1 {
            assert IntToString(d.mappedTo)[0] != '\n';
            assert forall j :: 1 <= j < |IntToString(d.mappedTo)| ==> IsDigit(IntToString(d.mappedTo)[j]);
          } else {
            AxisLinesAt(d.axes, i - 2);
            FormatNoNewline(d.axes[i - 2]);
          }
        }
      }
    }
  }

  lemma FormatNoNewline(c: CurveSettings)
    ensures '\n' !in FormatSettings(c)
  {
    var n := IntToString(c.curveType);
    assert forall j :: 1 <= j < |n| ==> IsDigit(n[j]);
    var r := if c.reversed then "1" else "0";
    assert FormatSettings(c) == "{ " + n + "; " + r + " }";
  }

  /** Loading the file that `save_file` wrote gives one record per selected
      device, in list order, with its GUID and virtual slot, and with each
      axis's settings as its saved line reads back. */
  lemma SaveLoad(ds: seq<JoystickData>)
    requires forall k :: 0 <= k < |ds| ==> ds[k].selected ==> '\n' !in ds[k].guid
    ensures Loaded(Some(SaveText(ds))) == Some(ReloadedAll(SavedDevices(ds)))
  {
    var lines := SaveLines(ds);
    assert GetLines(SaveText(ds)) == lines by {
      SaveLinesNoNewlines(ds);
      GetLinesJoinLines(lines);
    }
    RunSaveLines(Start, ds);
    assert Start.buffer + ReloadedAll(SavedDevices(ds)) == ReloadedAll(SavedDevices(ds));
    LoadedFromRun(SaveText(ds), lines, ReloadedAll(SavedDevices(ds)));
  }

  lemma LoadedFromRun(t: string, lines: seq<string>, recs: seq<JoystickData>)
    requires GetLines(t) == lines && Run(Start, lines).Some? && Run(Start, lines).value.buffer == recs
    ensures Loaded(Some(t)) == Some(recs)
  {
  }

  /** When every curve type is a single digit, the records carry exactly the
      saved GUID, virtual slot and all seven axis settings. */
  lemma SaveLoadExact(ds: seq<JoystickData>)
    requires forall k :: 0 <= k < |ds| ==> ds[k].selected ==> '\n' !in ds[k].guid && DigitCurves(ds[k])
    ensures Loaded(Some(SaveText(ds))).Some?
    ensures var records := Loaded(Some(SaveText(ds))).value;
      |records| == |SavedDevices(ds)| &&
      forall k :: 0 <= k < |records| ==>
        records[k].guid == SavedDevices(ds)[k].guid &&
        records[k].mappedTo == SavedDevices(ds)[k].mappedTo &&
        records[k].axes == SavedDevices(ds)[k].axes
  {
    SaveLoad(ds);
    var saved := SavedDevices(ds);
    forall k | 0 <= k < |saved|
      ensures ReloadedAll(saved)[k] == Reloaded(saved[k]) && RereadAxes(saved[k].axes) == saved[k].axes
    {
      ReloadedAllAt(saved, k);
      RereadDigits(saved[k]);
    }
  }
}
