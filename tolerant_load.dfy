/** A reading of the assignment file that is defined on every input:
    `load_file` with its settings lines parsed by the tolerant
    `settings_string` and with settings lines past the seventh of a block
    ignored. Where `load_file` itself is defined and reads no settings line
    of exactly two stripped characters, the two agree. */
module TolerantLoad {
  import opened Wrappers
  import opened Text
  import opened Curve
  import opened Joystick
  import opened Persistence

  /** One line of the tolerant loader; it never fails. */
  function TolerantStep(st: LoadState, line: string): LoadState {
    if IsHeader(line) then
      LoadState(1, 0, st.buffer + [NewRecord(GuidOf(line))])
    else if st.buffer == [] then
      st
    else if st.kind == 1 then
      var last := st.buffer[|st.buffer| - 1];
      LoadState(2, st.settingsNum, st.buffer[|st.buffer| - 1 := last.(mappedTo := Atoi(line))])
    else if st.kind == 2 && 0 <= st.settingsNum < AXES then
      var last := st.buffer[|st.buffer| - 1];
      var axes := last.axes[st.settingsNum := TolerantSettings(line)];
      LoadState(2, st.settingsNum + 1, st.buffer[|st.buffer| - 1 := last.(axes := axes)])
    else
      st
  }

  function TolerantRun(st: LoadState, lines: seq<string>): LoadState
    decreases |lines|
  {
    if lines == [] then st else TolerantRun(TolerantStep(st, lines[0]), lines[1..])
  }

  /** The records read from a file, or none when it cannot be opened. */
  function TolerantLoaded(file: Option<string>): seq<JoystickData> {
    match file
    case None => []
    case Some(t) => TolerantRun(Start, GetLines(t)).buffer
  }

  /** A settings line whose stripped form has exactly two characters: the
      constructor reads it (its character 2 is the terminator) while
      `settings_string` gives the default. */
  predicate TwoCharSettingsLine(st: LoadState, line: string) {
    !IsHeader(line) && st.buffer != [] && st.kind == 2 && 0 <= st.settingsNum < AXES && |Strip(line)| == 2
  }

  /** No line of `lines`, read from state `st` on, is such a settings line
      (up to the first undefined line). */
  predicate NoTwoCharSettings(st: LoadState, lines: seq<string>)
    decreases |lines|
  {
    lines == [] ||
    (!TwoCharSettingsLine(st, lines[0]) &&
     match Step(st, lines[0])
     case None => true
     case Some(next) => NoTwoCharSettings(next, lines[1..]))
  }

  /** Wherever a line is defined for `load_file` and is not a two-character
      settings line, the tolerant step does the same thing with it. */
  lemma StepAgrees(st: LoadState, line: string)
    requires Step(st, line).Some? && !TwoCharSettingsLine(st, line)
    ensures Step(st, line).value == TolerantStep(st, line)
  {
  }

  lemma {:induction false} RunAgrees(st: LoadState, lines: seq<string>)
    requires Run(st, lines).Some? && NoTwoCharSettings(st, lines)
    ensures Run(st, lines).value == TolerantRun(st, lines)
    decreases |lines|
  {
    if lines != [] {
      StepAgrees(st, lines[0]);
      RunAgrees(Step(st, lines[0]).value, lines[1..]);
    }
  }

  /** The tolerant loader returns what `load_file` returns on every file on
      which `load_file` is defined and reads no two-character settings line. */
  lemma LoadedAgrees(file: Option<string>)
    requires Loaded(file).Some?
    requires file.Some? ==> NoTwoCharSettings(Start, GetLines(file.value))
    ensures Loaded(file).value == TolerantLoaded(file)
  {
    if file.Some? {
      RunAgrees(Start, GetLines(file.value));
    }
  }

  lemma {:induction false} NoTwoCharConcat(st: LoadState, a: seq<string>, b: seq<string>)
    requires Run(st, a).Some? && NoTwoCharSettings(st, a) && NoTwoCharSettings(Run(st, a).value, b)
    ensures NoTwoCharSettings(st, a + b)
    decreases |a|
  {
    if a == [] {
      assert a + b == b;
    } else {
      assert (a + b)[0] == a[0] && (a + b)[1..] == a[1..] + b;
      NoTwoCharConcat(Step(st, a[0]).value, a[1..], b);
    }
  }

  /** Saved settings lines strip to at least three characters. */
  lemma {:induction false} NoTwoCharAxisLines(buf: seq<JoystickData>, r: JoystickData, axes: AxisSettings, k: nat)
    requires k <= AXES
    ensures NoTwoCharSettings(LoadState(2, k, buf + [r]), AxisLines(axes)[k..])
    decreases AXES - k
  {
    var lines := AxisLines(axes)[k..];
    if k < AXES {
      AxisLinesAt(axes, k);
      assert lines[0] == FormatSettings(axes[k]) && lines[1..] == AxisLines(axes)[k + 1..];
      FormatSettingsStripped(axes[k]);
      AxisLineStep(buf, r, axes[k], k);
      NoTwoCharAxisLines(buf, WithAxis(r, k, Reread(axes[k])), axes, k + 1);
    }
  }

  lemma NoTwoCharBlock(st: LoadState, d: JoystickData)
    ensures NoTwoCharSettings(st, Block(d))
  {
    var header, slot := HeaderLine(d.guid), IntToString(d.mappedTo);
    HeaderLineParsed(d.guid);
    var mid := LoadState(1, 0, st.buffer + [NewRecord(d.guid)]);
    var r := NewRecord(d.guid).(mappedTo := Atoi(slot));
    assert Step(st, header) == Some(mid);
    assert mid.buffer[|mid.buffer| - 1 := r] == st.buffer + [r];
    assert Step(mid, slot) == Some(LoadState(2, 0, st.buffer + [r]));
    NoTwoCharAxisLines(st.buffer, r, d.axes, 0);
    var lines := Block(d);
    assert AxisLines(d.axes)[0..] == AxisLines(d.axes);
    assert lines[0] == header && lines[1..][0] == slot && lines[1..][1..] == AxisLines(d.axes);
  }

  lemma {:induction false} NoTwoCharSaveLines(st: LoadState, ds: seq<JoystickData>)
    ensures NoTwoCharSettings(st, SaveLines(ds))
    decreases |ds|
  {
    if ds != [] {
      var d := ds[0];
      if d.selected {
        assert SaveLines(ds) == Block(d) + SaveLines(ds[1..]);
        RunBlock(st, d, []);
        assert Block(d) + [] == Block(d);
        NoTwoCharBlock(st, d);
        NoTwoCharSaveLines(Run(st, Block(d)).value, ds[1..]);
        NoTwoCharConcat(st, Block(d), SaveLines(ds[1..]));
      } else {
        assert SaveLines(ds) == SaveLines(ds[1..]);
        NoTwoCharSaveLines(st, ds[1..]);
      }
    }
  }

  lemma {:induction false} TolerantRunConcat(st: LoadState, a: seq<string>, b: seq<string>)
    ensures TolerantRun(st, a + b) == TolerantRun(TolerantRun(st, a), b)
    decreases |a|
  {
    if a == [] {
      assert a + b == b;
    } else {
      assert (a + b)[0] == a[0] && (a + b)[1..] == a[1..] + b;
      TolerantRunConcat(TolerantStep(st, a[0]), a[1..], b);
    }
  }

  /** The saved file reads back through the tolerant loader as it does
      through `load_file`. */
  lemma TolerantSaveLoad(ds: seq<JoystickData>)
    requires forall k :: 0 <= k < |ds| ==> ds[k].selected ==> '\n' !in ds[k].guid
    ensures TolerantLoaded(Some(SaveText(ds))) == ReloadedAll(SavedDevices(ds))
  {
    SaveLoad(ds);
    SaveLinesNoNewlines(ds);
    GetLinesJoinLines(SaveLines(ds));
    NoTwoCharSaveLines(Start, ds);
    LoadedAgrees(Some(SaveText(ds)));
  }

  // ------------------------------------------------ where `load_file` fails

  /** A settings line whose stripped form is shorter than two characters,
      in any record's block: `CurveSettings(const std::string&)` reads
      `strip[2]` past the terminator, so `load_file` is undefined. */
  lemma ShortSettingsLineUndefined(buf: seq<JoystickData>, r: JoystickData, k: nat, line: string)
    requires k < AXES && !IsHeader(line) && |Strip(line)| < 2
    ensures Step(LoadState(2, k, buf + [r]), line).None?
  {
  }

  /** The line "{}" is such a line. */
  lemma BracesTooShort()
    ensures !IsHeader("{}") && |Strip("{}")| < 2
  {
    assert "{}"[..1] == "{" && "{"[..0] == [];
  }

  /** A settings line of exactly two stripped characters: `load_file` stores
      the curve type of character 0 with the reversed flag set, where the
      tolerant loader stores the default settings. */
  lemma TwoCharSettingsLineRead(buf: seq<JoystickData>, r: JoystickData, k: nat, line: string)
    requires k < AXES && !IsHeader(line) && |Strip(line)| == 2
    ensures Step(LoadState(2, k, buf + [r]), line)
         == Some(LoadState(2, k + 1, buf + [WithAxis(r, k, CurveSettings(true, CharOffset(Strip(line)[0])))]))
    ensures Step(LoadState(2, k, buf + [r]), line).value != TolerantStep(LoadState(2, k, buf + [r]), line)
  {
    var c := CurveSettings(true, CharOffset(Strip(line)[0]));
    assert (buf + [r])[|buf + [r]| - 1 := WithAxis(r, k, c)] == buf + [WithAxis(r, k, c)];
    assert (buf + [r])[|buf + [r]| - 1 := WithAxis(r, k, Default)] == buf + [WithAxis(r, k, Default)];
    var tolerant := TolerantStep(LoadState(2, k, buf + [r]), line);
    assert tolerant == LoadState(2, k + 1, buf + [WithAxis(r, k, Default)]);
    assert WithAxis(r, k, c).axes[k] != WithAxis(r, k, Default).axes[k];
    assert (buf + [WithAxis(r, k, c)])[|buf|] != tolerant.buffer[|buf|];
  }

  /** The line "{ 1; }" is such a line. */
  lemma OneSemicolon()
    ensures !IsHeader("{ 1; }") && Strip("{ 1; }") == "1;"
  {
    StripPunctuation();
    assert Strip(";") == ";" && Strip("") == [] by {
      assert ";"[..0] == [];
    }
    StripFrame("{ ", "1", ";", "", " }");
    assert "{ " + "1" + ";" + "" + " }" == "{ 1; }";
    assert "1" + ";" + "" == "1;";
  }

  /** The tolerant loader stores the default settings for that axis instead,
      and moves on to the next. */
  lemma ShortSettingsLineTolerated(buf: seq<JoystickData>, r: JoystickData, k: nat, line: string)
    requires k < AXES && !IsHeader(line) && |Strip(line)| < 3
    ensures TolerantStep(LoadState(2, k, buf + [r]), line)
         == LoadState(2, k + 1, buf + [r.(axes := r.axes[k := Default])])
  {
    assert (buf + [r])[|buf + [r]| - 1 := r.(axes := r.axes[k := Default])] == buf + [r.(axes := r.axes[k := Default])];
  }

  /** One settings line more than the seven of a saved block makes
      `load_file` write `axes_settings[7]`. */
  lemma EighthSettingsLineUndefined(d: JoystickData)
    ensures Run(Start, Block(d) + [FormatSettings(d.axes[0])]).None?
  {
    var extra := FormatSettings(d.axes[0]);
    RunBlock(Start, d, [extra]);
    FormatSettingsStripped(d.axes[0]);
    assert extra[0] == '{';
    assert Step(LoadState(2, AXES, [Reloaded(d)]), extra).None?;
  }

  /** The tolerant loader ignores that line and keeps the block's record. */
  lemma EighthSettingsLineTolerated(d: JoystickData)
    ensures TolerantRun(Start, Block(d) + [FormatSettings(d.axes[0])]).buffer == [Reloaded(d)]
  {
    var extra := FormatSettings(d.axes[0]);
    RunBlock(Start, d, []);
    assert Block(d) + [] == Block(d);
    NoTwoCharBlock(Start, d);
    RunAgrees(Start, Block(d));
    TolerantRunConcat(Start, Block(d), [extra]);
    FormatSettingsStripped(d.axes[0]);
    assert extra[0] == '{';
  }
}
