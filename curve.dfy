/** Per-axis response settings and their one-line text form
    (`CurveSettings`, `settings_string` and the settings line of `save_file`). */
module Curve {
  import opened Text

  /** The values of the `Curves` enumeration. */
  const LINEAR := 0
  const CUBIC := 1

  /** Every device carries settings for this many axes (`axes_settings[7]`). */
  const AXES := 7

  /** `curve_type` is a plain `int`: nothing keeps it inside the enumeration. */
  datatype CurveSettings = CurveSettings(reversed: bool, curveType: int)

  /** A default-constructed `CurveSettings`: linear, not reversed. */
  const Default := CurveSettings(false, LINEAR)

  /** The fixed-size array `CurveSettings axes_settings[7]`. */
  type AxisSettings = s: seq<CurveSettings> | |s| == AXES
    witness [Default, Default, Default, Default, Default, Default, Default]

  const DefaultAxes: AxisSettings := [Default, Default, Default, Default, Default, Default, Default]

  /** The characters both parsers drop before reading digits. */
  predicate Dropped(c: char) {
    c == '{' || c == '}' || c == ' '
  }

  /** The `strip` string both parsers build: `s` without '{', '}' and ' '. */
  function Strip(s: string): (r: string)
    ensures |r| <= |s|
    ensures forall i :: 0 <= i < |r| ==> !Dropped(r[i])
  {
    if s == [] then []
    else
      var last := s[|s| - 1];
      Strip(s[..|s| - 1]) + (if Dropped(last) then [] else [last])
  }

  /** What the unchecked constructor `CurveSettings(const std::string&)` reads
      from a line whose stripped form has at least two characters: the code
      of character 0 minus '0' as the curve type, and "character 2 is not '0'"
      as the reversed flag. On exactly two characters, character 2 is the
      terminating '\0', so the flag is set. */
  function ParsedSettings(line: string): CurveSettings
    requires |Strip(line)| >= 2
  {
    var strip := Strip(line);
    CurveSettings(CharOffset(CharAt(strip, 2)) != 0, CharOffset(strip[0]))
  }

  /** What the tolerant `settings_string` returns: the parsed settings when
      the stripped line is long enough, the default settings otherwise. */
  function TolerantSettings(line: string): (r: CurveSettings)
    ensures |Strip(line)| < 3 ==> r == Default
    ensures |Strip(line)| >= 3 ==> r == ParsedSettings(line)
  {
    if |Strip(line)| >= 3 then ParsedSettings(line) else Default
  }

  /** The settings line `save_file` writes: `{ <curve_type>; <0|1> }`. */
  function FormatSettings(c: CurveSettings): (line: string)
    ensures |line| == |IntToString(c.curveType)| + 7 && line[0] == '{' && line[|line| - 1] == '}'
  {
    "{ " + IntToString(c.curveType) + "; " + (if c.reversed then "1" else "0") + " }"
  }

  /** Stripping works character by character: it distributes over concatenation. */
  lemma {:induction false} StripConcat(a: string, b: string)
    ensures Strip(a + b) == Strip(a) + Strip(b)
    decreases |b|
  {
    if b == [] {
      assert a + b == a;
    } else {
      var ab := a + b;
      assert ab[..|ab| - 1] == a + b[..|b| - 1];
      StripConcat(a, b[..|b| - 1]);
    }
  }

  /** Stripping keeps every character that is not one of the three dropped ones. */
  lemma {:induction false} StripKeeps(s: string)
    requires forall i :: 0 <= i < |s| ==> !Dropped(s[i])
    ensures Strip(s) == s
  {
    if s != [] {
      StripKeeps(s[..|s| - 1]);
    }
  }

  lemma StripPunctuation()
    ensures Strip("{ ") == [] && Strip("; ") == ";" && Strip(" }") == []
    ensures Strip("0") == "0" && Strip("1") == "1"
  {
    assert "{ "[..1] == "{" && "{"[..0] == [];
    assert "; "[..1] == ";" && ";"[..0] == [];
    assert " }"[..1] == " " && " "[..0] == [];
    assert "0"[..0] == [] && "1"[..0] == [];
  }

  /** Every saved settings line is long enough for the unchecked parser. */
  lemma FormatSettingsStripped(c: CurveSettings)
    ensures Strip(FormatSettings(c)) == IntToString(c.curveType) + ";" + (if c.reversed then "1" else "0")
    ensures |Strip(FormatSettings(c))| >= 3
  {
    var n := IntToString(c.curveType);
    var r := if c.reversed then "1" else "0";
    StripPunctuation();
    StripKeeps(n);
    StripFrame("{ ", n, "; ", r, " }");
  }

  /** Stripping a line made of five pieces, of which the first and the last
      vanish and the others keep what they hold. */
  lemma StripFrame(p: string, n: string, q: string, r: string, t: string)
    requires Strip(p) == [] && Strip(n) == n && Strip(q) == ";" && Strip(r) == r && Strip(t) == []
    ensures Strip(p + n + q + r + t) == n + ";" + r
  {
    StripConcat(p + n + q + r, t);
    StripConcat(p + n + q, r);
    StripConcat(p + n, q);
    StripConcat(p, n);
    assert Strip(p) + Strip(n) == n;
  }

  /** Parsing a saved settings line gives back the settings, whenever the curve
      type is a single decimal digit, as the curve selector keeps it. */
  lemma FormatParseRoundTrip(c: CurveSettings)
    requires 0 <= c.curveType <= 9
    ensures |Strip(FormatSettings(c))| >= 3
    ensures ParsedSettings(FormatSettings(c)) == c
    ensures TolerantSettings(FormatSettings(c)) == c
  {
    FormatSettingsStripped(c);
    assert IntToString(c.curveType) == [DigitChar(c.curveType)];
  }

  /** The character filter loop both parsers run. */
  method StripLine(str: string) returns (strip: string)
    ensures strip == Strip(str)
  {
    strip := "";
    var i := 0;
    while i < |str|
      invariant 0 <= i <= |str|
      invariant strip == Strip(str[..i])
    {
      var c := str[i];
      assert str[..i + 1][..i] == str[..i];
      if !Dropped(c) {
        strip := strip + [c];
      }
      i := i + 1;
    }
    assert str[..|str|] == str;
  }

  /** The constructor `CurveSettings(const std::string&)`. It indexes `strip[0]`
      and `strip[2]` with no length check; `strip[2]` is defined only up to
      the terminator, so its callers must hand it a line whose stripped form
      has at least two characters. */
  method CurveSettingsFrom(str: string) returns (settings: CurveSettings)
    requires |Strip(str)| >= 2
    ensures settings == ParsedSettings(str)
    ensures settings.curveType == CharOffset(Strip(str)[0])
    ensures settings.reversed <==> |Strip(str)| == 2 || Strip(str)[2] != '0'
  {
    var strip := StripLine(str);
    settings := CurveSettings(CharOffset(CharAt(strip, 2)) != 0, CharOffset(strip[0]));
  }

  /** `settings_string`: the same filter, then the defaults when fewer than
      three characters remain. */
  method SettingsString(str: string) returns (settings: CurveSettings)
    ensures settings == TolerantSettings(str)
    ensures |Strip(str)| < 3 ==> settings == Default
    ensures |Strip(str)| >= 3 ==> settings.curveType == CharOffset(Strip(str)[0])
    ensures |Strip(str)| >= 3 ==> (settings.reversed <==> Strip(str)[2] != '0')
  {
    var strip := StripLine(str);
    settings := Default;
    if |strip| >= 3 {
      settings := CurveSettings(CharOffset(strip[2]) != 0, CharOffset(strip[0]));
    }
  }
}
