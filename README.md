# vJoyMapper device bookkeeping, in Dafny

vJoyMapper maps physical joysticks onto vJoy virtual joysticks. This
project models the part of the program (all in `main.cpp`) that keeps
track of which physical device drives which virtual slot, and proves
properties of that model. The modelled parts are:

- the device list `std::vector<JoystickData> joysticks`;
- the "Reload" merge of newly discovered devices;
- the per-frame removal of disconnected devices;
- the device buttons that open and close a panel;
- the exclusion list and the `IncrementSelector` arithmetic that pick a
  panel's virtual slot;
- the assignment file written by `save_file` and read back by `load_file`
  and the "Load" button.

The list is a value (`seq<JoystickData>`). `joysticks` is a local vector
of value structs owned by `main` and never aliased, so returning the new
sequence captures the source's in-place updates. Each list operation of
the main loop is a method with the source's loops. It returns the new list and is proved
equal to a specification function. The properties are lemmas about those
functions.

Modules, one per file:

- `Wrappers`: `Option`.
- `Text`: decimal output of integers, `std::atoi`, and splitting a file
  into lines as `std::getline` does.
- `Curve`: `CurveSettings`, the two parsers of a settings line, and the
  line `save_file` writes.
- `Joystick`: `JoystickData` and `CheckForJoysticks`, working over a
  snapshot of the sixteen joystick slots.
- `Selector`: `IncrementSelector`.
- `Registry`: the "Reload" merge and the removal of disconnected devices.
- `Persistence`: `save_file` as the lines it writes, and `load_file` as a
  state machine over lines.
- `Assignment`: the "Load" apply, the device buttons, the exclusion list
  and the slot choice.
- `TolerantLoad`: a loader that is defined on every file.
- `RoundTrip`: save, then load, then apply.

`load_file` has undefined behaviour on two kinds of input. The first is a
settings line whose stripped form is shorter than two characters: the
unchecked `CurveSettings(const std::string&)` reads `strip[2]`, and a
`std::string` may be indexed up to its size, where it holds the
terminating `'\0'`, but no further. The second is more than seven settings
lines after a header, because nothing bounds `settings_num`. Its step
function `Persistence.Step` returns `None` on exactly those lines, for
lines of ASCII characters (model strings are code points, not bytes; see
Left out).
`Persistence.LoadFile` requires that the whole file avoids them.

On a settings line that strips to exactly two characters the constructor
is defined: character 2 is the terminator, so `reversed` is set and the
curve type is read from character 0. The program also has a tolerant
parser, `settings_string` (main.cpp:204-218), which checks the length and
gives the default settings below three characters, but `load_file` never
calls it. The model follows `load_file`. The tolerant reading lives in
`TolerantLoad`; see Findings.

## Model

| member | source | states |
|---|---|---|
| Text.AtoiIntToString | main.cpp:195 | `atoi` reads the decimal text written for any `int` back as that same value. This is how the slot line round-trips (main.cpp:241). |
| Text.GetLinesJoinLines | main.cpp:231 | Splitting a text into lines as `getline` does gives back the lines that were each written followed by `'\n'`, provided none holds a line break. |
| Curve.Strip | main.cpp:87-91 | The stripped line keeps no `{`, `}` or space and is never longer than the line. |
| Curve.StripConcat | main.cpp:87-91 | Stripping works character by character: it distributes over concatenation. |
| Curve.CurveSettingsFrom | main.cpp:86-94 | The constructor's loop builds the stripped line. The curve type is character 0 minus `'0'`. `reversed` holds exactly when the stripped line has two characters (character 2 is then the terminator) or its character 2 is not `'0'`. It requires two stripped characters, below which `strip[2]` is past the terminator; the source never checks. |
| Curve.SettingsString | main.cpp:204-218 | The loop version of `settings_string` computes `TolerantSettings`: the default below three characters, otherwise character 0 minus `'0'` and "character 2 is not `'0'`". |
| Curve.StripLine | main.cpp:87-91 | The filtering loop computes `Strip`. |
| Curve.FormatSettings | main.cpp:197 | The settings line `save_file` writes opens with `{` and closes with `}`, and is seven characters longer than the curve type in decimal. |
| Curve.FormatSettingsStripped | main.cpp:197 | A saved settings line strips to the curve type in decimal, `;`, then `1` or `0`, which is at least three characters. |
| Curve.FormatParseRoundTrip | main.cpp:86-94 | For a single-digit curve type, both parsers read the saved line back as the settings that were written. |
| Joystick.CheckForJoysticks | main.cpp:106-125 | The slot loop returns `Discovered(snapshot)`. |
| Joystick.DiscoveredMembers | main.cpp:109-121 | A record is listed exactly when its slot holds a device whose name (or "Unknown") is not "vJoy Device". It then carries that slot's id, the name, the GUID (or "Unknown") and default state. |
| Joystick.DiscoveredOrdered | main.cpp:109 | Records come out in strictly increasing slot order. |
| Joystick.DiscoveredDefaults | main.cpp:114-120 | No listed device is a virtual device, and each starts unselected, unmapped and with default axes. |
| Selector.IncrementSelector | main.cpp:150-185 | Two loops over the exclusion list compute the frame's new value. With an empty list, "-" gives max(value-1, min) and "+" gives min(value+1, max). With no press the value is unchanged. |
| Selector.ShiftBounds | main.cpp:160-163 | Each exclusion entry shifts the value by at most one, so the total shift is bounded by the list's length. |
| Selector.ShiftUnmatched | main.cpp:160-163 | A value that is in no exclusion entry is not shifted. |
| Selector.ShiftMovesOnlyExcluded | main.cpp:178-181 | The value moves only when it is in the exclusion list. |
| Selector.StepBounds | main.cpp:155-182 | "-" lands on `min` or within the list's length below value-1. "+" lands within the list's length above the clamped value. |
| Selector.AfterFrameStaysInRange | main.cpp:155-182 | Without exclusions, a frame keeps a value in [min, max]. This keeps a curve type in 0..1. |
| Selector.IncrementCanLandOnExcluded | main.cpp:178-181 | The single pass can land on an excluded value: "+" from 0 with 2, 1 excluded gives 2. |
| Selector.IncrementCanPassMax | main.cpp:175-181 | "+" at the maximum 3 with 3 excluded gives 4. |
| Selector.DecrementCanPassMin | main.cpp:157-163 | "-" from 2 with 1, 0 excluded gives -1, below `min`. |
| Registry.Reload | main.cpp:321-335 | The nested loops with `break` compute `Merge(joysticks, newBuffer)`. |
| Registry.FindGuid | main.cpp:324-330 | The inner loop, stopping at the first match, finds out exactly whether some entry of the list has the GUID. |
| Registry.MergePrefix | main.cpp:321-335 | The previous list is an unchanged prefix of the result. |
| Registry.MergeCovers | main.cpp:321-335 | Every GUID of the old list or of the discovered batch occurs in the result. |
| Registry.MergeAppendsFresh | main.cpp:323-333 | Each appended entry comes from the batch, and its GUID does not occur earlier in the result. |
| Registry.MergeKeepsUnique | main.cpp:323-333 | A list with unique GUIDs keeps them unique. |
| Registry.MergeKnown | main.cpp:323-333 | A batch whose GUIDs are all present leaves the list unchanged. |
| Registry.MergeIdempotent | main.cpp:321-335 | Merging the same batch a second time changes nothing. |
| Registry.Prune | main.cpp:282-292 | Walking the index downward, with `erase` and `continue`, computes `Pruned(joysticks, axisCounts)`. |
| Registry.PrunedMembers | main.cpp:284-291 | An entry survives exactly when it is unmapped or still reports axes. An unmapped entry is never removed. |
| Registry.PrunedConcat | main.cpp:282-292 | Removal works entry by entry, so survivors keep their relative order and all their fields. |
| Registry.PrunedNoneDisconnected | main.cpp:282-292 | With no disconnected mapped entry, nothing is removed. |
| Registry.PrunedIdempotent | main.cpp:282-292 | A second pass over the result removes nothing more. |
| Persistence.SavedDevices | main.cpp:191-192 | `save_file` writes only selected devices from the list, and no more devices than the list has. |
| Persistence.SavedDevicesMembers | main.cpp:191-192 | A device is written exactly when it is in the list and selected. |
| Persistence.SaveLines | main.cpp:187-202 | `save_file` writes nine lines for each selected device and none for the others. |
| Persistence.SaveLinesBlocks | main.cpp:191-199 | The file is one block per selected device, in list order, and nothing for unselected devices. |
| Persistence.Blocks | main.cpp:194-198 | The blocks take nine lines per device. |
| Persistence.BlockLines | main.cpp:194-198 | A block is `"[" + guid + "]"`, then the slot in decimal, then the seven settings lines in axis order. |
| Persistence.AxisLinesAt | main.cpp:196-197 | Settings line `i` of a block is the formatted settings of axis `i`. |
| Persistence.Step | main.cpp:231-246 | One iteration of the `getline` loop is undefined exactly on a non-header line after the slot line that is an eighth settings line or strips to fewer than two characters. |
| Persistence.LoadFile | main.cpp:220-252 | The loop computes `Loaded(file)`. A file that cannot be opened gives no records. |
| Persistence.ReadLine | main.cpp:232-245 | The loop body moves `type`, `settings_num` and the buffer exactly as `Step` says, on every line where that step is defined. |
| Persistence.RunNoHeaders | main.cpp:231-246 | Lines with no header leave the loop's state as it started. |
| Persistence.LeadingLinesIgnored | main.cpp:231-246 | Lines before the first header are ignored. |
| Persistence.HeaderThenSlot | main.cpp:232-242 | A `[` line starts a new record whose GUID is the line minus its first and last characters. The next line sets that record's slot through `atoi`. Earlier records stay as they were. |
| Persistence.RunConcat | main.cpp:231 | Reading two runs of lines one after the other is reading their concatenation. |
| Persistence.RunAxisLines | main.cpp:243-246 | The seven settings lines of a block fill the record's axes in order with what each line reads back as. |
| Persistence.RunBlock | main.cpp:231-246 | Reading one saved block, from any state, appends that device's record. |
| Persistence.RunSaveLines | main.cpp:187-252 | Reading the saved lines is defined and appends one record per selected device, in list order. |
| Persistence.SaveLoad | main.cpp:187-252 | Loading the saved file yields, for each selected device in order, its GUID, its slot and the settings each saved line reads back as. This holds when no selected GUID holds a line break. |
| Persistence.SaveLoadExact | main.cpp:187-252 | With single-digit curve types, the loaded records carry exactly the saved GUIDs, slots and all seven axis settings, in order. |
| Persistence.RereadDigits | main.cpp:86-94 | Single-digit curve types read back unchanged on all seven axes. |
| Assignment.LoadApply | main.cpp:343-355 | The nested loops, with the seven-element copy, compute `Applied(joysticks, records)`. |
| Assignment.LastMatchIndex | main.cpp:345-353 | Gives the last record index with the GUID, or -1 exactly when no record has it. |
| Assignment.ApplyRecordsLastMatch | main.cpp:345-353 | The last matching record wins. Without one, the device is untouched. |
| Assignment.LoadApplySemantics | main.cpp:343-355 | "Load" keeps the length, order, names, slot ids and GUIDs. A matching device gets the last record's slot, `selected` and the seven axis settings. Others are unchanged. |
| Assignment.LoadApplyIdempotent | main.cpp:343-355 | Pressing "Load" twice with the same records equals pressing it once. |
| Assignment.Toggled | main.cpp:363-365 | The button flips `selected`. The slot becomes 0 when the panel closes and is kept when it opens. Nothing else changes. |
| Assignment.ToggleFrame | main.cpp:360-367 | The loop over device buttons toggles exactly the clicked devices. |
| Assignment.ToggleTwice | main.cpp:363-365 | Clicking twice restores `selected` but releases the slot. |
| Assignment.ExclusionList | main.cpp:380-386 | The loop computes `ExcludedSlots`. |
| Assignment.ExcludedSlotsMembers | main.cpp:380-386 | A slot is excluded exactly when some other selected device, with a different slot id, holds it. |
| Assignment.SelectSlot | main.cpp:380-387 | A panel's selector steps its device's slot against the exclusion list built from the current list. |
| Assignment.SlotSelectedAlone | main.cpp:380-387 | With no other open panel, the slot stays in [0, pads]. |
| Assignment.SlotsCanCollide | main.cpp:380-387 | Two open panels can end on the same slot, so slot assignment is not unique. |
| Assignment.DiscoveredReleased | main.cpp:120 | Discovered devices satisfy "every closed panel has slot 0". |
| Assignment.MergeReleased | main.cpp:321-335 | The merge preserves "every closed panel has slot 0". |
| Assignment.PrunedReleased | main.cpp:282-292 | The pruning preserves it. |
| Assignment.AppliedReleased | main.cpp:343-355 | "Load" preserves it. |
| Assignment.ToggledReleased | main.cpp:360-367 | The buttons preserve it. |
| Assignment.SlotSelectedReleased | main.cpp:380-387 | The selector, which runs only for open panels, preserves it. |
| TolerantLoad.LoadedAgrees | main.cpp:220-252 | On every file where `load_file` is defined and reads no settings line of exactly two stripped characters, the tolerant loader returns the same records. |
| TolerantLoad.NoTwoCharSaveLines | main.cpp:187-202 | A saved file holds no settings line of two stripped characters, whatever state reading starts from. |
| TolerantLoad.TolerantSaveLoad | main.cpp:187-252 | The saved file reads back through the tolerant loader as through `load_file`. |
| TolerantLoad.ShortSettingsLineUndefined | main.cpp:92-93 | A non-header line read as the settings of one of the seven axes of any record, whose stripped form has fewer than two characters, makes `load_file` undefined. |
| TolerantLoad.BracesTooShort | main.cpp:87-93 | The line `{}` is such a line: it is not a header and strips to nothing. |
| TolerantLoad.TwoCharSettingsLineRead | main.cpp:92-93 | A settings line of exactly two stripped characters is read by `load_file` as the curve type of character 0 with `reversed` set, which differs from what the tolerant loader stores. |
| TolerantLoad.OneSemicolon | main.cpp:87-91 | The line `{ 1; }` is such a line: it is not a header and strips to `1;`. |
| TolerantLoad.ShortSettingsLineTolerated | main.cpp:204-218 | On such a line the tolerant loader stores the default settings for that axis and moves on to the next axis. |
| TolerantLoad.EighthSettingsLineUndefined | main.cpp:243-245 | A saved block followed by one more settings line makes `load_file` write `axes_settings[7]`. |
| TolerantLoad.EighthSettingsLineTolerated | main.cpp:243-245 | The tolerant loader ignores that line and keeps the block's record. |
| RoundTrip.RecordsLastMatch | main.cpp:345-353 | With unique GUIDs, the last record a device meets is the one saved for the selected device with its GUID. |
| RoundTrip.RestoreSession | main.cpp:187-252 | Save a list, then "Load" onto another. A device takes the saved slot, selection and axis settings of the selected device with its GUID, and keeps its own name and slot id. Every other device is untouched. Both loaders read the same records. |
| RoundTrip.RecordsRestore | main.cpp:345-353 | With unique GUIDs and saveable devices, applying the saved records to a device of the saved list gives back that device. |
| RoundTrip.SaveLoadApply | main.cpp:343-355 | Saving and then loading onto the same devices, with unique GUIDs, changes nothing. |
| RoundTrip.RestoreScenario | main.cpp:343-355 | Take a device saved with GUID "ABC123", slot 2 and a reversed cubic curve on axis 0. A freshly discovered device with that GUID gets slot 2, `selected` and that curve. |

## Left out

- `EditAxis` (main.cpp:127-148) and the axis updates in the prune loop (main.cpp:294-309) are not modelled: they are float arithmetic and a vJoy driver call. Note that `HID_USAGE_SL1 - 0x30` is 7, one past the seven-element `axes_settings`.
- The GLFW and ImGui window, rendering and font code, and the vJoy driver setup and release (`InitVJoy`, `AcquireVJoyPads`, `FreeVJoyPads`) are foreign library code. A button press is modelled as the operation being invoked, and the number of acquired pads as the parameter `pads`.
- The library calls in `CheckForJoysticks` and `glfwGetJoystickAxes` are inputs: a snapshot of the sixteen slots, and a map from slot id to axis count in which a missing slot counts 0.
- The console output of `CheckForJoysticks` (main.cpp:118) is left out.
- `std::ofstream`/`std::ifstream` are left out. A file is its text, or `None` when it cannot be opened. Windows line-end translation is not modelled.
- Integer width: `int` is unbounded in the model. `atoi` overflow and `int` wrap-around are not modelled, since saved slots are small.
- Curve.CurveSettingsFrom: a `char` code above 127 would be negative where `char` is signed. The model uses the code point.
- Persistence.Step: model strings are sequences of Unicode code points, while `load_file` reads bytes. On a non-ASCII settings line the stripped length, character 2 and the boundary of undefined behaviour differ from the source. For the lines `[g]`, `0`, `é`, where `é` is the two UTF-8 bytes C3 A9, the source strips two bytes and reads the terminator as character 2, while the model strips one character and `Step` returns `None`. Byte-level strings are not modelled because the saved format the model round-trips is ASCII apart from the GUID.
- Persistence.NewRecord: the `jid` of a loaded record is left uninitialised by the source. The model sets it to 0; "Load" never reads it.
- Persistence.LoadFile: requires that `load_file` is defined on the file. The source's undefined behaviour is not given a meaning; `Step` marks it with `None`.
- TolerantLoad.LoadedAgrees: promises agreement only on files that read no two-character settings line, because there the two parsers differ (see Findings).
- Selector.IncrementSelector: the ImGui table and the value label it draws are left out.
- Assignment.SelectSlot: models one panel's selector. The main loop runs it panel after panel over the same, updated list.
- Assignment.ToggleFrame: ImGui gives two buttons with the same label one identity. That is not modelled; each index clicks independently.

## Findings

| source | as written | input that shows it | evidently intended | confidence | as-written member | corrected member |
|---|---|---|---|---|---|---|
| main.cpp:92-93 | `load_file` parses settings lines with the constructor, which reads `strip[2]` with no length check, past the terminator when fewer than two characters remain | a `{}` settings line after a header and a slot line, as in the lines `[g]`, `0`, `{}` | read such a line as the default settings, as `settings_string` (main.cpp:204-218) does | high; not executed | TolerantLoad.ShortSettingsLineUndefined | TolerantLoad.ShortSettingsLineTolerated |
| main.cpp:92-93 | on a settings line that strips to two characters, the constructor reads the terminator as character 2 and sets `reversed`, while `settings_string` gives the default | the lines `[g]`, `0`, `{ 1; }` | read such a line as the default settings, as `settings_string` (main.cpp:204-218) does | medium; not executed | TolerantLoad.TwoCharSettingsLineRead | TolerantLoad.ShortSettingsLineTolerated |
| main.cpp:243-245 | `settings_num` is never bounded, so an eighth settings line writes `axes_settings[7]` | a saved block followed by one more `{ 0; 0 }` line | ignore settings lines past the seventh | high; not executed | TolerantLoad.EighthSettingsLineUndefined | TolerantLoad.EighthSettingsLineTolerated |
