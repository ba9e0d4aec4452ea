# pyRigPreset presets, dialogs and CAT dispatch in Dafny

pyRigPreset is a Tk desktop program that keeps three kinds of preset for an
amateur-radio transceiver in one INI-style store (`globals.config`):

- **CAT presets** (`CAT_PRESET<nnn>`): how to reach a rig over a serial port.
  The active one is copied into section `CAT`.
- **Configuration presets** (`CONFIG_PRESET<nnn>`): a name and ten CAT commands.
- **Memory presets** (`MEMORY_PRESET<nnn>`): a description, the VFO-A and VFO-B
  frequencies, split, the modes, the CTCSS setting and six commands.

Each kind has a store object, a widget that acts on a click, and a dialog
that edits it. The CAT dispatcher (`src/RigCat.py`) selects the rig backend
named in section `CAT` and configures its port. It sends text commands as
an opcode plus arguments and closes the connection afterwards.

This model has one module per source file:

| module | file | source |
|---|---|---|
| `PyText` | text.dfy | the Python string built-ins the code relies on |
| `PresetUtils` | utils.dfy | `to_int`, `to_float` and the constructors' `int(id)` coercion |
| `ConfigStore` | store.dfy | the store (a value `Contents` and the object `ConfigFile`) |
| `MemoryPresets` | memory_preset_store.dfy | MemoryPresetStore.py |
| `ConfigPresets` | config_preset_store.dfy | ConfigPresetStore.py |
| `CatPresets` | cat_preset_store.dfy | src/CatPresetStore.py |
| `RigCat` | rig_cat.dfy | src/RigCat.py |
| `Validators` | validators.dfy | the `_validate_float` and `_validate_text` keystroke validators |
| `FrequencyEntry` | frequency_entry.dfy | WidgetFrequencyEntry.py |
| `MemoryPresetWidget` | memory_preset_widget.dfy | src/WidgetMemoryPreset.py |
| `MemoryPresetDialog` | memory_preset_dialog.dfy | DlgMemoryPreset.py |
| `ConfigPresetWidget` | config_preset_widget.dfy | src/WidgetConfigPreset.py |
| `ConfigPresetDialog` | config_preset_dialog.dfy | src/DlgConfigPreset.py |
| `CatPresetWidget` | cat_preset_widget.dfy | WidgetCatPreset.py |
| `ConfigCatDialog` | config_cat_dialog.dfy | src/DlgConfigCat.py |

How the model is built:

- **Classes.** Every Python class whose methods update fields is a Dafny
  `class` with the same fields. Its methods carry `modifies` clauses.
- **Pure specifications.** Each class method is tied to a pure function of
  the old state. For a store these are `Hydrate` (what `init()` reads),
  `Persist`/`WriteEffect` (what `write_config()` writes) and `InitEffect`.
  For a dialog they are `Displayed` (what opening shows) and `OkRecord` /
  `OkEffect` (what OK stores). The round trips and frame properties are
  lemmas about these functions.
- **The rig.** The rig control object is a class with the bound backend's
  `NAME` and a trace of every backend call (`Instantiate`, `ConfigPort`,
  `InitRig`, `AsciiCmd`, `SetupSplit`, `Close`). The backend's answers are
  parameters.
- **Exceptions.** An exception is an `Outcome` (`Returned` or `Raised(e)`)
  or a `Result`.

The two validators are each written twice in the program. `_validate_float`
appears in DlgMemoryPreset.py and WidgetFrequencyEntry.py, and
`_validate_text` in DlgMemoryPreset.py and src/DlgConfigPreset.py. The two
copies of each are identical, so each is defined once. pyRigPresetUtils.py
and src/pyRigPresetUtils.py are identical as well.

## Model

| member | source | states |
|---|---|---|
| PyText.Strip | ConfigPresetStore.py:126 | `str.strip()` leaves no whitespace at either end and never lengthens the text; what it keeps is the inner slice of the text (StripKeepsInner) |
| PyText.StripLeftKeepsSuffix | ConfigPresetStore.py:126 | what the left half of `strip()` keeps is a suffix of the text, and everything it drops is whitespace |
| PyText.StripRightKeepsPrefix | ConfigPresetStore.py:126 | what the right half of `strip()` keeps is a prefix of the text, and everything it drops is whitespace |
| PyText.StripKeepsInner | ConfigPresetStore.py:126 | `strip()` returns the slice `s[i:j]` of the text, with only whitespace before i and after j: the inner text is kept as it is |
| PyText.StripTrimmed | ConfigPresetStore.py:126 | stripping a text with no surrounding whitespace leaves it unchanged |
| PyText.StripIdempotent | src/WidgetConfigPreset.py:152 | stripping an already stripped command changes nothing |
| PyText.StripAll | src/DlgConfigPreset.py:222-226 | each text of the list is stripped, in place and in order |
| PyText.StripAllTrimmed | ConfigPresetStore.py:124-127 | a list of already trimmed texts is left as it is |
| PyText.StripAllIdempotent | src/DlgConfigPreset.py:222-226 | stripping every command twice is stripping it once |
| PyText.UpperIdempotent | MemoryPresetStore.py:161-164 | upper-casing an upper-cased mode changes nothing |
| PyText.SplitOn | src/RigCat.py:133 | `split(' ')` gives at least one part, and no part contains the separator |
| PyText.JoinSplit | src/RigCat.py:133 | joining the parts of `split(' ')` with ' ' gives back the text |
| PyText.SplitFirstEmpty | src/RigCat.py:133 | the first part is empty exactly when the text is empty or starts with ' ' |
| PyText.SplitOnWithoutSep | src/RigCat.py:133-136 | a text without ' ' splits into itself alone |
| PyText.SplitOnAtSep | src/RigCat.py:133 | a ' ' between two texts cuts there: the parts of the first, then the parts of the second |
| PyText.ContainsChar | DlgMemoryPreset.py:581 | the substring test on one character is plain membership |
| PyText.ContainsEmpty | DlgMemoryPreset.py:581 | the empty insertion is a substring of ALLOWED_TEXT |
| PyText.IntToString | MemoryPresetStore.py:281 | `str(n)`: '-' and the digits of -n for a negative n, the digits of n otherwise; `int()` reads it back as n (ParseIntToString) |
| PyText.ParseInt | pyRigPresetUtils.py:132 | `int()` of a text: surrounding whitespace stripped, an optional sign, then one or more ASCII digits with single underscores allowed between them ("1_0" reads as 10), None otherwise; it undoes `str(n)` and `'{:03d}'` (ParseIntToString, ParseFormat03d) |
| PyText.NatToDigits | MemoryPresetStore.py:281 | `str(n)` of a natural number is a non-empty run of digits whose decimal value is n |
| PyText.IntToStringHasNoSpace | src/WidgetMemoryPreset.py:228-229 | `str(tone)` holds no whitespace |
| PyText.NoSpaceInIntText | WidgetFrequencyEntry.py:140 | `str(n)` is one non-empty word with no ' ' and no trailing whitespace |
| PyText.ParseIntToString | MemoryPresetStore.py:256 | `int(str(n)) == n` for every integer |
| PyText.Format03d | MemoryPresetStore.py:245 | `'{:03d}'.format(n)`: at least three digits, '-' and at least two for a negative n; injective and read back by `int()` (Format03dInjective, ParseFormat03d) |
| PyText.ZeroPad | MemoryPresetStore.py:245 | zero padding never shortens a text and reaches the width |
| PyText.ParseFormat03d | MemoryPresetStore.py:245 | `int('{:03d}'.format(n)) == n`, negative numbers included |
| PyText.Format03dInjective | ConfigPresetStore.py:148 | distinct numbers give distinct `'{:03d}'` texts, so `CMD001`..`CMD010` are distinct keys |
| PyText.NumberedNameInjective | src/CatPresetStore.py:173 | a fixed prefix plus a `'{:03d}'` number names distinct numbers apart |
| PresetUtils.Unsigned | pyRigPresetUtils.py:129-135 | the text after an optional sign is the text or its tail |
| PresetUtils.Int | pyRigPresetUtils.py:132 | Python `int(v)`: a text through `int()`'s text grammar (ValueError otherwise), an int as it is, a float truncated toward zero, TypeError for None |
| PresetUtils.ToInt | pyRigPresetUtils.py:129-135 | `to_int(val)`: `int(val)`, a ValueError turned into 0 and a TypeError passed on (ToIntAbsorbsValueError, ToIntOfNone, ToIntZero) |
| PresetUtils.CoerceId | MemoryPresetStore.py:92-97 | the constructors' `int(id)` under `except Exception`: `int(id)` or 0 on any failure (CoerceIdAgreesWithToInt) |
| PresetUtils.TextToInt | pyRigPresetUtils.py:129-135 | `to_int` of a text never raises |
| PresetUtils.ToIntAbsorbsValueError | pyRigPresetUtils.py:129-135 | `to_int` never raises ValueError: it agrees with `int()` when that succeeds and gives 0 on ValueError |
| PresetUtils.ToIntOfText | pyRigPresetUtils.py:129-135 | on a text `to_int` always returns, and gives 0 when `int()` rejects the text |
| PresetUtils.ToIntOfNone | pyRigPresetUtils.py:129-135 | only ValueError is caught: the TypeError of `int(None)` propagates |
| PresetUtils.ToIntOfIntText | pyRigPresetUtils.py:129-135 | `to_int(str(n)) == n`, and the constructors' coercion of `str(n)` is n |
| PresetUtils.ToIntIdempotent | pyRigPresetUtils.py:129-135 | applying `to_int` to its own result, or to that result's text, gives the same value |
| PresetUtils.ToIntZero | pyRigPresetUtils.py:129-135 | `to_int` gives 0 only for a zero or for a ValueError |
| PresetUtils.CoerceIdAgreesWithToInt | MemoryPresetStore.py:92-97 | `except Exception` in the constructors agrees with `to_int` where that returns, and gives 0 for None and for every failure |
| PresetUtils.IsFloatText | pyRigPresetUtils.py:141 | the texts `float()` reads here: an optional sign, digits and at most one '.', with a digit somewhere (narrower than Python's grammar, see Left out) |
| PresetUtils.ToFloat | pyRigPresetUtils.py:138-144 | `to_float(val)` of a text: the stripped text when `float()` reads it, 0.0 when it raises ValueError; a stored float text reads back unchanged (ToFloatOfFloatText) |
| PresetUtils.FloatTextTrimmed | pyRigPresetUtils.py:138-144 | a float's text has no surrounding whitespace |
| PresetUtils.ToFloatOfFloatText | pyRigPresetUtils.py:138-144 | `to_float(str(f)) == f`: a frequency written to the store reads back unchanged |
| ConfigStore.KeyTextInjective | MemoryPresetStore.py:251-262 | distinct keys are distinct key texts in the file, `COMMAND<n>` and `CMD<nnn>` included, so a key is identified by its constructor |
| ConfigStore.ConfigFile.constructor | globals.py:82-83 | a store starts with the file's texts and no flush |
| ConfigStore.ConfigFile.AddSection | MemoryPresetStore.py:246-247 | the section exists afterwards and nothing is flushed |
| ConfigStore.ConfigFile.Set | MemoryPresetStore.py:271 | exactly one key of one section takes the value, and nothing is flushed |
| ConfigStore.ConfigFile.Write | MemoryPresetStore.py:289 | the file holds exactly the current texts, and the flush count grows by one |
| MemoryPresets.Encode | MemoryPresetStore.py:271-287 | the texts `write_config` stores: the split flag as ON/OFF, the tone as its decimal text, every other field as it is; undone by Decode (DecodeEncode) |
| MemoryPresets.Decode | MemoryPresetStore.py:249-262 | the fields `init` reads from the texts: the frequencies through `to_float`, split as `== 'ON'`, the tone through `to_int` |
| MemoryPresets.Hydrate | MemoryPresetStore.py:242-262 | what `init` reads for an id: Decode of the texts of section `MEMORY_PRESET<id:03d>`; it undoes Persist (PersistThenHydrate) |
| MemoryPresets.Persist | MemoryPresetStore.py:265-287 | the store after `write_config` for an id, before the flush: the section added and the fifteen keys set to Encode of the preset; it touches no other section (PersistFrame, PersistKeepsOtherPresets) |
| MemoryPresets.DecodeEncode | MemoryPresetStore.py:249-287 | reading back the texts `write_config` stores gives every field: split through ON/OFF, tone through its decimal text, frequencies through their float text |
| MemoryPresets.ReadWriteTexts | MemoryPresetStore.py:249-287 | reading a section gives exactly the texts just written to it, whatever it held before |
| MemoryPresets.PersistThenHydrate | MemoryPresetStore.py:242-289 | `write_config` then `init` reproduces every field of the preset |
| MemoryPresets.PersistFrame | MemoryPresetStore.py:265-289 | `write_config` adds only its own section and changes no key of any other section |
| MemoryPresets.PersistKeepsOtherPresets | MemoryPresetStore.py:265-289 | writing one memory preset leaves what every other one reads back unchanged |
| MemoryPresets.HydrateKeepsUnvalidatedText | MemoryPresetStore.py:253-255 | `init` does not re-validate: stored modes and CTCSS texts are read back as they are, even ones the setters refuse |
| MemoryPresets.HydrateEmpty | MemoryPresetStore.py:249-262 | an absent section reads back as empty texts, split off, 0.0 MHz, tone 0 and empty modes |
| MemoryPresets.StoreTexts | MemoryPresetStore.py:271-287 | the fifteen `set` calls leave the store equal to the pure write of the encoded texts, with no flush |
| MemoryPresets.MemoryPresetStore.constructor | MemoryPresetStore.py:79-115 | the id is coerced (0 on any exception), the defaults are set, then `init()` runs: a positive id reads its section and creates it if absent, any other id keeps the defaults |
| MemoryPresets.MemoryPresetStore.SetId | MemoryPresetStore.py:121-122 | the id becomes `to_int(val)`; a TypeError propagates and keeps the old id; nothing else changes |
| MemoryPresets.MemoryPresetStore.SetPresetDesc | MemoryPresetStore.py:129-130 | only the description changes |
| MemoryPresets.MemoryPresetStore.SetVfoaFreqMhz | MemoryPresetStore.py:137-138 | only VFO-A changes, to `to_float(val)` |
| MemoryPresets.MemoryPresetStore.SetVfobFreqMhz | MemoryPresetStore.py:145-146 | only VFO-B changes, to `to_float(val)` |
| MemoryPresets.MemoryPresetStore.SetSplit | MemoryPresetStore.py:153-154 | only the split flag changes |
| MemoryPresets.MemoryPresetStore.SetModea | MemoryPresetStore.py:161-164 | the upper-cased mode is kept only when it is a valid mode; otherwise nothing changes |
| MemoryPresets.MemoryPresetStore.SetModeb | MemoryPresetStore.py:171-174 | the upper-cased mode is kept only when it is a valid mode; otherwise nothing changes |
| MemoryPresets.MemoryPresetStore.SetCtcssConfig | MemoryPresetStore.py:181-183 | the value is kept only when it is one of OFF, ENC, DEC (case-sensitive) |
| MemoryPresets.MemoryPresetStore.SetCtcssTone | MemoryPresetStore.py:190-191 | the tone becomes `to_int(val)`; a TypeError propagates and keeps the old tone |
| MemoryPresets.MemoryPresetStore.SetCommand | MemoryPresetStore.py:198-239 | `set_command<n>` stores the stripped text at position n and changes nothing else |
| MemoryPresets.MemoryPresetStore.Load | MemoryPresetStore.py:249-262 | every field but the id takes the record's value |
| MemoryPresets.MemoryPresetStore.Init | MemoryPresetStore.py:242-262 | for a positive id the section is created if absent and every field is read from it; otherwise nothing changes |
| MemoryPresets.MemoryPresetStore.WriteConfig | MemoryPresetStore.py:265-289 | for a positive id every key is written, then one flush; otherwise the store is untouched |
| ConfigPresets.WithCmd | ConfigPresetStore.py:124-127 | `set_config_cmd` keeps the list length |
| ConfigPresets.WriteCmds | ConfigPresetStore.py:147-148 | the loop of `write_config`: key `CMD<i+1:03d>` set to command i for each of the first n commands (WriteCmdsLookup, WriteCmdsSections) |
| ConfigPresets.Hydrate | ConfigPresetStore.py:129-139 | what `init` reads for an id: PRESET_NAME and `CMD001`..`CMD010` of section `CONFIG_PRESET<id:03d>`; it undoes Persist (PersistThenHydrate) |
| ConfigPresets.Persist | ConfigPresetStore.py:141-149 | the store after `write_config`, before the flush: the section added, PRESET_NAME and the ten commands set; no other section changes (PersistFrame, PersistKeepsOtherPresets) |
| ConfigPresets.ReadCmds | ConfigPresetStore.py:137-138 | `init` reads command i from key `CMD<i+1:03d>`, for every i |
| ConfigPresets.CmdAtWithCmd | ConfigPresetStore.py:117-127 | `get_config_cmd` after `set_config_cmd` gives the stripped text at that index, and other indices are unchanged |
| ConfigPresets.OutOfRangeCmd | ConfigPresetStore.py:117-127 | an index outside 0..9 is ignored by the setter and reads as "" |
| ConfigPresets.WithCmdIdempotent | ConfigPresetStore.py:124-127 | setting the same command twice is setting it once |
| ConfigPresets.WriteCmdsLookup | ConfigPresetStore.py:147-148 | the write loop sets exactly `CMD001`..`CMD<n:03d>` of its section |
| ConfigPresets.WriteCmdsSections | ConfigPresetStore.py:147-148 | the write loop creates no section |
| ConfigPresets.PersistThenHydrate | ConfigPresetStore.py:129-149 | `write_config` then `init` reproduces the name and all ten commands |
| ConfigPresets.PersistFrame | ConfigPresetStore.py:141-149 | `write_config` adds only its own section and changes no key of any other section |
| ConfigPresets.PersistKeepsOtherPresets | ConfigPresetStore.py:141-149 | writing one configuration preset leaves every other one reading back unchanged |
| ConfigPresets.HydrateEmpty | ConfigPresetStore.py:129-139 | an absent section reads back as an empty name and ten empty commands |
| ConfigPresets.ConfigPresetStore.constructor | ConfigPresetStore.py:75-99 | the id is coerced (0 on any exception), the defaults are set, then `init()` runs |
| ConfigPresets.ConfigPresetStore.SetId | ConfigPresetStore.py:105-106 | the id becomes `to_int(val)`; a TypeError propagates and keeps the old id |
| ConfigPresets.ConfigPresetStore.SetPresetName | ConfigPresetStore.py:113-114 | only the name changes |
| ConfigPresets.ConfigPresetStore.SetConfigCmd | ConfigPresetStore.py:124-127 | the stripped text is stored at an index in range; an index out of range changes nothing |
| ConfigPresets.ConfigPresetStore.Init | ConfigPresetStore.py:129-139 | for a positive id the section is created if absent and the name and ten commands are read; otherwise nothing changes |
| ConfigPresets.ConfigPresetStore.WriteConfig | ConfigPresetStore.py:141-149 | for a positive id the name and ten commands are written, then one flush; otherwise the store is untouched |
| CatPresets.Hydrate | src/CatPresetStore.py:170-185 | what `init` reads for an id: the seven keys of section `CAT_PRESET<id:03d>`; it undoes Persist (PersistThenHydrate) |
| CatPresets.Persist | src/CatPresetStore.py:187-199 | the store after `write_config`, before the flush: the section added and its seven keys set (PersistFrame, PersistKeepsOtherPresets) |
| CatPresets.PersistThenHydrate | src/CatPresetStore.py:170-199 | `write_config` then `init` reproduces all seven fields |
| CatPresets.PersistFrame | src/CatPresetStore.py:187-199 | `write_config` adds only its own section and sets exactly its seven keys; every other key reads as before |
| CatPresets.PersistKeepsOtherPresets | src/CatPresetStore.py:187-199 | writing one CAT preset leaves every other one reading back unchanged |
| CatPresets.PersistLeavesDialogName | src/CatPresetStore.py:193 | the store writes `PRESET_NAME` and leaves the `NAME` that the dialog and the buttons read |
| CatPresets.HydrateEmpty | src/CatPresetStore.py:170-185 | an absent section reads back as the constructor's seven empty texts |
| CatPresets.CatPresetStore.constructor | src/CatPresetStore.py:75-104 | the id is coerced (0 on any exception), seven empty texts are set, then `init()` runs |
| CatPresets.CatPresetStore.SetId | src/CatPresetStore.py:110-111 | the id becomes `to_int(val)`; a TypeError propagates and keeps the old id |
| CatPresets.CatPresetStore.SetPresetName | src/CatPresetStore.py:118-119 | only the name changes, with no validation |
| CatPresets.CatPresetStore.SetRig | src/CatPresetStore.py:126-127 | only the rig changes, with no validation |
| CatPresets.CatPresetStore.SetPort | src/CatPresetStore.py:134-135 | only the port changes, with no validation |
| CatPresets.CatPresetStore.SetBaud | src/CatPresetStore.py:142-143 | only the baud rate changes, with no validation |
| CatPresets.CatPresetStore.SetData | src/CatPresetStore.py:150-151 | only the data bits change, with no validation |
| CatPresets.CatPresetStore.SetParity | src/CatPresetStore.py:158-159 | only the parity changes, with no validation |
| CatPresets.CatPresetStore.SetStop | src/CatPresetStore.py:166-167 | only the stop bits change, with no validation |
| CatPresets.CatPresetStore.Init | src/CatPresetStore.py:170-185 | for a positive id the section is created if absent and all seven keys are read; otherwise nothing changes |
| CatPresets.CatPresetStore.WriteConfig | src/CatPresetStore.py:187-201 | for a positive id the seven keys are written, then one flush; otherwise the store is untouched |
| RigCat.SelectRig | src/RigCat.py:74-93 | the rig `init_rig_cat` selects: the upper-cased RIG text when it is FT-817, FT-991 or IC-7000, none otherwise (SupportedRig, SelectRigIgnoresCase) |
| RigCat.DatasizeOf | src/RigCat.py:97-103 | the data bits: FIVE, SIX or SEVEN for '5', '6' or '7', EIGHT for every other text (SettingsFromText, SettingsDefaults) |
| RigCat.ParityOf | src/RigCat.py:98-106 | the parity: EVEN or ODD for 'EVEN' or 'ODD', NONE for every other text |
| RigCat.StopbitsOf | src/RigCat.py:99-109 | the stop bits: ONE_POINT_FIVE or TWO for '1.5' or '2', ONE for every other text |
| RigCat.SupportedRig | src/RigCat.py:82-93 | a name is supported exactly when it is FT-817, FT-991 or IC-7000, and then it selects itself |
| RigCat.SettingsFromText | src/RigCat.py:97-109 | every data size, parity and stop-bit setting is reached from its own text |
| RigCat.SettingsDefaults | src/RigCat.py:97-109 | only '5', '6' and '7' give a data size other than eight, only EVEN and ODD a parity other than none, only '1.5' and '2' a stop setting other than one |
| RigCat.SelectRigIgnoresCase | src/RigCat.py:74 | the rig name is matched after `upper()`, so a name and its upper-cased form select the same rig |
| RigCat.InitPlan | src/RigCat.py:68-125 | the backend calls `init_rig_cat` makes and how it ends: none and False for an unsupported rig; otherwise an instantiation on a NAME change, then ValueError for a bad baud, or `config_port` with the settings and `init_rig` only when that succeeds (InitRigIffPortOk, BadBaudRaises) |
| RigCat.PortCalls | src/RigCat.py:96-125 | after the selection no call re-instantiates the backend |
| RigCat.UnsupportedRigTouchesNothing | src/RigCat.py:91-93 | an unsupported rig returns False before the object or the port is touched |
| RigCat.ReplacedOnlyOnNameChange | src/RigCat.py:82-90 | the object is replaced exactly when the bound NAME differs from the selected rig, and then first; afterwards the selected rig is bound |
| RigCat.FirstSelectionInstantiates | src/RigCat.py:82-90 | the first selection after start-up always instantiates the backend |
| RigCat.InitRigIffPortOk | src/RigCat.py:112-125 | `init_rig` is called exactly when the rig is supported, `int(baud)` succeeds and `config_port` succeeds, and the result is True exactly then |
| RigCat.BadBaudRaises | src/RigCat.py:96 | a baud text `int()` rejects raises ValueError, with no port call |
| RigCat.AsciiCall | src/RigCat.py:128-137 | the one `ascii_cmd` call `send_rig_cat_cmd` makes: the first part of the stripped command split on ' ' as opcode, the rest as arguments, '' when there is none (CommandTokensRejoin) |
| RigCat.CommandTokens | src/RigCat.py:133-136 | `ascii_cmd` always receives at least one argument |
| RigCat.CommandTokensRejoin | src/RigCat.py:133-136 | the opcode and the arguments, joined with ' ', give back the stripped command |
| RigCat.SingleTokenCommand | src/RigCat.py:133-136 | a command without a space is sent as its stripped opcode with the one argument '' |
| RigCat.OpcodeEmptyIffBlank | src/RigCat.py:133-137 | the opcode is empty exactly when the command is blank, and a blank command is still sent as `ascii_cmd('', [''])` |
| RigCat.AsciiCallOfStripped | src/RigCat.py:133 | stripping a command before sending changes nothing, since `send_rig_cat_cmd` strips again |
| RigCat.TwoWordCommand | src/RigCat.py:133-137 | 'OP ARG' is sent as opcode OP with the one argument ARG |
| RigCat.ThreeWordCommand | src/RigCat.py:133-137 | 'OP A B' is sent as opcode OP with arguments A and B |
| RigCat.RigControl.constructor | globals.py:64 | start-up binds the base object, which supports no rig, and makes no call |
| RigCat.RigControl.InitRigCat | src/RigCat.py:68-125 | `init_rig_cat` makes exactly the calls `InitPlan` lists and returns or raises its result |
| RigCat.RigControl.Bind | src/RigCat.py:82-93 | the selection succeeds exactly for a supported rig, and re-instantiates only on a change of NAME |
| RigCat.RigControl.ConfigurePort | src/RigCat.py:96-125 | `int(baud)`, the mapped settings, `config_port`, then `init_rig` when that succeeds; the result is `config_port`'s answer or the ValueError |
| RigCat.RigControl.SendRigCatCmd | src/RigCat.py:128-142 | one `ascii_cmd` call with the split command, and its response returned |
| RigCat.RigControl.SetupSplitCall | src/RigCat.py:145-150 | one `setup_split` call with the five arguments, and its response returned |
| RigCat.RigControl.CloseRigCat | src/RigCat.py:153-159 | one `close()` call on the bound object |
| Validators.PyPrefix | DlgMemoryPreset.py:553 | `all[:idx]` is a prefix of `all`, with Python's clamping and negative indices |
| Validators.ValidateFloat | WidgetFrequencyEntry.py:167-174 | `_validate_float` as written: `int(where)`'s ValueError first, then True for a non-insertion, False past ten characters, True for digits, and for '.' True only when no '.' comes before the index (FloatInsertionAccepted, SecondDotAccepted) |
| Validators.ValidateText | DlgMemoryPreset.py:579-582 | `_validate_text` as written: a non-insertion is accepted, an insertion when its upper-cased text is a substring of ALLOWED_TEXT (TextCharAccepted, TwoSpacesRefused) |
| Validators.NonInsertionAccepted | DlgMemoryPreset.py:549 | every action other than an insertion is accepted by both validators |
| Validators.BadIndexRaises | DlgMemoryPreset.py:548 | `int(where)` comes first, so an index it rejects raises ValueError even for a deletion |
| Validators.FloatInsertionAccepted | DlgMemoryPreset.py:548-555 | an insertion is accepted exactly when the text stays within ten characters and the insertion is numeric, or is '.' with no '.' before the index |
| Validators.TextCharAccepted | DlgMemoryPreset.py:580-582 | one typed character is accepted exactly when its upper-case form is in ALLOWED_TEXT |
| Validators.ValidateTextIntended | DlgMemoryPreset.py:580-581 | the corrected text validator: every upper-cased character of the insertion is in ALLOWED_TEXT |
| Validators.ValidateTextStricter | src/DlgConfigPreset.py:263-265 | whatever the substring test accepts, the per-character test accepts too |
| Validators.ValidateTextAgreesOnKeystrokes | src/DlgConfigPreset.py:263-265 | on one typed character the substring test and the per-character test agree |
| Validators.TwoSpacesRefused | DlgMemoryPreset.py:581 | inserting two spaces at once is refused, though each is allowed |
| Validators.ValidateFloatIntended | WidgetFrequencyEntry.py:171-173 | the corrected float validator: a '.' is accepted only when the resulting text holds at most one '.' |
| Validators.IntendedFloatOneDot | WidgetFrequencyEntry.py:171-173 | the corrected validator accepts a '.' only when the text then holds one '.' at most |
| Validators.ValidateFloatIntendedStricter | WidgetFrequencyEntry.py:167-174 | for Tk-consistent arguments the corrected validator refuses whatever the written one refuses, and differs from it only on '.' |
| Validators.SecondDotAccepted | WidgetFrequencyEntry.py:171-173 | typing '.' at index 0 of "1.5" is accepted and leaves two dots |
| FrequencyEntry.FreqCommand | WidgetFrequencyEntry.py:139 | the frequency command is never empty |
| FrequencyEntry.FreqCommandCall | WidgetFrequencyEntry.py:139-140 | 'FREQA <hz>' reaches `ascii_cmd` as opcode FREQA with the Hz value as its one argument |
| FrequencyEntry.WidgetFrequencyEntry.constructor | WidgetFrequencyEntry.py:75-100 | the entry starts empty |
| FrequencyEntry.WidgetFrequencyEntry.Keystroke | WidgetFrequencyEntry.py:167-174 | the edit is applied exactly when `_validate_float` as written returns True, so '.' typed in front of "1.5" gets in; its ValueError is passed on and the text kept |
| FrequencyEntry.WidgetFrequencyEntry.SetFrequency | WidgetFrequencyEntry.py:131-142 | an empty entry does nothing, `float()` may raise before any call, and otherwise the rig is initialised, one FREQA command is sent if that returned True, and the rig is closed; the ValueError of `init_rig_cat` escapes before the close |
| MemoryPresetWidget.ToneCommand | src/WidgetMemoryPreset.py:225-229 | the tone command is never empty |
| MemoryPresetWidget.FreqLabel | src/WidgetMemoryPreset.py:122-132 | the frequency label: empty for a preset without description, else VFO-A, with '/VFO-B' when split (FreqLabelEmptyIff, FreqLabelSlash) |
| MemoryPresetWidget.FreqLabelEmptyIff | src/WidgetMemoryPreset.py:127-131 | the frequency label is empty exactly when the description is |
| MemoryPresetWidget.FreqLabelSlash | src/WidgetMemoryPreset.py:128-131 | the '/VFO-B' part appears exactly when the preset is described and split |
| MemoryPresetWidget.ToneCommandCall | src/WidgetMemoryPreset.py:225-230 | the tone command reaches `ascii_cmd` as opcode TONE with the configuration, and the tone as a second argument unless the configuration is OFF |
| MemoryPresetWidget.UnconfiguredToneCommand | src/WidgetMemoryPreset.py:225-230 | an empty CTCSS configuration sends 'TONE  <tone>', with an empty first argument |
| MemoryPresetWidget.MemorySends | src/WidgetMemoryPreset.py:194-238 | the sends of the six commands: each command in order, unstripped, skipped only when it is empty (MemorySendsCount, BlankCommandSent) |
| MemoryPresetWidget.MemorySendsCount | src/WidgetMemoryPreset.py:233-238 | at most one send per command, and one per command exactly when no command is empty |
| MemoryPresetWidget.BlankCommandSent | src/WidgetMemoryPreset.py:194-198 | `_send_cat_cmd` does not strip, so a command of blanks is still sent, as `ascii_cmd('', [''])` |
| MemoryPresetWidget.WidgetMemoryPreset.constructor | src/WidgetMemoryPreset.py:82-115 | the id is coerced, the store object reads its preset, and the labels show its description and frequencies |
| MemoryPresetWidget.WidgetMemoryPreset.UpdateWidget | src/WidgetMemoryPreset.py:118-132 | the description label shows the description, and the frequency label VFO-A plus '/VFO-B' when split, or nothing without a description |
| MemoryPresetWidget.WidgetMemoryPreset.OnLeftClick | src/WidgetMemoryPreset.py:205-240 | after `init_rig_cat` returns True: one `setup_split`, the tone command, then commands 1 to 6 (each only if not empty), then the close; the ValueError escapes before the close |
| MemoryPresetWidget.WidgetMemoryPreset.SendCatCmd | src/WidgetMemoryPreset.py:194-202 | one unstripped send unless the command is empty |
| MemoryPresetWidget.WidgetMemoryPreset.SendActionCommands | src/WidgetMemoryPreset.py:225-238 | the seven `_send_cat_cmd` calls in order |
| MemoryPresetDialog.WithSplit | DlgMemoryPreset.py:510-523 | after the split handler VFO-B shows zero whenever split is OFF |
| MemoryPresetDialog.Displayed | DlgMemoryPreset.py:415-443 | the texts opening shows for a record: the frequencies formatted, an empty CTCSS config as OFF, the split text through the split handler (DisplayedSplit, OpenThenOk) |
| MemoryPresetDialog.OkRecord | DlgMemoryPreset.py:460-489 | the record OK stores: the setters applied to the shown texts, the tone `int()` of the scaled float, the commands stripped (OpenThenOk, ClearThenOk) |
| MemoryPresetDialog.Cleared | DlgMemoryPreset.py:492-507 | the texts after Clear: no description, 0.000000 MHz, split and CTCSS OFF, tone 0.0, no commands, the modes kept (ClearThenOk) |
| MemoryPresetDialog.DisplayedSplit | DlgMemoryPreset.py:420-425 | opening shows ON or OFF, and a preset that is not split shows VFO-B at zero |
| MemoryPresetDialog.SplitRoundTrip | DlgMemoryPreset.py:423-425 | the split flag survives opening and OK |
| MemoryPresetDialog.ZeroMhzReadsBack | DlgMemoryPreset.py:497-498 | '0.000000' is a float text that `to_float` reads back unchanged |
| MemoryPresetDialog.OpenThenOk | DlgMemoryPreset.py:414-487 | opening and OK keep the description and split, re-read both frequencies from their texts, zero VFO-B when not split, turn an empty CTCSS into OFF, upper-case valid modes and strip the commands |
| MemoryPresetDialog.ClearThenOk | DlgMemoryPreset.py:492-507 | Clear then OK stores no description, zero frequencies and tone (the tone text '0.0' read as 0.0), split and CTCSS OFF and no commands, and the clearing keeps the modes |
| MemoryPresetDialog.DlgMemoryPreset.constructor | DlgMemoryPreset.py:96-138 | the store object re-reads its preset, and the texts show what `Displayed` gives for it |
| MemoryPresetDialog.DlgMemoryPreset.SetSplitText | DlgMemoryPreset.py:510-523 | setting the split text runs the handler, which zeroes VFO-B when the text is OFF |
| MemoryPresetDialog.DlgMemoryPreset.DlgInit | DlgMemoryPreset.py:414-443 | `config.init()`, then every text from the store object |
| MemoryPresetDialog.DlgMemoryPreset.ShowRecord | DlgMemoryPreset.py:415-443 | the texts become `Displayed` of the store object's record |
| MemoryPresetDialog.DlgMemoryPreset.ShowTexts | DlgMemoryPreset.py:415-443 | the setters in order, the split one running its handler |
| MemoryPresetDialog.DlgMemoryPreset.Edit | DlgMemoryPreset.py:126 | editing the texts, split last, leaves them as given, with VFO-B zeroed by the handler when split is OFF |
| MemoryPresetDialog.DlgMemoryPreset.Clear | DlgMemoryPreset.py:492-507 | the shown texts become `Cleared` of the old ones: every text but the modes goes back to its empty or zero value; the store object and the store are not touched |
| MemoryPresetDialog.DlgMemoryPreset.Ok | DlgMemoryPreset.py:460-489 | the setters run in the handler's order; when `float()` of the tone raises, the setters before it have run and nothing is written; otherwise the record is `OkRecord` and the section is written and flushed |
| MemoryPresetDialog.DlgMemoryPreset.ApplyTexts | DlgMemoryPreset.py:464-475 | the setters up to `set_split` give `OkBeforeTone` |
| MemoryPresetDialog.DlgMemoryPreset.FinishOk | DlgMemoryPreset.py:477-487 | `set_ctcss_tone(int(scaled))`, the six command setters, then `write_config()` |
| MemoryPresetDialog.DlgMemoryPreset.ApplyCommands | DlgMemoryPreset.py:480-485 | `set_command1` to `set_command6` store the six stripped texts |
| ConfigPresetWidget.ButtonName | src/WidgetConfigPreset.py:133-141 | the button text is never empty, and is the stored name when there is one |
| ConfigPresetWidget.ButtonNameIdempotent | src/WidgetConfigPreset.py:137-140 | once the default name is set it is kept |
| ConfigPresetWidget.ConfigSends | src/WidgetConfigPreset.py:151-154 | the sends of the ten commands: each stripped, in order, skipped when blank (ConfigSendsAppend, ConfigSendsEmpty, ConfigSendsOne) |
| ConfigPresetWidget.ConfigSendsAppend | src/WidgetConfigPreset.py:151-154 | the sends for two runs of commands are the sends of the first, then of the second |
| ConfigPresetWidget.ConfigSendsEmpty | src/WidgetConfigPreset.py:151-154 | no call is made exactly when every command is blank |
| ConfigPresetWidget.ConfigSendsOpcodes | src/WidgetConfigPreset.py:152-154 | every call made sends a non-empty opcode |
| ConfigPresetWidget.ConfigSendsOne | src/WidgetConfigPreset.py:152-154 | one command is sent, stripped, exactly when it is not blank |
| ConfigPresetWidget.WidgetConfigPreset.constructor | src/WidgetConfigPreset.py:79-111 | the id is coerced, the store object reads its preset, and an empty name becomes 'C<id>' on the object and the button |
| ConfigPresetWidget.WidgetConfigPreset.SetName | src/WidgetConfigPreset.py:133-141 | an empty name becomes 'C<id>' on the store object only, and the button shows the name |
| ConfigPresetWidget.WidgetConfigPreset.OnLeftClick | src/WidgetConfigPreset.py:144-155 | after `init_rig_cat` returns True every non-blank command is sent stripped, in index order, then the rig is closed; the ValueError escapes before the close |
| ConfigPresetWidget.WidgetConfigPreset.SendCommands | src/WidgetConfigPreset.py:151-154 | the loop makes exactly the sends `ConfigSends` lists |
| ConfigPresetWidget.WidgetConfigPreset.SendStripped | src/WidgetConfigPreset.py:152-154 | strip the command, and send it unless that leaves it empty |
| ConfigPresetDialog.OpenThenOk | src/DlgConfigPreset.py:198-227 | OK right after opening only strips the commands, and changes nothing when they are already stripped |
| ConfigPresetDialog.OkIdempotent | src/DlgConfigPreset.py:218-229 | OK twice stores what OK once stores |
| ConfigPresetDialog.DefaultNamePersists | src/DlgConfigPreset.py:198 | because the dialog does not call `init()`, the 'C<id>' name from the button is shown and written, so the next start reads it back |
| ConfigPresetDialog.ClearThenOk | src/DlgConfigPreset.py:232-238 | Clear then OK stores an empty name and ten empty commands, and the button is named 'C<id>' again at the next start |
| ConfigPresetDialog.DlgConfigPreset.constructor | src/DlgConfigPreset.py:82-111 | the texts show the store object's name and commands as they are, without re-reading the store |
| ConfigPresetDialog.DlgConfigPreset.Clear | src/DlgConfigPreset.py:232-238 | an empty name and ten empty commands |
| ConfigPresetDialog.DlgConfigPreset.Ok | src/DlgConfigPreset.py:218-229 | the store object gets the shown name and stripped commands, and its section is written and flushed |
| ConfigPresetDialog.DlgConfigPreset.SetCommands | src/DlgConfigPreset.py:223-225 | `set_config_cmd` for each index stores every text stripped |
| CatPresetWidget.LabelText | WidgetCatPreset.py:143-154 | a button label is never empty |
| CatPresetWidget.Labels | WidgetCatPreset.py:121-125 | there is one label per CAT preset |
| CatPresetWidget.PresetSectionIsNotCat | WidgetCatPreset.py:164-176 | a preset's section is never section CAT |
| CatPresetWidget.SelectEffect | WidgetCatPreset.py:157-187 | the store after a click, before the flush: both sections created, CAT/PRESET the preset number and the six settings copied into CAT (SelectCopiesSettings, SelectFrame) |
| CatPresetWidget.InitialSelection | WidgetCatPreset.py:137-140 | the button selected at start: `int()` of CAT/PRESET, 0 when it is empty, ValueError when `int()` rejects it (SelectThenRestart, BadSelectionRaises) |
| CatPresetWidget.SelectSections | WidgetCatPreset.py:164-178 | a click creates the preset's section and section CAT, and no other |
| CatPresetWidget.SelectCopiesSettings | WidgetCatPreset.py:166-186 | a click sets CAT/PRESET to the preset number and copies the six settings into CAT unchanged |
| CatPresetWidget.SelectFrame | WidgetCatPreset.py:157-187 | a click changes no other key, and the preset's own section reads as before |
| CatPresetWidget.SelectUnconfigured | WidgetCatPreset.py:166-186 | selecting a preset whose section is absent writes empty settings into CAT |
| CatPresetWidget.SelectKeepsAbsentEmpty | WidgetCatPreset.py:157-187 | a click keeps every absent section reading empty |
| CatPresetWidget.SelectThenRestart | WidgetCatPreset.py:138-140 | after a click, the next start of the widget selects the same button |
| CatPresetWidget.BadSelectionRaises | WidgetCatPreset.py:139 | a CAT/PRESET text `int()` rejects makes the widget's start raise ValueError |
| CatPresetWidget.SelectThenInitUnsupported | WidgetCatPreset.py:166-186 | after a click on a preset with an unsupported rig, `init_rig_cat` touches nothing |
| CatPresetWidget.SelectThenInitConfigures | WidgetCatPreset.py:166-186 | after a click on a preset with a supported rig and a valid baud rate, the port is configured with that preset's settings |
| CatPresetWidget.LabelAfterDialog | WidgetCatPreset.py:190-198 | after the dialog the label shows the confirmed name, or 'Rig <pnum>' when it was left empty |
| CatPresetWidget.LabelIgnoresStoreWrite | WidgetCatPreset.py:149-151 | a CatPresetStore `write_config()` does not rename a button: the label reads NAME, the store writes PRESET_NAME |
| CatPresetWidget.WidgetCatPreset.constructor | WidgetCatPreset.py:103-109 | four empty labels and selection 0 before `_widget_init` |
| CatPresetWidget.WidgetCatPreset.SetLabel | WidgetCatPreset.py:143-154 | only label pnum changes, to the stored NAME or 'Rig <pnum>' |
| CatPresetWidget.WidgetCatPreset.WidgetInit | WidgetCatPreset.py:117-140 | every button is labelled, then `int(CAT/PRESET)` (0 when empty) is selected; a ValueError keeps the old selection |
| CatPresetWidget.WidgetCatPreset.OnLeftClick | WidgetCatPreset.py:157-187 | clicking button k (1 to 4) sets the selection to k, as the Radiobutton built at WidgetCatPreset.py:124-129 does, the store becomes `SelectEffect` of preset k, and it is flushed once; the labels are kept |
| ConfigCatDialog.OrDefault | src/DlgConfigCat.py:182-206 | a stored value is shown as it is, and an empty one as its default |
| ConfigCatDialog.Displayed | src/DlgConfigCat.py:163-206 | what opening shows for a preset: each stored value, or its default when empty, BAUD shown as it is (DisplayedEmpty, OkThenReopen) |
| ConfigCatDialog.OkEffect | src/DlgConfigCat.py:307-324 | the store after OK, before the flush: the section created and NAME, RIG, PORT, BAUD, DATA, PARITY and STOP set to the shown values (OkFrame, OkThenReopen) |
| ConfigCatDialog.DisplayedNonEmpty | src/DlgConfigCat.py:182-206 | every shown value except the baud rate is non-empty |
| ConfigCatDialog.DisplayedEmpty | src/DlgConfigCat.py:182-206 | an unconfigured preset shows 'Rig <id>', NONE, NONE, an empty baud rate, 8, NONE and 1 |
| ConfigCatDialog.OkFrame | src/DlgConfigCat.py:307-322 | OK creates the section and sets exactly the seven keys; nothing else changes |
| ConfigCatDialog.OkThenReopen | src/DlgConfigCat.py:182-206 | reopening after OK shows what was confirmed, with the defaults in place of empty values |
| ConfigCatDialog.ReopenStable | src/DlgConfigCat.py:182-206 | opening, OK with no edit and reopening show the same values |
| ConfigCatDialog.OkLeavesStoreName | src/DlgConfigCat.py:313 | OK writes NAME and leaves the PRESET_NAME that CatPresetStore reads |
| ConfigCatDialog.RigMenuSelection | src/DlgConfigCat.py:61-66 | NONE is the one rig entry `init_rig_cat` refuses, and every other entry selects itself |
| ConfigCatDialog.SerialMenusRoundTrip | src/DlgConfigCat.py:81-100 | each data, parity and stop entry is read by `init_rig_cat` as the setting it names, and every setting is offered |
| ConfigCatDialog.BaudMenuParses | src/DlgConfigCat.py:69-78 | every baud entry is a decimal that `int()` reads without raising |
| ConfigCatDialog.DigitTextParses | src/DlgConfigCat.py:69-78 | a non-empty run of digits reads back through `int()` as its decimal value |
| ConfigCatDialog.EmptyBaudRaises | src/DlgConfigCat.py:194 | BAUD has no default, so a preset whose baud rate was never chosen makes `int()` raise once it is selected |
| ConfigCatDialog.DlgConfigCat.constructor | src/DlgConfigCat.py:130-206 | the section for the id, and the values `Displayed` gives; the store is only read |
| ConfigCatDialog.DlgConfigCat.Edit | src/DlgConfigCat.py:212-275 | a choice in the entry and the menus makes the shown values the given ones |
| ConfigCatDialog.DlgConfigCat.Ok | src/DlgConfigCat.py:307-324 | the store becomes `OkEffect` of the shown values, flushed once |

## Left out

- The Tk user interface is not modelled: layout, fonts, focus, modality, geometry, and the enabling and disabling of the VFO-B widgets in `_split_handler`.
  `set_geometry` and `app_close` of pyRigPresetUtils.py are not modelled either.
- The file behind the store is not modelled. ConfigFile is not part of this model.
  `config.read(create=False)` is treated as a no-op. `write()` copies the current texts to the file and counts one flush.
- Floating point is not modelled. A float is represented by the decimal text it was read from. Formatting (`'{:0.6f}'`, `'{:0.1f}'`), the MHz to Hz conversion `int(f * 1E6)` and the tone's `float(text) * 10.0` are parameters (`fmt`, `fmtTone`, `toHz`, `scaled`).
- PresetUtils.ToFloat and PresetUtils.IsFloatText: Python's `float()` also reads exponents ("1e-05", which is also what `str()` writes for 0.00001), "inf", "infinity" and "nan" in any case and with a sign, and digits with underscores ("1_0"). The model reads all of these as 0.0, because a float is represented by a plain decimal text.
- RigCat.InitPlan: the `read_timeout` argument that `init_rig_cat` passes on to `config_port` (src/RigCat.py:68, 118) is not recorded in the ConfigPort call. Every modelled caller uses the default 0.5.
- PyText.Upper and PyText.IsNumeric: `upper()` and `isnumeric()` are modelled for ASCII only. This narrows Validators.ValidateText and Validators.ValidateFloat. In Python `'ı'.upper() == 'I'` and `'ﬆ'.upper() == 'ST'`, so `_validate_text` accepts both, and `'½'.isnumeric()` holds, so `_validate_float` accepts '½'. The model refuses all three.
- PyText.ParseInt: only the ASCII digits '0' to '9' count as digits. Python's `int()` also reads every other Unicode decimal digit (`int('٣') == 3`, `int('３') == 3`). For such a text `to_int`, the constructors' `int(id)`, `int(baud)` and `int(CAT/PRESET)` give 0 or ValueError in the model, where the program gets a number. Every text the program writes itself (`str(n)`, `'{:03d}'`) uses ASCII digits only.
  PyText.IsSpace uses the Unicode whitespace set of `str.isspace()`.
- The PyRigCat backends are not part of this model. `OperatingMode.is_valid`, config_port's success and the responses of `ascii_cmd` and `setup_split` are parameters.
  RigName values are taken from the dialog's rig list. The base object's NAME is taken as "NONE".
  The text of `OperatingMode.UNKNOWN`, the default of both modes, is taken as "UNKNOWN" (MemoryPresets.UnknownMode).
- `get_serial_ports` (a scan of the machine) is not modelled. The port menu's entries after NONE do not matter to any property.
- The self-test programs at the end of MemoryPresetStore.py, ConfigPresetStore.py and src/CatPresetStore.py are not modelled.
  The CatPresetStore one calls methods the class does not have.
- The Cancel handlers only close their dialogs, so they have no member.
- The right-click handlers only open a dialog and then refresh the widget.
  Their effect is covered by the dialog constructors and Ok methods, by WidgetMemoryPreset.UpdateWidget, WidgetConfigPreset.SetName and WidgetCatPreset.SetLabel, and by CatPresetWidget.LabelAfterDialog.
- How Tk reacts when a validatecommand raises is not modelled. FrequencyEntry.WidgetFrequencyEntry.Keystroke keeps the text and passes the exception on.
- `print` logging, and the 'ERROR'/'OK' checks on responses that only print, are not modelled.
- WidgetTxRx, WidgetCommandEntry, AppMenu and the main program are not part of this model.

Places where the code and its written description disagree (the model follows the code):

- A negative id is kept as it is, not coerced to 0. It only makes `init` and `write_config` no-ops, like 0.
- `send_rig_cat_cmd` never takes its ERROR branch, because `split(' ')` always has a part. An empty or blank command calls `ascii_cmd('', [''])`.
- `int(baud)` in `init_rig_cat` has no fallback. Its ValueError escapes every caller before `close_rig_cat`, since no caller uses try/finally.
- The memory widget sends its commands unstripped. A command of blanks read from the file is sent.
- `init` does not validate the CTCSS configuration. An empty one sends 'TONE  <tone>'.
- The CAT dialog and the CAT buttons keep the preset name under NAME, but CatPresetStore uses PRESET_NAME. The two never meet.
- When split is set OFF, the split handler resets VFO-B to 0.000000 in the memory dialog. OK then stores VFO-B as 0.

## Findings

| source | as written | input that shows it | evidently intended | confidence | as-written member | corrected member |
|---|---|---|---|---|---|---|
| DlgMemoryPreset.py:581 | `what.upper() in ALLOWED_TEXT` tests whether the whole insertion is a substring of the allowed characters | inserting "  " (two spaces, as from a paste) is refused | every character of the insertion is an allowed character | not executed | Validators.TwoSpacesRefused | Validators.ValidateTextStricter |
| WidgetFrequencyEntry.py:171-173 | a '.' is refused only when a '.' comes before the insertion index | typing '.' at index 0 of "1.5" gives ".1.5", which is accepted | the text holds at most one '.' | not executed | Validators.SecondDotAccepted | Validators.IntendedFloatOneDot |

The validator text is the same in src/DlgConfigPreset.py:264 and
DlgMemoryPreset.py:553. The corrected definitions are
`Validators.ValidateTextIntended` and `Validators.ValidateFloatIntended`.
Validators.ValidateFloatIntendedStricter proves that the corrected float
validator refuses whatever the written one refuses.
FrequencyEntry.WidgetFrequencyEntry.Keystroke models the entry as the
program runs it, so it applies `_validate_float` as written; the corrected
validators stand beside the written ones and are not wired into any widget.
