# PlateCalc in Dafny

PlateCalc is a keypad-and-LCD barbell calculator. You type a target weight and a
percentage, and the device shows which plates to load on each side of the bar. This
project models its core in Dafny and proves properties of the model:

- **The plate engine** (`calculations.py`):
  - converts the target to hundredths;
  - takes off the bar, halves what is left and applies the collar rule;
  - rounds to the smallest enabled plate;
  - loads plates greedily, largest first;
  - rebuilds the end weight the bar will really carry.
- **The formatters**: hundredths to text, and "label x count" plate strings.
- **The screens** (`states.py`):
  - the prompt, where digits are typed for weight and percent, with a focus toggle and a four-position unit ring;
  - the configuration menu: a tree built from the configuration, with one scroll cursor per menu, and plate/bar/collar edit actions;
  - the result screen: display tokens packed into rows of 15 columns, shown through a two-row scrolling window.
- **The interface contract** (`interfaces/interface.py`): key codes, the 2×16 bounds check, the display power flag and the polling `read_key`.
- **The configuration store** (`interfaces/hardware/hardware_config.py`): default seeding, read and write, and the default document.

Modules:

| module | models |
|---|---|
| `Wrappers` | Option, Result and the Python errors the core raises |
| `Dicts` | Python's ordered dictionaries, as association lists |
| `Text` | `str(n)`, `" " * n`, `"%-*s"` and `" ".join` on `seq<char>` |
| `Sorting` | `sorted(..., reverse=True)` by a key, and `sorted` on strings |
| `Interface` | `interfaces/interface.py` |
| `Config` | `interfaces/hardware/hardware_config.py` |
| `Calculations` | `calculations.py` |
| `Menus` | the edit actions and the `Menu` class of `states.py` |
| `States` | `PromptState`, `MenuState`, `ResultState` and sleep, from `states.py` |

How the model is built:

- **Typed values.** The configuration document is a typed value. Each unit holds its plates, bars and collars: a name maps to `(using, value)`, plus the selected `bar` and `collar`.
- **Units of measure.** Plate and collar values are hundredths. The bar is in whole units.
- **Mutable objects become classes.** Objects whose fields the source updates in place are classes, with `modifies` clauses: the interface, the configuration manager, the menu tree and the three screens.
- **Methods against specification functions.** Each method is proved against a pure function, and the source's promises are proved as lemmas about that function:
  - `GetPlateCounts` against `PlateCounts`;
  - `MenuInit` against `MenuSpec`;
  - `PromptState.ProcessInput` against `PromptStep`;
  - `MakeRows` against `RowsOf`.
- **Transitions.** A screen's `ProcessInput` returns a `Next` tag naming the screen that follows. There are two terminal tags:
  - `ToSleep`, for sleep;
  - `Crash(e)`, for an error that Python would raise out of the main loop.

## Model

| member | source | states |
|---|---|---|
| Interface.IsNumeric | interfaces/interface.py:39-40 | A key is numeric exactly when it is 0..9; TIMEOUT and CLEAR..UNIT are not numeric |
| Interface.KeypadLayoutIsPermutation | interfaces/interface.py:44-52 | The keypad layout is 4 rows of 4, and every key 0..15 appears in it exactly once |
| Interface.Interface.constructor | interfaces/interface.py:54-56 | A new interface starts with the display powered and nothing sent |
| Interface.Interface.WriteText | interfaces/interface.py:64-74 | ValueError exactly when (i, j) is outside 2×16, whatever the power state; the text reaches the display only when it is powered |
| Interface.Interface.BlinkCursorAt | interfaces/interface.py:76-77 | Forwards one blink request; power is unchanged |
| Interface.Interface.CursorOff | interfaces/interface.py:79-80 | Forwards one cursor-off request |
| Interface.Interface.ClearDisplay | interfaces/interface.py:82-84 | The cursor is turned off before the display is cleared |
| Interface.Interface.SetSleep | interfaces/interface.py:97-98 | Forwards one sleep request |
| Interface.Interface.ToggleDisplay | interfaces/interface.py:100-104 | Flips `display_power` and sends the matching on/off request |
| Interface.Interface.DisplayOn | interfaces/interface.py:106-108 | `display_power` becomes true and the display is switched on |
| Interface.Interface.DisplayOff | interfaces/interface.py:110-112 | `display_power` becomes false and the display is switched off |
| Interface.ReadKey | interfaces/interface.py:86-95 | Returns the first key polled no later than the deadline, or TIMEOUT when every poll up to the deadline came back empty |
| Config.DefaultConfigInvariants | interfaces/hardware/hardware_config.py:36-80 | In the default document each unit has exactly one enabled bar and one enabled collar, and `bar`/`collar` equal their values (LB 45/0, KG 20/0); each unit has an enabled plate and every enabled plate weighs more than 0; the default unit index is 0 |
| Config.LbDefaultsSynced | interfaces/hardware/hardware_config.py:49-55 | The LB defaults select exactly the 45 bar and the 0 collar, and `bar`/`collar` match them |
| Config.KgDefaultsSynced | interfaces/hardware/hardware_config.py:67-78 | The KG defaults select exactly the 20 bar and the 0 collar, and `bar`/`collar` match them |
| Config.DefaultPlatesUsable | interfaces/hardware/hardware_config.py:39-66 | Both default units have at least one enabled plate, all with positive values, so the engine cannot fail on them |
| Config.DefaultWellFormed | interfaces/hardware/hardware_config.py:36-80 | The default document has a unit index in the 4-entry ring and a weights entry holding LB and KG |
| Config.SeedFromKeeps | interfaces/hardware/hardware_config.py:10-14 | Seeding never overwrites a key that is already present |
| Config.SeedFromAdds | interfaces/hardware/hardware_config.py:10-14 | A missing top-level key is added with its default value; the merge is shallow |
| Config.SeedFromOnlyAdds | interfaces/hardware/hardware_config.py:10-14 | Seeding adds no key that is not a default key |
| Config.SeedFromDistinct | interfaces/hardware/hardware_config.py:10-14 | Seeding a document without duplicate keys adds none |
| Config.SeededProperties | interfaces/hardware/hardware_config.py:10-14 | After seeding, a present key keeps its value, a missing one takes the default, and both "weights" and "prompt" are present |
| Config.ConfigManager.constructor | interfaces/hardware/hardware_config.py:5-8 | The cache is the stored document (or empty when none is stored), seeded with the defaults and saved once |
| Config.ConfigManager.ConfirmConfigInit | interfaces/hardware/hardware_config.py:10-14 | The loop leaves the cache seeded from its old value and saves once |
| Config.ConfigManager.Read | interfaces/hardware/hardware_config.py:25-26 | A value comes back exactly when the key is present, and it is the value stored under the key |
| Config.ConfigManager.Write | interfaces/hardware/hardware_config.py:32-34 | After a write the key reads back the written value, every other key reads as before, and the cache is saved once |
| Calculations.GetPlateCounts | calculations.py:12-73 | The imperative engine computes `PlateCounts`: a missing unit is a KeyError, and otherwise the result is whatever `GetUnitPlateCounts` gives |
| Calculations.GetUnitPlateCounts | calculations.py:28-73 | With the unit's configuration found, the method computes `UnitPlateCounts`: the collar rule, rounding, the greedy loop and the end weight |
| Calculations.AssignPlates | calculations.py:57-69 | The greedy loop gives the counts and the per-side load of `GreedyPicks`; a zero-valued plate is a ZeroDivisionError |
| Calculations.FloorDivBounds | calculations.py:34-35 | `a // b` is the floor of a / b, for either sign of b |
| Calculations.PlateCountsBelowCollar | calculations.py:30-38 | When the floor-halved weight beyond the bar is below one collar, the result is no plates and an end weight of `bar*100` |
| Calculations.BelowBarExample | calculations.py:30-38 | 10 KG with the default KG configuration gives no plates and an end weight of 2000 |
| Calculations.PlateCountsKeyError | calculations.py:26-28 | The engine raises KeyError exactly when the output unit is not configured |
| Calculations.LoadPlatesFailures | calculations.py:44-56 | `used_plates[-1]` raises IndexError exactly when no plate is enabled; the `//` raises ZeroDivisionError exactly when an enabled plate weighs 0; otherwise the engine succeeds |
| Calculations.UsedPlatesSorted | calculations.py:44-52 | The used plates are sorted by descending value and are a permutation of the enabled plates |
| Calculations.UsedPlatesMembers | calculations.py:44-52 | A (label, value) pair is a used plate exactly when the configuration has it enabled with that value |
| Calculations.EnabledPlatesSound | calculations.py:44-49 | Every plate the comprehension keeps is an enabled entry of the configuration |
| Calculations.EnabledPlatesComplete | calculations.py:44-49 | Every enabled entry of the configuration is kept by the comprehension |
| Calculations.RoundToPlate | calculations.py:54-56 | The rounded remainder is a multiple of the smallest plate `s`, within (w + s//2 − s, w + s//2], and not negative when w is not |
| Calculations.GreedyPicksFrom | calculations.py:60-67 | Every recorded (count, label) has count > 0 and comes from a used plate |
| Calculations.GreedyPicksDescending | calculations.py:60-67 | The recorded entries appear in non-increasing plate-value order |
| Calculations.GreedyLeftBounds | calculations.py:60-64 | After the loop the leftover is in [0, s), where s is the smallest plate |
| Calculations.GreedyBalance | calculations.py:60-68 | The loaded weight plus the leftover equals the rounded target |
| Calculations.LoadPlatesUsable | calculations.py:54-73 | With a usable configuration the engine succeeds. The per-side load is at most the rounded target and less than s below it. The end weight is 2·load + bar·100 + 2·collar |
| Calculations.HundredKgExample | calculations.py:12-73 | 100 KG with the default configuration gives [(1,"25"),(1,"15")] and an end weight of 10000 |
| Calculations.FormatHundredthsAsWritten | calculations.py:76-82 | `format_hundredths_weight` as written: the string has a decimal point exactly when the weight has hundredths |
| Calculations.FormatHundredthsAsWrittenExamples | calculations.py:76-82 | As written, 12300→"123", 12350→"123.5" and 12345→"123.45" |
| Calculations.FormatHundredthsDeviation | calculations.py:76-82 | The written and the corrected formatter agree exactly when the hundredths are not 01..09 |
| Calculations.FormatHundredthsAsWrittenCollides | calculations.py:82 | The unpadded "%d.%d" prints both 12305 and 12350 as "123.5" |
| Calculations.FormatHundredthsRoundTrip | calculations.py:76-82 | With the fraction padded to two digits, reading the text back gives the weight again |
| Calculations.FormatHundredthsInjective | calculations.py:76-82 | Two weights that print the same are equal |
| Calculations.FormatHundredthsExamples | calculations.py:76-82 | For the corrected formatter with zero-padded hundredths: 12300→"123", 12350→"123.5", 12345→"123.45", and 12305→"123.05", where the code as written prints "123.5" |
| Calculations.PlateCountStrings | calculations.py:85-86 | One string per count, same order, each `label + "x" + str(qty)` |
| Menus.ActionTitleMarks | states.py:155-159 | An action's title exists exactly when its unit and entry exist; it is the entry name, followed by " *" exactly when the entry is enabled |
| Menus.DisableAll | states.py:186-187 | The loop switches every entry off and keeps every name and value |
| Menus.EditPlateTwice | states.py:161-166 | Applying a plate action twice gives back the configuration it started from |
| Menus.EditPlateFlipsOne | states.py:161-166 | A plate action flips only the chosen plate's `using`; every other plate, unit and key is unchanged |
| Menus.EditSelects | states.py:180-193 | With at least two entries, a bar or collar action leaves exactly the chosen entry enabled and sets `bar`/`collar` to its value |
| Menus.EditSelectFew | states.py:180-184 | With fewer than two entries, a bar or collar action changes nothing and writes nothing |
| Menus.EditKeyError | states.py:161-220 | An action fails only with KeyError, and exactly when its unit or its entry is missing |
| Menus.EditKeepsWellFormed | states.py:161-220 | Writing back an action's result keeps the document well formed and keeps the unit index |
| Menus.RunEdit | states.py:161-220 | `action(interface)` writes the edited weights back when the action changes them. Without a change it writes nothing. On a missing entry it fails with KeyError and writes nothing |
| Menus.BuildUnitMenu | states.py:303-326 | A unit menu is "Back" followed by one action per name, in order |
| Menus.MenuInit | states.py:285-326 | The tree built by the loops is `MenuSpec` |
| Menus.MenuSpecShape | states.py:285-326 | Home holds Back, "Edit plates", "Edit bars" and "Edit collars". Each holds Back and one menu per unit, in name order (sorted, a permutation of the units). Each unit menu holds Back and one action per entry, by descending value (a permutation of the entries) |
| Menus.KindMenuShape | states.py:294-300 | An edit menu lists Back and then the units in sorted order |
| Menus.UnitMenuShape | states.py:303-326 | A unit menu lists Back and then its entries by descending value |
| Menus.ScrolledDown | states.py:240-242 | `scroll_down` moves one row only while row + 2 < len, and keeps the row in [0, max(0, len−2)] |
| Menus.ScrolledUp | states.py:244-246 | `scroll_up` moves back one row unless already at row 0 |
| Menus.Choose | states.py:248-269 | Key 1 at row 0 leaves the menu. Keys 1 and 2 reach the child at row or row + 1; key 2 only when row + 1 < len. An action child is run and a menu child is entered. Keys 8/9 scroll. A cursor past the children raises IndexError |
| Menus.MenuTree.constructor | states.py:285-326 | `menu_init` builds `MenuSpec` with every cursor at row 0 |
| Menus.MenuTree.ScrollDown | states.py:240-242 | Only this menu's cursor moves; every cursor stays within its menu's range |
| Menus.MenuTree.ScrollUp | states.py:244-246 | Only this menu's cursor moves; every cursor stays within its menu's range |
| Menus.MenuTree.Navigate | states.py:248-269 | Follows `Choose`. Leaving goes to the parent, or to the prompt at the root. Entering goes to the chosen child, which is a menu. Scrolling moves only this cursor. An action child keeps the menu and saves the document `EditDocument` gives (nothing when it gives none), or raises its error and saves nothing. No other choice changes the configuration |
| Menus.MenuRenderLines | states.py:271-283 | Line 1 is "1: " and the title at row. With rows above, it is padded to 16 columns and ends in the up glyph. Line 2 is empty exactly when there is no next child. Otherwise it is "2: " and the next title, ending in the down glyph at column 16 exactly when more rows lie below |
| Menus.MenuRenderFails | states.py:271-283 | Rendering fails exactly when the cursor is past the children or a title lookup fails |
| States.PowerOff | states.py:13-24 | Going to sleep switches the display off and then requests sleep |
| States.FirstRowWidth | states.py:42-43 | For 0..999 the first row is exactly 16 columns: "Weight: ", the digits, padding to 4 columns, "(unit)" |
| States.SecondRowWidth | states.py:45-54 | For 0..999 the second row is exactly 16 columns: it starts with "<percent>%", ends with "<unit> plates", and holds the "\|" |
| States.InitialPromptInvariant | states.py:33-40 | A new prompt (0, no digits, 100 with 3 digits, weight focus) satisfies the prompt invariant |
| States.PromptStepKeepsInvariant | states.py:90-136 | Every key keeps the weight and percent in 0..999 with digit counts equal to their decimal lengths. The unit index stays in the ring, and the percent is never 0 while the weight has focus. No key then crashes |
| States.PromptDigitRules | states.py:114-134 | A digit at 3 weight digits shows the results and the digit is not appended. A digit at 3 percent digits hands focus back to the weight. Otherwise the digit is appended |
| States.PromptControlRules | states.py:90-112 | CLEAR zeroes the weight and keeps the percent. ENTER only toggles in percent focus. UNIT steps round the ring. CONFIG opens the menu. TIMEOUT and POWER sleep |
| States.ToggleRules | states.py:70-79 | Entering percent sets it to 0 with 0 digits. Leaving with 0 restores 100 with 3 digits. The weight and unit are untouched |
| States.PromptState.constructor | states.py:33-40 | A new prompt starts from weight 0, percent 100 and the stored unit index |
| States.PromptState.TogglePos | states.py:70-79 | The fields change as `Toggled` says |
| States.PromptState.ProcessInput | states.py:90-136 | The fields and next screen are `PromptStep`'s. UNIT writes the new index under "prompt", and no other key writes. Results turn the cursor off, sleep powers down. A well-formed document stays well formed |
| States.PromptState.GetResults | states.py:81-88 | Turns the cursor off and names the result screen for the weight, the percent and the selected units |
| States.MenuState.constructor | states.py:329-332 | A menu screen opens on Home |
| States.MenuState.ProcessInput | states.py:334-343 | TIMEOUT and POWER sleep, CONFIG returns to the prompt, numeric keys navigate as `Navigate` does (leaving the root returns to the prompt, 8 and 9 move only this menu's cursor, an action saves the document `EditDocument` gives (nothing when it gives none) or crashes with its error, and no other choice touches the tree's cursors or the configuration), and other keys stay; the tree's cursors stay in range |
| States.RoundHalfEvenNearest | states.py:355 | `round(weight*percent/100)` is within one half of the quotient and even on a tie |
| States.TokensShape | states.py:361-366 | The tokens start with "<bar> bar". "+" is second exactly when the end weight exceeds `bar*100`. Then come the plate strings in order |
| States.TokensCollar | states.py:368-371 | "<collar> collars" is last exactly when `collar > 0` and the end weight exceeds `bar*100`; no token is empty |
| States.ResultState.constructor | states.py:352-383 | The rows are `RowsOf` the header and the tokens, and the view starts at row 0 |
| States.Header | states.py:385-392 | The first row starts with the formatted weight and the unit, ends in ":", and has nothing in between when there is no `aux_weight` |
| States.ResultState.MakeRows | states.py:385-410 | The loop builds `RowsOf(header, tokens)`: greedy packing into rows of at most 15 columns, then "(no plates)" when there are no tokens |
| States.PackAllJoin | states.py:393-407 | Joining the packed rows with single spaces gives the header followed by the tokens, in order |
| States.PackAllNarrow | states.py:393-407 | Each packed row is a single piece or at most 15 columns wide |
| States.ResultRows | states.py:355-410 | For every result screen the token list is non-empty, so "(no plates)" never appears. The rows join back to the header and tokens. No row of several pieces is wider than 15 |
| States.ResultState.ScrollDown | states.py:425-427 | `scroll_level` moves down only while level < len(rows) − 2 and stays in [0, max(0, len−2)] |
| States.ResultState.ScrollUp | states.py:429-431 | `scroll_level` moves up unless at 0 and stays in range |
| States.ResultState.ProcessInput | states.py:412-423 | Keys 8/9 scroll and stay. TIMEOUT and POWER sleep. Any other key returns to a new prompt. The rows never change |
| States.DisplayStrings | states.py:361-371 | The insertions and the append build exactly `Tokens`, whose collar token uses the corrected formatter |
| States.ComputeAux | states.py:376-381 | `aux_weight` is None when the two units agree, and otherwise the end weight converted to the input unit and rounded half to even, as `AuxWeight` |
| States.NewResult | states.py:352-383 | Runs the engine on the rounded percentage and lays out the screen. An engine or lookup error is returned as is |

## Left out

- Float unit conversion (`kg_to_lb`, `lb_to_kg`, calculations.py:1-9) is left out. Both functions are a parameter of type `Conversions`. Nothing is claimed about them.
- States.AuxWeight: `aux_weight` is `RoundHalfEven` of the parameter's result over 100. This matches Python's `round` on that quotient; the float conversion itself is not modelled.
- Hardware and simulator code is not part of this model: GPIO keypad scanning, LCD pin handling, deep sleep and reset, the PySimpleGUI simulator, and `main.py`'s wiring and render/read/process loop.
- What the interface forwards to the hardware is recorded as a list of `Call`s. The `read_key` clock and polls are given as sequences.
- The `render` methods of `PromptState`, `MenuState` and `ResultState` are not modelled. They only write rows built by modelled members. `Key.LABELS` is left out too: it is only used by the simulator.
- Interface.Interface: `config_read`/`config_write` only forward calls, so the screens use the `ConfigManager` directly.
- JSON file I/O in `load_cache`/`save_cache` is left out. The constructor takes the stored document (or none) as a parameter. Each save is counted in `saves`.
- Dicts: a Python dict is an ordered association list, and `len(d)` is read as the list length. The model does not rule out duplicate keys in the stored document the `ConfigManager` constructor takes, although `json.load` never produces them. On such a document the `|d| < 2` test of a bar or collar action, and every iteration, also see the earlier duplicates. Assignment (`Dicts.PutDistinct`) and seeding (`Config.SeedFromDistinct`) add no duplicates.
- Menus.UnitNames: denominations are sorted by their `value` rather than by `float(name)`. Each name is the value written as a number, so the orders agree on every configuration the program writes.
- Menus.MenuRender: the scroll glyphs come from `interfaces.characters`, which is not part of this model. They are character parameters.
- Menus.MenuTree: `Menu` objects and their `parent` links become a value tree. Each menu is named by its path of child indices, and the `row` cursors live in a map from path to row. The parent is the path minus its last index.
- Menus.RunEdit: Python edits the dictionary that `config_read` returns, which is the live cache itself. If a bar or collar action raises KeyError after its disable loop, the entries in the cache are already switched off. The model leaves the cache unchanged in that case. When the action succeeds the two agree, because the result is written straight back.
- States.PromptState.constructor: requires the "prompt" entry. Python raises KeyError without it, and `confirm_config_init` always adds it.
- States.PromptState.ProcessInput: requires the "prompt" entry, for the same reason. Writing the index stores a `Prompt(unit_state)` entry, so any other keys of that entry are not kept.
- The typed `Entry` stands in for JSON values. A JSON document whose entries have the wrong shape is reported as KeyError, not as Python's TypeError.
- States.Tokens: the collar token uses the corrected `Calculations.FormatHundredths`, where states.py:370 calls `format_hundredths_weight` as written. The two differ exactly for collars whose hundredths are 01..09 (`Calculations.FormatHundredthsDeviation`). For example, a 1.05 collar prints "1.05 collars" here and "1.5 collars" in the source.
- States.TokensCollar: the collar token it names uses the corrected formatter, so for hundredths 01..09 it is not the source's token, as under `States.Tokens`.
- States.DisplayStrings: builds `Tokens`, so its collar token uses the corrected formatter, as under `States.Tokens`.
- States.Summarize: the formatted end weight uses the corrected formatter, where states.py:382 uses the one as written. End weights whose hundredths are 01..09 are shown zero-padded, for example "123.05" where the source shows "123.5".
- States.NewResult: its `weight` field and collar token use the corrected formatter, as under `States.Summarize` and `States.Tokens`. The same applies to the header row.
- Calculations.FormatHundredthsRoundTrip: holds only for weights of 0 or more. The end weight of a sensible configuration is never negative.
- `SleepState` is the terminal `Next.ToSleep`. Its display effects are `States.PowerOff`.

## Findings

| source | as written | input that shows it | evidently intended | confidence | as-written member | corrected member |
|---|---|---|---|---|---|---|
| calculations.py:82 | `"%d.%d" % (weight // 100, weight % 100)` prints the hundredths without zero padding | 12305 prints as "123.5", the same as 12350 | `"%d.%02d"`, so 12305 prints as "123.05" | not executed | Calculations.FormatHundredthsAsWrittenCollides | Calculations.FormatHundredthsRoundTrip |

The result screen uses the corrected `Calculations.FormatHundredths`. The source's form is
`Calculations.FormatHundredthsAsWritten`.
