# WLED-SDK command layer, modelled in Dafny

This project models the command-building core of the WLED-SDK, a C# client for WLED LED controllers. It covers:

- **SegmentBuilder**: accumulates segment objects, clamps every field it writes and emits one combined `{"seg": [...]}` payload or one payload per segment.
- **SegmentExtensions**: sends a builder's segments. Payloads of 500 bytes or less go in one request; larger ones are split one segment per request. Also resets every segment of the device.
- **SegmentUtils**: resolves the segment ids a per-segment command targets (`GetIds`, `ClampIds`) and fans one command object out to those ids (`CreateSegmentsWith`).
- **Global and per-segment commands**: the brightness, power, effect, palette, colour, transition and preset extensions, each as the exact JSON payload it hands to `SendJsonAsync`.
- **PresetBuilder**: builds the `psave` command object in place.
- **WledWebsocketClient**:
  - address normalisation;
  - the connect and stop guards;
  - the `tt` injection of `SendJsonAsync`;
  - the Info/State mirror that inbound frames and disconnections update, with the events it fires.

**Modelling choices:**

- **JSON** is a datatype with ordered properties (`Json.Props`).
  - Writing `JObject[k] = v` is `Json.Put`: it replaces the property in place or appends it.
  - `JObject.Add` is `Json.Add`: it fails on a duplicate key.
  - `JObject.Merge` is `Json.MergeProps`, with Newtonsoft's default settings.
- **Exceptions** become values: `Result`, `Outcome` and the `Errors.Error` constructors, one per exception the code throws. Nothing is assumed away as a precondition where the C# code throws.
- **C# `int`** is the `Int32` subset type. `count - 1` on a device count is computed with explicit two's-complement wrap-around (`Numerics.Pred32`).
- **Injected values**:
  - `Random.Next` takes its draw as an explicit `roll`.
  - The UTF-8 byte count of the serialised payload is a `byteSize` function parameter.
  - The transport's deliveries are explicit `Arrival` values.
- **Stateful parts are classes whose methods change fields in place:** the websocket client, the segment builder and the preset builder.
  - Each method's `ensures` gives the whole new state in terms of a specification function.
  - The lemmas about that function carry the properties.
- **Commands without state are functions**, and each function's contract gives the payload.

## Model

| member | source | states |
|---|---|---|
| Numerics.Pred32 | WLED-SDK.Builders/SegmentBuilder.cs:36-37 | `count - 1` on an `int` wraps to int.MaxValue exactly at int.MinValue and is smaller than the input everywhere else |
| Numerics.Clamp | WLED-SDK.Builders/SegmentBuilder.cs:84 | the result lies in [lo, hi], equals v when v is in range and equals the nearer bound otherwise |
| Numerics.CheckedClamp | WLED-SDK.Builders/SegmentBuilder.cs:37-38 | fails with the Math.Clamp exception exactly when lo > hi; otherwise it is the clamp, inside the range |
| Numerics.ClampIsNearest | WLED-SDK.Builders/SegmentBuilder.cs:84 | the clamped value is at least as close to v as any other point of the range |
| Numerics.ClampMonotone | WLED-SDK.Extensions/State/TransitionExtensions.cs:8 | clamping preserves order |
| Numerics.RandomNext | WLED-SDK.Extensions/State/EffectExtensions.cs:16 | fails exactly when lo > hi; returns a value in [lo, hi) when lo < hi, and lo when lo == hi |
| Numerics.RandomNextCovers | WLED-SDK.Extensions/State/EffectExtensions.cs:16 | every value of [lo, hi) is produced by some roll |
| Strings.IsNullOrWhiteSpace | WLED-SDK.Builders/SegmentBuilder.cs:41 | `string.IsNullOrWhiteSpace`: null, or every character white space as `char.IsWhiteSpace` defines it (also PresetBuilder.cs:12) |
| Strings.NatToString | WLED-SDK.Extensions/State/BrightnessExtensions.cs:28 | decimal digits only, with no leading zero |
| Strings.IntToString | WLED-SDK.Extensions/State/BrightnessExtensions.cs:28 | starts with '-' exactly for negative values, followed by the magnitude's digits |
| Strings.ParseNatToString | WLED-SDK.Extensions/State/BrightnessExtensions.cs:28 | decimal rendering round-trips through parsing |
| Strings.ParseIntToString | WLED-SDK.Extensions/State/BrightnessExtensions.cs:28 | signed decimal rendering round-trips through parsing |
| Strings.IntToStringAvoids | WLED-SDK/Extensions/StateExtensions/PresetExtensions.cs:12 | a rendered integer never contains '~' or any other non-digit character except '-' |
| ClientAccess.GetStateOrThrow | WLED-SDK.Core/Extensions/WledClientExtensions.cs:8-9 | returns the State snapshot when present; otherwise fails with the not-received error |
| ClientAccess.GetInfoOrThrow | WLED-SDK.Core/Extensions/WledClientExtensions.cs:11-12 | returns the Info snapshot when present; otherwise fails with the not-received error |
| Json.Put | WLED-SDK.Builders/PresetBuilder.cs:22 | after an indexer write the key holds the new value and every other key reads as before |
| Json.PutKeys | WLED-SDK.Builders/PresetBuilder.cs:22 | an indexer write adds exactly its own key |
| Json.PutAppends | WLED-SDK.Builders/SegmentBuilder.cs:41 | writing a missing key appends the property at the end |
| Json.PutInPlace | WLED-SDK.Builders/SegmentBuilder.cs:84 | writing an existing key keeps the length and the key order |
| Json.PutTwice | WLED-SDK.Builders/PresetBuilder.cs:20-42 | writing a key twice equals writing only the second value: the last setter call wins |
| Json.Add | WLED-SDK/Utils/SegmentUtils.cs:65 | fails with the duplicate-key error exactly when the key exists; otherwise the property is appended |
| Json.MergeProps | WLED-SDK.Builders/PresetBuilder.cs:17 | `JObject.Merge` with Newtonsoft's default settings, property by property in content order: a missing property is added, objects merge, arrays concatenate, a null is ignored, anything else replaces; its properties are MergeKeys, MergeKeepsUnnamed and MergeScalarWins |
| Json.MergeKeys | WLED-SDK.Builders/PresetBuilder.cs:17 | a merge yields exactly the keys of both objects |
| Json.MergeKeepsUnnamed | WLED-SDK.Builders/PresetBuilder.cs:17 | a property the merged command does not name keeps its value |
| Json.MergeScalarWins | WLED-SDK.Builders/PresetBuilder.cs:17 | a scalar in the merged command replaces or adds its property |
| HexColors.Hex2 | WLED-SDK.Core/Extensions/ColorExtensions.cs:7 | format `X2`: two upper-case hex digits whose value is the byte |
| HexColors.ToHexString | WLED-SDK.Core/Extensions/ColorExtensions.cs:7 | 7 characters with the hash and 6 without; every digit is upper-case hex; with the hash it is '#' followed by the unhashed string |
| HexColors.RgbDigits | WLED-SDK.Core/Extensions/ColorExtensions.cs:7 | R, G and B as two digits each, in that order |
| HexColors.ToHexStringOrEmpty | WLED-SDK.Core/Extensions/ColorExtensions.cs:8 | null gives "" and nothing else does; a colour gives its hex string |
| HexColors.ToHexStringRoundTrip | WLED-SDK.Core/Extensions/ColorExtensions.cs:7 | the hex string decodes back to the colour's three channels |
| HexColors.ToHexStringIgnoresAlpha | WLED-SDK.Core/Extensions/ColorExtensions.cs:7 | alpha never reaches the string |
| WireCodes.StepCode | WLED-SDK.Extensions/State/EffectExtensions.cs:33 | "~" followed by the decimal n forwards, "~-" followed by n backwards |
| WireCodes.StepCodeRoundTrip | WLED-SDK.Extensions/State/EffectExtensions.cs:33 | ParseStep, the model's own decoder, recovers +n forwards and -n backwards, whatever the sign of n |
| WireCodes.ParseStep | WLED-SDK.Extensions/State/EffectExtensions.cs:33 | the model's own decoder of the step strings written here and at BrightnessExtensions.cs:28 and :37, not the firmware's parser; it decodes only strings that start with "~" and have at least one more character |
| WireCodes.StepCodeDeterminesChange | WLED-SDK.Extensions/State/EffectExtensions.cs:33 | two equal step strings stand for the same signed change |
| WireCodes.BackwardIsNegativeForward | WLED-SDK.Extensions/State/EffectExtensions.cs:33 | a backward step of n > 0 is written exactly as a forward step of -n |
| SegmentUtils.SelectedSegments | WLED-SDK/Utils/SegmentUtils.cs:16 | exactly the selected entries, never more than the input |
| SegmentUtils.GetIds | WLED-SDK/Utils/SegmentUtils.cs:15-16 | all ids in declared order, or, with selectedOnly, exactly the ids of selected segments |
| SegmentUtils.Dedup | WLED-SDK/Utils/SegmentUtils.cs:43 | LINQ Distinct: the same elements without duplicates and never longer |
| SegmentUtils.DedupKeepsFirstOccurrenceOrder | WLED-SDK/Utils/SegmentUtils.cs:43 | Distinct keeps elements in the order of their first occurrences |
| SegmentUtils.ResolveIds | WLED-SDK/Utils/SegmentUtils.cs:28-44 | an empty request targets every segment; a non-empty one gives a duplicate-free list |
| SegmentUtils.CollectedMembers | WLED-SDK/Utils/SegmentUtils.cs:35-41 | the loop collects the main segment exactly when -1 is requested, and each requested id exactly when it exists |
| SegmentUtils.CollectedLength | WLED-SDK/Utils/SegmentUtils.cs:35-41 | with no segment id -1, each requested id contributes at most one element |
| SegmentUtils.ResolveIdsMembers | WLED-SDK/Utils/SegmentUtils.cs:28-44 | an id is targeted iff it is the main segment and -1 was asked for, or it was asked for and exists |
| SegmentUtils.ResolveIdsOrder | WLED-SDK/Utils/SegmentUtils.cs:35-43 | targets follow the order of their first contributions |
| SegmentUtils.ResolveIdsLength | WLED-SDK/Utils/SegmentUtils.cs:28-44 | with no segment id -1, there are no more targets than requested ids |
| SegmentUtils.ResolveIdsCanOutgrowRequest | WLED-SDK/Utils/SegmentUtils.cs:37-40 | a segment whose id is -1 makes a single -1 resolve to two targets |
| SegmentUtils.ResolveAllExample | WLED-SDK/Utils/SegmentUtils.cs:30 | an empty request gives every id in declared order |
| SegmentUtils.ResolveMainAndUnknownExample | WLED-SDK/Utils/SegmentUtils.cs:37-43 | -1 and the main id collapse into one target, and an unknown id is dropped |
| SegmentUtils.Distinct | WLED-SDK/Utils/SegmentUtils.cs:43 | the one-pass loop with a seen-set computes Dedup |
| SegmentUtils.DedupSnoc | WLED-SDK/Utils/SegmentUtils.cs:43 | one more element is kept exactly when it has not been seen before |
| SegmentUtils.ClampIds | WLED-SDK/Utils/SegmentUtils.cs:28-44 | the foreach followed by Distinct computes ResolveIds |
| SegmentUtils.EntriesFor | WLED-SDK/Utils/SegmentUtils.cs:62-68 | one entry per id, in order |
| SegmentUtils.SegmentsWith | WLED-SDK/Utils/SegmentUtils.cs:58-71 | fails with duplicate "id" exactly when there is an id to add and the object already has one; otherwise `{"seg": entries}` |
| SegmentUtils.EntriesForLookup | WLED-SDK/Utils/SegmentUtils.cs:64-65 | each entry is the object's own properties, unchanged, followed by its own id |
| SegmentUtils.CreateSegmentsWith | WLED-SDK/Utils/SegmentUtils.cs:58-71 | the loop builds exactly SegmentsWith |
| SegmentUtils.Targets | WLED-SDK.Extensions/State/BrightnessExtensions.cs:14 | fails only, and exactly, without a State; otherwise ClampIds of the State |
| SegmentUtils.FanOut | WLED-SDK.Extensions/State/BrightnessExtensions.cs:14-15 | a per-segment payload: the State error without a State, else one entry per resolved id |
| Brightness.SetBrightness | WLED-SDK.Extensions/State/BrightnessExtensions.cs:9-10 | `{bri}` alone, clamped to [0, 255] |
| Brightness.SetRandomBrightness | WLED-SDK.Extensions/State/BrightnessExtensions.cs:18-19 | `{bri: "r"}` alone |
| Brightness.StepBrightness | WLED-SDK.Extensions/State/BrightnessExtensions.cs:27-37 | `{bri}` alone, as the step code of the amount clamped to [0, 255] |
| Brightness.IncreaseBrightness | WLED-SDK.Extensions/State/BrightnessExtensions.cs:27-28 | `{bri}` alone, holding exactly "~N" for N = clamp(amount, 0, 255), which ParseStep decodes to +N |
| Brightness.DecreaseBrightness | WLED-SDK.Extensions/State/BrightnessExtensions.cs:36-37 | `{bri}` alone, holding exactly "~-N" for N = clamp(amount, 0, 255), which ParseStep decodes to -N |
| Brightness.SetSegmentsBrightness | WLED-SDK.Extensions/State/BrightnessExtensions.cs:12-16 | the global `bri` on every resolved segment |
| Brightness.SetSegmentsRandomBrightness | WLED-SDK.Extensions/State/BrightnessExtensions.cs:21-25 | `bri: "r"` on every resolved segment |
| Brightness.IncreaseSegmentsBrightness | WLED-SDK.Extensions/State/BrightnessExtensions.cs:30-34 | the rise on every resolved segment |
| Brightness.DecreaseSegmentsBrightness | WLED-SDK.Extensions/State/BrightnessExtensions.cs:39-43 | the fall on every resolved segment |
| Brightness.IncreaseDecreaseOpposite | WLED-SDK.Extensions/State/BrightnessExtensions.cs:27-37 | increasing and decreasing by the same amount are opposite steps under ParseStep |
| Brightness.DefaultArgumentsSent | WLED-SDK.Extensions/State/BrightnessExtensions.cs:9-39 | the default arguments send bri 128, "~10" and "~-10" |
| Power.Switch | WLED-SDK/Extensions/StateExtensions/StateExtensions.cs:8-18 | `{on: true}` or `{on: false}` alone |
| Power.Toggle | WLED-SDK/Extensions/StateExtensions/StateExtensions.cs:26-27 | `{on: "t"}` alone |
| Power.SwitchSegments | WLED-SDK/Extensions/StateExtensions/StateExtensions.cs:11-24 | the `on` value on every resolved segment |
| Power.ToggleSegments | WLED-SDK/Extensions/StateExtensions/StateExtensions.cs:29-33 | `on: "t"` on every resolved segment |
| Power.SwitchSegmentsEntries | WLED-SDK/Extensions/StateExtensions/StateExtensions.cs:11-15 | entry i carries the same `on` value and the i-th resolved id |
| Catalogs.Key | WLED-SDK.Extensions/State/EffectExtensions.cs:21 | the written key (`fx`, or `pal` for palettes) is never "id" |
| Catalogs.LastId | WLED-SDK.Extensions/State/EffectExtensions.cs:13 | `EffectCount - 1` (or `PaletteCount - 1`) on a C# `int`: below the count except at int.MinValue, where it wraps |
| Catalogs.IsValidId | WLED-SDK.Extensions/State/EffectExtensions.cs:9-10 | a negative id is invalid even without Info; otherwise it fails without Info and holds iff id <= count - 1 (iff id < count when count is not int.MinValue). PaletteExtensions.cs:9-10 is the same for palettes |
| Catalogs.ClampId | WLED-SDK.Extensions/State/EffectExtensions.cs:12-13 | fails without Info, or with the clamp error when count - 1 < 0; otherwise in [0, count - 1] and unchanged exactly for a valid id |
| Catalogs.ClampIdIdempotent | WLED-SDK.Extensions/State/EffectExtensions.cs:12-13 | clamping a clamped id changes nothing |
| Catalogs.RandomId | WLED-SDK.Extensions/State/EffectExtensions.cs:15-16 | fails without Info or when count - 1 < 0; otherwise in [0, count - 1), or 0 when count is 1 |
| Catalogs.RandomIdNeverLast | WLED-SDK.Extensions/State/EffectExtensions.cs:15-16 | with two or more entries the draw is a valid id and never the last one |
| Catalogs.RandomIdCovers | WLED-SDK.Extensions/State/EffectExtensions.cs:15-16 | every id below count - 1 can be drawn |
| Catalogs.SetId | WLED-SDK.Extensions/State/EffectExtensions.cs:18-22 | the State error comes first, then the clamp error; otherwise the clamped id on every resolved segment |
| Catalogs.SetRandomId | WLED-SDK.Extensions/State/EffectExtensions.cs:24-28 | the State error comes first, then the draw error; otherwise one draw shared by every resolved segment |
| Catalogs.StepThrough | WLED-SDK.Extensions/State/EffectExtensions.cs:30-34 | the unclamped step code on every resolved segment; Info is not read |
| Catalogs.DefaultStepSent | WLED-SDK.Extensions/State/EffectExtensions.cs:30 | the default forward and steps send "~1" on every resolved segment |
| ColorCommands.ColorSlots | WLED-SDK.Extensions/State/ColorExtensions.cs:14-19 | three string slots, empty exactly for a null colour, otherwise six hex digits that decode to the colour |
| ColorCommands.SetColors | WLED-SDK.Extensions/State/ColorExtensions.cs:11-22 | the three-slot `col` on every resolved segment |
| ColorCommands.SetPrimaryColor | WLED-SDK.Extensions/State/ColorExtensions.cs:24-25 | `col` = [hex, "", ""] on every resolved segment |
| ColorCommands.SetSecondaryColor | WLED-SDK.Extensions/State/ColorExtensions.cs:27-28 | `col` = ["", hex, ""] on every resolved segment |
| ColorCommands.SetTertiaryColor | WLED-SDK.Extensions/State/ColorExtensions.cs:30-31 | `col` = ["", "", hex] on every resolved segment |
| Transition.SetTransitionDuration | WLED-SDK.Extensions/State/TransitionExtensions.cs:7-8 | `{transition}` alone, clamped to [0, 65535] |
| Transition.SentMonotone | WLED-SDK.Extensions/State/TransitionExtensions.cs:8 | a longer duration never sends a shorter transition, and an in-range duration goes out unchanged |
| Transition.DefaultDurationSent | WLED-SDK.Extensions/State/TransitionExtensions.cs:7 | the default duration sends a transition of 4 |
| SegmentBuilders.SegmentRecord | WLED-SDK.Builders/SegmentBuilder.cs:34-39 | the object initializer: exactly the keys id, start and stop, holding the given values |
| SegmentBuilders.NewSegment | WLED-SDK.Builders/SegmentBuilder.cs:28-41 | fails without Info, then with the capacity error at maxSegments segments, then with the clamp error exactly when ledCount - 1 < 0 or start > ledCount; otherwise id, start and stop are the three clamps, and "n" is present iff the name is not blank |
| SegmentBuilders.ColorList | WLED-SDK.Builders/SegmentBuilder.cs:107-111 | the primary (black when Empty), then each non-Empty secondary and tertiary; every entry has six hex digits |
| SegmentBuilders.EmptyPrimaryIsBlack | WLED-SDK.Builders/SegmentBuilder.cs:107 | an Empty primary is sent as "000000" |
| SegmentBuilders.DefaultColorHex | WLED-SDK.Builders/SegmentBuilder.cs:75 | the default colour is "FFA000" |
| SegmentBuilders.DefaultColors | WLED-SDK.Builders/SegmentBuilder.cs:75-76 | `SetDefaults(true)` writes three "FFA000" strings |
| SegmentBuilders.DefaultsComplete | WLED-SDK.Builders/SegmentBuilder.cs:49-79 | after a complete SetDefaults, each key it writes holds its default and every other key is unchanged |
| SegmentBuilders.LayoutOnLookup | WLED-SDK.Builders/SegmentBuilder.cs:51-53 | grp, spc and of become 0 and nothing else changes |
| SegmentBuilders.EffectOnLookup | WLED-SDK.Builders/SegmentBuilder.cs:54-56 | fx becomes 0, sx and ix become 128, and nothing else changes |
| SegmentBuilders.SelectionOnLookup | WLED-SDK.Builders/SegmentBuilder.cs:57-61 | pal 0, sel true, rev false, on true, bri 255, and nothing else changes |
| SegmentBuilders.ModeOnLookup | WLED-SDK.Builders/SegmentBuilder.cs:62-67 | mi false, cct 255, frz false, set 0, c1 0, and nothing else changes |
| SegmentBuilders.OptionsOnLookup | WLED-SDK.Builders/SegmentBuilder.cs:68-72 | c2 and c3 become 0, o1 to o3 become false, and nothing else changes |
| SegmentBuilders.DefaultsStopAtEffect | WLED-SDK.Builders/SegmentBuilder.cs:51-54 | when the effect clamp throws, only grp, spc and of have been written |
| SegmentBuilders.DefaultsStopAtPalette | WLED-SDK.Builders/SegmentBuilder.cs:51-57 | when the palette clamp throws, only the first six writes have happened |
| SegmentBuilders.SplitCoversBuild | WLED-SDK.Builders/SegmentBuilder.cs:251-253 | concatenating the BuildSplit payloads' items gives Build's items |
| SegmentBuilders.SegmentBuilder.constructor | WLED-SDK.Builders/SegmentBuilder.cs:20-23 | a new builder is bound to its client and holds no segments |
| SegmentBuilders.SegmentBuilder.AddSegment | WLED-SDK.Builders/SegmentBuilder.cs:26-44 | on success appends NewSegment's object; on failure returns its error and leaves the list unchanged |
| SegmentBuilders.SegmentBuilder.GetLastSegmentOrThrow | WLED-SDK.Builders/SegmentBuilder.cs:255-256 | the last segment, or the no-segments error exactly when the list is empty |
| SegmentBuilders.SegmentBuilder.SetLast | WLED-SDK.Builders/SegmentBuilder.cs:84 | with no segment, fails and changes nothing; otherwise writes the key on the last segment only |
| SegmentBuilders.SegmentBuilder.Group | WLED-SDK.Builders/SegmentBuilder.cs:82-86 | `grp` = clamp(group, 0, 255) on the last segment, others untouched |
| SegmentBuilders.SegmentBuilder.Spacing | WLED-SDK.Builders/SegmentBuilder.cs:89-93 | `spc` = clamp(spacing, 0, 255) on the last segment |
| SegmentBuilders.SegmentBuilder.Offset | WLED-SDK.Builders/SegmentBuilder.cs:96-100 | `of` = offset, unclamped |
| SegmentBuilders.SegmentBuilder.Color | WLED-SDK.Builders/SegmentBuilder.cs:103-115 | `col` = ColorList on the last segment; no segment is checked first |
| SegmentBuilders.SegmentBuilder.Effect | WLED-SDK.Builders/SegmentBuilder.cs:119-123 | no segment is reported before the clamp error; otherwise `fx` = ClampId, or on a clamp error nothing changes |
| SegmentBuilders.SegmentBuilder.Speed | WLED-SDK.Builders/SegmentBuilder.cs:126-130 | `sx` = clamp(speed, 0, 255) |
| SegmentBuilders.SegmentBuilder.Intensity | WLED-SDK.Builders/SegmentBuilder.cs:133-137 | `ix` = clamp(intensity, 0, 255) |
| SegmentBuilders.SegmentBuilder.EffectCustomSlider1 | WLED-SDK.Builders/SegmentBuilder.cs:140-144 | `c1` = clamp(slider1, 0, 255) |
| SegmentBuilders.SegmentBuilder.EffectCustomSlider2 | WLED-SDK.Builders/SegmentBuilder.cs:147-151 | `c2` = clamp(slider2, 0, 255) |
| SegmentBuilders.SegmentBuilder.EffectCustomSlider3 | WLED-SDK.Builders/SegmentBuilder.cs:154-158 | `c3` = clamp(slider3, 0, 255) |
| SegmentBuilders.SegmentBuilder.EffectOption1 | WLED-SDK.Builders/SegmentBuilder.cs:161-165 | `o1` = option1 |
| SegmentBuilders.SegmentBuilder.SetEffectOption2 | WLED-SDK.Builders/SegmentBuilder.cs:168-172 | `o2` = option2 |
| SegmentBuilders.SegmentBuilder.EffectOption3 | WLED-SDK.Builders/SegmentBuilder.cs:175-179 | `o3` = option3 |
| SegmentBuilders.SegmentBuilder.Palette | WLED-SDK.Builders/SegmentBuilder.cs:183-187 | like Effect, with `pal` and the palette count |
| SegmentBuilders.SegmentBuilder.Selected | WLED-SDK.Builders/SegmentBuilder.cs:190-194 | `sel` = selected |
| SegmentBuilders.SegmentBuilder.Reverse | WLED-SDK.Builders/SegmentBuilder.cs:197-201 | `rev` = reverse |
| SegmentBuilders.SegmentBuilder.On | WLED-SDK.Builders/SegmentBuilder.cs:204-208 | `on` = on |
| SegmentBuilders.SegmentBuilder.Brightness | WLED-SDK.Builders/SegmentBuilder.cs:211-215 | `bri` = clamp(brightness, 0, 255) |
| SegmentBuilders.SegmentBuilder.Mirror | WLED-SDK.Builders/SegmentBuilder.cs:218-222 | `mi` = mirror |
| SegmentBuilders.ValidColorTemperature | WLED-SDK.Builders/SegmentBuilder.cs:227 | the values ColorTemperature accepts: 0 to 255, or 1900 to 10091 |
| SegmentBuilders.SegmentBuilder.ColorTemperature | WLED-SDK.Builders/SegmentBuilder.cs:225-230 | a value outside both [0, 255] and [1900, 10091] is refused before the segment check and changes nothing; a valid one is stored as `cct` exactly |
| SegmentBuilders.SegmentBuilder.Freeze | WLED-SDK.Builders/SegmentBuilder.cs:235-239 | `frz` = freeze |
| SegmentBuilders.SegmentBuilder.Set | WLED-SDK.Builders/SegmentBuilder.cs:244-248 | `set` = clamp(set, 0, 3) |
| SegmentBuilders.DefaultsOutcome | WLED-SDK.Builders/SegmentBuilder.cs:54-57 | the outcome of SetDefaults on a non-empty builder: the Info error without Info, otherwise the clamp error; success exactly when count - 1, as an `int`, is non-negative for both catalogs |
| SegmentBuilders.DefaultsOn | WLED-SDK.Builders/SegmentBuilder.cs:49-79 | the last segment after SetDefaults: the layout writes only when the effect clamp fails, the layout and effect writes when the palette clamp fails, otherwise every write |
| SegmentBuilders.SegmentBuilder.SetDefaults | WLED-SDK.Builders/SegmentBuilder.cs:49-79 | with no segment, fails and changes nothing; otherwise the outcome is the first clamp error or success, and only the last segment changes, to DefaultsOn of its old value |
| SegmentBuilders.SegmentBuilder.LayoutDefaults | WLED-SDK.Builders/SegmentBuilder.cs:51-53 | the first three setter calls of SetDefaults |
| SegmentBuilders.SegmentBuilder.EffectDefaults | WLED-SDK.Builders/SegmentBuilder.cs:54-56 | the effect, speed and intensity calls, stopping at the effect clamp error |
| SegmentBuilders.SegmentBuilder.RemainingDefaults | WLED-SDK.Builders/SegmentBuilder.cs:57-76 | the palette call, stopping at its clamp error, then the remaining setters and the optional colours |
| SegmentBuilders.SegmentBuilder.Build | WLED-SDK.Builders/SegmentBuilder.cs:251 | exactly one key, `seg`, holding every segment in insertion order |
| SegmentBuilders.SegmentBuilder.BuildSplit | WLED-SDK.Builders/SegmentBuilder.cs:253 | one payload per segment, same order, each `{"seg": [that segment]}` |
| SegmentCommands.OneRequest | WLED-SDK.Builders/Extensions/SegmentExtensions.cs:45 | one request when forced or when the payload is at most 500 bytes (inclusive) |
| SegmentCommands.SetSegments | WLED-SDK.Builders/Extensions/SegmentExtensions.cs:39-55 | forced, or at most 500 bytes: one frame of Build, sent iff connected. Otherwise one frame per BuildSplit payload in order (all of them iff connected, none otherwise), succeeding iff connected or there are no segments |
| SegmentCommands.ResetFirst | WLED-SDK.Builders/Extensions/SegmentExtensions.cs:21 | segment 0 has id 0, start 0, stop ledCount and is selected |
| SegmentCommands.ResetHead | WLED-SDK.Builders/Extensions/SegmentExtensions.cs:21-22 | the optional defaults keep the id, the range and the selection of segment 0 |
| SegmentCommands.KeptByDefaults | WLED-SDK.Builders/Extensions/SegmentExtensions.cs:22 | SetDefaults never touches id, start or stop |
| SegmentCommands.ResetHeadDefaults | WLED-SDK.Builders/Extensions/SegmentExtensions.cs:22 | with defaults asked for, segment 0 holds every default SetDefaults writes |
| SegmentCommands.ResetPlan | WLED-SDK.Builders/Extensions/SegmentExtensions.cs:15-28 | fails exactly without Info, with maxSegments < 1 (capacity error), with ledCount < 1 (clamp error), or a failing SetDefaults; the error is the one the first failing call throws |
| SegmentCommands.EmptySegments | WLED-SDK.Builders/Extensions/SegmentExtensions.cs:25-28 | segments 1 to n, each `{id: i, start: 0, stop: 0}` |
| SegmentCommands.ResetPlanShape | WLED-SDK.Builders/Extensions/SegmentExtensions.cs:17-28 | a successful reset holds exactly maxSegments segments: segment 0, then empty segments 1 to maxSegments - 1 |
| SegmentCommands.ResetPlanIds | WLED-SDK.Builders/Extensions/SegmentExtensions.cs:21-28 | segment i has id i, and every segment after 0 covers no LEDs |
| SegmentCommands.ResetPlanSucceeds | WLED-SDK.Builders/Extensions/SegmentExtensions.cs:17-28 | with a segment slot, an LED and non-empty catalogs, a reset always builds |
| SegmentCommands.ResetSegments | WLED-SDK.Builders/Extensions/SegmentExtensions.cs:15-31 | a failing plan sends nothing and reports its error; otherwise one forced frame of all planned segments, sent iff connected |
| SegmentCommands.BuildReset | WLED-SDK.Builders/Extensions/SegmentExtensions.cs:17-28 | the builder ends up holding exactly the plan, or the plan's error is returned |
| SegmentCommands.AddEmptySegments | WLED-SDK.Builders/Extensions/SegmentExtensions.cs:25-28 | the loop appends exactly EmptySegments |
| SegmentCommands.EmptySegmentAdded | WLED-SDK.Builders/Extensions/SegmentExtensions.cs:27 | AddSegment(0, 0, id: i) with i segments present adds `{id: i, start: 0, stop: 0}` |
| SegmentCommands.BuildResetHead | WLED-SDK.Builders/Extensions/SegmentExtensions.cs:21-22 | leaves segment 0 as planned, or returns the plan's error |
| PresetBuilders.PresetHeader | WLED-SDK.Builders/PresetBuilder.cs:9-13 | psave first, as clamp(presetId, 1, 250); "n" present iff the name is not blank; no other key |
| PresetBuilders.PresetWithCommand | WLED-SDK.Builders/PresetBuilder.cs:15-18 | the keys are the header's plus the command's |
| PresetBuilders.CommandKeepsHeader | WLED-SDK.Builders/PresetBuilder.cs:15-18 | a header key the command does not name keeps its value |
| PresetBuilders.CommandOverridesHeader | WLED-SDK.Builders/PresetBuilder.cs:15-18 | a scalar psave or n in the command overrides the builder's own value, even outside 1..250 |
| PresetBuilders.PresetBuilder.constructor | WLED-SDK.Builders/PresetBuilder.cs:9-13 | a fresh object holding PresetHeader |
| PresetBuilders.PresetBuilder.WithCommand | WLED-SDK.Builders/PresetBuilder.cs:15-18 | a fresh object holding the merged header |
| PresetBuilders.PresetBuilder.Write | WLED-SDK.Builders/PresetBuilder.cs:22 | sets one key, leaves every other key and adds nothing else |
| PresetBuilders.PresetBuilder.IncludeBrightness | WLED-SDK.Builders/PresetBuilder.cs:20-24 | writes `ib` and returns the builder itself |
| PresetBuilders.PresetBuilder.IncludeSegments | WLED-SDK.Builders/PresetBuilder.cs:26-30 | writes `sb` and returns the builder itself |
| PresetBuilders.PresetBuilder.CheckedSegmentsOnly | WLED-SDK.Builders/PresetBuilder.cs:32-36 | writes `sc` and returns the builder itself |
| PresetBuilders.PresetBuilder.QuickLoadLabel | WLED-SDK.Builders/PresetBuilder.cs:38-42 | writes `ql`, as JSON null for a null label |
| PresetBuilders.PresetBuilder.Build | WLED-SDK.Builders/PresetBuilder.cs:44 | returns the builder's own object |
| PresetBuilders.BuildThenInclude | WLED-SDK.Builders/PresetBuilder.cs:44 | an object taken from Build sees a later setter call |
| Presets.LoadPreset | WLED-SDK/Extensions/StateExtensions/PresetExtensions.cs:8-9 | `{ps}` alone, clamped to [-1, 250] |
| Presets.RangeCode | WLED-SDK/Extensions/StateExtensions/PresetExtensions.cs:12 | exactly the text "S~E~" followed by "r" iff shuffling, S and E the decimal renderings of the start and end ids each clamped to -1..250; hence exactly two '~' |
| Presets.LoadPresetRange | WLED-SDK/Extensions/StateExtensions/PresetExtensions.cs:11-12 | `{ps}` alone, holding the range text |
| Presets.ParseRangeSplits | WLED-SDK/Extensions/StateExtensions/PresetExtensions.cs:12 | text of the form A~B~T with no '~' in A or B splits back at its two separators |
| Presets.RangeCodeRoundTrip | WLED-SDK/Extensions/StateExtensions/PresetExtensions.cs:12 | the range text decodes to both clamped ids and the shuffle flag |
| Presets.SavePreset | WLED-SDK/Extensions/StateExtensions/PresetExtensions.cs:14-15 | the builder's object as it stands, with psave present while the builder is intact |
| Presets.DeletePreset | WLED-SDK/Extensions/StateExtensions/PresetExtensions.cs:17-18 | `{pdel}` alone, clamped to [1, 250] |
| Presets.DeleteNarrowerThanLoad | WLED-SDK/Extensions/StateExtensions/PresetExtensions.cs:9-18 | delete and load send the same id exactly when it is at least 1 |
| WebsocketClient.GetUri | WLED-SDK.Client.WebSocket/WledWebsocketClient.cs:66-71 | the result always has a ws:// or wss:// scheme and ends in "/ws" |
| WebsocketClient.GetUriOnlyAdds | WLED-SDK.Client.WebSocket/WledWebsocketClient.cs:68-69 | the result is the input, preceded by "ws://" exactly when neither scheme is present, then followed by "/ws" exactly when that does not already end in "/ws" (three more characters, or none); a complete address is unchanged and nothing else is |
| WebsocketClient.GetUriIdempotent | WLED-SDK.Client.WebSocket/WledWebsocketClient.cs:66-71 | normalising twice is normalising once |
| WebsocketClient.UpdateInfo | WLED-SDK.Client.WebSocket/WledWebsocketClient.cs:238-244 | Info is replaced, one InfoChanged(previous, new) fires, nothing else changes |
| WebsocketClient.UpdateState | WLED-SDK.Client.WebSocket/WledWebsocketClient.cs:246-252 | State is replaced, one StateChanged(previous, new) fires, nothing else changes |
| WebsocketClient.Receive | WLED-SDK.Client.WebSocket/WledWebsocketClient.cs:198-225 | a processed frame replaces each snapshot whose section is present; absent sections and unprocessed frames leave them alone |
| WebsocketClient.ReceiveEmptyFrame | WLED-SDK.Client.WebSocket/WledWebsocketClient.cs:200 | a non-text frame, or one with neither section, changes nothing |
| WebsocketClient.ReceiveStateOnly | WLED-SDK.Client.WebSocket/WledWebsocketClient.cs:214-219 | a state-only frame replaces State, keeps Info, and fires one event |
| WebsocketClient.Disconnect | WLED-SDK.Client.WebSocket/WledWebsocketClient.cs:227-236 | both snapshots become null; InfoChanged, StateChanged, then Disconnected fire |
| WebsocketClient.Drop | WLED-SDK.Client.WebSocket/WledWebsocketClient.cs:227-236 | the transport flags go down, then the disconnection is handled |
| WebsocketClient.SignalsInfo | WLED-SDK.Client.WebSocket/WledWebsocketClient.cs:185-189 | a delivery fires InfoChanged: a processed frame with an info section, or any loss |
| WebsocketClient.SignalsState | WLED-SDK.Client.WebSocket/WledWebsocketClient.cs:191-195 | a delivery fires StateChanged: a processed frame with a state section, or any loss |
| WebsocketClient.Ready | WLED-SDK.Client.WebSocket/WledWebsocketClient.cs:170-183 | each wait completes when its snapshot was already present or its change event fired during the wait |
| WebsocketClient.ArriveSignals | WLED-SDK.Client.WebSocket/WledWebsocketClient.cs:185-195 | a delivery signals a wait exactly when it fires the matching change event; earlier events are kept |
| WebsocketClient.FramesKeepSnapshots | WLED-SDK.Client.WebSocket/WledWebsocketClient.cs:198-225 | frames never clear a snapshot, and a snapshot is present iff it was already or some frame carried its section |
| WebsocketClient.ReadyMeansBothSnapshots | WLED-SDK.Client.WebSocket/WledWebsocketClient.cs:170-183 | without a loss, the wait completes iff both snapshots end up non-null |
| WebsocketClient.ReadyAfterLoss | WLED-SDK.Client.WebSocket/WledWebsocketClient.cs:170-183 | a loss during the wait completes it while leaving both snapshots null |
| WebsocketClient.Framed | WLED-SDK.Client.WebSocket/WledWebsocketClient.cs:135-138 | a non-object fails; with a transition time set, a message that already has `tt` fails; otherwise the message unchanged, or with `tt` = clamp(time, 0, 65535) appended |
| WebsocketClient.WledWebsocketClient.OfUri | WLED-SDK.Client.WebSocket/WledWebsocketClient.cs:50-60 | no snapshots, not running, transition time -1, nothing sent |
| WebsocketClient.WledWebsocketClient.IsConnected | WLED-SDK.Client.WebSocket/WledWebsocketClient.cs:76 | connected exactly when the transport is running and started |
| WebsocketClient.WledWebsocketClient.constructor | WLED-SDK.Client.WebSocket/WledWebsocketClient.cs:62-64 | as OfUri, with the address normalised by GetUri |
| WebsocketClient.WledWebsocketClient.UpdateInfoFromMessage | WLED-SDK.Client.WebSocket/WledWebsocketClient.cs:238-244 | the client's view becomes UpdateInfo of the old view |
| WebsocketClient.WledWebsocketClient.UpdateStateFromMessage | WLED-SDK.Client.WebSocket/WledWebsocketClient.cs:246-252 | the client's view becomes UpdateState of the old view |
| WebsocketClient.WledWebsocketClient.OnMessageReceived | WLED-SDK.Client.WebSocket/WledWebsocketClient.cs:198-225 | the client's view becomes Receive of the old view |
| WebsocketClient.WledWebsocketClient.OnDisconnectionHappened | WLED-SDK.Client.WebSocket/WledWebsocketClient.cs:227-236 | the client's view becomes Disconnect of the old view |
| WebsocketClient.WledWebsocketClient.TransportClosed | WLED-SDK.Client.WebSocket/WledWebsocketClient.cs:59 | the transport stops and then reports the disconnection |
| WebsocketClient.WledWebsocketClient.ConnectAsync | WLED-SDK.Client.WebSocket/WledWebsocketClient.cs:84-106 | refuses when already connected; a failed start reports an Error disconnection (TransportError), which the handler turns into cleared Info and State and the InfoChanged, StateChanged and Disconnected(TransportError) events, and is then rethrown; otherwise connected, and when waiting succeeds iff Ready (else times out, leaving the connection up) |
| WebsocketClient.WledWebsocketClient.DeliverAll | WLED-SDK.Client.WebSocket/WledWebsocketClient.cs:170-183 | delivers every arrival in order, and both waits complete iff Ready |
| WebsocketClient.WledWebsocketClient.StopAsync | WLED-SDK.Client.WebSocket/WledWebsocketClient.cs:112-126 | the not-running guard, then the not-started guard; otherwise a ByUser disconnection |
| WebsocketClient.WledWebsocketClient.SendJson | WLED-SDK.Client.WebSocket/WledWebsocketClient.cs:128-145 | null, then not connected, then framing errors; succeeds iff a frame is appended to what was sent, and that frame is the framed message |
| WebsocketClient.WledWebsocketClient.RequestUpdate | WLED-SDK.Client.WebSocket/WledWebsocketClient.cs:151 | sends `{v: true}`, succeeding exactly when connected |
| WebsocketClient.WledWebsocketClient.Dispose | WLED-SDK.Client.WebSocket/WledWebsocketClient.cs:156-168 | a stop whose errors are ignored, then disposal; nothing is sent |

## Left out

- Uri parsing (`new Uri`): GetUri stops at the normalised string.
- Async execution: `Task.Run`, `Task.WhenAny` and the five-second timer are not modelled. The arrivals that beat the timeout are a parameter, and cancellation is not modelled.
- Logging (`ILogger`): it carries no behaviour the model needs.
- The transport (Websocket.Client): reduced to its IsRunning and IsStarted flags and an outbox of the frames handed to `Send`. Serialising a frame to text is not modelled.
- WebsocketClient.WledWebsocketClient.ConnectAsync: on a failed start the transport's IsRunning and IsStarted flags are taken to be as they were before the start. Whatever flags Websocket.Client's StartOrFail leaves behind is not part of this model, and neither is any reconnection it schedules.
- JSON deserialisation of inbound frames: a frame arrives already split into its optional info and state sections. Only the Info and State fields the command layer reads are kept.
- SegmentCommands.SetSegments: the UTF-8 byte count of the compact JSON text is the `byteSize` parameter, because JSON text serialisation is not modelled.
- SegmentCommands.SetSegments, SegmentCommands.ResetSegments: modelled on the websocket client, the one IWledClient implementation in the core.
- SegmentBuilders.SegmentBuilder.Build, SegmentBuilders.SegmentBuilder.BuildSplit: `new JArray(...)` (SegmentBuilder.cs:251, 253) clones only a token that already has a parent. The first Build or BuildSplit result therefore holds the builder's own segment objects, and later setter calls show through it; later results hold copies. The model treats segments as values and does not capture this sharing. Sent frames are unaffected, because SendJsonAsync copies the message through `JObject.FromObject`.
- PresetBuilders.PresetBuilder.Build: this sharing is modelled, because the builder's object is a reference (`JsonObject`).
- `JObject.FromObject` on anonymous objects: each anonymous payload is written directly as its JSON object.
- Presets.RangeCode, WireCodes.StepCode, WebsocketClient.GetUri: the model assumes the invariant culture. C# interpolation of a negative `int` uses the current culture's negative sign, which some cultures render as U+2212 instead of '-'. That case is reachable for a range id clamped to -1 and for negative steps. `StartsWith` and `EndsWith` on strings compare culture-sensitively; the model compares ordinally. `X2` hex formatting is culture-independent.
- How the WLED firmware parses relative-step strings is not part of this model. ParseStep is the model's own decoder, showing that StepCode loses no information. The firmware may read strings such as "~-0" (DecreaseBrightness(0)) or "~--5" (a backward step of -5) differently.
- Null id lists: a null `params int[]` and an empty one are the same empty sequence.
- SegmentBuilders.SegmentBuilder.SetDefaults: proved through three stage methods (LayoutDefaults, EffectDefaults, RemainingDefaults) to keep each proof small. The call order and the partial writes before a clamp error are those of the source.
- WledDeviceDiscoverer and the console examples: not part of this model.
- ValidationError vs ArgumentOutOfRangeException naming: the error constructors follow the exceptions the code throws, one per exception, not a coarser taxonomy.
