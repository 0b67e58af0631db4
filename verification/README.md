# GameCube adapter input classification, modelled in Dafny

This project models the pure core of the GameCube-adapter input plugin
(`RMG-Input-GCA`). The core has two parts:

- the **controller report** the USB adapter delivers for each port
  (`GameCubeAdapterControllerState`). It is nine bytes: status, two bit-packed
  button bytes, four stick axes and two analog triggers;
- the **input classifier** (`GCInput`, `GCButtonMapping`, `isGCInputActive`,
  `DetectGCInput`). It decides whether a logical input is active in one
  report, and which input first became active between two consecutive reports.
  The configuration dialog uses this to bind an N64 button by "press the
  button you want".

Modules:

| file | module | contents |
|---|---|---|
| `adapter.dfy` | `Adapter` | `Byte`, the button-byte flag records, `Decode`/`Encode` of a report, the button-byte decoders and encoders, and their round trips |
| `gc_input.dfy` | `GCInputs` | the `GCInput` enumeration with its integer values, the real inputs in declaration order, and the display labels |
| `mapping.dfy` | `Mapping` | N64 buttons, `ButtonMapping` and the default mapping |
| `classifier.dfy` | `Classifier` | threshold scaling, `int8_t` recentering, `IsActive`, the hard-coded `Detect` cascade, and the reference "first rising input" definition together with the proof that the two agree |
| `classifier_properties.dfy` | `ClassifierProperties` | threshold, trigger and C-stick properties, detection properties, and worked examples |

`isGCInputActive` and `DetectGCInput` take the thresholds as fractions, scaled with
`static_cast<int>(INT8_MAX * t)`. `IsActive` and `Detect` take the scaled
integer thresholds. `IsGCInputActive` and `DetectGCInput` take the fractions
as reals and scale them with `ScaledThreshold`, which truncates toward zero.

Behaviour of the code worth knowing:

- Thresholds truncate: `127 * 0.5` = 63.5 gives 63, so a trigger value of 64
  is already active at one half (`RightTriggerExample`, `HalfThresholdTrigger`).
- In an all-zero report the C-stick bytes recenter to -128. So `CStickDown` and `CStickLeft` are active for every
  C-stick threshold below 128 (`ZeroReportActivity`). A port that read as
  neutral and then reads all zero is detected as `CStickDown`
  (`ZeroReportDetectedAsCStickDown`). Detection between two zero reports
  reports nothing (`DetectSameStateIsNone`).
- At the highest C-stick threshold, 127, `CStickUp` and `CStickRight` can
  never be active, while `CStickDown` and `CStickLeft` are active at raw 0
  (`FullThresholdCStick`).

## Model

| member | source | states |
|---|---|---|
| Adapter.Decode | Source/RMG-Input-GCA/Adapter.hpp:15-55 | Status and the six analog bytes come verbatim from report positions 0 and 3..8. The decoded flags of the first button byte pack back to byte 1 exactly, and those of the second pack back to byte 2's low nibble. |
| Adapter.Encode | Source/RMG-Input-GCA/Adapter.hpp:15-55 | Laying out any state gives a well-formed nine-byte report with byte 2's reserved bits clear. That report decodes back to the same state. |
| Adapter.EncodeDecode | Source/RMG-Input-GCA/Adapter.hpp:15-55 | Decoding then re-encoding any well-formed report gives it back, except for the high nibble of byte 2. |
| Adapter.DecodeButtons1 | Source/RMG-Input-GCA/Adapter.hpp:19-34 | Reading the eight one-bit fields of the first button byte loses nothing: the flags, weighted 1, 2, …, 128 in field order, sum back to the byte. Bit positions: `Buttons1BitPositions`. |
| Adapter.EncodeButtons1 | Source/RMG-Input-GCA/Adapter.hpp:19-34 | Writing eight flags through the bitfield gives a byte whose fields read back as the same flags. The other direction is `Buttons1ByteRoundTrip`. |
| Adapter.DecodeButtons2 | Source/RMG-Input-GCA/Adapter.hpp:36-46 | Reading the four one-bit fields of the second button byte loses only the high nibble: the flags, weighted 1, 2, 4, 8, sum to `byte % 16`. `Buttons2IgnoresHighBits` shows the high nibble is never read. |
| Adapter.EncodeButtons2 | Source/RMG-Input-GCA/Adapter.hpp:36-46 | Writing four flags gives a byte below 16 whose fields read back as the same flags. |
| Adapter.Buttons1ByteRoundTrip | Source/RMG-Input-GCA/Adapter.hpp:19-34 | Repacking the eight flags read from the first button byte reproduces the byte exactly. |
| Adapter.Buttons1FlagsRoundTrip | Source/RMG-Input-GCA/Adapter.hpp:19-34 | Reading back the flags of a packed first button byte gives the same eight flags. |
| Adapter.Buttons2ByteRoundTrip | Source/RMG-Input-GCA/Adapter.hpp:36-46 | Repacking the four flags read from the second button byte reproduces `byte % 16`. |
| Adapter.Buttons2FlagsRoundTrip | Source/RMG-Input-GCA/Adapter.hpp:36-46 | Packing four flags leaves bits 4..7 clear, and reading them back gives the same flags. |
| Adapter.Buttons1BitPositions | Source/RMG-Input-GCA/Adapter.hpp:22-33 | Bits 0..7 of the first button byte are A, B, X, Y, DpadLeft, DpadRight, DpadDown, DpadUp. A byte with only bit k set raises only flag k. |
| Adapter.Buttons2BitPositions | Source/RMG-Input-GCA/Adapter.hpp:39-45 | Bits 0..3 of the second button byte are Start, Z, R, L. A byte with only bit k set raises only flag k. |
| Adapter.Buttons2IgnoresHighBits | Source/RMG-Input-GCA/Adapter.hpp:36-46 | No flag exposes bits 4..7: two second button bytes with the same low nibble decode to the same flags. |
| Adapter.DecodeZeroReport | Source/RMG-Input-GCA/Adapter.hpp:15-55 | The all-zero report is well formed and decodes to every flag false and every axis 0. |
| GCInputs.Ordinal | Source/RMG-Input-GCA/GCInput.hpp:16-38 | Every enumerator value lies in -1..18. The value is -1 exactly for `None` and 18 exactly for `Count`. `OrdinalRoundTrip` and `RealInputsAreInEnumOrder` show A..CStickRight take 0..17 in declaration order, each once. |
| GCInputs.FromOrdinal | Source/RMG-Input-GCA/GCInput.hpp:16-38 | Every integer in -1..18 names the enumerator whose value it is. |
| GCInputs.OrdinalRoundTrip | Source/RMG-Input-GCA/GCInput.hpp:16-38 | Every enumerator's value is in -1..18 and recovers that enumerator, so the values are pairwise distinct. |
| GCInputs.RealInputsAreInEnumOrder | Source/RMG-Input-GCA/GCInput.hpp:16-38 | The 18 real inputs A..CStickRight, listed in priority order, sit at the index equal to their enum value. An input is in the list exactly when it is not a sentinel. |
| GCInputs.Label | Source/RMG-Input-GCA/GCInput.hpp:60-84 | `GCInputToString`: every label is non-empty and reads "None" exactly for the two sentinels, the `default` branch. `LabelsDistinguishInputs` shows that distinct real inputs get distinct labels. |
| GCInputs.LabelsDistinguishInputs | Source/RMG-Input-GCA/GCInput.hpp:60-84 | Distinct real inputs have distinct labels and none is labelled "None". Both sentinels are labelled "None". |
| Mapping.AllN64ButtonsComplete | Source/RMG-Input-GCA/GCInput.hpp:40-58 | There are exactly `N64_BUTTON_COUNT` = 14 bindable N64 buttons. Each appears once, at its slot. |
| Mapping.Source | Source/RMG-Input-GCA/GCInput.hpp:42-58 | The input a mapping binds to one N64 button. It carries no contract of its own; `Sources` ties it to the slot order, and `DefaultMappingIsInjective` and `DefaultMappingBindings` constrain it on the default. |
| Mapping.DefaultMapping | Source/RMG-Input-GCA/GCInput.hpp:44-57 | The default initialisers of `GCButtonMapping` bind fourteen pairwise distinct real inputs, in slot order. `DefaultMappingBindings` pins which input goes to each button. |
| Mapping.Sources | Source/RMG-Input-GCA/GCInput.hpp:42-58 | The fourteen fields of a mapping, in slot order, are the inputs bound to the fourteen N64 buttons. |
| Mapping.DefaultMappingIsInjective | Source/RMG-Input-GCA/GCInput.hpp:42-58 | The default binds each N64 button to a real input and never binds one input to two buttons. |
| Mapping.DefaultMappingBindings | Source/RMG-Input-GCA/GCInput.hpp:44-57 | Each default binding: A, B, Start, Z and DpadUp/Down/Left/Right come from the like-named GameCube input, L from LeftTrigger, R from RightTrigger, and CUp/CDown/CLeft/CRight from the like-named C-stick directions. |
| Mapping.DefaultMappingSources | Source/RMG-Input-GCA/GCInput.hpp:42-58 | The fourteen default inputs are pairwise distinct and real. The only real inputs left unbound are X, Y and the digital L and R. |
| Classifier.TruncateToInt | Source/RMG-Input-GCA/GCInput.hpp:88-89 | The `int` cast rounds toward zero: the result is the integer within distance 1 of x on the side of zero. |
| Classifier.ScaledThreshold | Source/RMG-Input-GCA/GCInput.hpp:88-89 | For t ≥ 0 the threshold is the integer part of 127·t. For t in [0, 1] it lies in 0..127. |
| Classifier.ToInt8 | Source/RMG-Input-GCA/GCInput.hpp:90-91 | The `int8_t` cast gives the value in -128..127 that is congruent to v modulo 256. |
| Classifier.CStickDeflection | Source/RMG-Input-GCA/GCInput.hpp:90-91 | `int8_t(raw + 128)` equals `raw - 128` for every byte, so it always lies in -128..127. |
| Classifier.IsActive | Source/RMG-Input-GCA/GCInput.hpp:86-115 | Only real inputs are ever active. The branch-by-branch meaning is constrained by `DigitalInputReadsReportBit` (digital inputs read their report bit), `TriggerMonotone`, `FullThresholdTrigger`, `CStickOppositesExclusive`, `CentredCStickInactive` and `SentinelsNeverActive`. |
| Classifier.IsGCInputActive | Source/RMG-Input-GCA/GCInput.hpp:86-115 | `isGCInputActive` with fractional thresholds: only real inputs are active, and under a fraction in [0, 1] a fully pressed trigger (raw 255) is always active. `HalfThresholdTrigger` pins the fraction 0.5 to raw 64 and above. |
| Classifier.Detect | Source/RMG-Input-GCA/GCInput.hpp:117-152 | Detection never returns `Count`. |
| Classifier.DetectResultRises | Source/RMG-Input-GCA/GCInput.hpp:117-152 | Any input other than `None` that detection returns is inactive in the previous state and active in the current one. |
| Classifier.DetectGCInput | Source/RMG-Input-GCA/GCInput.hpp:117-152 | `DetectGCInput` returns the first real input, in declaration order, that is inactive in the previous state and active in the current one under the scaled thresholds, or `None`. It is derived from `DetectIsFirstRisingInEnumOrder` for any pair of `ScaledThreshold` values. |
| Classifier.FirstRisingIndex | Source/RMG-Input-GCA/GCInput.hpp:123-151 | The reference search returns the index of the first input in the given order that rises, or the length of the order when none does. |
| Classifier.DetectReturnsFirst | Source/RMG-Input-GCA/GCInput.hpp:123-151 | The detected input is real and rises, and no input earlier in declaration order rises. When the result is `None`, no real input rises. |
| Classifier.DetectIsFirstRisingInEnumOrder | Source/RMG-Input-GCA/GCInput.hpp:117-152 | The hard-coded cascade equals "the first input of A..CStickRight with `!active(prev) && active(curr)`, else None" for all states and thresholds. |
| ClassifierProperties.ReportPosition | Source/RMG-Input-GCA/Adapter.hpp:19-46 | The button layout of the two union bitfields written out a second time, independently of the decoders: each digital input maps to report byte 1 or 2 and a bit below 8. It serves as the reference layout that `DigitalInputReadsReportBit` checks `Decode` and `IsActive` against. |
| ClassifierProperties.DigitalInputReadsReportBit | Source/RMG-Input-GCA/GCInput.hpp:95-106 | A digital input of a decoded report is active exactly when its bit in byte 1 or byte 2 of the report is set, whatever the thresholds. |
| ClassifierProperties.DigitalInputIgnoresThresholds | Source/RMG-Input-GCA/GCInput.hpp:95-106 | The activity of a digital input does not depend on either threshold. |
| ClassifierProperties.SentinelsNeverActive | Source/RMG-Input-GCA/GCInput.hpp:113 | `None` and `Count` are never active. |
| ClassifierProperties.ScaledThresholdExamples | Source/RMG-Input-GCA/GCInput.hpp:88-89 | Fractions 0, 0.5 and 1 scale to thresholds 0, 63 and 127. |
| ClassifierProperties.ScaledThresholdMonotone | Source/RMG-Input-GCA/GCInput.hpp:88-89 | A larger fraction never gives a smaller threshold, on either side of zero. |
| ClassifierProperties.TriggerMonotone | Source/RMG-Input-GCA/GCInput.hpp:107-108 | Trigger activity never decreases as raw pressure increases. |
| ClassifierProperties.ReleasedTriggerInactive | Source/RMG-Input-GCA/GCInput.hpp:107-108 | Raw pressure 0 is inactive for every threshold ≥ 0. |
| ClassifierProperties.FullThresholdTrigger | Source/RMG-Input-GCA/GCInput.hpp:107-108 | At threshold 127 a trigger is active exactly for raw 128..255. |
| ClassifierProperties.HalfThresholdTrigger | Source/RMG-Input-GCA/GCInput.hpp:86-108 | With trigger fraction 0.5 a trigger is active exactly from raw 64 upward. |
| ClassifierProperties.CStickDeflectionExamples | Source/RMG-Input-GCA/GCInput.hpp:90-91 | Raw 128 recenters to 0, 220 to 92, 0 to -128 and 255 to 127. |
| ClassifierProperties.CStickOppositesExclusive | Source/RMG-Input-GCA/GCInput.hpp:109-112 | For a threshold ≥ 0, Up and Down are never active together, and neither are Left and Right. |
| ClassifierProperties.CentredCStickInactive | Source/RMG-Input-GCA/GCInput.hpp:109-112 | For a threshold ≥ 0, an axis at raw 128 activates neither of its directions. |
| ClassifierProperties.FullThresholdCStick | Source/RMG-Input-GCA/GCInput.hpp:109-112 | At threshold 127 (a fraction of 1) CStickUp and CStickRight can never be active, while CStickDown and CStickLeft are active exactly at raw 0: the strict comparisons against ±127 are lopsided on the -128..127 range. |
| ClassifierProperties.ZeroReportActivity | Source/RMG-Input-GCA/GCInput.hpp:90-112 | In the all-zero report, with trigger threshold ≥ 0 and C-stick threshold in 0..127, an input is active exactly when it is CStickDown or CStickLeft. |
| ClassifierProperties.ZeroReportDetectedAsCStickDown | Source/RMG-Input-GCA/GCInput.hpp:117-152 | For any trigger threshold and any C-stick threshold in 0..127, going from a neutral state to the all-zero report is detected as `CStickDown`. |
| ClassifierProperties.DetectSameStateIsNone | Source/RMG-Input-GCA/GCInput.hpp:117-152 | Detection between a state and itself returns `None`. |
| ClassifierProperties.DetectNoneIffNothingRises | Source/RMG-Input-GCA/GCInput.hpp:123-151 | Detection returns `None` exactly when no real input rises. |
| ClassifierProperties.DetectPrefersEarlier | Source/RMG-Input-GCA/GCInput.hpp:123-151 | When an input rises, no input later in declaration order is reported. |
| ClassifierProperties.PressAExample | Source/RMG-Input-GCA/GCInput.hpp:123 | Pressing only A from neutral is detected as A, for any pair of thresholds. |
| ClassifierProperties.PressAAndStartExample | Source/RMG-Input-GCA/GCInput.hpp:123-128 | Pressing A and Start in the same poll is detected as A, for any pair of thresholds. |
| ClassifierProperties.RightTriggerExample | Source/RMG-Input-GCA/GCInput.hpp:117-138 | With fraction 0.5, moving the right trigger from 0 to 63 is not detected, and moving it to 64 is detected as RightTrigger. |
| ClassifierProperties.CStickUpExample | Source/RMG-Input-GCA/GCInput.hpp:141-146 | With fraction 0.5, moving the C-stick Y axis from 128 to 220 is detected as CStickUp. |

## Left out

- `GCA_StartConfigPolling`, `GCA_StopConfigPolling` and `GCA_GetControllerState`: USB polling and locking plumbing whose bodies are not part of this model. A snapshot enters the model as a parameter.
- The configuration dialog (`UserInterface/MainDialog.hpp`): a Qt widget with sliders, a poll timer and settings persistence. It declares methods only, such as `clearDuplicateMapping`. The mapping is modelled only as the `GCButtonMapping` record and its defaults.
- Classifier.ScaledThreshold: computes `127 * t` over exact reals rather than IEEE doubles. It also does not model the undefined behaviour of casting an out-of-range double to `int`. For a t whose double product lies just below an integer the two can differ in the last step.
- Classifier.IsActive: the C++ `default` branch also covers integers cast to `GCInput` outside the enumerators. A closed Dafny datatype cannot hold such values, so only `None` and `Count` reach that branch here.
- Adapter.Decode: the bit layout of the two button bytes is assumed least significant bit first. The C++ bitfield allocation order is implementation-defined and is not derived from a compiler.
- Adapter.Decode: the decoded state keeps the flags of the second button byte, not the byte itself, so its reserved high nibble is dropped (`EncodeDecode`).
- The left stick axes are decoded but not used by any classifier function; the source does not use them either.
