# LLM hardware calculator: the estimation engine in Dafny

The calculator takes a model shape and some hardware parameters and estimates three things:

- whether the model fits in RAM;
- how fast it can decode, as a compute ceiling and a memory-bandwidth ceiling;
- whether a claim such as "128k context at 20 tokens per second on this box" is plausible.

This project models the engine behind those answers and proves its laws. It covers:

- the pure estimator functions of `src/lib/math.js`;
- the lookup tables of `src/lib/presets.js`, with the fallbacks used for unknown keys;
- the decision layer inside `src/App.jsx`: the first-match verdict, the live estimate with its flag list built by `push`, and the table over the default context lengths;
- the saved-profile list, with its capped prepend on save and its filter on delete.

Every JavaScript number is an exact `real`. `Math.ceil` is `-((-x).Floor)`.

Modules, one per part of the program:

- `Wrappers`: the `Option` type, for lookups that may miss and for a cancelled name prompt.
- `Presets` (`presets.dfy`): the dtype byte widths, KV packing overheads, context options, model, hardware and engine presets, and the KV quantization schemes. Table lookups fall back as `?? 2`, `?? 1.0` and `?? KV_QUANT_SCHEMES[0]` do.
- `EstimatorMath` (`estimator.dfy`): `bytesToGiB`, `clamp`, `weightsBytes`, the naive and the staged KV cost per token, `effectiveKvTokens`, and both throughput ceilings. The staged estimator is a record of its intermediates (`KvStages`), so each stage's law is stated on its own stage.
- `App` (`app.dfy`): every setting the estimate reads, as one `Config` record. It holds the verdict (`Classify`), the five flags as an enumeration together with their reference definition (`SelectFlags` over `ALL_FLAGS`), and the imperative `CollectFlags`, proved equal to that definition. It also holds the per-context pipeline (`Measure`), the live estimate (`Estimate`) and the scaling table (`ContextTable`).
- `Profiles` (`profiles.dfy`): a `ProfileList` class whose `profiles` field `Save` and `Delete` reassign. `Prepended` and `WithoutId` are the functions that specify those two methods.

## Model

| member | source | states |
|---|---|---|
| Presets.WeightDtypeBytes | src/lib/math.js:29 | a known weight dtype gets its table width; an unknown one gets 2 bytes, never an error; the width always lies in [0.5, 4] |
| Presets.KvDtypeBytes | src/lib/math.js:23 | a known KV dtype gets its table width; an unknown one gets 2 bytes; the width always lies in [0.5, 4] |
| Presets.KvDtypeOverhead | src/lib/math.js:57 | a known KV dtype gets its table multiplier; an unknown one gets 1.0; the multiplier is at least 1, and exactly 1 for fp32, fp16 and bf16 |
| Presets.WeightDtypeTable | src/lib/presets.js:1-7 | the weight table has exactly the keys int4, int8, int16, fp16 and fp32, with widths 0.5, 1, 2, 2 and 4 |
| Presets.KvDtypeTable | src/lib/presets.js:9-16 | the KV table has exactly six keys: fp32 is 4, fp16 and bf16 are 2, fp8 and int8 are 1, int4 is 0.5; every value lies in [0.5, 4] |
| Presets.KvOverheadTable | src/lib/presets.js:18-25 | the overhead table has the same keys as the KV table; every multiplier is at least 1; fp8 is 1.05, int8 is 1.1, int4 is 1.25 |
| Presets.ContextOptionsIncreasing | src/lib/presets.js:27-30 | eight context lengths, strictly increasing, from 1024 to 128000 |
| Presets.ModelPresetsWellShaped | src/lib/presets.js:33-39 | every model preset has kvHeads = heads ≥ 1, hidden = 128·heads and a positive size; ids are unique |
| Presets.HardwarePresetsValid | src/lib/presets.js:42-49 | every hardware preset has positive bandwidth; ids are unique |
| Presets.FindSchemeFrom | src/lib/math.js:54 | `find` returns the first index whose id matches, and nothing exactly when no entry matches |
| Presets.LookupScheme | src/lib/math.js:54 | the scheme comes from the table; a matching id is found; an id with no match falls back to the first ("none") scheme |
| Presets.QuantSchemesShape | src/lib/presets.js:84-90 | the first scheme is ("none", 1.0, 0); every scheme has multiplier 1.0 and metadata 0 or 2, and 0 exactly for "none" |
| Presets.LookupSchemeFields | src/lib/presets.js:84-90 | whatever id is asked for, the scheme found has multiplier 1; it has 0 metadata bytes when it is "none" and 2 otherwise; an unknown id gets the raw scheme |
| Presets.EnginePresetsValid | src/lib/presets.js:92-155 | every engine preset has group size ≥ 1, alignment ≥ 0, non-negative percentages and an existing scheme id, and any KV dtype it names is a known one; the "naive" preset uses scheme "none" and zero alignment, copies and overhead |
| Presets.EnginePresetIdsDistinct | src/lib/presets.js:92-155 | engine preset ids are unique |
| EstimatorMath.Ceil | src/lib/math.js:62 | `Math.ceil`: the least integer at or above x |
| EstimatorMath.BytesToGiB | src/lib/math.js:8-10 | the result times 1024³ is the byte count; non-negative bytes give non-negative GiB |
| EstimatorMath.BytesToGiBMonotone | src/lib/math.js:8-10 | the conversion preserves order |
| EstimatorMath.BytesToGiBAdditive | src/lib/math.js:8-10 | the conversion is additive, which is why totalGiB splits into weights plus KV |
| EstimatorMath.Clamp | src/lib/math.js:12-14 | the result is never below min; it is never above max when min ≤ max; it is n inside the range, min below it and max above it |
| EstimatorMath.WeightsBytes | src/lib/math.js:27-33 | the weight bytes are paramsB·1e9·b·(1 + pct/100), with b = 2 for an unknown dtype |
| EstimatorMath.WeightsBytesBounds | src/lib/math.js:27-33 | for a non-negative parameter count, a non-negative overhead never gives less than the raw size, and a positive count with overhead above −100% gives a positive size |
| EstimatorMath.WeightsScenario | src/lib/math.js:27-33 | 7B in int4 with 20% overhead is 4.2e9 bytes; an unknown dtype counts 2 bytes per parameter |
| EstimatorMath.KvBytesPerToken | src/lib/math.js:21-25 | the result times heads equals 2·layers·hidden·kvHeads·b; with kvHeads = heads it is 2·layers·hidden·b |
| EstimatorMath.KvBytesPerTokenNonNegative | src/lib/math.js:21-25 | a non-negative shape with positive heads has a non-negative KV cost |
| EstimatorMath.KvBytesPerTokenScenario | src/lib/math.js:21-25 | a 32-layer, 4096-wide, 32-head fp16 shape costs 524288 bytes per token |
| EstimatorMath.ElemsPerToken | src/lib/math.js:49-50 | with the head counts at least 1, the element count times heads is 2·layers·hidden·kvHeads; it is non-negative for a non-negative shape |
| EstimatorMath.ValueBytesBounds | src/lib/math.js:57-58 | for non-negative elements, the packing overhead together with a scheme multiplier of at least 1 never gives less than elements × dtype width; a non-negative multiplier gives non-negative value bytes |
| EstimatorMath.GroupCount | src/lib/math.js:62 | the groups, each of max(1, groupSize) elements, hold every element, and one group fewer would not |
| EstimatorMath.MetaBytes | src/lib/math.js:62-63 | the metadata is the group count times the per-group bytes; it is zero when a scheme has no per-group bytes, and non-negative when the element count and the per-group bytes are |
| EstimatorMath.AlignUp | src/lib/math.js:67 | with a positive alignment the result is a whole multiple of it and lies in [raw, raw + alignment); otherwise it is raw |
| EstimatorMath.WithCopies | src/lib/math.js:70 | the copies factor never shrinks a non-negative size; a factor up to 1 has no effect; a factor of at least 1 multiplies |
| EstimatorMath.WithOverhead | src/lib/math.js:73 | a non-negative percentage never shrinks a non-negative size; zero has no effect |
| EstimatorMath.CeilDivLaw | src/lib/math.js:67 | for a positive divisor d, c = ceil(x/d) gives x ≤ c·d < x + d |
| EstimatorMath.Stages | src/lib/math.js:35-76 | the elements come from the guarded shape; an unknown scheme id falls back to "none"; the value bytes count every element at its dtype width and packing overhead; there is no metadata for "none" and 2 bytes per rounded-up group otherwise; raw = value + metadata |
| EstimatorMath.StagesGroupLaw | src/lib/math.js:62 | the staged group count holds every element and has no spare group |
| EstimatorMath.StagesAlignmentLaw | src/lib/math.js:66-67 | with a positive alignment the aligned size is a whole multiple of it and lies in [raw, raw + alignment); otherwise it equals raw |
| EstimatorMath.StagesTailLaw | src/lib/math.js:70-73 | copies never shrink a non-negative aligned size, and a factor ≤ 1 does nothing; a non-negative overhead never shrinks a non-negative size, and zero does nothing |
| EstimatorMath.StagesRawLaw | src/lib/math.js:56-66 | for a non-negative shape the raw bytes are never below the value bytes, which are non-negative; the raw scheme, which any id other than the two group schemes falls back to, adds no metadata |
| EstimatorMath.KvBytesPerTokenRealistic | src/lib/math.js:35-76 | for a non-negative shape and block overhead the estimate is never below the raw bytes, nor these below elements × width × packing overhead; with a positive alignment and no copies or block overhead it is a whole number of alignment steps; with the raw scheme, no alignment, no copies and no block overhead it is exactly elements × width × packing overhead |
| EstimatorMath.ValueBytesDominateNaive | src/lib/math.js:56-58 | for a non-negative shape with at least one head and one KV head, the packing overhead only adds to the naive per-token cost |
| EstimatorMath.NaiveIsElemsTimesBytes | src/lib/math.js:49-52 | with at least one head and one KV head the `Math.max(1, ·)` guards change nothing: the naive cost is the element count times the dtype width |
| EstimatorMath.RealisticDominatesNaive | src/lib/math.js:35-76 | for a non-negative shape with at least one head and one KV head, and a non-negative overhead, the realistic estimate is never below the naive one |
| EstimatorMath.RealisticMatchesNaiveWithoutRealism | src/lib/presets.js:93-102 | for a shape with at least one head and one KV head and a KV dtype without packing overhead, the "naive" engine preset's own numbers give exactly the naive formula |
| EstimatorMath.DefaultRealismScenario | src/lib/math.js:41-45 | with the default parameters a 7B fp16 shape is already 256-aligned, so only the 1.10 copies factor applies: 576716.8 bytes |
| EstimatorMath.EffectiveKvTokens | src/lib/math.js:84-87 | without the window the result is the context; with it, the result is the context or the window, at most the window; it is never above the context |
| EstimatorMath.EffectiveKvTokensIdempotent | src/lib/math.js:84-87 | applying the window to its own result changes nothing |
| EstimatorMath.EffectiveKvTokensWindow | src/lib/math.js:84-87 | a window at least as large as the context keeps the context; a smaller one keeps exactly the window |
| EstimatorMath.EffectiveKvTokensMonotone | src/lib/math.js:84-87 | a longer context never keeps fewer tokens |
| EstimatorMath.TokPerSecCompute | src/lib/math.js:94-100 | 0 for a non-positive parameter count; otherwise the rate times 2·paramsB·1e9 equals tops·utilization·1e12 |
| EstimatorMath.TokPerSecBandwidth | src/lib/math.js:106-121 | 0 when the bytes read per token are ≤ 0; otherwise the rate times those bytes equals bandwidthGBs·1024³ |
| EstimatorMath.TokPerSecBandwidthAntitone | src/lib/math.js:106-121 | with non-negative bandwidth and KV read cost, and something read per token at the smaller count, more live KV tokens never raise the bandwidth ceiling |
| EstimatorMath.BandwidthScenario | src/lib/math.js:106-121 | 90 GB/s against 4.2e9 weight bytes plus 8192 tokens of 512 KiB gives between 11.37 and 11.38 tokens per second |
| App.Classify | src/App.jsx:42-53 | "bad" exactly when total > 0.92·RAM, whatever else holds; "needs tricks" exactly when memory is fine and the context ≥ 128000, the model ≥ 15B, the live KV ≥ 128000 and the speed ≥ 20 tok/s; "plausible" exactly when memory is fine, the speed is ≥ 20 and the previous rule does not fire; "loads but slow" exactly when memory is fine and the speed is < 20 |
| App.ClassifyScenario | src/App.jsx:43-49 | 40 GiB on a 32 GiB machine is refused whatever the speed |
| App.SelectFlagsMembers | src/App.jsx:204-209 | the selected flags are exactly the listed flags whose condition holds |
| App.SelectFlagsLength | src/App.jsx:204-209 | selection never lengthens the list |
| App.SelectFlagsOrder | src/App.jsx:204-209 | selection keeps the list's order |
| App.FlagsFacts | src/App.jsx:204-209 | each of the five flags appears exactly when its condition holds, in the fixed order, at most five of them, and "fits in RAM but slow" never comes with "RAM insufficient" |
| App.RamFlagImpliesBadVerdict | src/App.jsx:202-209 | on a machine with non-negative RAM, a "RAM insufficient" flag always comes with a "bad" verdict |
| App.HeadroomGapExample | src/App.jsx:202-208 | the verdict keeps 8% headroom but the flags use the whole RAM: 30 GiB on 32 GiB at 10 tok/s is refused while also being flagged as fitting in RAM |
| App.FlagsInSequence | src/App.jsx:204-209 | the reference flag list is the five conditions tested one after another, in display order |
| App.CollectFlags | src/App.jsx:204-209 | the list built by the five conditional pushes is the reference flag list |
| App.Measure | src/App.jsx:175-200 | the live KV tokens come from the window rule; total = weights + KV + runtime overhead in GiB; the final speed is the smaller of the two ceilings, equal to one of them |
| App.KvBytesMonotoneInContext | src/App.jsx:179 | for a sane configuration a longer context never shrinks the KV bytes |
| App.KvGiBMonotoneInContext | src/App.jsx:183 | for a sane configuration a longer context never shrinks the KV GiB |
| App.TokSecBandwidthAntitoneInContext | src/App.jsx:191-198 | for a sane configuration a longer context never raises the bandwidth ceiling |
| App.MeasureMonotoneInContext | src/App.jsx:175-200 | for a sane configuration a longer context never shrinks the KV or total GiB, never raises the bandwidth ceiling or the final speed, and leaves the compute ceiling alone; this holds with the window on or off |
| App.Estimate | src/App.jsx:175-222 | the live estimate reports the pipeline at the configured context, with KV per token in MiB; total = weights + KV + runtime; the final speed is the smaller ceiling; the verdict is `Classify` of those numbers; the flags are the reference list: each present exactly when its condition holds, at most five, in display order |
| App.ContextTable | src/App.jsx:233-262 | one row per default context length, in the same order, each row carrying its context and the pipeline at that context, with the final speed the smaller ceiling |
| App.MeasureIgnoresLiveContext | src/App.jsx:233-262 | the pipeline at a given context reads neither the live context nor the RAM size |
| App.ContextTableIgnoresLiveContext | src/App.jsx:233-262 | the table depends neither on the live context nor on the RAM size |
| App.ContextTableMonotone | src/App.jsx:233-262 | for a sane configuration, going down the table the KV and total GiB never shrink and the bandwidth ceiling and final speed never rise |
| Profiles.Prepended | src/App.jsx:284 | the new profile comes first and the old ones follow in order; the length is the old length plus one, capped at 20 |
| Profiles.PrependedDropsOldest | src/App.jsx:284 | below the cap nothing is dropped; at the cap exactly the oldest entries fall off the end |
| Profiles.WithoutIdMembers | src/App.jsx:296 | exactly the profiles with a different id remain |
| Profiles.WithoutIdCounts | src/App.jsx:296 | every profile with a different id remains as many times as it was there, and none with this id remain |
| Profiles.WithoutIdNoMatch | src/App.jsx:296 | deleting never lengthens the list, and deleting an id nobody has changes nothing |
| Profiles.WithoutIdAppend | src/App.jsx:296 | filtering distributes over concatenation, so the remaining profiles keep their order |
| Profiles.WithoutIdIdempotent | src/App.jsx:296 | deleting an id twice is the same as deleting it once |
| Profiles.DeleteUndoesSave | src/App.jsx:273-299 | deleting a profile just saved under a fresh id restores the list, when the save pushed nothing off the end |
| Profiles.ProfileList.constructor | src/App.jsx:123 | the list starts as whatever was loaded |
| Profiles.ProfileList.Save | src/App.jsx:273-287 | a cancelled or empty name leaves the list alone; otherwise the list becomes the capped prepend of a profile with the given id, the name, RAM, bandwidth, the fixed note and the timestamp |
| Profiles.ProfileList.Delete | src/App.jsx:295-299 | the list becomes its filter by id: exactly the entries with a different id remain |

## Left out

- JSX rendering, the charts, `BADGE_INFO`, tooltips and the `fmt`/`GiB` string formatting are presentation only.
- The verdict texts and flag messages are display strings. Verdicts and flags are enumerations here; the verdict keeps its tone.
- IEEE-754 doubles are not modelled: no rounding, NaN, Infinity or overflow. All arithmetic is exact over the reals.
- EstimatorMath.KvBytesPerToken: requires heads ≠ 0, because JavaScript's `hidden / 0` gives Infinity or NaN, which reals cannot represent. The helpers `App.KvBytesAt`, `App.KvGiBAt`, `App.TokSecBandwidthAt` and `App.Row` carry the same precondition.
- App.Measure: requires heads ≠ 0, inherited from `EstimatorMath.KvBytesPerToken`; a zero head count, for which the page would show Infinity or NaN, is not modelled.
- App.Estimate: requires heads ≠ 0, inherited from `App.Measure`; the live estimate for a zero head count is not modelled.
- App.ContextTable: requires heads ≠ 0, inherited from `App.Row`; the table for a zero head count is not modelled.
- `prompt`, `crypto.randomUUID()` and `new Date().toISOString()` are I/O. The name, the id and the timestamp are parameters of `Save`; a cancelled prompt is `None`.
- `src/lib/storage.js` (loading and saving the list in `localStorage`) is not part of this model. The constructor takes the loaded list, and the write-back after save and delete is omitted.
- `applyProfile` and the preset-selection handlers of `src/App.jsx` (copying a preset's fields into the form) only set UI state. React's `useState`/`useMemo` plumbing is replaced by the explicit `Config` record.
- `IMPOSSIBLE_TRICKS` and every preset label and description are display text.
- `kvBytesPerTokenRealistic` has no caller in `src/App.jsx`, which uses only the naive formula. It is modelled and proved on its own.
- `ENGINE_PRESETS` stores `kvCopiesFactorPct`, a percentage, while `kvBytesPerTokenRealistic` takes `copiesFactor`, a multiplier. No code calls the estimator with a preset. `RealisticMatchesNaiveWithoutRealism` feeds the "naive" bundle's fields in directly. That bundle's value is 0, and `Math.max(1.0, ·)` turns 0 into 1, just as a 0% percentage gives a factor of 1. So the lemma holds under either reading.
- EstimatorMath.StagesTailLaw: "copies never shrink the size" is stated only for a non-negative aligned size, because multiplying a negative size by a factor above 1 makes it smaller. A non-negative shape always gives a non-negative aligned size.
- App.ContextTableMonotone: assumes a sane configuration (non-negative shape, overheads, bandwidth and read factors, a positive model size and weights read factor), because with negative inputs the curve need not be monotone. The statement holds with the sliding window on as well as off.
- EstimatorMath.RealisticDominatesNaive: assumes at least one head and one KV head, because below that the `Math.max(1, ·)` guards of the realistic formula make it differ from the unguarded naive one.
- Inherited keys of JavaScript objects (such as `toString`) are not modelled: every table lookup sees only the table's own keys.
- The `?? 1.0` and `?? 0` fallbacks on a scheme's fields, and the `?.` in `KV_DTYPE_OVERHEAD?.[...]`, can never fire, because every scheme defines both fields and the table always exists. The model reads the fields directly.
- `clamp` has no caller in the modelled core. It is modelled on its own.
