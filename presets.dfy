/** The static lookup tables the estimator reads, with the fallbacks used for unknown keys. */
module Presets {
  import opened Wrappers

  // ---------------------------------------------------------------------------
  // Byte widths and per-dtype overheads
  // ---------------------------------------------------------------------------

  /** Bytes per stored weight element, by weight dtype. */
  const WEIGHT_DTYPE_BYTES: map<string, real> :=
    map["int4" := 0.5, "int8" := 1.0, "int16" := 2.0, "fp16" := 2.0, "fp32" := 4.0]

  /** Bytes per stored KV-cache element, by KV dtype. */
  const KV_DTYPE_BYTES: map<string, real> :=
    map["fp32" := 4.0, "fp16" := 2.0, "bf16" := 2.0, "fp8" := 1.0, "int8" := 1.0, "int4" := 0.5]

  /** Packing/accuracy multiplier applied to KV value bytes, by KV dtype. */
  const KV_DTYPE_OVERHEAD: map<string, real> :=
    map["fp32" := 1.0, "fp16" := 1.0, "bf16" := 1.0, "fp8" := 1.05, "int8" := 1.1, "int4" := 1.25]

  /** `WEIGHT_DTYPE_BYTES[dtype] ?? 2`: an unknown dtype counts as two bytes. */
  function WeightDtypeBytes(dtype: string): (b: real)
    ensures dtype in WEIGHT_DTYPE_BYTES ==> b == WEIGHT_DTYPE_BYTES[dtype]
    ensures dtype !in WEIGHT_DTYPE_BYTES ==> b == 2.0
    ensures 0.5 <= b <= 4.0
  {
    if dtype in WEIGHT_DTYPE_BYTES then WEIGHT_DTYPE_BYTES[dtype] else 2.0
  }

  /** `KV_DTYPE_BYTES[dtype] ?? 2`: an unknown dtype counts as two bytes. */
  function KvDtypeBytes(dtype: string): (b: real)
    ensures dtype in KV_DTYPE_BYTES ==> b == KV_DTYPE_BYTES[dtype]
    ensures dtype !in KV_DTYPE_BYTES ==> b == 2.0
    ensures 0.5 <= b <= 4.0
  {
    if dtype in KV_DTYPE_BYTES then KV_DTYPE_BYTES[dtype] else 2.0
  }

  /** `KV_DTYPE_OVERHEAD[dtype] ?? 1.0`: an unknown dtype has no overhead. */
  function KvDtypeOverhead(dtype: string): (m: real)
    ensures dtype in KV_DTYPE_OVERHEAD ==> m == KV_DTYPE_OVERHEAD[dtype]
    ensures dtype !in KV_DTYPE_OVERHEAD ==> m == 1.0
    ensures m >= 1.0
    ensures dtype in {"fp32", "fp16", "bf16"} ==> m == 1.0
  {
    if dtype in KV_DTYPE_OVERHEAD then KV_DTYPE_OVERHEAD[dtype] else 1.0
  }

  /** The weight table holds exactly the five documented widths. */
  lemma WeightDtypeTable()
    ensures WEIGHT_DTYPE_BYTES.Keys == {"int4", "int8", "int16", "fp16", "fp32"}
    ensures WeightDtypeBytes("int4") == 0.5 && WeightDtypeBytes("int8") == 1.0
    ensures WeightDtypeBytes("int16") == 2.0 && WeightDtypeBytes("fp16") == 2.0
    ensures WeightDtypeBytes("fp32") == 4.0
  {
  }

  /** The KV table holds exactly the six documented widths, all within [0.5, 4]. */
  lemma KvDtypeTable()
    ensures KV_DTYPE_BYTES.Keys == {"fp32", "fp16", "bf16", "fp8", "int8", "int4"}
    ensures KvDtypeBytes("fp32") == 4.0 && KvDtypeBytes("fp16") == 2.0 && KvDtypeBytes("bf16") == 2.0
    ensures KvDtypeBytes("fp8") == 1.0 && KvDtypeBytes("int8") == 1.0 && KvDtypeBytes("int4") == 0.5
    ensures forall k :: k in KV_DTYPE_BYTES ==> 0.5 <= KV_DTYPE_BYTES[k] <= 4.0
  {
  }

  /** Every KV overhead multiplier is at least one, and the float dtypes have exactly one. */
  lemma KvOverheadTable()
    ensures KV_DTYPE_OVERHEAD.Keys == KV_DTYPE_BYTES.Keys
    ensures forall k :: k in KV_DTYPE_OVERHEAD ==> KV_DTYPE_OVERHEAD[k] >= 1.0
    ensures KvDtypeOverhead("fp8") == 1.05 && KvDtypeOverhead("int8") == 1.1
    ensures KvDtypeOverhead("int4") == 1.25
  {
  }

  // ---------------------------------------------------------------------------
  // Context lengths offered by the scaling table
  // ---------------------------------------------------------------------------

  const DEFAULT_CONTEXT_OPTIONS: seq<real> :=
    [1024.0, 2048.0, 4096.0, 8192.0, 16384.0, 32768.0, 65536.0, 128000.0]

  /** Strictly increasing from 1024 to 128000. */
  lemma ContextOptionsIncreasing()
    ensures |DEFAULT_CONTEXT_OPTIONS| == 8
    ensures DEFAULT_CONTEXT_OPTIONS[0] == 1024.0
    ensures DEFAULT_CONTEXT_OPTIONS[|DEFAULT_CONTEXT_OPTIONS| - 1] == 128000.0
    ensures forall i, j :: 0 <= i < j < |DEFAULT_CONTEXT_OPTIONS| ==>
      DEFAULT_CONTEXT_OPTIONS[i] < DEFAULT_CONTEXT_OPTIONS[j]
  {
  }

  // ---------------------------------------------------------------------------
  // Model shapes and hardware bandwidths (labels are display text and are dropped)
  // ---------------------------------------------------------------------------

  datatype ModelPreset = ModelPreset(id: string, paramsB: real, layers: real, hidden: real, heads: real, kvHeads: real)

  const MODEL_PRESETS: seq<ModelPreset> := [
    ModelPreset("7b", 7.0, 32.0, 4096.0, 32.0, 32.0),
    ModelPreset("10b", 10.0, 40.0, 4608.0, 36.0, 36.0),
    ModelPreset("13b", 13.0, 40.0, 5120.0, 40.0, 40.0),
    ModelPreset("15b", 15.0, 48.0, 6144.0, 48.0, 48.0),
    ModelPreset("30b", 30.0, 60.0, 6656.0, 52.0, 52.0)
  ]

  /** Every model preset is a full-KV (no grouped-query) shape with head dimension 128, and ids are unique. */
  lemma ModelPresetsWellShaped()
    ensures forall i :: 0 <= i < |MODEL_PRESETS| ==>
      MODEL_PRESETS[i].kvHeads == MODEL_PRESETS[i].heads >= 1.0 &&
      MODEL_PRESETS[i].hidden == 128.0 * MODEL_PRESETS[i].heads &&
      MODEL_PRESETS[i].paramsB > 0.0
    ensures forall i, j :: 0 <= i < j < |MODEL_PRESETS| ==> MODEL_PRESETS[i].id != MODEL_PRESETS[j].id
  {
  }

  datatype HardwarePreset = HardwarePreset(id: string, bandwidthGBs: real)

  const HARDWARE_PRESETS: seq<HardwarePreset> := [
    HardwarePreset("ddr4-3200-2ch", 51.0),
    HardwarePreset("ddr5-5600-2ch", 90.0),
    HardwarePreset("lpddr5-6400", 51.0),
    HardwarePreset("lpddr5x-8533", 68.0),
    HardwarePreset("hbm2e", 800.0),
    HardwarePreset("manual", 75.0)
  ]

  /** Every hardware preset has positive bandwidth, and ids are unique. */
  lemma HardwarePresetsValid()
    ensures forall i :: 0 <= i < |HARDWARE_PRESETS| ==> HARDWARE_PRESETS[i].bandwidthGBs > 0.0
    ensures forall i, j :: 0 <= i < j < |HARDWARE_PRESETS| ==> HARDWARE_PRESETS[i].id != HARDWARE_PRESETS[j].id
  {
  }

  // ---------------------------------------------------------------------------
  // KV quantization schemes
  // ---------------------------------------------------------------------------

  datatype KvQuantScheme = KvQuantScheme(id: string, bytesPerElemMul: real, metaPerGroupBytes: real)

  const KV_QUANT_SCHEMES: seq<KvQuantScheme> := [
    KvQuantScheme("none", 1.0, 0.0),
    KvQuantScheme("int8-group", 1.0, 2.0),
    KvQuantScheme("int4-group", 1.0, 2.0)
  ]

  /** The index of the first scheme in `schemes[from..]` whose id is `id` (`Array.prototype.find`). */
  function FindSchemeFrom(schemes: seq<KvQuantScheme>, id: string, from: nat): (k: Option<nat>)
    requires from <= |schemes|
    decreases |schemes| - from
    ensures k.Some? ==> from <= k.value < |schemes| && schemes[k.value].id == id
    ensures k.Some? ==> forall j :: from <= j < k.value ==> schemes[j].id != id
    ensures k.None? <==> forall j :: from <= j < |schemes| ==> schemes[j].id != id
  {
    if from == |schemes| then None
    else if schemes[from].id == id then Some(from)
    else FindSchemeFrom(schemes, id, from + 1)
  }

  /** `KV_QUANT_SCHEMES.find(s => s.id === id) ?? KV_QUANT_SCHEMES[0]`. */
  function LookupScheme(id: string): (s: KvQuantScheme)
    ensures s in KV_QUANT_SCHEMES
    ensures (exists j :: 0 <= j < |KV_QUANT_SCHEMES| && KV_QUANT_SCHEMES[j].id == id) ==> s.id == id
    ensures (forall j :: 0 <= j < |KV_QUANT_SCHEMES| ==> KV_QUANT_SCHEMES[j].id != id) ==> s == KV_QUANT_SCHEMES[0]
  {
    match FindSchemeFrom(KV_QUANT_SCHEMES, id, 0)
    case Some(k) => KV_QUANT_SCHEMES[k]
    case None => KV_QUANT_SCHEMES[0]
  }

  /** The first scheme is the raw one; every scheme leaves element bytes unchanged and costs 0 or 2 bytes per group. */
  lemma QuantSchemesShape()
    ensures KV_QUANT_SCHEMES[0] == KvQuantScheme("none", 1.0, 0.0)
    ensures forall i :: 0 <= i < |KV_QUANT_SCHEMES| ==>
      KV_QUANT_SCHEMES[i].bytesPerElemMul == 1.0 &&
      KV_QUANT_SCHEMES[i].metaPerGroupBytes in {0.0, 2.0} &&
      (KV_QUANT_SCHEMES[i].metaPerGroupBytes == 0.0 <==> KV_QUANT_SCHEMES[i].id == "none")
  {
  }

  /** Whatever id is asked for, the scheme found has multiplier 1, and it has metadata exactly when it is not "none". */
  lemma {:induction false} LookupSchemeFields(id: string)
    ensures LookupScheme(id).bytesPerElemMul == 1.0
    ensures LookupScheme(id).id == "none" ==> LookupScheme(id).metaPerGroupBytes == 0.0
    ensures LookupScheme(id).id != "none" ==> LookupScheme(id).metaPerGroupBytes == 2.0
    ensures id !in {"int8-group", "int4-group"} ==> LookupScheme(id) == KV_QUANT_SCHEMES[0]
  {
    var s := LookupScheme(id);
    QuantSchemesShape();
    var k :| 0 <= k < |KV_QUANT_SCHEMES| && KV_QUANT_SCHEMES[k] == s;
    if id !in {"int8-group", "int4-group"} && id != "none" {
      assert forall j :: 0 <= j < |KV_QUANT_SCHEMES| ==> KV_QUANT_SCHEMES[j].id != id;
    }
  }

  // ---------------------------------------------------------------------------
  // Inference-engine realism bundles (labels and descriptions are dropped)
  // ---------------------------------------------------------------------------

  datatype EnginePreset = EnginePreset(
    id: string,
    kvSchemeId: string,
    kvGroupSize: real,
    kvAlignment: real,
    kvCopiesFactorPct: real,
    kvExtraOverheadPct: real,
    kvDtype: Option<string>)

  const ENGINE_PRESETS: seq<EnginePreset> := [
    EnginePreset("naive", "none", 64.0, 0.0, 0.0, 0.0, None),
    EnginePreset("llamacpp", "none", 64.0, 128.0, 8.0, 3.0, None),
    EnginePreset("vllm", "none", 64.0, 256.0, 22.0, 8.0, None),
    EnginePreset("trtllm", "none", 64.0, 256.0, 12.0, 5.0, None),
    EnginePreset("kv-int8", "int8-group", 64.0, 256.0, 15.0, 8.0, Some("int8")),
    EnginePreset("kv-int4", "int4-group", 64.0, 256.0, 18.0, 10.0, Some("int4"))
  ]

  /** Every engine bundle has a usable group size, non-negative alignment and percentages, a known scheme,
      a known KV dtype when it names one, and the "naive" bundle switches all realism off. */
  lemma EnginePresetsValid()
    ensures forall i :: 0 <= i < |ENGINE_PRESETS| ==>
      ENGINE_PRESETS[i].kvGroupSize >= 1.0 &&
      ENGINE_PRESETS[i].kvAlignment >= 0.0 &&
      ENGINE_PRESETS[i].kvCopiesFactorPct >= 0.0 &&
      ENGINE_PRESETS[i].kvExtraOverheadPct >= 0.0 &&
      LookupScheme(ENGINE_PRESETS[i].kvSchemeId).id == ENGINE_PRESETS[i].kvSchemeId &&
      (ENGINE_PRESETS[i].kvDtype.Some? ==> ENGINE_PRESETS[i].kvDtype.value in KV_DTYPE_BYTES)
    ensures ENGINE_PRESETS[0].id == "naive" && ENGINE_PRESETS[0].kvSchemeId == "none"
    ensures ENGINE_PRESETS[0].kvAlignment == 0.0 && ENGINE_PRESETS[0].kvCopiesFactorPct == 0.0
    ensures ENGINE_PRESETS[0].kvExtraOverheadPct == 0.0
  {
    forall i | 0 <= i < |ENGINE_PRESETS|
      ensures LookupScheme(ENGINE_PRESETS[i].kvSchemeId).id == ENGINE_PRESETS[i].kvSchemeId
    {
      var id := ENGINE_PRESETS[i].kvSchemeId;
      assert id in {"none", "int8-group", "int4-group"};
      if id == "none" { assert KV_QUANT_SCHEMES[0].id == id; }
      else if id == "int8-group" { assert KV_QUANT_SCHEMES[1].id == id; }
      else { assert KV_QUANT_SCHEMES[2].id == id; }
    }
  }

  /** No two engine bundles share an id, so a lookup by id is unambiguous. */
  lemma EnginePresetIdsDistinct()
    ensures forall i, j :: 0 <= i < j < |ENGINE_PRESETS| ==> ENGINE_PRESETS[i].id != ENGINE_PRESETS[j].id
  {
  }
}
