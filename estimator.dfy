/** The closed-form estimator: memory footprint of weights and KV cache, and the two throughput ceilings.
    JavaScript numbers are modelled as exact reals. */
module EstimatorMath {
  import opened Presets

  /** Bytes in one GiB (`1024 ** 3`). */
  const GIB: real := 1073741824.0
  /** One billion (`1e9`), the unit of `paramsB`. */
  const GIGA: real := 1000000000.0
  /** `1e12`, the unit of TOPS. */
  const TERA: real := 1000000000000.0

  // ---------------------------------------------------------------------------
  // Helpers: Math.max, Math.min, Math.ceil
  // ---------------------------------------------------------------------------

  function Max(a: real, b: real): (r: real)
    ensures r >= a && r >= b && (r == a || r == b)
  {
    if a >= b then a else b
  }

  function Min(a: real, b: real): (r: real)
    ensures r <= a && r <= b && (r == a || r == b)
  {
    if a <= b then a else b
  }

  /** `Math.ceil`, through the floor of the negation. */
  function Ceil(x: real): (c: int)
    ensures x <= c as real < x + 1.0
  {
    -((-x).Floor)
  }

  /** A real with no fractional part. */
  predicate IsIntegral(x: real) {
    x.Floor as real == x
  }

  // ---------------------------------------------------------------------------
  // Unit helpers
  // ---------------------------------------------------------------------------

  /** `bytes / 1024 ** 3`. */
  function BytesToGiB(bytes: real): (g: real)
    ensures g * GIB == bytes
    ensures bytes >= 0.0 ==> g >= 0.0
  {
    bytes / GIB
  }

  /** Conversion to GiB preserves order. */
  lemma BytesToGiBMonotone(a: real, b: real)
    requires a <= b
    ensures BytesToGiB(a) <= BytesToGiB(b)
  {
  }

  /** Conversion to GiB is additive, so sums of byte counts may be converted piecewise. */
  lemma BytesToGiBAdditive(a: real, b: real)
    ensures BytesToGiB(a + b) == BytesToGiB(a) + BytesToGiB(b)
  {
  }

  /** `Math.max(min, Math.min(max, n))`. */
  function Clamp(n: real, min: real, max: real): (r: real)
    ensures r >= min
    ensures min <= max ==> r <= max
    ensures min <= n <= max ==> r == n
    ensures n < min ==> r == min
    ensures min <= max < n ==> r == max
  {
    Max(min, Min(max, n))
  }

  // ---------------------------------------------------------------------------
  // Weights
  // ---------------------------------------------------------------------------

  /** Weight storage: raw bytes plus a percentage of quantization metadata on top. */
  function WeightsBytes(paramsB: real, weightDtype: string, quantOverheadPct: real): (r: real)
    ensures r == paramsB * GIGA * WeightDtypeBytes(weightDtype) * (1.0 + quantOverheadPct / 100.0)
    ensures weightDtype !in WEIGHT_DTYPE_BYTES ==> r == paramsB * GIGA * 2.0 * (1.0 + quantOverheadPct / 100.0)
  {
    var params := paramsB * GIGA;
    var b := WeightDtypeBytes(weightDtype);
    var raw := params * b;
    var overhead := raw * (quantOverheadPct / 100.0);
    raw + overhead
  }

  /** A non-negative overhead never makes the weights smaller than their raw size, and a
      positive parameter count with overhead above -100% gives a positive size. */
  lemma WeightsBytesBounds(paramsB: real, weightDtype: string, quantOverheadPct: real)
    requires paramsB >= 0.0
    ensures quantOverheadPct >= 0.0 ==>
      WeightsBytes(paramsB, weightDtype, quantOverheadPct) >= paramsB * GIGA * WeightDtypeBytes(weightDtype)
    ensures paramsB > 0.0 && quantOverheadPct > -100.0 ==> WeightsBytes(paramsB, weightDtype, quantOverheadPct) > 0.0
  {
    var raw := paramsB * GIGA * WeightDtypeBytes(weightDtype);
    assert raw >= 0.0;
    assert WeightsBytes(paramsB, weightDtype, quantOverheadPct) == raw * (1.0 + quantOverheadPct / 100.0);
    if paramsB > 0.0 {
      assert raw > 0.0;
    }
  }

  /** 7B parameters in int4 with 20% overhead take 4.2e9 bytes. */
  lemma WeightsScenario()
    ensures WeightsBytes(7.0, "int4", 20.0) == 4200000000.0
    ensures WeightsBytes(7.0, "no-such-dtype", 0.0) == 14000000000.0
  {
  }

  // ---------------------------------------------------------------------------
  // KV bytes per token, naive formula
  // ---------------------------------------------------------------------------

  /** The attention shape and KV dtype the KV estimators read. */
  datatype KvShape = KvShape(layers: real, hidden: real, heads: real, kvHeads: real, kvDtype: string)

  /** `2 * layers * (hidden / heads) * kvHeads * bytes`: one K and one V vector per layer and KV head. */
  function KvBytesPerToken(s: KvShape): (r: real)
    requires s.heads != 0.0
    ensures r * s.heads == 2.0 * s.layers * s.hidden * s.kvHeads * KvDtypeBytes(s.kvDtype)
    ensures s.kvHeads == s.heads ==> r == 2.0 * s.layers * s.hidden * KvDtypeBytes(s.kvDtype)
  {
    var headDim := s.hidden / s.heads;
    var b := KvDtypeBytes(s.kvDtype);
    2.0 * s.layers * headDim * s.kvHeads * b
  }

  /** With non-negative sizes and positive heads the naive per-token cost is non-negative. */
  lemma KvBytesPerTokenNonNegative(s: KvShape)
    requires s.layers >= 0.0 && s.hidden >= 0.0 && s.heads > 0.0 && s.kvHeads >= 0.0
    ensures KvBytesPerToken(s) >= 0.0
  {
    var headDim := s.hidden / s.heads;
    assert headDim >= 0.0;
    var x := 2.0 * s.layers * headDim;
    assert x >= 0.0;
    assert x * s.kvHeads >= 0.0;
  }

  /** A 7B Llama-like shape in fp16 costs 512 KiB of KV per token. */
  lemma KvBytesPerTokenScenario()
    ensures KvBytesPerToken(KvShape(32.0, 4096.0, 32.0, 32.0, "fp16")) == 524288.0
  {
  }

  // ---------------------------------------------------------------------------
  // KV bytes per token, realistic staged formula
  // ---------------------------------------------------------------------------

  /** The engine-realism knobs; `copiesFactor` is a multiplier, not a percentage. */
  datatype KvRealism = KvRealism(
    kvSchemeId: string,
    groupSize: real,
    alignment: real,
    copiesFactor: real,
    blockOverheadPct: real)

  /** The defaults of the destructured parameters. */
  const DEFAULT_REALISM: KvRealism := KvRealism("none", 64.0, 256.0, 1.10, 0.0)

  /** Every intermediate of the realistic estimator, in the order it is computed. */
  datatype KvStages = KvStages(
    elemsPerToken: real,
    scheme: KvQuantScheme,
    valueBytes: real,
    groups: int,
    metaBytes: real,
    raw: real,
    aligned: real,
    withCopies: real,
    total: real)

  /** K and V elements per token; the head counts are guarded against values below one. */
  function ElemsPerToken(s: KvShape): (e: real)
    ensures s.heads >= 1.0 && s.kvHeads >= 1.0 ==> e * s.heads == 2.0 * s.layers * s.hidden * s.kvHeads
    ensures s.layers >= 0.0 && s.hidden >= 0.0 ==> e >= 0.0
  {
    var headDim := s.hidden / Max(1.0, s.heads);
    ElemsNonNegative(s.layers, s.hidden, Max(1.0, s.heads), Max(1.0, s.kvHeads));
    2.0 * s.layers * headDim * Max(1.0, s.kvHeads)
  }

  lemma ElemsNonNegative(layers: real, hidden: real, h: real, kh: real)
    requires h >= 1.0 && kh >= 1.0
    ensures layers >= 0.0 && hidden >= 0.0 ==> 2.0 * layers * (hidden / h) * kh >= 0.0
  {
    if layers >= 0.0 && hidden >= 0.0 {
      var x := 2.0 * layers;
      var y := hidden / h;
      assert y >= 0.0;
      MulLeRight(0.0, x, y);
      MulLeRight(0.0, x * y, kh);
    }
  }

  /** Every element at its dtype width and packing overhead, scaled by the scheme's multiplier. */
  function ValueBytes(elems: real, kvDtype: string, scheme: KvQuantScheme): (v: real)
    ensures scheme.bytesPerElemMul == 1.0 ==> v == elems * KvDtypeBytes(kvDtype) * KvDtypeOverhead(kvDtype)
  {
    elems * KvDtypeBytes(kvDtype) * KvDtypeOverhead(kvDtype) * scheme.bytesPerElemMul
  }

  /** The packing overhead and a scheme multiplier of at least one only add to the plain element
      bytes, and a non-negative multiplier keeps the value bytes non-negative. */
  lemma ValueBytesBounds(elems: real, kvDtype: string, scheme: KvQuantScheme)
    ensures elems >= 0.0 && scheme.bytesPerElemMul >= 1.0 ==> ValueBytes(elems, kvDtype, scheme) >= elems * KvDtypeBytes(kvDtype)
    ensures elems >= 0.0 && scheme.bytesPerElemMul >= 0.0 ==> ValueBytes(elems, kvDtype, scheme) >= 0.0
  {
    MulNonNegative(elems, KvDtypeBytes(kvDtype));
    ScaledBytesLaw(elems * KvDtypeBytes(kvDtype), KvDtypeOverhead(kvDtype), scheme.bytesPerElemMul);
  }

  lemma ScaledBytesLaw(p: real, o: real, m: real)
    requires o >= 1.0
    ensures p >= 0.0 && m >= 1.0 ==> p * o * m >= p
    ensures p >= 0.0 && m >= 0.0 ==> p * o * m >= 0.0
  {
    CopiesLaw(p, o);
    if p >= 0.0 && m >= 1.0 {
      CopiesLaw(p * o, m);
    }
    MulNonNegative(p * o, m);
  }

  /** Scale metadata: one `metaPerGroupBytes` per group of `groupSize` elements, the last group rounded up. */
  function MetaBytes(elems: real, groupSize: real, scheme: KvQuantScheme): (m: real)
    ensures m == GroupCount(elems, groupSize) as real * scheme.metaPerGroupBytes
    ensures scheme.metaPerGroupBytes == 0.0 ==> m == 0.0
    ensures elems >= 0.0 && scheme.metaPerGroupBytes >= 0.0 ==> m >= 0.0
  {
    var groups := GroupCount(elems, groupSize);
    MulNonNegative(groups as real, scheme.metaPerGroupBytes);
    groups as real * scheme.metaPerGroupBytes
  }

  lemma MulNonNegative(a: real, b: real)
    ensures a >= 0.0 && b >= 0.0 ==> a * b >= 0.0
  {
    if a >= 0.0 && b >= 0.0 {
      MulLeRight(0.0, a, b);
    }
  }

  /** `Math.ceil(elems / Math.max(1, groupSize))`: enough groups to hold every element, and no spare one. */
  function GroupCount(elems: real, groupSize: real): (c: int)
    ensures elems >= 0.0 ==> c >= 0
    ensures elems >= 0.0 ==> c as real * Max(1.0, groupSize) >= elems
    ensures (c - 1) as real * Max(1.0, groupSize) < elems
  {
    var g := Max(1.0, groupSize);
    var c := Ceil(elems / g);
    CeilDivLaw(elems, g, c);
    c
  }

  /** `alignment > 0 ? Math.ceil(raw / alignment) * alignment : raw`. */
  function AlignUp(raw: real, alignment: real): (aligned: real)
    ensures alignment > 0.0 ==> IsIntegral(aligned / alignment)
    ensures alignment > 0.0 ==> raw <= aligned < raw + alignment
    ensures alignment <= 0.0 ==> aligned == raw
  {
    if alignment > 0.0 then
      var c := Ceil(raw / alignment);
      CeilDivLaw(raw, alignment, c);
      MulDivCancel(c, alignment);
      c as real * alignment
    else raw
  }

  /** `aligned * Math.max(1.0, copiesFactor)`: a factor below one counts as one. */
  function WithCopies(aligned: real, copiesFactor: real): (r: real)
    ensures aligned >= 0.0 ==> r >= aligned
    ensures copiesFactor <= 1.0 ==> r == aligned
    ensures copiesFactor >= 1.0 ==> r == aligned * copiesFactor
  {
    CopiesLaw(aligned, Max(1.0, copiesFactor));
    aligned * Max(1.0, copiesFactor)
  }

  /** `x * (1 + pct / 100)`. */
  function WithOverhead(x: real, pct: real): (r: real)
    ensures pct >= 0.0 && x >= 0.0 ==> r >= x
    ensures pct == 0.0 ==> r == x
  {
    OverheadLaw(x, pct);
    x * (1.0 + pct / 100.0)
  }

  /** The realistic estimator, stage by stage, each stage compounding on the previous one. */
  function Stages(s: KvShape, k: KvRealism): (r: KvStages)
    ensures r.elemsPerToken == ElemsPerToken(s)
    // the scheme: an unknown id falls back to the raw scheme
    ensures r.scheme == LookupScheme(k.kvSchemeId)
    // value bytes count every element at its dtype width and packing overhead
    ensures r.valueBytes == ElemsPerToken(s) * KvDtypeBytes(s.kvDtype) * KvDtypeOverhead(s.kvDtype)
    // metadata: none for the raw scheme, one 2-byte scale per (rounded-up) group otherwise
    ensures r.scheme.id == "none" ==> r.metaBytes == 0.0
    ensures r.scheme.id != "none" ==> r.metaBytes == 2.0 * r.groups as real
    ensures r.raw == r.valueBytes + r.metaBytes
  {
    var elems := ElemsPerToken(s);
    var scheme := LookupScheme(k.kvSchemeId);
    LookupSchemeFields(k.kvSchemeId);
    var valueBytes := ValueBytes(elems, s.kvDtype, scheme);
    var groups := GroupCount(elems, k.groupSize);
    var metaBytes := MetaBytes(elems, k.groupSize, scheme);
    var raw := valueBytes + metaBytes;
    var aligned := AlignUp(raw, k.alignment);
    var withCopies := WithCopies(aligned, k.copiesFactor);
    var total := WithOverhead(withCopies, k.blockOverheadPct);
    KvStages(elems, scheme, valueBytes, groups, metaBytes, raw, aligned, withCopies, total)
  }

  /** The group count holds every element and has no spare group. */
  lemma StagesGroupLaw(s: KvShape, k: KvRealism)
    ensures var r := Stages(s, k);
      && (r.elemsPerToken >= 0.0 ==> r.groups >= 0 && r.groups as real * Max(1.0, k.groupSize) >= r.elemsPerToken)
      && (r.groups - 1) as real * Max(1.0, k.groupSize) < r.elemsPerToken
  {
    var r := Stages(s, k);
    assert r.groups == GroupCount(r.elemsPerToken, k.groupSize);
  }

  /** Alignment rounds up to the next multiple below one alignment step; a non-positive alignment does nothing. */
  lemma StagesAlignmentLaw(s: KvShape, k: KvRealism)
    ensures var r := Stages(s, k);
      && (k.alignment > 0.0 ==> IsIntegral(r.aligned / k.alignment) && r.raw <= r.aligned < r.raw + k.alignment)
      && (k.alignment <= 0.0 ==> r.aligned == r.raw)
  {
    var r := Stages(s, k);
    assert r.aligned == AlignUp(r.raw, k.alignment);
  }

  /** The copies factor never shrinks a non-negative size and a factor up to one has no effect; a
      non-negative block overhead never shrinks it either and a zero one has no effect. */
  lemma StagesTailLaw(s: KvShape, k: KvRealism)
    ensures var r := Stages(s, k);
      && (r.aligned >= 0.0 ==> r.withCopies >= r.aligned)
      && (k.copiesFactor <= 1.0 ==> r.withCopies == r.aligned)
      && (k.blockOverheadPct >= 0.0 && r.withCopies >= 0.0 ==> r.total >= r.withCopies)
      && (k.blockOverheadPct == 0.0 ==> r.total == r.withCopies)
  {
    var r := Stages(s, k);
    assert r.withCopies == WithCopies(r.aligned, k.copiesFactor);
    assert r.total == WithOverhead(r.withCopies, k.blockOverheadPct);
  }

  /** `kvBytesPerTokenRealistic`: the last stage. For a non-negative shape and block overhead it is
      never below the raw bytes, which are never below the value bytes; without copies or block
      overhead it is a whole number of alignment steps; and with the raw scheme and every other
      stage switched off it is exactly the value bytes. */
  function KvBytesPerTokenRealistic(s: KvShape, k: KvRealism): (r: real)
    ensures s.layers >= 0.0 && s.hidden >= 0.0 && k.blockOverheadPct >= 0.0 ==>
      r >= Stages(s, k).raw >= ElemsPerToken(s) * KvDtypeBytes(s.kvDtype) * KvDtypeOverhead(s.kvDtype)
    ensures k.alignment > 0.0 && k.copiesFactor <= 1.0 && k.blockOverheadPct == 0.0 ==> IsIntegral(r / k.alignment)
    ensures k.kvSchemeId !in {"int8-group", "int4-group"} && k.alignment <= 0.0 && k.copiesFactor <= 1.0 &&
            k.blockOverheadPct == 0.0 ==>
      r == ElemsPerToken(s) * KvDtypeBytes(s.kvDtype) * KvDtypeOverhead(s.kvDtype)
  {
    StagesAlignmentLaw(s, k);
    StagesTailLaw(s, k);
    StagesRawLaw(s, k);
    Stages(s, k).total
  }

  /** The raw bytes are never below the value bytes, which are non-negative for a non-negative shape;
      the raw scheme adds no metadata at all. */
  lemma StagesRawLaw(s: KvShape, k: KvRealism)
    ensures var r := Stages(s, k);
      && (s.layers >= 0.0 && s.hidden >= 0.0 ==> r.raw >= r.valueBytes >= 0.0)
      && (k.kvSchemeId !in {"int8-group", "int4-group"} ==> r.raw == r.valueBytes)
  {
    var r := Stages(s, k);
    LookupSchemeFields(k.kvSchemeId);
    QuantSchemesShape();
    if s.layers >= 0.0 && s.hidden >= 0.0 {
      StagesGroupLaw(s, k);
      var e := ElemsPerToken(s);
      MulNonNegative(e, KvDtypeBytes(s.kvDtype));
      MulNonNegative(e * KvDtypeBytes(s.kvDtype), KvDtypeOverhead(s.kvDtype));
    }
  }

  /** `c = ceil(x / d)` for a positive `d` lies within one `d` above `x`. */
  lemma CeilDivLaw(x: real, d: real, c: int)
    requires d > 0.0 && c == Ceil(x / d)
    ensures x <= c as real * d < x + d
    ensures x >= 0.0 ==> c >= 0
    ensures (c - 1) as real * d < x
  {
    ScaleLower(x, d, c as real);
    ScaleUpper(x, d, c as real);
    assert (c - 1) as real * d == c as real * d - d;
    if x >= 0.0 { assert x / d >= 0.0; }
  }

  lemma ScaleLower(x: real, d: real, cr: real)
    requires d > 0.0 && x / d <= cr
    ensures x <= cr * d
  {
    var q := x / d;
    MulLeRight(q, cr, d);
    assert q * d == x;
  }

  lemma ScaleUpper(x: real, d: real, cr: real)
    requires d > 0.0 && cr < x / d + 1.0
    ensures cr * d < x + d
  {
    var q1 := x / d + 1.0;
    MulLtRight(cr, q1, d);
    assert q1 * d == x + d;
  }

  lemma MulDivCancel(c: int, d: real)
    requires d > 0.0
    ensures IsIntegral(c as real * d / d)
  {
    assert c as real * d / d == c as real;
  }

  lemma CopiesLaw(aligned: real, f: real)
    requires f >= 1.0
    ensures aligned >= 0.0 ==> aligned * f >= aligned
  {
    if aligned >= 0.0 {
      MulLeRight(1.0, f, aligned);
    }
  }

  lemma OverheadLaw(x: real, pct: real)
    ensures pct >= 0.0 && x >= 0.0 ==> x * (1.0 + pct / 100.0) >= x
  {
    if pct >= 0.0 && x >= 0.0 {
      MulLeRight(1.0, 1.0 + pct / 100.0, x);
    }
  }

  lemma MulLeRight(a: real, b: real, c: real)
    requires a <= b && c >= 0.0
    ensures a * c <= b * c
  {
    assert b * c - a * c == (b - a) * c;
  }

  lemma MulLeLeft(a: real, b: real, c: real)
    requires a <= b && c >= 0.0
    ensures c * a <= c * b
  {
    MulLeRight(a, b, c);
  }

  lemma MulLtRight(a: real, b: real, c: real)
    requires a < b && c > 0.0
    ensures a * c < b * c
  {
    assert b * c - a * c == (b - a) * c;
  }

  /** The realistic estimator never reports less than the naive one for a sane shape and a
      non-negative block overhead: every stage only adds. */
  lemma RealisticDominatesNaive(s: KvShape, k: KvRealism)
    requires s.layers >= 0.0 && s.hidden >= 0.0 && s.heads >= 1.0 && s.kvHeads >= 1.0
    requires k.blockOverheadPct >= 0.0
    ensures KvBytesPerTokenRealistic(s, k) >= KvBytesPerToken(s)
  {
    var r := Stages(s, k);
    StagesAlignmentLaw(s, k);
    StagesTailLaw(s, k);
    var naive := KvBytesPerToken(s);
    ValueBytesDominateNaive(s);
    assert r.valueBytes >= naive;
    LookupSchemeFields(k.kvSchemeId);
    assert r.metaBytes >= 0.0;
    assert r.raw >= naive;
    assert r.aligned >= naive;
    assert r.withCopies >= naive;
  }

  /** Packing overhead only adds to the naive per-token cost. */
  lemma ValueBytesDominateNaive(s: KvShape)
    requires s.layers >= 0.0 && s.hidden >= 0.0 && s.heads >= 1.0 && s.kvHeads >= 1.0
    ensures KvBytesPerToken(s) >= 0.0
    ensures ElemsPerToken(s) * KvDtypeBytes(s.kvDtype) * KvDtypeOverhead(s.kvDtype) >= KvBytesPerToken(s)
  {
    NaiveIsElemsTimesBytes(s);
    CopiesLaw(ElemsPerToken(s) * KvDtypeBytes(s.kvDtype), KvDtypeOverhead(s.kvDtype));
  }

  /** With at least one head and one KV head the guards change nothing, and the naive cost is
      the element count at the dtype's width. */
  lemma NaiveIsElemsTimesBytes(s: KvShape)
    requires s.heads >= 1.0 && s.kvHeads >= 1.0
    ensures KvBytesPerToken(s) == ElemsPerToken(s) * KvDtypeBytes(s.kvDtype)
    ensures s.layers >= 0.0 && s.hidden >= 0.0 ==> ElemsPerToken(s) * KvDtypeBytes(s.kvDtype) >= 0.0
  {
    assert Max(1.0, s.heads) == s.heads && Max(1.0, s.kvHeads) == s.kvHeads;
    MulNonNegative(ElemsPerToken(s), KvDtypeBytes(s.kvDtype));
  }

  /** Feeding the "naive" engine bundle's own numbers into the realistic estimator, for a KV
      dtype without packing overhead and a shape with at least one head and KV head, gives
      exactly the naive formula. */
  lemma RealisticMatchesNaiveWithoutRealism(s: KvShape)
    requires s.heads >= 1.0 && s.kvHeads >= 1.0
    requires KvDtypeOverhead(s.kvDtype) == 1.0
    ensures var e := ENGINE_PRESETS[0];
      KvBytesPerTokenRealistic(s, KvRealism(e.kvSchemeId, e.kvGroupSize, e.kvAlignment, e.kvCopiesFactorPct, e.kvExtraOverheadPct))
        == KvBytesPerToken(s)
  {
    var e := ENGINE_PRESETS[0];
    var k := KvRealism(e.kvSchemeId, e.kvGroupSize, e.kvAlignment, e.kvCopiesFactorPct, e.kvExtraOverheadPct);
    assert k == KvRealism("none", 64.0, 0.0, 0.0, 0.0);
    var r := Stages(s, k);
    StagesAlignmentLaw(s, k);
    StagesTailLaw(s, k);
    LookupSchemeFields("none");
    NaiveIsElemsTimesBytes(s);
    assert r.valueBytes == r.elemsPerToken * KvDtypeBytes(s.kvDtype);
    assert r.total == r.valueBytes;
  }

  /** An unfolding step: the realistic estimate written out as its stage chain, so concrete
      scenarios can evaluate one stage at a time. */
  lemma RealisticIsStageChain(s: KvShape, k: KvRealism, elems: real, scheme: KvQuantScheme, value: real)
    requires elems == ElemsPerToken(s) && scheme == LookupScheme(k.kvSchemeId)
    requires value == ValueBytes(elems, s.kvDtype, scheme)
    ensures KvBytesPerTokenRealistic(s, k) ==
      WithOverhead(WithCopies(AlignUp(value + MetaBytes(elems, k.groupSize, scheme), k.alignment), k.copiesFactor),
                   k.blockOverheadPct)
  {
  }

  /** The documented defaults: an fp16 7B shape is already 256-byte aligned, so only the 10% copies factor applies. */
  lemma DefaultRealismScenario()
    ensures KvBytesPerTokenRealistic(KvShape(32.0, 4096.0, 32.0, 32.0, "fp16"), DEFAULT_REALISM) == 576716.8
  {
    var s := KvShape(32.0, 4096.0, 32.0, 32.0, "fp16");
    assert ElemsPerToken(s) == 262144.0 by { assert Max(1.0, 32.0) == 32.0; }
    LookupSchemeFields("none");
    var scheme := LookupScheme("none");
    assert KvDtypeOverhead("fp16") == 1.0 && KvDtypeBytes("fp16") == 2.0;
    RealisticIsStageChain(s, DEFAULT_REALISM, 262144.0, scheme, 524288.0);
    assert MetaBytes(262144.0, 64.0, scheme) == 0.0;
    assert AlignUp(524288.0, 256.0) == 524288.0 by {
      assert 524288.0 / 256.0 == 2048.0;
      assert (-2048.0).Floor == -2048;
    }
    assert WithCopies(524288.0, 1.10) == 576716.8;
  }

  // ---------------------------------------------------------------------------
  // Effective KV tokens
  // ---------------------------------------------------------------------------

  /** The tokens the KV cache actually keeps: the context, capped by the sliding window when it is on. */
  function EffectiveKvTokens(context: real, slidingWindowEnabled: bool, slidingWindow: real): (r: real)
    ensures !slidingWindowEnabled ==> r == context
    ensures slidingWindowEnabled ==> r <= slidingWindow && (r == context || r == slidingWindow)
    ensures r <= context
  {
    if !slidingWindowEnabled then context else Min(context, slidingWindow)
  }

  /** Applying the window again to its own result changes nothing. */
  lemma EffectiveKvTokensIdempotent(context: real, enabled: bool, window: real)
    ensures var once := EffectiveKvTokens(context, enabled, window);
      EffectiveKvTokens(once, enabled, window) == once
  {
  }

  /** A window at least as large as the context keeps the whole context; a smaller one keeps exactly the window. */
  lemma EffectiveKvTokensWindow(context: real, window: real)
    ensures context <= window ==> EffectiveKvTokens(context, true, window) == context
    ensures context > window ==> EffectiveKvTokens(context, true, window) == window
  {
  }

  /** Longer contexts never keep fewer tokens, with or without a window. */
  lemma EffectiveKvTokensMonotone(c1: real, c2: real, enabled: bool, window: real)
    requires c1 <= c2
    ensures EffectiveKvTokens(c1, enabled, window) <= EffectiveKvTokens(c2, enabled, window)
  {
  }

  // ---------------------------------------------------------------------------
  // Throughput ceilings
  // ---------------------------------------------------------------------------

  /** Compute ceiling at two operations per parameter per token; 0 for a non-positive parameter count. */
  function TokPerSecCompute(paramsB: real, tops: real, utilization: real): (r: real)
    ensures paramsB <= 0.0 ==> r == 0.0
    ensures paramsB > 0.0 ==> r * (2.0 * paramsB * GIGA) == tops * utilization * TERA
  {
    var params := paramsB * GIGA;
    var opsPerTok := 2.0 * params;
    var effTops := tops * utilization;
    if opsPerTok <= 0.0 then 0.0 else (effTops * TERA) / opsPerTok
  }

  /** Bytes streamed per generated token: the weights once and the live KV cache once, each scaled by its read factor. */
  function BytesPerDecodedToken(weightsBytesTotal: real, weightsReadFactor: real, kvBytesPerTok: real,
                                kvTokens: real, attnReadFactor: real): real
  {
    (weightsReadFactor * weightsBytesTotal) + (attnReadFactor * kvBytesPerTok * kvTokens)
  }

  /** Bandwidth ceiling; 0 when nothing (or less) is read per token. */
  function TokPerSecBandwidth(bandwidthGBs: real, weightsBytesTotal: real, weightsReadFactor: real,
                              kvBytesPerTok: real, kvTokens: real, attnReadFactor: real): (r: real)
    ensures var d := BytesPerDecodedToken(weightsBytesTotal, weightsReadFactor, kvBytesPerTok, kvTokens, attnReadFactor);
      (d <= 0.0 ==> r == 0.0) && (d > 0.0 ==> r * d == bandwidthGBs * GIB)
  {
    var bandwidthBytes := bandwidthGBs * GIB;
    var bytesPerToken := BytesPerDecodedToken(weightsBytesTotal, weightsReadFactor, kvBytesPerTok, kvTokens, attnReadFactor);
    if bytesPerToken <= 0.0 then 0.0 else bandwidthBytes / bytesPerToken
  }

  lemma DivAntitone(n: real, d1: real, d2: real)
    requires n >= 0.0 && 0.0 < d1 <= d2
    ensures n / d2 <= n / d1
  {
    var q1 := n / d1;
    var q2 := n / d2;
    assert q1 * d1 == n && q2 * d2 == n;
    assert q1 >= 0.0 && q2 >= 0.0;
    MulLeRight(d1, d2, q2);
    assert q2 * d1 <= n;
    if q2 > q1 {
      MulLtRight(q1, q2, d1);
      assert false;
    }
  }

  /** More live KV tokens never raise the bandwidth ceiling, as long as something is read per token. */
  lemma TokPerSecBandwidthAntitone(bandwidthGBs: real, weightsBytesTotal: real, weightsReadFactor: real,
                                   kvBytesPerTok: real, t1: real, t2: real, attnReadFactor: real)
    requires bandwidthGBs >= 0.0 && attnReadFactor * kvBytesPerTok >= 0.0 && t1 <= t2
    requires BytesPerDecodedToken(weightsBytesTotal, weightsReadFactor, kvBytesPerTok, t1, attnReadFactor) > 0.0
    ensures TokPerSecBandwidth(bandwidthGBs, weightsBytesTotal, weightsReadFactor, kvBytesPerTok, t2, attnReadFactor)
         <= TokPerSecBandwidth(bandwidthGBs, weightsBytesTotal, weightsReadFactor, kvBytesPerTok, t1, attnReadFactor)
  {
    var d1 := BytesPerDecodedToken(weightsBytesTotal, weightsReadFactor, kvBytesPerTok, t1, attnReadFactor);
    var d2 := BytesPerDecodedToken(weightsBytesTotal, weightsReadFactor, kvBytesPerTok, t2, attnReadFactor);
    var a := attnReadFactor * kvBytesPerTok;
    assert d1 == weightsReadFactor * weightsBytesTotal + a * t1;
    assert d2 == weightsReadFactor * weightsBytesTotal + a * t2;
    MulLeRight(t1, t2, a);
    DivAntitone(bandwidthGBs * GIB, d1, d2);
  }

  /** 90 GB/s streaming 4.2e9 weight bytes and 8192 tokens of 512 KiB KV gives about 11.37 tokens per second. */
  lemma BandwidthScenario()
    ensures 11.37 < TokPerSecBandwidth(90.0, 4200000000.0, 1.0, 524288.0, 8192.0, 1.0) < 11.38
  {
    var r := TokPerSecBandwidth(90.0, 4200000000.0, 1.0, 524288.0, 8192.0, 1.0);
    assert BytesPerDecodedToken(4200000000.0, 1.0, 524288.0, 8192.0, 1.0) == 8494967296.0;
    assert r * 8494967296.0 == 96636764160.0;
  }
}
