/** The decision layer of the calculator: the live estimate with its verdict and advisory
    flags, and the scaling table over the default context lengths. */
module App {
  import opened Presets
  import opened EstimatorMath

  /** Every knob the estimate depends on, as one explicit record. `utilization` is a percentage. */
  datatype Config = Config(
    paramsB: real, layers: real, hidden: real, heads: real, kvHeads: real,
    weightDtype: string, kvDtype: string,
    quantOverheadPct: real, runtimeOverheadGiB: real,
    context: real, slidingWindowEnabled: bool, slidingWindow: real,
    tops: real, utilization: real,
    bandwidthGBs: real, attnReadFactor: real, weightsReadFactor: real,
    ramGiB: real)
  {
    function Shape(): KvShape {
      KvShape(layers, hidden, heads, kvHeads, kvDtype)
    }
  }

  /** The inputs the form's minimums allow, loosened to what the laws below need: a positive model size
      and head count, a non-negative shape, overheads, bandwidth, attention read factor and window,
      and a positive weights read factor. */
  predicate Sane(cfg: Config) {
    && cfg.paramsB > 0.0 && cfg.layers >= 0.0 && cfg.hidden >= 0.0 && cfg.heads > 0.0 && cfg.kvHeads >= 0.0
    && cfg.quantOverheadPct >= 0.0 && cfg.bandwidthGBs >= 0.0
    && cfg.attnReadFactor >= 0.0 && cfg.weightsReadFactor > 0.0 && cfg.slidingWindow >= 0.0
  }

  // ---------------------------------------------------------------------------
  // Verdict
  // ---------------------------------------------------------------------------

  /** Fraction of RAM that may be used before the configuration is called unloadable. */
  const RAM_HEADROOM: real := 0.92
  /** The speed a claim must reach to be called plausible. */
  const TARGET_TOK_PER_SEC: real := 20.0
  /** Context length (tokens) from which a claim counts as "128k". */
  const HUGE_CONTEXT: real := 128000.0
  /** Model size (billions of parameters) from which a "128k" claim is suspicious. */
  const BIG_MODEL_B: real := 15.0

  datatype Tone = Ok | Warn | Bad

  /** The four verdicts, in the order they are tried. */
  datatype Verdict = NotEnoughRam | NeedsTricks | Plausible | LoadsButSlow {
    function Tone(): Tone {
      match this
      case NotEnoughRam => Bad
      case NeedsTricks => Warn
      case Plausible => Ok
      case LoadsButSlow => Warn
    }
  }

  /** Ordered rules, first match wins: memory, then the suspicious-claim rule, then speed. */
  function Classify(totalGiB: real, ramGiB: real, tokSecFinal: real, context: real, kvTokensEff: real,
                    paramsB: real): (v: Verdict)
    // the memory rule wins over every other rule
    ensures v.Tone() == Bad <==> totalGiB > ramGiB * RAM_HEADROOM
    ensures v == NeedsTricks <==>
      totalGiB <= ramGiB * RAM_HEADROOM && context >= HUGE_CONTEXT && paramsB >= BIG_MODEL_B &&
      kvTokensEff >= HUGE_CONTEXT && tokSecFinal >= TARGET_TOK_PER_SEC
    ensures v == Plausible <==>
      totalGiB <= ramGiB * RAM_HEADROOM && tokSecFinal >= TARGET_TOK_PER_SEC &&
      !(context >= HUGE_CONTEXT && paramsB >= BIG_MODEL_B && kvTokensEff >= HUGE_CONTEXT)
    // the fallback "loads but slow" is exactly: fits with headroom, below the target speed
    ensures v == LoadsButSlow <==> totalGiB <= ramGiB * RAM_HEADROOM && tokSecFinal < TARGET_TOK_PER_SEC
  {
    var memOk := totalGiB <= ramGiB * RAM_HEADROOM;
    var speedOk := tokSecFinal >= TARGET_TOK_PER_SEC;
    var hugeContext := context >= HUGE_CONTEXT && paramsB >= BIG_MODEL_B;
    var kvHuge := kvTokensEff >= HUGE_CONTEXT;
    if !memOk then NotEnoughRam
    else if hugeContext && kvHuge && tokSecFinal >= TARGET_TOK_PER_SEC then NeedsTricks
    else if speedOk then Plausible
    else LoadsButSlow
  }

  /** 40 GiB on a 32 GiB machine is refused whatever the speed (32 * 0.92 = 29.44). */
  lemma ClassifyScenario(tokSecFinal: real, context: real, kvTokensEff: real, paramsB: real)
    ensures Classify(40.0, 32.0, tokSecFinal, context, kvTokensEff, paramsB).Tone() == Bad
  {
  }

  // ---------------------------------------------------------------------------
  // Advisory flags
  // ---------------------------------------------------------------------------

  /** The five advisory flags, named by what they warn about. */
  datatype Flag = FullContextKv | NoGqa | KvFp16 | BandwidthCapped | RamInsufficient {
    /** Position in the fixed display order. */
    function Rank(): nat {
      match this
      case FullContextKv => 0
      case NoGqa => 1
      case KvFp16 => 2
      case BandwidthCapped => 3
      case RamInsufficient => 4
    }
  }

  /** Every flag, in display order. */
  const ALL_FLAGS: seq<Flag> := [FullContextKv, NoGqa, KvFp16, BandwidthCapped, RamInsufficient]

  /** The condition under which each flag is raised; the RAM flags compare with the whole RAM, without headroom. */
  predicate FlagHolds(f: Flag, cfg: Config, totalGiB: real, tokSecFinal: real) {
    match f
    case FullContextKv => cfg.context >= HUGE_CONTEXT && !cfg.slidingWindowEnabled
    case NoGqa => cfg.kvHeads == cfg.heads
    case KvFp16 => cfg.kvDtype == "fp16"
    case BandwidthCapped => tokSecFinal < TARGET_TOK_PER_SEC && totalGiB <= cfg.ramGiB
    case RamInsufficient => totalGiB > cfg.ramGiB
  }

  predicate RanksIncreasing(fs: seq<Flag>) {
    forall i, j :: 0 <= i < j < |fs| ==> fs[i].Rank() < fs[j].Rank()
  }

  /** `[f]` when flag `f` is raised, nothing otherwise: an unfolding step that lets the flag
      list be compared one conditional push at a time. */
  function Raised(f: Flag, cfg: Config, totalGiB: real, tokSecFinal: real): (r: seq<Flag>)
    ensures r == [f] <==> FlagHolds(f, cfg, totalGiB, tokSecFinal)
    ensures r == [] <==> !FlagHolds(f, cfg, totalGiB, tokSecFinal)
  {
    if FlagHolds(f, cfg, totalGiB, tokSecFinal) then [f] else []
  }

  /** The flags of `fs` whose condition holds, in the order of `fs`. */
  function SelectFlags(fs: seq<Flag>, cfg: Config, totalGiB: real, tokSecFinal: real): seq<Flag> {
    if fs == [] then []
    else SelectFlags(fs[..|fs| - 1], cfg, totalGiB, tokSecFinal) + Raised(fs[|fs| - 1], cfg, totalGiB, tokSecFinal)
  }

  /** Selection keeps exactly the flags of `fs` that hold. */
  lemma {:induction false} SelectFlagsMembers(fs: seq<Flag>, cfg: Config, totalGiB: real, tokSecFinal: real)
    ensures forall f :: f in SelectFlags(fs, cfg, totalGiB, tokSecFinal) <==> f in fs && FlagHolds(f, cfg, totalGiB, tokSecFinal)
  {
    if fs != [] {
      var init, last := fs[..|fs| - 1], fs[|fs| - 1];
      SelectFlagsMembers(init, cfg, totalGiB, tokSecFinal);
      assert fs == init + [last];
    }
  }

  /** Selection never lengthens the list. */
  lemma {:induction false} SelectFlagsLength(fs: seq<Flag>, cfg: Config, totalGiB: real, tokSecFinal: real)
    ensures |SelectFlags(fs, cfg, totalGiB, tokSecFinal)| <= |fs|
  {
    if fs != [] {
      SelectFlagsLength(fs[..|fs| - 1], cfg, totalGiB, tokSecFinal);
    }
  }

  /** Selection keeps the order of `fs`. */
  lemma {:induction false} SelectFlagsOrder(fs: seq<Flag>, cfg: Config, totalGiB: real, tokSecFinal: real)
    requires RanksIncreasing(fs)
    ensures RanksIncreasing(SelectFlags(fs, cfg, totalGiB, tokSecFinal))
  {
    if fs != [] {
      var init, last := fs[..|fs| - 1], fs[|fs| - 1];
      assert fs == init + [last];
      assert RanksIncreasing(init);
      SelectFlagsOrder(init, cfg, totalGiB, tokSecFinal);
      SelectFlagsMembers(init, cfg, totalGiB, tokSecFinal);
      assert forall f :: f in init ==> f.Rank() < last.Rank();
    }
  }

  /** The flag list the estimate reports. */
  function Flags(cfg: Config, totalGiB: real, tokSecFinal: real): seq<Flag> {
    SelectFlags(ALL_FLAGS, cfg, totalGiB, tokSecFinal)
  }

  /** Each flag appears exactly when its condition holds, in the fixed order, at most five of them,
      and "fits in RAM" never appears together with "RAM insufficient". */
  lemma FlagsFacts(cfg: Config, totalGiB: real, tokSecFinal: real)
    ensures var fs := Flags(cfg, totalGiB, tokSecFinal);
      && (forall f :: f in fs <==> FlagHolds(f, cfg, totalGiB, tokSecFinal))
      && |fs| <= 5
      && RanksIncreasing(fs)
      && !(BandwidthCapped in fs && RamInsufficient in fs)
  {
    SelectFlagsMembers(ALL_FLAGS, cfg, totalGiB, tokSecFinal);
    SelectFlagsLength(ALL_FLAGS, cfg, totalGiB, tokSecFinal);
    assert RanksIncreasing(ALL_FLAGS);
    SelectFlagsOrder(ALL_FLAGS, cfg, totalGiB, tokSecFinal);
    forall f: Flag ensures f in ALL_FLAGS {
      assert ALL_FLAGS[f.Rank()] == f;
    }
  }

  /** Whenever "RAM insufficient" is flagged on a machine with non-negative RAM, the verdict is "bad". */
  lemma RamFlagImpliesBadVerdict(cfg: Config, totalGiB: real, tokSecFinal: real, kvTokensEff: real)
    requires cfg.ramGiB >= 0.0
    requires RamInsufficient in Flags(cfg, totalGiB, tokSecFinal)
    ensures Classify(totalGiB, cfg.ramGiB, tokSecFinal, cfg.context, kvTokensEff, cfg.paramsB).Tone() == Bad
  {
    FlagsFacts(cfg, totalGiB, tokSecFinal);
  }

  /** The flags use the whole RAM while the verdict keeps 8% headroom, so a configuration can be
      refused for RAM while also being told that it fits in RAM. */
  lemma HeadroomGapExample(cfg: Config)
    requires cfg.ramGiB == 32.0
    ensures Classify(30.0, cfg.ramGiB, 10.0, cfg.context, 4096.0, cfg.paramsB) == NotEnoughRam
    ensures BandwidthCapped in Flags(cfg, 30.0, 10.0)
  {
    FlagsFacts(cfg, 30.0, 10.0);
  }

  /** The reported flag list is the five conditions tested one after another. */
  lemma FlagsInSequence(cfg: Config, t: real, s: real)
    ensures Flags(cfg, t, s) ==
      Raised(FullContextKv, cfg, t, s) + Raised(NoGqa, cfg, t, s) + Raised(KvFp16, cfg, t, s)
      + Raised(BandwidthCapped, cfg, t, s) + Raised(RamInsufficient, cfg, t, s)
  {
    var a, b, c, d, e := FullContextKv, NoGqa, KvFp16, BandwidthCapped, RamInsufficient;
    var s1 := SelectFlags([a], cfg, t, s);
    assert s1 == Raised(a, cfg, t, s) by {
      assert [a][..0] == [];
      assert SelectFlags([], cfg, t, s) == [];
      assert [] + Raised(a, cfg, t, s) == Raised(a, cfg, t, s);
    }
    var s2 := SelectFlags([a, b], cfg, t, s);
    assert s2 == s1 + Raised(b, cfg, t, s) by { assert [a, b][..1] == [a]; }
    var s3 := SelectFlags([a, b, c], cfg, t, s);
    assert s3 == s2 + Raised(c, cfg, t, s) by { assert [a, b, c][..2] == [a, b]; }
    var s4 := SelectFlags([a, b, c, d], cfg, t, s);
    assert s4 == s3 + Raised(d, cfg, t, s) by { assert [a, b, c, d][..3] == [a, b, c]; }
    assert Flags(cfg, t, s) == s4 + Raised(e, cfg, t, s) by { assert ALL_FLAGS[..4] == [a, b, c, d]; }
  }

  /** The flag list built by appending, one condition after another, in display order. */
  method CollectFlags(cfg: Config, totalGiB: real, tokSecFinal: real) returns (flags: seq<Flag>)
    ensures flags == Flags(cfg, totalGiB, tokSecFinal)
  {
    ghost var t, s := totalGiB, tokSecFinal;
    flags := [];
    if cfg.context >= HUGE_CONTEXT && !cfg.slidingWindowEnabled { flags := flags + [FullContextKv]; }
    assert flags == Raised(FullContextKv, cfg, t, s);
    ghost var seen := flags;
    if cfg.kvHeads == cfg.heads { flags := flags + [NoGqa]; }
    assert flags == seen + Raised(NoGqa, cfg, t, s);
    seen := flags;
    if cfg.kvDtype == "fp16" { flags := flags + [KvFp16]; }
    assert flags == seen + Raised(KvFp16, cfg, t, s);
    seen := flags;
    if tokSecFinal < TARGET_TOK_PER_SEC && totalGiB <= cfg.ramGiB { flags := flags + [BandwidthCapped]; }
    assert flags == seen + Raised(BandwidthCapped, cfg, t, s);
    seen := flags;
    if totalGiB > cfg.ramGiB { flags := flags + [RamInsufficient]; }
    assert flags == seen + Raised(RamInsufficient, cfg, t, s);
    FlagsInSequence(cfg, t, s);
  }

  // ---------------------------------------------------------------------------
  // The per-context pipeline
  // ---------------------------------------------------------------------------

  /** Every number the pipeline derives for one context length. */
  datatype Measures = Measures(
    kvTokensEff: real,
    wBytes: real,
    kvPerTokBytes: real,
    weightsGiB: real,
    kvGiB: real,
    totalGiB: real,
    tokSecCompute: real,
    tokSecBW: real,
    tokSecFinal: real)

  /** The KV cache at `context`, in bytes: the naive per-token cost times the tokens actually kept. */
  function KvBytesAt(cfg: Config, context: real): real
    requires cfg.heads != 0.0
  {
    KvBytesPerToken(cfg.Shape()) * EffectiveKvTokens(context, cfg.slidingWindowEnabled, cfg.slidingWindow)
  }

  /** The KV cache at `context`, in GiB. */
  function KvGiBAt(cfg: Config, context: real): real
    requires cfg.heads != 0.0
  {
    BytesToGiB(KvBytesAt(cfg, context))
  }

  /** The compute ceiling; utilization is entered as a percentage. */
  function TokSecComputeOf(cfg: Config): real {
    TokPerSecCompute(cfg.paramsB, cfg.tops, cfg.utilization / 100.0)
  }

  /** The bandwidth ceiling at `context`. */
  function TokSecBandwidthAt(cfg: Config, context: real): real
    requires cfg.heads != 0.0
  {
    TokPerSecBandwidth(cfg.bandwidthGBs, WeightsBytes(cfg.paramsB, cfg.weightDtype, cfg.quantOverheadPct),
                       cfg.weightsReadFactor, KvBytesPerToken(cfg.Shape()),
                       EffectiveKvTokens(context, cfg.slidingWindowEnabled, cfg.slidingWindow), cfg.attnReadFactor)
  }

  /** Effective tokens, weights, naive KV per token, the GiB totals and both ceilings for `context`. */
  function Measure(cfg: Config, context: real): (m: Measures)
    requires cfg.heads != 0.0
    ensures m.kvTokensEff == EffectiveKvTokens(context, cfg.slidingWindowEnabled, cfg.slidingWindow)
    ensures m.wBytes == WeightsBytes(cfg.paramsB, cfg.weightDtype, cfg.quantOverheadPct)
    ensures m.kvPerTokBytes == KvBytesPerToken(cfg.Shape())
    ensures m.weightsGiB == BytesToGiB(m.wBytes)
    ensures m.kvGiB == KvGiBAt(cfg, context) == BytesToGiB(m.kvPerTokBytes * m.kvTokensEff)
    ensures m.totalGiB == m.weightsGiB + m.kvGiB + cfg.runtimeOverheadGiB
    ensures m.tokSecCompute == TokSecComputeOf(cfg) && m.tokSecBW == TokSecBandwidthAt(cfg, context)
    ensures m.tokSecFinal <= m.tokSecCompute && m.tokSecFinal <= m.tokSecBW
    ensures m.tokSecFinal == m.tokSecCompute || m.tokSecFinal == m.tokSecBW
  {
    var kvTokensEff := EffectiveKvTokens(context, cfg.slidingWindowEnabled, cfg.slidingWindow);
    var wBytes := WeightsBytes(cfg.paramsB, cfg.weightDtype, cfg.quantOverheadPct);
    var kvPerTokBytes := KvBytesPerToken(cfg.Shape());
    var kvBytesTotal := kvPerTokBytes * kvTokensEff;
    BytesToGiBAdditive(wBytes, kvBytesTotal);
    var totalGiB := BytesToGiB(wBytes + kvBytesTotal) + cfg.runtimeOverheadGiB;
    var weightsGiB := BytesToGiB(wBytes);
    var kvGiB := KvGiBAt(cfg, context);
    var tokSecCompute := TokSecComputeOf(cfg);
    var tokSecBW := TokSecBandwidthAt(cfg, context);
    var tokSecFinal := Min(tokSecCompute, tokSecBW);
    Measures(kvTokensEff, wBytes, kvPerTokBytes, weightsGiB, kvGiB, totalGiB, tokSecCompute, tokSecBW, tokSecFinal)
  }

  /** A longer context never shrinks the KV cache, for a sane configuration. */
  lemma KvBytesMonotoneInContext(cfg: Config, c1: real, c2: real)
    requires Sane(cfg) && 0.0 <= c1 <= c2
    ensures KvBytesAt(cfg, c1) <= KvBytesAt(cfg, c2)
  {
    EffectiveKvTokensMonotone(c1, c2, cfg.slidingWindowEnabled, cfg.slidingWindow);
    KvBytesPerTokenNonNegative(cfg.Shape());
    MulLeLeft(EffectiveKvTokens(c1, cfg.slidingWindowEnabled, cfg.slidingWindow),
              EffectiveKvTokens(c2, cfg.slidingWindowEnabled, cfg.slidingWindow), KvBytesPerToken(cfg.Shape()));
  }

  /** The same in GiB. */
  lemma KvGiBMonotoneInContext(cfg: Config, c1: real, c2: real)
    requires Sane(cfg) && 0.0 <= c1 <= c2
    ensures KvGiBAt(cfg, c1) <= KvGiBAt(cfg, c2)
  {
    KvBytesMonotoneInContext(cfg, c1, c2);
    BytesToGiBMonotone(KvBytesAt(cfg, c1), KvBytesAt(cfg, c2));
  }

  /** A longer context never raises the bandwidth ceiling, for a sane configuration. */
  lemma TokSecBandwidthAntitoneInContext(cfg: Config, c1: real, c2: real)
    requires Sane(cfg) && 0.0 <= c1 <= c2
    ensures TokSecBandwidthAt(cfg, c2) <= TokSecBandwidthAt(cfg, c1)
  {
    var e1 := EffectiveKvTokens(c1, cfg.slidingWindowEnabled, cfg.slidingWindow);
    var e2 := EffectiveKvTokens(c2, cfg.slidingWindowEnabled, cfg.slidingWindow);
    EffectiveKvTokensMonotone(c1, c2, cfg.slidingWindowEnabled, cfg.slidingWindow);
    var kvp := KvBytesPerToken(cfg.Shape());
    KvBytesPerTokenNonNegative(cfg.Shape());
    var w := WeightsBytes(cfg.paramsB, cfg.weightDtype, cfg.quantOverheadPct);
    WeightsBytesBounds(cfg.paramsB, cfg.weightDtype, cfg.quantOverheadPct);
    assert cfg.weightsReadFactor * w > 0.0 by {
      MulLtRight(0.0, cfg.weightsReadFactor, w);
    }
    MulNonNegative(cfg.attnReadFactor, kvp);
    MulNonNegative(cfg.attnReadFactor * kvp, e1);
    TokPerSecBandwidthAntitone(cfg.bandwidthGBs, w, cfg.weightsReadFactor, kvp, e1, e2, cfg.attnReadFactor);
  }

  /** For a sane configuration a longer context never shrinks the KV or total footprint and never
      raises the bandwidth ceiling or the final speed; the compute ceiling does not depend on it.
      This holds with the sliding window on as well as off. */
  lemma MeasureMonotoneInContext(cfg: Config, c1: real, c2: real)
    requires Sane(cfg) && 0.0 <= c1 <= c2
    ensures var m1, m2 := Measure(cfg, c1), Measure(cfg, c2);
      && m1.kvGiB <= m2.kvGiB
      && m1.totalGiB <= m2.totalGiB
      && m2.tokSecBW <= m1.tokSecBW
      && m2.tokSecCompute == m1.tokSecCompute
      && m2.tokSecFinal <= m1.tokSecFinal
  {
    KvGiBMonotoneInContext(cfg, c1, c2);
    TokSecBandwidthAntitoneInContext(cfg, c1, c2);
  }

  // ---------------------------------------------------------------------------
  // The live estimate
  // ---------------------------------------------------------------------------

  /** What the calculator shows for the current configuration. */
  datatype Estimation = Estimation(
    kvTokensEff: real,
    weightsGiB: real,
    kvGiB: real,
    totalGiB: real,
    kvPerTokMB: real,
    tokSecCompute: real,
    tokSecBW: real,
    tokSecFinal: real,
    status: Verdict,
    flags: seq<Flag>)

  /** The live estimate: the pipeline at the configured context, its verdict, and the flags
      collected one by one in display order. */
  method Estimate(cfg: Config) returns (e: Estimation)
    requires cfg.heads != 0.0
    ensures var m := Measure(cfg, cfg.context);
      && e.kvTokensEff == m.kvTokensEff && e.weightsGiB == m.weightsGiB && e.kvGiB == m.kvGiB
      && e.totalGiB == m.totalGiB && e.kvPerTokMB * 1048576.0 == m.kvPerTokBytes
      && e.tokSecCompute == m.tokSecCompute && e.tokSecBW == m.tokSecBW && e.tokSecFinal == m.tokSecFinal
    ensures e.totalGiB == e.weightsGiB + e.kvGiB + cfg.runtimeOverheadGiB
    ensures e.tokSecFinal <= e.tokSecCompute && e.tokSecFinal <= e.tokSecBW
    ensures e.tokSecFinal == e.tokSecCompute || e.tokSecFinal == e.tokSecBW
    ensures e.status == Classify(e.totalGiB, cfg.ramGiB, e.tokSecFinal, cfg.context, e.kvTokensEff, cfg.paramsB)
    ensures e.flags == Flags(cfg, e.totalGiB, e.tokSecFinal)
    ensures forall f :: f in e.flags <==> FlagHolds(f, cfg, e.totalGiB, e.tokSecFinal)
    ensures |e.flags| <= 5 && RanksIncreasing(e.flags)
  {
    var m := Measure(cfg, cfg.context);
    var status := Classify(m.totalGiB, cfg.ramGiB, m.tokSecFinal, cfg.context, m.kvTokensEff, cfg.paramsB);

    var flags := CollectFlags(cfg, m.totalGiB, m.tokSecFinal);
    FlagsFacts(cfg, m.totalGiB, m.tokSecFinal);

    e := Estimation(m.kvTokensEff, m.weightsGiB, m.kvGiB, m.totalGiB, m.kvPerTokBytes / 1048576.0,
                    m.tokSecCompute, m.tokSecBW, m.tokSecFinal, status, flags);
  }

  // ---------------------------------------------------------------------------
  // The scaling table
  // ---------------------------------------------------------------------------

  datatype TableRow = TableRow(context: real, kvGiB: real, totalGiB: real, tokSecFinal: real,
                               tokSecBW: real, tokSecCompute: real)

  function Row(cfg: Config, context: real): TableRow
    requires cfg.heads != 0.0
  {
    var m := Measure(cfg, context);
    TableRow(context, m.kvGiB, m.totalGiB, m.tokSecFinal, m.tokSecBW, m.tokSecCompute)
  }

  /** One row per default context length, in the same order; the live context and RAM are not read. */
  function ContextTable(cfg: Config): (t: seq<TableRow>)
    requires cfg.heads != 0.0
    ensures |t| == |DEFAULT_CONTEXT_OPTIONS|
    ensures forall i :: 0 <= i < |t| ==> t[i] == Row(cfg, DEFAULT_CONTEXT_OPTIONS[i])
    ensures forall i :: 0 <= i < |t| ==>
      t[i].context == DEFAULT_CONTEXT_OPTIONS[i] &&
      t[i].tokSecFinal <= t[i].tokSecCompute && t[i].tokSecFinal <= t[i].tokSecBW &&
      (t[i].tokSecFinal == t[i].tokSecCompute || t[i].tokSecFinal == t[i].tokSecBW)
  {
    seq(|DEFAULT_CONTEXT_OPTIONS|, i requires 0 <= i < |DEFAULT_CONTEXT_OPTIONS| => Row(cfg, DEFAULT_CONTEXT_OPTIONS[i]))
  }

  /** The pipeline at a given context reads neither the live context nor the RAM size. */
  lemma MeasureIgnoresLiveContext(cfg: Config, context: real, ramGiB: real, c: real)
    requires cfg.heads != 0.0
    ensures Measure(cfg.(context := context, ramGiB := ramGiB), c) == Measure(cfg, c)
  {
    var cfg' := cfg.(context := context, ramGiB := ramGiB);
    assert cfg'.Shape() == cfg.Shape();
  }

  /** The table depends neither on the live context nor on the RAM size. */
  lemma ContextTableIgnoresLiveContext(cfg: Config, context: real, ramGiB: real)
    requires cfg.heads != 0.0
    ensures ContextTable(cfg.(context := context, ramGiB := ramGiB)) == ContextTable(cfg)
  {
    var cfg' := cfg.(context := context, ramGiB := ramGiB);
    forall i | 0 <= i < |DEFAULT_CONTEXT_OPTIONS|
      ensures ContextTable(cfg')[i] == ContextTable(cfg)[i]
    {
      MeasureIgnoresLiveContext(cfg, context, ramGiB, DEFAULT_CONTEXT_OPTIONS[i]);
    }
  }

  /** Down the table the KV and total footprints never shrink and the bandwidth ceiling and final
      speed never rise. */
  lemma ContextTableMonotone(cfg: Config, i: nat, j: nat)
    requires Sane(cfg) && i <= j < |DEFAULT_CONTEXT_OPTIONS|
    ensures var t := ContextTable(cfg);
      && t[i].kvGiB <= t[j].kvGiB
      && t[i].totalGiB <= t[j].totalGiB
      && t[j].tokSecBW <= t[i].tokSecBW
      && t[j].tokSecFinal <= t[i].tokSecFinal
  {
    ContextOptionsIncreasing();
    if i < j {
      assert DEFAULT_CONTEXT_OPTIONS[i] < DEFAULT_CONTEXT_OPTIONS[j];
    }
    MeasureMonotoneInContext(cfg, DEFAULT_CONTEXT_OPTIONS[i], DEFAULT_CONTEXT_OPTIONS[j]);
  }
}
