/**
 * The driver of the analysis-synthesis script (`my_app` in nnsvs/bin/anasyn.py):
 * the fallback to WORLD when no vocoder checkpoint is configured, the slicing of
 * the vocoder's input scaler, and the per-utterance pipeline anasyn → post_process.
 * Loading files, the device and writing the wav file are not modelled.
 */
module AnasynApp {
  import opened Common
  import opened Numerics
  import opened Features
  import opened Anasyn

  /** A checkpoint path is configured: present and non-empty. */
  predicate CheckpointGiven(checkpoint: Option<string>)
  {
    checkpoint.Some? && |checkpoint.value| > 0
  }

  /** The vocoder type the script synthesises with: WORLD whenever no checkpoint is given. */
  function EffectiveVocoderType(checkpoint: Option<string>, configured: string): (r: string)
    ensures !CheckpointGiven(checkpoint) ==> r == "world"
    ensures CheckpointGiven(checkpoint) ==> r == configured
  {
    if CheckpointGiven(checkpoint) then configured else "world"
  }

  // ---------------------------------------------------------------------------
  // Scaler slicing for uSFGAN
  // ---------------------------------------------------------------------------

  function Min(a: nat, b: nat): nat
  {
    if a <= b then a else b
  }

  /** Python's `v[lo:hi]` for non-negative bounds: both ends clamped to the length. */
  function PySlice(v: seq<real>, lo: nat, hi: nat): (r: seq<real>)
    ensures lo <= hi <= |v| ==> r == v[lo..hi]
    ensures |r| <= |v|
    ensures hi <= lo || |v| <= lo ==> r == []
    ensures lo <= hi && lo <= |v| ==> |r| == Min(hi, |v|) - lo
    ensures forall i :: 0 <= i < |r| ==> lo + i < |v| && r[i] == v[lo + i]
  {
    var a := Min(lo, |v|);
    var b := Min(hi, |v|);
    if a <= b then v[a..b] else []
  }

  /** `sum(sizes[:k])`. */
  function SumFirst(sizes: seq<nat>, k: nat): nat
  {
    SumWidths(sizes[..Min(k, |sizes|)])
  }

  /**
   * `concatenate([v[:sizes[0]], v[sum(sizes[:3]):sum(sizes[:4])]])`: the mgc and the
   * bap dimensions of a full acoustic-feature vector. An empty size list has no
   * first entry to index.
   */
  function SliceMgcBap(v: seq<real>, sizes: seq<nat>): (r: Result<seq<real>>)
    ensures r.Err? <==> sizes == []
    ensures r.Err? ==> r.error == MissingStreamSize
  {
    if sizes == [] then Err(MissingStreamSize)
    else Ok(PySlice(v, 0, sizes[0]) + PySlice(v, SumFirst(sizes, 3), SumFirst(sizes, 4)))
  }

  lemma {:induction false} SumWidthsSnoc(w: seq<nat>, x: nat)
    ensures SumWidths(w + [x]) == SumWidths(w) + x
  {
    if w == [] {
      assert [x][1..] == [];
    } else {
      assert (w + [x])[1..] == w[1..] + [x];
      SumWidthsSnoc(w[1..], x);
    }
  }

  /** Where entry i of the sliced vector comes from in the full vector. */
  function MgcBapSource(sizes: seq<nat>, i: nat): nat
    requires |sizes| >= 4
  {
    if i < sizes[0] then i else i - sizes[0] + sizes[0] + sizes[1] + sizes[2]
  }

  /**
   * With four stream sizes and a vector that covers them, the slice is the first
   * `sizes[0]` entries (mgc) followed by the `sizes[3]` entries after the mgc, lf0
   * and vuv blocks (bap).
   */
  lemma SliceMgcBapLayout(v: seq<real>, sizes: seq<nat>)
    requires |sizes| >= 4 && |v| >= sizes[0] + sizes[1] + sizes[2] + sizes[3]
    ensures SliceMgcBap(v, sizes).Ok?
    ensures |SliceMgcBap(v, sizes).value| == sizes[0] + sizes[3]
    ensures forall i :: 0 <= i < sizes[0] + sizes[3] ==>
              MgcBapSource(sizes, i) < |v| && SliceMgcBap(v, sizes).value[i] == v[MgcBapSource(sizes, i)]
  {
    assert sizes[..3] == [sizes[0], sizes[1]] + [sizes[2]];
    assert sizes[..4] == sizes[..3] + [sizes[3]];
    assert [sizes[0], sizes[1]] == [sizes[0]] + [sizes[1]];
    SumWidthsSnoc([], sizes[0]);
    SumWidthsSnoc([sizes[0]], sizes[1]);
    SumWidthsSnoc([sizes[0], sizes[1]], sizes[2]);
    SumWidthsSnoc(sizes[..3], sizes[3]);
    assert SumFirst(sizes, 3) == sizes[0] + sizes[1] + sizes[2];
    assert SumFirst(sizes, 4) == sizes[0] + sizes[1] + sizes[2] + sizes[3];
  }

  /**
   * The scaler the vocoder's input is standardised with. uSFGAN on [mcep, codeap]
   * keeps the mgc and bap dimensions of mean, variance and scale alike; any other
   * uSFGAN keeps the first 80 (the mel stream); PWG keeps the whole scaler.
   */
  function VocoderScaler(isUsfgan: bool, auxFeats: seq<string>, full: ScalerParams, sizes: seq<nat>): (r: Result<ScalerParams>)
    ensures r.Err? <==> isUsfgan && auxFeats == ["mcep", "codeap"] && sizes == []
    ensures !isUsfgan ==> r == Ok(full)
    ensures isUsfgan && auxFeats != ["mcep", "codeap"] ==>
              r == Ok(ScalerParams(PySlice(full.mean, 0, MelDims), PySlice(full.variance, 0, MelDims), PySlice(full.scale, 0, MelDims)))
    ensures isUsfgan && auxFeats == ["mcep", "codeap"] && sizes != [] ==>
              r == Ok(ScalerParams(SliceMgcBap(full.mean, sizes).value, SliceMgcBap(full.variance, sizes).value,
                                   SliceMgcBap(full.scale, sizes).value))
  {
    if !isUsfgan then Ok(full)
    else if auxFeats == ["mcep", "codeap"] then
      match (SliceMgcBap(full.mean, sizes), SliceMgcBap(full.variance, sizes), SliceMgcBap(full.scale, sizes))
      case (Ok(m), Ok(v), Ok(s)) => Ok(ScalerParams(m, v, s))
      case _ => Err(MissingStreamSize)
    else
      Ok(ScalerParams(PySlice(full.mean, 0, MelDims), PySlice(full.variance, 0, MelDims), PySlice(full.scale, 0, MelDims)))
  }

  /** Where entry i of the mgc/bap slice of a length-n vector comes from, with Python's clamping. */
  function SliceSource(n: nat, sizes: seq<nat>, i: nat): nat
    requires |sizes| > 0
  {
    if i < Min(sizes[0], n) then i else Min(SumFirst(sizes, 3), n) + (i - Min(sizes[0], n))
  }

  /** The same slice of the same-length vectors picks the same positions. */
  lemma SliceSameIndices(a: seq<real>, b: seq<real>, sizes: seq<nat>)
    requires |a| == |b| && |sizes| > 0
    ensures |SliceMgcBap(a, sizes).value| == |SliceMgcBap(b, sizes).value|
    ensures forall i :: 0 <= i < |SliceMgcBap(a, sizes).value| ==>
              && SliceSource(|a|, sizes, i) < |a|
              && SliceMgcBap(a, sizes).value[i] == a[SliceSource(|a|, sizes, i)]
              && SliceMgcBap(b, sizes).value[i] == b[SliceSource(|a|, sizes, i)]
  {
    var sa := SliceMgcBap(a, sizes).value;
    var sb := SliceMgcBap(b, sizes).value;
    var p := PySlice(a, 0, sizes[0]);
    var tail := PySlice(a, SumFirst(sizes, 3), SumFirst(sizes, 4));
    assert sa == p + tail;
    assert sb == PySlice(b, 0, sizes[0]) + PySlice(b, SumFirst(sizes, 3), SumFirst(sizes, 4));
    assert |p| == Min(sizes[0], |a|);
    forall i | 0 <= i < |sa|
      ensures SliceSource(|a|, sizes, i) < |a| && sa[i] == a[SliceSource(|a|, sizes, i)] && sb[i] == b[SliceSource(|a|, sizes, i)]
    {
      if i >= |p| {
        assert i - |p| < |tail|;
        assert Min(SumFirst(sizes, 3), |a|) == SumFirst(sizes, 3);
      }
    }
  }

  /** Every slice of a valid scaler is again a valid scaler: equal widths, no zero scale. */
  lemma VocoderScalerValid(isUsfgan: bool, auxFeats: seq<string>, full: ScalerParams, sizes: seq<nat>)
    requires ValidScaler(full)
    requires VocoderScaler(isUsfgan, auxFeats, full, sizes).Ok?
    ensures ValidScaler(VocoderScaler(isUsfgan, auxFeats, full, sizes).value)
  {
    var r := VocoderScaler(isUsfgan, auxFeats, full, sizes).value;
    if isUsfgan && auxFeats == ["mcep", "codeap"] {
      SliceSameIndices(full.mean, full.scale, sizes);
      SliceSameIndices(full.variance, full.scale, sizes);
      SliceSameIndices(full.scale, full.scale, sizes);
      forall j | 0 <= j < |r.scale|
        ensures r.scale[j] != 0.0
      {
        assert r.scale[j] == full.scale[SliceSource(|full.scale|, sizes, j)];
      }
    }
  }

  // ---------------------------------------------------------------------------
  // One utterance
  // ---------------------------------------------------------------------------

  /**
   * anasyn followed by post_process, as the script runs them, for one utterance:
   * the vocoder loaded exactly when a checkpoint is configured and the vocoder type
   * forced to WORLD otherwise. The samples written are 16-bit values, and a missing
   * vocoder is never reached.
   */
  method ProcessUtterance(features: Matrix, staticSizes: seq<nat>, tk: Toolkit,
                          vocoder: Option<NeuralVocoder>, checkpoint: Option<string>, cfg: Settings,
                          bandpass: (seq<real>, int) -> seq<real>,
                          isUsfgan: bool, auxFeats: seq<string>, loadedScaler: ScalerParams)
    returns (r: Result<seq<int>>)
    requires vocoder.Some? <==> CheckpointGiven(checkpoint)
    // the loaded vocoder standardises with the scaler the driver sliced from the saved one
    requires vocoder.Some? ==> VocoderScaler(isUsfgan, auxFeats, loadedScaler, staticSizes) == Ok(vocoder.value.inScaler)
    ensures r.Ok? ==> forall i :: 0 <= i < |r.value| ==> -32767 <= r.value[i] <= 32767
    ensures r != Err(VocoderNotFound)
    ensures var wav := AnasynSpec(features, staticSizes, tk, vocoder,
                                  cfg.(vocoderType := EffectiveVocoderType(checkpoint, cfg.vocoderType)));
            r == if wav.Err? then Err(wav.error) else PostProcessAsWritten(wav.value, cfg.sampleRate, bandpass)
  {
    var effective := cfg.(vocoderType := EffectiveVocoderType(checkpoint, cfg.vocoderType));
    var wav := Anasyn.Anasyn(features, staticSizes, tk, vocoder, effective);
    if wav.Err? {
      return Err(wav.error);
    }
    r := PostProcessAsWritten(wav.value, cfg.sampleRate, bandpass);
  }

  /**
   * The same pipeline with the corrected post_process: a loud waveform keeps its
   * peak at full scale instead of collapsing to a few quantisation steps.
   */
  method ProcessUtteranceCorrected(features: Matrix, staticSizes: seq<nat>, tk: Toolkit,
                                   vocoder: Option<NeuralVocoder>, checkpoint: Option<string>, cfg: Settings,
                                   bandpass: (seq<real>, int) -> seq<real>,
                                   isUsfgan: bool, auxFeats: seq<string>, loadedScaler: ScalerParams)
    returns (r: Result<seq<int>>)
    requires vocoder.Some? <==> CheckpointGiven(checkpoint)
    // the loaded vocoder standardises with the scaler the driver sliced from the saved one
    requires vocoder.Some? ==> VocoderScaler(isUsfgan, auxFeats, loadedScaler, staticSizes) == Ok(vocoder.value.inScaler)
    ensures r.Ok? ==> forall i :: 0 <= i < |r.value| ==> -32767 <= r.value[i] <= 32767
    ensures r != Err(VocoderNotFound)
    ensures var wav := AnasynSpec(features, staticSizes, tk, vocoder,
                                  cfg.(vocoderType := EffectiveVocoderType(checkpoint, cfg.vocoderType)));
            r == if wav.Err? then Err(wav.error) else PostProcess(wav.value, cfg.sampleRate, bandpass)
  {
    var effective := cfg.(vocoderType := EffectiveVocoderType(checkpoint, cfg.vocoderType));
    var wav := Anasyn.Anasyn(features, staticSizes, tk, vocoder, effective);
    if wav.Err? {
      return Err(wav.error);
    }
    r := PostProcess(wav.value, cfg.sampleRate, bandpass);
  }

  /** Without a checkpoint, WORLD features always synthesise with WORLD and never need a vocoder. */
  lemma FallbackNeedsNoVocoder(features: Matrix, staticSizes: seq<nat>, tk: Toolkit, cfg: Settings)
    requires cfg.featureType == "world" && |tk.splitStreams(features, staticSizes)| == 4
    ensures AnasynSpec(features, staticSizes, tk, None, cfg.(vocoderType := EffectiveVocoderType(None, cfg.vocoderType))).Ok?
  {
  }
}
