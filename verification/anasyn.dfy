/**
 * Analysis-by-synthesis (nnsvs/bin/anasyn.py): turn one utterance's acoustic
 * feature array back into a waveform with WORLD or with a neural vocoder
 * (Parallel WaveGAN or unified source-filter GAN), then quantise it to 16 bits.
 *
 * Stream splitting, the WORLD codec and synthesiser, the networks and np.exp are
 * opaque functions; the array code the script itself runs (binarising V/UV, the
 * aperiodicity repair, the sine-excitation gating, the peak normalisation) is
 * modelled in full, the two in-place writes on arrays.
 */
module Anasyn {
  import opened Common
  import opened Numerics
  import opened Features

  /** Width of the mel-spectrogram stream when the features are mel + lf0 + vuv. */
  const MelDims: nat := 80

  /** Stream sizes the mel-feature layout is split with. */
  const MelSizes: seq<nat> := [MelDims, 1, 1]

  /** The library calls the script makes, as uninterpreted functions of their arguments. */
  datatype Toolkit = Toolkit(
    splitStreams: (Matrix, seq<nat>) -> seq<Matrix>,
    genWorldParams: (Matrix, Matrix, Matrix, Matrix, int, real, bool) -> WorldParams,
    synthesize: (WorldParams, int, real) -> seq<real>,
    fftSize: int -> int,
    decodeAperiodicity: (Matrix, int, int) -> Matrix,
    codeAperiodicity: (Matrix, int) -> Matrix,
    exp: real -> real)

  /**
   * A loaded neural vocoder with its input scaler: `inference` takes the
   * conditioning features (PWG), `excitedInference` the f0 track and the auxiliary
   * features (uSFGAN); `sineF0Type` is the vocoder's configured excitation type.
   */
  datatype NeuralVocoder = NeuralVocoder(
    inference: Matrix -> seq<real>,
    excitedInference: (Matrix, Matrix) -> seq<real>,
    sineF0Type: string,
    inScaler: Scaler)

  /** The synthesis settings anasyn receives. */
  datatype Settings = Settings(
    sampleRate: int,
    framePeriod: real,
    vuvThreshold: real,
    useWorldCodec: bool,
    featureType: string,
    vocoderType: string)

  datatype FeatureLayout = WorldFeatures | MelFeatures
  datatype VocoderRoute = WorldVocoder | PwgVocoder | UsfganVocoder
  datatype Route = Route(features: FeatureLayout, vocoder: VocoderRoute)

  /**
   * The checks anasyn makes before any synthesis, in the order it makes them: the
   * feature type and its stream count, then the vocoder type, then whether WORLD
   * has the streams it needs. `worldStreams` and `melStreams` are the number of
   * streams the two splits produced.
   */
  function Plan(featureType: string, vocoderType: string, worldStreams: nat, melStreams: nat): (r: Result<Route>)
    ensures featureType != "world" && featureType != "melf0" ==> r == Err(UnknownFeatureType(featureType))
    ensures featureType == "world" && worldStreams != 4 ==> r == Err(StreamCountMismatch(4, worldStreams))
    ensures featureType == "melf0" && melStreams != 3 ==> r == Err(StreamCountMismatch(3, melStreams))
    ensures r.Ok? <==>
              && ((featureType == "world" && worldStreams == 4) || (featureType == "melf0" && melStreams == 3))
              && (vocoderType == "world" || vocoderType == "pwg" || vocoderType == "usfgan")
              && !(featureType == "melf0" && vocoderType == "world")
    ensures r.Ok? ==> (r.value.features == WorldFeatures <==> featureType == "world")
    ensures r.Ok? ==> (r.value.vocoder == WorldVocoder <==> vocoderType == "world")
    ensures r.Ok? ==> (r.value.vocoder == PwgVocoder <==> vocoderType == "pwg")
    ensures r.Ok? ==> (r.value.vocoder == UsfganVocoder <==> vocoderType == "usfgan")
    ensures featureType == "melf0" && melStreams == 3 && vocoderType == "world" ==> r == Err(UnboundStreams)
    ensures ((featureType == "world" && worldStreams == 4) || (featureType == "melf0" && melStreams == 3))
              && vocoderType != "world" && vocoderType != "pwg" && vocoderType != "usfgan" ==>
              r == Err(UnknownVocoderType(vocoderType))
  {
    if featureType == "world" && worldStreams != 4 then Err(StreamCountMismatch(4, worldStreams))
    else if featureType == "melf0" && melStreams != 3 then Err(StreamCountMismatch(3, melStreams))
    else if featureType != "world" && featureType != "melf0" then Err(UnknownFeatureType(featureType))
    else
      var layout := if featureType == "world" then WorldFeatures else MelFeatures;
      if vocoderType == "world" then
        if layout == MelFeatures then Err(UnboundStreams) else Ok(Route(layout, WorldVocoder))
      else if vocoderType == "pwg" then Ok(Route(layout, PwgVocoder))
      else if vocoderType == "usfgan" then Ok(Route(layout, UsfganVocoder))
      else Err(UnknownVocoderType(vocoderType))
  }

  // ---------------------------------------------------------------------------
  // Binary V/UV
  // ---------------------------------------------------------------------------

  /** `(vuv > threshold).astype(np.float32)`: 1.0 for voiced frames, 0.0 otherwise. */
  function Binarize(vuv: Matrix, threshold: real): (r: Matrix)
    ensures SameShape(r, vuv)
    ensures forall i, j :: 0 <= i < |vuv| && 0 <= j < |vuv[i]| ==>
              (r[i][j] == 1.0 <==> vuv[i][j] > threshold) && (r[i][j] == 0.0 <==> vuv[i][j] <= threshold)
  {
    seq(|vuv|, i requires 0 <= i < |vuv| =>
      seq(|vuv[i]|, j requires 0 <= j < |vuv[i]| => if vuv[i][j] > threshold then 1.0 else 0.0))
  }

  /** Binarising binary V/UV again changes nothing, for any threshold in [0, 1). */
  lemma BinarizeIdempotent(vuv: Matrix, threshold: real)
    requires 0.0 <= threshold < 1.0
    ensures Binarize(Binarize(vuv, threshold), threshold) == Binarize(vuv, threshold)
  {
    var b := Binarize(vuv, threshold);
    var bb := Binarize(b, threshold);
    forall i | 0 <= i < |vuv|
      ensures bb[i] == b[i]
    {
      forall j | 0 <= j < |vuv[i]|
        ensures bb[i][j] == b[i][j]
      {
        if vuv[i][j] > threshold {
          assert b[i][j] == 1.0;
        } else {
          assert b[i][j] == 0.0;
        }
      }
    }
  }

  /**
   * The sine-excitation gate `vuv < threshold` applied to binarised V/UV (the mel
   * route) silences exactly the frames with vuv <= threshold, whereas on raw V/UV
   * (the WORLD-feature route) it silences those with vuv < threshold: a frame
   * sitting exactly on the threshold is unvoiced for one route and voiced for the other.
   */
  lemma BinarizedGate(vuv: Matrix, threshold: real)
    requires 0.0 < threshold <= 1.0
    ensures forall i, j :: 0 <= i < |vuv| && 0 <= j < |vuv[i]| ==>
              (Binarize(vuv, threshold)[i][j] < threshold <==> vuv[i][j] <= threshold)
  {
  }

  // ---------------------------------------------------------------------------
  // Aperiodicity repair (WORLD features into uSFGAN)
  // ---------------------------------------------------------------------------

  /** Set column 0 of every frame whose V/UV is below the threshold to 1.0. */
  function FillUnvoiced(ap: Matrix, vuv: seq<real>, threshold: real): (r: Matrix)
    requires |vuv| == |ap|
    ensures SameShape(r, ap)
    ensures forall i, j :: 0 <= i < |ap| && 0 <= j < |ap[i]| ==>
              r[i][j] == (if j == 0 && vuv[i] < threshold then 1.0 else ap[i][j])
  {
    seq(|ap|, i requires 0 <= i < |ap| =>
      if vuv[i] < threshold && |ap[i]| > 0 then ap[i][0 := 1.0] else ap[i])
  }

  /** `np.clip(m, 0.0, 1.0)`. */
  function ClipUnit(m: Matrix): (r: Matrix)
    ensures SameShape(r, m)
    ensures forall i, j :: 0 <= i < |m| && 0 <= j < |m[i]| ==>
              && 0.0 <= r[i][j] <= 1.0
              && (0.0 <= m[i][j] <= 1.0 ==> r[i][j] == m[i][j])
              && (m[i][j] < 0.0 ==> r[i][j] == 0.0)
              && (m[i][j] > 1.0 ==> r[i][j] == 1.0)
  {
    seq(|m|, i requires 0 <= i < |m| =>
      seq(|m[i]|, j requires 0 <= j < |m[i]| => Clip(m[i][j], 0.0, 1.0)))
  }

  /**
   * The decoded aperiodicity after anasyn's repair: every value lies in [0, 1],
   * column 0 of every unvoiced frame is fully aperiodic, and every other entry is
   * the decoded value clamped to [0, 1].
   */
  function RepairedAperiodicity(ap: Matrix, vuv: seq<real>, threshold: real): (r: Matrix)
    requires |vuv| == |ap|
    ensures SameShape(r, ap)
    ensures forall i, j :: 0 <= i < |r| && 0 <= j < |r[i]| ==> 0.0 <= r[i][j] <= 1.0
    ensures forall i :: 0 <= i < |ap| && vuv[i] < threshold && |ap[i]| > 0 ==> r[i][0] == 1.0
    ensures forall i, j :: 0 <= i < |ap| && 0 <= j < |ap[i]| && !(j == 0 && vuv[i] < threshold) ==>
              r[i][j] == Clip(ap[i][j], 0.0, 1.0)
  {
    ClipUnit(FillUnvoiced(ap, vuv, threshold))
  }

  /** Repairing twice gives the same as repairing once. */
  lemma RepairIdempotent(ap: Matrix, vuv: seq<real>, threshold: real)
    requires |vuv| == |ap|
    ensures RepairedAperiodicity(RepairedAperiodicity(ap, vuv, threshold), vuv, threshold)
         == RepairedAperiodicity(ap, vuv, threshold)
  {
    var once := RepairedAperiodicity(ap, vuv, threshold);
    var twice := RepairedAperiodicity(once, vuv, threshold);
    forall i | 0 <= i < |ap|
      ensures twice[i] == once[i]
    {
      forall j | 0 <= j < |ap[i]|
        ensures twice[i][j] == once[i][j]
      {
        if j == 0 && vuv[i] < threshold {
          assert twice[i][0] == 1.0;
        } else {
          assert twice[i][j] == Clip(once[i][j], 0.0, 1.0);
        }
      }
    }
  }

  /** The contents of a 2-D array, row by row. */
  function Rows(a: array2<real>): (m: Matrix)
    reads a
    ensures |m| == a.Length0 && IsRect(m, a.Length1)
    ensures forall i, j :: 0 <= i < a.Length0 && 0 <= j < a.Length1 ==> m[i][j] == a[i, j]
  {
    seq(a.Length0, i requires 0 <= i < a.Length0 reads a =>
      seq(a.Length1, j requires 0 <= j < a.Length1 reads a => a[i, j]))
  }

  /** A fresh 2-D array holding a rectangular matrix. */
  method ToArray(m: Matrix, cols: nat) returns (a: array2<real>)
    requires IsRect(m, cols)
    ensures fresh(a)
    ensures Rows(a) == m
  {
    a := new real[|m|, cols]((i, j) requires 0 <= i < |m| && 0 <= j < cols => m[i][j]);
    assert forall i :: 0 <= i < |m| ==> Rows(a)[i] == m[i];
  }

  /** `aperiodicity[vuv.reshape(-1) < vuv_threshold, 0] = 1.0`, in place. */
  method FillUnvoicedInPlace(ap: array2<real>, vuv: seq<real>, threshold: real)
    requires ap.Length0 == |vuv| && ap.Length1 > 0
    modifies ap
    ensures Rows(ap) == FillUnvoiced(old(Rows(ap)), vuv, threshold)
  {
    ghost var before := Rows(ap);
    var i := 0;
    while i < ap.Length0
      invariant 0 <= i <= ap.Length0
      invariant forall k, j :: 0 <= k < ap.Length0 && 0 <= j < ap.Length1 ==>
                  ap[k, j] == (if k < i && j == 0 && vuv[k] < threshold then 1.0 else before[k][j])
    {
      if vuv[i] < threshold {
        ap[i, 0] := 1.0;
      }
      i := i + 1;
    }
    ghost var filled := FillUnvoiced(before, vuv, threshold);
    assert forall k :: 0 <= k < ap.Length0 ==> Rows(ap)[k] == filled[k];
  }

  /**
   * The aperiodicity repair as the script performs it: copy the decoded array,
   * fill unvoiced column 0 in place, clip. A decoded array that does not have one
   * row per V/UV frame, or has no column 0, makes numpy raise.
   */
  method RepairAperiodicity(decoded: Matrix, vuv: Matrix, threshold: real) returns (r: Result<Matrix>)
    ensures r.Ok? <==> ApertureIndexable(decoded, Flatten(vuv))
    ensures r.Ok? ==> r.value == RepairedAperiodicity(decoded, Flatten(vuv), threshold)
    ensures r.Err? ==> r.error == ShapeMismatch
  {
    var mask := Flatten(vuv);
    if !ApertureIndexable(decoded, mask) {
      return Err(ShapeMismatch);
    }
    var ap := ToArray(decoded, |decoded[0]|);
    FillUnvoicedInPlace(ap, mask, threshold);
    r := Ok(ClipUnit(Rows(ap)));
  }

  /** The mask has one entry per row, and the rows have a column 0 to write. */
  predicate ApertureIndexable(decoded: Matrix, mask: seq<real>)
  {
    && |mask| == |decoded|
    && |decoded| > 0
    && |decoded[0]| > 0
    && IsRect(decoded, |decoded[0]|)
  }

  // ---------------------------------------------------------------------------
  // Sine excitation (uSFGAN)
  // ---------------------------------------------------------------------------

  /** A matrix that is a proper 2-D array: all rows as wide as the first. */
  predicate IsArray(m: Matrix)
  {
    |m| == 0 || IsRect(m, |m[0]|)
  }

  function Width(m: Matrix): nat
  {
    if |m| == 0 then 0 else |m[0]|
  }

  /** `np.exp(lf0)`: the continuous f0 track. */
  function ContinuousF0(lf0: Matrix, exp: real -> real): (r: Matrix)
    ensures SameShape(r, lf0)
    ensures forall i, j :: 0 <= i < |lf0| && 0 <= j < |lf0[i]| ==> r[i][j] == exp(lf0[i][j])
  {
    seq(|lf0|, i requires 0 <= i < |lf0| =>
      seq(|lf0[i]|, j requires 0 <= j < |lf0[i]| => exp(lf0[i][j])))
  }

  /** The continuous f0 track with every frame whose V/UV is below the threshold set to 0. */
  function GatedF0(lf0: Matrix, vuv: Matrix, threshold: real, exp: real -> real): (r: Matrix)
    requires SameShape(lf0, vuv)
    ensures SameShape(r, lf0)
    ensures forall i, j :: 0 <= i < |lf0| && 0 <= j < |lf0[i]| ==>
              r[i][j] == (if vuv[i][j] < threshold then 0.0 else exp(lf0[i][j]))
  {
    seq(|lf0|, i requires 0 <= i < |lf0| =>
      seq(|lf0[i]|, j requires 0 <= j < |lf0[i]| => if vuv[i][j] < threshold then 0.0 else exp(lf0[i][j])))
  }

  /** The exponential the script uses is positive everywhere. */
  ghost predicate ExpPositive(exp: real -> real)
  {
    forall x :: exp(x) > 0.0
  }

  /**
   * With a positive exponential, the gated track is zero exactly at the unvoiced
   * frames and agrees with the continuous track everywhere else.
   */
  lemma GatedF0ZeroIffUnvoiced(lf0: Matrix, vuv: Matrix, threshold: real, exp: real -> real)
    requires SameShape(lf0, vuv) && ExpPositive(exp)
    ensures forall i, j :: 0 <= i < |lf0| && 0 <= j < |lf0[i]| ==>
              (GatedF0(lf0, vuv, threshold, exp)[i][j] == 0.0 <==> vuv[i][j] < threshold)
    ensures forall i, j :: 0 <= i < |lf0| && 0 <= j < |lf0[i]| && vuv[i][j] >= threshold ==>
              GatedF0(lf0, vuv, threshold, exp)[i][j] == ContinuousF0(lf0, exp)[i][j]
  {
    forall i, j | 0 <= i < |lf0| && 0 <= j < |lf0[i]|
      ensures GatedF0(lf0, vuv, threshold, exp)[i][j] == 0.0 <==> vuv[i][j] < threshold
    {
      var x := lf0[i][j];
      assert exp(x) > 0.0;
    }
  }

  /**
   * The f0 input of the excitation-driven vocoder: the continuous track for
   * "contf0", the gated track for "f0". Any other type leaves the input unbound,
   * and a mask whose shape differs from the track makes numpy raise.
   */
  function Excitation(lf0: Matrix, vuv: Matrix, threshold: real, sineF0Type: string, exp: real -> real): (r: Result<Matrix>)
    ensures sineF0Type != "contf0" && sineF0Type != "f0" && IsArray(lf0) ==> r == Err(UnknownSineF0Type(sineF0Type))
    ensures r.Ok? ==> IsArray(lf0) && SameShape(r.value, lf0)
    ensures r.Ok? && sineF0Type == "contf0" ==> r.value == ContinuousF0(lf0, exp)
    ensures r.Ok? && sineF0Type == "f0" ==> SameShape(lf0, vuv) && r.value == GatedF0(lf0, vuv, threshold, exp)
    ensures IsArray(lf0) && (sineF0Type == "contf0" || (sineF0Type == "f0" && SameShape(lf0, vuv))) ==> r.Ok?
  {
    if !IsArray(lf0) then Err(ShapeMismatch)
    else if sineF0Type == "contf0" then Ok(ContinuousF0(lf0, exp))
    else if sineF0Type == "f0" then
      if SameShape(lf0, vuv) then Ok(GatedF0(lf0, vuv, threshold, exp)) else Err(ShapeMismatch)
    else Err(UnknownSineF0Type(sineF0Type))
  }

  /** `f0_inp[vuv < vuv_threshold] = 0`, in place. */
  method GateUnvoicedInPlace(f0: array2<real>, vuv: Matrix, threshold: real)
    requires |vuv| == f0.Length0 && IsRect(vuv, f0.Length1)
    modifies f0
    ensures forall i, j :: 0 <= i < f0.Length0 && 0 <= j < f0.Length1 ==>
              f0[i, j] == (if vuv[i][j] < threshold then 0.0 else old(f0[i, j]))
  {
    var i := 0;
    while i < f0.Length0
      invariant 0 <= i <= f0.Length0
      invariant forall k, j :: 0 <= k < f0.Length0 && 0 <= j < f0.Length1 ==>
                  f0[k, j] == (if k < i && vuv[k][j] < threshold then 0.0 else old(f0[k, j]))
    {
      var j := 0;
      while j < f0.Length1
        invariant 0 <= j <= f0.Length1
        invariant forall k, c :: 0 <= k < f0.Length0 && 0 <= c < f0.Length1 ==>
                    f0[k, c] == (if (k < i || (k == i && c < j)) && vuv[k][c] < threshold then 0.0 else old(f0[k, c]))
      {
        if vuv[i][j] < threshold {
          f0[i, j] := 0.0;
        }
        j := j + 1;
      }
      i := i + 1;
    }
  }

  /**
   * The excitation as the script computes it: exponentiate lf0 into a fresh array
   * and, for "f0", zero the unvoiced frames through an alias of that array.
   */
  method SineExcitation(lf0: Matrix, vuv: Matrix, threshold: real, sineF0Type: string, exp: real -> real)
    returns (r: Result<Matrix>)
    ensures r == Excitation(lf0, vuv, threshold, sineF0Type, exp)
  {
    if !IsArray(lf0) {
      return Err(ShapeMismatch);
    }
    var contf0 := ToArray(ContinuousF0(lf0, exp), Width(lf0));
    if sineF0Type == "contf0" {
      r := Ok(Rows(contf0));
    } else if sineF0Type == "f0" {
      var f0Inp := contf0;  // the same array: gating f0Inp rewrites contf0 as well
      if !SameShape(lf0, vuv) {
        return Err(ShapeMismatch);
      }
      GateUnvoicedInPlace(f0Inp, vuv, threshold);
      r := Ok(Rows(f0Inp));
      assert forall i :: 0 <= i < |lf0| ==> r.value[i] == GatedF0(lf0, vuv, threshold, exp)[i];
      assert r.value == GatedF0(lf0, vuv, threshold, exp);
      assert Rows(contf0) == r.value;  // contf0 no longer holds the continuous track
    } else {
      r := Err(UnknownSineF0Type(sineF0Type));
    }
  }

  // ---------------------------------------------------------------------------
  // The analysis-synthesis itself
  // ---------------------------------------------------------------------------

  /** The conditioning input of the PWG vocoder: all streams with V/UV binarised, standardised. */
  function PwgInput(s: Scaler, parts: seq<Matrix>, threshold: real): (r: Result<Matrix>)
    requires |parts| >= 3
    ensures r.Ok? ==> |r.value| == |parts[0]| && IsRect(r.value, |s.mean|)
    ensures r.Ok? <==> ScaledConcat(s, parts[2 := Binarize(parts[2], threshold)]).Ok?
  {
    ScaledConcat(s, parts[2 := Binarize(parts[2], threshold)])
  }

  /**
   * For frame-aligned streams and a scaler as wide as all of them together, the PWG
   * input exists and de-standardises, in every frame, to the streams side by side in
   * their order, with the V/UV stream (the third) binarised and every other stream
   * unchanged.
   */
  lemma PwgInputLayout(s: Scaler, parts: seq<Matrix>, widths: seq<nat>, threshold: real)
    requires |parts| >= 3 && AlignedParts(parts, widths)
    requires |s.mean| == SumWidths(widths)
    ensures PwgInput(s, parts, threshold).Ok?
    ensures |PwgInput(s, parts, threshold).value| == |parts[0]|
    ensures forall k, j :: 0 <= k < |parts| && 0 <= j < widths[k] ==> Column(widths, k, j) < |s.mean|
    ensures forall t, k, j :: 0 <= t < |parts[0]| && 0 <= k < |parts| && 0 <= j < widths[k] ==>
              PwgInput(s, parts, threshold).value[t][Column(widths, k, j)] * s.scale[Column(widths, k, j)]
                + s.mean[Column(widths, k, j)]
              == (if k == 2 then Binarize(parts[2], threshold)[t][j] else parts[k][t][j])
  {
    BinarizedAligned(parts, widths, threshold);
    ScaledConcatReplaceLayout(s, parts, widths, 2, Binarize(parts[2], threshold));
    assert parts[2 := Binarize(parts[2], threshold)][0] == parts[0];
    assert PwgInput(s, parts, threshold) == ScaledConcat(s, parts[2 := Binarize(parts[2], threshold)]);
  }

  /** Binarising the V/UV stream keeps the streams frame-aligned with the same widths. */
  lemma BinarizedAligned(parts: seq<Matrix>, widths: seq<nat>, threshold: real)
    requires |parts| >= 3 && AlignedParts(parts, widths)
    ensures AlignedParts(parts[2 := Binarize(parts[2], threshold)], widths)
  {
    var b := Binarize(parts[2], threshold);
    assert SameShape(b, parts[2]);
    assert IsRect(b, widths[2]);
  }

  /**
   * The auxiliary features of uSFGAN. For WORLD features: mgc and the re-coded
   * repaired band aperiodicity, standardised; for mel features: the mel stream,
   * standardised. A missing vocoder is noticed only when its scaler is used.
   */
  function UsfganAux(layout: FeatureLayout, parts: seq<Matrix>, tk: Toolkit,
                     vocoder: Option<NeuralVocoder>, sampleRate: int, threshold: real): (r: Result<Matrix>)
    requires layout == WorldFeatures ==> |parts| == 4
    requires layout == MelFeatures ==> |parts| == 3
    ensures r.Ok? ==> vocoder.Some?
    ensures vocoder.None? && layout == MelFeatures ==> r == Err(VocoderNotFound)
    ensures layout == MelFeatures && vocoder.Some? ==> r == Transform(vocoder.value.inScaler, parts[0])
    ensures layout == WorldFeatures ==>
              var decoded := tk.decodeAperiodicity(parts[3], sampleRate, tk.fftSize(sampleRate));
              && (!ApertureIndexable(decoded, Flatten(parts[2])) ==> r == Err(ShapeMismatch))
              && (ApertureIndexable(decoded, Flatten(parts[2])) && vocoder.None? ==> r == Err(VocoderNotFound))
              && (ApertureIndexable(decoded, Flatten(parts[2])) && vocoder.Some? ==>
                    r == ScaledConcat(vocoder.value.inScaler,
                           [parts[0], tk.codeAperiodicity(RepairedAperiodicity(decoded, Flatten(parts[2]), threshold), sampleRate)]))
  {
    match layout
    case WorldFeatures =>
      var decoded := tk.decodeAperiodicity(parts[3], sampleRate, tk.fftSize(sampleRate));
      var mask := Flatten(parts[2]);
      if !ApertureIndexable(decoded, mask) then Err(ShapeMismatch)
      else
        var bap := tk.codeAperiodicity(RepairedAperiodicity(decoded, mask, threshold), sampleRate);
        if vocoder.None? then Err(VocoderNotFound)
        else ScaledConcat(vocoder.value.inScaler, [parts[0], bap])
    case MelFeatures =>
      if vocoder.None? then Err(VocoderNotFound)
      else Transform(vocoder.value.inScaler, parts[0])
  }

  /** The V/UV the sine excitation is gated with: binarised on the mel route, raw otherwise. */
  function GateVuv(layout: FeatureLayout, vuv: Matrix, threshold: real): (r: Matrix)
    ensures SameShape(r, vuv)
    ensures layout == WorldFeatures ==> r == vuv
    ensures layout == MelFeatures ==>
              forall i, j :: 0 <= i < |vuv| && 0 <= j < |vuv[i]| ==>
                (r[i][j] == 1.0 <==> vuv[i][j] > threshold) && (r[i][j] == 0.0 <==> vuv[i][j] <= threshold)
  {
    if layout == MelFeatures then Binarize(vuv, threshold) else vuv
  }

  /** The streams of the chosen layout: [mgc, lf0, vuv, bap] or [mel, lf0, vuv]. */
  function Streams(layout: FeatureLayout, features: Matrix, staticSizes: seq<nat>, tk: Toolkit): seq<Matrix>
  {
    if layout == WorldFeatures then tk.splitStreams(features, staticSizes) else tk.splitStreams(features, MelSizes)
  }

  /** The layout a feature type names (meaningful for "world" and "melf0"). */
  function LayoutOf(featureType: string): FeatureLayout
  {
    if featureType == "world" then WorldFeatures else MelFeatures
  }

  /** The feature type is known and its split produced the streams it needs. */
  predicate StreamsReady(features: Matrix, staticSizes: seq<nat>, tk: Toolkit, featureType: string)
  {
    || (featureType == "world" && |tk.splitStreams(features, staticSizes)| == 4)
    || (featureType == "melf0" && |tk.splitStreams(features, MelSizes)| == 3)
  }

  /** What `anasyn` returns for one feature array: the waveform, or the error it raises. */
  function AnasynSpec(features: Matrix, staticSizes: seq<nat>, tk: Toolkit,
                      vocoder: Option<NeuralVocoder>, cfg: Settings): (r: Result<seq<real>>)
    ensures cfg.featureType != "world" && cfg.featureType != "melf0" ==> r == Err(UnknownFeatureType(cfg.featureType))
    ensures cfg.featureType == "world" && |tk.splitStreams(features, staticSizes)| != 4 ==>
              r == Err(StreamCountMismatch(4, |tk.splitStreams(features, staticSizes)|))
    ensures cfg.featureType == "melf0" && |tk.splitStreams(features, MelSizes)| != 3 ==>
              r == Err(StreamCountMismatch(3, |tk.splitStreams(features, MelSizes)|))
    ensures cfg.featureType == "melf0" && |tk.splitStreams(features, MelSizes)| == 3 && cfg.vocoderType == "world" ==>
              r == Err(UnboundStreams)
    ensures StreamsReady(features, staticSizes, tk, cfg.featureType)
              && cfg.vocoderType != "world" && cfg.vocoderType != "pwg" && cfg.vocoderType != "usfgan" ==>
              r == Err(UnknownVocoderType(cfg.vocoderType))
    ensures cfg.featureType == "world" && cfg.vocoderType == "world" ==>
              var s := tk.splitStreams(features, staticSizes);
              |s| == 4 ==>
                r == Ok(tk.synthesize(tk.genWorldParams(s[0], s[1], s[2], s[3], cfg.sampleRate, cfg.vuvThreshold, cfg.useWorldCodec),
                                      cfg.sampleRate, cfg.framePeriod))
    ensures StreamsReady(features, staticSizes, tk, cfg.featureType) && cfg.vocoderType == "pwg" ==>
              if vocoder.None? then r == Err(VocoderNotFound)
              else
                var inp := PwgInput(vocoder.value.inScaler, Streams(LayoutOf(cfg.featureType), features, staticSizes, tk),
                                    cfg.vuvThreshold);
                r == if inp.Err? then Err(ShapeMismatch) else Ok(vocoder.value.inference(inp.value))
    ensures StreamsReady(features, staticSizes, tk, cfg.featureType) && cfg.vocoderType == "usfgan" ==>
              var layout := LayoutOf(cfg.featureType);
              var parts := Streams(layout, features, staticSizes, tk);
              var aux := UsfganAux(layout, parts, tk, vocoder, cfg.sampleRate, cfg.vuvThreshold);
              if aux.Err? then r == Err(aux.error)
              else
                var f0 := Excitation(parts[1], GateVuv(layout, parts[2], cfg.vuvThreshold), cfg.vuvThreshold,
                                     vocoder.value.sineF0Type, tk.exp);
                r == if f0.Err? then Err(f0.error) else Ok(vocoder.value.excitedInference(f0.value, aux.value))
    ensures r == Err(VocoderNotFound) ==> vocoder.None? && (cfg.vocoderType == "pwg" || cfg.vocoderType == "usfgan")
    ensures r.Ok? && cfg.vocoderType != "world" ==> vocoder.Some?
    ensures r.Ok? ==> cfg.vocoderType == "world" || cfg.vocoderType == "pwg" || cfg.vocoderType == "usfgan"
  {
    var plan := Plan(cfg.featureType, cfg.vocoderType,
                     |tk.splitStreams(features, staticSizes)|, |tk.splitStreams(features, MelSizes)|);
    if plan.Err? then Err(plan.error)
    else
      var route := plan.value;
      var parts := Streams(route.features, features, staticSizes, tk);
      var th := cfg.vuvThreshold;
      match route.vocoder
      case WorldVocoder =>
        var params := tk.genWorldParams(parts[0], parts[1], parts[2], parts[3], cfg.sampleRate, th, cfg.useWorldCodec);
        Ok(tk.synthesize(params, cfg.sampleRate, cfg.framePeriod))
      case PwgVocoder =>
        if vocoder.None? then Err(VocoderNotFound)
        else
          var inp := PwgInput(vocoder.value.inScaler, parts, th);
          if inp.Err? then Err(inp.error) else Ok(vocoder.value.inference(inp.value))
      case UsfganVocoder =>
        var aux := UsfganAux(route.features, parts, tk, vocoder, cfg.sampleRate, th);
        if aux.Err? then Err(aux.error)
        else
          var f0 := Excitation(parts[1], GateVuv(route.features, parts[2], th), th, vocoder.value.sineF0Type, tk.exp);
          if f0.Err? then Err(f0.error) else Ok(vocoder.value.excitedInference(f0.value, aux.value))
  }

  /**
   * With a PWG vocoder, frame-aligned streams and an input scaler as wide as all of
   * them, anasyn always produces a waveform: the vocoder's output on the standardised
   * streams with V/UV binarised.
   */
  lemma PwgSynthesisesAlignedStreams(features: Matrix, staticSizes: seq<nat>, tk: Toolkit,
                                     vocoder: Option<NeuralVocoder>, cfg: Settings, widths: seq<nat>)
    requires StreamsReady(features, staticSizes, tk, cfg.featureType) && cfg.vocoderType == "pwg" && vocoder.Some?
    requires AlignedParts(Streams(LayoutOf(cfg.featureType), features, staticSizes, tk), widths)
    requires |vocoder.value.inScaler.mean| == SumWidths(widths)
    ensures PwgInput(vocoder.value.inScaler, Streams(LayoutOf(cfg.featureType), features, staticSizes, tk), cfg.vuvThreshold).Ok?
    ensures AnasynSpec(features, staticSizes, tk, vocoder, cfg)
            == Ok(vocoder.value.inference(
                 PwgInput(vocoder.value.inScaler, Streams(LayoutOf(cfg.featureType), features, staticSizes, tk), cfg.vuvThreshold).value))
  {
    PwgInputLayout(vocoder.value.inScaler, Streams(LayoutOf(cfg.featureType), features, staticSizes, tk), widths, cfg.vuvThreshold);
  }

  /** uSFGAN's auxiliary features, with the aperiodicity repaired in place. */
  method UsfganAuxInPlace(layout: FeatureLayout, parts: seq<Matrix>, tk: Toolkit,
                          vocoder: Option<NeuralVocoder>, sampleRate: int, threshold: real)
    returns (r: Result<Matrix>)
    requires layout == WorldFeatures ==> |parts| == 4
    requires layout == MelFeatures ==> |parts| == 3
    ensures r == UsfganAux(layout, parts, tk, vocoder, sampleRate, threshold)
  {
    if layout == MelFeatures {
      return if vocoder.None? then Err(VocoderNotFound) else Transform(vocoder.value.inScaler, parts[0]);
    }
    var decoded := tk.decodeAperiodicity(parts[3], sampleRate, tk.fftSize(sampleRate));
    var repaired := RepairAperiodicity(decoded, parts[2], threshold);
    if repaired.Err? {
      return Err(repaired.error);
    }
    var bap := tk.codeAperiodicity(repaired.value, sampleRate);
    if vocoder.None? {
      return Err(VocoderNotFound);
    }
    r := ScaledConcat(vocoder.value.inScaler, [parts[0], bap]);
  }

  /** `anasyn`: the waveform for one utterance, with the in-place array steps of the script. */
  method Anasyn(features: Matrix, staticSizes: seq<nat>, tk: Toolkit,
                vocoder: Option<NeuralVocoder>, cfg: Settings) returns (r: Result<seq<real>>)
    ensures r == AnasynSpec(features, staticSizes, tk, vocoder, cfg)
  {
    var plan := Plan(cfg.featureType, cfg.vocoderType,
                     |tk.splitStreams(features, staticSizes)|, |tk.splitStreams(features, MelSizes)|);
    if plan.Err? {
      return Err(plan.error);
    }
    var route := plan.value;
    var parts := Streams(route.features, features, staticSizes, tk);
    var th := cfg.vuvThreshold;
    match route.vocoder {
      case WorldVocoder =>
        var params := tk.genWorldParams(parts[0], parts[1], parts[2], parts[3], cfg.sampleRate, th, cfg.useWorldCodec);
        r := Ok(tk.synthesize(params, cfg.sampleRate, cfg.framePeriod));
      case PwgVocoder =>
        if vocoder.None? {
          return Err(VocoderNotFound);
        }
        var inp := PwgInput(vocoder.value.inScaler, parts, th);
        r := if inp.Err? then Err(inp.error) else Ok(vocoder.value.inference(inp.value));
      case UsfganVocoder =>
        var aux := UsfganAuxInPlace(route.features, parts, tk, vocoder, cfg.sampleRate, th);
        if aux.Err? {
          return Err(aux.error);
        }
        var f0 := SineExcitation(parts[1], GateVuv(route.features, parts[2], th), th, vocoder.value.sineF0Type, tk.exp);
        r := if f0.Err? then Err(f0.error) else Ok(vocoder.value.excitedInference(f0.value, aux.value));
    }
  }

  // ---------------------------------------------------------------------------
  // Post-processing
  // ---------------------------------------------------------------------------

  function Divide(w: seq<real>, d: real): (r: seq<real>)
    requires d != 0.0
    ensures |r| == |w| && forall i :: 0 <= i < |w| ==> r[i] == w[i] / d
  {
    seq(|w|, i requires 0 <= i < |w| => w[i] / d)
  }

  function Scale(w: seq<real>, k: real): (r: seq<real>)
    ensures |r| == |w| && forall i :: 0 <= i < |w| ==> r[i] == w[i] * k
  {
    seq(|w|, i requires 0 <= i < |w| => w[i] * k)
  }

  function TruncAll(w: seq<real>): (r: seq<int>)
    ensures |r| == |w| && forall i :: 0 <= i < |w| ==> r[i] == Trunc(w[i])
  {
    seq(|w|, i requires 0 <= i < |w| => Trunc(w[i]))
  }

  /** A value no larger in magnitude than a positive peak, divided by it, lies in [-1, 1]. */
  lemma DivideByPeak(x: real, peak: real)
    requires 0.0 < peak && Abs(x) <= peak
    ensures Abs(x / peak) <= 1.0
  {
    if x >= 0.0 {
      assert x / peak <= 1.0;
    } else {
      assert -x / peak <= 1.0;
      assert x / peak == -(-x / peak);
    }
  }

  /**
   * The filtered waveform just before the int16 cast, as anasyn.py writes it: when
   * the signed maximum exceeds 10 and the peak exceeds 32767, the waveform is
   * divided by its peak and NOT scaled back up.
   */
  function ScaledAsWritten(w: seq<real>): (r: seq<real>)
    requires |w| > 0
    ensures |r| == |w|
    ensures forall i :: 0 <= i < |w| ==> Abs(r[i]) <= FullScale
    ensures MaxOf(w) > 10.0 && PeakMagnitude(w) > FullScale ==>
              forall i :: 0 <= i < |w| ==> r[i] == w[i] / PeakMagnitude(w) && Abs(r[i]) <= 1.0
    ensures MaxOf(w) > 10.0 && PeakMagnitude(w) <= FullScale ==> r == w
    ensures MaxOf(w) <= 10.0 ==> r == UnitToFullScale(w)
  {
    var peak := PeakMagnitude(w);
    if MaxOf(w) > 10.0 then
      if peak > FullScale then
        assert forall i :: 0 <= i < |w| ==> Abs(w[i] / peak) <= 1.0 by {
          forall i | 0 <= i < |w| { DivideByPeak(w[i], peak); }
        }
        Divide(w, peak)
      else w
    else
      UnitToFullScale(w)
  }

  /** The unit-range branch: normalise to peak 1 if louder, then scale to 16 bits. */
  function UnitToFullScale(w: seq<real>): (r: seq<real>)
    requires |w| > 0
    ensures |r| == |w|
    ensures forall i :: 0 <= i < |w| ==> Abs(r[i]) <= FullScale
    ensures PeakMagnitude(w) <= 1.0 ==> forall i :: 0 <= i < |w| ==> r[i] == w[i] * FullScale
    ensures PeakMagnitude(w) > 1.0 ==> forall i :: 0 <= i < |w| ==> r[i] == w[i] / PeakMagnitude(w) * FullScale
    ensures PeakMagnitude(w) > 1.0 ==> exists i :: 0 <= i < |w| && Abs(r[i]) == FullScale
  {
    var peak := PeakMagnitude(w);
    var v := if peak > 1.0 then Divide(w, peak) else w;
    assert forall i :: 0 <= i < |w| ==> Abs(v[i]) <= 1.0 by {
      forall i | 0 <= i < |w|
        ensures Abs(v[i]) <= 1.0
      {
        if peak > 1.0 { DivideByPeak(w[i], peak); }
      }
    }
    assert forall i :: 0 <= i < |w| ==> Abs(v[i] * FullScale) <= FullScale by {
      forall i | 0 <= i < |w| { ScaledMagnitude(v[i], FullScale); }
    }
    var r := Scale(v, FullScale);
    assert peak > 1.0 ==> exists i :: 0 <= i < |w| && Abs(r[i]) == FullScale by {
      if peak > 1.0 {
        var i :| 0 <= i < |w| && Abs(w[i]) == peak;
        PeakScaled(w[i], peak);
        assert Abs(r[i]) == FullScale;
      }
    }
    r
  }

  /** Scaling by a positive factor scales the magnitude. */
  lemma ScaledMagnitude(x: real, k: real)
    requires 0.0 < k && Abs(x) <= 1.0
    ensures Abs(x * k) <= k
  {
    if x >= 0.0 {
      assert x * k <= 1.0 * k;
    } else {
      assert -x * k <= 1.0 * k;
    }
  }

  /** The sample at the peak, divided by the peak and scaled to full scale, has magnitude exactly full scale. */
  lemma PeakScaled(x: real, peak: real)
    requires 0.0 < peak && Abs(x) == peak
    ensures Abs(x / peak * FullScale) == FullScale
  {
    if x >= 0.0 {
      assert x / peak == 1.0;
    } else {
      assert x / peak == -1.0;
    }
  }

  /**
   * The corrected normalisation: a waveform in 16-bit scale that is too loud is
   * brought back to a peak of exactly full scale, every sample within range.
   */
  function Scaled(w: seq<real>): (r: seq<real>)
    requires |w| > 0
    ensures |r| == |w|
    ensures forall i :: 0 <= i < |w| ==> Abs(r[i]) <= FullScale
    ensures MaxOf(w) > 10.0 && PeakMagnitude(w) > FullScale ==>
              forall i :: 0 <= i < |w| ==> r[i] == w[i] / PeakMagnitude(w) * FullScale
    ensures MaxOf(w) > 10.0 && PeakMagnitude(w) > FullScale ==> exists i :: 0 <= i < |w| && Abs(r[i]) == FullScale
    ensures MaxOf(w) > 10.0 && PeakMagnitude(w) <= FullScale ==> r == w
    ensures MaxOf(w) <= 10.0 ==> r == UnitToFullScale(w) == ScaledAsWritten(w)
  {
    var peak := PeakMagnitude(w);
    if MaxOf(w) > 10.0 then
      if peak > FullScale then
        var r := Scale(Divide(w, peak), FullScale);
        assert forall i :: 0 <= i < |w| ==> Abs(r[i]) <= FullScale by {
          forall i | 0 <= i < |w|
            ensures Abs(r[i]) <= FullScale
          {
            DivideByPeak(w[i], peak);
            ScaledMagnitude(w[i] / peak, FullScale);
          }
        }
        assert exists i :: 0 <= i < |w| && Abs(r[i]) == FullScale by {
          var i :| 0 <= i < |w| && Abs(w[i]) == peak;
          PeakScaled(w[i], peak);
          assert Abs(r[i]) == FullScale;
        }
        r
      else w
    else
      UnitToFullScale(w)
  }

  /** `post_process` as written: band-pass filter, normalise, cast to int16. */
  function PostProcessAsWritten(wav: seq<real>, sampleRate: int, bandpass: (seq<real>, int) -> seq<real>): (r: Result<seq<int>>)
    ensures r.Err? <==> bandpass(wav, sampleRate) == []
    ensures r.Err? ==> r.error == EmptyWaveform
    ensures r.Ok? ==> |r.value| == |bandpass(wav, sampleRate)|
    ensures r.Ok? ==> forall i :: 0 <= i < |r.value| ==> -32767 <= r.value[i] <= 32767
    ensures r.Ok? ==> forall i :: 0 <= i < |r.value| ==> r.value[i] == Trunc(ScaledAsWritten(bandpass(wav, sampleRate))[i])
  {
    var filtered := bandpass(wav, sampleRate);
    if filtered == [] then Err(EmptyWaveform)
    else
      var s := ScaledAsWritten(filtered);
      assert forall i :: 0 <= i < |s| ==> -32767 <= Trunc(s[i]) <= 32767 by {
        forall i | 0 <= i < |s| { TruncWithin(s[i], 32767); }
      }
      Ok(TruncAll(s))
  }

  /** `post_process` with the normalisation scaled back to full scale. */
  function PostProcess(wav: seq<real>, sampleRate: int, bandpass: (seq<real>, int) -> seq<real>): (r: Result<seq<int>>)
    ensures r.Err? <==> bandpass(wav, sampleRate) == []
    ensures r.Err? ==> r.error == EmptyWaveform
    ensures r.Ok? ==> |r.value| == |bandpass(wav, sampleRate)|
    ensures r.Ok? ==> forall i :: 0 <= i < |r.value| ==> -32767 <= r.value[i] <= 32767
    ensures r.Ok? ==> forall i :: 0 <= i < |r.value| ==> r.value[i] == Trunc(Scaled(bandpass(wav, sampleRate))[i])
  {
    var filtered := bandpass(wav, sampleRate);
    if filtered == [] then Err(EmptyWaveform)
    else
      var s := Scaled(filtered);
      assert forall i :: 0 <= i < |s| ==> -32767 <= Trunc(s[i]) <= 32767 by {
        forall i | 0 <= i < |s| { TruncWithin(s[i], 32767); }
      }
      Ok(TruncAll(s))
  }

  /**
   * As written, a filtered waveform in 16-bit scale that peaks above 32767 comes
   * out with every sample in {-1, 0, 1}: the recording is reduced to near silence.
   */
  lemma LoudWaveformCollapses(wav: seq<real>, sampleRate: int, bandpass: (seq<real>, int) -> seq<real>)
    requires |bandpass(wav, sampleRate)| > 0
    requires MaxOf(bandpass(wav, sampleRate)) > 10.0 && PeakMagnitude(bandpass(wav, sampleRate)) > FullScale
    ensures PostProcessAsWritten(wav, sampleRate, bandpass).Ok?
    ensures forall i :: 0 <= i < |bandpass(wav, sampleRate)| ==> -1 <= PostProcessAsWritten(wav, sampleRate, bandpass).value[i] <= 1
  {
    var s := ScaledAsWritten(bandpass(wav, sampleRate));
    forall i | 0 <= i < |s| {
      TruncWithin(s[i], 1);
    }
  }

  /** The corrected version keeps the loudest sample at full scale instead. */
  lemma LoudWaveformKeepsPeak(wav: seq<real>, sampleRate: int, bandpass: (seq<real>, int) -> seq<real>)
    requires |bandpass(wav, sampleRate)| > 0
    requires MaxOf(bandpass(wav, sampleRate)) > 10.0 && PeakMagnitude(bandpass(wav, sampleRate)) > FullScale
    ensures PostProcess(wav, sampleRate, bandpass).Ok?
    ensures exists i :: 0 <= i < |bandpass(wav, sampleRate)| &&
              (PostProcess(wav, sampleRate, bandpass).value[i] == 32767 || PostProcess(wav, sampleRate, bandpass).value[i] == -32767)
  {
    var s := Scaled(bandpass(wav, sampleRate));
    var i :| 0 <= i < |s| && Abs(s[i]) == FullScale;
    assert PostProcess(wav, sampleRate, bandpass).value[i] == Trunc(s[i]);
  }

  /** A single loud sample of 40000 comes out as 1 as written, and as 32767 once corrected. */
  lemma LoudSampleExample()
    ensures PostProcessAsWritten([40000.0], 48000, (w, sr) => w) == Ok([1])
    ensures PostProcess([40000.0], 48000, (w, sr) => w) == Ok([32767])
  {
    var w := [40000.0];
    assert MaxOf(w) == 40000.0;
    assert PeakMagnitude(w) == 40000.0;
    assert ScaledAsWritten(w) == [1.0];
    assert TruncAll([1.0]) == [1];
    assert Scaled(w) == [FullScale];
    assert TruncAll([FullScale]) == [32767];
  }

  /** A unit-range waveform with peak 0.5 is scaled by 32767 and truncated: [0.5, -0.5] becomes [16383, -16383]. */
  lemma HalfScaleExample()
    ensures PostProcessAsWritten([0.5, -0.5], 48000, (w, sr) => w) == Ok([16383, -16383])
  {
    var w := [0.5, -0.5];
    assert MaxOf(w) == 0.5 by {
      assert MaxOf(w[1..]) == -0.5;
    }
    assert PeakMagnitude(w) == 0.5;
    var q := PostProcessAsWritten(w, 48000, (w, sr) => w).value;
    assert q[0] == Trunc(0.5 * FullScale);
    assert q[1] == Trunc(-0.5 * FullScale);
    assert q == [16383, -16383];
  }
}
