/**
 * The statistical parametric singing voice synthesiser of nnsvs/svs.py: the
 * question-set layout it derives at load time, the vocoder-type validation, the
 * order of the prediction pipeline in `svs`, and the quantisation in `post_process`.
 * The networks, WORLD and the band-pass filter are opaque functions in a Backend.
 */
module Svs {
  import opened Common
  import opened Numerics
  import opened Features

  /** One phoneme segment of an HTS-style label file. */
  datatype Label = Label(start: int, end: int, context: string)
  type Labels = seq<Label>

  /** The question set: binary questions first, then numeric ones. */
  datatype QuestionSet = QuestionSet(binary: seq<string>, numeric: seq<string>)

  /** The static streams recovered from the acoustic model's output. */
  datatype StaticStreams = StaticStreams(mgc: Matrix, lf0: Matrix, vuv: Matrix, bap: Matrix)

  /**
   * The library calls `svs` makes, with the loaded models and configuration
   * already bound in: each is an uninterpreted function of the data it is given.
   */
  datatype Backend = Backend(
    predictTimelag: (Labels, seq<nat>) -> Matrix,
    predictDuration: (Labels, seq<nat>) -> Matrix,
    postprocessDuration: (Labels, Matrix, Matrix) -> Labels,
    predictAcoustic: (Labels, seq<nat>) -> Matrix,
    genStaticFeatures: (Labels, Matrix, nat) -> StaticStreams,
    genWorldParams: (StaticStreams, int) -> WorldParams,
    synthesize: (WorldParams, int) -> seq<real>,
    bandpass: (seq<real>, int) -> seq<real>)

  /** A loaded neural vocoder and the scaler for its input. */
  datatype Vocoder = Vocoder(inference: Matrix -> seq<real>, inScaler: Scaler)

  /** The vocoder types `svs` accepts. */
  datatype VocoderType = World | Pwg

  /** One call into a library or model, with the data it was given. */
  datatype Call =
    | TimelagCall(labels: Labels, pitchIndices: seq<nat>)
    | DurationCall(labels: Labels, pitchIndices: seq<nat>)
    | PostprocessDurationCall(labels: Labels, durations: Matrix, lag: Matrix)
    | AcousticCall(labels: Labels, pitchIndices: seq<nat>)
    | StaticFeaturesCall(labels: Labels, features: Matrix, pitchIdx: nat)
    | WorldParamsCall(streams: StaticStreams)
    | WorldSynthesisCall(params: WorldParams)
    | VocoderCall(input: Matrix)
    | BandpassCall(wav: seq<real>)

  /** An entry of the optional `states` dictionary. */
  datatype StateValue = Frames(frames: Matrix) | Track(track: seq<real>)

  /** What `svs` returns: the waveform, the sample rate and, when asked for, the states. */
  datatype Output = Output(wav: seq<int>, sampleRate: int, states: Option<map<string, StateValue>>)

  /** The outcome of one `svs` call together with the calls it made, in order. */
  datatype Run = Run(result: Result<Output>, calls: seq<Call>)

  function LowerChar(c: char): char
  {
    if 'A' <= c <= 'Z' then (c as int + 32) as char else c
  }

  /** `str.lower` on ASCII letters. */
  function Lower(s: string): (r: string)
    ensures |r| == |s|
    ensures forall i :: 0 <= i < |s| ==> r[i] == LowerChar(s[i])
  {
    seq(|s|, i requires 0 <= i < |s| => LowerChar(s[i]))
  }

  /** Lower-casing twice is lower-casing once. */
  lemma LowerIdempotent(s: string)
    ensures Lower(Lower(s)) == Lower(s)
  {
  }

  /**
   * The validation at the top of `svs`: the type is compared lower-cased, only
   * "world" and "pwg" are known, and "pwg" needs a loaded vocoder.
   */
  function ParseVocoderType(name: string, vocoderLoaded: bool): (r: Result<VocoderType>)
    ensures r == Ok(World) <==> Lower(name) == "world"
    ensures r == Ok(Pwg) <==> Lower(name) == "pwg" && vocoderLoaded
    ensures r == Err(VocoderNotFound) <==> Lower(name) == "pwg" && !vocoderLoaded
    ensures r.Err? && r.error != VocoderNotFound ==>
              Lower(name) != "world" && Lower(name) != "pwg" && r.error == UnknownVocoderType(Lower(name))
  {
    var lowered := Lower(name);
    if lowered == "world" then Ok(World)
    else if lowered == "pwg" then (if vocoderLoaded then Ok(Pwg) else Err(VocoderNotFound))
    else Err(UnknownVocoderType(lowered))
  }

  /** Names that differ only in letter case are treated alike. */
  lemma ParseIgnoresCase(a: string, b: string, vocoderLoaded: bool)
    requires Lower(a) == Lower(b)
    ensures ParseVocoderType(a, vocoderLoaded) == ParseVocoderType(b, vocoderLoaded)
  {
  }

  /** For instance, "WORLD" is accepted as the WORLD vocoder, loaded vocoder or not. */
  lemma UpperCaseWorldAccepted(vocoderLoaded: bool)
    ensures ParseVocoderType("WORLD", vocoderLoaded) == Ok(World)
  {
    assert Lower("WORLD") == "world";
  }

  /** `np.arange(b, b + 3)`: the pitch-feature columns. */
  function PitchIndices(binaryCount: nat): (r: seq<nat>)
    ensures |r| == 3
    ensures forall k :: 0 <= k < 3 ==> r[k] == binaryCount + k
  {
    [binaryCount, binaryCount + 1, binaryCount + 2]
  }

  /**
   * The three pitch columns lie directly after the binary-question block, none of
   * them inside it, and inside the feature vector whenever there are at least three
   * numeric questions.
   */
  lemma PitchIndicesFollowBinaryBlock(qs: QuestionSet)
    ensures forall k :: 0 <= k < 3 ==> PitchIndices(|qs.binary|)[k] >= |qs.binary|
    ensures |qs.numeric| >= 3 ==>
              forall k :: 0 <= k < 3 ==> PitchIndices(|qs.binary|)[k] < |qs.binary| + |qs.numeric|
    ensures PitchIndices(|qs.binary|)[0] == |qs.binary|
  {
  }

  /** `post_process` after the band-pass filter (svs.py): pick a branch on the signed maximum. */
  function Quantise(wav: seq<real>): (r: Result<seq<int>>)
    ensures r.Err? <==> wav == []
    ensures r.Err? ==> r.error == EmptyWaveform
    ensures r.Ok? ==> |r.value| == |wav|
    ensures r.Ok? && MaxOf(wav) > 10.0 ==> forall i :: 0 <= i < |wav| ==> r.value[i] == Trunc(wav[i])
    ensures r.Ok? && MaxOf(wav) <= 10.0 ==>
              forall i :: 0 <= i < |wav| ==>
                && -32767 <= r.value[i] <= 32767
                && (-1.0 <= wav[i] <= 1.0 ==> r.value[i] == Trunc(wav[i] * FullScale))
                && (wav[i] > 1.0 ==> r.value[i] == 32767)
                && (wav[i] < -1.0 ==> r.value[i] == -32767)
  {
    if wav == [] then Err(EmptyWaveform)
    else if MaxOf(wav) > 10.0 then
      Ok(seq(|wav|, i requires 0 <= i < |wav| => Trunc(wav[i])))
    else
      Ok(seq(|wav|, i requires 0 <= i < |wav| => Trunc(Clip(wav[i], -1.0, 1.0) * FullScale)))
  }

  /**
   * The branch for "already scaled" data neither clips nor checks the range: a
   * sample of 40000 comes out as 40000, which is no int16 value (numpy would wrap).
   */
  lemma QuantiseUnguarded()
    ensures Quantise([40000.0]).Ok?
    ensures Quantise([40000.0]).value[0] > 32767
  {
    assert MaxOf([40000.0]) == 40000.0;
  }

  /**
   * The branch is chosen by the signed maximum, not the magnitude: a waveform in
   * 16-bit range whose positive peak is small is clipped to [-1, 1] as if it were
   * unit-range.
   */
  lemma QuantiseSignedMaximum()
    ensures Quantise([-20000.0, 5.0]) == Ok([-32767, 32767])
  {
    var w := [-20000.0, 5.0];
    assert MaxOf(w) == 5.0 by {
      assert MaxOf(w[1..]) == 5.0;
    }
    var q := Quantise(w).value;
    assert q[0] == -32767 by {
      assert Clip(w[0], -1.0, 1.0) == -1.0;
    }
    assert q[1] == 32767 by {
      assert Clip(w[1], -1.0, 1.0) == 1.0;
    }
    assert q == [-32767, 32767];
  }

  /** A unit-range waveform with peak 0.5 comes out with peak 16383. */
  lemma QuantiseHalfScale()
    ensures Quantise([0.5, -0.5]) == Ok([16383, -16383])
  {
    var w := [0.5, -0.5];
    assert MaxOf(w) == 0.5 by {
      assert MaxOf(w[1..]) == -0.5;
    }
    var q := Quantise(w).value;
    assert q[0] == 16383 by {
      assert Clip(w[0], -1.0, 1.0) == 0.5;
    }
    assert q[1] == -16383 by {
      assert Clip(w[1], -1.0, 1.0) == -0.5;
    }
    assert q == [16383, -16383];
  }

  /** The input of the neural vocoder: mgc, lf0, vuv and bap side by side, standardised. */
  function VocoderInput(s: Scaler, st: StaticStreams): (r: Result<Matrix>)
    ensures r.Err? ==> r.error == ShapeMismatch
    ensures r.Ok? ==> |r.value| == |st.mgc| && IsRect(r.value, |s.mean|)
  {
    ScaledConcat(s, [st.mgc, st.lf0, st.vuv, st.bap])
  }

  /** The four streams are frame-aligned with the given widths. */
  predicate Aligned(st: StaticStreams, wm: nat, wl: nat, wv: nat, wb: nat)
  {
    && |st.lf0| == |st.mgc| && |st.vuv| == |st.mgc| && |st.bap| == |st.mgc|
    && IsRect(st.mgc, wm) && IsRect(st.lf0, wl) && IsRect(st.vuv, wv) && IsRect(st.bap, wb)
  }

  /**
   * For frame-aligned streams and a scaler as wide as all of them together, the
   * vocoder input exists, is |mgc|+|lf0|+|vuv|+|bap| wide, and de-standardising
   * frame t gives mgc[t], lf0[t], vuv[t] and bap[t] in that order.
   */
  lemma VocoderInputLayout(s: Scaler, st: StaticStreams, wm: nat, wl: nat, wv: nat, wb: nat)
    requires Aligned(st, wm, wl, wv, wb)
    requires |s.mean| == wm + wl + wv + wb
    ensures VocoderInput(s, st).Ok?
    ensures IsRect(VocoderInput(s, st).value, wm + wl + wv + wb)
    ensures forall t, j :: 0 <= t < |st.mgc| && 0 <= j < |s.mean| ==>
              VocoderInput(s, st).value[t][j] * s.scale[j] + s.mean[j]
                == (st.mgc[t] + st.lf0[t] + st.vuv[t] + st.bap[t])[j]
  {
    var parts := [st.mgc, st.lf0, st.vuv, st.bap];
    assert SameRows(parts);
    var joined := Concat(parts).value;
    forall t | 0 <= t < |st.mgc|
      ensures joined[t] == st.mgc[t] + st.lf0[t] + st.vuv[t] + st.bap[t]
    {
      var p1 := parts[1..];
      var p2 := p1[1..];
      var p3 := p2[1..];
      assert p1 == [st.lf0, st.vuv, st.bap] && p2 == [st.vuv, st.bap] && p3 == [st.bap];
      assert JoinRow(p3, t) == st.bap[t] by {
        assert p3[1..] == [];
      }
      assert JoinRow(p2, t) == st.vuv[t] + st.bap[t];
      assert JoinRow(p1, t) == st.lf0[t] + (st.vuv[t] + st.bap[t]);
      assert joined[t] == JoinRow(parts, t);
    }
    assert IsRect(joined, |s.mean|);
  }

  /** The `states` dictionary: the static streams always, the WORLD parameters when WORLD ran. */
  function States(st: StaticStreams, world: Option<WorldParams>): (m: map<string, StateValue>)
    ensures world.None? ==> m.Keys == {"mgc", "lf0", "vuv", "bap"}
    ensures world.Some? ==> m.Keys == {"mgc", "lf0", "vuv", "bap", "f0", "spectrogram", "aperiodicity"}
    ensures m["mgc"] == Frames(st.mgc) && m["lf0"] == Frames(st.lf0)
    ensures m["vuv"] == Frames(st.vuv) && m["bap"] == Frames(st.bap)
    ensures world.Some? ==>
              && m["f0"] == Track(world.value.f0)
              && m["spectrogram"] == Frames(world.value.spectrogram)
              && m["aperiodicity"] == Frames(world.value.aperiodicity)
  {
    var streams := map["mgc" := Frames(st.mgc), "lf0" := Frames(st.lf0),
                       "vuv" := Frames(st.vuv), "bap" := Frames(st.bap)];
    match world
    case None => streams
    case Some(p) =>
      streams["f0" := Track(p.f0)]["spectrogram" := Frames(p.spectrogram)]
             ["aperiodicity" := Frames(p.aperiodicity)]
  }

  /** The loaded synthesiser: question-set layout, models, optional vocoder, device placement. */
  class SPSVS {
    const questions: QuestionSet
    const pitchIdx: nat
    const pitchIndices: seq<nat>
    const backend: Backend
    const vocoder: Option<Vocoder>
    const sampleRate: int
    var device: string
    var timelagDevice: string
    var durationDevice: string
    var acousticDevice: string
    var vocoderDevice: string

    /** Every loaded network sits on the device that inputs are sent to. */
    predicate OnOneDevice()
      reads this
    {
      && timelagDevice == device
      && durationDevice == device
      && acousticDevice == device
      && (vocoder.Some? ==> vocoderDevice == device)
    }

    ghost predicate Valid()
      reads this
    {
      && pitchIndices == PitchIndices(|questions.binary|)
      && pitchIdx == pitchIndices[1]
      && OnOneDevice()
    }

    /** `__init__` after loading: derive the pitch columns and place every model on `device`. */
    constructor (questions: QuestionSet, backend: Backend, vocoder: Option<Vocoder>,
                 sampleRate: int, device: string)
      ensures Valid()
      ensures this.questions == questions && this.backend == backend && this.vocoder == vocoder
      ensures this.sampleRate == sampleRate && this.device == device
      ensures pitchIndices == [|questions.binary|, |questions.binary| + 1, |questions.binary| + 2]
      ensures pitchIdx == |questions.binary| + 1
    {
      this.questions := questions;
      this.backend := backend;
      this.vocoder := vocoder;
      this.sampleRate := sampleRate;
      pitchIdx := |questions.binary| + 1;
      pitchIndices := PitchIndices(|questions.binary|);
      this.device := device;
      timelagDevice, durationDevice, acousticDevice, vocoderDevice := device, device, device, device;
    }

    /**
     * `set_device` as written: only the duration and acoustic models follow, so the
     * time-lag model (and a loaded vocoder) stay behind on the old device.
     */
    method SetDeviceAsWritten(d: string)
      modifies this
      ensures device == d && durationDevice == d && acousticDevice == d
      ensures timelagDevice == old(timelagDevice) && vocoderDevice == old(vocoderDevice)
      ensures old(timelagDevice) != d ==> !OnOneDevice()
    {
      device := d;
      durationDevice := d;
      acousticDevice := d;
    }

    /** `set_device` with every loaded model moved, which keeps the object valid. */
    method SetDevice(d: string)
      requires Valid()
      modifies this
      ensures Valid()
      ensures device == d && timelagDevice == d && durationDevice == d && acousticDevice == d
      ensures vocoder.Some? ==> vocoderDevice == d
    {
      device := d;
      timelagDevice, durationDevice, acousticDevice := d, d, d;
      vocoderDevice := d;
    }

    /** `post_process`: band-pass filter, then quantise. */
    function PostProcess(wav: seq<real>): (r: Result<seq<int>>)
      ensures r.Err? <==> backend.bandpass(wav, sampleRate) == []
      ensures r.Ok? ==> |r.value| == |backend.bandpass(wav, sampleRate)|
      ensures r == Quantise(backend.bandpass(wav, sampleRate))
    {
      Quantise(backend.bandpass(wav, sampleRate))
    }

    /** The labels with durations rewritten from the duration and time-lag predictions. */
    function ModifiedLabels(labels: Labels): Labels
    {
      backend.postprocessDuration(labels,
        backend.predictDuration(labels, pitchIndices),
        backend.predictTimelag(labels, pitchIndices))
    }

    /** The static streams extracted from the acoustic prediction on the duration-modified labels. */
    function St(labels: Labels): StaticStreams
    {
      backend.genStaticFeatures(ModifiedLabels(labels), backend.predictAcoustic(ModifiedLabels(labels), pitchIndices), pitchIdx)
    }

    /** The last step of `svs`: post-process the waveform and assemble the return value. */
    function Finish(wav: seq<real>, st: StaticStreams, world: Option<WorldParams>,
                    returnStates: bool, calls: seq<Call>): (r: Run)
      ensures r.calls == calls + [BandpassCall(wav)]
      ensures r.result.Ok? <==> PostProcess(wav).Ok?
      ensures r.result.Ok? ==> r.result.value.wav == PostProcess(wav).value
      ensures r.result.Err? ==> r.result.error == PostProcess(wav).error
      ensures r.result.Ok? ==> r.result.value.sampleRate == sampleRate
      ensures r.result.Ok? ==> (r.result.value.states.Some? <==> returnStates)
      ensures r.result.Ok? && returnStates ==> r.result.value.states.value == States(st, world)
      ensures r.result.Ok? && returnStates ==>
                && ("f0" in r.result.value.states.value <==> world.Some?)
                && {"mgc", "lf0", "vuv", "bap"} <= r.result.value.states.value.Keys
    {
      var calls' := calls + [BandpassCall(wav)];
      match PostProcess(wav)
      case Err(e) => Run(Err(e), calls')
      case Ok(q) => Run(Ok(Output(q, sampleRate, if returnStates then Some(States(st, world)) else None)), calls')
    }

    /** `svs`: validate the vocoder type, run the predictors in order, vocode, post-process. */
    function Svs(labels: Labels, vocoderType: string, returnStates: bool): (r: Run)
      // rejected vocoder types fail before any model is called
      ensures ParseVocoderType(vocoderType, vocoder.Some?).Err? ==>
                r == Run(Err(ParseVocoderType(vocoderType, vocoder.Some?).error), [])
      // time-lag and duration see the original labels, acoustic prediction and
      // static-feature extraction the duration-modified ones
      ensures ParseVocoderType(vocoderType, vocoder.Some?).Ok? ==>
                && |r.calls| >= 5
                && r.calls[0] == TimelagCall(labels, pitchIndices)
                && r.calls[1] == DurationCall(labels, pitchIndices)
                && r.calls[2] == PostprocessDurationCall(labels,
                     backend.predictDuration(labels, pitchIndices), backend.predictTimelag(labels, pitchIndices))
                && r.calls[3] == AcousticCall(ModifiedLabels(labels), pitchIndices)
                && r.calls[4] == StaticFeaturesCall(ModifiedLabels(labels),
                     backend.predictAcoustic(ModifiedLabels(labels), pitchIndices), pitchIdx)
      // WORLD never touches the neural vocoder; "pwg" never falls back to WORLD
      ensures Lower(vocoderType) == "world" ==> forall c :: c in r.calls ==> !c.VocoderCall?
      ensures Lower(vocoderType) != "world" ==>
                forall c :: c in r.calls ==> !c.WorldParamsCall? && !c.WorldSynthesisCall?
      // the neural vocoder is fed the standardised concatenation of the static streams
      ensures forall c :: c in r.calls && c.VocoderCall? ==>
                vocoder.Some? && VocoderInput(vocoder.value.inScaler, St(labels)) == Ok(c.input)
      // the waveform written is the post-processed output of the chosen vocoder
      ensures Lower(vocoderType) == "world" ==>
                var w := PostProcess(backend.synthesize(backend.genWorldParams(St(labels), sampleRate), sampleRate));
                && (r.result.Ok? <==> w.Ok?)
                && (r.result.Ok? ==> r.result.value.wav == w.value)
      ensures ParseVocoderType(vocoderType, vocoder.Some?) == Ok(Pwg) ==>
                var input := VocoderInput(vocoder.value.inScaler, St(labels));
                if input.Err? then r.result == Err(ShapeMismatch)
                else
                  var w := PostProcess(vocoder.value.inference(input.value));
                  && (r.result.Ok? <==> w.Ok?)
                  && (r.result.Ok? ==> r.result.value.wav == w.value)
      // both return shapes carry the configured sample rate; states only when asked
      ensures r.result.Ok? ==> r.result.value.sampleRate == sampleRate
      ensures r.result.Ok? ==> (r.result.value.states.Some? <==> returnStates)
      ensures r.result.Ok? && returnStates ==>
                ("f0" in r.result.value.states.value <==> Lower(vocoderType) == "world")
      ensures r.result.Ok? && returnStates ==>
                {"mgc", "lf0", "vuv", "bap"} <= r.result.value.states.value.Keys
      // the states are those of the static streams, with the WORLD parameters on the WORLD route
      ensures r.result.Ok? && returnStates ==>
                r.result.value.states.value
                == States(St(labels), if Lower(vocoderType) == "world"
                                      then Some(backend.genWorldParams(St(labels), sampleRate)) else None)
    {
      match ParseVocoderType(vocoderType, vocoder.Some?)
      case Err(e) => Run(Err(e), [])
      case Ok(World) => WorldRun(labels, returnStates)
      case Ok(Pwg) => PwgRun(labels, returnStates)
    }

    /** The five model calls every accepted `svs` call starts with, in order. */
    function FrontCalls(labels: Labels): (r: seq<Call>)
      ensures |r| == 5
      ensures r[0] == TimelagCall(labels, pitchIndices) && r[1] == DurationCall(labels, pitchIndices)
      ensures r[2] == PostprocessDurationCall(labels,
                backend.predictDuration(labels, pitchIndices), backend.predictTimelag(labels, pitchIndices))
      ensures r[3] == AcousticCall(ModifiedLabels(labels), pitchIndices)
      ensures r[4] == StaticFeaturesCall(ModifiedLabels(labels),
                backend.predictAcoustic(ModifiedLabels(labels), pitchIndices), pitchIdx)
      ensures forall c :: c in r ==> !c.VocoderCall? && !c.WorldParamsCall? && !c.WorldSynthesisCall?
    {
      var lag := backend.predictTimelag(labels, pitchIndices);
      var durations := backend.predictDuration(labels, pitchIndices);
      var modified := backend.postprocessDuration(labels, durations, lag);
      var features := backend.predictAcoustic(modified, pitchIndices);
      [TimelagCall(labels, pitchIndices), DurationCall(labels, pitchIndices),
       PostprocessDurationCall(labels, durations, lag),
       AcousticCall(modified, pitchIndices), StaticFeaturesCall(modified, features, pitchIdx)]
    }

    /** `svs` on the WORLD route: the front calls, WORLD parameters and synthesis, then post_process. */
    function WorldRun(labels: Labels, returnStates: bool): (r: Run)
      ensures var params := backend.genWorldParams(St(labels), sampleRate);
              var wav := backend.synthesize(params, sampleRate);
              && r.calls == FrontCalls(labels) + [WorldParamsCall(St(labels)), WorldSynthesisCall(params), BandpassCall(wav)]
              && (r.result.Ok? <==> PostProcess(wav).Ok?)
              && (r.result.Err? ==> r.result.error == PostProcess(wav).error)
              && (r.result.Ok? ==>
                    r.result.value == Output(PostProcess(wav).value, sampleRate,
                                             if returnStates then Some(States(St(labels), Some(params))) else None))
      ensures r.calls[..5] == FrontCalls(labels)
      ensures forall c :: c in r.calls ==> !c.VocoderCall?
      ensures r.result.Ok? && returnStates ==>
                "f0" in r.result.value.states.value && {"mgc", "lf0", "vuv", "bap"} <= r.result.value.states.value.Keys
    {
      var st := St(labels);
      var params := backend.genWorldParams(st, sampleRate);
      var wav := backend.synthesize(params, sampleRate);
      Finish(wav, st, Some(params), returnStates, FrontCalls(labels) + [WorldParamsCall(st), WorldSynthesisCall(params)])
    }

    /** `svs` on the PWG route: the front calls, the vocoder on the standardised streams, then post_process. */
    function PwgRun(labels: Labels, returnStates: bool): (r: Run)
      requires vocoder.Some?
      ensures var input := VocoderInput(vocoder.value.inScaler, St(labels));
              && (input.Err? ==> r == Run(Err(ShapeMismatch), FrontCalls(labels)))
              && (input.Ok? ==>
                    var wav := vocoder.value.inference(input.value);
                    && r.calls == FrontCalls(labels) + [VocoderCall(input.value), BandpassCall(wav)]
                    && (r.result.Ok? <==> PostProcess(wav).Ok?)
                    && (r.result.Err? ==> r.result.error == PostProcess(wav).error)
                    && (r.result.Ok? ==>
                          r.result.value == Output(PostProcess(wav).value, sampleRate,
                                                   if returnStates then Some(States(St(labels), None)) else None)))
      ensures r.calls[..5] == FrontCalls(labels)
      ensures forall c :: c in r.calls ==> !c.WorldParamsCall? && !c.WorldSynthesisCall?
      ensures r.result.Ok? && returnStates ==>
                "f0" !in r.result.value.states.value && {"mgc", "lf0", "vuv", "bap"} <= r.result.value.states.value.Keys
      ensures forall c :: c in r.calls && c.VocoderCall? ==> VocoderInput(vocoder.value.inScaler, St(labels)) == Ok(c.input)
    {
      var st := St(labels);
      match VocoderInput(vocoder.value.inScaler, st)
      case Err(e) => Run(Err(e), FrontCalls(labels))
      case Ok(input) =>
        Finish(vocoder.value.inference(input), st, None, returnStates, FrontCalls(labels) + [VocoderCall(input)])
    }
  }
}
