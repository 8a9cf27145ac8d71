# nnsvs inference glue in Dafny

This project models the decision and array logic of nnsvs's singing-voice inference:

- `nnsvs/svs.py`, the `SPSVS` synthesiser. This covers the pitch-column layout derived from the question set and the case-insensitive vocoder-type validation. It also covers the order in which `svs` calls the time-lag, duration and acoustic predictors and the vocoder, the `states` dictionary, and `post_process`.
- `nnsvs/bin/anasyn.py`, analysis-by-synthesis. This covers the dispatch on feature type (`world` / `melf0`) and vocoder type (`world` / `pwg` / `usfgan`) and the binarisation of V/UV. It covers the two in-place array writes (the aperiodicity repair and the sine-excitation gating) and the peak normalisation in `post_process`. From the driver `my_app` it covers the WORLD fallback and the slicing of the vocoder's input scaler.

Networks, WORLD, stream splitting, the band-pass filter and `np.exp` are uninterpreted functions: arrow-typed fields of `Svs.Backend`, `Anasyn.Toolkit` and the vocoder records. Samples and feature values are `real`. The int16 cast is truncation toward zero (`Numerics.Trunc`).

Modules:

| module | file | contents |
|---|---|---|
| `Common` | common.dfy | the error kinds, `Result`, `Option` |
| `Numerics` | numerics.dfy | int16 cast, `np.clip`, `np.max`, peak magnitude |
| `Features` | features.dfy | feature matrices, the standard scaler, concatenation along the feature axis |
| `Svs` | svs.dfy | the `SPSVS` class; `svs` returns its result together with the trace of the calls it made |
| `Anasyn` | anasyn.dfy | `anasyn` as a specification function and as a method with the in-place writes; both versions of `post_process` |
| `AnasynApp` | app.dfy | `my_app`: fallback, scaler slicing, one utterance through `anasyn` and `post_process` |

Two behaviours of the code worth knowing:

- **`SPSVS.post_process` (svs.py:318-320).** The branch for audio that is already in 16-bit scale does not clip before the cast. See `Svs.QuantiseUnguarded`.
- **The branch test in both `post_process` versions.** It uses the signed maximum `np.max(wav)`, not the magnitude. See `Svs.QuantiseSignedMaximum`.

## Model

| member | source | states |
|---|---|---|
| Numerics.Trunc | nnsvs/svs.py:320 | the int16 cast keeps the sign and drops the fractional part: the result is within 1 of the input, on the zero side |
| Numerics.TruncWithin | nnsvs/bin/anasyn.py:143 | a value within ±bound casts to an integer within ±bound |
| Numerics.Clip | nnsvs/svs.py:321 | `np.clip` returns the point of [lo, hi] nearest to the input |
| Numerics.MaxOf | nnsvs/svs.py:318 | `np.max` is an element of the array that no element exceeds |
| Numerics.PeakMagnitude | nnsvs/bin/anasyn.py:140 | `np.abs(wav).max()` is non-negative, bounds every sample's magnitude and is attained |
| Numerics.PeakDominatesMax | nnsvs/bin/anasyn.py:139-140 | the signed maximum never exceeds the peak magnitude |
| Features.Transform | nnsvs/svs.py:284-286 | standardisation succeeds exactly on arrays as wide as the scaler; de-standardising each output entry gives the input entry back |
| Features.TransformRoundTrip | nnsvs/svs.py:284-286 | inverse_transform(transform(m)) == m for every array of the scaler's width |
| Features.InverseTransform | nnsvs/svs.py:284-286 | the reference inverse of the standardisation used by the round trip (no call site in these files): it succeeds exactly on scaler-width arrays, and re-standardising each output entry gives the input entry back |
| Features.Concat | nnsvs/svs.py:285 | `np.concatenate(axis=-1)` succeeds exactly when all parts have the same number of frames, and keeps that number |
| Features.JoinRowLayout | nnsvs/svs.py:285 | in every concatenated frame, part k occupies the columns after the widths of parts 0..k-1, in the order given |
| Features.Flatten | nnsvs/bin/anasyn.py:104 | row-major `reshape(-1)`; its layout is stated by FlattenLength, FlattenLayout and FlattenColumn |
| Features.FlattenLength | nnsvs/bin/anasyn.py:104 | a rectangular array of width w flattens to \|m\| * w values |
| Features.FlattenLayout | nnsvs/bin/anasyn.py:104 | entry j of frame i of a width-w array is entry i * w + j of its flattening |
| Features.FlattenColumn | nnsvs/bin/anasyn.py:104 | `vuv.reshape(-1)` of a one-column stream lists its values frame by frame |
| Features.ScaledConcat | nnsvs/svs.py:284-286 | a standardised concatenation succeeds only for frame-aligned parts, and has the scaler's width and the parts' frame count |
| Features.ColumnBound | nnsvs/svs.py:285 | column j of part k (j below part k's width) lies inside the concatenated row |
| Features.ScaledConcatLayout | nnsvs/svs.py:284-286 | for frame-aligned parts and a scaler as wide as all of them, the standardised concatenation exists, keeps the frame count, and de-standardises in every frame to part k at the columns after the widths of parts 0..k-1 |
| Svs.LowerIdempotent | nnsvs/svs.py:191 | lower-casing twice is lower-casing once |
| Svs.Lower | nnsvs/svs.py:191 | `str.lower` keeps the length, maps every ASCII capital to its small letter and leaves every other character as it is |
| Svs.ParseVocoderType | nnsvs/svs.py:191-199 | accepts exactly the names whose lower-case form is "world", or "pwg" with a loaded vocoder; "pwg" without a vocoder is refused; any other name is refused as unknown |
| Svs.ParseIgnoresCase | nnsvs/svs.py:191 | names equal up to letter case get the same verdict |
| Svs.UpperCaseWorldAccepted | nnsvs/svs.py:191-193 | "WORLD" is accepted as the WORLD vocoder |
| Svs.PitchIndices | nnsvs/svs.py:52 | the pitch columns are the three consecutive indices starting at the binary-question count |
| Svs.PitchIndicesFollowBinaryBlock | nnsvs/svs.py:51-52 | the pitch columns lie directly after the binary block, outside it, and inside the feature vector when there are three numeric questions |
| Svs.Quantise | nnsvs/svs.py:318-323 | error on an empty waveform; length preserved; a signed maximum above 10 means a bare cast; otherwise every sample is within ±32767 and in-range samples are scaled by 32767 while out-of-range samples saturate |
| Svs.QuantiseUnguarded | nnsvs/svs.py:318-320 | the "already scaled" branch lets 40000 through as a value beyond int16 |
| Svs.QuantiseSignedMaximum | nnsvs/svs.py:318-323 | [-20000, 5] is taken as unit-range because its signed maximum is 5, and is clipped to [-32767, 32767] |
| Svs.QuantiseHalfScale | nnsvs/svs.py:321-323 | a unit-range waveform with peak 0.5 comes out with peak 16383 |
| Svs.VocoderInput | nnsvs/svs.py:282-290 | the PWG input either fails with a shape error or has one row per mgc frame and the scaler's width |
| Svs.VocoderInputLayout | nnsvs/svs.py:282-290 | for aligned streams the PWG input exists, is \|mgc\|+\|lf0\|+\|vuv\|+\|bap\| wide, and de-standardises frame by frame to mgc, lf0, vuv, bap in that order |
| Svs.States | nnsvs/svs.py:295-311 | the states always hold mgc/lf0/vuv/bap as computed, hold f0/spectrogram/aperiodicity exactly when WORLD parameters exist, and then hold the f0 track, the spectrogram and the aperiodicity of those parameters |
| Svs.SPSVS.constructor | nnsvs/svs.py:36-52 | pitch_indices is [B, B+1, B+2] and pitch_idx is B+1 for B binary questions; every model is placed on the given device |
| Svs.SPSVS.SetDeviceAsWritten | nnsvs/svs.py:171-178 | only the duration and acoustic models follow the new device; the time-lag model and the vocoder stay, so moving to a different device leaves the models split across devices |
| Svs.SPSVS.SetDevice | nnsvs/svs.py:171-178 | with every model moved, all loaded models are on the new device and the object stays valid |
| Svs.SPSVS.PostProcess | nnsvs/svs.py:315-323 | post-processing is the quantisation of the band-passed waveform at the configured sample rate: it fails exactly when the filtered waveform is empty and otherwise keeps the filtered length |
| Svs.SPSVS.ModifiedLabels | nnsvs/svs.py:218-233 | the labels `postprocess_duration` returns from the original labels and the duration and time-lag predictions on them; used by the contract of Svs |
| Svs.SPSVS.St | nnsvs/svs.py:236-266 | the static streams extracted from the acoustic prediction on the duration-modified labels; used by the contract of Svs |
| Svs.SPSVS.FrontCalls | nnsvs/svs.py:201-265 | the five model calls in order: time-lag and duration on the original labels, postprocess_duration on their predictions, acoustic prediction and static-feature extraction on the modified labels; none of them is a vocoder or WORLD call |
| Svs.SPSVS.WorldRun | nnsvs/svs.py:268-313 | the WORLD route: the front calls, then WORLD parameters from the static streams, synthesis and the band-pass, never the neural vocoder; its result is post_process of the synthesised waveform with the states of the streams and those parameters |
| Svs.SPSVS.PwgRun | nnsvs/svs.py:282-313 | the PWG route: a wrongly shaped vocoder input fails after the front calls; otherwise the vocoder is called once on the standardised streams and its output post-processed, never a WORLD call, and the states carry no f0 |
| Svs.SPSVS.Finish | nnsvs/svs.py:293-313 | the band-pass filter is the last call; the result succeeds exactly when post_process does, carries its waveform, or fails with its error; the configured sample rate is returned in both return shapes; states are present exactly when asked for, are the states of the streams and parameters given, hold mgc/lf0/vuv/bap, and hold f0 exactly when WORLD parameters are given |
| Svs.SPSVS.Svs | nnsvs/svs.py:181-313 | a rejected vocoder type fails before any model is called; time-lag and duration run on the original labels, and acoustic prediction and feature extraction on the duration-modified labels, in that order; WORLD never calls the neural vocoder and "pwg" never falls back to WORLD; the vocoder is fed the standardised concatenation of the static streams of the modified labels; the waveform returned is post_process of WORLD synthesis on the WORLD route and of the vocoder output on the PWG route, and a PWG input of the wrong shape fails; when asked for, the states are exactly States of those static streams, with the generated WORLD parameters on the WORLD route and none on the PWG route (so f0, spectrogram and aperiodicity appear only for WORLD) |
| Anasyn.Plan | nnsvs/bin/anasyn.py:47-97 | unknown feature types, a WORLD layout with other than 4 streams and a mel layout with other than 3 are refused first; then vocoder types outside world/pwg/usfgan; WORLD synthesis of mel features fails for lack of mgc/bap; in-range streams with another vocoder type give UnknownVocoderType |
| Anasyn.Streams | nnsvs/bin/anasyn.py:44-51 | the streams of the chosen layout: the split by the static stream sizes for WORLD features, by the mel sizes for melf0; used by the contract of AnasynSpec |
| Anasyn.Binarize | nnsvs/bin/anasyn.py:75 | a V/UV entry becomes 1.0 exactly when strictly above the threshold and 0.0 exactly otherwise, so the threshold itself gives 0.0 |
| Anasyn.BinarizeIdempotent | nnsvs/bin/anasyn.py:75 | binarising binary V/UV again changes nothing for a threshold in [0, 1) |
| Anasyn.FillUnvoiced | nnsvs/bin/anasyn.py:104 | the masked write keeps the shape and sets entry 0 of exactly the frames with vuv below the threshold to 1.0, every other entry unchanged |
| Anasyn.ClipUnit | nnsvs/bin/anasyn.py:106 | `np.clip(·, 0, 1)` keeps the shape, puts every entry in [0, 1], leaves in-range entries unchanged and saturates the others at the nearer end |
| Anasyn.BinarizedGate | nnsvs/bin/anasyn.py:121-130 | gating on binarised V/UV silences frames with vuv ≤ threshold, not vuv < threshold |
| Anasyn.GateVuv | nnsvs/bin/anasyn.py:121-130 | the V/UV the sine excitation is gated with keeps its shape; it is the raw stream for WORLD features and, for mel features, 1.0 exactly above the threshold and 0.0 otherwise |
| Anasyn.RepairedAperiodicity | nnsvs/bin/anasyn.py:104-106 | every repaired entry is in [0, 1]; column 0 of every frame with vuv < threshold is 1.0; every other entry is its decoded value clamped to [0, 1] |
| Anasyn.RepairIdempotent | nnsvs/bin/anasyn.py:104-106 | repairing twice equals repairing once |
| Anasyn.FillUnvoicedInPlace | nnsvs/bin/anasyn.py:104 | the in-place masked write leaves the array equal to the fill specification applied to its old contents |
| Anasyn.RepairAperiodicity | nnsvs/bin/anasyn.py:99-106 | the array-based repair succeeds exactly when the mask has one entry per decoded frame and there is a column 0, and then equals RepairedAperiodicity |
| Anasyn.ContinuousF0 | nnsvs/bin/anasyn.py:125 | contf0 is exp(lf0) entrywise, with lf0's shape |
| Anasyn.GatedF0 | nnsvs/bin/anasyn.py:128-130 | the gated track is 0 where vuv < threshold and exp(lf0) elsewhere |
| Anasyn.GatedF0ZeroIffUnvoiced | nnsvs/bin/anasyn.py:125-130 | with a positive exponential the gated track is 0 exactly on the unvoiced frames and equals contf0 on the others |
| Anasyn.Excitation | nnsvs/bin/anasyn.py:125-130 | "contf0" gives exp(lf0); "f0" gives the gated track when the mask fits; any other type is an error |
| Anasyn.GateUnvoicedInPlace | nnsvs/bin/anasyn.py:130 | the in-place write zeroes exactly the entries whose V/UV is below the threshold and leaves every other entry unchanged |
| Anasyn.SineExcitation | nnsvs/bin/anasyn.py:125-130 | the array computation, gating through an alias of contf0, equals Excitation |
| Anasyn.PwgInput | nnsvs/bin/anasyn.py:73-95 | the PWG input is the standardised concatenation with V/UV binarised: it exists exactly when that concatenation does, with one row per frame and the scaler's width |
| Anasyn.PwgInputLayout | nnsvs/bin/anasyn.py:73-95 | for frame-aligned streams and a scaler as wide as all of them, the PWG input exists and de-standardises in every frame to the streams side by side, the V/UV stream binarised and every other stream unchanged |
| Anasyn.BinarizedAligned | nnsvs/bin/anasyn.py:75 | binarising V/UV keeps the streams frame-aligned with the same widths |
| Anasyn.UsfganAux | nnsvs/bin/anasyn.py:97-124 | the auxiliary features need a loaded vocoder; on the mel layout they are the standardised mel stream, or an error without a vocoder; on the WORLD layout a mask that does not fit the decoded aperiodicity is a shape error, and otherwise they are the standardised concatenation of mgc with the re-coded repaired aperiodicity, or an error without a vocoder |
| Anasyn.UsfganAuxInPlace | nnsvs/bin/anasyn.py:98-124 | the version with the in-place repair equals UsfganAux |
| Anasyn.AnasynSpec | nnsvs/bin/anasyn.py:23-133 | unknown feature types and wrong WORLD and mel stream counts are refused; WORLD synthesis of mel features fails for lack of streams; unknown vocoder types are refused; WORLD synthesises the parameters generated from the four streams; PWG fails without a vocoder, fails on a wrongly shaped input, and otherwise is the vocoder on PwgInput; uSFGAN is the vocoder on the excitation and the auxiliary features, or the first of their errors |
| Anasyn.PwgSynthesisesAlignedStreams | nnsvs/bin/anasyn.py:73-95 | with a PWG vocoder, frame-aligned streams and a scaler as wide as them, anasyn always yields the vocoder's output on PwgInput |
| Anasyn.Anasyn | nnsvs/bin/anasyn.py:23-133 | the method with the in-place writes computes exactly AnasynSpec |
| Anasyn.ScaledAsWritten | nnsvs/bin/anasyn.py:139-147 | as written, every sample before the cast is within ±32767; in 16-bit scale a peak above 32767 leaves every sample within ±1; a 16-bit-scale waveform within range passes unchanged |
| Anasyn.UnitToFullScale | nnsvs/bin/anasyn.py:144-147 | the unit-range branch keeps every sample within ±32767 and, when it normalises, puts the peak at exactly full scale |
| Anasyn.Scaled | nnsvs/bin/anasyn.py:139-147 | corrected: every sample within ±32767; a too-loud 16-bit-scale waveform gets its peak at exactly full scale; the other branches agree with the code |
| Anasyn.PostProcessAsWritten | nnsvs/bin/anasyn.py:136-148 | fails exactly on an empty filtered waveform; otherwise keeps its length, every sample is within ±32767 and is the int16 cast of the as-written scaled sample |
| Anasyn.PostProcess | nnsvs/bin/anasyn.py:136-148 | the corrected post-processing fails exactly on an empty filtered waveform; otherwise keeps its length, every sample is within ±32767 and is the int16 cast of the corrected scaled sample |
| Anasyn.LoudWaveformCollapses | nnsvs/bin/anasyn.py:139-143 | as written, a 16-bit-scale waveform peaking above 32767 comes out with every sample in {-1, 0, 1} |
| Anasyn.LoudWaveformKeepsPeak | nnsvs/bin/anasyn.py:139-143 | corrected, the same waveform keeps a sample at ±32767 |
| Anasyn.LoudSampleExample | nnsvs/bin/anasyn.py:139-143 | [40000.0] comes out as [1] as written and as [32767] corrected |
| Anasyn.HalfScaleExample | nnsvs/bin/anasyn.py:144-147 | the unit-range waveform [0.5, -0.5] comes out as [16383, -16383] |
| AnasynApp.EffectiveVocoderType | nnsvs/bin/anasyn.py:230-237 | without a non-empty checkpoint the type is "world" whatever was configured; with one it is the configured type |
| AnasynApp.PySlice | nnsvs/bin/anasyn.py:204 | Python slicing clamps its bounds: the result is empty when the bounds cross or start past the end, otherwise as long as the clamped range; every element comes from the matching offset, and in-range bounds give the exact sub-sequence |
| AnasynApp.SliceMgcBap | nnsvs/bin/anasyn.py:199-205 | slicing fails exactly when there is no first stream size |
| AnasynApp.SliceMgcBapLayout | nnsvs/bin/anasyn.py:199-205 | with 4 stream sizes s covered by the vector, the slice has length s0+s3, and starts with the first s0 elements followed by elements [s0+s1+s2, s0+s1+s2+s3) |
| AnasynApp.VocoderScaler | nnsvs/bin/anasyn.py:189-227 | PWG keeps the whole scaler; uSFGAN not on [mcep, codeap] keeps the first 80 dimensions; on [mcep, codeap] mean, variance and scale are each the mgc and bap slice of the full vector, failing only without stream sizes |
| AnasynApp.SliceSameIndices | nnsvs/bin/anasyn.py:202-212 | mean, variance and scale of equal length are sliced at the same positions: entry i of each slice is the entry of the full vector at one shared, clamped source position |
| AnasynApp.VocoderScalerValid | nnsvs/bin/anasyn.py:189-227 | every scaler the driver builds from a valid one is valid: equal widths and no zero scale |
| AnasynApp.ProcessUtterance | nnsvs/bin/anasyn.py:246-264 | one utterance is anasyn under the effective vocoder type followed by post_process as written; the samples written are within ±32767; a missing vocoder is never reached; the vocoder it is given standardises with VocoderScaler of the saved scaler |
| AnasynApp.ProcessUtteranceCorrected | nnsvs/bin/anasyn.py:246-264 | the same pipeline with the corrected post_process, with the same bound and the same absence of a missing-vocoder error; the vocoder it is given standardises with VocoderScaler of the saved scaler |
| AnasynApp.FallbackNeedsNoVocoder | nnsvs/bin/anasyn.py:230-237 | without a checkpoint, WORLD features with four streams always synthesise, with no vocoder loaded |

## Left out

- Model and checkpoint loading, configuration files, `torch.load`, `.to(device)` beyond the device fields of `SPSVS`, `remove_weight_norm`, `eval`: I/O and foreign runtime.
- `__repr__`, `init_seed`, logging, the tqdm loop and `wavfile.write`: formatting and file I/O.
- The internals of `predict_timelag`, `predict_duration`, `postprocess_duration`, `predict_acoustic`, `gen_spsvs_static_features`, `gen_world_params`, `split_streams`, `get_static_stream_sizes`, the WORLD codec and synthesiser, `bandpass_filter` and the vocoder networks. These are uninterpreted functions.
- nnsvs/util.py is not part of this model. The scaler's `transform` is taken to be `(x - mean) / scale` column-wise.
- Svs.SPSVS.Svs: the device is not threaded through the predictor calls. Which device each model is on is tracked only by the device fields of `SPSVS`.
- Anasyn.Anasyn: whether the loaded network suits the configured vocoder type is not checked. A PWG checkpoint run as "usfgan" is just a call to `excitedInference`.
- Numerics.Trunc: floating-point rounding, and the int16 wrap-around of values outside [-32768, 32767], are not modelled. Values are `real`, and the cast of an out-of-range value is the unbounded truncation. This is why `Svs.QuantiseUnguarded` can show a result above 32767.
- Svs.Lower: `str.lower` is modelled on ASCII letters only. The accepted names are pure ASCII, so which names are accepted does not depend on this.
- Features.Transform: a zero scale, where numpy produces inf/nan, is excluded by the `Scaler` type. numpy broadcasting in `(x - mean) / scale` is not modelled: a length-1 scaler spread over every column, or a one-column array spread over a wider scaler, is `ShapeMismatch` here.
- Features.Concat: any shape `np.concatenate` would reject is `ShapeMismatch`, and ragged matrices, which numpy arrays cannot be, are reported the same way. An empty array's column count is not tracked.
- Anasyn.Excitation: an `lf0` that is not rectangular, which no numpy array is, is reported as `ShapeMismatch`.
- Anasyn.RepairAperiodicity: a decoded aperiodicity with no frames is treated as an indexing error, where numpy would write nothing and carry on.
- Anasyn.UsfganAux: a decoded aperiodicity with no frames is treated as an indexing error. numpy would write nothing and carry on.
- The error kinds name the cause and do not distinguish the exception class Python raises. A vocoder type or sine-f0 type that no branch handles surfaces in Python as an unbound local variable. Using a `None` vocoder or scaler surfaces as an attribute error.

## Findings

| source | as written | input that shows it | evidently intended | confidence | as-written member | corrected member |
|---|---|---|---|---|---|---|
| nnsvs/bin/anasyn.py:139-143 | a waveform in 16-bit scale with a peak above 32767 is divided by its peak and cast to int16 without scaling back up | filtered waveform [40000.0] becomes [1], and every sample of such a waveform lands in {-1, 0, 1} | rescale to full scale, `wav / peak * 32767`, so the peak sample is ±32767 | high, not executed | Anasyn.PostProcessAsWritten, Anasyn.LoudWaveformCollapses, Anasyn.LoudSampleExample, AnasynApp.ProcessUtterance | Anasyn.PostProcess, Anasyn.LoudWaveformKeepsPeak, AnasynApp.ProcessUtteranceCorrected |
| nnsvs/svs.py:171-178 | `set_device` moves the duration and acoustic models but not the time-lag model or the vocoder, yet inputs are then sent to the new device | an object loaded on "cpu" after `set_device("cuda")`: its time-lag model stays on "cpu" (`SetDeviceAsWritten` ensures `!OnOneDevice()`) | move every loaded model, keeping all of them on `self.device` | medium, not executed | Svs.SPSVS.SetDeviceAsWritten | Svs.SPSVS.SetDevice |
