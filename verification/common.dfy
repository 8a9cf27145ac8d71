/** Error kinds raised by the synthesis code, and the wrappers that carry them. */
module Common {

  /** The exceptions the synthesis code raises, one constructor per distinct cause. */
  datatype Error =
    | UnknownVocoderType(name: string)          // a vocoder type no branch handles
    | VocoderNotFound                           // a neural vocoder is requested but none is loaded
    | UnknownFeatureType(name: string)          // a feature type other than "world" or "melf0"
    | StreamCountMismatch(expected: nat, actual: nat)  // a failed stream-count assert or unpacking
    | UnboundStreams                            // WORLD synthesis asked of mel features (mgc/bap unbound)
    | UnknownSineF0Type(name: string)           // a sine excitation type other than "contf0" or "f0"
    | ShapeMismatch                             // an array index or broadcast that numpy refuses
    | EmptyWaveform                             // the maximum of an empty waveform
    | MissingStreamSize                         // indexing the first stream size of an empty list

  datatype Result<+T> = Ok(value: T) | Err(error: Error)

  datatype Option<+T> = None | Some(value: T)
}
