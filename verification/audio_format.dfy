/** The input-format gate of the transcription handler (main.py:49-51). */
module AudioFormat {

  /** The parameters of the decoded signal: channel count, sample width in
      bytes and frame rate in Hz. */
  datatype Format = Format(channels: int, sampleWidth: int, frameRate: int)

  /** Every format the handler accepts, listed out. */
  const SupportedFormats: set<Format> := {Format(1, 2, 8000), Format(1, 2, 16000)}

  /** The gate: mono, 16-bit samples, 8 kHz or 16 kHz. */
  predicate Supported(f: Format) {
    !(f.channels != 1 || f.sampleWidth != 2 || f.frameRate !in [8000, 16000])
  }

  /** The gate accepts exactly the two listed formats. */
  lemma SupportedIsListed(f: Format)
    ensures Supported(f) <==> f in SupportedFormats
  {
  }

  /** Stereo input, 8-bit samples and CD-rate audio are all turned away. */
  lemma CommonFormatsRejected(rate: int)
    ensures !Supported(Format(2, 2, 16000))
    ensures !Supported(Format(1, 1, 8000))
    ensures !Supported(Format(1, 2, 44100))
    ensures rate != 8000 && rate != 16000 ==> !Supported(Format(1, 2, rate))
  {
  }
}
