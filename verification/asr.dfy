/** The transcription handler without its file and network plumbing
    (main.py:36-91): check the decoded signal's format, run the
    segmentation loop, and return the dialog with the per-side totals. */
module Asr {

  import opened Wrappers
  import opened Sides
  import opened Loudness
  import opened AudioFormat
  import opened Recognition
  import opened Segmentation

  /** The handler's only error: the decoded signal is not mono, 16-bit,
      8 kHz or 16 kHz. */
  datatype AsrError = UnsupportedAudioFormat

  /** The response body: the dialog list and, per side, the sum of its
      turns' durations (each the end time of the turn's last word, measured
      from the start of the stream). */
  datatype Report = Report(dialog: seq<Turn>, resultDuration: map<Side, real>)

  /** The handler on a decoded signal of format `format` whose reads, as
      seen through the recogniser, are `chunks`. An unsupported format is
      refused before anything is read; otherwise every turn is the one made
      from the matching utterance and each side's total is the sum of its
      turns' durations. */
  function Analyze(format: Format, chunks: seq<Read>, level: Window -> Level, pick: nat -> Gender): (r: Result<Report, AsrError>)
    ensures r.Failure? <==> format !in SupportedFormats
    ensures r.Failure? ==> r.error == UnsupportedAudioFormat
    ensures r.Success? ==>
              && |r.value.dialog| == |Utterances(chunks)|
              && (forall i :: 0 <= i < |r.value.dialog| ==>
                    r.value.dialog[i] == MakeTurn(i, Utterances(chunks)[i], level, pick))
              && r.value.resultDuration.Keys == {Receiver, Transmitter}
              && r.value.resultDuration[Receiver] == SideTotal(r.value.dialog, Receiver)
              && r.value.resultDuration[Transmitter] == SideTotal(r.value.dialog, Transmitter)
  {
    SupportedIsListed(format);
    if !Supported(format) then Failure(UnsupportedAudioFormat)
    else
      var st := Run(Initial(), chunks, level, pick);
      RunFromStart(chunks, level, pick);
      TotalsKeys(st.totals);
      Success(Report(st.dialog, st.totals))
  }

  /** A refused format is refused whatever the recording holds: the outcome
      does not depend on the reads, the loudness or the gender draws. */
  lemma RefusalIgnoresAudio(format: Format, chunks1: seq<Read>, chunks2: seq<Read>,
                            level1: Window -> Level, level2: Window -> Level,
                            pick1: nat -> Gender, pick2: nat -> Gender)
    requires !Supported(format)
    ensures Analyze(format, chunks1, level1, pick1) == Analyze(format, chunks2, level2, pick2)
                                                  == Failure(UnsupportedAudioFormat)
  {
  }

  /** A supported recording with no recognised speech gives an empty dialog
      and zero for both sides. */
  lemma SilenceGivesEmptyReport(format: Format, chunks: seq<Read>, level: Window -> Level, pick: nat -> Gender)
    requires Supported(format)
    requires forall i :: 0 <= i < |chunks| && chunks[i].Chunk? ==> !Emits(chunks[i].event)
    ensures Analyze(format, chunks, level, pick)
            == Success(Report([], map[Receiver := 0.0, Transmitter := 0.0]))
  {
    NoUtterances(chunks);
    NoSpeechNoTurns(chunks, level, pick);
  }

  lemma {:induction false} NoUtterances(chunks: seq<Read>)
    requires forall i :: 0 <= i < |chunks| && chunks[i].Chunk? ==> !Emits(chunks[i].event)
    ensures Utterances(chunks) == []
    decreases |chunks|
  {
    if chunks != [] && chunks[0].Chunk? {
      assert forall i :: 0 <= i < |chunks[1..]| ==> chunks[1..][i] == chunks[i + 1];
      NoUtterances(chunks[1..]);
    }
  }

  /** The handler as a program: the format gate, then the loop. */
  method Transcribe(format: Format, chunks: seq<Read>, level: Window -> Level, pick: nat -> Gender)
    returns (r: Result<Report, AsrError>)
    ensures r == Analyze(format, chunks, level, pick)
  {
    if format.channels != 1 || format.sampleWidth != 2 || format.frameRate !in [8000, 16000] {
      return Failure(UnsupportedAudioFormat);
    }
    var dialog, totals := SegmentLoop(chunks, level, pick);
    return Success(Report(dialog, totals));
  }
}
