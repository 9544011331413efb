# Speech-recognition dialog segmentation, in Dafny

This project models the core of a small speech-recognition service. The
service takes a recorded two-party call and returns a turn-by-turn transcript.
Each turn carries its speaker side (receiver or transmitter), its text, a
duration, a "raised voice" flag and a gender. The report also holds, per side,
the sum of that side's turn durations. A turn's duration is the end time of
its last word, measured from the start of the stream, so it is an end
timestamp rather than the length of the utterance, and the per-side sums add
up timestamps rather than talk time.

The model covers the handler's logic once the audio is decoded:

- `AudioFormat` is the input-format gate. The signal must be mono, use 2-byte
  samples and run at 8000 or 16000 Hz.
- `Recognition` covers what the streaming recogniser returns after each
  4000-frame chunk. A chunk either closes an utterance or does not. A closed
  utterance is a result whose `text` and word list may each be missing. The
  recogniser's behaviour over a whole recording is an input sequence of reads.
  An `EndOfStream` read stands for the empty read that ends the loop.
- `Sides` holds the even/odd side rule and the placeholder gender.
- `Loudness` holds the raised-voice threshold (strictly above -20 dBFS) and
  the fixed one-second window `[i*1000, (i+1)*1000)` ms used for turn `i`.
  `Silent` stands for the minus-infinity level of an empty or all-zero slice.
- `Segmentation` is the turn loop. `Step` and `Run` are a pure fold over the
  reads. `SegmentLoop` is the same loop written as a `while` with invariants.
  Two reference definitions describe the intended result independently:
  `Utterances` (the results that yield turns) with `Transcript` (their turns
  in order), and `SideTotal` (a per-side sum of durations).
- `Asr` is the handler with no I/O: the gate first, then the loop, then the
  report.
- `Scenario` is a worked two-turn conversation.

Outside inputs become parameters:

- `level: Window -> Level` gives the loudness of any millisecond window of the
  decoded audio.
- `pick: nat -> Gender` gives the gender drawn for the k-th emitted turn. The
  source draws it at random, once per turn.

The handler never asks the recogniser for its final result after the last
chunk. An utterance that is still open when the signal ends therefore produces
no turn. The model has the same behaviour: only `Accepted` events emit turns.

## Model

| member | source | states |
|---|---|---|
| `Sides.AssignSideIsTurnTaking` | main.py:32-33 | the even/odd side rule equals strict turn-taking that starts with the receiver and switches at every turn |
| `Sides.AssignSideAlternates` | main.py:32-33 | turn 0 is the receiver's; consecutive turns are on different sides; the side is the receiver exactly for even indices and the transmitter exactly for odd ones |
| `Sides.SideLabelsDistinct` | main.py:33 | the two side labels used as report keys differ, so neither side's entries can be mixed into the other's |
| `Loudness.WindowOf` | main.py:68 | the loudness window of turn i holds exactly the milliseconds whose whole-second count is i, whatever the turn's text or duration |
| `Loudness.WindowsTile` | main.py:68 | windows of consecutive turns are adjacent, and a millisecond lies in the window of turn i exactly when its whole-second count is i |
| `Loudness.RaisedVoiceIsStrictThreshold` | main.py:21-23 | the voice is raised exactly when the measured level is strictly above -20 dBFS; -20 gives false, -19.999 gives true, -100 and silence give false |
| `Loudness.RaisedVoiceMonotone` | main.py:21-23 | a louder slice is flagged whenever a quieter one is |
| `AudioFormat.SupportedIsListed` | main.py:50-51 | the gate accepts a format exactly when it is (1 channel, 2-byte samples, 8000 Hz) or (1 channel, 2-byte samples, 16000 Hz) |
| `AudioFormat.CommonFormatsRejected` | main.py:50-51 | stereo, 8-bit and 44100 Hz input are refused, as is every mono 16-bit rate other than 8000 and 16000 |
| `Recognition.DurationIsLastEnd` | main.py:67 | a result without words, or with an empty word list, gets duration 0; otherwise the duration is one of its words' end times, and with chronological words it is the latest of them |
| `Segmentation.Initial` | main.py:57-59 | the loop starts with no turns, index 0, and a total of 0 for each of the two sides |
| `Segmentation.Step` | main.py:64-80 | a chunk that closes no utterance, or closes one with missing or empty text, changes nothing; otherwise exactly one turn is appended, the index goes up by one, the turn's side's total grows by the turn's duration, the other side's total is untouched and no key is added |
| `Segmentation.RunExtendsDialog` | main.py:60-80 | the loop never alters or drops turns already emitted, and the index goes up by exactly the number of turns added |
| `Segmentation.RunIsTranscript` | main.py:60-80 | the loop appends exactly the turns of the utterances with text before the first empty read, in order, numbered on from the current index |
| `Segmentation.StepKeepsConsistent` | main.py:64-80 | one iteration keeps index == number of turns, turn i on side AssignSide(i), and each side's total equal to the sum of that side's turn durations |
| `Segmentation.RunKeepsConsistent` | main.py:57-80 | the same invariant holds after any number of iterations |
| `Segmentation.ReadsAfterEndIgnored` | main.py:60-63 | the loop ends at the first empty read: whatever follows it has no effect on the result |
| `Segmentation.RunFromStart` | main.py:57-80 | from the initial state, turn i is built from the i-th utterance with text: side by parity, its text, its duration, the flag of window i and the i-th gender draw; the totals are the per-side sums |
| `Segmentation.NoSpeechNoTurns` | main.py:57-66 | when no chunk closes an utterance with text, the dialog is empty and both totals are 0 |
| `Segmentation.SegmentLoop` | main.py:57-80 | the imperative loop computes the same dialog and totals as the fold, and its result satisfies the invariant above |
| `Asr.Analyze` | main.py:50-80 | the handler fails with an unsupported-format error exactly when the format is not one of the two accepted ones; otherwise it reports exactly the turns of the utterances with text, keyed totals for both sides, and each total equal to its side's sum |
| `Asr.RefusalIgnoresAudio` | main.py:50-51 | a refused format gives the same error whatever the reads, loudness and gender draws are, so no chunk is read before the refusal |
| `Asr.SilenceGivesEmptyReport` | main.py:57-66 | for a supported format and a recording where no chunk yields a turn, the report is an empty dialog with both totals 0 |
| `Asr.Transcribe` | main.py:50-80 | the handler written as a program (gate, then loop) returns the same outcome as `Analyze` |
| `Scenario.TwoTurnConversation` | main.py:57-80 | in a two-utterance call with a blank result, a non-closing chunk and a read after the end, the report is receiver "hello there" 1.2 s loud, then transmitter "goodbye" 3.0 s quiet, with totals 1.2 and 3.0 |

## Left out

- Upload handling, temporary files, the `.mp3` to `.wav` conversion and the JSON response (main.py:36-49, 82-91). These are file and network I/O.
- Loading the recogniser model and creating and configuring the recogniser (main.py:12-17, 53-54). The engine is external; its output over a recording is an input sequence of reads.
- Reading frames from the wave file (main.py:61). A read is abstract: either a chunk with the recogniser's verdict, or the empty read that ends the signal.
- Computing a slice's dBFS (main.py:22). This is floating-point signal processing inside the audio library; it is an input `Level` per window.
- `detect_gender` (main.py:27-28) is a random choice. It is modelled as an arbitrary input `pick`, and no property depends on its value.
- Floating point in general: durations and levels are `real`, and the model uses only addition and comparison. The source's integer starting totals (`0`) are `0.0`.
- `Recognition.Word` keeps only a word's end time, because that is the only word field the loop reads. Both a missing `result` entry and an empty one are handled.
