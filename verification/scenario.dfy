/** A worked conversation: two utterances in a 16 kHz mono recording,
    "hello there" ending at 1.2 s in a loud first second, then "goodbye"
    ending at 3.0 s in a quiet second second. */
module Scenario {

  import opened Wrappers
  import opened Sides
  import opened Loudness
  import opened AudioFormat
  import opened Recognition
  import opened Segmentation
  import opened Asr

  const Hello := RecognitionResult(Some("hello there"), Some([Word(0.5), Word(1.2)]))
  const Blank := RecognitionResult(Some(""), None)
  const Goodbye := RecognitionResult(Some("goodbye"), Some([Word(3.0)]))

  /** What the recogniser reports before the signal ends: an utterance, a
      chunk that closes nothing, an utterance without text, an utterance. */
  const Spoken := [Chunk(Accepted(Hello)), Chunk(Partial), Chunk(Accepted(Blank)), Chunk(Accepted(Goodbye))]

  /** A result that would follow the end of the signal. */
  const Ignored := [Chunk(Accepted(RecognitionResult(Some("never read"), None)))]

  /** -15 dBFS in the first second, -30 dBFS everywhere else. */
  function ScenarioLevel(w: Window): Level {
    if w.startMs == 0 then Dbfs(-15.0) else Dbfs(-30.0)
  }

  function ScenarioGender(index: nat): Gender {
    Male
  }

  const ExpectedDialog := [Turn(Receiver, "hello there", 1.2, true, Male),
                           Turn(Transmitter, "goodbye", 3.0, false, Male)]

  const AfterHello := State([ExpectedDialog[0]], map[Receiver := 1.2, Transmitter := 0.0], 1)

  /** The first utterance goes to the receiver and is flagged loud. */
  lemma HelloStep()
    ensures Step(Initial(), Accepted(Hello), ScenarioLevel, ScenarioGender) == AfterHello
  {
  }

  /** The second utterance goes to the transmitter and is not flagged. */
  lemma GoodbyeStep()
    ensures Step(AfterHello, Accepted(Goodbye), ScenarioLevel, ScenarioGender)
            == State(ExpectedDialog, map[Receiver := 1.2, Transmitter := 3.0], 2)
  {
    assert [ExpectedDialog[0]] + [ExpectedDialog[1]] == ExpectedDialog;
  }

  /** The loop over the spoken part yields the two turns and their totals;
      the chunk that closes nothing and the blank result change nothing. */
  lemma SpokenRun()
    ensures Run(Initial(), Spoken, ScenarioLevel, ScenarioGender)
            == State(ExpectedDialog, map[Receiver := 1.2, Transmitter := 3.0], 2)
  {
    HelloStep();
    GoodbyeStep();
    RunAt(Initial(), Spoken, 0, ScenarioLevel, ScenarioGender);
    RunAt(AfterHello, Spoken, 1, ScenarioLevel, ScenarioGender);
    RunAt(AfterHello, Spoken, 2, ScenarioLevel, ScenarioGender);
    RunAt(AfterHello, Spoken, 3, ScenarioLevel, ScenarioGender);
    assert Spoken[4..] == [];
  }

  /** The handler's report for the whole recording, including a read after
      the end of the signal that is never looked at. */
  lemma TwoTurnConversation()
    ensures Analyze(Format(1, 2, 16000), Spoken + [EndOfStream] + Ignored, ScenarioLevel, ScenarioGender)
            == Success(Report(ExpectedDialog, map[Receiver := 1.2, Transmitter := 3.0]))
  {
    ReadsAfterEndIgnored(Initial(), Spoken, Ignored, ScenarioLevel, ScenarioGender);
    SpokenRun();
  }
}
