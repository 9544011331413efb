/** The turn-segmentation loop of the transcription handler
    (main.py:57-80): a fold of the recogniser's chunks into a list of dialog
    turns and, per side, the sum of the turns' durations. */
module Segmentation {

  import opened Sides
  import opened Loudness
  import opened Recognition

  /** One entry of the report's dialog list. */
  datatype Turn = Turn(source: Side, text: string, duration: real, raisedVoice: bool, gender: Gender)

  /** The loop's state: the turns so far, the per-side totals and the index
      of the next turn. */
  datatype State = State(dialog: seq<Turn>, totals: map<Side, real>, index: nat)

  /** Both sides have an entry in the totals. */
  predicate Keyed(totals: map<Side, real>) {
    Receiver in totals && Transmitter in totals
  }

  /** Reference sum: the total duration of the turns attributed to `side`. */
  function SideTotal(dialog: seq<Turn>, side: Side): real {
    if dialog == [] then 0.0
    else SideTotal(dialog[..|dialog| - 1], side)
         + (if dialog[|dialog| - 1].source == side then dialog[|dialog| - 1].duration else 0.0)
  }

  /** What holds of the state after every iteration: the index counts the
      turns, turn i sits on side AssignSide(i), and each total is the sum of
      that side's durations. */
  predicate Consistent(st: State) {
    && st.index == |st.dialog|
    && Keyed(st.totals)
    && st.totals[Receiver] == SideTotal(st.dialog, Receiver)
    && st.totals[Transmitter] == SideTotal(st.dialog, Transmitter)
    && (forall i :: 0 <= i < |st.dialog| ==> st.dialog[i].source == AssignSide(i))
  }

  /** The state before the first read. */
  function Initial(): (st: State)
    ensures Consistent(st)
    ensures st.dialog == []
    ensures st.totals[Receiver] == 0.0 && st.totals[Transmitter] == 0.0
  {
    State([], map[Receiver := 0.0, Transmitter := 0.0], 0)
  }

  /** The turn emitted for result `r` when it is the turn with this index.
      `level` gives the loudness of any window of the signal and `pick` the
      gender drawn for the turn with a given index. */
  function MakeTurn(index: nat, r: RecognitionResult, level: Window -> Level, pick: nat -> Gender): Turn
    requires HasText(r)
  {
    Turn(AssignSide(index), r.text.value, Duration(r), RaisedVoice(level(WindowOf(index))), pick(index))
  }

  /** The read event yields a turn. */
  predicate Emits(e: Event) {
    e.Accepted? && HasText(e.result)
  }

  /** One iteration for a non-empty chunk. Only an accepted result with
      text changes anything: it appends one turn, advances the index by one
      and adds its duration to its own side's total and no other. */
  function Step(st: State, e: Event, level: Window -> Level, pick: nat -> Gender): (r: State)
    requires Keyed(st.totals)
    ensures Keyed(r.totals) && r.totals.Keys == st.totals.Keys
    ensures !Emits(e) ==> r == st
    ensures Emits(e) ==>
              && r.index == st.index + 1
              && r.dialog == st.dialog + [MakeTurn(st.index, e.result, level, pick)]
              && r.totals[AssignSide(st.index)] == st.totals[AssignSide(st.index)] + Duration(e.result)
              && r.totals[AssignSide(st.index).Other()] == st.totals[AssignSide(st.index).Other()]
  {
    match e
    case Partial => st
    case Accepted(result) =>
      if HasText(result) then
        var turn := MakeTurn(st.index, result, level, pick);
        State(st.dialog + [turn],
              st.totals[turn.source := st.totals[turn.source] + turn.duration],
              st.index + 1)
      else st
  }

  /** The loop from state `st` over `chunks`: it stops at the first empty
      read or when the reads run out. */
  function Run(st: State, chunks: seq<Read>, level: Window -> Level, pick: nat -> Gender): (r: State)
    requires Keyed(st.totals)
    ensures Keyed(r.totals)
    decreases |chunks|
  {
    if chunks == [] then st
    else
      match chunks[0]
      case EndOfStream => st
      case Chunk(e) => Run(Step(st, e, level, pick), chunks[1..], level, pick)
  }

  /** Turns already emitted are kept as they are, and the index advances
      exactly once per new turn. */
  lemma {:induction false} RunExtendsDialog(st: State, chunks: seq<Read>, level: Window -> Level, pick: nat -> Gender)
    requires Keyed(st.totals)
    ensures var r := Run(st, chunks, level, pick);
            && |st.dialog| <= |r.dialog| && r.dialog[..|st.dialog|] == st.dialog
            && r.index - st.index == |r.dialog| - |st.dialog|
    decreases |chunks|
  {
    if chunks != [] && chunks[0].Chunk? {
      var next := Step(st, chunks[0].event, level, pick);
      RunExtendsDialog(next, chunks[1..], level, pick);
      assert next.dialog[..|st.dialog|] == st.dialog;
    }
  }

  /** Reference filter: the results that yield turns, in order, up to the
      first empty read. */
  function Utterances(chunks: seq<Read>): (rs: seq<RecognitionResult>)
    ensures forall i :: 0 <= i < |rs| ==> HasText(rs[i])
  {
    if chunks == [] then []
    else
      match chunks[0]
      case EndOfStream => []
      case Chunk(e) => (if Emits(e) then [e.result] else []) + Utterances(chunks[1..])
  }

  /** Reference output: the turns for a list of results, numbered from
      `start`. */
  function Transcript(start: nat, rs: seq<RecognitionResult>, level: Window -> Level, pick: nat -> Gender): (ts: seq<Turn>)
    requires forall i :: 0 <= i < |rs| ==> HasText(rs[i])
  {
    seq(|rs|, i requires 0 <= i < |rs| => MakeTurn(start + i, rs[i], level, pick))
  }

  lemma TranscriptCons(start: nat, r: RecognitionResult, rs: seq<RecognitionResult>, level: Window -> Level, pick: nat -> Gender)
    requires HasText(r)
    requires forall i :: 0 <= i < |rs| ==> HasText(rs[i])
    ensures forall i :: 0 <= i < |[r] + rs| ==> HasText(([r] + rs)[i])
    ensures Transcript(start, [r] + rs, level, pick)
            == [MakeTurn(start, r, level, pick)] + Transcript(start + 1, rs, level, pick)
  {
    var lhs := Transcript(start, [r] + rs, level, pick);
    var rhs := [MakeTurn(start, r, level, pick)] + Transcript(start + 1, rs, level, pick);
    assert |lhs| == |rhs|;
    forall i | 0 <= i < |lhs|
      ensures lhs[i] == rhs[i]
    {
      if i > 0 {
        assert ([r] + rs)[i] == rs[i - 1];
      }
    }
  }

  /** The loop emits exactly one turn per accepted result with text before
      the first empty read, in order, the k-th of them numbered st.index + k. */
  lemma {:induction false} RunIsTranscript(st: State, chunks: seq<Read>, level: Window -> Level, pick: nat -> Gender)
    requires Keyed(st.totals)
    ensures Run(st, chunks, level, pick).dialog == st.dialog + Transcript(st.index, Utterances(chunks), level, pick)
    decreases |chunks|
  {
    if chunks == [] {
    } else {
      match chunks[0]
      case EndOfStream =>
      case Chunk(e) =>
        var next := Step(st, e, level, pick);
        RunIsTranscript(next, chunks[1..], level, pick);
        if Emits(e) {
          TranscriptCons(st.index, e.result, Utterances(chunks[1..]), level, pick);
        }
    }
  }

  lemma SideTotalSnoc(dialog: seq<Turn>, t: Turn, side: Side)
    ensures SideTotal(dialog + [t], side) == SideTotal(dialog, side) + (if t.source == side then t.duration else 0.0)
  {
    assert (dialog + [t])[..|dialog|] == dialog;
  }

  /** Each iteration keeps the index, the side alternation and the totals
      in step with the dialog. */
  lemma StepKeepsConsistent(st: State, e: Event, level: Window -> Level, pick: nat -> Gender)
    requires Consistent(st)
    ensures Consistent(Step(st, e, level, pick))
  {
    if Emits(e) {
      var t := MakeTurn(st.index, e.result, level, pick);
      SideTotalSnoc(st.dialog, t, Receiver);
      SideTotalSnoc(st.dialog, t, Transmitter);
    }
  }

  /** The loop keeps the index, side alternation and totals in step with
      the dialog after every iteration. */
  lemma {:induction false} RunKeepsConsistent(st: State, chunks: seq<Read>, level: Window -> Level, pick: nat -> Gender)
    requires Consistent(st)
    ensures Consistent(Run(st, chunks, level, pick))
    decreases |chunks|
  {
    if chunks != [] && chunks[0].Chunk? {
      StepKeepsConsistent(st, chunks[0].event, level, pick);
      RunKeepsConsistent(Step(st, chunks[0].event, level, pick), chunks[1..], level, pick);
    }
  }

  /** Nothing after the first empty read is ever looked at. */
  lemma {:induction false} ReadsAfterEndIgnored(st: State, before: seq<Read>, after: seq<Read>, level: Window -> Level, pick: nat -> Gender)
    requires Keyed(st.totals)
    ensures Run(st, before + [EndOfStream] + after, level, pick) == Run(st, before, level, pick)
    decreases |before|
  {
    if before == [] {
      assert (before + [EndOfStream] + after)[0] == EndOfStream;
    } else {
      var chunks := before + [EndOfStream] + after;
      assert chunks[0] == before[0];
      assert chunks[1..] == before[1..] + [EndOfStream] + after;
      if before[0].Chunk? {
        ReadsAfterEndIgnored(Step(st, before[0].event, level, pick), before[1..], after, level, pick);
      }
    }
  }

  /** The whole loop from the initial state: turn i is the turn made from
      the i-th utterance, sides alternate from the receiver, and each side's
      total is the sum of its turns' durations. */
  lemma RunFromStart(chunks: seq<Read>, level: Window -> Level, pick: nat -> Gender)
    ensures var r := Run(Initial(), chunks, level, pick);
            && Consistent(r)
            && |r.dialog| == |Utterances(chunks)|
            && forall i :: 0 <= i < |r.dialog| ==>
                 r.dialog[i] == MakeTurn(i, Utterances(chunks)[i], level, pick)
  {
    var r := Run(Initial(), chunks, level, pick);
    var us := Utterances(chunks);
    RunIsTranscript(Initial(), chunks, level, pick);
    assert r.dialog == Transcript(0, us, level, pick);
    RunKeepsConsistent(Initial(), chunks, level, pick);
  }

  /** Side has only two values, so a keyed totals map has exactly them as keys. */
  lemma TotalsKeys(totals: map<Side, real>)
    requires Keyed(totals)
    ensures totals.Keys == {Receiver, Transmitter}
  {
    forall side | side in totals
      ensures side in {Receiver, Transmitter}
    {
      assert side == Receiver || side == Transmitter;
    }
  }

  /** A recording in which no chunk closes an utterance with text yields an
      empty dialog and zero for both sides. */
  lemma NoSpeechNoTurns(chunks: seq<Read>, level: Window -> Level, pick: nat -> Gender)
    requires Utterances(chunks) == []
    ensures Run(Initial(), chunks, level, pick).dialog == []
    ensures Run(Initial(), chunks, level, pick).totals == map[Receiver := 0.0, Transmitter := 0.0]
  {
    var r := Run(Initial(), chunks, level, pick);
    RunFromStart(chunks, level, pick);
    TotalsKeys(r.totals);
  }

  /** One unfolding of the loop at read position `pos`. */
  lemma RunAt(st: State, chunks: seq<Read>, pos: nat, level: Window -> Level, pick: nat -> Gender)
    requires Keyed(st.totals)
    requires pos < |chunks|
    ensures chunks[pos].EndOfStream? ==> Run(st, chunks[pos..], level, pick) == st
    ensures chunks[pos].Chunk? ==>
              Run(st, chunks[pos..], level, pick)
              == Run(Step(st, chunks[pos].event, level, pick), chunks[pos + 1..], level, pick)
  {
    assert chunks[pos..][0] == chunks[pos];
    assert chunks[pos..][1..] == chunks[pos + 1..];
  }

  /** The loop of main.py:57-80, reading one chunk per iteration. */
  method SegmentLoop(chunks: seq<Read>, level: Window -> Level, pick: nat -> Gender)
    returns (dialog: seq<Turn>, totals: map<Side, real>)
    ensures State(dialog, totals, |dialog|) == Run(Initial(), chunks, level, pick)
    ensures Consistent(State(dialog, totals, |dialog|))
  {
    dialog := [];
    totals := map[Receiver := 0.0, Transmitter := 0.0];
    var index: nat := 0;
    var pos := 0;
    while pos < |chunks|
      invariant 0 <= pos <= |chunks|
      invariant index == |dialog| && Keyed(totals)
      invariant Run(State(dialog, totals, index), chunks[pos..], level, pick) == Run(Initial(), chunks, level, pick)
    {
      var data := chunks[pos];
      RunAt(State(dialog, totals, index), chunks, pos, level, pick);
      if data.EndOfStream? {
        break;
      }
      ghost var before := State(dialog, totals, index);
      pos := pos + 1;
      if data.event.Accepted? {
        var result := data.event.result;
        if HasText(result) {
          var duration := Duration(result);
          var raisedVoice := RaisedVoice(level(WindowOf(index)));
          var gender := pick(index);
          var side := AssignSide(index);
          dialog := dialog + [Turn(side, result.text.value, duration, raisedVoice, gender)];
          totals := totals[side := totals[side] + duration];
          index := index + 1;
        }
      }
      assert State(dialog, totals, index) == Step(before, data.event, level, pick);
    }
    RunKeepsConsistent(Initial(), chunks, level, pick);
  }
}
