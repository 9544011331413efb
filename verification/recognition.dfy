/** What the streaming recogniser hands back after each fed chunk
    (main.py:60-67). The engine itself is not modelled: its behaviour over a
    whole recording is an input sequence of reads. */
module Recognition {

  import opened Wrappers

  /** A recognised word; only its end time (seconds from stream start)
      matters here. */
  datatype Word = Word(endSeconds: real)

  /** A finalised result. Either entry may be missing from the recogniser's
      JSON, which is why both are optional. */
  datatype RecognitionResult = RecognitionResult(text: Option<string>, words: Option<seq<Word>>)

  /** Feeding one chunk either closes an utterance or does not. */
  datatype Event = Partial | Accepted(result: RecognitionResult)

  /** One read of 4000 frames: the end of the signal, or a chunk together
      with what the recogniser said about it. */
  datatype Read = EndOfStream | Chunk(event: Event)

  /** The result has a `text` entry and it is not empty. */
  predicate HasText(r: RecognitionResult) {
    r.text.Some? && r.text.value != []
  }

  /** The duration reported for a result: the end of its last word, or zero
      when the word list is missing or empty. */
  function Duration(r: RecognitionResult): real {
    if r.words.Some? && r.words.value != [] then r.words.value[|r.words.value| - 1].endSeconds
    else 0.0
  }

  /** Word end times never go backwards. */
  predicate Chronological(ws: seq<Word>) {
    forall i, j :: 0 <= i <= j < |ws| ==> ws[i].endSeconds <= ws[j].endSeconds
  }

  /** A result without word timings gets duration zero rather than an error;
      otherwise the duration is a word's end time, and for chronological
      words it is the latest of them. */
  lemma DurationIsLastEnd(r: RecognitionResult)
    ensures r.words.None? || r.words.value == [] ==> Duration(r) == 0.0
    ensures r.words.Some? && r.words.value != [] ==>
              exists w :: w in r.words.value && Duration(r) == w.endSeconds
    ensures r.words.Some? && Chronological(r.words.value) ==>
              forall w :: w in r.words.value ==> w.endSeconds <= Duration(r)
  {
    if r.words.Some? && r.words.value != [] {
      var ws := r.words.value;
      assert ws[|ws| - 1] in ws;
      if Chronological(ws) {
        forall w | w in ws
          ensures w.endSeconds <= Duration(r)
        {
          var i :| 0 <= i < |ws| && ws[i] == w;
          assert ws[i].endSeconds <= ws[|ws| - 1].endSeconds;
        }
      }
    }
  }
}
