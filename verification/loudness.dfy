/** The raised-voice flag: a fixed dBFS threshold applied to a one-second
    audio window chosen by turn index (main.py:21-23, 68-69). */
module Loudness {

  /** Strictly above this level (in dBFS) a voice counts as raised. */
  const RaisedVoiceThreshold: real := -20.0

  /** Width of the loudness window of a turn, in milliseconds. */
  const WindowMs: nat := 1000

  /** Average level of an audio slice. `Silent` stands for minus infinity,
      the level of an empty or all-zero slice. */
  datatype Level = Silent | Dbfs(value: real)

  /** The half-open millisecond range `[startMs, endMs)` of an audio slice. */
  datatype Window = Window(startMs: nat, endMs: nat) {

    predicate Contains(ms: nat) {
      startMs <= ms < endMs
    }
  }

  /** The window whose loudness decides the flag of turn `index`. It depends
      on the index alone, never on what was said or how long it took. */
  function WindowOf(index: nat): (w: Window)
    ensures forall ms: nat :: w.Contains(ms) <==> ms / WindowMs == index
  {
    Window(index * WindowMs, (index + 1) * WindowMs)
  }

  /** Consecutive turns look at adjacent windows, and every millisecond of
      the signal belongs to the window of exactly one turn index. */
  lemma WindowsTile(index: nat, ms: nat)
    ensures WindowOf(index).endMs == WindowOf(index + 1).startMs
    ensures WindowOf(index).Contains(ms) <==> ms / WindowMs == index
  {
  }

  function RaisedVoice(level: Level): bool {
    match level
    case Silent => false
    case Dbfs(v) => v > RaisedVoiceThreshold
  }

  /** The flag is a strict threshold: only a measured level above -20 dBFS
      raises it, and silence never does. */
  lemma RaisedVoiceIsStrictThreshold(level: Level)
    ensures RaisedVoice(level) <==> level.Dbfs? && level.value > -20.0
    ensures !RaisedVoice(Dbfs(-20.0))
    ensures RaisedVoice(Dbfs(-19.999))
    ensures !RaisedVoice(Dbfs(-100.0))
    ensures !RaisedVoice(Silent)
  {
  }

  /** A louder slice is never flagged less than a quieter one. */
  lemma RaisedVoiceMonotone(quiet: real, loud: real)
    requires quiet <= loud
    ensures RaisedVoice(Dbfs(quiet)) ==> RaisedVoice(Dbfs(loud))
  {
  }
}
