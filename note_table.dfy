/**
 The note table of the virtual keyboard: a fixed map from a lower-case key
 identifier to the frequency, in hertz, of the tone that key plays. It covers
 one equal-tempered octave from C4 to C5 with A4 at 440 Hz.
 */
module NoteTable {

  /** Key identifier to frequency (Hz). Never changes. */
  const Notes: map<string, real> := map[
    "a" := 261.63,  // C4
    "w" := 277.18,  // C#4
    "s" := 293.66,  // D4
    "e" := 311.13,  // D#4
    "d" := 329.63,  // E4
    "f" := 349.23,  // F4
    "t" := 369.99,  // F#4
    "g" := 392.0,   // G4
    "y" := 415.3,   // G#4
    "h" := 440.0,   // A4
    "u" := 466.16,  // A#4
    "j" := 493.88,  // B4
    "k" := 523.25   // C5
  ]

  /** The table's keys in the order they are declared, which is chromatic order. */
  const Chromatic: seq<string> := ["a", "w", "s", "e", "d", "f", "t", "g", "y", "h", "u", "j", "k"]

  /** The frequency of a supported key: positive, and within the octave from "a" (C4) to "k" (C5). */
  function Frequency(key: string): (hz: real)
    requires key in Notes
    ensures 0.0 < Notes["a"] <= hz <= Notes["k"]
  {
    Notes[key]
  }

  /** The chromatic order lists every key of the table, and nothing else. */
  lemma ChromaticCoversTable()
    ensures |Chromatic| == 13
    ensures forall i :: 0 <= i < |Chromatic| ==> Chromatic[i] in Notes
    ensures forall key :: key in Notes ==> key in Chromatic
  {
  }

  /**
   Frequencies strictly ascend along the chromatic order, so in particular
   no key appears in it twice.
   */
  lemma ChromaticAscends()
    ensures forall i, j :: 0 <= i < j < |Chromatic| ==> Notes[Chromatic[i]] < Notes[Chromatic[j]]
    ensures forall i, j :: 0 <= i < j < |Chromatic| ==> Chromatic[i] != Chromatic[j]
  {
  }

  /**
   Each step along the chromatic order is an equal-tempered semitone: the
   ratio of neighbouring frequencies lies within 0.0001 of the twelfth root
   of two (1.0594631...): it lies strictly between 1.0594 and 1.0595.
   The ratio of the last key to the first lies within 0.0001 of 2, an
   octave, and A4 is the 440 Hz reference.
   */
  lemma EqualTempered()
    ensures forall i :: 0 <= i < |Chromatic| - 1 ==>
      1.0594 * Notes[Chromatic[i]] < Notes[Chromatic[i + 1]] < 1.0595 * Notes[Chromatic[i]]
    ensures 1.9999 * Notes["a"] < Notes["k"] < 2.0001 * Notes["a"]
    ensures Notes["h"] == 440.0
  {
  }
}
