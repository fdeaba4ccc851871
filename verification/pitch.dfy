/**
 * Pitch classes and the integer half of the frequency-to-pitch mapping.
 *
 * The floating-point half (MIDI number from a frequency through log2 and
 * rounding) is not modelled here; it starts from the rounded note number.
 */
module Pitch {

  /** A pitch class: 0 is C, 1 is C#, ..., 11 is B. */
  type PitchClass = p: int | 0 <= p < 12

  /** Canonical note names, sharps only, indexed by pitch class. */
  const NoteNames: seq<string> :=
    ["C", "C#", "D", "D#", "E", "F", "F#", "G", "G#", "A", "A#", "B"]

  /**
   * Rust's `%` by 12 on a signed integer: division truncates toward zero, so
   * the remainder takes the sign of the dividend (-1 % 12 is -1, not 11).
   */
  function TruncRem12(a: int): (r: int)
    ensures -12 < r < 12
    ensures a >= 0 ==> r >= 0
    ensures a < 0 ==> r <= 0
    ensures (a - r) % 12 == 0
  {
    if a >= 0 then a % 12 else -((-a) % 12)
  }

  /**
   * The pitch class of a rounded MIDI note number: the truncated remainder
   * modulo 12, moved up by 12 when it is negative. The result is the one
   * class in 0..11 congruent to the note number, negative numbers included.
   */
  function PitchClassOf(noteNumber: int): (pc: PitchClass)
    ensures (noteNumber - pc) % 12 == 0
  {
    var pitchClass := TruncRem12(noteNumber);
    if pitchClass < 0 then pitchClass + 12 else pitchClass
  }

  /** The fold agrees with Euclidean remainder, and so ignores octaves. */
  lemma PitchClassIsEuclidean(noteNumber: int)
    ensures PitchClassOf(noteNumber) == noteNumber % 12
    ensures PitchClassOf(noteNumber + 12) == PitchClassOf(noteNumber)
  {
    var pc := PitchClassOf(noteNumber);
    assert (noteNumber - pc) % 12 == 0;
    assert noteNumber == 12 * ((noteNumber - pc) / 12) + pc;
  }

  /**
   * The correction step is needed: for a negative note number Rust's `%`
   * alone gives a negative index, and the fix-up brings it into range.
   */
  lemma NegativeNotesFold()
    ensures TruncRem12(-1) == -1 && PitchClassOf(-1) == 11
    ensures TruncRem12(-13) == -1 && PitchClassOf(-13) == 11
    ensures TruncRem12(-12) == 0 && PitchClassOf(-12) == 0
  {
  }

  /** A4 (MIDI 69, 440 Hz) is A and C4 (MIDI 60, 261.63 Hz) is C. */
  lemma ReferencePitches()
    ensures NoteNames[PitchClassOf(69)] == "A"
    ensures NoteNames[PitchClassOf(60)] == "C"
  {
  }

  /** No two pitch classes share a name. */
  lemma NoteNamesDistinct(i: PitchClass, j: PitchClass)
    ensures NoteNames[i] == NoteNames[j] ==> i == j
  {
  }

  /** Every name starts with one of the letters A to G. */
  lemma NoteNamesStartWithLetter(i: PitchClass)
    ensures |NoteNames[i]| > 0 && 'A' <= NoteNames[i][0] <= 'G'
  {
  }
}
