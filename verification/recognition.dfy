/**
 * The chord finder end to end, from the transform's magnitudes to the
 * reported label: the empty-input guard, the pitch-class energy vector,
 * its normalisation, and the template matcher.
 *
 * Reading the WAV file, the Hann window and the transform itself are not
 * modelled; `spectrum` is the magnitude of every bin of the transform of the
 * `|spectrum|` Hann-windowed samples, and `midiOf` maps a frequency to its
 * rounded MIDI note.
 */
module Recognition {
  import opened Chroma
  import opened Matcher

  /** The chroma vector the matcher sees: accumulated over the band, then normalised. */
  function NormalisedChroma(spectrum: seq<Magnitude>, sr: nat, midiOf: real -> int): (chroma: seq<real>)
    ensures |chroma| == 12
  {
    Normalised(PitchEnergy(spectrum, sr, midiOf))
  }

  /**
   * The chord the program reports for a recording: no chord for an empty
   * recording, otherwise the matcher's verdict on the normalised chroma.
   */
  function Recognise(spectrum: seq<Magnitude>, sr: nat, midiOf: real -> int): (c: Chord)
    ensures |spectrum| == 0 ==> c == Unknown
    ensures |spectrum| > 0 ==> Decides(NormalisedChroma(spectrum, sr, midiOf), c)
  {
    if |spectrum| == 0 then Unknown else Decide(NormalisedChroma(spectrum, sr, midiOf))
  }

  /**
   * The chord finder after the transform: return "Unknown" for no samples;
   * otherwise fill twelve accumulators from the band, normalise them in
   * place and match them against the 24 templates.
   */
  method FindChord(spectrum: seq<Magnitude>, sr: nat, midiOf: real -> int) returns (result: string)
    ensures result == Label(Recognise(spectrum, sr, midiOf))
    ensures |spectrum| == 0 ==> result == "Unknown"
  {
    var n := |spectrum|;
    if n == 0 {
      return "Unknown";
    }
    var pitchEnergy := new real[12](_ => 0.0);
    assert pitchEnergy[..] == Silence;
    AccumulateBins(pitchEnergy, spectrum, sr, midiOf);
    NormaliseInPlace(pitchEnergy);
    var chord := MatchChord(pitchEnergy[..]);
    result := Label(chord);
  }

  /** The normalised chroma of a recording lies in [0, 1], and is all zero or peaks at exactly 1. */
  lemma NormalisedChromaRange(spectrum: seq<Magnitude>, sr: nat, midiOf: real -> int)
    ensures forall i :: 0 <= i < 12 ==> 0.0 <= NormalisedChroma(spectrum, sr, midiOf)[i] <= 1.0
    ensures (forall i :: 0 <= i < 12 ==> NormalisedChroma(spectrum, sr, midiOf)[i] == 0.0) ||
            (exists i :: 0 <= i < 12 && NormalisedChroma(spectrum, sr, midiOf)[i] == 1.0)
  {
    var e := PitchEnergy(spectrum, sr, midiOf);
    MaxPositiveIff(e);
    if MaxOf(e) > 0.0 {
      NormalisedUnitRange(e);
    }
  }

  /**
   * The threshold only ever rejects silence: a recording is reported as no
   * chord exactly when it is empty or every bin in the band has magnitude 0.
   */
  lemma UnknownIffSilentBand(spectrum: seq<Magnitude>, sr: nat, midiOf: real -> int)
    ensures Recognise(spectrum, sr, midiOf) == Unknown <==>
            forall j :: 0 <= j && Kept(spectrum, sr, j) ==> spectrum[j] == 0.0
  {
    var n := |spectrum|;
    if forall j :: 0 <= j && Kept(spectrum, sr, j) ==> spectrum[j] == 0.0 {
      if n > 0 {
        var e := PitchEnergy(spectrum, sr, midiOf);
        SilentBandGivesSilence(spectrum, sr, midiOf, n / 2);
        NormalisedSilence(e);
        SilenceIsUnknown(Normalised(e));
      }
    } else {
      var j :| 0 <= j && Kept(spectrum, sr, j) && spectrum[j] != 0.0;
      var e := PitchEnergy(spectrum, sr, midiOf);
      var p := ClassOf(spectrum, sr, midiOf, j);
      ClassEnergyCoversBin(spectrum, sr, midiOf, j, n / 2);
      EnergyIsClassEnergy(spectrum, sr, midiOf, p, n / 2);
      MaxPositiveIff(e);
      NormalisedUnitRange(e);
      var top :| 0 <= top < 12 && Normalised(e)[top] == 1.0;
      PeakReachesThreshold(Normalised(e), top);
    }
  }

  /** Bins outside the band, and those above the Nyquist bin, never change the verdict. */
  lemma OnlyBandMatters(s1: seq<Magnitude>, s2: seq<Magnitude>, sr: nat, midiOf: real -> int)
    requires |s1| == |s2|
    requires forall j :: 0 <= j && Kept(s1, sr, j) ==> s1[j] == s2[j]
    ensures Recognise(s1, sr, midiOf) == Recognise(s2, sr, midiOf)
  {
    OutOfBandIgnored(s1, s2, sr, midiOf, |s1| / 2);
  }
}
