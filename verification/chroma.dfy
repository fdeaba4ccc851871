/**
 * The pitch-class energy aggregator: the band-limited scan of the spectrum
 * into twelve accumulators, and normalisation by the largest of them.
 *
 * The transform's output is taken as given: `spectrum[k]` is the magnitude
 * of complex bin `k` of an `n`-point forward transform, `n` being the number
 * of samples. The floating-point mapping from a frequency to a rounded MIDI
 * note number is the parameter `midiOf`.
 */
module Chroma {
  import opened Pitch

  /** Bins below this frequency (Hz) are ignored. */
  const LowestFrequency: real := 70.0
  /** Bins above this frequency (Hz) are ignored. */
  const HighestFrequency: real := 1500.0

  /** The magnitude of a complex bin, never negative. */
  type Magnitude = m: real | m >= 0.0

  /** Twelve empty accumulators. */
  const Silence: seq<real> := [0.0, 0.0, 0.0, 0.0, 0.0, 0.0, 0.0, 0.0, 0.0, 0.0, 0.0, 0.0]

  /** Frequency in Hz of bin `k` of an `n`-point transform at sample rate `sr`. */
  function BinFrequency(k: nat, sr: nat, n: nat): real
    requires n > 0
  {
    (k as real) * (sr as real) / (n as real)
  }

  /** The analysis band is closed: 70 Hz and 1500 Hz themselves are kept. */
  predicate InBand(freq: real)
  {
    !(freq < LowestFrequency || freq > HighestFrequency)
  }

  /** Whether bin `k` is scanned (below the Nyquist bin `n / 2`) and lies in the band. */
  predicate Kept(spectrum: seq<Magnitude>, sr: nat, k: nat)
  {
    k < |spectrum| / 2 && InBand(BinFrequency(k, sr, |spectrum|))
  }

  /** The pitch class a bin's frequency maps to. */
  function ClassOf(spectrum: seq<Magnitude>, sr: nat, midiOf: real -> int, k: nat): PitchClass
    requires |spectrum| > 0
  {
    PitchClassOf(midiOf(BinFrequency(k, sr, |spectrum|)))
  }

  /** The accumulators after scanning bins `0 .. k - 1`: each kept bin adds its magnitude to its class. */
  function EnergyAfter(spectrum: seq<Magnitude>, sr: nat, midiOf: real -> int, k: nat): (e: seq<real>)
    requires k <= |spectrum| / 2
    ensures |e| == 12
    ensures forall i :: 0 <= i < 12 ==> e[i] >= 0.0
  {
    if k == 0 then Silence
    else
      var e := EnergyAfter(spectrum, sr, midiOf, k - 1);
      if Kept(spectrum, sr, k - 1) then
        var pc := ClassOf(spectrum, sr, midiOf, k - 1);
        e[pc := e[pc] + spectrum[k - 1]]
      else
        e
  }

  /** The chroma vector before normalisation: every bin below `n / 2` scanned. */
  function PitchEnergy(spectrum: seq<Magnitude>, sr: nat, midiOf: real -> int): (e: seq<real>)
    ensures |e| == 12
  {
    EnergyAfter(spectrum, sr, midiOf, |spectrum| / 2)
  }

  /**
   * The band-filter and accumulation loop over the first half of the bins.
   * `energy` holds the twelve accumulators, all zero on entry.
   */
  method AccumulateBins(energy: array<real>, spectrum: seq<Magnitude>, sr: nat, midiOf: real -> int)
    requires energy.Length == 12 && energy[..] == Silence
    modifies energy
    ensures energy[..] == PitchEnergy(spectrum, sr, midiOf)
  {
    var n := |spectrum|;
    for k := 0 to n / 2
      invariant energy[..] == EnergyAfter(spectrum, sr, midiOf, k)
    {
      var freq := (k as real) * (sr as real) / (n as real);
      if freq < LowestFrequency || freq > HighestFrequency {
        continue;
      }
      var mag := spectrum[k];
      var pc := PitchClassOf(midiOf(freq));
      energy[pc] := energy[pc] + mag;
    }
  }

  /**
   * Reference definition of one accumulator: the total magnitude of the kept
   * bins below `k` whose frequency maps to class `p`.
   */
  function ClassEnergy(spectrum: seq<Magnitude>, sr: nat, midiOf: real -> int, p: PitchClass, k: nat): real
    requires k <= |spectrum| / 2
  {
    if k == 0 then 0.0
    else
      ClassEnergy(spectrum, sr, midiOf, p, k - 1) +
      (if Kept(spectrum, sr, k - 1) && ClassOf(spectrum, sr, midiOf, k - 1) == p
       then spectrum[k - 1] else 0.0)
  }

  /** Total magnitude of the kept bins below `k`, whatever their class. */
  function BandEnergy(spectrum: seq<Magnitude>, sr: nat, k: nat): real
    requires k <= |spectrum| / 2
  {
    if k == 0 then 0.0
    else BandEnergy(spectrum, sr, k - 1) + (if Kept(spectrum, sr, k - 1) then spectrum[k - 1] else 0.0)
  }

  function Sum(s: seq<real>): real
  {
    if s == [] then 0.0 else Sum(s[..|s| - 1]) + s[|s| - 1]
  }

  /**
   * Each accumulator holds exactly the magnitudes of the kept bins of its
   * class: a bin adds to one class only and leaves the other eleven alone.
   */
  lemma {:induction false} EnergyIsClassEnergy(spectrum: seq<Magnitude>, sr: nat, midiOf: real -> int, p: PitchClass, k: nat)
    requires k <= |spectrum| / 2
    ensures EnergyAfter(spectrum, sr, midiOf, k)[p] == ClassEnergy(spectrum, sr, midiOf, p, k)
  {
    if k > 0 {
      EnergyIsClassEnergy(spectrum, sr, midiOf, p, k - 1);
    }
  }

  /** Adding `m` to one entry adds `m` to the sum. */
  lemma {:induction false} SumAddAt(s: seq<real>, i: int, m: real)
    requires 0 <= i < |s|
    ensures Sum(s[i := s[i] + m]) == Sum(s) + m
  {
    var t := s[i := s[i] + m];
    assert t[..|t| - 1] == if i == |s| - 1 then s[..|s| - 1] else s[..|s| - 1][i := s[i] + m];
    if i < |s| - 1 {
      SumAddAt(s[..|s| - 1], i, m);
    }
  }

  /** A vector of zeros sums to zero. */
  lemma {:induction false} SumOfZeros(s: seq<real>)
    requires forall i :: 0 <= i < |s| ==> s[i] == 0.0
    ensures Sum(s) == 0.0
  {
    if s != [] {
      SumOfZeros(s[..|s| - 1]);
    }
  }

  /** No magnitude is lost or counted twice: the accumulators add up to the band's total. */
  lemma {:induction false} EnergyConserved(spectrum: seq<Magnitude>, sr: nat, midiOf: real -> int, k: nat)
    requires k <= |spectrum| / 2
    ensures Sum(EnergyAfter(spectrum, sr, midiOf, k)) == BandEnergy(spectrum, sr, k)
  {
    if k == 0 {
      SumOfZeros(Silence);
    } else {
      EnergyConserved(spectrum, sr, midiOf, k - 1);
      if Kept(spectrum, sr, k - 1) {
        SumAddAt(EnergyAfter(spectrum, sr, midiOf, k - 1), ClassOf(spectrum, sr, midiOf, k - 1), spectrum[k - 1]);
      }
    }
  }

  /** Bins that are not kept never influence the accumulators. */
  lemma {:induction false} OutOfBandIgnored(s1: seq<Magnitude>, s2: seq<Magnitude>, sr: nat, midiOf: real -> int, k: nat)
    requires |s1| == |s2| && k <= |s1| / 2
    requires forall j :: 0 <= j < k && Kept(s1, sr, j) ==> s1[j] == s2[j]
    ensures EnergyAfter(s1, sr, midiOf, k) == EnergyAfter(s2, sr, midiOf, k)
  {
    if k > 0 {
      OutOfBandIgnored(s1, s2, sr, midiOf, k - 1);
      assert Kept(s1, sr, k - 1) == Kept(s2, sr, k - 1);
    }
  }

  /** A kept bin contributes at least its own magnitude to its class. */
  lemma {:induction false} ClassEnergyCoversBin(spectrum: seq<Magnitude>, sr: nat, midiOf: real -> int, j: nat, k: nat)
    requires j < k <= |spectrum| / 2 && Kept(spectrum, sr, j)
    ensures ClassEnergy(spectrum, sr, midiOf, ClassOf(spectrum, sr, midiOf, j), k) >= spectrum[j]
  {
    var p := ClassOf(spectrum, sr, midiOf, j);
    ClassEnergyNonNegative(spectrum, sr, midiOf, p, k - 1);
    if j < k - 1 {
      ClassEnergyCoversBin(spectrum, sr, midiOf, j, k - 1);
    }
  }

  lemma {:induction false} ClassEnergyNonNegative(spectrum: seq<Magnitude>, sr: nat, midiOf: real -> int, p: PitchClass, k: nat)
    requires k <= |spectrum| / 2
    ensures ClassEnergy(spectrum, sr, midiOf, p, k) >= 0.0
  {
    if k > 0 {
      ClassEnergyNonNegative(spectrum, sr, midiOf, p, k - 1);
    }
  }

  /** With no magnitude in any kept bin, every accumulator stays zero. */
  lemma {:induction false} SilentBandGivesSilence(spectrum: seq<Magnitude>, sr: nat, midiOf: real -> int, k: nat)
    requires k <= |spectrum| / 2
    requires forall j :: 0 <= j < k && Kept(spectrum, sr, j) ==> spectrum[j] == 0.0
    ensures EnergyAfter(spectrum, sr, midiOf, k) == Silence
  {
    if k > 0 {
      SilentBandGivesSilence(spectrum, sr, midiOf, k - 1);
      if Kept(spectrum, sr, k - 1) {
        var pc := ClassOf(spectrum, sr, midiOf, k - 1);
        assert Silence[pc := Silence[pc] + spectrum[k - 1]] == Silence;
      }
    }
  }

  /** `f32::max` on two values that are not NaN. */
  function Max(a: real, b: real): real
  {
    if a >= b then a else b
  }

  /** The left fold of `Max` over `s`, as `reduce(f32::max)` computes it. */
  function MaxOf(s: seq<real>): (m: real)
    requires |s| > 0
    ensures forall i :: 0 <= i < |s| ==> s[i] <= m
    ensures exists i :: 0 <= i < |s| && s[i] == m
  {
    if |s| == 1 then s[0]
    else Max(MaxOf(s[..|s| - 1]), s[|s| - 1])
  }

  /** Division by the largest entry when it is positive; otherwise the vector as it is. */
  function Normalised(s: seq<real>): (r: seq<real>)
    requires |s| > 0
    ensures |r| == |s|
  {
    if MaxOf(s) > 0.0 then seq(|s|, i requires 0 <= i < |s| => s[i] / MaxOf(s)) else s
  }

  /** The normalisation step: find the maximum, then divide each entry by it in place. */
  method NormaliseInPlace(a: array<real>)
    requires a.Length == 12
    modifies a
    ensures a[..] == Normalised(old(a[..]))
  {
    var maxVal := a[0];
    for i := 1 to a.Length
      invariant maxVal == MaxOf(a[..i])
    {
      assert a[..i + 1][..i] == a[..i];
      maxVal := Max(maxVal, a[i]);
    }
    assert a[..a.Length] == a[..];
    if maxVal > 0.0 {
      ghost var before := a[..];
      for i := 0 to a.Length
        invariant forall j :: 0 <= j < i ==> a[j] == before[j] / maxVal
        invariant forall j :: i <= j < a.Length ==> a[j] == before[j]
      {
        a[i] := a[i] / maxVal;
      }
    }
  }

  /** Dividing by a positive bound maps [0, m] onto [0, 1], with m itself going to 1. */
  lemma DivideByBound(x: real, m: real)
    requires 0.0 <= x <= m && m > 0.0
    ensures 0.0 <= x / m <= 1.0
    ensures x == m ==> x / m == 1.0
  {
  }

  /**
   * With non-negative entries and a positive maximum, normalisation puts every
   * entry in [0, 1] and the largest entry at exactly 1.
   */
  lemma NormalisedUnitRange(s: seq<real>)
    requires |s| > 0 && forall i :: 0 <= i < |s| ==> s[i] >= 0.0
    requires MaxOf(s) > 0.0
    ensures forall i :: 0 <= i < |s| ==> 0.0 <= Normalised(s)[i] <= 1.0
    ensures exists i :: 0 <= i < |s| && Normalised(s)[i] == 1.0
  {
    var m := MaxOf(s);
    var r := Normalised(s);
    forall i | 0 <= i < |s|
      ensures 0.0 <= r[i] <= 1.0
    {
      DivideByBound(s[i], m);
    }
    var top :| 0 <= top < |s| && s[top] == m;
    DivideByBound(s[top], m);
    assert r[top] == 1.0;
  }

  /** An all-zero vector is left as it is. */
  lemma NormalisedSilence(s: seq<real>)
    requires |s| > 0 && forall i :: 0 <= i < |s| ==> s[i] == 0.0
    ensures Normalised(s) == s
  {
  }

  /** For non-negative entries the maximum is positive exactly when some entry is. */
  lemma MaxPositiveIff(s: seq<real>)
    requires |s| > 0 && forall i :: 0 <= i < |s| ==> s[i] >= 0.0
    ensures MaxOf(s) > 0.0 <==> exists i :: 0 <= i < |s| && s[i] > 0.0
  {
  }
}
