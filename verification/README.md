# Chord recognition from a spectrum: a verified model

The program reads a short recording and names the chord it hears. It
works in four steps:

1. It takes the magnitudes of the Fourier transform of the Hann-windowed
   samples.
2. It adds the magnitude of every bin below index n/2 whose frequency
   lies in [70, 1500] Hz into one of twelve pitch-class accumulators,
   where n is the number of samples. Together these form the chroma
   vector.
3. It divides the chroma vector by its largest entry.
4. It scores the vector against the C major and C minor templates,
   rotated to each of the twelve roots. It reports the first strictly
   best of the 24 hypotheses as `"<note> major"` or `"<note> minor"`.
   It reports `"Unknown"` when there are no samples or when the best
   score is below 0.4.

This project models steps 2 to 4 and the empty-input guard. The modules
are:

- `Pitch`: the twelve pitch classes, the note names, and the integer
  half of the frequency-to-pitch mapping. That half is Rust's truncating
  `%` by 12, followed by the correction for negative note numbers.
- `Templates`: the two base templates and the rotation loop
  (`RollTemplate`, specified by `Rolled`). It also holds the
  multiply-and-sum loop (`DotProduct`, specified by `Dot`). The rotation
  is proved to be a permutation that composes, inverts and leaves a
  template unchanged at shift 0. A score against a rotated template is
  proved to be the sum of the chroma at the root, the third and the
  fifth.
- `Chroma`: the band filter and the accumulation loop (`AccumulateBins`,
  which writes into a 12-element array and is specified by
  `PitchEnergy`). Each accumulator is proved to hold exactly the kept
  bins of its class. Magnitude is conserved, and bins outside the band
  have no effect. This module also holds the in-place normalisation
  (`NormaliseInPlace`, specified by `Normalised`).
- `Matcher`: the matching loop (`MatchChord`). It is proved equal to the
  function `Decide` and to satisfy the predicate `Decides`. `Decides`
  says the result is the first maximum of the 24 scores under strict
  `>`, or no chord when every score is below the threshold. `Decides`
  admits exactly one result. Further lemmas cover the tie rules, the
  inclusive threshold, and rotated templates being recognised as their
  own chord.
- `Recognition`: the chord finder after the transform (`FindChord`),
  specified by `Recognise`.

The threshold comparison is strict: the code tests `best_score < 0.4`
(`src/main.rs:152`), so a best score of exactly 0.4 is labelled.
`ThresholdIsInclusive` states this.

Normalisation puts the largest entry at exactly 1. A consequence of
this is proved in `UnknownIffSilentBand`: the 0.4 threshold rejects
nothing except an all-zero chroma vector. The result is "Unknown"
exactly when the recording is empty or every kept bin has magnitude 0.

## Model

| member | source | states |
|---|---|---|
| `Pitch.TruncRem12` | src/main.rs:28 | The remainder of `%` by 12 on an `i32`: strictly between -12 and 12, with the sign of the dividend, and congruent to it modulo 12 |
| `Pitch.PitchClassOf` | src/main.rs:26-34 | The fold of a note number always lands in 0..11 and is congruent to the note number, negative numbers included |
| `Pitch.PitchClassIsEuclidean` | src/main.rs:28-32 | The fold equals the Euclidean residue modulo 12, so a note and the note an octave up share a class |
| `Pitch.NegativeNotesFold` | src/main.rs:28-32 | For -1 and -13 the raw remainder is -1 and the correction gives class 11 (B); -12 gives class 0 |
| `Pitch.ReferencePitches` | src/main.rs:7-10 | MIDI 69 is named "A" and MIDI 60 is named "C" |
| `Pitch.NoteNamesDistinct` | src/main.rs:7-10 | The twelve note names are pairwise different |
| `Pitch.NoteNamesStartWithLetter` | src/main.rs:7-10 | Every note name is non-empty and starts with a letter from A to G |
| `Templates.RollTemplate` | src/main.rs:46-54 | After the loop, entry `(i + shift) % 12` holds template entry `i` for every `i`, and the output is the rotation `Rolled(template, shift)` |
| `Templates.RollZero` | src/main.rs:46-54 | Rotating by 0 returns the template unchanged |
| `Templates.RollCompose` | src/main.rs:46-54 | Rotating by `a` and then by `b` is rotating by `a + b` |
| `Templates.RollInverse` | src/main.rs:46-54 | Rotating by `12 - shift % 12` undoes a rotation by `shift` |
| `Templates.RollIsPermutation` | src/main.rs:46-54 | A rotation is the template's two halves swapped, so it has the same multiset of entries |
| `Templates.TemplateShape` | src/main.rs:12-19 | The major template is 1 exactly at offsets 0, 4 and 7; the minor one exactly at 0, 3 and 7; all other entries are 0 |
| `Templates.RolledTriad` | src/main.rs:135-136 | The template rotated to root `r` is 1 exactly at `r`, the third above `r` and the fifth above `r`, and 0 at the other nine classes |
| `Templates.DotProduct` | src/main.rs:56-64 | The loop computes the left-to-right sum of element-wise products `Dot(a, b)` |
| `Templates.TriadScore` | src/main.rs:138-139 | A chroma vector's dot product with a rotated template is the sum of its entries at the root, third and fifth |
| `Templates.ScoreBounds` | src/main.rs:138-139 | For a chroma vector in [0, 1] every score lies in [0, 3] |
| `Chroma.EnergyAfter` | src/main.rs:96-109 | After scanning any prefix of the bins, the twelve accumulators are never negative |
| `Chroma.AccumulateBins` | src/main.rs:96-109 | The band-filter loop over bins `0 .. n/2` leaves the array equal to `PitchEnergy` of the spectrum |
| `Chroma.EnergyIsClassEnergy` | src/main.rs:98-108 | Each accumulator equals the total magnitude of the kept bins whose frequency maps to that class; a bin adds to one class only |
| `Chroma.EnergyConserved` | src/main.rs:98-108 | The twelve accumulators add up to the total magnitude of all kept bins: nothing is lost or counted twice |
| `Chroma.OutOfBandIgnored` | src/main.rs:99-103 | Two spectra that agree on every kept bin give the same accumulators, whatever their other bins hold |
| `Chroma.ClassEnergyCoversBin` | src/main.rs:105-108 | A kept bin contributes at least its own magnitude to its class's accumulator |
| `Chroma.SilentBandGivesSilence` | src/main.rs:98-108 | When every kept bin has magnitude 0, all twelve accumulators stay 0 |
| `Chroma.MaxOf` | src/main.rs:112 | The fold of `max` is at least every entry and equals one of them |
| `Chroma.NormaliseInPlace` | src/main.rs:111-118 | The in-place maximum search and division leaves the array equal to `Normalised` of its old contents |
| `Chroma.NormalisedUnitRange` | src/main.rs:111-118 | With non-negative entries and a positive maximum, every normalised entry lies in [0, 1] and one equals exactly 1 |
| `Chroma.NormalisedSilence` | src/main.rs:113 | An all-zero vector is left unchanged, because its maximum is not positive |
| `Chroma.MaxPositiveIff` | src/main.rs:112-113 | For non-negative entries the maximum is positive exactly when some entry is positive |
| `Matcher.LabelInjective` | src/main.rs:132-148 | Different results ("Unknown", a major chord, a minor chord, different roots) never share a label |
| `Matcher.LabelInitial` | src/main.rs:132-148 | Every label is non-empty, and only the label "Unknown" starts with `U` |
| `Matcher.HypothesisAt` | src/main.rs:134-149 | Hypothesis `h` of the matching order is a triad whose position in the order is `h`: root `h / 2`, major before minor |
| `Matcher.ScanIsFirstMaximum` | src/main.rs:131-150 | The running best score is non-negative and at least every score tried so far; no chord means nothing scored above 0; otherwise the chord was tried, the best score is its score, and every hypothesis before it scored strictly less |
| `Matcher.Decide` | src/main.rs:131-156 | The matcher's verdict satisfies `Decides`: no chord exactly when every score is below 0.4; otherwise the chord reaches 0.4, is a maximum, and strictly beats every earlier hypothesis |
| `Matcher.DecidesUnique` | src/main.rs:131-156 | At most one result satisfies `Decides` for a given chroma vector |
| `Matcher.ScanRoot` | src/main.rs:134-150 | One iteration for root `r` is the major comparison followed by the minor comparison, each replacing the best only on a strictly larger score |
| `Matcher.ScoreAtRoot` | src/main.rs:135-139 | The two dot products computed for root `r` are the scores of the major and minor hypotheses at `r` |
| `Matcher.MatchStep` | src/main.rs:134-149 | One iteration for root `r`: the dot products with the two rotated templates, tried major then minor, extend the scan by two hypotheses |
| `Matcher.DecideIsThresholdedScan` | src/main.rs:152-156 | Unfolds `Decide`: "no chord" when the scan's best score is below 0.4, and the scan's best chord otherwise; it is the step `MatchChord` uses after its loop |
| `Matcher.MatchChord` | src/main.rs:131-156 | The loop with the strict `>` updates and the final threshold returns `Decide(chroma)`, which satisfies `Decides` |
| `Matcher.ThresholdIsInclusive` | src/main.rs:152-154 | A hypothesis scoring exactly 0.4 or more is enough to report a chord |
| `Matcher.MajorWinsTie` | src/main.rs:141-149 | When a root's major and minor chords score the same, the minor chord is never reported |
| `Matcher.LowerRootWinsTie` | src/main.rs:134-150 | Of two hypotheses with equal scores, the later one in the matching order is never reported |
| `Matcher.SilenceIsUnknown` | src/main.rs:152-154 | An all-zero chroma vector yields no chord |
| `Matcher.PeakReachesThreshold` | src/main.rs:152-154 | A non-negative chroma vector with an entry equal to 1 always yields a chord |
| `Matcher.RotatedTemplateScore` | src/main.rs:135-139 | Against a template rotated to `r`, every hypothesis scores at most 3, and only that template's own chord scores 3 |
| `Matcher.RotatedTemplateDecides` | src/main.rs:134-150 | On a template rotated to `r`, that template's own chord scores 3 and meets the matcher's specification `Decides` |
| `Matcher.RotationSymmetry` | src/main.rs:134-150 | A chroma vector equal to the template of quality `q` rotated to `r` is recognised as `q` at root `r`, with score 3 |
| `Recognition.Recognise` | src/main.rs:78-156 | The chord for an empty recording is "no chord"; otherwise it is the matcher's unique verdict on the normalised chroma |
| `Recognition.FindChord` | src/main.rs:78-156 | After the transform: "Unknown" for no samples; otherwise the accumulated, normalised and matched chord's label, which is `Label(Recognise(...))` |
| `Recognition.NormalisedChromaRange` | src/main.rs:96-118 | The chroma vector the matcher sees lies in [0, 1] and is either all zero or has an entry equal to 1 |
| `Recognition.UnknownIffSilentBand` | src/main.rs:78-154 | The result is "Unknown" exactly when every kept bin has magnitude 0 (always the case for an empty recording) |
| `Recognition.OnlyBandMatters` | src/main.rs:98-103 | Two spectra of the same length that agree on every kept bin get the same chord |

## Left out

- Reading the WAV file (`hound`) and converting `i16` samples to `f32` (src/main.rs:67-76) are I/O. The model starts from the number of samples and the sample rate.
- The Hann window (src/main.rs:37-43, 83-88) is the program's own `f32` `cos` loop, and the forward FFT (src/main.rs:90-93) is a call into `rustfft`. Both are floating-point signal processing. The model takes the magnitude of every transform bin, `c.norm()`, as the input `spectrum`.
- The floating-point half of `freq_to_pitch` (src/main.rs:24-26) is a parameter `midiOf: real -> int`. That half is `log2`, rounding and the saturating `as i32` cast. The model covers the integer fold that follows.
- `f32` rounding, NaN and infinities are not modelled: all arithmetic is on exact reals. So the model does not capture these:
  - `f32::max` skipping NaN;
  - the `partial_cmp(..).unwrap()` panic on NaN (src/main.rs:122);
  - the inexactness of `k as f32 * sr as f32 / n as f32`.
- The top-three pitch-class listing (src/main.rs:120-128) only prints and does not affect the result.
- `main` and its command line (src/main.rs:159-170) are I/O.
- `Templates.RollTemplate` takes an unbounded `shift`, so `usize` overflow of `i + shift` is not modelled. The only caller passes `shift` below 12.
- `reduce(f32::max)` returns `None` only for an empty iterator. The accumulator array always has 12 entries, so only the `Some` branch is modelled.
- The label string is built once from the winning `Chord` (`Matcher.Label`). The source formats a new string at every improvement instead. The last one formatted is the same label.
