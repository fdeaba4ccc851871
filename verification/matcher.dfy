/**
 * The chord template matcher: score the chroma vector against all 24
 * (root, quality) hypotheses and keep the first strictly best one, then
 * apply the confidence threshold.
 */
module Matcher {
  import opened Pitch
  import opened Templates

  /** Number of (root, quality) hypotheses: twelve roots, each major and minor. */
  const Hypotheses: nat := 24

  /** Best scores strictly below this are reported as no chord. */
  const Threshold: real := 0.4

  /** A detected chord, or no chord at all. */
  datatype Chord = Unknown | Triad(root: PitchClass, quality: Quality)

  /** The text after the note name in a chord's label. */
  function Suffix(q: Quality): string
  {
    match q
    case Major => " major"
    case Minor => " minor"
  }

  /** The label the program reports: "<note> major", "<note> minor" or "Unknown". */
  function Label(c: Chord): string
  {
    match c
    case Unknown => "Unknown"
    case Triad(r, q) => NoteNames[r] + Suffix(q)
  }

  /** Two concatenations with equally long tails agree part by part. */
  lemma SplitConcat(a: string, s: string, b: string, t: string)
    requires a + s == b + t && |s| == |t|
    ensures a == b && s == t
  {
    assert a == (a + s)[..|a|];
    assert b == (b + t)[..|b|];
    assert s == (a + s)[|a|..];
    assert t == (b + t)[|b|..];
  }

  /** A chord's label starts with its note name's letter; only "Unknown" starts with `U`. */
  lemma LabelInitial(c: Chord)
    ensures |Label(c)| > 0
    ensures Label(c)[0] == 'U' <==> c == Unknown
  {
    if c.Triad? {
      NoteNamesStartWithLetter(c.root);
      assert Label(c)[0] == NoteNames[c.root][0];
    }
  }

  /** Different results never share a label. */
  lemma LabelInjective(c1: Chord, c2: Chord)
    requires Label(c1) == Label(c2)
    ensures c1 == c2
  {
    LabelInitial(c1);
    LabelInitial(c2);
    if c1.Triad? && c2.Triad? {
      SplitConcat(NoteNames[c1.root], Suffix(c1.quality), NoteNames[c2.root], Suffix(c2.quality));
      NoteNamesDistinct(c1.root, c2.root);
      assert Suffix(Major)[2] != Suffix(Minor)[2];
    }
  }

  /**
   * Hypotheses are tried in the order of the matching loop: root 0 major,
   * root 0 minor, root 1 major, and so on. This is the position of a chord
   * in that order.
   */
  function Position(c: Chord): int
    requires c.Triad?
  {
    2 * c.root + (if c.quality == Major then 0 else 1)
  }

  /** The hypothesis at position `h` of the matching order. */
  function HypothesisAt(h: int): (c: Chord)
    requires 0 <= h < Hypotheses
    ensures c.Triad? && Position(c) == h
  {
    Triad(h / 2, if h % 2 == 0 then Major else Minor)
  }

  /**
   * The score of a hypothesis: the chroma energy at its root, its third and
   * its fifth. The matching loop computes it as a dot product with a rotated
   * template; `ScoreAtRoot` shows the two agree.
   */
  function Score(chroma: seq<real>, c: Chord): real
    requires |chroma| == 12 && c.Triad?
  {
    chroma[c.root] + chroma[(c.root + Third(c.quality)) % 12] + chroma[(c.root + 7) % 12]
  }

  function ScoreAt(chroma: seq<real>, h: int): real
    requires |chroma| == 12 && 0 <= h < Hypotheses
  {
    Score(chroma, HypothesisAt(h))
  }

  /** The running best score and chord of the matching loop. */
  datatype Best = Best(score: real, chord: Chord)

  /**
   * The running best after trying the first `h` hypotheses, starting from
   * score 0 and no chord and replacing it only on a strictly larger score.
   */
  function Scan(chroma: seq<real>, h: nat): Best
    requires |chroma| == 12 && h <= Hypotheses
  {
    if h == 0 then Best(0.0, Unknown)
    else
      var b := Scan(chroma, h - 1);
      if ScoreAt(chroma, h - 1) > b.score then Best(ScoreAt(chroma, h - 1), HypothesisAt(h - 1)) else b
  }

  /**
   * What the running best means: its score is 0 or more and at least every
   * score tried so far; no chord only while nothing scored above 0; otherwise
   * the chord was tried, its score is the best, and it is the first to reach it.
   */
  lemma {:induction false} ScanIsFirstMaximum(chroma: seq<real>, h: nat)
    requires |chroma| == 12 && h <= Hypotheses
    ensures Scan(chroma, h).score >= 0.0
    ensures forall j :: 0 <= j < h ==> ScoreAt(chroma, j) <= Scan(chroma, h).score
    ensures Scan(chroma, h).chord == Unknown ==> Scan(chroma, h).score == 0.0
    ensures Scan(chroma, h).chord.Triad? ==>
              var c := Scan(chroma, h).chord;
              Position(c) < h && Scan(chroma, h).score == Score(chroma, c) > 0.0 &&
              forall j :: 0 <= j < Position(c) ==> ScoreAt(chroma, j) < Score(chroma, c)
  {
    if h > 0 {
      ScanIsFirstMaximum(chroma, h - 1);
    }
  }

  /**
   * What the matcher must report. No chord exactly when every hypothesis
   * scores below the threshold; otherwise the chord reaches the threshold,
   * scores at least as much as every hypothesis, and strictly more than every
   * hypothesis tried before it (so ties go to the lower root, and to major
   * over minor at the same root).
   */
  predicate Decides(chroma: seq<real>, c: Chord)
    requires |chroma| == 12
  {
    match c
    case Unknown => forall h :: 0 <= h < Hypotheses ==> ScoreAt(chroma, h) < Threshold
    case Triad(_, _) =>
      Score(chroma, c) >= Threshold &&
      (forall h :: 0 <= h < Hypotheses ==> ScoreAt(chroma, h) <= Score(chroma, c)) &&
      (forall h :: 0 <= h < Position(c) ==> ScoreAt(chroma, h) < Score(chroma, c))
  }

  /** The result of the matcher as a function of the chroma vector. */
  function Decide(chroma: seq<real>): (c: Chord)
    requires |chroma| == 12
    ensures Decides(chroma, c)
  {
    ScanIsFirstMaximum(chroma, Hypotheses);
    var b := Scan(chroma, Hypotheses);
    if b.score < Threshold then Unknown
    else
      assert b.chord.Triad?;
      assert HypothesisAt(Position(b.chord)) == b.chord;
      b.chord
  }

  /** `Decide` is the final threshold applied to the scan of all 24 hypotheses. */
  lemma DecideIsThresholdedScan(chroma: seq<real>)
    requires |chroma| == 12
    ensures Decide(chroma) ==
            if Scan(chroma, Hypotheses).score < Threshold then Unknown else Scan(chroma, Hypotheses).chord
  {
  }

  /** The specification `Decides` admits one result only. */
  lemma DecidesUnique(chroma: seq<real>, c1: Chord, c2: Chord)
    requires |chroma| == 12
    requires Decides(chroma, c1) && Decides(chroma, c2)
    ensures c1 == c2
  {
    if c1.Triad? {
      assert HypothesisAt(Position(c1)) == c1;
      assert ScoreAt(chroma, Position(c1)) == Score(chroma, c1);
    }
    if c2.Triad? {
      assert HypothesisAt(Position(c2)) == c2;
      assert ScoreAt(chroma, Position(c2)) == Score(chroma, c2);
    }
  }

  /** One comparison of the matching loop: a hypothesis replaces the best only on a strictly larger score. */
  function Challenge(b: Best, score: real, c: Chord): Best
  {
    if score > b.score then Best(score, c) else b
  }

  /** One step of the scan: hypothesis `h` challenges the best of the first `h`. */
  lemma ScanStep(chroma: seq<real>, h: nat)
    requires |chroma| == 12 && h < Hypotheses
    ensures Scan(chroma, h + 1) == Challenge(Scan(chroma, h), ScoreAt(chroma, h), HypothesisAt(h))
  {
  }

  /** The major and minor hypotheses of root `r` sit at positions `2 * r` and `2 * r + 1`. */
  lemma HypothesesOfRoot(r: PitchClass)
    ensures HypothesisAt(2 * r) == Triad(r, Major)
    ensures HypothesisAt(2 * r + 1) == Triad(r, Minor)
  {
    assert (2 * r) / 2 == r && (2 * r) % 2 == 0;
    assert (2 * r + 1) / 2 == r && (2 * r + 1) % 2 == 1;
  }

  /** One root of the matching loop tries its major chord, then its minor chord. */
  lemma ScanRoot(chroma: seq<real>, r: PitchClass)
    requires |chroma| == 12
    ensures Scan(chroma, 2 * r + 2) ==
            Challenge(Challenge(Scan(chroma, 2 * r), ScoreAt(chroma, 2 * r), Triad(r, Major)),
                      ScoreAt(chroma, 2 * r + 1), Triad(r, Minor))
  {
    HypothesesOfRoot(r);
    ScanStep(chroma, 2 * r);
    ScanStep(chroma, 2 * r + 1);
  }

  /** The two scores computed for root `r` are those of its major and minor hypotheses. */
  lemma ScoreAtRoot(chroma: seq<real>, r: PitchClass)
    requires |chroma| == 12
    ensures ScoreAt(chroma, 2 * r) == Dot(chroma, Rolled(MajorTemplate, r))
    ensures ScoreAt(chroma, 2 * r + 1) == Dot(chroma, Rolled(MinorTemplate, r))
  {
    assert HypothesisAt(2 * r) == Triad(r, Major);
    assert HypothesisAt(2 * r + 1) == Triad(r, Minor);
    TriadScore(chroma, Major, r);
    TriadScore(chroma, Minor, r);
  }

  /**
   * What one iteration of the matching loop computes: the dot products with
   * the two rotated templates of root `r` are the scores of its hypotheses,
   * and trying them extends the scan by two.
   */
  lemma MatchStep(chroma: seq<real>, r: PitchClass, major: seq<real>, minor: seq<real>)
    requires |chroma| == 12
    requires major == Rolled(MajorTemplate, r) && minor == Rolled(MinorTemplate, r)
    ensures Scan(chroma, 2 * (r + 1)) ==
            Challenge(Challenge(Scan(chroma, 2 * r), Dot(chroma, major), Triad(r, Major)),
                      Dot(chroma, minor), Triad(r, Minor))
  {
    ScanRoot(chroma, r);
    ScoreAtRoot(chroma, r);
    assert 2 * (r + 1) == 2 * r + 2;
  }

  /**
   * The matching loop: for each root, roll both templates, score them, and
   * keep a hypothesis only when it beats the best so far; finally apply the
   * threshold.
   */
  method MatchChord(chroma: seq<real>) returns (c: Chord)
    requires |chroma| == 12
    ensures c == Decide(chroma)
    ensures Decides(chroma, c)
  {
    var bestScore := 0.0;
    var bestChord := Unknown;
    for root := 0 to 12
      invariant Scan(chroma, 2 * root) == Best(bestScore, bestChord)
    {
      var major := RollTemplate(MajorTemplate, root);
      var minor := RollTemplate(MinorTemplate, root);

      var majorScore := DotProduct(chroma, major);
      var minorScore := DotProduct(chroma, minor);

      MatchStep(chroma, root, major, minor);

      if majorScore > bestScore {
        bestScore := majorScore;
        bestChord := Triad(root, Major);
      }

      if minorScore > bestScore {
        bestScore := minorScore;
        bestChord := Triad(root, Minor);
      }
    }

    DecideIsThresholdedScan(chroma);
    if bestScore < Threshold {
      return Unknown;
    }
    c := bestChord;
  }

  /** A hypothesis scoring exactly the threshold is enough: the comparison is strict. */
  lemma ThresholdIsInclusive(chroma: seq<real>, h: int)
    requires |chroma| == 12 && 0 <= h < Hypotheses
    requires ScoreAt(chroma, h) >= Threshold
    ensures Decide(chroma) != Unknown
  {
  }

  /** When major and minor at the winning root score the same, major wins. */
  lemma MajorWinsTie(chroma: seq<real>, r: PitchClass)
    requires |chroma| == 12
    requires Score(chroma, Triad(r, Major)) == Score(chroma, Triad(r, Minor))
    ensures Decide(chroma) != Triad(r, Minor)
  {
    var c := Decide(chroma);
    assert HypothesisAt(2 * r) == Triad(r, Major);
    assert c.Triad? && 2 * r < Position(c) ==> ScoreAt(chroma, 2 * r) < Score(chroma, c);
  }

  /** Of two roots scoring the same, the lower one is chosen. */
  lemma LowerRootWinsTie(chroma: seq<real>, c: Chord, d: Chord)
    requires |chroma| == 12 && c.Triad? && d.Triad?
    requires Position(c) < Position(d) && Score(chroma, c) == Score(chroma, d)
    ensures Decide(chroma) != d
  {
    var e := Decide(chroma);
    assert HypothesisAt(Position(c)) == c;
    assert e.Triad? && Position(c) < Position(e) ==> ScoreAt(chroma, Position(c)) < Score(chroma, e);
  }

  /** An all-zero chroma vector scores 0 everywhere and yields no chord. */
  lemma SilenceIsUnknown(chroma: seq<real>)
    requires |chroma| == 12 && forall i :: 0 <= i < 12 ==> chroma[i] == 0.0
    ensures Decide(chroma) == Unknown
  {
    forall h | 0 <= h < Hypotheses
      ensures ScoreAt(chroma, h) < Threshold
    {
    }
    DecidesUnique(chroma, Decide(chroma), Unknown);
  }

  /**
   * A vector with its maximum at 1 and no negative entry always reaches the
   * threshold: the major hypothesis rooted at the maximum scores at least 1.
   */
  lemma PeakReachesThreshold(chroma: seq<real>, p: PitchClass)
    requires |chroma| == 12 && forall i :: 0 <= i < 12 ==> chroma[i] >= 0.0
    requires chroma[p] == 1.0
    ensures Decide(chroma) != Unknown
  {
    assert HypothesisAt(2 * p) == Triad(p, Major);
    assert ScoreAt(chroma, 2 * p) >= 1.0;
  }

  /**
   * A template rotated to `r`, read `k` semitones above `root`, holds the
   * template's entry `k` semitones above the offset of `root` from `r`.
   */
  lemma RolledOffset(t: seq<real>, r: PitchClass, root: PitchClass, k: int)
    requires |t| == 12
    ensures Rolled(t, r)[(root + k) % 12] == t[((root - r) % 12 + k) % 12]
  {
    ModThenSubtract(root + k, r);
    ModThenSubtract(root - r, -k);
  }

  /** The score of a template rotated to `r`, read at a hypothesis `d` semitones above `r`. */
  lemma OffsetScore(t: seq<real>, r: PitchClass, c: Chord)
    requires |t| == 12 && c.Triad?
    ensures Score(Rolled(t, r), c) == OffsetSum(t, c.quality, (c.root - r) % 12)
  {
    RolledOffset(t, r, c.root, 0);
    RolledOffset(t, r, c.root, Third(c.quality));
    RolledOffset(t, r, c.root, 7);
  }

  /** An unrotated template `t` scored at a triad of quality `q'` rooted `d` semitones up. */
  function OffsetSum(t: seq<real>, q': Quality, d: int): real
    requires |t| == 12 && 0 <= d < 12
  {
    t[d] + t[(d + Third(q')) % 12] + t[(d + 7) % 12]
  }

  /** Only the template's own root and quality give it all three of its tones. */
  lemma OffsetTable(q: Quality, q': Quality, d: int)
    requires 0 <= d < 12
    ensures OffsetSum(Template(q), q', d) <= 3.0
    ensures OffsetSum(Template(q), q', d) == 3.0 <==> d == 0 && q == q'
  {
    TemplateShape(q, d);
    TemplateShape(q, (d + Third(q')) % 12);
    TemplateShape(q, (d + 7) % 12);
  }

  /** Against a rotated template, only that template's own chord scores the full 3. */
  lemma RotatedTemplateScore(q: Quality, r: PitchClass, e: Chord)
    requires e.Triad?
    ensures Score(Rolled(Template(q), r), e) <= 3.0
    ensures e != Triad(r, q) ==> Score(Rolled(Template(q), r), e) < 3.0
    ensures e == Triad(r, q) ==> Score(Rolled(Template(q), r), e) == 3.0
  {
    OffsetScore(Template(q), r, e);
    var d := (e.root - r) % 12;
    OffsetTable(q, e.quality, d);
    OffsetIff(e.root, r, 0);
  }

  /** `RotatedTemplateScore` read at hypothesis `h` of the matching order. */
  lemma RotatedScoreAt(q: Quality, r: PitchClass, h: int)
    requires 0 <= h < Hypotheses
    ensures ScoreAt(Rolled(Template(q), r), h) <= 3.0
    ensures h != Position(Triad(r, q)) ==> ScoreAt(Rolled(Template(q), r), h) < 3.0
  {
    RotatedTemplateScore(q, r, HypothesisAt(h));
  }

  /** The chord of a rotated template meets the matcher's specification on that template. */
  lemma RotatedTemplateDecides(q: Quality, r: PitchClass)
    ensures Score(Rolled(Template(q), r), Triad(r, q)) == 3.0
    ensures Decides(Rolled(Template(q), r), Triad(r, q))
  {
    var chroma := Rolled(Template(q), r);
    var c := Triad(r, q);
    RotatedTemplateScore(q, r, c);
    forall h | 0 <= h < Hypotheses
      ensures ScoreAt(chroma, h) <= 3.0
      ensures h != Position(c) ==> ScoreAt(chroma, h) < 3.0
    {
      RotatedScoreAt(q, r, h);
    }
  }

  /**
   * A chroma vector equal to a template rotated to root `r` is recognised as
   * that very chord, with score 3.
   */
  lemma RotationSymmetry(q: Quality, r: PitchClass)
    ensures Decide(Rolled(Template(q), r)) == Triad(r, q)
    ensures Score(Rolled(Template(q), r), Triad(r, q)) == 3.0
  {
    var chroma := Rolled(Template(q), r);
    RotatedTemplateDecides(q, r);
    DecidesUnique(chroma, Decide(chroma), Triad(r, q));
  }
}
