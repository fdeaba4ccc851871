/**
 * Chord templates over the twelve pitch classes, their rotation to a root,
 * and the dot product that scores a chroma vector against a template.
 *
 * The source's `[f32; 12]` arrays are values (copied, never shared), so a
 * template is a `seq<real>` of length 12.
 */
module Templates {
  import opened Pitch

  /** Root, major third and perfect fifth of a chord rooted at C. */
  const MajorTemplate: seq<real> :=
    [1.0, 0.0, 0.0, 0.0, 1.0, 0.0, 0.0, 1.0, 0.0, 0.0, 0.0, 0.0]

  /** Root, minor third and perfect fifth of a chord rooted at C. */
  const MinorTemplate: seq<real> :=
    [1.0, 0.0, 0.0, 1.0, 0.0, 0.0, 0.0, 1.0, 0.0, 0.0, 0.0, 0.0]

  datatype Quality = Major | Minor

  function Template(q: Quality): (t: seq<real>)
    ensures |t| == 12
  {
    match q
    case Major => MajorTemplate
    case Minor => MinorTemplate
  }

  /** Semitones from the root to the third. */
  function Third(q: Quality): int
  {
    match q
    case Major => 4
    case Minor => 3
  }

  /** The template `t` rotated up by `shift` semitones: entry `j` holds offset `j - shift`. */
  function Rolled(t: seq<real>, shift: nat): (r: seq<real>)
    requires |t| == 12
    ensures |r| == 12
  {
    seq(12, j requires 0 <= j < 12 => t[(j - shift) % 12])
  }

  /** Adding `shift` and then subtracting it again, modulo 12, is the identity on 0..11. */
  lemma ShiftRoundTrip(i: int, shift: int)
    requires 0 <= i < 12
    ensures ((i + shift) % 12 - shift) % 12 == i
    ensures ((i - shift) % 12 + shift) % 12 == i
  {
  }

  /** Reducing modulo 12 before subtracting does not change the final residue. */
  lemma ModThenSubtract(x: int, y: int)
    ensures (x % 12 - y) % 12 == (x - y) % 12
  {
    var q := x / 12;
    assert x == 12 * q + x % 12;
    var z := x - y;
    assert x % 12 - y == z - 12 * q;
    assert z == 12 * (z / 12) + z % 12;
    assert z - 12 * q == 12 * (z / 12 - q) + z % 12;
  }

  /**
   * Rotating a template: each value at offset `i` is written to `(i + shift) % 12`.
   * The result is the rotation `Rolled`, read either way round.
   */
  method RollTemplate(template: seq<real>, shift: nat) returns (out: seq<real>)
    requires |template| == 12
    ensures |out| == 12
    ensures forall i :: 0 <= i < 12 ==> out[(i + shift) % 12] == template[i]
    ensures out == Rolled(template, shift)
  {
    out := seq(12, _ => 0.0);
    for i := 0 to 12
      invariant |out| == 12
      invariant forall k :: 0 <= k < i ==> out[(k + shift) % 12] == template[k]
    {
      var pos := (i + shift) % 12;
      forall k | 0 <= k < i
        ensures out[pos := template[i]][(k + shift) % 12] == template[k]
      {
        ShiftRoundTrip(k, shift);
        ShiftRoundTrip(i, shift);
      }
      out := out[pos := template[i]];
    }
    forall j | 0 <= j < 12
      ensures out[j] == Rolled(template, shift)[j]
    {
      ShiftRoundTrip(j, shift);
      var i := (j - shift) % 12;
      assert out[(i + shift) % 12] == template[i];
    }
  }

  /** Rotating by 0 leaves a template unchanged. */
  lemma RollZero(t: seq<real>)
    requires |t| == 12
    ensures Rolled(t, 0) == t
  {
    forall j | 0 <= j < 12
      ensures Rolled(t, 0)[j] == t[j]
    {
    }
  }

  /** Two rotations compose into one by the sum of the shifts. */
  lemma RollCompose(t: seq<real>, a: nat, b: nat)
    requires |t| == 12
    ensures Rolled(Rolled(t, a), b) == Rolled(t, a + b)
  {
    forall j | 0 <= j < 12
      ensures Rolled(Rolled(t, a), b)[j] == Rolled(t, a + b)[j]
    {
      var k := (j - b) % 12;
      assert Rolled(Rolled(t, a), b)[j] == t[(k - a) % 12];
      ModThenSubtract(j - b, a);
    }
  }

  /** Subtracting a multiple of 12 does not change a residue. */
  lemma ModMinusMultiple(j: int, m: int)
    requires 0 <= j < 12
    ensures (j - 12 * m) % 12 == j
  {
    var x := j - 12 * m;
    assert x == 12 * (x / 12) + x % 12;
    assert 12 * (x / 12 + m) == j - x % 12;
    assert x / 12 + m == 0;
  }

  /** Rotating by `12 - shift % 12` undoes a rotation by `shift`. */
  lemma RollInverse(t: seq<real>, shift: nat)
    requires |t| == 12
    ensures Rolled(Rolled(t, shift), 12 - shift % 12) == t
  {
    RollCompose(t, shift, 12 - shift % 12);
    var m := shift / 12 + 1;
    assert shift + (12 - shift % 12) == 12 * m;
    forall j | 0 <= j < 12
      ensures Rolled(t, 12 * m)[j] == t[j]
    {
      ModMinusMultiple(j, m);
    }
  }

  /** A rotation is the two halves of the template swapped, so it permutes the entries. */
  lemma RollIsPermutation(t: seq<real>, shift: nat)
    requires |t| == 12
    ensures Rolled(t, shift) == t[12 - shift % 12..] + t[..12 - shift % 12]
    ensures multiset(Rolled(t, shift)) == multiset(t)
  {
    var cut := 12 - shift % 12;
    forall j | 0 <= j < 12
      ensures Rolled(t, shift)[j] == (t[cut..] + t[..cut])[j]
    {
      if j < 12 - cut {
        assert (j - shift) % 12 == cut + j;
      } else {
        assert (j - shift) % 12 == j - (12 - cut);
      }
    }
    assert t == t[..cut] + t[cut..];
  }

  /** Which offsets of a base template carry weight: root, third and fifth. */
  lemma TemplateShape(q: Quality, k: int)
    requires 0 <= k < 12
    ensures Template(q)[k] == if k == 0 || k == Third(q) || k == 7 then 1.0 else 0.0
  {
    assert k == 0 || k == 1 || k == 2 || k == 3 || k == 4 || k == 5 || k == 6
        || k == 7 || k == 8 || k == 9 || k == 10 || k == 11;
  }

  /** Class `j` lies `d` semitones above `r` exactly when it is `(r + d) % 12`. */
  lemma OffsetIff(j: int, r: int, d: int)
    requires 0 <= j < 12 && 0 <= d < 12
    ensures (j - r) % 12 == d <==> j == (r + d) % 12
  {
    ShiftRoundTrip(j, r);
    ModThenSubtract(r + d, r);
  }

  /**
   * The template of quality `q` rotated to root `r` is 1.0 exactly at the root,
   * the third above it and the fifth above it, and 0.0 at the other nine classes.
   */
  lemma RolledTriad(q: Quality, r: PitchClass, j: int)
    requires 0 <= j < 12
    ensures Rolled(Template(q), r)[j] ==
            if j == r || j == (r + Third(q)) % 12 || j == (r + 7) % 12 then 1.0 else 0.0
  {
    var k := (j - r) % 12;
    assert Rolled(Template(q), r)[j] == Template(q)[k];
    TemplateShape(q, k);
    OffsetIff(j, r, 0);
    OffsetIff(j, r, Third(q));
    OffsetIff(j, r, 7);
  }

  /** Sum of the first `n` element-wise products, added left to right. */
  function DotUpTo(a: seq<real>, b: seq<real>, n: nat): real
    requires n <= |a| && n <= |b|
  {
    if n == 0 then 0.0 else DotUpTo(a, b, n - 1) + a[n - 1] * b[n - 1]
  }

  /** The dot product of two 12-element vectors. */
  function Dot(a: seq<real>, b: seq<real>): real
    requires |a| == 12 && |b| == 12
  {
    DotUpTo(a, b, |a|)
  }

  /** Multiply-and-sum, accumulating into `sum` from index 0 up. */
  method DotProduct(a: seq<real>, b: seq<real>) returns (sum: real)
    requires |a| == 12 && |b| == 12
    ensures sum == Dot(a, b)
  {
    sum := 0.0;
    for i := 0 to 12
      invariant sum == DotUpTo(a, b, i)
    {
      sum := sum + a[i] * b[i];
    }
  }

  /** Sum of `a` at those of the three positions `p`, `q`, `u` that lie below `n`. */
  function PartialTriad(a: seq<real>, p: int, q: int, u: int, n: nat): real
    requires 0 <= p < |a| && 0 <= q < |a| && 0 <= u < |a|
  {
    (if p < n then a[p] else 0.0) + (if q < n then a[q] else 0.0) + (if u < n then a[u] else 0.0)
  }

  /** Against a 0/1 indicator of three distinct positions, a dot product is the sum at those positions. */
  lemma {:induction false} DotWithIndicator(a: seq<real>, b: seq<real>, p: int, q: int, u: int, n: nat)
    requires n <= |a| == |b|
    requires 0 <= p < |a| && 0 <= q < |a| && 0 <= u < |a|
    requires p != q && q != u && p != u
    requires forall j :: 0 <= j < |b| ==> b[j] == if j == p || j == q || j == u then 1.0 else 0.0
    ensures DotUpTo(a, b, n) == PartialTriad(a, p, q, u, n)
  {
    if n > 0 {
      DotWithIndicator(a, b, p, q, u, n - 1);
    }
  }

  /**
   * Scoring a chroma vector against a template rotated to root `r` adds up
   * exactly three entries: the root, the third and the fifth.
   */
  lemma TriadScore(chroma: seq<real>, q: Quality, r: PitchClass)
    requires |chroma| == 12
    ensures Dot(chroma, Rolled(Template(q), r)) ==
            chroma[r] + chroma[(r + Third(q)) % 12] + chroma[(r + 7) % 12]
  {
    var b := Rolled(Template(q), r);
    forall j | 0 <= j < 12
      ensures b[j] == if j == r || j == (r + Third(q)) % 12 || j == (r + 7) % 12 then 1.0 else 0.0
    {
      RolledTriad(q, r, j);
    }
    DotWithIndicator(chroma, b, r, (r + Third(q)) % 12, (r + 7) % 12, 12);
  }

  /** A chroma vector with entries in [0, 1] scores between 0 and 3 against any rotated template. */
  lemma ScoreBounds(chroma: seq<real>, q: Quality, r: PitchClass)
    requires |chroma| == 12
    requires forall i :: 0 <= i < 12 ==> 0.0 <= chroma[i] <= 1.0
    ensures 0.0 <= Dot(chroma, Rolled(Template(q), r)) <= 3.0
  {
    TriadScore(chroma, q, r);
  }
}
