/**
 * ch0p1n/transform.py: the earlier remapping of pitch classes. Its loop is
 * that of vary.py's `rescale`, except for the nearest-octave rule: where the
 * mapped class lies six or more semitones from the pitch's class, it takes
 * `12 - to` for `to`. That is the mirror of the class rather than the class
 * an octave away, so it lands on the mapped class only when that class is 0.
 */
module Transform {
  import opened Seqs
  import opened Structure
  import opened Lines
  import Variation
  import Vary

  /** One flat pitch under transform.py's rule, as written. */
  function Mirror(x: Option<int>, mapping: map<int, int>): (r: Option<int>)
    ensures r.None? <==> x.None?
  {
    if x.None? || x.value % 12 !in mapping then x
    else
      var pc := x.value % 12;
      var to := mapping[pc];
      var t := if Variation.Abs(to - pc) >= 6 then 12 - to else to;
      Some(t + x.value / 12 * 12)
  }

  function MirrorAll(ps: seq<Option<int>>, mapping: map<int, int>): (r: seq<Option<int>>)
    ensures |r| == |ps|
  {
    seq(|ps|, k requires 0 <= k < |ps| => Mirror(ps[k], mapping))
  }

  /** `transform` as written: the motif's flat pitches remapped one by one, then poured back into it. */
  method TransformAsWritten(ms: Motif, mapping: map<int, int>) returns (r: Motif)
    ensures |r| == |ms| && forall l :: 0 <= l < |ms| ==> Shape(r[l]) == Shape(ms[l])
    ensures Flatten(r) == MirrorAll(Flatten(ms), mapping)
  {
    var pitches := Flatten(ms);
    ghost var before := pitches;
    for i := 0 to |pitches|
      invariant |pitches| == |before|
      invariant forall k :: 0 <= k < i ==> pitches[k] == Mirror(before[k], mapping)
      invariant forall k :: i <= k < |pitches| ==> pitches[k] == before[k]
    {
      if pitches[i].None? {
        continue;
      }
      var octave := pitches[i].value / 12;
      var pc := pitches[i].value % 12;
      if pc !in mapping {
        continue;
      }
      var to := mapping[pc];
      if Variation.Abs(to - pc) >= 6 {
        to := 12 - to;
      }
      pitches := pitches[i := Some(to + octave * 12)];
    }
    r := ReplaceLines(ms, pitches);
    ReplaceLinesSpec(ms, pitches);
  }

  /** A rest and a pitch whose class is not a key are left alone, as by `rescale`. */
  lemma MirrorKeeps(x: Option<int>, mapping: map<int, int>)
    requires x.None? || x.value % 12 !in mapping
    ensures Mirror(x, mapping) == x && Mirror(x, mapping) == Variation.Remap(x, mapping)
  {
  }

  /**
   * For a mapping onto pitch classes, the rule as written agrees with the
   * nearest-octave rule of `rescale` exactly when the class moves by less
   * than six semitones or is mapped to class 0.
   */
  lemma MirrorAgrees(p: int, mapping: map<int, int>)
    requires p % 12 in mapping && 0 <= mapping[p % 12] < 12
    ensures Mirror(Some(p), mapping) == Variation.Remap(Some(p), mapping) <==>
      Variation.Abs(mapping[p % 12] - p % 12) < 6 || mapping[p % 12] == 0
  {
  }

  /** The example in the source's comment, `{11: 0}` on 59, comes out right: 60. */
  lemma MirrorComment(mapping: map<int, int>)
    requires mapping == map[11 := 0]
    ensures Mirror(Some(59), mapping) == Some(60) == Variation.Remap(Some(59), mapping)
  {
  }

  /**
   * The discrepancy: under `{0: 11, 11: 0, 1: 10}`, `[[60], [[59, 61], None]]`
   * becomes `[[61], [[60, 62], None]]`, where 61 and 62 are not of the mapped
   * classes 11 and 10; the nearest-octave rule gives `[[59], [[60, 58], None]]`.
   */
  lemma TransformCounterexample(ms: Motif, mapping: map<int, int>, r: Motif)
    requires ms == [[Note(60)], [Chord([Some(59), Some(61)]), Rest]]
    requires mapping == map[0 := 11, 11 := 0, 1 := 10]
    requires |r| == |ms| && forall l :: 0 <= l < |ms| ==> Shape(r[l]) == Shape(ms[l])
    requires Flatten(r) == MirrorAll(Flatten(ms), mapping)
    ensures r == [[Note(61)], [Chord([Some(60), Some(62)]), Rest]]
  {
    var e: Motif := [[Note(61)], [Chord([Some(60), Some(62)]), Rest]];
    Vary.ExampleFlat(ms, 60, 59, 61);
    Vary.ExampleFlat(e, 61, 60, 62);
    MirrorExample(Flatten(ms), mapping);
    Vary.ExampleShapes(ms, e, 60, 59, 61, 61, 60, 62);
    ShapesAgree(ms, r, e);
  }

  /** The flat pitches of the example under the rule as written: 60 to 61, 59 to 60 and 61 to 62. */
  lemma MirrorExample(ps: seq<Option<int>>, mapping: map<int, int>)
    requires ps == [Some(60), Some(59), Some(61), None]
    requires mapping == map[0 := 11, 11 := 0, 1 := 10]
    ensures MirrorAll(ps, mapping) == [Some(61), Some(60), Some(62), None]
  {
    var qs := MirrorAll(ps, mapping);
    assert qs[0] == Some(61);
    assert qs[1] == Some(60);
    assert qs[2] == Some(62);
  }
}
