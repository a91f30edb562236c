/**
 * ch0p1n/transpose.py: the earlier `transpose` of a multi-line motif.
 * `expand_scale` is `_reify` (modelled by `Scale.Reify`). `transpose_pitch`
 * leaves the pitch alone for step 0, where motif.py's `_move` drops an
 * off-scale pitch; for any other step it is `_move`, and every pitch of the
 * motif is moved along one shared expanded list, which each off-scale pitch
 * extends.
 */
module EarlyTranspose {
  import opened Seqs
  import opened Structure
  import opened Scale
  import opened Lines
  import Variation

  /** Whether `transpose_pitch` stays inside the list. */
  predicate CanTransposePitch(pitch: Option<int>, scale: seq<int>, step: int)
  {
    step == 0 || CanMove(pitch, scale, Some(step))
  }

  /**
   * `transpose_pitch`: the pitch itself for step 0 or a missing pitch;
   * otherwise the pitch `step` places away once it is on the list, which it
   * joins if it was not there.
   */
  function TransposePitch(pitch: Option<int>, scale: seq<int>, step: int): (r: Moved)
    requires CanTransposePitch(pitch, scale, step)
    ensures step == 0 || pitch.None? ==> r == Moved(pitch, scale)
    ensures step != 0 && pitch.Some? ==> r.pitch.Some? && r.scale == Placed(scale, pitch.value)
  {
    if step == 0 || pitch.None? then Moved(pitch, scale) else Move(pitch, scale, Some(step))
  }

  /** `transpose_pitch` on the caller's list, which it may extend. */
  method TransposePitchAlong(pitch: Option<int>, scale: PitchList, step: int) returns (r: Option<int>)
    requires CanTransposePitch(pitch, scale.items, step)
    modifies scale
    ensures Moved(r, scale.items) == TransposePitch(pitch, old(scale.items), step)
  {
    if step == 0 || pitch.None? {
      return pitch;
    }
    r := MoveAlong(pitch, scale, Some(step));
  }

  /** The comprehension of `transpose`: each flat pitch in turn, along the shared list; `None` once a move would leave it. */
  function TransposeAll(ps: seq<Option<int>>, scale: seq<int>, step: int): (r: Option<MovedAll>)
    ensures r.Some? ==> |r.value.pitches| == |ps|
  {
    if ps == [] then Some(MovedAll([], scale))
    else
      var init := TransposeAll(ps[..|ps| - 1], scale, step);
      var p := ps[|ps| - 1];
      if init.None? || !CanTransposePitch(p, init.value.scale, step) then None
      else
        var last := TransposePitch(p, init.value.scale, step);
        Some(MovedAll(init.value.pitches + [last.pitch], last.scale))
  }

  /** For a step other than 0 the earlier comprehension is motif.py's. */
  lemma {:induction false} TransposeAllAgrees(ps: seq<Option<int>>, scale: seq<int>, step: int)
    requires step != 0
    ensures TransposeAll(ps, scale, step) == Variation.MoveAll(ps, scale, Some(step))
  {
    if ps != [] {
      TransposeAllAgrees(ps[..|ps| - 1], scale, step);
    }
  }

  /** For step 0 every pitch, on the scale or not, is kept, and the list is untouched. */
  lemma {:induction false} TransposeAllZero(ps: seq<Option<int>>, scale: seq<int>)
    ensures TransposeAll(ps, scale, 0) == Some(MovedAll(ps, scale))
  {
    if ps != [] {
      TransposeAllZero(ps[..|ps| - 1], scale);
      assert ps[..|ps| - 1] + [ps[|ps| - 1]] == ps;
    }
  }

  /** `transpose`: the motif with its flat pitches moved along the expanded scale. */
  function Transpose(ms: Motif, classes: seq<int>, step: int): (r: Motif)
    requires TransposeAll(Flatten(ms), Reify(classes), step).Some?
    ensures |r| == |ms|
  {
    ReplaceLines(ms, TransposeAll(Flatten(ms), Reify(classes), step).value.pitches)
  }

  /** A transposed motif keeps every line's shape, and its flat pitches are the moved ones. */
  lemma TransposeShape(ms: Motif, classes: seq<int>, step: int)
    requires TransposeAll(Flatten(ms), Reify(classes), step).Some?
    ensures var r := Transpose(ms, classes, step);
      |r| == |ms| && (forall l :: 0 <= l < |ms| ==> Shape(r[l]) == Shape(ms[l])) &&
      Flatten(r) == TransposeAll(Flatten(ms), Reify(classes), step).value.pitches
  {
    var ps := TransposeAll(Flatten(ms), Reify(classes), step).value.pitches;
    ReplaceLinesSpec(ms, ps);
  }

  /** Transposing by 0 steps gives the motif back, whatever its pitches and whatever the scale. */
  lemma TransposeZero(ms: Motif, classes: seq<int>)
    ensures TransposeAll(Flatten(ms), Reify(classes), 0).Some?
    ensures Transpose(ms, classes, 0) == ms
  {
    TransposeAllZero(Flatten(ms), Reify(classes));
    ReplaceFlatten(ms);
  }

  /** On a one-line motif and a step other than 0, the earlier `transpose` is motif.py's. */
  lemma TransposeOneLine(m: PitchLine, classes: seq<int>, step: int)
    requires step != 0 && Variation.MoveAll(Extract(m), Reify(classes), Some(step)).Some?
    ensures TransposeAll(Flatten([m]), Reify(classes), step).Some?
    ensures Transpose([m], classes, step) == [Variation.Transpose(m, classes, step)]
  {
    FlattenOne(m);
    TransposeAllAgrees(Extract(m), Reify(classes), step);
    var ps := Variation.MoveAll(Extract(m), Reify(classes), Some(step)).value.pitches;
    var r := Transpose([m], classes, step);
    assert r[0] == Replace(m, ps[..Size(m)]);
    assert ps[..Size(m)] == ps;
  }

  /** The pitch `step` places along the list from `p`, if `p` is on it and that place exists. */
  function Shifted(s: seq<int>, p: int, step: int): Option<int>
  {
    if p in s && 0 <= IndexOf(s, p) + step < |s| then Some(s[IndexOf(s, p) + step]) else None
  }

  /** A pitch on the list moved by index alone; a missing pitch, or step 0, keeps it. */
  function OnScaleStep(p: Option<int>, s: seq<int>, step: int): Option<int>
  {
    if p.None? || step == 0 then p else Shifted(s, p.value, step)
  }

  /**
   * Along a strictly ascending list, pitches already on it are moved by
   * index alone and leave the list as it was: no insertion, so no pitch sees
   * another's.
   */
  lemma {:induction false} TransposeAllOnScale(ps: seq<Option<int>>, s: seq<int>, step: int)
    requires StrictlyAscending(s)
    requires forall k :: 0 <= k < |ps| && ps[k].Some? ==> Shifted(s, ps[k].value, step).Some?
    ensures TransposeAll(ps, s, step).Some?
    ensures var r := TransposeAll(ps, s, step).value;
      r.scale == s && forall k :: 0 <= k < |ps| ==> r.pitches[k] == OnScaleStep(ps[k], s, step)
  {
    if ps != [] {
      var n := |ps|;
      var init := ps[..n - 1];
      assert forall k :: 0 <= k < n - 1 ==> init[k] == ps[k];
      TransposeAllOnScale(init, s, step);
      var ri := TransposeAll(init, s, step).value;
      var x := OnScaleLast(ps, s, step, ri);
      SnocSteps(ps, s, step, ri.pitches, x);
    }
  }

  /** The last step of `TransposeAllOnScale`: a pitch on the list moves by index and leaves the list alone. */
  lemma OnScaleLast(ps: seq<Option<int>>, s: seq<int>, step: int, ri: MovedAll) returns (x: Option<int>)
    requires ps != [] && TransposeAll(ps[..|ps| - 1], s, step) == Some(ri) && ri.scale == s
    requires ps[|ps| - 1].Some? ==> Shifted(s, ps[|ps| - 1].value, step).Some?
    ensures x == OnScaleStep(ps[|ps| - 1], s, step)
    ensures TransposeAll(ps, s, step) == Some(MovedAll(ri.pitches + [x], s))
  {
    x := OnScaleStep(ps[|ps| - 1], s, step);
  }

  /** The moved pitches of all but the last, followed by the last one moved, are all of them moved. */
  lemma SnocSteps(ps: seq<Option<int>>, s: seq<int>, step: int, qs: seq<Option<int>>, x: Option<int>)
    requires ps != [] && |qs| == |ps| - 1
    requires forall k :: 0 <= k < |ps| && ps[k].Some? ==> Shifted(s, ps[k].value, step).Some?
    requires forall k :: 0 <= k < |qs| ==> qs[k] == OnScaleStep(ps[..|ps| - 1][k], s, step)
    requires x == OnScaleStep(ps[|ps| - 1], s, step)
    ensures forall k :: 0 <= k < |ps| ==> (qs + [x])[k] == OnScaleStep(ps[k], s, step)
  {
    forall k | 0 <= k < |ps| ensures (qs + [x])[k] == OnScaleStep(ps[k], s, step) {
      if k < |qs| {
        assert ps[..|ps| - 1][k] == ps[k];
      }
    }
  }

  /** The chromatic scale reified: every pitch `0 .. 131`, each at its own index. */
  lemma Chromatic(classes: seq<int>)
    requires classes == [0, 1, 2, 3, 4, 5, 6, 7, 8, 9, 10, 11]
    ensures StrictlyAscending(Reify(classes)) && |Reify(classes)| == 132
    ensures forall i :: 0 <= i < 132 ==> Reify(classes)[i] == i
  {
    assert StrictlyAscending(classes);
    Variation.StrictDistinct(classes);
    ReifySpec(classes);
    SortAscending(classes);
    forall i | 0 <= i < 132 ensures Reify(classes)[i] == i {
      ReifyAt(classes, i / 12, i % 12);
    }
  }

  /** The examples of the source's tests, on `[[61, [62, 63], None]]`: by 0 steps, chromatically down one, and on C major up one. */
  lemma TransposeExamples(ms: Motif)
    requires ms == [[Note(61), Chord([Some(62), Some(63)]), Rest]]
    ensures TransposeAll(Flatten(ms), Reify([0, 4]), 0).Some? && Transpose(ms, [0, 4], 0) == ms
    ensures TransposeAll(Flatten(ms), Reify([0, 1, 2, 3, 4, 5, 6, 7, 8, 9, 10, 11]), -1).Some?
    ensures Transpose(ms, [0, 1, 2, 3, 4, 5, 6, 7, 8, 9, 10, 11], -1) == [[Note(60), Chord([Some(61), Some(62)]), Rest]]
    ensures TransposeAll(Flatten(ms), Reify([0, 2, 4, 5, 7, 9, 11]), 1).Some?
    ensures Transpose(ms, [0, 2, 4, 5, 7, 9, 11], 1) == [[Note(62), Chord([Some(64), Some(64)]), Rest]]
  {
    TransposeZero(ms, [0, 4]);
    ChromaticExample(ms, [0, 1, 2, 3, 4, 5, 6, 7, 8, 9, 10, 11]);
    MajorExample(ms, [0, 2, 4, 5, 7, 9, 11]);
  }

  /** Chromatically down one step, `[[61, [62, 63], None]]` becomes `[[60, [61, 62], None]]`. */
  lemma ChromaticExample(ms: Motif, classes: seq<int>)
    requires ms == [[Note(61), Chord([Some(62), Some(63)]), Rest]]
    requires classes == [0, 1, 2, 3, 4, 5, 6, 7, 8, 9, 10, 11]
    ensures TransposeAll(Flatten(ms), Reify(classes), -1).Some?
    ensures Transpose(ms, classes, -1) == [[Note(60), Chord([Some(61), Some(62)]), Rest]]
  {
    var ps := Flatten(ms);
    ExampleFlat(ms, 61, 62, 63);
    ChromaticMoves(ps, classes);
    var qs := TransposeAll(ps, Reify(classes), -1).value.pitches;
    var e: Motif := [[Note(60), Chord([Some(61), Some(62)]), Rest]];
    ExampleFlat(e, 60, 61, 62);
    ReplaceLinesIs(ms, qs, e);
  }

  lemma ExampleFlat(ms: Motif, a: int, b: int, c: int)
    requires ms == [[Note(a), Chord([Some(b), Some(c)]), Rest]]
    ensures Flatten(ms) == [Some(a), Some(b), Some(c), None]
  {
    FlattenOne(ms[0]);
    ExtractThree(ms[0]);
  }

  lemma ChromaticMoves(ps: seq<Option<int>>, classes: seq<int>)
    requires ps == [Some(61), Some(62), Some(63), None]
    requires classes == [0, 1, 2, 3, 4, 5, 6, 7, 8, 9, 10, 11]
    ensures TransposeAll(ps, Reify(classes), -1).Some?
    ensures TransposeAll(ps, Reify(classes), -1).value.pitches == [Some(60), Some(61), Some(62), None]
  {
    var s := Reify(classes);
    Chromatic(classes);
    forall k | 0 <= k < |ps| && ps[k].Some? ensures ps[k].value in s && IndexOf(s, ps[k].value) == ps[k].value {
      IndexOfStrict(s, ps[k].value);
    }
    TransposeAllOnScale(ps, s, -1);
  }

  /** On C major up one step, `[[61, [62, 63], None]]` becomes `[[62, [64, 64], None]]`. */
  lemma MajorExample(ms: Motif, classes: seq<int>)
    requires ms == [[Note(61), Chord([Some(62), Some(63)]), Rest]]
    requires classes == [0, 2, 4, 5, 7, 9, 11]
    ensures TransposeAll(Flatten(ms), Reify(classes), 1).Some?
    ensures Transpose(ms, classes, 1) == [[Note(62), Chord([Some(64), Some(64)]), Rest]]
  {
    var m := ms[0];
    Variation.TransposeExample(m, classes);
    TransposeOneLine(m, classes, 1);
  }
}
