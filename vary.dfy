/**
 * ch0p1n/vary.py: the earlier variations of a multi-line pitch motif.
 * `expand` is `_reify` (modelled by `Scale.Reify`). `move` expands the class
 * list it is given afresh on every call, so the pitch it inserts never
 * reaches a list another move sees; `span` moves one pitch by several steps,
 * `lead` combines the spans of all flat pitches, and `rescale` maps pitch
 * classes by the rule of motif.py's `rescale`.
 */
module Vary {
  import opened Seqs
  import opened Structure
  import opened Scale
  import opened Lines
  import opened Z
  import Variation

  // ---------------------------------------------------------------- move

  /** vary.py's `move`: the pitch moved `step` places along a fresh expansion of the classes. */
  function MoveClasses(pitch: Option<int>, classes: seq<int>, step: int): (r: Option<int>)
    requires CanMove(pitch, Reify(classes), Some(step))
    ensures r.None? <==> pitch.None? || (pitch.value !in Reify(classes) && step == 0)
  {
    Move(pitch, Reify(classes), Some(step)).pitch
  }

  /**
   * On a list of distinct pitch classes, `move` yields nothing exactly for a
   * missing pitch or an off-scale pitch with step 0, and otherwise a pitch
   * of the scale.
   */
  lemma MoveClassesOnScale(pitch: Option<int>, classes: seq<int>, step: int)
    requires Classes(classes) && Distinct(classes) && CanMove(pitch, Reify(classes), Some(step))
    ensures var r := MoveClasses(pitch, classes, step);
      (r.None? <==> pitch.None? || (pitch.value !in Reify(classes) && step == 0)) &&
      (r.Some? ==> 0 <= r.value < 132 && r.value % 12 in classes)
  {
    ReifySpec(classes);
    Variation.OneOnScale(pitch, Reify(classes), Some(step));
  }

  /** Moving a scale pitch `step` places and the result `-step` places gives the pitch back. */
  lemma MoveClassesRoundTrip(p: int, classes: seq<int>, step: int)
    requires Classes(classes) && Distinct(classes) && p in Reify(classes)
    requires CanMove(Some(p), Reify(classes), Some(step))
    ensures MoveClasses(Some(p), classes, step).Some?
    ensures var q := MoveClasses(Some(p), classes, step);
      CanMove(q, Reify(classes), Some(-step)) && MoveClasses(q, classes, -step) == Some(p)
  {
    ReifySpec(classes);
    MoveRoundTrip(Reify(classes), p, step);
  }

  // ---------------------------------------------------------------- span

  /** The steps `span` moves by: for a pitch whose class is not listed, the zero steps are dropped. */
  function SpanSteps(p: int, classes: seq<int>, steps: seq<int>): (r: seq<int>)
    ensures forall k :: k in r ==> k in steps
  {
    if p % 12 !in classes && 0 in steps then Nonzero(steps) else steps
  }

  /** Whether every move of `span` stays inside the expanded scale. */
  predicate CanSpan(pitch: Option<int>, classes: seq<int>, steps: seq<int>)
  {
    pitch.None? ||
    forall k :: k in SpanSteps(pitch.value, classes, steps) ==> CanMove(pitch, Reify(classes), Some(k))
  }

  /**
   * `span`: `[None]` for a missing pitch, nothing for no steps, and otherwise
   * one `move` per kept step, in step order. The recursive call the source
   * makes after dropping the zero steps throws its result away, so it
   * contributes nothing.
   */
  function Span(pitch: Option<int>, classes: seq<int>, steps: seq<int>): (r: seq<Option<int>>)
    requires CanSpan(pitch, classes, steps)
    ensures pitch.None? ==> r == [None]
    ensures pitch.Some? ==> |r| == |SpanSteps(pitch.value, classes, steps)|
  {
    if pitch.None? then [None]
    else if steps == [] then []
    else
      var kept := SpanSteps(pitch.value, classes, steps);
      seq(|kept|, k requires 0 <= k < |kept| => MoveClasses(pitch, classes, kept[k]))
  }

  /**
   * Inside the eleven reified octaves, where "the class is listed" and "the
   * pitch is on the expanded scale" coincide, `span` computes what motif.py's
   * `_move2` computes on the expanded scale: re-expanding for every move
   * gives the same pitches as extending one shared list.
   */
  lemma SpanAgrees(pitch: Option<int>, classes: seq<int>, steps: seq<int>)
    requires Classes(classes) && (pitch.Some? ==> 0 <= pitch.value < 132)
    requires CanSpan(pitch, classes, steps)
    ensures CanMove2(pitch, Reify(classes), Somes(steps))
    ensures Span(pitch, classes, steps) == Move2(pitch, Reify(classes), Somes(steps)).pitches
  {
    if pitch.Some? {
      var p, s := pitch.value, Reify(classes);
      ReifySpec(classes);
      assert p in s <==> p % 12 in classes;
      var kept := SpanSteps(p, classes, steps);
      assert kept == KeptZ(p, s, steps);
      SpanInRange(p, classes, steps);
      Move2ZAgrees(pitch, s, steps);
      if steps != [] {
        KeptInRange(p, s, steps);
        SpanMoves(p, classes, steps);
      }
    }
  }

  /** The steps `span` drops stay in range too, so every step does. */
  lemma SpanInRange(p: int, classes: seq<int>, steps: seq<int>)
    requires CanSpan(Some(p), classes, steps)
    ensures InRange(p, Reify(classes), Somes(steps))
  {
    var s := Reify(classes);
    var kept := SpanSteps(p, classes, steps);
    var placed := Placed(s, p);
    forall step | step in Somes(steps) && step.Some?
      ensures 0 <= IndexOf(placed, p) + step.value < |placed|
    {
      var k :| 0 <= k < |steps| && Somes(steps)[k] == step;
      if steps[k] in kept {
        assert CanMove(Some(p), s, Some(steps[k]));
      }
    }
  }

  /** Each move of `span` is the move from the pitch's place on the scale, as in `_move2`. */
  lemma SpanMoves(p: int, classes: seq<int>, steps: seq<int>)
    requires Classes(classes) && 0 <= p < 132 && steps != []
    requires CanSpan(Some(p), classes, steps)
    requires InRange(p, Reify(classes), Somes(SpanSteps(p, classes, steps)))
    ensures Span(Some(p), classes, steps) == MoveSteps(p, Reify(classes), Somes(SpanSteps(p, classes, steps))).pitches
  {
    var s := Reify(classes);
    var kept := SpanSteps(p, classes, steps);
    SpanNoZero(p, classes, steps);
    var r := Span(Some(p), classes, steps);
    var q := MoveSteps(p, s, Somes(kept)).pitches;
    forall k | 0 <= k < |kept| ensures r[k] == q[k] {
      SpanAt(p, classes, steps, k);
      MoveStepsAt(p, s, Somes(kept), k);
    }
  }

  /** Off the scale, `span` keeps no zero step. */
  lemma SpanNoZero(p: int, classes: seq<int>, steps: seq<int>)
    requires Classes(classes) && 0 <= p < 132
    ensures p !in Reify(classes) ==> Some(0) !in Somes(SpanSteps(p, classes, steps))
  {
    var kept := SpanSteps(p, classes, steps);
    ReifySpec(classes);
    if p !in Reify(classes) {
      forall k | 0 <= k < |kept| ensures Somes(kept)[k] != Some(0) {
        assert kept[k] in kept;
      }
    }
  }

  /** Move `k` of `span` reaches the target of its step from the pitch's place on the scale. */
  lemma SpanAt(p: int, classes: seq<int>, steps: seq<int>, k: nat)
    requires Classes(classes) && 0 <= p < 132 && steps != []
    requires CanSpan(Some(p), classes, steps) && k < |SpanSteps(p, classes, steps)|
    ensures var s, step := Reify(classes), SpanSteps(p, classes, steps)[k];
      p in Placed(s, p) && 0 <= IndexOf(Placed(s, p), p) + step < |Placed(s, p)| &&
      Span(Some(p), classes, steps)[k] == Target(Placed(s, p), p, Some(step))
  {
    var s, step := Reify(classes), SpanSteps(p, classes, steps)[k];
    assert step in SpanSteps(p, classes, steps);
    ReifySpec(classes);
    assert Span(Some(p), classes, steps)[k] == Move(Some(p), s, Some(step)).pitch;
    MoveLast(p, s, s, Some(step));
  }

  // ---------------------------------------------------------------- lead

  /** Whether every flat pitch of the motif can be spanned. */
  predicate CanLead(ms: Motif, classes: seq<int>, steps: seq<int>)
  {
    forall k :: 0 <= k < Count(ms) ==> CanSpan(Flatten(ms)[k], classes, steps)
  }

  /** The span of every flat pitch, in order. */
  function Spans(ms: Motif, classes: seq<int>, steps: seq<int>): (r: seq<seq<Option<int>>>)
    requires CanLead(ms, classes, steps)
    ensures |r| == Count(ms)
  {
    var ps := Flatten(ms);
    seq(|ps|, k requires 0 <= k < |ps| => Span(ps[k], classes, steps))
  }

  /** vary.py's `lead`: every combination of one spanned pitch per flat pitch, poured back into the motif. */
  function Lead(ms: Motif, classes: seq<int>, steps: seq<int>): (r: seq<Motif>)
    requires CanLead(ms, classes, steps)
    ensures forall k :: 0 <= k < |r| ==> |r[k]| == |ms|
  {
    var lists := Spans(ms, classes, steps);
    var groups := Product(lists);
    assert forall g :: g in groups ==> |g| == Count(ms) by {
      forall g | g in groups ensures |g| == Count(ms) {
        ProductMembers(lists, g);
      }
    }
    seq(|groups|, k requires 0 <= k < |groups| => ReplaceLines(ms, groups[k]))
  }

  /**
   * Every motif `lead` returns is the input motif refilled with one choice of
   * a spanned pitch per flat pitch: its lines keep their shapes and its flat
   * pitches are that choice.
   */
  lemma LeadSpec(ms: Motif, classes: seq<int>, steps: seq<int>, k: nat)
    requires CanLead(ms, classes, steps) && k < |Lead(ms, classes, steps)|
    ensures var r := Lead(ms, classes, steps)[k];
      |r| == |ms| && (forall l :: 0 <= l < |ms| ==> Shape(r[l]) == Shape(ms[l])) &&
      Choice(Spans(ms, classes, steps), Flatten(r))
  {
    var lists := Spans(ms, classes, steps);
    var g := Product(lists)[k];
    assert g in Product(lists);
    ProductMembers(lists, g);
    ReplaceLinesSpec(ms, g);
  }

  /** Every choice of one spanned pitch per flat pitch gives one of the motifs `lead` returns. */
  lemma LeadMembers(ms: Motif, classes: seq<int>, steps: seq<int>, g: seq<Option<int>>)
    requires CanLead(ms, classes, steps) && Choice(Spans(ms, classes, steps), g)
    ensures |g| == Count(ms) && ReplaceLines(ms, g) in Lead(ms, classes, steps)
  {
    var lists := Spans(ms, classes, steps);
    ProductMembers(lists, g);
    var k :| 0 <= k < |Product(lists)| && Product(lists)[k] == g;
    assert Lead(ms, classes, steps)[k] == ReplaceLines(ms, g);
  }

  /** `lead` returns one motif per combination: the product of the span lengths, with no filter. */
  lemma LeadCount(ms: Motif, classes: seq<int>, steps: seq<int>)
    requires CanLead(ms, classes, steps)
    ensures |Lead(ms, classes, steps)| == Combinations(Spans(ms, classes, steps))
  {
    ProductLength(Spans(ms, classes, steps));
  }

  // ---------------------------------------------------------------- rescale

  /** vary.py's `rescale`: the motif's flat pitches remapped one by one, then poured back into it. */
  method Rescale(ms: Motif, mapping: map<int, int>) returns (r: Motif)
    ensures |r| == |ms| && forall l :: 0 <= l < |ms| ==> Shape(r[l]) == Shape(ms[l])
    ensures Flatten(r) == Variation.RemapAll(Flatten(ms), mapping)
  {
    var pitches := Flatten(ms);
    ghost var before := pitches;
    for i := 0 to |pitches|
      invariant |pitches| == |before|
      invariant forall k :: 0 <= k < i ==> pitches[k] == Variation.Remap(before[k], mapping)
      invariant forall k :: i <= k < |pitches| ==> pitches[k] == before[k]
    {
      if pitches[i].None? {
        continue;
      }
      var octave := pitches[i].value / 12;
      var pc := pitches[i].value % 12;
      if pc !in mapping {
        continue;
      }
      var to := mapping[pc];
      var d := to - pc;
      if d >= 6 {
        to := to - 12;
      } else if d <= -6 {
        to := to + 12;
      }
      pitches := pitches[i := Some(to + octave * 12)];
    }
    r := ReplaceLines(ms, pitches);
    ReplaceLinesSpec(ms, pitches);
  }

  /**
   * The example of the source's tests: `[[60], [[59, 61], None]]` under
   * `{0: 11, 11: 0, 1: 10}` can only become `[[59], [[60, 58], None]]`.
   */
  lemma RescaleExample(ms: Motif, mapping: map<int, int>, r: Motif)
    requires ms == [[Note(60)], [Chord([Some(59), Some(61)]), Rest]]
    requires mapping == map[0 := 11, 11 := 0, 1 := 10]
    requires |r| == |ms| && forall l :: 0 <= l < |ms| ==> Shape(r[l]) == Shape(ms[l])
    requires Flatten(r) == Variation.RemapAll(Flatten(ms), mapping)
    ensures r == [[Note(59)], [Chord([Some(60), Some(58)]), Rest]]
  {
    var e: Motif := [[Note(59)], [Chord([Some(60), Some(58)]), Rest]];
    ExampleFlat(ms, 60, 59, 61);
    ExampleFlat(e, 59, 60, 58);
    Variation.ExampleRemap(Flatten(ms), mapping);
    ExampleShapes(ms, e, 60, 59, 61, 59, 60, 58);
    ShapesAgree(ms, r, e);
  }

  /** The flat pitches of a motif shaped like the example: one single item, then a pair and a rest. */
  lemma ExampleFlat(ms: Motif, a: int, b: int, c: int)
    requires ms == [[Note(a)], [Chord([Some(b), Some(c)]), Rest]]
    ensures Flatten(ms) == [Some(a), Some(b), Some(c), None]
  {
    FlattenTwo(ms);
    ExtractTwo(ms[1]);
    FlattenOne(ms[0]);
    assert Flat(ms[1][0]) == [Some(b), Some(c)];
  }

  /** Two motifs shaped like the example have the same line shapes. */
  lemma ExampleShapes(ms: Motif, e: Motif, a: int, b: int, c: int, x: int, y: int, z: int)
    requires ms == [[Note(a)], [Chord([Some(b), Some(c)]), Rest]]
    requires e == [[Note(x)], [Chord([Some(y), Some(z)]), Rest]]
    ensures |e| == |ms| && forall l :: 0 <= l < |ms| ==> Shape(e[l]) == Shape(ms[l])
  {
    assert Shape(e[0]) == Shape(ms[0]);
    assert Shape(e[1]) == Shape(ms[1]);
  }
}
