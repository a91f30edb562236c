/**
 * Repeating a pitch motif in varied form (ch0p1n/motif.py): `rescale` maps
 * pitch classes onto new ones, `transpose` moves every pitch along a scale,
 * and `lead` offers every combination of neighbouring pitches in a harmony.
 */
module Variation {
  import opened Seqs
  import opened Structure
  import opened Scale
  import opened Checks

  // ---------------------------------------------------------------- rescale

  /**
   * `rescale` on one flat pitch: a pitch whose class is a key of the mapping
   * goes to the mapped class in its own octave, shifted an octave down or up
   * when the class moved by six or more semitones; `None` and unmapped pitches
   * stay as they are.
   */
  function Remap(x: Option<int>, mapping: map<int, int>): (r: Option<int>)
    ensures r.None? <==> x.None?
    ensures x.Some? && x.value % 12 in mapping ==> r.value % 12 == mapping[x.value % 12] % 12
  {
    if x.None? || x.value % 12 !in mapping then x
    else
      var pc := x.value % 12;
      var to := mapping[pc];
      var d := to - pc;
      var t := if d >= 6 then to - 12 else if d <= -6 then to + 12 else to;
      Some(t + x.value / 12 * 12)
  }

  function Abs(x: int): nat
  {
    if x < 0 then -x else x
  }

  /** A rest and a pitch whose class is not a key are left alone. */
  lemma RemapKeeps(x: Option<int>, mapping: map<int, int>)
    requires x.None? || x.value % 12 !in mapping
    ensures Remap(x, mapping) == x
  {
  }

  /**
   * A mapped pitch lands on the mapped class, at most six semitones away, and
   * no pitch of that class is nearer to it.
   */
  lemma RemapNearest(p: int, mapping: map<int, int>)
    requires p % 12 in mapping && 0 <= mapping[p % 12] < 12
    ensures Remap(Some(p), mapping).Some?
    ensures var r := Remap(Some(p), mapping).value;
      r % 12 == mapping[p % 12] && Abs(r - p) <= 6 &&
      forall q :: q % 12 == mapping[p % 12] ==> Abs(r - p) <= Abs(q - p)
  {
    var pc := p % 12;
    var to, o := mapping[pc], p / 12;
    var j := if to - pc >= 6 then o - 1 else if to - pc <= -6 then o + 1 else o;
    var r := to + 12 * j;
    assert Remap(Some(p), mapping) == Some(r);
    assert r % 12 == to && p == 12 * o + pc;
    assert Abs(r - p) <= 6;
    forall q | q % 12 == to ensures Abs(r - p) <= Abs(q - p) {
      var k := q / 12 - j;
      assert q - p == k * 12 + (r - p);
      OctaveFarther(r - p, k);
    }
  }

  /** A distance of at most six semitones grows by moving any whole number of octaves. */
  lemma OctaveFarther(t: int, k: int)
    requires Abs(t) <= 6
    ensures Abs(t) <= Abs(k * 12 + t)
  {
    if k > 0 {
      assert k * 12 >= 12;
    } else if k < 0 {
      assert k * 12 <= -12;
    }
  }

  /** Every flat pitch remapped (what the loop of `rescale` leaves in its list). */
  function RemapAll(ps: seq<Option<int>>, mapping: map<int, int>): (r: seq<Option<int>>)
    ensures |r| == |ps|
  {
    seq(|ps|, k requires 0 <= k < |ps| => Remap(ps[k], mapping))
  }

  /** `rescale`: the motif's flat pitches remapped one by one, then poured back into it. */
  method Rescale(m: PitchLine, mapping: map<int, int>) returns (r: PitchLine)
    ensures Shape(r) == Shape(m)
    ensures |Extract(r)| == Size(m) &&
      forall k :: 0 <= k < Size(m) ==> Extract(r)[k] == Remap(Extract(m)[k], mapping)
  {
    var pitches := Extract(m);
    ghost var before := pitches;
    for i := 0 to |pitches|
      invariant |pitches| == |before|
      invariant forall k :: 0 <= k < i ==> pitches[k] == Remap(before[k], mapping)
      invariant forall k :: i <= k < |pitches| ==> pitches[k] == before[k]
    {
      if pitches[i].None? {
        continue;
      }
      var pitch := pitches[i].value;
      var octave := pitch / 12;
      var pc := pitch % 12;
      if pc !in mapping {
        continue;
      }
      var to := mapping[pc];
      var d := to - pc;
      if d >= 6 {
        to := to - 12;
      } else if d <= -6 {
        to := to + 12;
      }
      pitches := pitches[i := Some(to + octave * 12)];
    }
    r := Replace(m, pitches);
    ReplaceShape(m, pitches);
    ExtractReplace(m, pitches);
    assert pitches[..Size(m)] == pitches;
  }

  /** The example of the source's tests: `[60, [59, 61], None]` under `{0: 11, 11: 0, 1: 10}` becomes `[59, [60, 58], None]`. */
  lemma RescaleExample(m: PitchLine, mapping: map<int, int>)
    requires m == [Note(60), Chord([Some(59), Some(61)]), Rest]
    requires mapping == map[0 := 11, 11 := 0, 1 := 10]
    ensures Replace(m, RemapAll(Extract(m), mapping)) == [Note(59), Chord([Some(60), Some(58)]), Rest]
  {
    var e := [Note(59), Chord([Some(60), Some(58)]), Rest];
    ExampleLine(m, 60, 59, 61);
    ExampleLine(e, 59, 60, 58);
    ExampleRemap(Extract(m), mapping);
    assert Shape(e) == Shape(m);
    ReplaceIs(m, RemapAll(Extract(m), mapping), e);
  }

  /** The flat pitches of the example remapped: 60 to 59, 59 to 60 and 61 to 58. */
  lemma ExampleRemap(ps: seq<Option<int>>, mapping: map<int, int>)
    requires ps == [Some(60), Some(59), Some(61), None]
    requires mapping == map[0 := 11, 11 := 0, 1 := 10]
    ensures RemapAll(ps, mapping) == [Some(59), Some(60), Some(58), None]
  {
    var qs := RemapAll(ps, mapping);
    assert qs[0] == Some(59);
    assert qs[1] == Some(60);
    assert qs[2] == Some(58);
  }

  /** The flat pitches of a line shaped like the example: a single item, a pair and a rest. */
  lemma ExampleLine(m: PitchLine, a: int, b: int, c: int)
    requires m == [Note(a), Chord([Some(b), Some(c)]), Rest]
    ensures Extract(m) == [Some(a), Some(b), Some(c), None]
  {
    ExtractThree(m);
    assert Flat(m[1]) == [Some(b), Some(c)];
  }

  // ---------------------------------------------------------------- transpose

  /**
   * The comprehension of `transpose`: each flat pitch in turn moved by `step`
   * along one shared list, which every off-scale pitch moved extends; `None`
   * once a move would run off the end of the list.
   */
  function MoveAll(ps: seq<Option<int>>, scale: seq<int>, step: Option<int>): (r: Option<MovedAll>)
    ensures r.Some? ==> |r.value.pitches| == |ps|
  {
    if ps == [] then Some(MovedAll([], scale))
    else
      var init := MoveAll(ps[..|ps| - 1], scale, step);
      var p := ps[|ps| - 1];
      if init.None? || !CanMove(p, init.value.scale, step) then None
      else
        var last := Move(p, init.value.scale, step);
        Some(MovedAll(init.value.pitches + [last.pitch], last.scale))
  }

  /** `transpose`: the motif with its flat pitches moved along the reified scale. */
  function Transpose(m: PitchLine, classes: seq<int>, step: int): (r: PitchLine)
    requires MoveAll(Extract(m), Reify(classes), Some(step)).Some?
    ensures Shape(r) == Shape(m)
  {
    ReplaceShape(m, MoveAll(Extract(m), Reify(classes), Some(step)).value.pitches);
    Replace(m, MoveAll(Extract(m), Reify(classes), Some(step)).value.pitches)
  }

  /** A transposed motif has the motif's shape, and its flat pitches are the moved ones. */
  lemma TransposeShape(m: PitchLine, classes: seq<int>, step: int)
    requires MoveAll(Extract(m), Reify(classes), Some(step)).Some?
    ensures Shape(Transpose(m, classes, step)) == Shape(m)
    ensures Extract(Transpose(m, classes, step)) == MoveAll(Extract(m), Reify(classes), Some(step)).value.pitches
  {
    var ps := MoveAll(Extract(m), Reify(classes), Some(step)).value.pitches;
    ReplaceShape(m, ps);
    ExtractReplace(m, ps);
    assert ps[..Size(m)] == ps;
  }

  /**
   * Moving by 0 never leaves the list and never changes it: an on-scale pitch
   * stays, and a rest or an off-scale pitch becomes `None`.
   */
  lemma {:induction false} MoveAllZero(ps: seq<Option<int>>, scale: seq<int>)
    ensures MoveAll(ps, scale, Some(0)).Some?
    ensures var r := MoveAll(ps, scale, Some(0)).value;
      r.scale == scale &&
      forall k :: 0 <= k < |ps| ==> r.pitches[k] == if ps[k].Some? && ps[k].value in scale then ps[k] else None
  {
    if ps != [] {
      var n := |ps|;
      var init := ps[..n - 1];
      MoveAllZero(init, scale);
      var ri := MoveAll(init, scale, Some(0)).value;
      var r := MoveAll(ps, scale, Some(0)).value;
      assert r.pitches[..n - 1] == ri.pitches;
      forall k | 0 <= k < n
        ensures r.pitches[k] == if ps[k].Some? && ps[k].value in scale then ps[k] else None
      {
        if k < n - 1 {
          assert ps[k] == init[k] && r.pitches[k] == ri.pitches[k];
        }
      }
    }
  }

  /** One move on a strictly ascending list keeps it strictly ascending and adds at most the moved pitch. */
  lemma MoveGrows(p: Option<int>, cur: seq<int>, step: Option<int>)
    requires StrictlyAscending(cur) && CanMove(p, cur, step)
    ensures var last := Move(p, cur, step);
      StrictlyAscending(last.scale) &&
      (forall x :: x in last.scale <==> x in cur || (last.pitch.Some? && x == p.value)) &&
      (last.pitch.Some? ==> p.Some? && p.value in last.scale && last.pitch.value in last.scale)
  {
    var last := Move(p, cur, step);
    MoveSpec(p, cur, step);
    if last.pitch.Some? {
      PlacedSpec(cur, p.value);
      if p.value !in cur {
        PlacedInsert(cur, p.value);
        InsertStrict(cur, p.value);
      }
    }
  }

  /**
   * After `transpose` the shared list is still strictly ascending; it keeps
   * every pitch it had and holds nothing that was neither on it nor in the motif.
   */
  lemma {:induction false} MoveAllScale(ps: seq<Option<int>>, scale: seq<int>, step: Option<int>)
    requires StrictlyAscending(scale) && MoveAll(ps, scale, step).Some?
    ensures var r := MoveAll(ps, scale, step).value;
      StrictlyAscending(r.scale) &&
      (forall x :: x in scale ==> x in r.scale) &&
      (forall x :: x in r.scale ==> x in scale || Some(x) in ps)
  {
    if ps != [] {
      var n := |ps|;
      var init, p := ps[..n - 1], ps[n - 1];
      MoveAllSnoc(ps, scale, step);
      var ri := MoveAll(init, scale, step).value;
      var r := MoveAll(ps, scale, step).value;
      MoveAllScale(init, scale, step);
      MoveGrows(p, ri.scale, step);
      forall x | x in r.scale ensures x in scale || Some(x) in ps {
        if x in ri.scale {
          assert Some(x) in init ==> Some(x) in ps;
        } else {
          assert Some(x) == p;
        }
      }
    }
  }

  /** After `transpose` the shared list holds every moved pitch and its target. */
  lemma {:induction false} MoveAllHolds(ps: seq<Option<int>>, scale: seq<int>, step: Option<int>, k: nat)
    requires StrictlyAscending(scale) && MoveAll(ps, scale, step).Some?
    requires k < |ps| && ps[k].Some? && MoveAll(ps, scale, step).value.pitches[k].Some?
    ensures var r := MoveAll(ps, scale, step).value;
      ps[k].value in r.scale && r.pitches[k].value in r.scale
    decreases |ps|, 1
  {
    if k < |ps| - 1 {
      MoveAllHoldsInit(ps, scale, step, k);
    } else {
      MoveAllHoldsLast(ps, scale, step);
    }
  }

  /** The last pitch moved and its target are on the list the run leaves. */
  lemma MoveAllHoldsLast(ps: seq<Option<int>>, scale: seq<int>, step: Option<int>)
    requires StrictlyAscending(scale) && ps != [] && MoveAll(ps, scale, step).Some?
    requires ps[|ps| - 1].Some? && MoveAll(ps, scale, step).value.pitches[|ps| - 1].Some?
    ensures var r := MoveAll(ps, scale, step).value;
      ps[|ps| - 1].value in r.scale && r.pitches[|ps| - 1].value in r.scale
  {
    var n := |ps|;
    MoveAllSnoc(ps, scale, step);
    var ri := MoveAll(ps[..n - 1], scale, step).value;
    assert StrictlyAscending(ri.scale) by {
      MoveAllScale(ps[..n - 1], scale, step);
    }
    MoveGrows(ps[n - 1], ri.scale, step);
  }

  /** An earlier pitch and its target, on the list before the last move, stay on it. */
  lemma {:induction false} MoveAllHoldsInit(ps: seq<Option<int>>, scale: seq<int>, step: Option<int>, k: nat)
    requires StrictlyAscending(scale) && MoveAll(ps, scale, step).Some?
    requires k < |ps| - 1 && ps[k].Some? && MoveAll(ps, scale, step).value.pitches[k].Some?
    ensures var r := MoveAll(ps, scale, step).value;
      ps[k].value in r.scale && r.pitches[k].value in r.scale
    decreases |ps|, 0
  {
    var n := |ps|;
    var init, p := ps[..n - 1], ps[n - 1];
    MoveAllSnoc(ps, scale, step);
    var ri := MoveAll(init, scale, step).value;
    var r := MoveAll(ps, scale, step).value;
    assert StrictlyAscending(ri.scale) by {
      MoveAllScale(init, scale, step);
    }
    SnocAt(ri.pitches, r.pitches, k);
    assert ps[k] == init[k];
    MoveAllHolds(init, scale, step, k);
    MoveKeeps(p, ri.scale, step, ps[k].value);
    MoveKeeps(p, ri.scale, step, ri.pitches[k].value);
  }

  /** A move keeps every entry of the list it moves along. */
  lemma MoveKeeps(p: Option<int>, cur: seq<int>, step: Option<int>, x: int)
    requires StrictlyAscending(cur) && CanMove(p, cur, step) && x in cur
    ensures x in Move(p, cur, step).scale
  {
    MoveGrows(p, cur, step);
  }

  /** A run of moves that succeeds is the run on all but the last pitch, then the move of the last pitch along the list it left. */
  lemma MoveAllSnoc(ps: seq<Option<int>>, scale: seq<int>, step: Option<int>)
    requires ps != [] && MoveAll(ps, scale, step).Some?
    ensures var n := |ps|;
      var init := MoveAll(ps[..n - 1], scale, step);
      init.Some? && CanMove(ps[n - 1], init.value.scale, step) &&
      var last := Move(ps[n - 1], init.value.scale, step);
      var r := MoveAll(ps, scale, step).value;
      r.pitches[..n - 1] == init.value.pitches && r.pitches[n - 1] == last.pitch && r.scale == last.scale
  {
    var n := |ps|;
    var ri := MoveAll(ps[..n - 1], scale, step).value;
    var r := MoveAll(ps, scale, step).value;
    assert r.pitches == ri.pitches + [Move(ps[n - 1], ri.scale, step).pitch];
  }

  /** A pitch strictly between two neighbouring entries of a strictly ascending list is not on it, and would be inserted between them. */
  lemma Between(s: seq<int>, c: nat, x: int)
    requires StrictlyAscending(s) && 0 < c < |s| && s[c - 1] < x < s[c]
    ensures x !in s && InsertionPoint(s, x) == c
  {
    forall j | 0 <= j < |s| ensures s[j] != x {
      if j < c {
        assert s[j] <= s[c - 1];
      } else {
        assert s[c] <= s[j];
      }
    }
    forall k | 0 <= k < c ensures s[k] < x {
      assert s[k] <= s[c - 1];
    }
    InsertionPointUnique(s, x, c);
  }

  /** An off-scale pitch moved up one step reaches the next entry above it, and is inserted. */
  lemma StepUpOff(s: seq<int>, c: nat, x: int)
    requires StrictlyAscending(s) && 0 < c < |s| && s[c - 1] < x < s[c]
    ensures CanMove(Some(x), s, Some(1))
    ensures Move(Some(x), s, Some(1)) == Moved(Some(s[c]), Insert(s, x))
  {
    Between(s, c, x);
    MoveOffScale(s, x, 1);
  }

  /** The list with `x` inserted between two neighbouring entries: still strictly ascending, `x` at index `c`, the rest shifted up. */
  lemma InsertBetween(s: seq<int>, c: nat, x: int)
    requires StrictlyAscending(s) && 0 < c < |s| && s[c - 1] < x < s[c]
    ensures StrictlyAscending(Insert(s, x)) && |Insert(s, x)| == |s| + 1
    ensures forall k :: 0 <= k < c ==> Insert(s, x)[k] == s[k]
    ensures Insert(s, x)[c] == x
    ensures forall k :: c < k <= |s| ==> Insert(s, x)[k] == s[k - 1]
  {
    Between(s, c, x);
    InsertStrict(s, x);
  }

  /** One more pitch adds its move, along the list the earlier moves have left. */
  lemma MoveAllStep(ps: seq<Option<int>>, scale: seq<int>, step: Option<int>, init: MovedAll, q: Option<int>, after: seq<int>)
    requires ps != [] && MoveAll(ps[..|ps| - 1], scale, step) == Some(init)
    requires CanMove(ps[|ps| - 1], init.scale, step) && Move(ps[|ps| - 1], init.scale, step) == Moved(q, after)
    ensures MoveAll(ps, scale, step) == Some(MovedAll(init.pitches + [q], after))
  {
  }

  /** The first two moves of the run below: 61 lands on 62 and stays on the list, 62 steps over it to 64. */
  lemma RunTwo(s: seq<int>, c: nat)
    requires StrictlyAscending(s) && 0 < c && c + 1 < |s|
    requires s[c - 1] == 60 && s[c] == 62 && s[c + 1] == 64
    ensures MoveAll([Some(61), Some(62)], s, Some(1)) == Some(MovedAll([Some(62), Some(64)], Insert(s, 61)))
  {
    var p1: seq<Option<int>> := [Some(61)];
    var p2: seq<Option<int>> := [Some(61), Some(62)];
    assert p1[..0] == [] && p2[..1] == p1;
    assert [] + [Some(62)] == [Some(62)] && [Some(62)] + [Some(64)] == [Some(62), Some(64)];
    var s1 := Insert(s, 61);
    assert CanMove(Some(61), s, Some(1)) && Move(Some(61), s, Some(1)) == Moved(Some(62), s1) by {
      StepUpOff(s, c, 61);
    }
    assert MoveAll(p1, s, Some(1)) == Some(MovedAll([Some(62)], s1)) by {
      MoveAllStep(p1, s, Some(1), MovedAll([], s), Some(62), s1);
    }
    assert StrictlyAscending(s1) && s1[c + 1] == 62 && s1[c + 2] == 64 && c + 2 < |s1| by {
      InsertBetween(s, c, 61);
    }
    assert CanMove(Some(62), s1, Some(1)) && Move(Some(62), s1, Some(1)) == Moved(Some(64), s1) by {
      MoveOnScale(s1, c + 1, 1);
    }
    MoveAllStep(p2, s, Some(1), MovedAll([Some(62)], s1), Some(64), s1);
  }

  /**
   * Around three consecutive scale entries 60, 62 and 64, `transpose` by one
   * step moves 61, 62, 63 and a rest to 62, 64, 64 and a rest: the 61 lands on
   * 62, the 62 steps over the inserted 61 to 64, and the 63 reaches 64.
   */
  lemma MoveAllRun(s: seq<int>, c: nat)
    requires StrictlyAscending(s) && 0 < c && c + 1 < |s|
    requires s[c - 1] == 60 && s[c] == 62 && s[c + 1] == 64
    ensures MoveAll([Some(61), Some(62), Some(63), None], s, Some(1)).Some?
    ensures MoveAll([Some(61), Some(62), Some(63), None], s, Some(1)).value.pitches == [Some(62), Some(64), Some(64), None]
  {
    var p2: seq<Option<int>> := [Some(61), Some(62)];
    var p3: seq<Option<int>> := [Some(61), Some(62), Some(63)];
    var p4: seq<Option<int>> := [Some(61), Some(62), Some(63), None];
    assert p3[..2] == p2 && p4[..3] == p3;
    assert [Some(62), Some(64)] + [Some(64)] == [Some(62), Some(64), Some(64)];
    assert [Some(62), Some(64), Some(64)] + [None] == [Some(62), Some(64), Some(64), None];
    var s1 := Insert(s, 61);
    RunTwo(s, c);
    assert StrictlyAscending(s1) && s1[c + 1] == 62 && s1[c + 2] == 64 && c + 2 < |s1| by {
      InsertBetween(s, c, 61);
    }
    var s2 := Insert(s1, 63);
    assert CanMove(Some(63), s1, Some(1)) && Move(Some(63), s1, Some(1)) == Moved(Some(64), s2) by {
      StepUpOff(s1, c + 2, 63);
    }
    assert MoveAll(p3, s, Some(1)) == Some(MovedAll([Some(62), Some(64), Some(64)], s2)) by {
      MoveAllStep(p3, s, Some(1), MovedAll([Some(62), Some(64)], s1), Some(64), s2);
    }
    assert CanMove(None, s2, Some(1)) && Move(None, s2, Some(1)) == Moved(None, s2);
    MoveAllStep(p4, s, Some(1), MovedAll([Some(62), Some(64), Some(64)], s2), None, s2);
  }

  /** C major, `[0, 2, 4, 5, 7, 9, 11]`: its classes are ordered and distinct, and its fifth octave starts 60, 62, 64. */
  lemma CMajor(classes: seq<int>)
    requires classes == [0, 2, 4, 5, 7, 9, 11]
    ensures StrictlyAscending(Reify(classes)) && |Reify(classes)| == 77
    ensures Reify(classes)[34] == 59 && Reify(classes)[35] == 60 && Reify(classes)[36] == 62 && Reify(classes)[37] == 64
  {
    assert StrictlyAscending(classes);
    StrictDistinct(classes);
    ReifySpec(classes);
    SortAscending(classes);
    ReifyAt(classes, 4, 6);
    ReifyAt(classes, 5, 0);
    ReifyAt(classes, 5, 1);
    ReifyAt(classes, 5, 2);
  }

  /** A strictly ascending list has no repeated entries. */
  lemma {:induction false} StrictDistinct(cs: seq<int>)
    requires StrictlyAscending(cs)
    ensures Distinct(cs)
  {
    if cs != [] {
      var rest := cs[1..];
      assert StrictlyAscending(rest);
      StrictDistinct(rest);
      assert cs == [cs[0]] + rest;
      assert cs[0] !in rest;
    }
  }

  /** A motif whose moved flat pitches are known transposes to the motif of its shape that holds them. */
  lemma TransposeIs(m: PitchLine, classes: seq<int>, step: int, ps: seq<Option<int>>, e: PitchLine)
    requires MoveAll(Extract(m), Reify(classes), Some(step)).Some?
    requires MoveAll(Extract(m), Reify(classes), Some(step)).value.pitches == ps
    requires Shape(e) == Shape(m) && Extract(e) == ps
    ensures Transpose(m, classes, step) == e
  {
    ReplaceIs(m, ps, e);
  }

  /** On C major, the flat pitches 61, 62, 63 and a rest up one step are 62, 64, 64 and a rest. */
  lemma ExampleMoves(m: PitchLine, classes: seq<int>)
    requires m == [Note(61), Chord([Some(62), Some(63)]), Rest]
    requires classes == [0, 2, 4, 5, 7, 9, 11]
    ensures MoveAll(Extract(m), Reify(classes), Some(1)).Some?
    ensures MoveAll(Extract(m), Reify(classes), Some(1)).value.pitches == [Some(62), Some(64), Some(64), None]
  {
    assert Extract(m) == [Some(61), Some(62), Some(63), None] by {
      ExtractThree(m);
    }
    CMajor(classes);
    MoveAllRun(Reify(classes), 36);
  }

  /** The example of the source's tests: on C major, `[61, [62, 63], None]` up one step is `[62, [64, 64], None]`. */
  lemma TransposeExample(m: PitchLine, classes: seq<int>)
    requires m == [Note(61), Chord([Some(62), Some(63)]), Rest]
    requires classes == [0, 2, 4, 5, 7, 9, 11]
    ensures MoveAll(Extract(m), Reify(classes), Some(1)).Some?
    ensures Transpose(m, classes, 1) == [Note(62), Chord([Some(64), Some(64)]), Rest]
  {
    ExampleMoves(m, classes);
    var e := [Note(62), Chord([Some(64), Some(64)]), Rest];
    ExtractThree(e);
    TransposeIs(m, classes, 1, [Some(62), Some(64), Some(64), None], e);
  }

  /** On `[0, 4]`, the flat pitches 61, 62, 63 and a rest by 0 steps all become rests. */
  lemma ZeroMoves(m: PitchLine, classes: seq<int>)
    requires m == [Note(61), Chord([Some(62), Some(63)]), Rest]
    requires classes == [0, 4]
    ensures MoveAll(Extract(m), Reify(classes), Some(0)).Some?
    ensures MoveAll(Extract(m), Reify(classes), Some(0)).value.pitches == [None, None, None, None]
  {
    var xs: seq<Option<int>> := [Some(61), Some(62), Some(63), None];
    assert Extract(m) == xs by {
      ExtractThree(m);
    }
    var s := Reify(classes);
    ZeroOff(classes);
    MoveAllZero(xs, s);
    ZeroNone(xs, s, MoveAll(xs, s, Some(0)).value.pitches);
  }

  /** Kept only where on the list, none of 61, 62, 63 and a rest is kept. */
  lemma ZeroNone(xs: seq<Option<int>>, s: seq<int>, ps: seq<Option<int>>)
    requires xs == [Some(61), Some(62), Some(63), None] && 61 !in s && 62 !in s && 63 !in s
    requires |ps| == 4 && forall k :: 0 <= k < 4 ==> ps[k] == if xs[k].Some? && xs[k].value in s then xs[k] else None
    ensures ps == [None, None, None, None]
  {
    assert ps[0] == None && ps[1] == None && ps[2] == None && ps[3] == None;
  }

  /** 61, 62 and 63 are not pitches of the classes `[0, 4]`. */
  lemma ZeroOff(classes: seq<int>)
    requires classes == [0, 4]
    ensures 61 !in Reify(classes) && 62 !in Reify(classes) && 63 !in Reify(classes)
  {
    ReifySpec(classes);
  }

  /** The example of the source's tests: on `[0, 4]`, `[61, [62, 63], None]` by 0 steps is all rests. */
  lemma TransposeZeroExample(m: PitchLine, classes: seq<int>)
    requires m == [Note(61), Chord([Some(62), Some(63)]), Rest]
    requires classes == [0, 4]
    ensures MoveAll(Extract(m), Reify(classes), Some(0)).Some?
    ensures Transpose(m, classes, 0) == [Rest, Chord([None, None]), Rest]
  {
    ZeroMoves(m, classes);
    var e := [Rest, Chord([None, None]), Rest];
    ExtractThree(e);
    TransposeIs(m, classes, 0, [None, None, None, None], e);
  }

  /** Below an entry 62 whose neighbour is 60, 61 then 60 up one step give 62 then the inserted 61. */
  lemma LeakMoves(s: seq<int>, c: nat)
    requires StrictlyAscending(s) && 0 < c < |s| && s[c - 1] == 60 && s[c] == 62
    ensures MoveAll([Some(61), Some(60)], s, Some(1)) == Some(MovedAll([Some(62), Some(61)], Insert(s, 61)))
  {
    var p1: seq<Option<int>> := [Some(61)];
    var p2: seq<Option<int>> := [Some(61), Some(60)];
    assert p1[..0] == [] && p2[..1] == p1;
    assert [] + [Some(62)] == [Some(62)] && [Some(62)] + [Some(61)] == [Some(62), Some(61)];
    var s1 := Insert(s, 61);
    assert CanMove(Some(61), s, Some(1)) && Move(Some(61), s, Some(1)) == Moved(Some(62), s1) by {
      StepUpOff(s, c, 61);
    }
    assert MoveAll(p1, s, Some(1)) == Some(MovedAll([Some(62)], s1)) by {
      MoveAllStep(p1, s, Some(1), MovedAll([], s), Some(62), s1);
    }
    assert s1[c - 1] == 60 && s1[c] == 61 && StrictlyAscending(s1) by {
      InsertBetween(s, c, 61);
    }
    assert CanMove(Some(60), s1, Some(1)) && Move(Some(60), s1, Some(1)) == Moved(Some(61), s1) by {
      MoveOnScale(s1, c - 1, 1);
    }
    MoveAllStep(p2, s, Some(1), MovedAll([Some(62)], s1), Some(61), s1);
  }

  /**
   * As written, `transpose` lets an off-scale pitch it has moved stay on the
   * shared list, so a later pitch can step onto it: on C major, `[61, 60]` up
   * one step is `[62, 61]`, and 61 is not a C major pitch.
   */
  lemma TransposeLeak(m: PitchLine, classes: seq<int>)
    requires m == [Note(61), Note(60)]
    requires IsCMajor(classes)
    ensures MoveAll(Extract(m), Reify(classes), Some(1)).Some?
    ensures Transpose(m, classes, 1) == [Note(62), Note(61)]
    ensures 61 !in Reify(classes)
  {
    var ps := [Some(62), Some(61)];
    assert MoveAll(Extract(m), Reify(classes), Some(1)).Some? &&
      MoveAll(Extract(m), Reify(classes), Some(1)).value.pitches == ps && 61 !in Reify(classes) by {
      assert Extract(m) == [Some(61), Some(60)] by {
        ExtractTwo(m);
      }
      LeakMovesCMajor(classes);
    }
    var e := [Note(62), Note(61)];
    assert Shape(e) == Shape(m) && Extract(e) == ps by {
      ExtractTwo(e);
    }
    TransposeIs(m, classes, 1, ps, e);
  }

  /** On C major, 61 then 60 moved up one step along the shared list reach 62 and then the inserted 61. */
  lemma LeakMovesCMajor(classes: seq<int>)
    requires IsCMajor(classes)
    ensures MoveAll([Some(61), Some(60)], Reify(classes), Some(1)).Some?
    ensures MoveAll([Some(61), Some(60)], Reify(classes), Some(1)).value.pitches == [Some(62), Some(61)]
    ensures 61 !in Reify(classes)
  {
    var s := Reify(classes);
    assert StrictlyAscending(s) && s[35] == 60 && s[36] == 62 && 36 < |s| by {
      assert classes == [0, 2, 4, 5, 7, 9, 11];
      CMajor(classes);
    }
    LeakMoves(s, 36);
    Between(s, 36, 61);
  }

  /** Every flat pitch moved along the original list, none disturbing the next. */
  function MoveFresh(ps: seq<Option<int>>, scale: seq<int>, step: Option<int>): (r: seq<Option<int>>)
    requires forall k :: 0 <= k < |ps| ==> CanMove(ps[k], scale, step)
    ensures |r| == |ps|
  {
    seq(|ps|, k requires 0 <= k < |ps| => Move(ps[k], scale, step).pitch)
  }

  /** `transpose` with every pitch moved along the reified scale itself. */
  function TransposeFresh(m: PitchLine, classes: seq<int>, step: int): (r: PitchLine)
    requires forall k :: 0 <= k < Size(m) ==> CanMove(Extract(m)[k], Reify(classes), Some(step))
    ensures Shape(r) == Shape(m)
  {
    ReplaceShape(m, MoveFresh(Extract(m), Reify(classes), Some(step)));
    Replace(m, MoveFresh(Extract(m), Reify(classes), Some(step)))
  }

  /** Moved along the scale itself, every pitch that is produced is a scale pitch. */
  lemma FreshOnScale(ps: seq<Option<int>>, scale: seq<int>, step: Option<int>)
    requires StrictlyAscending(scale)
    requires forall k :: 0 <= k < |ps| ==> CanMove(ps[k], scale, step)
    ensures forall k :: 0 <= k < |ps| && MoveFresh(ps, scale, step)[k].Some? ==> MoveFresh(ps, scale, step)[k].value in scale
  {
    forall k | 0 <= k < |ps| && MoveFresh(ps, scale, step)[k].Some?
      ensures MoveFresh(ps, scale, step)[k].value in scale
    {
      OneOnScale(ps[k], scale, step);
    }
  }

  /** One move along a strictly ascending list lands on the list. */
  lemma OneOnScale(p: Option<int>, scale: seq<int>, step: Option<int>)
    requires StrictlyAscending(scale) && CanMove(p, scale, step)
    ensures Move(p, scale, step).pitch.Some? ==> Move(p, scale, step).pitch.value in scale
  {
    var r := Move(p, scale, step);
    if r.pitch.Some? && p.value !in scale {
      var c, k := InsertionPoint(scale, p.value), step.value;
      MoveOffScale(scale, p.value, k);
    }
  }

  /** A motif whose freshly moved flat pitches are known transposes to the motif of its shape that holds them. */
  lemma TransposeFreshIs(m: PitchLine, classes: seq<int>, step: int, ps: seq<Option<int>>, e: PitchLine)
    requires forall k :: 0 <= k < Size(m) ==> CanMove(Extract(m)[k], Reify(classes), Some(step))
    requires MoveFresh(Extract(m), Reify(classes), Some(step)) == ps
    requires Shape(e) == Shape(m) && Extract(e) == ps
    ensures TransposeFresh(m, classes, step) == e
  {
    ReplaceIs(m, ps, e);
  }

  /** Both moved along the list itself, 61 and 60 up one step land on the entry 62 above them. */
  lemma FreshMoves(s: seq<int>, c: nat)
    requires StrictlyAscending(s) && 0 < c < |s| && s[c - 1] == 60 && s[c] == 62
    ensures CanMove(Some(61), s, Some(1)) && CanMove(Some(60), s, Some(1))
    ensures MoveFresh([Some(61), Some(60)], s, Some(1)) == [Some(62), Some(62)]
  {
    assert CanMove(Some(61), s, Some(1)) && Move(Some(61), s, Some(1)).pitch == Some(62) by {
      StepUpOff(s, c, 61);
    }
    assert CanMove(Some(60), s, Some(1)) && Move(Some(60), s, Some(1)).pitch == Some(62) by {
      MoveOnScale(s, c - 1, 1);
    }
    MoveFreshPair(Some(61), Some(60), s, Some(1));
  }

  /** Two pitches moved along the same list, each on its own. */
  lemma MoveFreshPair(x: Option<int>, y: Option<int>, scale: seq<int>, step: Option<int>)
    requires CanMove(x, scale, step) && CanMove(y, scale, step)
    ensures MoveFresh([x, y], scale, step) == [Move(x, scale, step).pitch, Move(y, scale, step).pitch]
  {
    var ps := MoveFresh([x, y], scale, step);
    assert ps[0] == Move(x, scale, step).pitch && ps[1] == Move(y, scale, step).pitch;
  }

  /** On C major, 61 and 60 can both be moved one step along the scale itself. */
  lemma FreshExampleMovable(m: PitchLine, classes: seq<int>)
    requires m == [Note(61), Note(60)]
    requires classes == [0, 2, 4, 5, 7, 9, 11]
    ensures forall k :: 0 <= k < Size(m) ==> CanMove(Extract(m)[k], Reify(classes), Some(1))
  {
    assert Extract(m) == [Some(61), Some(60)] by {
      ExtractTwo(m);
    }
    CMajor(classes);
    FreshMoves(Reify(classes), 36);
  }

  /** Along the scale itself, C major `[61, 60]` up one step is `[62, 62]`. */
  lemma TransposeFreshExample(m: PitchLine, classes: seq<int>)
    requires m == [Note(61), Note(60)]
    requires classes == [0, 2, 4, 5, 7, 9, 11]
    requires forall k :: 0 <= k < Size(m) ==> CanMove(Extract(m)[k], Reify(classes), Some(1))
    ensures TransposeFresh(m, classes, 1) == [Note(62), Note(62)]
  {
    assert Extract(m) == [Some(61), Some(60)] by {
      ExtractTwo(m);
    }
    var ps := [Some(62), Some(62)];
    assert MoveFresh(Extract(m), Reify(classes), Some(1)) == ps by {
      CMajor(classes);
      FreshMoves(Reify(classes), 36);
    }
    var e := [Note(62), Note(62)];
    assert Extract(e) == ps by {
      ExtractTwo(e);
    }
    assert Shape(e) == Shape(m);
    TransposeFreshIs(m, classes, 1, ps, e);
  }

  // ---------------------------------------------------------------- lead

  /** The candidate pitches of every flat pitch, and the list the moves have left. */
  datatype Candidates = Candidates(lists: seq<seq<Option<int>>>, scale: seq<int>)

  /**
   * The comprehension of `lead`: `_move2` of each flat pitch in turn, along
   * one shared list; `None` once a move would run off the end of the list.
   */
  function Move2All(ps: seq<Option<int>>, scale: seq<int>, steps: seq<Option<int>>): (r: Option<Candidates>)
    ensures r.Some? ==> |r.value.lists| == |ps|
  {
    if ps == [] then Some(Candidates([], scale))
    else
      var init := Move2All(ps[..|ps| - 1], scale, steps);
      var p := ps[|ps| - 1];
      if init.None? || !CanMove2(p, init.value.scale, steps) then None
      else
        var last := Move2(p, init.value.scale, steps);
        Some(Candidates(init.value.lists + [last.pitches], last.scale))
  }

  /** The combinations whose pitches sound every class of the harmony, in their order. */
  function CompleteOnly(groups: seq<seq<Option<int>>>, harmony: seq<int>): (r: seq<seq<Option<int>>>)
    ensures forall g :: g in r <==> g in groups && IsCompleteFlat(g, harmony)
  {
    if groups == [] then []
    else
      assert forall g :: g in groups <==> g == groups[0] || g in groups[1..];
      (if IsCompleteFlat(groups[0], harmony) then [groups[0]] else []) + CompleteOnly(groups[1..], harmony)
  }

  /** The combinations `lead` turns into motifs. */
  function Groups(lists: seq<seq<Option<int>>>, harmony: seq<int>, complete: bool): seq<seq<Option<int>>>
  {
    if complete then CompleteOnly(Product(lists), harmony) else Product(lists)
  }

  /**
   * `lead`: every combination of one candidate per flat pitch, with
   * `complete` only those sounding the whole harmony, poured back into the
   * motif.
   */
  function Lead(m: PitchLine, harmony: seq<int>, steps: seq<Option<int>>, complete: bool): (r: seq<PitchLine>)
    requires Move2All(Extract(m), Reify(harmony), steps).Some?
    ensures |r| == |Groups(Move2All(Extract(m), Reify(harmony), steps).value.lists, harmony, complete)|
  {
    var lists := Move2All(Extract(m), Reify(harmony), steps).value.lists;
    var groups := Groups(lists, harmony, complete);
    assert forall g :: g in groups ==> |g| == Size(m) by {
      forall g | g in groups ensures |g| == Size(m) {
        ProductMembers(lists, g);
      }
    }
    seq(|groups|, k requires 0 <= k < |groups| => Replace(m, groups[k]))
  }

  /**
   * Every motif `lead` returns is the input motif refilled with one choice of
   * a candidate per flat pitch: it has the motif's shape, its flat pitches
   * are that choice, and with `complete` they sound every class of the
   * harmony.
   */
  lemma LeadSpec(m: PitchLine, harmony: seq<int>, steps: seq<Option<int>>, complete: bool, k: nat)
    requires Move2All(Extract(m), Reify(harmony), steps).Some?
    requires k < |Lead(m, harmony, steps, complete)|
    ensures var r := Lead(m, harmony, steps, complete)[k];
      Shape(r) == Shape(m) &&
      Choice(Move2All(Extract(m), Reify(harmony), steps).value.lists, Extract(r)) &&
      (complete ==> IsCompleteFlat(Extract(r), harmony))
  {
    var lists := Move2All(Extract(m), Reify(harmony), steps).value.lists;
    var groups := Groups(lists, harmony, complete);
    var g := groups[k];
    assert g in groups;
    ProductMembers(lists, g);
    ReplaceShape(m, g);
    ExtractReplace(m, g);
    assert g[..Size(m)] == g;
  }

  /** Every choice of candidates (sounding the whole harmony, with `complete`) gives one of the motifs `lead` returns. */
  lemma LeadMembers(m: PitchLine, harmony: seq<int>, steps: seq<Option<int>>, complete: bool, g: seq<Option<int>>)
    requires Move2All(Extract(m), Reify(harmony), steps).Some?
    requires Choice(Move2All(Extract(m), Reify(harmony), steps).value.lists, g)
    requires complete ==> IsCompleteFlat(g, harmony)
    ensures |g| >= Size(m) && Replace(m, g) in Lead(m, harmony, steps, complete)
  {
    var lists := Move2All(Extract(m), Reify(harmony), steps).value.lists;
    var groups := Groups(lists, harmony, complete);
    ProductMembers(lists, g);
    var k :| 0 <= k < |groups| && groups[k] == g;
    assert Lead(m, harmony, steps, complete)[k] == Replace(m, g);
  }

  /** Without the completeness filter, `lead` returns one motif per combination: the product of the candidate counts. */
  lemma LeadCount(m: PitchLine, harmony: seq<int>, steps: seq<Option<int>>)
    requires Move2All(Extract(m), Reify(harmony), steps).Some?
    ensures |Lead(m, harmony, steps, false)| == Combinations(Move2All(Extract(m), Reify(harmony), steps).value.lists)
  {
    ProductLength(Move2All(Extract(m), Reify(harmony), steps).value.lists);
  }

  /** A flat pitch with no candidate at all leaves `lead` with no motif. */
  lemma LeadNone(m: PitchLine, harmony: seq<int>, steps: seq<Option<int>>, complete: bool, i: nat)
    requires Move2All(Extract(m), Reify(harmony), steps).Some?
    requires var lists := Move2All(Extract(m), Reify(harmony), steps).value.lists;
      i < |lists| && lists[i] == []
    ensures Lead(m, harmony, steps, complete) == []
  {
    ProductEmptyFactor(Move2All(Extract(m), Reify(harmony), steps).value.lists, i);
  }

  /**
   * When every pitch is a rest or on the scale and every step stays on it,
   * the shared list never changes, and the candidates of each pitch are its
   * `_move2` on the scale itself.
   */
  lemma {:induction false} Move2AllOnScale(ps: seq<Option<int>>, scale: seq<int>, steps: seq<Option<int>>)
    requires forall k :: 0 <= k < |ps| ==> CanMove2(ps[k], scale, steps)
    requires forall k :: 0 <= k < |ps| && ps[k].Some? ==> ps[k].value in scale
    ensures Move2All(ps, scale, steps).Some?
    ensures var r := Move2All(ps, scale, steps).value;
      r.scale == scale && forall k :: 0 <= k < |ps| ==> r.lists[k] == Move2(ps[k], scale, steps).pitches
  {
    if ps != [] {
      var n := |ps|;
      var init := ps[..n - 1];
      assert forall k :: 0 <= k < n - 1 ==> init[k] == ps[k];
      Move2AllOnScale(init, scale, steps);
      var ri := Move2All(init, scale, steps).value;
      var r := Move2All(ps, scale, steps).value;
      assert r.lists[..n - 1] == ri.lists;
      forall k | 0 <= k < n ensures r.lists[k] == Move2(ps[k], scale, steps).pitches {
        if k < n - 1 {
          assert r.lists[k] == ri.lists[k];
        }
      }
    }
  }

  /** The classes of C major, `[0, 2, 4, 5, 7, 9, 11]`, entry by entry. */
  predicate IsCMajor(cs: seq<int>)
  {
    |cs| == 7 && cs[0] == 0 && cs[1] == 2 && cs[2] == 4 && cs[3] == 5 && cs[4] == 7 && cs[5] == 9 && cs[6] == 11
  }

  /** The steps `[-1, 0, 1]`, the default of `lead`. */
  predicate DefaultSteps(steps: seq<Option<int>>)
  {
    |steps| == 3 && steps[0] == Some(-1) && steps[1] == Some(0) && steps[2] == Some(1)
  }

  /** On a strictly ascending list, an on-list pitch led by `[-1, 0, 1]` offers the entry below, itself and the entry above. */
  lemma Move2Around(s: seq<int>, i: nat, steps: seq<Option<int>>)
    requires StrictlyAscending(s) && 0 < i && i + 1 < |s| && DefaultSteps(steps)
    ensures CanMove2(Some(s[i]), s, steps)
    ensures var r := Move2(Some(s[i]), s, steps);
      r.pitches == [Some(s[i - 1]), Some(s[i]), Some(s[i + 1])] && r.scale == s
  {
    var p := s[i];
    IndexOfStrict(s, i);
    PlacedSpec(s, p);
    assert InRange(p, s, steps) by {
      forall step | step in steps && step.Some? ensures 0 <= IndexOf(Placed(s, p), p) + step.value < |Placed(s, p)| {
        assert step == Some(-1) || step == Some(0) || step == Some(1);
      }
    }
    Move2Spec(p, s, steps);
    assert Kept(p, s, steps) == steps;
    var r := Move2(Some(p), s, steps).pitches;
    assert |r| == 3 && r[0] == Some(s[i - 1]) && r[1] == Some(s[i]) && r[2] == Some(s[i + 1]);
  }

  /** An off-list pitch between two entries, led by `[-1, 0, 1]`, is put on the list as it offers its two neighbours. */
  lemma Move2Inserts(s: seq<int>, c: nat, x: int, steps: seq<Option<int>>)
    requires StrictlyAscending(s) && 0 < c < |s| && s[c - 1] < x < s[c] && DefaultSteps(steps)
    ensures CanMove2(Some(x), s, steps)
    ensures Move2(Some(x), s, steps) == MovedAll([Some(s[c - 1]), Some(s[c])], Insert(s, x))
  {
    Between(s, c, x);
    assert steps == [Some(-1), Some(0), Some(1)];
    Move2Neighbours(s, x);
    Move2Places(x, s, steps);
    InsertStrict(s, x);
    PlacedInsert(s, x);
  }

  /** An off-list pitch that is offered some pitch first is put on the list. */
  lemma Move2Places(p: int, scale: seq<int>, steps: seq<Option<int>>)
    requires InRange(p, scale, steps) && p !in scale
    requires Move2(Some(p), scale, steps).pitches != [] && Move2(Some(p), scale, steps).pitches[0].Some?
    ensures Move2(Some(p), scale, steps).scale == Placed(scale, p)
  {
    var kept := Kept(p, scale, steps);
    Move2Spec(p, scale, steps);
    assert kept[0] in kept;
    assert Some(0) !in kept;
    assert forall step :: step in kept ==> step in steps;
    assert AnyNumber(kept);
    MoveStepsScale(p, scale, kept);
  }

  /**
   * Around neighbouring entries 59, 60 and 62, the comprehension of `lead`
   * by `[-1, 0, 1]` offers 61 the entries 60 and 62 and leaves 61 on the
   * shared list, so 60 is then offered 59, 60 and 61.
   */
  lemma LeakCandidates(s: seq<int>, c: nat, steps: seq<Option<int>>)
    requires StrictlyAscending(s) && 1 < c < |s| && s[c - 2] == 59 && s[c - 1] == 60 && s[c] == 62
    requires DefaultSteps(steps)
    ensures Move2All([Some(61), Some(60)], s, steps).Some?
    ensures Move2All([Some(61), Some(60)], s, steps).value.lists == [[Some(60), Some(62)], [Some(59), Some(60), Some(61)]]
  {
    var s1 := Insert(s, 61);
    var first := MovedAll([Some(60), Some(62)], s1);
    var second := MovedAll([Some(59), Some(60), Some(61)], s1);
    assert CanMove2(Some(61), s, steps) && Move2(Some(61), s, steps) == first by {
      Move2Inserts(s, c, 61, steps);
    }
    assert CanMove2(Some(60), s1, steps) && Move2(Some(60), s1, steps) == second by {
      assert StrictlyAscending(s1) && s1[c - 2] == 59 && s1[c - 1] == 60 && s1[c] == 61 && c < |s1| by {
        InsertBetween(s, c, 61);
      }
      Move2Around(s1, c - 1, steps);
    }
    Move2AllPair(Some(61), Some(60), s, steps, first, second);
  }

  /** Two flat pitches: the first offered its candidates along the scale, the second along the list the first has left. */
  lemma Move2AllPair(x: Option<int>, y: Option<int>, scale: seq<int>, steps: seq<Option<int>>, a: MovedAll, b: MovedAll)
    requires CanMove2(x, scale, steps) && Move2(x, scale, steps) == a
    requires CanMove2(y, a.scale, steps) && Move2(y, a.scale, steps) == b
    ensures Move2All([x, y], scale, steps) == Some(Candidates([a.pitches, b.pitches], b.scale))
  {
    var p1, p2 := [x], [x, y];
    assert p1[..0] == [] && p2[..1] == p1;
    assert [] + [a.pitches] == [a.pitches] && [a.pitches] + [b.pitches] == [a.pitches, b.pitches];
    Move2AllStep(p1, scale, steps, Candidates([], scale), a);
    Move2AllStep(p2, scale, steps, Candidates([a.pitches], a.scale), b);
  }

  /** One more flat pitch adds its candidates, taken along the list the earlier pitches have left. */
  lemma Move2AllStep(ps: seq<Option<int>>, scale: seq<int>, steps: seq<Option<int>>, init: Candidates, last: MovedAll)
    requires ps != [] && Move2All(ps[..|ps| - 1], scale, steps) == Some(init)
    requires CanMove2(ps[|ps| - 1], init.scale, steps) && Move2(ps[|ps| - 1], init.scale, steps) == last
    ensures Move2All(ps, scale, steps) == Some(Candidates(init.lists + [last.pitches], last.scale))
  {
  }

  /**
   * As written, `lead` takes every pitch's candidates along one shared list,
   * so an off-scale pitch placed for one flat pitch is offered to the next:
   * on C major by `[-1, 0, 1]`, 61 then 60 are offered 60 or 62 and then 59,
   * 60 or 61, though 61 is not a C major pitch.
   */
  lemma LeadLeakCandidates(classes: seq<int>, steps: seq<Option<int>>)
    requires IsCMajor(classes)
    requires DefaultSteps(steps)
    ensures Move2All([Some(61), Some(60)], Reify(classes), steps).Some?
    ensures Move2All([Some(61), Some(60)], Reify(classes), steps).value.lists ==
      [[Some(60), Some(62)], [Some(59), Some(60), Some(61)]]
    ensures 61 !in Reify(classes)
  {
    var s := Reify(classes);
    assert StrictlyAscending(s) && s[34] == 59 && s[35] == 60 && s[36] == 62 && 36 < |s| by {
      assert classes == [0, 2, 4, 5, 7, 9, 11];
      CMajor(classes);
    }
    LeakCandidates(s, 36, steps);
    Between(s, 36, 61);
  }

  /** So one of the motifs `lead` returns for `[61, 60]` on C major is `[62, 61]`, which leaves the harmony. */
  lemma LeadLeak(m: PitchLine, classes: seq<int>, steps: seq<Option<int>>)
    requires |m| == 2 && m[0] == Note(61) && m[1] == Note(60)
    requires IsCMajor(classes)
    requires DefaultSteps(steps)
    ensures Move2All(Extract(m), Reify(classes), steps).Some?
    ensures [Note(62), Note(61)] in Lead(m, classes, steps, false)
  {
    var g, e := [Some(62), Some(61)], [Note(62), Note(61)];
    LeakChoice(m, classes, steps, g);
    assert Shape(e) == Shape(m) && Extract(e) == g by {
      ExtractTwo(e);
    }
    LeadHas(m, classes, steps, false, g, e);
  }

  /** Picking 62 for the 61 and 61 for the 60 is one choice of the candidates above. */
  lemma LeakChoice(m: PitchLine, classes: seq<int>, steps: seq<Option<int>>, g: seq<Option<int>>)
    requires |m| == 2 && m[0] == Note(61) && m[1] == Note(60)
    requires IsCMajor(classes)
    requires DefaultSteps(steps)
    requires g == [Some(62), Some(61)]
    ensures Move2All(Extract(m), Reify(classes), steps).Some?
    ensures Choice(Move2All(Extract(m), Reify(classes), steps).value.lists, g)
  {
    assert Extract(m) == [Some(61), Some(60)] by {
      ExtractTwo(m);
    }
    LeadLeakCandidates(classes, steps);
    var lists := Move2All(Extract(m), Reify(classes), steps).value.lists;
    assert g[0] in lists[0] && g[1] in lists[1];
  }

  /** A motif of the input's shape whose flat pitches are one choice of candidates is among those `lead` returns. */
  lemma LeadHas(m: PitchLine, harmony: seq<int>, steps: seq<Option<int>>, complete: bool, g: seq<Option<int>>, e: PitchLine)
    requires Move2All(Extract(m), Reify(harmony), steps).Some?
    requires Choice(Move2All(Extract(m), Reify(harmony), steps).value.lists, g)
    requires complete ==> IsCompleteFlat(g, harmony)
    requires Shape(e) == Shape(m) && Extract(e) == g
    ensures e in Lead(m, harmony, steps, complete)
  {
    LeadMembers(m, harmony, steps, complete, g);
    ReplaceIs(m, g, e);
  }

  /** The candidates of every flat pitch, each taken along the scale itself. */
  function Move2Fresh(ps: seq<Option<int>>, scale: seq<int>, steps: seq<Option<int>>): (r: seq<seq<Option<int>>>)
    requires forall k :: 0 <= k < |ps| ==> CanMove2(ps[k], scale, steps)
    ensures |r| == |ps|
  {
    seq(|ps|, k requires 0 <= k < |ps| => Move2(ps[k], scale, steps).pitches)
  }

  /** `lead` with the candidates of every flat pitch taken along the reified harmony itself. */
  function LeadFresh(m: PitchLine, harmony: seq<int>, steps: seq<Option<int>>, complete: bool): (r: seq<PitchLine>)
    requires forall k :: 0 <= k < Size(m) ==> CanMove2(Extract(m)[k], Reify(harmony), steps)
    ensures |r| == |Groups(Move2Fresh(Extract(m), Reify(harmony), steps), harmony, complete)|
  {
    var lists := Move2Fresh(Extract(m), Reify(harmony), steps);
    var groups := Groups(lists, harmony, complete);
    assert forall g :: g in groups ==> |g| == Size(m) by {
      forall g | g in groups ensures |g| == Size(m) {
        ProductMembers(lists, g);
      }
    }
    seq(|groups|, k requires 0 <= k < |groups| => Replace(m, groups[k]))
  }

  /** Along a strictly ascending scale, every pitch `_move2` offers is a scale pitch. */
  lemma Move2Offers(p: int, scale: seq<int>, steps: seq<Option<int>>)
    requires StrictlyAscending(scale) && InRange(p, scale, steps)
    ensures var r := Move2(Some(p), scale, steps).pitches;
      forall k :: 0 <= k < |r| && r[k].Some? ==> r[k].value in scale
  {
    Move2Spec(p, scale, steps);
    PlacedSpec(scale, p);
    var r, kept := Move2(Some(p), scale, steps).pitches, Kept(p, scale, steps);
    forall k | 0 <= k < |r| && r[k].Some? ensures r[k].value in scale {
      if p !in scale {
        assert kept[k] in kept && kept[k] in steps;
        var v := kept[k].value;
        assert v != 0;
        InsertStrict(scale, p);
        PlacedInsert(scale, p);
        InsertAround(scale, p, v);
      }
    }
  }

  /** Taken along a strictly ascending scale, every candidate of every flat pitch is a scale pitch. */
  lemma Move2FreshOnScale(ps: seq<Option<int>>, scale: seq<int>, steps: seq<Option<int>>)
    requires StrictlyAscending(scale)
    requires forall k :: 0 <= k < |ps| ==> CanMove2(ps[k], scale, steps)
    ensures var r := Move2Fresh(ps, scale, steps);
      forall k, j :: 0 <= k < |r| && 0 <= j < |r[k]| && r[k][j].Some? ==> r[k][j].value in scale
  {
    var r: seq<seq<Option<int>>> := Move2Fresh(ps, scale, steps);
    forall k: int, j: int | 0 <= k < |r| && 0 <= j < |r[k]| && r[k][j].Some? ensures r[k][j].value in scale {
      assert ps[k].Some? by {
        if ps[k].None? {
          assert r[k] == [None];
        }
      }
      Move2Offers(ps[k].value, scale, steps);
    }
  }

  /**
   * With every pitch's candidates taken along the harmony itself, each motif
   * `lead` returns has the input's shape and holds only rests and pitches
   * whose class is in the harmony: the nearest chordal tones.
   */
  lemma LeadFreshOnScale(m: PitchLine, harmony: seq<int>, steps: seq<Option<int>>, complete: bool, k: nat)
    requires Classes(harmony) && Distinct(harmony)
    requires forall i :: 0 <= i < Size(m) ==> CanMove2(Extract(m)[i], Reify(harmony), steps)
    requires k < |LeadFresh(m, harmony, steps, complete)|
    ensures var r := LeadFresh(m, harmony, steps, complete)[k];
      Shape(r) == Shape(m) &&
      forall i :: 0 <= i < |Extract(r)| && Extract(r)[i].Some? ==> Extract(r)[i].value % 12 in harmony
  {
    var scale := Reify(harmony);
    ReifySpec(harmony);
    var lists := Move2Fresh(Extract(m), scale, steps);
    var groups := Groups(lists, harmony, complete);
    var g := groups[k];
    assert g in groups;
    ProductMembers(lists, g);
    ReplaceShape(m, g);
    ExtractReplace(m, g);
    assert g[..Size(m)] == g;
    Move2FreshOnScale(Extract(m), scale, steps);
    forall i | 0 <= i < |g| && g[i].Some? ensures g[i].value in scale {
      var j :| 0 <= j < |lists[i]| && lists[i][j] == g[i];
    }
  }

  /** Along C major itself, 61 then 60 by `[-1, 0, 1]` are offered 60 or 62 and then 59, 60 or 62. */
  lemma LeadFreshExample(classes: seq<int>, steps: seq<Option<int>>)
    requires IsCMajor(classes)
    requires DefaultSteps(steps)
    ensures CanMove2(Some(61), Reify(classes), steps) && CanMove2(Some(60), Reify(classes), steps)
    ensures Move2Fresh([Some(61), Some(60)], Reify(classes), steps) == [[Some(60), Some(62)], [Some(59), Some(60), Some(62)]]
  {
    var s := Reify(classes);
    assert StrictlyAscending(s) && s[34] == 59 && s[35] == 60 && s[36] == 62 && 36 < |s| by {
      assert classes == [0, 2, 4, 5, 7, 9, 11];
      CMajor(classes);
    }
    FreshCandidates(s, 35, steps);
  }

  /** Around neighbouring entries 59, 60 and 62, 61 and 60 are each offered their neighbours on the list itself. */
  lemma FreshCandidates(s: seq<int>, c: nat, steps: seq<Option<int>>)
    requires StrictlyAscending(s) && 0 < c && c + 1 < |s| && s[c - 1] == 59 && s[c] == 60 && s[c + 1] == 62
    requires DefaultSteps(steps)
    ensures CanMove2(Some(61), s, steps) && CanMove2(Some(60), s, steps)
    ensures Move2Fresh([Some(61), Some(60)], s, steps) == [[Some(60), Some(62)], [Some(59), Some(60), Some(62)]]
  {
    assert CanMove2(Some(61), s, steps) && Move2(Some(61), s, steps).pitches == [Some(60), Some(62)] by {
      Move2Inserts(s, c + 1, 61, steps);
    }
    assert CanMove2(Some(60), s, steps) && Move2(Some(60), s, steps).pitches == [Some(59), Some(60), Some(62)] by {
      Move2Around(s, c, steps);
    }
    Move2FreshPair(Some(61), Some(60), s, steps);
  }

  /** Two flat pitches, each offered its candidates along the same list. */
  lemma Move2FreshPair(x: Option<int>, y: Option<int>, scale: seq<int>, steps: seq<Option<int>>)
    requires CanMove2(x, scale, steps) && CanMove2(y, scale, steps)
    ensures Move2Fresh([x, y], scale, steps) == [Move2(x, scale, steps).pitches, Move2(y, scale, steps).pitches]
  {
    var r := Move2Fresh([x, y], scale, steps);
    assert r[0] == Move2(x, scale, steps).pitches && r[1] == Move2(y, scale, steps).pitches;
  }
}
