/**
 * The checks on pitch motifs (ch0p1n/motif.py): harmonic completeness of a
 * line, and contour similarity of two lines by directions, by ordinals or by
 * steps along a scale.
 */
module Checks {
  import opened Seqs
  import opened Structure
  import opened Scale

  // ---------------------------------------------------------------- completeness

  /** The classes `_is_complete` hears: `pitch % 12` of every truthy pitch, so neither `None` nor the pitch 0 counts. */
  function Sounding(ps: seq<Option<int>>): (r: set<int>)
    ensures forall c :: c in r ==> 0 <= c < 12
  {
    set k | 0 <= k < |ps| && ps[k].Some? && ps[k].value != 0 :: ps[k].value % 12
  }

  /** `_is_complete`: every class of the harmony is heard. */
  predicate IsCompleteFlat(ps: seq<Option<int>>, harmony: seq<int>)
    ensures harmony == [] ==> IsCompleteFlat(ps, harmony)
    ensures IsCompleteFlat(ps, harmony) ==> forall c :: c in harmony ==> 0 <= c < 12
  {
    forall c :: c in harmony ==> c in Sounding(ps)
  }

  /** A class is heard exactly when some nonzero pitch of that class is present. */
  lemma SoundingSpec(ps: seq<Option<int>>, c: int)
    ensures c in Sounding(ps) <==> exists p :: Some(p) in ps && p != 0 && p % 12 == c
  {
    if c in Sounding(ps) {
      var k :| 0 <= k < |ps| && ps[k].Some? && ps[k].value != 0 && ps[k].value % 12 == c;
      assert Some(ps[k].value) in ps;
    }
    if exists p :: Some(p) in ps && p != 0 && p % 12 == c {
      var p :| Some(p) in ps && p != 0 && p % 12 == c;
      var k :| 0 <= k < |ps| && ps[k] == Some(p);
      assert ps[k].value % 12 == c;
    }
  }

  /** Fewer pitches are heard as fewer classes. */
  lemma SoundingSubset(xs: seq<Option<int>>, ys: seq<Option<int>>)
    requires forall x :: x in xs && x.Some? ==> x in ys
    ensures Sounding(xs) <= Sounding(ys)
  {
    forall c | c in Sounding(xs) ensures c in Sounding(ys) {
      var k :| 0 <= k < |xs| && xs[k].Some? && xs[k].value != 0 && xs[k].value % 12 == c;
      assert xs[k] in ys;
      var k2 :| 0 <= k2 < |ys| && ys[k2] == xs[k];
      assert ys[k2].value % 12 == c;
    }
  }

  /** Whether every exclusion can be written in turn: `_modify` fails on an entry of an item that is not a cluster. */
  predicate CanExclude(m: PitchLine, exclude: seq<Position>)
    decreases |exclude|, 0
  {
    exclude == [] ||
    (CanExclude(m, exclude[..|exclude| - 1]) &&
     CanModify(Excluded(m, exclude[..|exclude| - 1]), exclude[|exclude| - 1]))
  }

  /** The line with `None` written at every excluded position, in order. */
  function Excluded(m: PitchLine, exclude: seq<Position>): (r: PitchLine)
    requires CanExclude(m, exclude)
    ensures |r| == |m|
    decreases |exclude|, 1
  {
    if exclude == [] then m
    else Modify(Excluded(m, exclude[..|exclude| - 1]), exclude[|exclude| - 1], None)
  }

  /** Every prefix of a writable list of exclusions is writable, and excluding one more adds one `_modify`. */
  lemma {:induction false} ExcludedPrefix(m: PitchLine, exclude: seq<Position>, k: nat)
    requires CanExclude(m, exclude) && k < |exclude|
    ensures CanExclude(m, exclude[..k]) && CanExclude(m, exclude[..k + 1])
    ensures CanModify(Excluded(m, exclude[..k]), exclude[k])
    ensures Excluded(m, exclude[..k + 1]) == Modify(Excluded(m, exclude[..k]), exclude[k], None)
  {
    var n := |exclude|;
    assert exclude[..n] == exclude;
    if k + 1 < n {
      ExcludedPrefix(m, exclude[..n - 1], k);
      assert exclude[..n - 1][..k] == exclude[..k];
      assert exclude[..n - 1][..k + 1] == exclude[..k + 1];
    }
    assert exclude[..k + 1][..k] == exclude[..k];
  }

  /**
   * `is_complete`: the excluded positions are blanked on a copy of the line,
   * one `_modify` at a time, and the copy's pitches are checked.
   */
  method IsComplete(m: PitchLine, harmony: seq<int>, exclude: seq<Position>) returns (b: bool)
    requires CanExclude(m, exclude)
    ensures b == IsCompleteFlat(Extract(Excluded(m, exclude)), harmony)
  {
    var line := m;
    if exclude != [] {
      var copy := new Event[|m|](i requires 0 <= i < |m| => m[i]);
      assert copy[..] == Excluded(m, exclude[..0]);
      for k := 0 to |exclude|
        invariant CanExclude(m, exclude[..k]) && copy[..] == Excluded(m, exclude[..k])
      {
        ExcludedPrefix(m, exclude, k);
        ModifyInPlace(copy, exclude[k], None);
      }
      assert exclude[..|exclude|] == exclude;
      line := copy[..];
    }
    b := IsCompleteFlat(Extract(line), harmony);
  }

  /** A value present in a line's flat pitches comes from one of its items. */
  lemma {:induction false} ExtractHas(m: PitchLine, x: Option<int>)
    ensures x in Extract(m) <==> exists i :: 0 <= i < |m| && x in Flat(m[i])
  {
    if m != [] {
      ExtractHas(m[1..], x);
      assert Extract(m) == Flat(m[0]) + Extract(m[1..]);
      if exists i :: 0 <= i < |m[1..]| && x in Flat(m[1..][i]) {
        var i :| 0 <= i < |m[1..]| && x in Flat(m[1..][i]);
        assert m[1..][i] == m[i + 1];
      }
      if exists i :: 0 < i < |m| && x in Flat(m[i]) {
        var i :| 0 < i < |m| && x in Flat(m[i]);
        assert m[1..][i - 1] == m[i];
      }
    }
  }

  /** Blanking one position leaves no pitch that was not there before. */
  lemma BlankKeepsPitches(m: PitchLine, pos: Position, x: Option<int>)
    requires CanModify(m, pos) && x.Some? && x in Extract(Modify(m, pos, None))
    ensures x in Extract(m)
  {
    var r := Modify(m, pos, None);
    ExtractHas(r, x);
    ExtractHas(m, x);
    var i :| 0 <= i < |r| && x in Flat(r[i]);
    if i == pos.i && pos.InChord? {
      var s := m[i].pitches;
      var k :| 0 <= k < |s[pos.j := None]| && s[pos.j := None][k] == x;
      assert s[k] == x;
    }
  }

  /** Each further exclusion can only shrink the classes heard. */
  lemma {:induction false} ExcludeShrinks(m: PitchLine, exclude: seq<Position>, k: nat)
    requires CanExclude(m, exclude) && k <= |exclude|
    ensures CanExclude(m, exclude[..k])
    ensures Sounding(Extract(Excluded(m, exclude))) <= Sounding(Extract(Excluded(m, exclude[..k])))
  {
    var n := |exclude|;
    assert exclude[..n] == exclude;
    if k < n {
      ExcludedPrefix(m, exclude, n - 1);
      var before := Excluded(m, exclude[..n - 1]);
      assert Sounding(Extract(Excluded(m, exclude))) <= Sounding(Extract(before)) by {
        forall x | x in Extract(Excluded(m, exclude)) && x.Some? ensures x in Extract(before) {
          BlankKeepsPitches(before, exclude[n - 1], x);
        }
        SoundingSubset(Extract(Excluded(m, exclude)), Extract(before));
      }
      ExcludeShrinks(m, exclude[..n - 1], k);
      assert exclude[..n - 1][..k] == exclude[..k];
    }
  }

  /** Adding exclusions never turns an incomplete line into a complete one. */
  lemma ExcludeMonotone(m: PitchLine, harmony: seq<int>, exclude: seq<Position>, more: seq<Position>)
    requires CanExclude(m, exclude + more)
    ensures CanExclude(m, exclude)
    ensures IsCompleteFlat(Extract(Excluded(m, exclude + more)), harmony) ==>
            IsCompleteFlat(Extract(Excluded(m, exclude)), harmony)
  {
    ExcludeShrinks(m, exclude + more, |exclude|);
    assert (exclude + more)[..|exclude|] == exclude;
  }

  /** The examples of the source's tests: `[60, None, 62, [64, 67]]` completes `{0, 4, 7}`, but not without the 64. */
  lemma IsCompleteExamples(m: PitchLine)
    requires m == [Note(60), Rest, Note(62), Chord([Some(64), Some(67)])]
    ensures IsCompleteFlat(Extract(Excluded(m, [])), [0, 4, 7])
    ensures CanExclude(m, [InChord(3, 0)]) && !IsCompleteFlat(Extract(Excluded(m, [InChord(3, 0)])), [0, 4, 7])
  {
    var cut := [Note(60), Rest, Note(62), Chord([None, Some(67)])];
    ExampleWhole(m);
    ExampleCut(m, cut);
    ExampleMissing(cut);
  }

  /** `[60, None, 62, [64, 67]]` sounds the classes 0, 4 and 7. */
  lemma ExampleWhole(m: PitchLine)
    requires m == [Note(60), Rest, Note(62), Chord([Some(64), Some(67)])]
    ensures IsCompleteFlat(Extract(m), [0, 4, 7])
  {
    var ps := [Some(60), None, Some(62), Some(64), Some(67)];
    assert Extract(m) == ps by {
      FlatLine(m);
    }
    assert ps[0].value % 12 == 0 && ps[3].value % 12 == 4 && ps[4].value % 12 == 7;
  }

  /** Excluding the first entry of the cluster blanks the 64 and nothing else. */
  lemma ExampleCut(m: PitchLine, cut: PitchLine)
    requires m == [Note(60), Rest, Note(62), Chord([Some(64), Some(67)])]
    requires cut == [Note(60), Rest, Note(62), Chord([None, Some(67)])]
    ensures CanExclude(m, [InChord(3, 0)]) && Excluded(m, [InChord(3, 0)]) == cut
  {
    assert [InChord(3, 0)][..0] == [];
    assert [Some(64), Some(67)][0 := None] == [None, Some(67)];
  }

  /** Without the 64, the class 4 is not heard. */
  lemma ExampleMissing(cut: PitchLine)
    requires cut == [Note(60), Rest, Note(62), Chord([None, Some(67)])]
    ensures !IsCompleteFlat(Extract(cut), [0, 4, 7])
  {
    var qs := [Some(60), None, Some(62), None, Some(67)];
    assert Extract(cut) == qs by {
      FlatLine(cut);
    }
    forall k | 0 <= k < |qs| && qs[k].Some? ensures qs[k].value % 12 != 4 {
      if k == 0 {
      } else if k == 2 {
      } else {
        assert k == 4;
      }
    }
    assert 4 !in Sounding(qs);
  }

  /** The flat pitches of a four-item line. */
  lemma FlatLine(m: PitchLine)
    requires |m| == 4
    ensures Extract(m) == Flat(m[0]) + Flat(m[1]) + Flat(m[2]) + Flat(m[3])
  {
    var v := m[1..];
    ExtractThree(v);
    assert v[0] == m[1] && v[1] == m[2] && v[2] == m[3];
    assert Extract(m) == Flat(m[0]) + Extract(v);
  }

  // ---------------------------------------------------------------- contours

  /** The sign of the interval from `a` to `b`. */
  function Direction(a: int, b: int): int
  {
    if b - a > 0 then 1 else if b - a < 0 then -1 else 0
  }

  /** `_get_directions`: for each pitch but the last, the direction to the next one. */
  function Directions(ps: seq<int>): (r: seq<int>)
    ensures |r| == if ps == [] then 0 else |ps| - 1
  {
    if |ps| <= 1 then [] else seq(|ps| - 1, i requires 0 <= i < |ps| - 1 => Direction(ps[i], ps[i + 1]))
  }

  /** Direction `i` is 1 when the next pitch is higher, -1 when it is lower and 0 when it is the same. */
  lemma DirectionsSpec(ps: seq<int>, i: nat)
    requires i + 1 < |ps|
    ensures var d := Directions(ps)[i];
      (d == 1 <==> ps[i] < ps[i + 1]) && (d == -1 <==> ps[i + 1] < ps[i]) && (d == 0 <==> ps[i] == ps[i + 1])
  {
  }

  /** `_get_directions` as the source writes it: one appended direction per adjacent pair. */
  method GetDirections(ps: seq<int>) returns (ds: seq<int>)
    ensures ds == Directions(ps)
  {
    ds := [];
    var n := if ps == [] then 0 else |ps| - 1;
    for i := 0 to n
      invariant |ds| == i && forall k :: 0 <= k < i ==> ds[k] == Direction(ps[k], ps[k + 1])
    {
      var d := ps[i + 1] - ps[i];
      if d > 0 {
        ds := ds + [1];
      } else if d < 0 {
        ds := ds + [-1];
      } else {
        ds := ds + [0];
      }
    }
  }

  /** The distinct values of a list, each once (`set(pitches)`, in some order). */
  function Dedup(ps: seq<int>): seq<int>
  {
    if ps == [] then []
    else if ps[0] in ps[1..] then Dedup(ps[1..])
    else [ps[0]] + Dedup(ps[1..])
  }

  lemma {:induction false} DedupSpec(ps: seq<int>)
    ensures forall x :: x in Dedup(ps) <==> x in ps
    ensures Distinct(Dedup(ps))
  {
    if ps != [] {
      DedupSpec(ps[1..]);
      assert forall x :: x in ps <==> x == ps[0] || x in ps[1..];
      if ps[0] !in ps[1..] {
        var d := Dedup(ps[1..]);
        assert multiset([ps[0]] + d) == multiset{ps[0]} + multiset(d);
        assert ps[0] !in multiset(d);
      }
    }
  }

  /** `sorted(set(pitches))`: the distinct values in ascending order, each once. */
  function Ranking(ps: seq<int>): (r: seq<int>)
    ensures forall x :: x in ps ==> x in r
  {
    var r := Sort(Dedup(ps));
    DedupSpec(ps);
    SortSpec(Dedup(ps));
    assert forall x :: x in Dedup(ps) ==> x in multiset(Dedup(ps));
    assert forall x :: x in multiset(r) ==> x in r;
    r
  }

  lemma RankingStrict(ps: seq<int>)
    ensures StrictlyAscending(Ranking(ps))
  {
    DedupSpec(ps);
    SortStrict(Dedup(ps));
  }

  /** `_get_ordinals`: each pitch's rank among the distinct pitches. */
  function Ordinals(ps: seq<int>): (r: seq<int>)
    ensures |r| == |ps|
  {
    var ranking := Ranking(ps);
    seq(|ps|, i requires 0 <= i < |ps| => IndexOf(ranking, ps[i]))
  }

  /** Ordinals are ordered exactly as the pitches they rank, and equal exactly for equal pitches. */
  lemma OrdinalsOrder(ps: seq<int>, i: nat, j: nat)
    requires i < |ps| && j < |ps|
    ensures Ordinals(ps)[i] < Ordinals(ps)[j] <==> ps[i] < ps[j]
    ensures Ordinals(ps)[i] == Ordinals(ps)[j] <==> ps[i] == ps[j]
  {
    RankingStrict(ps);
    IndexOfMonotone(Ranking(ps), ps[i], ps[j]);
  }

  /** Lines with equal ordinals have equal directions: the ordinal contour is the finer one. */
  lemma OrdinalsDirections(a: seq<int>, b: seq<int>)
    requires Ordinals(a) == Ordinals(b)
    ensures Directions(a) == Directions(b)
  {
    var da, db := Directions(a), Directions(b);
    forall i | 0 <= i < |da| ensures da[i] == db[i] {
      DirectionsSpec(a, i);
      DirectionsSpec(b, i);
      OrdinalsOrder(a, i, i + 1);
      OrdinalsOrder(b, i, i + 1);
      OrdinalsOrder(a, i + 1, i);
      OrdinalsOrder(b, i + 1, i);
    }
  }

  // ---------------------------------------------------------------- steps along a scale

  /** The list with `p` appended unless it is already there. */
  function Add(s: seq<int>, p: int): seq<int>
  {
    if p in s then s else s + [p]
  }

  datatype Measured = Measured(step: int, scale: seq<int>)

  /**
   * `_measure`: both pitches are appended to the caller's list if absent, the
   * list is sorted, and the result is how many entries the end lies above
   * the start.
   */
  function Measure(start: int, end: int, scale: seq<int>): (r: Measured)
    ensures start in r.scale && end in r.scale
  {
    var t := Add(Add(scale, start), end);
    var s := Sort(t);
    SortKeeps(t, start);
    SortKeeps(t, end);
    Measured(IndexOf(s, end) - IndexOf(s, start), s)
  }

  /** `_measure` on the caller's list, which it may extend and always sorts. */
  method MeasureAlong(start: int, end: int, scale: PitchList) returns (step: int)
    modifies scale
    ensures Measured(step, scale.items) == Measure(start, end, old(scale.items))
  {
    ghost var before := scale.items;
    if start !in scale.items {
      scale.items := scale.items + [start];
    }
    if end !in scale.items {
      scale.items := scale.items + [end];
    }
    assert scale.items == Add(Add(before, start), end);
    scale.items := Sort(scale.items);
    assert scale.items == Measure(start, end, before).scale;
    step := IndexOf(scale.items, end) - IndexOf(scale.items, start);
  }

  /** On a strictly ascending scale holding both pitches, `_measure` leaves the scale alone and returns the difference of their indices. */
  lemma MeasureOnScale(start: int, end: int, scale: seq<int>)
    requires StrictlyAscending(scale) && start in scale && end in scale
    ensures Measure(start, end, scale) == Measured(IndexOf(scale, end) - IndexOf(scale, start), scale)
  {
    assert Add(Add(scale, start), end) == scale;
    SortAscending(scale);
  }

  /** Measuring is the inverse of moving: `_move` by the measured step takes the start to the end. */
  lemma MeasureMove(start: int, end: int, scale: seq<int>)
    requires StrictlyAscending(scale) && start in scale && end in scale
    ensures var k := Measure(start, end, scale).step;
      CanMove(Some(start), scale, Some(k)) && Move(Some(start), scale, Some(k)) == Moved(Some(end), scale)
  {
    MeasureOnScale(start, end, scale);
    MoveBetween(scale, start, end);
  }

  datatype MeasuredAll = MeasuredAll(steps: seq<int>, scale: seq<int>)

  /** `_get_steps`: `_measure` between each pitch and the next, front to back, along one shared list. */
  function Steps(ps: seq<int>, scale: seq<int>): (r: MeasuredAll)
    ensures |r.steps| == if ps == [] then 0 else |ps| - 1
  {
    if |ps| <= 1 then MeasuredAll([], scale)
    else
      var init := Steps(ps[..|ps| - 1], scale);
      var last := Measure(ps[|ps| - 2], ps[|ps| - 1], init.scale);
      MeasuredAll(init.steps + [last.step], last.scale)
  }

  /** How many scale entries each pitch lies above the one before it. */
  function Intervals(ps: seq<int>, s: seq<int>): (r: seq<int>)
    requires forall x :: x in ps ==> x in s
    ensures |r| == if ps == [] then 0 else |ps| - 1
  {
    if |ps| <= 1 then []
    else
      var n := |ps|;
      assert ps[n - 2] in ps && forall x :: x in ps[..n - 1] ==> x in ps;
      Intervals(ps[..n - 1], s) + [IndexOf(s, ps[n - 1]) - IndexOf(s, ps[n - 2])]
  }

  /** Interval `i` is how many scale entries pitch `i + 1` lies above pitch `i`. */
  lemma {:induction false} IntervalsAt(ps: seq<int>, s: seq<int>, i: nat)
    requires (forall x :: x in ps ==> x in s) && i + 1 < |ps|
    ensures ps[i] in s && ps[i + 1] in s
    ensures Intervals(ps, s)[i] == IndexOf(s, ps[i + 1]) - IndexOf(s, ps[i])
  {
    var n := |ps|;
    assert ps[i] in ps && ps[i + 1] in ps;
    var init := ps[..n - 1];
    assert forall x :: x in init ==> x in ps;
    assert Intervals(ps, s) == Intervals(init, s) + [IndexOf(s, ps[n - 1]) - IndexOf(s, ps[n - 2])];
    if i + 2 < n {
      IntervalsAt(init, s, i);
      assert init[i] == ps[i] && init[i + 1] == ps[i + 1];
    }
  }

  /** The last interval, split off. */
  lemma IntervalsLast(ps: seq<int>, s: seq<int>)
    requires forall x :: x in ps ==> x in s
    requires |ps| > 1
    ensures ps[|ps| - 2] in s && ps[|ps| - 1] in s && forall x :: x in ps[..|ps| - 1] ==> x in s
    ensures Intervals(ps, s) == Intervals(ps[..|ps| - 1], s) + [IndexOf(s, ps[|ps| - 1]) - IndexOf(s, ps[|ps| - 2])]
  {
    InitWithin(ps, s);
  }

  /** The last two pitches and all but the last lie on a list that holds every pitch. */
  lemma InitWithin(ps: seq<int>, s: seq<int>)
    requires forall x :: x in ps ==> x in s
    requires |ps| > 1
    ensures ps[|ps| - 2] in s && ps[|ps| - 1] in s && forall x :: x in ps[..|ps| - 1] ==> x in s
  {
    var a, b := ps[|ps| - 2], ps[|ps| - 1];
    assert a in ps && b in ps;
    assert a in s && b in s;
    assert forall x :: x in ps[..|ps| - 1] ==> x in ps;
  }

  /** The last measure, split off. */
  lemma StepsLast(ps: seq<int>, scale: seq<int>)
    requires |ps| > 1
    ensures var init := Steps(ps[..|ps| - 1], scale);
      var last := Measure(ps[|ps| - 2], ps[|ps| - 1], init.scale);
      Steps(ps, scale) == MeasuredAll(init.steps + [last.step], last.scale)
  {
  }

  /** On a strictly ascending scale holding every pitch, the steps are the scale intervals and the scale stays as it was. */
  lemma {:induction false} StepsOnScale(ps: seq<int>, scale: seq<int>)
    requires StrictlyAscending(scale) && forall x :: x in ps ==> x in scale
    ensures Steps(ps, scale) == MeasuredAll(Intervals(ps, scale), scale)
  {
    if |ps| > 1 {
      var n := |ps|;
      var init := ps[..n - 1];
      var a, b := ps[n - 2], ps[n - 1];
      IntervalsLast(ps, scale);
      var d := IndexOf(scale, b) - IndexOf(scale, a);
      assert Intervals(ps, scale) == Intervals(init, scale) + [d];
      assert Steps(init, scale) == MeasuredAll(Intervals(init, scale), scale) by {
        StepsOnScale(init, scale);
      }
      assert Measure(a, b, scale) == Measured(d, scale) by {
        MeasureOnScale(a, b, scale);
      }
      assert Steps(ps, scale) == MeasuredAll(Intervals(init, scale) + [d], scale) by {
        StepsLast(ps, scale);
      }
    }
  }

  // ---------------------------------------------------------------- similarity

  /** The contour `is_similar` compares. */
  datatype Method = ByDirection | ByOrdinal | ByStep

  /** Whether `_get_contour` keeps an item: a truthy one, so neither a rest, nor the pitch 0, nor an empty cluster. */
  predicate Truthy(e: Event)
  {
    (e.Note? && e.pitch != 0) || (e.Chord? && e.pitches != [])
  }

  /** Whether `max` can compare every cluster: clusters hold pitches only. */
  predicate Comparable(m: PitchLine)
  {
    forall i :: 0 <= i < |m| && m[i].Chord? ==> forall x :: x in m[i].pitches ==> x.Some?
  }

  /** `max` of a nonempty cluster of pitches. */
  function Highest(xs: seq<Option<int>>): (r: int)
    requires xs != [] && forall x :: x in xs ==> x.Some?
    ensures Some(r) in xs && forall x :: x in xs ==> x.value <= r
  {
    if |xs| == 1 then xs[0].value
    else
      assert forall x :: x in xs[1..] ==> x in xs;
      var rest := Highest(xs[1..]);
      if xs[0].value >= rest then xs[0].value else rest
  }

  /** The pitches `_get_contour` reads: the highest pitch of every cluster and every single pitch, skipping falsy items. */
  function Tops(m: PitchLine): (r: seq<int>)
    requires Comparable(m)
    ensures |r| <= |m|
  {
    if m == [] then []
    else
      assert Comparable(m[1..]) by {
        forall i | 0 <= i < |m| - 1 && m[1..][i].Chord? ensures forall x :: x in m[1..][i].pitches ==> x.Some? {
          assert m[1..][i] == m[i + 1];
        }
      }
      assert m[0].Chord? ==> forall x :: x in m[0].pitches ==> x.Some?;
      Top(m[0]) + Tops(m[1..])
  }

  /** What `_get_contour` reads from one item: nothing for a falsy item, else its highest pitch. */
  function Top(e: Event): (r: seq<int>)
    requires e.Chord? ==> forall x :: x in e.pitches ==> x.Some?
    ensures |r| <= 1
  {
    if !Truthy(e) then [] else if e.Note? then [e.pitch] else [Highest(e.pitches)]
  }

  datatype Contoured = Contoured(contour: seq<int>, scale: seq<int>)

  /** `_get_contour` on the extracted pitches, with the pitch list it leaves behind. */
  function Contour(ps: seq<int>, how: Method, scale: seq<int>): (r: Contoured)
    ensures !how.ByStep? ==> r.scale == scale
    ensures |r.contour| == if how.ByOrdinal? then |ps| else if ps == [] then 0 else |ps| - 1
  {
    match how
    case ByDirection => Contoured(Directions(ps), scale)
    case ByOrdinal => Contoured(Ordinals(ps), scale)
    case ByStep => var r := Steps(ps, scale); Contoured(r.steps, r.scale)
  }

  /** The pitch list `is_similar` measures on: the reified classes, or the empty list when none are given. */
  function StartScale(classes: seq<int>): seq<int>
  {
    if classes == [] then [] else Reify(classes)
  }

  /**
   * `is_similar` as written: the prototype's contour is taken along the list
   * the motif's contour has already extended.
   */
  function IsSimilar(m: PitchLine, proto: PitchLine, how: Method, classes: seq<int>): (r: bool)
    requires Comparable(m) && Comparable(proto)
    ensures !how.ByStep? ==> (r <==> IsSimilarFresh(m, proto, how, classes))
    ensures !how.ByStep? && m == proto ==> r
  {
    var a := Contour(Tops(m), how, StartScale(classes));
    var b := Contour(Tops(proto), how, a.scale);
    a.contour == b.contour
  }

  /** `is_similar` with both contours taken along the same starting list. */
  function IsSimilarFresh(m: PitchLine, proto: PitchLine, how: Method, classes: seq<int>): (r: bool)
    requires Comparable(m) && Comparable(proto)
    ensures m == proto ==> r
  {
    Contour(Tops(m), how, StartScale(classes)).contour == Contour(Tops(proto), how, StartScale(classes)).contour
  }

  /** Directions and ordinals do not touch the list, so there the two readings agree. */
  lemma IsSimilarAgrees(m: PitchLine, proto: PitchLine, how: Method, classes: seq<int>)
    requires Comparable(m) && Comparable(proto) && how != ByStep
    ensures IsSimilar(m, proto, how, classes) == IsSimilarFresh(m, proto, how, classes)
  {
  }

  /**
   * With fresh lists every motif is similar to itself by steps, and on a
   * reified scale holding every top pitch two motifs are similar by steps
   * exactly when their top pitches move by the same scale distances.
   */
  lemma IsSimilarFreshSteps(m: PitchLine, proto: PitchLine, classes: seq<int>)
    requires Comparable(m) && Comparable(proto)
    requires classes != [] && Classes(classes) && Distinct(classes)
    requires forall x :: x in Tops(m) ==> x in Reify(classes)
    requires forall x :: x in Tops(proto) ==> x in Reify(classes)
    ensures IsSimilarFresh(m, m, ByStep, classes)
    ensures IsSimilarFresh(m, proto, ByStep, classes) <==>
      Intervals(Tops(m), Reify(classes)) == Intervals(Tops(proto), Reify(classes))
  {
    var s := Reify(classes);
    assert StartScale(classes) == s;
    ReifySpec(classes);
    StepsOnScale(Tops(m), s);
    StepsOnScale(Tops(proto), s);
    assert Contour(Tops(m), ByStep, s).contour == Intervals(Tops(m), s);
    assert Contour(Tops(proto), ByStep, s).contour == Intervals(Tops(proto), s);
  }

  /**
   * When the reified classes already hold every top pitch of both lines,
   * measuring the motif leaves the list as it was: `is_similar` as written
   * then compares the scale intervals of the two lines, as the fresh
   * comparison does.
   */
  lemma IsSimilarStepsOnScale(m: PitchLine, proto: PitchLine, classes: seq<int>)
    requires Comparable(m) && Comparable(proto)
    requires classes != [] && Classes(classes) && Distinct(classes)
    requires forall x :: x in Tops(m) ==> x in Reify(classes)
    requires forall x :: x in Tops(proto) ==> x in Reify(classes)
    ensures IsSimilar(m, proto, ByStep, classes) <==>
      Intervals(Tops(m), Reify(classes)) == Intervals(Tops(proto), Reify(classes))
    ensures IsSimilar(m, proto, ByStep, classes) == IsSimilarFresh(m, proto, ByStep, classes)
  {
    var s := Reify(classes);
    assert StartScale(classes) == s;
    ReifySpec(classes);
    StepsOnScale(Tops(m), s);
    StepsOnScale(Tops(proto), s);
  }

  /** The pitches `_get_contour` reads from a three-item line. */
  lemma TopsLine(m: PitchLine)
    requires |m| == 3 && Comparable(m)
    ensures Tops(m) == Top(m[0]) + Top(m[1]) + Top(m[2])
  {
    assert Comparable(m[2..]) && Tops(m[2..]) == Top(m[2]) by {
      assert m[2..][0] == m[2] && m[2..][1..] == [];
    }
    assert Comparable(m[1..]) && Tops(m[1..]) == Top(m[1]) + Tops(m[2..]) by {
      assert m[1..][0] == m[1] && m[1..][1..] == m[2..];
    }
  }

  /** The examples of the source's tests: the contours `[60, 50, 70]` and `[60, 50, 60]` rise and fall alike but rank differently. */
  lemma IsSimilarExamples(m: PitchLine, proto: PitchLine)
    requires m == [Note(60), Note(50), Chord([Some(70), Some(40)])]
    requires proto == [Note(60), Note(50), Chord([Some(40), Some(60)])]
    ensures Comparable(m) && Comparable(proto)
    ensures IsSimilar(m, proto, ByDirection, [])
    ensures !IsSimilar(m, proto, ByOrdinal, [])
  {
    TopsExamples(m, proto);
    var a, b := Tops(m), Tops(proto);
    assert Directions(a) == Directions(b) by {
      DirectionsSpec(a, 0);
      DirectionsSpec(a, 1);
      DirectionsSpec(b, 0);
      DirectionsSpec(b, 1);
    }
    if Ordinals(a) == Ordinals(b) {
      OrdinalsOrder(a, 0, 2);
      OrdinalsOrder(b, 0, 2);
      assert false;
    }
  }

  /** The pitches `_get_contour` reads from the two lines of the examples above. */
  lemma TopsExamples(m: PitchLine, proto: PitchLine)
    requires m == [Note(60), Note(50), Chord([Some(70), Some(40)])]
    requires proto == [Note(60), Note(50), Chord([Some(40), Some(60)])]
    ensures Comparable(m) && Comparable(proto)
    ensures Tops(m) == [60, 50, 70] && Tops(proto) == [60, 50, 60]
  {
    assert Highest([Some(70), Some(40)]) == 70 by {
      assert [Some(70), Some(40)][1..] == [Some(40)];
    }
    assert Highest([Some(40), Some(60)]) == 60 by {
      assert [Some(40), Some(60)][1..] == [Some(60)];
    }
    assert Comparable(m) && Comparable(proto);
    TopsLine(m);
    TopsLine(proto);
  }

  /** `_get_steps` on two pitches: one measure. */
  lemma StepsTwo(ps: seq<int>, scale: seq<int>)
    requires |ps| == 2
    ensures var first := Measure(ps[0], ps[1], scale);
      Steps(ps, scale) == MeasuredAll([first.step], first.scale)
  {
    assert Steps(ps[..1], scale) == MeasuredAll([], scale);
  }

  /** `_get_steps` on three pitches: two measures, the second along the list the first left. */
  lemma StepsThree(ps: seq<int>, scale: seq<int>)
    requires |ps| == 3
    ensures var first := Measure(ps[0], ps[1], scale);
      var second := Measure(ps[1], ps[2], first.scale);
      Steps(ps, scale) == MeasuredAll([first.step, second.step], second.scale)
  {
    var two := ps[..2];
    var first := Measure(ps[0], ps[1], scale);
    assert two[0] == ps[0] && two[1] == ps[1];
    var init := Steps(two, scale);
    assert init == MeasuredAll([first.step], first.scale) by {
      StepsTwo(two, scale);
    }
    var second := Measure(ps[1], ps[2], first.scale);
    StepsLast(ps, scale);
    assert init.steps + [second.step] == [first.step, second.step];
  }

  /** Measuring 60 to 64 on an empty list. */
  lemma MeasureFirst()
    ensures Measure(60, 64, []) == Measured(1, [60, 64])
  {
    var s := [60, 64];
    assert Add(Add([], 60), 64) == s;
    assert Sort(s) == s by {
      SortAscending(s);
    }
    MeasureSorted(60, 64, [], s, 0, 1);
  }

  /** When the extended list sorts to a strictly ascending `s`, the measure is the distance between the two places in `s`. */
  lemma MeasureSorted(start: int, end: int, scale: seq<int>, s: seq<int>, i: nat, j: nat)
    requires Sort(Add(Add(scale, start), end)) == s && StrictlyAscending(s)
    requires i < |s| && j < |s| && s[i] == start && s[j] == end
    ensures Measure(start, end, scale) == Measured(j - i, s)
  {
    IndexOfStrict(s, i);
    IndexOfStrict(s, j);
  }

  /** Measuring 64 down to 62 on `[60, 64]` inserts the 62. */
  lemma MeasureSecond()
    ensures Measure(64, 62, [60, 64]) == Measured(-1, [60, 62, 64])
  {
    var s := [60, 64];
    assert Add(Add(s, 64), 62) == s + [62];
    assert Sort(s + [62]) == [60, 62, 64] by {
      SortAppend(s, 62);
      SortAscending(s);
      assert s[1..] == [64];
      assert Insert(s, 62) == [60, 62, 64];
    }
    MeasureSorted(64, 62, s, [60, 62, 64], 2, 1);
  }

  /** Measuring 60 to 64 on `[60, 62, 64]` counts the 62 in between. */
  lemma MeasureThird()
    ensures Measure(60, 64, [60, 62, 64]).step == 2
  {
    var s := [60, 62, 64];
    MeasureOnScale(60, 64, s);
    IndexOfStrict(s, 0);
    IndexOfStrict(s, 2);
  }

  /**
   * The as-written reading is not reflexive by steps: `[60, 64, 62]` against
   * itself with no scale measures `[1, -1]`, then `[2, -1]` along the list the
   * first contour left as `[60, 62, 64]`.
   */
  lemma IsSimilarStepsNotReflexive(m: PitchLine)
    requires m == [Note(60), Note(64), Note(62)]
    ensures Comparable(m) && !IsSimilar(m, m, ByStep, [])
  {
    assert Comparable(m);
    TopsExample(m);
    var ps := Tops(m);
    assert StartScale([]) == [];
    var a := Contour(ps, ByStep, []);
    assert a == Contoured([1, -1], [60, 62, 64]) by {
      StepsExample();
    }
    var b := Contour(ps, ByStep, a.scale);
    assert b.contour[0] == 2 by {
      StepsExampleAgain();
    }
  }

  /** The pitches `_get_contour` reads from `[60, 64, 62]`. */
  lemma TopsExample(m: PitchLine)
    requires m == [Note(60), Note(64), Note(62)]
    ensures Comparable(m) && Tops(m) == [60, 64, 62]
  {
    TopsLine(m);
  }

  /** `_get_steps` of `[60, 64, 62]` from no list measures `[1, -1]` and leaves `[60, 62, 64]`. */
  lemma StepsExample()
    ensures Steps([60, 64, 62], []) == MeasuredAll([1, -1], [60, 62, 64])
  {
    StepsThree([60, 64, 62], []);
    MeasureFirst();
    MeasureSecond();
  }

  /** Along `[60, 62, 64]` the same pitches start with a step of 2. */
  lemma StepsExampleAgain()
    ensures Steps([60, 64, 62], [60, 62, 64]).steps[0] == 2
  {
    StepsThree([60, 64, 62], [60, 62, 64]);
    MeasureThird();
  }


}
