/**
 * The scale lattice of the motif engine (ch0p1n/motif.py, lines 24-94).
 *
 * `_reify` turns a list of pitch classes into every pitch of those classes
 * over eleven octaves. `_move` walks such a pitch list by a number of steps;
 * a pitch that is not on the list is first appended to the CALLER's list,
 * which is then re-sorted, so the list passed in grows as pitches are moved
 * along it. That list is a `PitchList` object here, and every operation that
 * changes it is a method whose contract ties the new contents to a pure
 * specification function (`Move`, `MoveSteps`, `Move2`).
 */
module Scale {
  import opened Seqs

  /** The classes raised by `d` semitones: one octave of the reified scale. */
  function Shift(cs: seq<int>, d: int): (r: seq<int>)
    ensures |r| == |cs| && forall k :: 0 <= k < |cs| ==> r[k] == cs[k] + d
  {
    seq(|cs|, k requires 0 <= k < |cs| => cs[k] + d)
  }

  /** The classes over the octaves `0 .. n - 1`, octave by octave. */
  function Octaves(cs: seq<int>, n: nat): (r: seq<int>)
    ensures |r| == n * |cs|
  {
    if n == 0 then [] else Octaves(cs, n - 1) + Shift(cs, 12 * (n - 1))
  }

  /** `_reify`: the sorted classes over eleven octaves. */
  function Reify(classes: seq<int>): (r: seq<int>)
    ensures |r| == 11 * |classes|
  {
    Octaves(Sort(classes), 11)
  }

  /** Every entry is a pitch class, `0 .. 11`. */
  ghost predicate Classes(cs: seq<int>)
  {
    forall k :: 0 <= k < |cs| ==> 0 <= cs[k] < 12
  }

  /** No class is listed twice. */
  ghost predicate Distinct(cs: seq<int>)
  {
    forall x :: multiset(cs)[x] <= 1
  }

  /** Entry `k` of octave `o` is class `k` raised by `o` octaves. */
  lemma {:induction false} OctavesAt(cs: seq<int>, n: nat, o: nat, k: nat)
    requires o < n && k < |cs|
    ensures o * |cs| + k < |Octaves(cs, n)|
    ensures Octaves(cs, n)[o * |cs| + k] == cs[k] + 12 * o
  {
    var lo := Octaves(cs, n - 1);
    assert |lo| == (n - 1) * |cs|;
    if o == n - 1 {
      assert o * |cs| + k == |lo| + k;
    } else {
      OctavesAt(cs, n - 1, o, k);
      assert o * |cs| + k < |lo| by {
        MulLe(o + 1, n - 1, |cs|);
      }
    }
  }

  lemma MulLe(a: nat, b: nat, c: nat)
    requires a <= b
    ensures a * c <= b * c
  {
    assert b * c == a * c + (b - a) * c;
  }

  /** A pitch lies in octave `o` of the classes exactly when it is in that octave's range and its class is listed. */
  lemma ShiftMembers(cs: seq<int>, o: nat, p: int)
    requires Classes(cs)
    ensures p in Shift(cs, 12 * o) <==> 12 * o <= p < 12 * o + 12 && p % 12 in cs
  {
    var top := Shift(cs, 12 * o);
    if p in top {
      var k :| 0 <= k < |top| && top[k] == p;
      assert p == cs[k] + 12 * o;
      assert p % 12 == cs[k];
    }
    if 12 * o <= p < 12 * o + 12 && p % 12 in cs {
      var k :| 0 <= k < |cs| && cs[k] == p % 12;
      assert p == cs[k] + 12 * o;
      assert top[k] == p;
    }
  }

  /** A pitch is reified over `n` octaves exactly when it lies in their range and its class is listed. */
  lemma {:induction false} OctavesMembers(cs: seq<int>, n: nat, p: int)
    requires Classes(cs)
    ensures p in Octaves(cs, n) <==> 0 <= p < 12 * n && p % 12 in cs
  {
    if n > 0 {
      OctavesMembers(cs, n - 1, p);
      ShiftMembers(cs, n - 1, p);
    }
  }

  /** Reified octaves of ascending classes ascend, strictly when the classes do. */
  lemma {:induction false} OctavesAscending(cs: seq<int>, n: nat)
    requires Classes(cs) && Ascending(cs)
    ensures Ascending(Octaves(cs, n))
    ensures StrictlyAscending(cs) ==> StrictlyAscending(Octaves(cs, n))
  {
    if n > 0 {
      OctavesAscending(cs, n - 1);
      var lo, top := Octaves(cs, n - 1), Shift(cs, 12 * (n - 1));
      forall x | x in lo ensures x < 12 * (n - 1) {
        OctavesMembers(cs, n - 1, x);
      }
      var r := lo + top;
      assert forall i :: 0 <= i < |lo| ==> r[i] == lo[i];
      forall i, j | 0 <= i < j < |r| ensures r[i] <= r[j] && (StrictlyAscending(cs) ==> r[i] < r[j]) {
        if j < |lo| {
          assert r[i] == lo[i] && r[j] == lo[j];
        } else if i < |lo| {
          assert r[i] == lo[i] && lo[i] in lo;
          assert r[j] == cs[j - |lo|] + 12 * (n - 1);
        } else {
          assert r[i] == cs[i - |lo|] + 12 * (n - 1);
          assert r[j] == cs[j - |lo|] + 12 * (n - 1);
        }
      }
    }
  }

  /** A value held at two positions is counted at least twice. */
  lemma TwiceCounted(r: seq<int>, i: nat, j: nat)
    requires i < j < |r| && r[i] == r[j]
    ensures multiset(r)[r[j]] >= 2
  {
    assert r == r[..j] + [r[j]] + r[j + 1..];
    assert r[i] in r[..j];
    assert multiset(r) == multiset(r[..j]) + multiset{r[j]} + multiset(r[j + 1..]);
  }

  /** Sorting a list that lists nothing twice gives a strictly ascending list. */
  lemma SortStrict(s: seq<int>)
    requires Distinct(s)
    ensures StrictlyAscending(Sort(s))
  {
    var r := Sort(s);
    SortSpec(s);
    forall i, j | 0 <= i < j < |r| ensures r[i] < r[j] {
      if r[i] == r[j] {
        TwiceCounted(r, i, j);
      }
    }
  }

  /**
   * What `_reify` promises: `11 * |classes|` pitches, `class + 12 * octave`
   * for octaves 0 .. 10, ascending, strictly when no class is listed twice.
   */
  lemma ReifySpec(classes: seq<int>)
    requires Classes(classes)
    ensures |Reify(classes)| == 11 * |classes|
    ensures forall p :: p in Reify(classes) <==> 0 <= p < 132 && p % 12 in classes
    ensures Ascending(Reify(classes))
    ensures Distinct(classes) ==> StrictlyAscending(Reify(classes))
  {
    var cs := Sort(classes);
    SortSpec(classes);
    assert forall x :: x in cs <==> x in classes by {
      assert forall x :: x in cs <==> x in multiset(cs);
      assert forall x :: x in classes <==> x in multiset(classes);
    }
    assert Classes(cs) by {
      forall k | 0 <= k < |cs| ensures 0 <= cs[k] < 12 {
        assert cs[k] in cs;
        var j :| 0 <= j < |classes| && classes[j] == cs[k];
      }
    }
    forall p ensures p in Reify(classes) <==> 0 <= p < 132 && p % 12 in classes {
      OctavesMembers(cs, 11, p);
    }
    OctavesAscending(cs, 11);
    if Distinct(classes) {
      SortStrict(classes);
    }
  }

  /** `_reify` sorts the classes first, so their order does not matter: the same classes give the same pitches. */
  lemma ReifyPermutation(a: seq<int>, b: seq<int>)
    requires multiset(a) == multiset(b)
    ensures Reify(a) == Reify(b)
  {
    SortSpec(b);
    SortUnique(a, Sort(b));
  }

  /** Entry `k` of octave `o` of the reified scale is the `k`-th smallest class plus `12 * o`. */
  lemma ReifyAt(classes: seq<int>, o: nat, k: nat)
    requires o < 11 && k < |classes|
    ensures o * |classes| + k < |Reify(classes)|
    ensures Reify(classes)[o * |classes| + k] == Sort(classes)[k] + 12 * o
  {
    OctavesAt(Sort(classes), 11, o, k);
  }

  /** The mutable pitch list a caller hands to `_reify`, `_move` and `_measure`. */
  class PitchList {
    var items: seq<int>

    constructor (items: seq<int>)
      ensures this.items == items
    {
      this.items := items;
    }
  }

  /** `_reify` on the caller's class list: the list is sorted in place and a new pitch list returned. */
  method ReifyAlong(classes: PitchList) returns (scale: PitchList)
    modifies classes
    ensures classes.items == Sort(old(classes.items))
    ensures fresh(scale) && scale.items == Reify(old(classes.items))
  {
    classes.items := Sort(classes.items);
    scale := new PitchList(Octaves(classes.items, 11));
  }

  /** The scale once `p` is on it: unchanged if it was there, else with `p` appended and the whole re-sorted. */
  function Placed(scale: seq<int>, p: int): (r: seq<int>)
    ensures p in r
  {
    if p in scale then scale
    else
      SortKeeps(scale + [p], p);
      Sort(scale + [p])
  }

  /** Placing `p` adds `p` and nothing else, and leaves a sorted list when it had to add it. */
  lemma PlacedSpec(scale: seq<int>, p: int)
    ensures forall x :: x in Placed(scale, p) <==> x in scale || x == p
    ensures p in scale ==> Placed(scale, p) == scale
    ensures p !in scale ==> Ascending(Placed(scale, p)) && multiset(Placed(scale, p)) == multiset(scale) + multiset{p}
    ensures Placed(Placed(scale, p), p) == Placed(scale, p)
  {
    var r := Placed(scale, p);
    SortSpec(scale + [p]);
    assert forall x :: x in r <==> x in multiset(r);
    assert forall x :: x in scale + [p] <==> x in multiset(scale + [p]);
  }

  /** On an ascending scale, placing an absent pitch is a sorted insertion. */
  lemma PlacedInsert(scale: seq<int>, p: int)
    requires Ascending(scale) && p !in scale
    ensures Placed(scale, p) == Insert(scale, p)
  {
    SortAppend(scale, p);
    SortAscending(scale);
  }

  /** Whether `_move` stays inside the list: the target index is a valid non-negative index. */
  predicate CanMove(pitch: Option<int>, scale: seq<int>, step: Option<int>)
  {
    pitch.None? || step.None? ||
    var s := Placed(scale, pitch.value);
    0 <= IndexOf(s, pitch.value) + step.value < |s|
  }

  /** The outcome of moving pitches: what was produced and what the caller's list has become. */
  datatype Moved = Moved(pitch: Option<int>, scale: seq<int>)

  datatype MovedAll = MovedAll(pitches: seq<Option<int>>, scale: seq<int>)

  /**
   * `_move`: no pitch for a missing pitch or step, or for an off-scale pitch
   * with step 0; otherwise the pitch `step` places away once the pitch is on
   * the scale. The list changes only when an off-scale pitch is moved: it then
   * holds that pitch too, and is sorted.
   */
  function Move(pitch: Option<int>, scale: seq<int>, step: Option<int>): (r: Moved)
    requires CanMove(pitch, scale, step)
    ensures r.pitch.None? <==> pitch.None? || step.None? || (pitch.value !in scale && step.value == 0)
    ensures r.pitch.None? || pitch.value in scale ==> r.scale == scale
    ensures r.pitch.Some? ==> r.scale == Placed(scale, pitch.value)
  {
    if pitch.None? || step.None? then Moved(None, scale)
    else if pitch.value !in scale && step.value == 0 then Moved(None, scale)
    else
      var s := Placed(scale, pitch.value);
      Moved(Some(s[IndexOf(s, pitch.value) + step.value]), s)
  }

  /**
   * What the caller's list holds after `_move`: the moved pitch and its
   * target are on it, and moving an off-scale pitch added exactly that pitch
   * and left the list sorted.
   */
  lemma MoveSpec(pitch: Option<int>, scale: seq<int>, step: Option<int>)
    requires CanMove(pitch, scale, step)
    ensures var r := Move(pitch, scale, step);
      r.pitch.Some? ==> pitch.value in r.scale && r.pitch.value in r.scale
    ensures var r := Move(pitch, scale, step);
      r.pitch.Some? && pitch.value !in scale ==>
        Ascending(r.scale) && multiset(r.scale) == multiset(scale) + multiset{pitch.value}
    ensures pitch.Some? ==> Placed(Move(pitch, scale, step).scale, pitch.value) == Placed(scale, pitch.value)
  {
    if pitch.Some? {
      PlacedSpec(scale, pitch.value);
    }
  }

  /** `_move` on the caller's list, which it may extend. */
  method MoveAlong(pitch: Option<int>, scale: PitchList, step: Option<int>) returns (r: Option<int>)
    requires CanMove(pitch, scale.items, step)
    modifies scale
    ensures Moved(r, scale.items) == Move(pitch, old(scale.items), step)
  {
    if pitch.None? || step.None? {
      return None;
    }
    var p, k := pitch.value, step.value;
    if p !in scale.items {
      if k == 0 {
        return None;
      }
      scale.items := scale.items + [p];
      scale.items := Sort(scale.items);
    }
    var i := IndexOf(scale.items, p);
    r := Some(scale.items[i + k]);
  }

  /** On a strictly ascending scale, moving an on-scale pitch by `k` lands `k` entries away, for every `k` in range. */
  lemma MoveOnScale(scale: seq<int>, i: nat, k: int)
    requires StrictlyAscending(scale) && i < |scale| && 0 <= i + k < |scale|
    ensures CanMove(Some(scale[i]), scale, Some(k))
    ensures Move(Some(scale[i]), scale, Some(k)) == Moved(Some(scale[i + k]), scale)
  {
    IndexOfStrict(scale, i);
  }

  /** Along a strictly ascending scale, one pitch on it moves to another by the difference of their places. */
  lemma MoveBetween(scale: seq<int>, p: int, q: int)
    requires StrictlyAscending(scale) && p in scale && q in scale
    ensures var k := IndexOf(scale, q) - IndexOf(scale, p);
      CanMove(Some(p), scale, Some(k)) && Move(Some(p), scale, Some(k)) == Moved(Some(q), scale)
  {
    var i := IndexOf(scale, p);
    MoveOnScale(scale, i, IndexOf(scale, q) - i);
  }

  /** Moving an on-scale pitch `k` steps and then `-k` steps returns it, leaving the scale as it was. */
  lemma MoveRoundTrip(scale: seq<int>, p: int, k: int)
    requires StrictlyAscending(scale) && p in scale
    requires CanMove(Some(p), scale, Some(k))
    ensures Move(Some(p), scale, Some(k)).pitch.Some?
    ensures var q := Move(Some(p), scale, Some(k)).pitch.value;
      CanMove(Some(q), scale, Some(-k)) && Move(Some(q), scale, Some(-k)) == Moved(Some(p), scale)
  {
    var i := IndexOf(scale, p);
    MoveOnScale(scale, i, k);
    MoveOnScale(scale, i + k, -k);
  }

  /** Inserting an absent pitch into a strictly ascending list keeps it strictly ascending, with the pitch at its insertion point. */
  lemma InsertStrict(scale: seq<int>, p: int)
    requires StrictlyAscending(scale) && p !in scale
    ensures var c := InsertionPoint(scale, p);
      (forall j :: 0 <= j < c ==> scale[j] < p) && (forall j :: c <= j < |scale| ==> p < scale[j])
    ensures var c := InsertionPoint(scale, p);
      Insert(scale, p) == scale[..c] + [p] + scale[c..] && IndexOf(Insert(scale, p), p) == c
    ensures StrictlyAscending(Insert(scale, p))
  {
    var c := InsertionPoint(scale, p);
    InsertionPointBounds(scale, p);
    var s := Insert(scale, p);
    assert s == scale[..c] + [p] + scale[c..] by {
      InsertSplit(scale, p);
    }
    forall j | c <= j < |scale| ensures p < scale[j] {
      assert scale[c] <= scale[j] && scale[j] != p;
    }
    forall i, j | 0 <= i < j < |s| ensures s[i] < s[j] {
      InsertIndex(scale, p, i);
      InsertIndex(scale, p, j);
    }
    IndexOfStrict(s, c);
  }

  /**
   * Moving an off-scale pitch by a nonzero `k` on a strictly ascending scale:
   * with `c` the number of scale pitches below it, a step up reaches the
   * `k`-th scale pitch above it and a step down the `|k|`-th below it; the
   * scale becomes the sorted insertion of the pitch, still strictly ascending.
   */
  lemma MoveOffScale(scale: seq<int>, p: int, k: int)
    requires StrictlyAscending(scale) && p !in scale && k != 0
    ensures var c := InsertionPoint(scale, p);
      CanMove(Some(p), scale, Some(k)) <==> (if k > 0 then c + k - 1 < |scale| else 0 <= c + k)
    ensures var c := InsertionPoint(scale, p);
      (if k > 0 then c + k - 1 < |scale| else 0 <= c + k) ==>
        CanMove(Some(p), scale, Some(k)) &&
        Move(Some(p), scale, Some(k)) == Moved(Some(if k > 0 then scale[c + k - 1] else scale[c + k]), Insert(scale, p))
  {
    var c, s := InsertionPoint(scale, p), Insert(scale, p);
    assert Placed(scale, p) == s && IndexOf(s, p) == c by {
      InsertStrict(scale, p);
      PlacedInsert(scale, p);
    }
    if 0 <= c + k < |s| {
      var t := if k > 0 then scale[c + k - 1] else scale[c + k];
      assert s[c + k] == t by {
        InsertAround(scale, p, k);
      }
      MoveIs(scale, p, k, s, c);
    }
  }

  /** A pitch placed at `c` of `s` moves to the entry `k` places from there, and the list becomes `s`. */
  lemma MoveIs(scale: seq<int>, p: int, k: int, s: seq<int>, c: nat)
    requires (p !in scale ==> k != 0) && Placed(scale, p) == s && IndexOf(s, p) == c && 0 <= c + k < |s|
    ensures CanMove(Some(p), scale, Some(k)) && Move(Some(p), scale, Some(k)) == Moved(Some(s[c + k]), s)
  {
  }

  /** Around its insertion point, the list with `p` inserted holds the old entries shifted by one above `p`. */
  lemma InsertAround(scale: seq<int>, p: int, k: int)
    requires 0 <= InsertionPoint(scale, p) + k <= |scale| && k != 0
    ensures var c := InsertionPoint(scale, p);
      Insert(scale, p)[c + k] == if k > 0 then scale[c + k - 1] else scale[c + k]
  {
    InsertSplit(scale, p);
  }

  /** The examples of the source's tests: moving 60 along the reified class `[11]`. */
  lemma MoveExamples()
    ensures CanMove(Some(60), Reify([11]), Some(-1)) && Move(Some(60), Reify([11]), Some(-1)).pitch == Some(59)
    ensures CanMove(Some(60), Reify([11]), Some(1)) && Move(Some(60), Reify([11]), Some(1)).pitch == Some(71)
    ensures Move(Some(60), Reify([11]), Some(0)).pitch == None
    ensures Move(None, Reify([11]), Some(1)).pitch == None
  {
    var scale := Reify([11]);
    ReifyExample11();
    MoveOffScale(scale, 60, -1);
    MoveOffScale(scale, 60, 1);
  }

  /** The reified class `[11]`: the pitches `11 + 12 * o`, of which the five below 60 come first. */
  lemma ReifyExample11()
    ensures |Reify([11])| == 11 && StrictlyAscending(Reify([11])) && 60 !in Reify([11])
    ensures Reify([11])[4] == 59 && Reify([11])[5] == 71
    ensures InsertionPoint(Reify([11]), 60) == 5
  {
    var scale := Reify([11]);
    ReifySingle(11);
    assert scale[4] == 59 && scale[5] == 71;
    assert 60 !in scale by {
      forall o | 0 <= o < 11 ensures scale[o] != 60 {
        assert scale[o] == 11 + 12 * o;
      }
    }
    InsertionPointUnique(scale, 60, 5);
  }

  /** A single reified class `c`: the eleven pitches `c + 12 * o`, in ascending order. */
  lemma ReifySingle(c: int)
    requires 0 <= c < 12
    ensures var s := Reify([c]);
      |s| == 11 && StrictlyAscending(s) && forall o :: 0 <= o < 11 ==> s[o] == c + 12 * o
  {
    ReifySpec([c]);
    assert Sort([c]) == [c];
    assert Distinct([c]) by {
      assert forall x :: multiset([c])[x] == if x == c then 1 else 0;
    }
    forall o | 0 <= o < 11 ensures Reify([c])[o] == c + 12 * o {
      ReifyAt([c], o, 0);
    }
  }

  /** Whether every step in `steps` stays on the scale once `p` has been placed on it. */
  predicate InRange(p: int, scale: seq<int>, steps: seq<Option<int>>)
  {
    var s := Placed(scale, p);
    forall step :: step in steps && step.Some? ==> 0 <= IndexOf(s, p) + step.value < |s|
  }

  /**
   * The pitch `p` moved by each of `steps` in turn, along a list that each
   * move may extend (the comprehension of `_move2`).
   */
  function MoveSteps(p: int, scale: seq<int>, steps: seq<Option<int>>): (r: MovedAll)
    requires InRange(p, scale, steps)
    ensures |r.pitches| == |steps|
    ensures Placed(r.scale, p) == Placed(scale, p)
    ensures r.scale == scale || r.scale == Placed(scale, p)
  {
    if steps == [] then MovedAll([], scale)
    else
      var init := MoveSteps(p, scale, steps[..|steps| - 1]);
      assert steps[|steps| - 1] in steps;
      var last := Move(Some(p), init.scale, steps[|steps| - 1]);
      MovedAll(init.pitches + [last.pitch], last.scale)
  }

  /** `steps` without the zero steps (`[step for step in steps if step != 0]`). */
  function NonZero(steps: seq<Option<int>>): (r: seq<Option<int>>)
    ensures forall step :: step in r <==> step in steps && step != Some(0)
    ensures |r| <= |steps|
  {
    if steps == [] then []
    else (if steps[0] == Some(0) then [] else [steps[0]]) + NonZero(steps[1..])
  }

  /** Whether `_move2` stays inside the list for every step. */
  predicate CanMove2(pitch: Option<int>, scale: seq<int>, steps: seq<Option<int>>)
  {
    pitch.None? || InRange(pitch.value, scale, steps)
  }

  /** The steps `_move2` keeps: all of them, or, for an off-scale pitch, the nonzero ones. */
  function Kept(p: int, scale: seq<int>, steps: seq<Option<int>>): seq<Option<int>>
  {
    if p !in scale && Some(0) in steps then NonZero(steps) else steps
  }

  /**
   * `_move2`: `[None]` for a missing pitch; otherwise one result per kept
   * step, in step order, where an off-scale pitch drops its zero steps first
   * (which may leave no result at all).
   */
  function Move2(pitch: Option<int>, scale: seq<int>, steps: seq<Option<int>>): (r: MovedAll)
    requires CanMove2(pitch, scale, steps)
    ensures pitch.None? ==> r == MovedAll([None], scale)
    ensures pitch.Some? && pitch.value in scale ==> |r.pitches| == |steps| && r.scale == scale
    ensures pitch.Some? && pitch.value !in scale ==> |r.pitches| == |NonZero(steps)|
    ensures pitch.Some? ==> Placed(r.scale, pitch.value) == Placed(scale, pitch.value)
  {
    if pitch.None? then MovedAll([None], scale)
    else
      var kept := Kept(pitch.value, scale, steps);
      assert pitch.value !in scale && Some(0) !in steps ==> NonZero(steps) == steps by {
        if pitch.value !in scale && Some(0) !in steps {
          NonZeroUnchanged(steps);
        }
      }
      if kept == [] then MovedAll([], scale)
      else MoveSteps(pitch.value, scale, kept)
  }

  lemma {:induction false} NonZeroUnchanged(steps: seq<Option<int>>)
    requires Some(0) !in steps
    ensures NonZero(steps) == steps
  {
    if steps != [] {
      assert forall step :: step in steps[1..] ==> step in steps;
      NonZeroUnchanged(steps[1..]);
    }
  }

  /** `_move2` on the caller's list: the zero steps are dropped first, then each step moves the pitch along the list. */
  method Move2Along(pitch: Option<int>, scale: PitchList, steps: seq<Option<int>>) returns (r: seq<Option<int>>)
    requires CanMove2(pitch, scale.items, steps)
    modifies scale
    ensures MovedAll(r, scale.items) == Move2(pitch, old(scale.items), steps)
  {
    if pitch.None? {
      return [None];
    }
    var p := pitch.value;
    var kept := steps;
    if p !in scale.items && Some(0) in steps {
      kept := NonZero(steps);
    }
    if kept == [] {
      return [];
    }
    ghost var start := scale.items;
    assert InRange(p, start, kept);
    r := [];
    for k := 0 to |kept|
      invariant InRange(p, start, kept[..k])
      invariant MovedAll(r, scale.items) == MoveSteps(p, start, kept[..k])
    {
      MoveStepsNext(p, start, kept, k, scale.items);
      var q := MoveAlong(pitch, scale, kept[k]);
      r := r + [q];
    }
    assert kept[..|kept|] == kept;
  }

  /** The steps up to `k + 1` stay in range, and the last of them is step `k`. */
  lemma InRangeNext(p: int, scale: seq<int>, steps: seq<Option<int>>, k: nat)
    requires InRange(p, scale, steps) && k < |steps|
    ensures InRange(p, scale, steps[..k + 1]) && CanMove(Some(p), Placed(scale, p), steps[k])
    ensures steps[..k + 1][..k] == steps[..k] && steps[..k + 1][k] == steps[k]
  {
    assert steps[k] in steps;
    assert forall step :: step in steps[..k + 1] ==> step in steps;
    PlacedSpec(scale, p);
  }

  /** One more step of `MoveSteps` moves the pitch along the list the earlier steps left. */
  lemma MoveStepsNext(p: int, scale: seq<int>, steps: seq<Option<int>>, k: nat, cur: seq<int>)
    requires InRange(p, scale, steps) && k < |steps| && InRange(p, scale, steps[..k])
    requires cur == MoveSteps(p, scale, steps[..k]).scale
    ensures InRange(p, scale, steps[..k + 1]) && CanMove(Some(p), cur, steps[k])
    ensures var last := Move(Some(p), cur, steps[k]);
      MoveSteps(p, scale, steps[..k + 1]) == MovedAll(MoveSteps(p, scale, steps[..k]).pitches + [last.pitch], last.scale)
  {
    InRangeNext(p, scale, steps, k);
    assert Placed(cur, p) == Placed(scale, p);
  }

  /** The pitch an on-scale pitch reaches by one step, or none for a missing step. */
  function Target(s: seq<int>, p: int, step: Option<int>): Option<int>
    requires p in s && (step.Some? ==> 0 <= IndexOf(s, p) + step.value < |s|)
  {
    if step.None? then None else Some(s[IndexOf(s, p) + step.value])
  }

  /** Whether some step is a number (a `None` step moves nothing and places nothing). */
  predicate AnyNumber(steps: seq<Option<int>>)
  {
    exists step :: step in steps && step.Some?
  }

  /** The last move of a run of steps starts from the pitch's place on the scale. */
  lemma MoveLast(p: int, scale: seq<int>, cur: seq<int>, step: Option<int>)
    requires cur == scale || cur == Placed(scale, p)
    requires p !in scale ==> step != Some(0)
    requires step.Some? ==> 0 <= IndexOf(Placed(scale, p), p) + step.value < |Placed(scale, p)|
    ensures CanMove(Some(p), cur, step)
    ensures Move(Some(p), cur, step).pitch == Target(Placed(scale, p), p, step)
    ensures Move(Some(p), cur, step).scale == if step.Some? then Placed(scale, p) else cur
  {
    var s := Placed(scale, p);
    if step.Some? {
      var c := IndexOf(s, p);
      assert Placed(cur, p) == s;
      MoveIs(cur, p, step.value, s, c);
      assert Target(s, p, step) == Some(s[c + step.value]);
    } else {
      assert Move(Some(p), cur, step) == Moved(None, cur);
    }
  }

  /** Dropping the last step keeps the steps in range, and keeps out the zero step when it was out. */
  lemma InRangeInit(p: int, scale: seq<int>, steps: seq<Option<int>>)
    requires InRange(p, scale, steps) && steps != []
    ensures InRange(p, scale, steps[..|steps| - 1])
    ensures Some(0) !in steps ==> Some(0) !in steps[..|steps| - 1]
    ensures steps[|steps| - 1] in steps
  {
    assert forall step :: step in steps[..|steps| - 1] ==> step in steps;
  }

  lemma SnocAt<T>(a: seq<T>, b: seq<T>, k: nat)
    requires |b| == |a| + 1 && b[..|a|] == a && k < |a|
    ensures b[k] == a[k]
  {
    assert b[..|a|][k] == b[k];
  }

  /** One more step adds its move, from the pitch's place on the scale, to the end. */
  lemma MoveStepsSnoc(p: int, scale: seq<int>, steps: seq<Option<int>>)
    requires InRange(p, scale, steps) && (p !in scale ==> Some(0) !in steps) && steps != []
    ensures var init, last := steps[..|steps| - 1], steps[|steps| - 1];
      InRange(p, scale, init) &&
      MoveSteps(p, scale, steps).pitches[..|steps| - 1] == MoveSteps(p, scale, init).pitches &&
      MoveSteps(p, scale, steps).pitches[|steps| - 1] == Target(Placed(scale, p), p, last) &&
      MoveSteps(p, scale, steps).scale == if last.Some? then Placed(scale, p) else MoveSteps(p, scale, init).scale
  {
    InRangeInit(p, scale, steps);
    var init, last := steps[..|steps| - 1], steps[|steps| - 1];
    MoveLast(p, scale, MoveSteps(p, scale, init).scale, last);
  }

  /**
   * Every step moves the pitch from its place on the scale it has once
   * placed: the moves of one call never disturb each other.
   */
  lemma {:induction false} MoveStepsSpec(p: int, scale: seq<int>, steps: seq<Option<int>>)
    requires InRange(p, scale, steps) && (p !in scale ==> Some(0) !in steps)
    ensures var r := MoveSteps(p, scale, steps);
      forall k :: 0 <= k < |steps| ==> steps[k] in steps && r.pitches[k] == Target(Placed(scale, p), p, steps[k])
  {
    forall k | 0 <= k < |steps| ensures steps[k] in steps && MoveSteps(p, scale, steps).pitches[k] == Target(Placed(scale, p), p, steps[k]) {
      MoveStepsAt(p, scale, steps, k);
    }
  }

  /** Move `k` of `MoveSteps` is the target of step `k` from the pitch's place on the scale. */
  lemma {:induction false} MoveStepsAt(p: int, scale: seq<int>, steps: seq<Option<int>>, k: nat)
    requires InRange(p, scale, steps) && (p !in scale ==> Some(0) !in steps) && k < |steps|
    ensures steps[k] in steps && MoveSteps(p, scale, steps).pitches[k] == Target(Placed(scale, p), p, steps[k])
    decreases |steps|
  {
    var n := |steps|;
    var init := steps[..n - 1];
    InRangeInit(p, scale, steps);
    MoveStepsSnoc(p, scale, steps);
    if k < n - 1 {
      MoveStepsAt(p, scale, init, k);
      var r, ri := MoveSteps(p, scale, steps).pitches, MoveSteps(p, scale, init).pitches;
      SnocAt(ri, r, k);
      assert init[k] == steps[k];
    }
  }

  /** The list ends up holding the pitch exactly when some step was a number. */
  lemma {:induction false} MoveStepsScale(p: int, scale: seq<int>, steps: seq<Option<int>>)
    requires InRange(p, scale, steps) && (p !in scale ==> Some(0) !in steps)
    ensures MoveSteps(p, scale, steps).scale == if AnyNumber(steps) then Placed(scale, p) else scale
  {
    if steps != [] {
      var n := |steps|;
      var init, last := steps[..n - 1], steps[n - 1];
      InRangeInit(p, scale, steps);
      MoveStepsSnoc(p, scale, steps);
      MoveStepsScale(p, scale, init);
      AnyNumberSnoc(steps);
    }
  }

  lemma AnyNumberSnoc(steps: seq<Option<int>>)
    requires steps != []
    ensures AnyNumber(steps) <==> AnyNumber(steps[..|steps| - 1]) || steps[|steps| - 1].Some?
  {
    assert steps == steps[..|steps| - 1] + [steps[|steps| - 1]];
  }

  /** What `_move2` computes: the moves by the kept steps, each taken from the pitch's place on the scale. */
  lemma Move2Spec(p: int, scale: seq<int>, steps: seq<Option<int>>)
    requires InRange(p, scale, steps)
    ensures var r := Move2(Some(p), scale, steps); var kept := Kept(p, scale, steps);
      |r.pitches| == |kept| &&
      forall k :: 0 <= k < |kept| ==> kept[k] in steps && r.pitches[k] == Target(Placed(scale, p), p, kept[k])
  {
    var kept := Kept(p, scale, steps);
    assert forall step :: step in kept ==> step in steps;
    if p !in scale && Some(0) !in steps {
      NonZeroUnchanged(steps);
    }
    if kept != [] {
      MoveStepsSpec(p, scale, kept);
    }
  }

  /** The steps `[-1, 0, 1]` stay on the list for an off-scale pitch with a neighbour on each side. */
  lemma NeighboursInRange(scale: seq<int>, p: int)
    requires StrictlyAscending(scale) && p !in scale
    requires 0 < InsertionPoint(scale, p) < |scale|
    ensures InRange(p, scale, [Some(-1), Some(0), Some(1)])
    ensures var c := InsertionPoint(scale, p);
      Target(Placed(scale, p), p, Some(-1)) == Some(scale[c - 1]) &&
      Target(Placed(scale, p), p, Some(1)) == Some(scale[c])
  {
    var steps, c := [Some(-1), Some(0), Some(1)], InsertionPoint(scale, p);
    var s := Placed(scale, p);
    assert s == Insert(scale, p) && IndexOf(s, p) == c by {
      InsertStrict(scale, p);
      PlacedInsert(scale, p);
    }
    InsertAround(scale, p, -1);
    InsertAround(scale, p, 1);
    forall step | step in steps && step.Some? ensures 0 <= IndexOf(s, p) + step.value < |s| {
      assert step == Some(-1) || step == Some(0) || step == Some(1);
    }
  }

  /** An off-scale pitch led by the steps `[-1, 0, 1]` yields its two scale neighbours, below and above. */
  lemma Move2Neighbours(scale: seq<int>, p: int)
    requires StrictlyAscending(scale) && p !in scale
    requires 0 < InsertionPoint(scale, p) < |scale|
    ensures CanMove2(Some(p), scale, [Some(-1), Some(0), Some(1)])
    ensures var c := InsertionPoint(scale, p);
      Move2(Some(p), scale, [Some(-1), Some(0), Some(1)]).pitches == [Some(scale[c - 1]), Some(scale[c])]
  {
    var steps := [Some(-1), Some(0), Some(1)];
    NeighboursInRange(scale, p);
    var kept := Kept(p, scale, steps);
    assert kept == [Some(-1), Some(1)] by {
      assert NonZero(steps) == [Some(-1), Some(1)];
    }
    Move2Pair(p, scale, steps, Some(-1), Some(1));
  }

  /** When `_move2` keeps two steps, it yields their two targets in order. */
  lemma Move2Pair(p: int, scale: seq<int>, steps: seq<Option<int>>, a: Option<int>, b: Option<int>)
    requires InRange(p, scale, steps) && Kept(p, scale, steps) == [a, b]
    ensures var s := Placed(scale, p);
      p in s && a in steps && b in steps &&
      (a.Some? ==> 0 <= IndexOf(s, p) + a.value < |s|) && (b.Some? ==> 0 <= IndexOf(s, p) + b.value < |s|) &&
      Move2(Some(p), scale, steps).pitches == [Target(s, p, a), Target(s, p, b)]
  {
    var kept, s := Kept(p, scale, steps), Placed(scale, p);
    Move2Spec(p, scale, steps);
    PlacedSpec(scale, p);
    assert kept[0] == a && kept[1] == b;
    var r := Move2(Some(p), scale, steps).pitches;
    var x, y := r[0], r[1];
    assert x == Target(s, p, a) && y == Target(s, p, b);
    PairSplit(r);
  }

  /** The example of the source's tests: `_move2(60, _reify([11]), [-1, 0, 1]) == [59, 71]`. */
  lemma Move2Example(scale: seq<int>)
    requires scale == Reify([11])
    ensures CanMove2(Some(60), scale, [Some(-1), Some(0), Some(1)])
    ensures Move2(Some(60), scale, [Some(-1), Some(0), Some(1)]).pitches == [Some(59), Some(71)]
  {
    ReifyExample11();
    Move2Neighbours(scale, 60);
  }
}
