/**
 * ch0p1n/select.py: the earlier completeness test on a multi-line motif.
 * Excluded positions are blanked on a copy of the motif, one `modify` at a
 * time; then every flat pitch that is not `None` is heard by its class. Unlike
 * motif.py's `_is_complete`, it tests `is not None`, so the pitch 0 is heard.
 */
module Select {
  import opened Seqs
  import opened Structure
  import opened Lines
  import Checks

  /** The classes `is_complete` hears: `pitch % 12` of every pitch that is not `None`. */
  function Heard(ps: seq<Option<int>>): set<int>
  {
    set k | 0 <= k < |ps| && ps[k].Some? :: ps[k].value % 12
  }

  /** `set(pitch_classes) >= set(harmony)`. */
  predicate IsCompleteFlat(ps: seq<Option<int>>, harmony: seq<int>)
  {
    forall c :: c in harmony ==> c in Heard(ps)
  }

  /** A class is heard exactly when some pitch of that class is present. */
  lemma HeardSpec(ps: seq<Option<int>>, c: int)
    ensures c in Heard(ps) <==> exists p :: Some(p) in ps && p % 12 == c
  {
    if c in Heard(ps) {
      var k :| 0 <= k < |ps| && ps[k].Some? && ps[k].value % 12 == c;
      assert Some(ps[k].value) in ps;
    }
    if exists p :: Some(p) in ps && p % 12 == c {
      var p :| Some(p) in ps && p % 12 == c;
      var k :| 0 <= k < |ps| && ps[k] == Some(p);
      assert ps[k].value % 12 == c;
    }
  }

  /**
   * This test hears everything motif.py's does, and the two hear the same
   * classes when no pitch is 0.
   */
  lemma HeardSounding(ps: seq<Option<int>>)
    ensures Checks.Sounding(ps) <= Heard(ps)
    ensures Some(0) !in ps ==> Checks.Sounding(ps) == Heard(ps)
  {
    forall c | c in Checks.Sounding(ps) ensures c in Heard(ps) {
      var k :| 0 <= k < |ps| && ps[k].Some? && ps[k].value != 0 && ps[k].value % 12 == c;
    }
    if Some(0) !in ps {
      forall c | c in Heard(ps) ensures c in Checks.Sounding(ps) {
        var k :| 0 <= k < |ps| && ps[k].Some? && ps[k].value % 12 == c;
        assert ps[k] != Some(0);
      }
    }
  }

  /** On a motif that sounds the pitch 0, the two tests part: `[[0]]` completes `[0]` here only. */
  lemma ZeroHeard(ms: Motif)
    requires ms == [[Note(0)]]
    ensures IsCompleteFlat(Flatten(ms), [0])
    ensures !Checks.IsCompleteFlat(Flatten(ms), [0])
  {
    var ps := Flatten(ms);
    assert ps == [Some(0)] by {
      FlattenOne(ms[0]);
      assert ms[0][1..] == [];
    }
    assert ps[0].value % 12 == 0;
    assert 0 in Heard(ps);
    assert 0 !in Checks.Sounding(ps);
  }

  /** Whether every exclusion can be written in turn: `modify` fails on an entry of an item that is not a cluster. */
  predicate CanExclude(ms: Motif, exclude: seq<At>)
    decreases |exclude|
  {
    exclude == [] ||
    (CanModifyAt(ms, exclude[0]) && CanExclude(ModifyAt(ms, exclude[0], None), exclude[1..]))
  }

  /** The motif with `None` written at every excluded position, in order. */
  function Excluded(ms: Motif, exclude: seq<At>): (r: Motif)
    requires CanExclude(ms, exclude)
    ensures |r| == |ms| && forall l :: 0 <= l < |ms| ==> |r[l]| == |ms[l]|
    decreases |exclude|
  {
    if exclude == [] then ms
    else Excluded(ModifyAt(ms, exclude[0], None), exclude[1..])
  }

  /**
   * select.py's `is_complete`: the excluded positions are blanked on a copy
   * of the motif, one `modify` at a time, and the copy's pitches are checked.
   */
  method IsComplete(ms: Motif, harmony: seq<int>, exclude: seq<At>) returns (b: bool)
    requires CanExclude(ms, exclude)
    ensures b == IsCompleteFlat(Flatten(Excluded(ms, exclude)), harmony)
  {
    var motif := ms;
    if exclude != [] {
      for k := 0 to |exclude|
        invariant CanExclude(motif, exclude[k..]) && Excluded(motif, exclude[k..]) == Excluded(ms, exclude)
      {
        assert exclude[k..][1..] == exclude[k + 1..];
        motif := ModifyAt(motif, exclude[k], None);
      }
    }
    b := IsCompleteFlat(Flatten(motif), harmony);
  }

  /** A value present in a motif's flat pitches comes from one of its lines. */
  lemma {:induction false} FlattenHas(ms: Motif, x: Option<int>)
    ensures x in Flatten(ms) <==> exists l :: 0 <= l < |ms| && x in Extract(ms[l])
  {
    if ms != [] {
      FlattenHas(ms[1..], x);
      if exists l :: 0 <= l < |ms[1..]| && x in Extract(ms[1..][l]) {
        var l :| 0 <= l < |ms[1..]| && x in Extract(ms[1..][l]);
        assert ms[1..][l] == ms[l + 1];
      }
      if exists l :: 0 < l < |ms| && x in Extract(ms[l]) {
        var l :| 0 < l < |ms| && x in Extract(ms[l]);
        assert ms[1..][l - 1] == ms[l];
      }
    }
  }

  /** Blanking one position leaves no pitch that was not there before. */
  lemma BlankKeepsPitches(ms: Motif, a: At, x: Option<int>)
    requires CanModifyAt(ms, a) && x.Some? && x in Flatten(ModifyAt(ms, a, None))
    ensures x in Flatten(ms)
  {
    var r := ModifyAt(ms, a, None);
    FlattenHas(r, x);
    FlattenHas(ms, x);
    var l :| 0 <= l < |r| && x in Extract(r[l]);
    if l == a.line {
      assert r[l] == Modify(ms[l], a.pos, None);
      Checks.BlankKeepsPitches(ms[l], a.pos, x);
    } else {
      assert r[l] == ms[l];
    }
  }

  /** Fewer pitches are heard as fewer classes. */
  lemma HeardSubset(xs: seq<Option<int>>, ys: seq<Option<int>>)
    requires forall x :: x in xs && x.Some? ==> x in ys
    ensures Heard(xs) <= Heard(ys)
  {
    forall c | c in Heard(xs) ensures c in Heard(ys) {
      var k :| 0 <= k < |xs| && xs[k].Some? && xs[k].value % 12 == c;
      assert xs[k] in ys;
      var k2 :| 0 <= k2 < |ys| && ys[k2] == xs[k];
      assert ys[k2].value % 12 == c;
    }
  }

  /** One exclusion can only shrink the classes heard. */
  lemma ExcludeOne(ms: Motif, a: At)
    requires CanModifyAt(ms, a)
    ensures Heard(Flatten(ModifyAt(ms, a, None))) <= Heard(Flatten(ms))
  {
    var r := ModifyAt(ms, a, None);
    forall x | x in Flatten(r) && x.Some? ensures x in Flatten(ms) {
      BlankKeepsPitches(ms, a, x);
    }
    HeardSubset(Flatten(r), Flatten(ms));
  }

  /** Exclusions can only shrink the classes heard. */
  lemma {:induction false} ExcludeShrinks(ms: Motif, exclude: seq<At>)
    requires CanExclude(ms, exclude)
    ensures Heard(Flatten(Excluded(ms, exclude))) <= Heard(Flatten(ms))
    decreases |exclude|
  {
    if exclude != [] {
      ExcludeOne(ms, exclude[0]);
      ExcludeShrinks(ModifyAt(ms, exclude[0], None), exclude[1..]);
    }
  }

  /** Excluding one list and then another is excluding the two one after the other. */
  lemma {:induction false} ExcludedConcat(ms: Motif, exclude: seq<At>, more: seq<At>)
    requires CanExclude(ms, exclude + more)
    ensures CanExclude(ms, exclude) && CanExclude(Excluded(ms, exclude), more)
    ensures Excluded(ms, exclude + more) == Excluded(Excluded(ms, exclude), more)
    decreases |exclude|
  {
    if exclude == [] {
      assert exclude + more == more;
    } else {
      assert (exclude + more)[0] == exclude[0];
      assert (exclude + more)[1..] == exclude[1..] + more;
      ExcludedConcat(ModifyAt(ms, exclude[0], None), exclude[1..], more);
    }
  }

  /** Adding exclusions never turns an incomplete motif into a complete one. */
  lemma ExcludeMonotone(ms: Motif, harmony: seq<int>, exclude: seq<At>, more: seq<At>)
    requires CanExclude(ms, exclude + more)
    ensures CanExclude(ms, exclude)
    ensures IsCompleteFlat(Flatten(Excluded(ms, exclude + more)), harmony) ==>
            IsCompleteFlat(Flatten(Excluded(ms, exclude)), harmony)
  {
    ExcludedConcat(ms, exclude, more);
    ExcludeShrinks(Excluded(ms, exclude), more);
  }

  /** The examples of the source's tests: `[[60, None, 62], [64, 67]]` completes `{0, 4, 7}`, but not once the 64 is excluded. */
  lemma IsCompleteExamples(ms: Motif)
    requires ms == [[Note(60), Rest, Note(62)], [Note(64), Note(67)]]
    ensures IsCompleteFlat(Flatten(Excluded(ms, [])), [0, 4, 7])
    ensures CanExclude(ms, [At(1, Item(0))])
    ensures !IsCompleteFlat(Flatten(Excluded(ms, [At(1, Item(0))])), [0, 4, 7])
  {
    ExampleFlat(ms, Note(64), Some(64));
    var ps := Flatten(ms);
    assert ps[0].value % 12 == 0 && ps[3].value % 12 == 4 && ps[4].value % 12 == 7;
    var cut: Motif := [[Note(60), Rest, Note(62)], [Rest, Note(67)]];
    ExampleCut(ms, cut);
    ExampleFlat(cut, Rest, None);
    var qs := Flatten(cut);
    forall k | 0 <= k < |qs| && qs[k].Some? ensures qs[k].value % 12 != 4 {
      if k == 0 {
      } else if k == 2 {
      } else {
        assert k == 4;
      }
    }
    assert 4 !in Heard(qs);
  }

  /** Excluding the first item of the second line blanks it and nothing else. */
  lemma ExampleCut(ms: Motif, cut: Motif)
    requires ms == [[Note(60), Rest, Note(62)], [Note(64), Note(67)]]
    requires cut == [[Note(60), Rest, Note(62)], [Rest, Note(67)]]
    ensures CanExclude(ms, [At(1, Item(0))]) && Excluded(ms, [At(1, Item(0))]) == cut
  {
    var ex := [At(1, Item(0))];
    assert ex[1..] == [];
    assert CanModifyAt(ms, ex[0]);
    assert ToEvent(None) == Rest;
    var line := Modify(ms[1], Item(0), None);
    assert line == ms[1][0 := Rest] == [Rest, Note(67)];
    assert Excluded(ms, ex) == ms[1 := line];
  }

  /** The flat pitches of a motif shaped like the example. */
  lemma ExampleFlat(ms: Motif, e: Event, x: Option<int>)
    requires ms == [[Note(60), Rest, Note(62)], [e, Note(67)]]
    requires Flat(e) == [x]
    ensures Flatten(ms) == [Some(60), None, Some(62), x, Some(67)]
  {
    FlattenTwo(ms);
    ExtractThree(ms[0]);
    ExtractTwo(ms[1]);
    assert Extract(ms[1]) == [x, Some(67)];
    assert Extract(ms[0]) == [Some(60), None, Some(62)];
  }
}
