/**
 * The worked examples of `elaborate` and `divide` (ch0p1n/motif.py), kept
 * apart from the definitions they unfold.
 */
module EditorExamples {
  import opened Seqs
  import opened Structure
  import opened Scale
  import opened Variation
  import opened Editors

  /** On the classes `[0, 1, 4, 5, 7, 8, 10]`, 80 is entry 47 of the reified list, and 76, 77 and 79 lie just below it. */
  lemma ExampleScale(classes: seq<int>)
    requires classes == [0, 1, 4, 5, 7, 8, 10]
    ensures StrictlyAscending(Reify(classes)) && |Reify(classes)| == 77
    ensures Reify(classes)[44] == 76 && Reify(classes)[45] == 77 && Reify(classes)[46] == 79 && Reify(classes)[47] == 80
  {
    ExampleSorted(classes);
    OctavesAscending(classes, 11);
    ExampleOctave(classes);
  }

  /** The example's classes are already sorted. */
  lemma ExampleSorted(classes: seq<int>)
    requires classes == [0, 1, 4, 5, 7, 8, 10]
    ensures Classes(classes) && StrictlyAscending(classes) && Sort(classes) == classes
  {
    assert Classes(classes) && StrictlyAscending(classes);
    SortUnique(classes, classes);
  }

  /** Entries 44 to 47 of eleven octaves of the example's classes: the classes 4, 5, 7 and 8 of octave six. */
  lemma ExampleOctave(cs: seq<int>)
    requires cs == [0, 1, 4, 5, 7, 8, 10]
    ensures |Octaves(cs, 11)| == 77
    ensures Octaves(cs, 11)[44] == 76 && Octaves(cs, 11)[45] == 77 && Octaves(cs, 11)[46] == 79 && Octaves(cs, 11)[47] == 80
  {
    OctavesAt(cs, 11, 6, 2);
    OctavesAt(cs, 11, 6, 3);
    OctavesAt(cs, 11, 6, 4);
    OctavesAt(cs, 11, 6, 5);
  }

  /** From 80 on the example's classes, three relative steps down reach 79, 77 and 76. */
  lemma ExampleItems(classes: seq<int>, steps: seq<Option<int>>)
    requires classes == [0, 1, 4, 5, 7, 8, 10] && steps == [Some(-1), Some(-1), Some(-1)]
    ensures Generated(Note(80), steps, Reify(classes), true) == Some([Note(79), Note(77), Note(76)])
  {
    var s := Reify(classes);
    ExampleScale(classes);
    var one: seq<Option<int>> := [Some(-1)];
    assert Travel(one) == -1 by {
      assert one[1..] == [];
    }
    assert Travel(steps[..2]) == -2 by {
      assert steps[..2][1..] == one;
    }
    assert Travel(steps) == -3 by {
      assert steps[1..] == steps[..2];
    }
    assert steps[..1] == one && steps[..3] == steps;
    GeneratedWalk(s, 47, steps, true);
    var g := Generated(Note(s[47]), steps, s, true).value;
    assert g[0] == Note(79) && g[1] == Note(77) && g[2] == Note(76);
    assert g == [Note(79), Note(77), Note(76)];
  }

  /**
   * A worked example: `[80, 77, None]` timed `[2, 1, 1]`, three
   * relative steps down from item 0 on the classes `[5, 7, 8, 10, 0, 1, 4]`
   * (given here in sorted order; `Scale.ReifyPermutation` shows the order
   * does not matter), to the right with ratio 1/4, gives
   * `[80, 79, 77, 76, 77, None]` timed `[3/2, 1/6, 1/6, 1/6, 1, 1]`.
   */
  lemma ElaborateExample(m: PitchLine, ds: seq<real>, classes: seq<int>)
    requires m == [Note(80), Note(77), Rest] && ds == [2.0, 1.0, 1.0]
    requires classes == [0, 1, 4, 5, 7, 8, 10]
    ensures CanElaborate(m, ds, Item(0), [Some(-1), Some(-1), Some(-1)], classes, Right, Some(0.25), true, None)
    ensures Elaborated(m, ds, Item(0), [Some(-1), Some(-1), Some(-1)], classes, Right, Some(0.25), true, None) ==
      Lines([Note(80), Note(79), Note(77), Note(76), Note(77), Rest], [1.5, 1.0 / 6.0, 1.0 / 6.0, 1.0 / 6.0, 1.0, 1.0])
  {
    var steps: seq<Option<int>> := [Some(-1), Some(-1), Some(-1)];
    var items := [Note(79), Note(77), Note(76)];
    assert Access(m, Item(0)) == Note(80);
    ExampleItems(classes, steps);
    assert ReferenceDuration(ds, 0, Right, None) == Some(2.0);
    ElaboratedIs(m, ds, Item(0), steps, classes, Right, Some(0.25), true, None, items);
    ExamplePitches(m, items);
    ExampleDurations(ds);
  }

  lemma ExamplePitches(m: PitchLine, items: seq<Event>)
    requires m == [Note(80), Note(77), Rest] && items == [Note(79), Note(77), Note(76)]
    ensures Spliced(m, 0, Right, items) == [Note(80), Note(79), Note(77), Note(76), Note(77), Rest]
  {
  }

  lemma ExampleDurations(ds: seq<real>)
    requires ds == [2.0, 1.0, 1.0]
    ensures Retimed(ds, 0, Right, NewDurations(2.0, 3, Right, Some(0.25))) == [1.5, 1.0 / 6.0, 1.0 / 6.0, 1.0 / 6.0, 1.0, 1.0]
  {
    var news := NewDurations(2.0, 3, Right, Some(0.25));
    assert news == [1.5, 1.0 / 6.0, 1.0 / 6.0, 1.0 / 6.0];
    assert Retimed(ds, 0, Right, news) == news + [1.0, 1.0];
  }

  /** A worked example: `[60, 61, 62]` timed `[2, 2, 2]` in two parts is `[60, 61]` timed `[2, 1]` and `[61, 62]` timed `[1, 2]`. */
  lemma DivideExample(m: PitchLine, ds: seq<real>)
    requires m == [Note(60), Note(61), Note(62)] && ds == [2.0, 2.0, 2.0]
    ensures Divided(m, ds, Sum(ds) / 2.0, 3).parts ==
      [Part([Note(60), Note(61)], [2.0, 1.0]), Part([Note(61), Note(62)], [1.0, 2.0])]
  {
    var one: seq<real> := [2.0];
    var two: seq<real> := [2.0, 2.0];
    assert Sum(one) == 2.0 by {
      assert one[1..] == [];
    }
    assert Sum(two) == 4.0 by {
      assert two[1..] == one;
    }
    assert Sum(ds) == 6.0 by {
      assert ds[1..] == two;
    }
    assert Sum([1.0]) == 1.0 by {
      assert [1.0][1..] == [];
    }
    var d0 := Divided(m, ds, 3.0, 0);
    assert d0 == Division([], [], []);
    var d1 := Divided(m, ds, 3.0, 1);
    assert d1 == DivideStep(d0, Note(60), 2.0, 3.0);
    assert d1 == Division([], [Note(60)], [2.0]);
    var d2 := Divided(m, ds, 3.0, 2);
    assert d2 == DivideStep(d1, Note(61), 2.0, 3.0);
    assert Sum(d1.dm) == 2.0 && [Note(60)] + [Note(61)] == [Note(60), Note(61)] && one + [1.0] == [2.0, 1.0];
    assert d2 == Division([Part([Note(60), Note(61)], [2.0, 1.0])], [Note(61)], [1.0]);
    assert Divided(m, ds, 3.0, 3) == DivideStep(d2, Note(62), 2.0, 3.0);
    assert [Note(61)] + [Note(62)] == [Note(61), Note(62)] && [1.0] + [2.0] == [1.0, 2.0];
  }
}
