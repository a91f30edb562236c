/**
 * ch0p1n/elaborate.py: `embellish` reads the pitch at a reference position,
 * moves it along the scale and writes it at another position. It expands the
 * class list and hands the expanded list to vary.py's `move`, which expands
 * what it is given once more: the pitches are read as classes, so the list it
 * moves along is the expanded scale followed by ten copies of it raised by
 * one octave after another, unsorted and with repeats. A reference pitch on
 * the scale finds its place in the first copy and moves as it would along a
 * single expansion; one off the scale is inserted into the whole sorted list,
 * where its neighbours are repeated.
 */
module Embellish {
  import opened Seqs
  import opened Structure
  import opened Scale
  import opened Lines
  import Vary
  import Variation

  /**
   * Whether `embellish` can run: both positions lie in the motif, and the
   * move stays in the list. A whole cluster read at the reference is never on
   * the scale: `move` drops it when the step is 0, and fails sorting it into
   * the list for any other step.
   */
  predicate CanEmbellishAsWritten(ms: Motif, position: At, reference: At, classes: seq<int>, step: int)
  {
    CanAccessAt(ms, reference) && CanModifyAt(ms, position) &&
    if AccessAt(ms, reference).Chord? then step == 0
    else CanMove(PitchOf(AccessAt(ms, reference)), Reify(Reify(classes)), Some(step))
  }

  /** `embellish` as written: the reference pitch moved along the twice-expanded list, written at the position (a rest for a cluster). */
  function EmbellishAsWritten(ms: Motif, position: At, reference: At, classes: seq<int>, step: int): (r: Motif)
    requires CanEmbellishAsWritten(ms, position, reference, classes, step)
    ensures |r| == |ms| && forall l :: 0 <= l < |ms| && l != position.line ==> r[l] == ms[l]
    ensures AccessAt(ms, reference).Chord? ==> CanAccessAt(r, position) && AccessAt(r, position) == Rest
  {
    var e := AccessAt(ms, reference);
    ModifyAt(ms, position, if e.Chord? then None else Vary.MoveClasses(PitchOf(e), Reify(classes), step))
  }

  /** Whether `embellish` with a single expansion can run. */
  predicate CanEmbellish(ms: Motif, position: At, reference: At, classes: seq<int>, step: int)
  {
    CanAccessAt(ms, reference) && CanModifyAt(ms, position) &&
    if AccessAt(ms, reference).Chord? then step == 0
    else CanMove(PitchOf(AccessAt(ms, reference)), Reify(classes), Some(step))
  }

  /** `embellish` with the class list expanded once: the reference pitch moved along the scale, written at the position (a rest for a cluster). */
  function Embellish(ms: Motif, position: At, reference: At, classes: seq<int>, step: int): (r: Motif)
    requires CanEmbellish(ms, position, reference, classes, step)
    ensures |r| == |ms| && forall l :: 0 <= l < |ms| && l != position.line ==> r[l] == ms[l]
    ensures AccessAt(ms, reference).Chord? ==> CanAccessAt(r, position) && AccessAt(r, position) == Rest
  {
    var e := AccessAt(ms, reference);
    ModifyAt(ms, position, if e.Chord? then None else Vary.MoveClasses(PitchOf(e), classes, step))
  }

  /**
   * What `embellish` promises, for distinct classes: the position now reads
   * a rest exactly when the reference does or when an off-scale pitch or a
   * cluster is moved by 0 steps, and otherwise a pitch of the scale; nothing
   * else in the motif changes.
   */
  lemma EmbellishSpec(ms: Motif, position: At, reference: At, classes: seq<int>, step: int)
    requires Classes(classes) && Distinct(classes)
    requires CanEmbellish(ms, position, reference, classes, step)
    ensures var r := Embellish(ms, position, reference, classes, step);
      var e := AccessAt(ms, reference);
      CanAccessAt(r, position) &&
      (AccessAt(r, position).Rest? <==> e.Rest? || (step == 0 && (e.Chord? || e.pitch !in Reify(classes)))) &&
      (AccessAt(r, position).Note? ==> 0 <= AccessAt(r, position).pitch < 132 && AccessAt(r, position).pitch % 12 in classes) &&
      |r[position.line]| == |ms[position.line]| &&
      forall k :: 0 <= k < |ms[position.line]| && k != position.pos.i ==> r[position.line][k] == ms[position.line][k]
  {
    if !AccessAt(ms, reference).Chord? {
      var p := PitchOf(AccessAt(ms, reference));
      Vary.MoveClassesOnScale(p, classes, step);
    }
  }

  /**
   * Embellishing from an on-scale reference, and then writing back at the
   * reference the result moved by the opposite step, restores the reference
   * pitch (the two positions lying in different items).
   */
  lemma EmbellishRoundTrip(ms: Motif, position: At, reference: At, classes: seq<int>, step: int)
    requires Classes(classes) && Distinct(classes)
    requires CanEmbellish(ms, position, reference, classes, step)
    requires AccessAt(ms, reference).Note? && AccessAt(ms, reference).pitch in Reify(classes)
    requires CanModifyAt(ms, reference) && (position.line != reference.line || position.pos.i != reference.pos.i)
    ensures var r := Embellish(ms, position, reference, classes, step);
      CanEmbellish(r, reference, position, classes, -step) &&
      AccessAt(Embellish(r, reference, position, classes, -step), reference) == AccessAt(ms, reference)
  {
    var p := AccessAt(ms, reference).pitch;
    Vary.MoveClassesRoundTrip(p, classes, step);
    var q := Vary.MoveClasses(Some(p), classes, step);
    var r := Embellish(ms, position, reference, classes, step);
    assert AccessAt(r, position) == ToEvent(q);
    var l, i := reference.line, reference.pos.i;
    if l == position.line {
      assert r[l][i] == ms[l][i];
    } else {
      assert r[l] == ms[l];
    }
    assert CanModifyAt(r, reference);
  }

  // ---------------------------------------------------------------- the double expansion

  /** Expanding the expanded scale again starts with the expanded scale itself. */
  lemma DoubleStart(classes: seq<int>, k: nat)
    requires Classes(classes) && k < |Reify(classes)|
    ensures k < |Reify(Reify(classes))| && Reify(Reify(classes))[k] == Reify(classes)[k]
  {
    var s := Reify(classes);
    ReifySpec(classes);
    SortAscending(s);
    OctavesAt(s, 11, 0, k);
  }

  /**
   * A reference pitch on the scale, moved within the scale's range, moves
   * along the twice-expanded list exactly as along the scale: `embellish` as
   * written agrees with the single expansion.
   */
  lemma DoubleOnScale(p: int, classes: seq<int>, step: int)
    requires Classes(classes) && p in Reify(classes)
    requires 0 <= IndexOf(Reify(classes), p) + step < |Reify(classes)|
    ensures CanMove(Some(p), Reify(Reify(classes)), Some(step)) && CanMove(Some(p), Reify(classes), Some(step))
    ensures Vary.MoveClasses(Some(p), Reify(classes), step) == Vary.MoveClasses(Some(p), classes, step)
  {
    var s, e := Reify(classes), Reify(Reify(classes));
    var i := IndexOf(s, p);
    DoubleStart(classes, i);
    DoubleStart(classes, i + step);
    IndexOfFirst(s, p);
    forall k | 0 <= k < i ensures e[k] != p {
      DoubleStart(classes, k);
    }
    IndexOfAt(e, p, i);
    assert p in e && Placed(e, p) == e && Placed(s, p) == s;
    assert Move(Some(p), e, Some(step)).pitch == Some(e[i + step]);
    assert Move(Some(p), s, Some(step)).pitch == Some(s[i + step]);
  }

  lemma EmbellishOnScale(ms: Motif, position: At, reference: At, classes: seq<int>, step: int)
    requires Classes(classes) && CanEmbellish(ms, position, reference, classes, step)
    requires AccessAt(ms, reference).Note? && AccessAt(ms, reference).pitch in Reify(classes)
    ensures CanEmbellishAsWritten(ms, position, reference, classes, step)
    ensures EmbellishAsWritten(ms, position, reference, classes, step) == Embellish(ms, position, reference, classes, step)
  {
    DoubleOnScale(AccessAt(ms, reference).pitch, classes, step);
  }

  /** Every pitch of a list raised by whole octaves has the class of one of its entries. */
  lemma {:induction false} OctavesClass(cs: seq<int>, n: nat, x: int)
    requires x in Octaves(cs, n)
    ensures exists k :: 0 <= k < |cs| && x % 12 == cs[k] % 12
  {
    var lo, top := Octaves(cs, n - 1), Shift(cs, 12 * (n - 1));
    if x in lo {
      OctavesClass(cs, n - 1, x);
    } else {
      var k :| 0 <= k < |top| && top[k] == x;
      OctaveClass(cs[k], n - 1);
    }
  }

  /** Raising a pitch by whole octaves keeps its class. */
  lemma OctaveClass(c: int, o: int)
    ensures (c + 12 * o) % 12 == c % 12
  {
    assert c + 12 * o == 12 * (c / 12 + o) + c % 12;
  }

  /** The twice-expanded list holds the classes of the scale and no other. */
  lemma DoubleClasses(classes: seq<int>, x: int)
    requires Classes(classes) && x in Reify(Reify(classes))
    ensures x % 12 in classes
  {
    var s := Reify(classes);
    ReifySpec(classes);
    SortAscending(s);
    OctavesClass(s, 11, x);
    var k :| 0 <= k < |s| && x % 12 == s[k] % 12;
    assert s[k] in s;
  }

  /**
   * Along any list holding `p - 1` twice and not `p`, two steps down from `p`
   * reach `p - 1`: the sorted list with `p` inserted has both copies just below it.
   */
  lemma StepDownPastRepeat(s: seq<int>, p: int)
    requires p !in s && multiset(s)[p - 1] >= 2
    ensures CanMove(Some(p), s, Some(-2)) && Move(Some(p), s, Some(-2)).pitch == Some(p - 1)
  {
    var t := Placed(s, p);
    PlacedRepeat(s, p);
    BelowFirst(t, p);
    var i := IndexOf(t, p);
    MoveIs(s, p, -2, t, i);
    assert t[i + -2] == p - 1;
  }


  /** Placing an absent `p` sorts the list, keeping how often `p - 1` occurs. */
  lemma PlacedRepeat(s: seq<int>, p: int)
    requires p !in s
    ensures Ascending(Placed(s, p)) && multiset(Placed(s, p))[p - 1] == multiset(s)[p - 1]
  {
    SortSpec(s + [p]);
    assert multiset(s + [p]) == multiset(s) + multiset{p};
  }

  /** In an ascending list holding `p - 1` twice, the two entries before the first `p` are `p - 1`. */
  lemma BelowFirst(t: seq<int>, p: int)
    requires Ascending(t) && p in t && multiset(t)[p - 1] >= 2
    ensures IndexOf(t, p) >= 2 && t[IndexOf(t, p) - 2] == p - 1
  {
    var i := IndexOf(t, p);
    PrefixCount(t, i);
    BelowBefore(t, p);
    AscendingPrefix(t, i);
    TwoBelow(t[..i], p - 1);
  }

  /** Before a place in an ascending list sit all the entries just below what that place holds. */
  lemma PrefixCount(t: seq<int>, i: nat)
    requires Ascending(t) && i < |t|
    ensures multiset(t[..i])[t[i] - 1] == multiset(t)[t[i] - 1]
  {
    var x := t[i] - 1;
    assert multiset(t[i..])[x] == 0 by {
      forall k | 0 <= k < |t[i..]| ensures t[i..][k] != x {
        assert t[i] <= t[i + k];
      }
    }
    assert t == t[..i] + t[i..];
  }

  lemma AscendingPrefix(t: seq<int>, i: nat)
    requires Ascending(t) && i <= |t|
    ensures Ascending(t[..i])
  {
  }

  /** Before the first `p` of an ascending list, every entry is below `p`. */
  lemma BelowBefore(t: seq<int>, p: int)
    requires Ascending(t) && p in t
    ensures forall k :: 0 <= k < IndexOf(t, p) ==> t[..IndexOf(t, p)][k] <= p - 1
  {
    IndexOfFirst(t, p);
    forall k | 0 <= k < IndexOf(t, p) ensures t[..IndexOf(t, p)][k] <= p - 1 {
      assert t[k] <= t[IndexOf(t, p)] && t[k] != p;
    }
  }

  /** An ascending list bounded by `x` that holds `x` twice ends with two copies of it. */
  lemma TwoBelow(a: seq<int>, x: int)
    requires Ascending(a) && multiset(a)[x] >= 2
    requires forall k :: 0 <= k < |a| ==> a[k] <= x
    ensures |a| >= 2 && a[|a| - 2] == x
  {
    var n := |a|;
    assert x in multiset(a);
    assert a == a[..n - 1] + [a[n - 1]];
    assert multiset(a) == multiset(a[..n - 1]) + multiset{a[n - 1]};
    assert x in a[..n - 1];
    var k :| 0 <= k < n - 1 && a[k] == x;
    assert a[k] <= a[n - 2];
  }

  /**
   * On C major, 61 moved two steps down: 59 along the scale, but 60 along
   * the twice-expanded list, which holds 60 more than once (48 raised by an octave).
   */
  lemma DoubleOffScale(classes: seq<int>)
    requires classes == [0, 2, 4, 5, 7, 9, 11]
    ensures CanMove(Some(61), Reify(classes), Some(-2)) && Vary.MoveClasses(Some(61), classes, -2) == Some(59)
    ensures CanMove(Some(61), Reify(Reify(classes)), Some(-2)) && Vary.MoveClasses(Some(61), Reify(classes), -2) == Some(60)
  {
    var s := Reify(classes);
    Variation.CMajor(classes);
    Variation.Between(s, 36, 61);
    MoveOffScale(s, 61, -2);
    var e := Reify(s);
    DoubleMisses(classes, 61);
    DoubleRepeats(classes);
    StepDownPastRepeat(e, 61);
  }

  /** A pitch whose class is not among C major's is missing from the twice-expanded list too. */
  lemma DoubleMisses(classes: seq<int>, p: int)
    requires classes == [0, 2, 4, 5, 7, 9, 11] && p % 12 !in classes
    ensures p !in Reify(Reify(classes))
  {
    assert Classes(classes);
    if p in Reify(Reify(classes)) {
      DoubleClasses(classes, p);
    }
  }

  /** On C major the twice-expanded list holds 60 at least twice: at 35 and at 77 + 28. */
  lemma DoubleRepeats(classes: seq<int>)
    requires classes == [0, 2, 4, 5, 7, 9, 11]
    ensures multiset(Reify(Reify(classes)))[60] >= 2
  {
    var e := Reify(Reify(classes));
    CMajorAt(classes);
    assert Classes(classes);
    DoubleStart(classes, 35);
    DoubleSecond(classes, 28);
    TwiceCounted(e, 35, 105);
  }

  /** C major reified: 77 pitches, with 48 at index 28 and 60 at index 35. */
  lemma CMajorAt(classes: seq<int>)
    requires classes == [0, 2, 4, 5, 7, 9, 11]
    ensures |Reify(classes)| == 77 && Reify(classes)[28] == 48 && Reify(classes)[35] == 60
  {
    Variation.CMajor(classes);
    assert Ascending(classes);
    SortAscending(classes);
    ReifyAt(classes, 4, 0);
  }

  /** The second copy in the twice-expanded list is the expanded scale raised by an octave. */
  lemma DoubleSecond(classes: seq<int>, k: nat)
    requires Classes(classes) && k < |Reify(classes)|
    ensures |Reify(classes)| + k < |Reify(Reify(classes))|
    ensures Reify(Reify(classes))[|Reify(classes)| + k] == Reify(classes)[k] + 12
  {
    var s := Reify(classes);
    ReifySpec(classes);
    SortAscending(s);
    OctavesAt(s, 11, 1, k);
  }

  /**
   * The discrepancy on a motif: on C major, writing the pitch two steps below
   * the reference 61 gives `[[61, 60]]` as written and `[[61, 59]]` along the scale.
   */
  lemma EmbellishCounterexample(ms: Motif, classes: seq<int>)
    requires ms == [[Note(61), Note(64)]]
    requires classes == [0, 2, 4, 5, 7, 9, 11]
    ensures CanEmbellishAsWritten(ms, At(0, Item(1)), At(0, Item(0)), classes, -2)
    ensures EmbellishAsWritten(ms, At(0, Item(1)), At(0, Item(0)), classes, -2) == [[Note(61), Note(60)]]
    ensures CanEmbellish(ms, At(0, Item(1)), At(0, Item(0)), classes, -2)
    ensures Embellish(ms, At(0, Item(1)), At(0, Item(0)), classes, -2) == [[Note(61), Note(59)]]
  {
    DoubleOffScale(classes);
    assert AccessAt(ms, At(0, Item(0))) == Note(61) && PitchOf(Note(61)) == Some(61);
    assert ModifyAt(ms, At(0, Item(1)), Some(60)) == [[Note(61), Note(60)]] by {
      var line := Modify(ms[0], Item(1), Some(60));
      assert line == [Note(61), Note(60)];
      assert ms[0 := line] == [line];
    }
    assert ModifyAt(ms, At(0, Item(1)), Some(59)) == [[Note(61), Note(59)]] by {
      var line := Modify(ms[0], Item(1), Some(59));
      assert line == [Note(61), Note(59)];
      assert ms[0 := line] == [line];
    }
  }

  /** The example of the source's tests: on C major, the 64 of `[[60, [64, 67], None]]` becomes 62, one step above the reference 60. */
  lemma EmbellishExample(ms: Motif, classes: seq<int>)
    requires ms == [[Note(60), Chord([Some(64), Some(67)]), Rest]]
    requires classes == [0, 2, 4, 5, 7, 9, 11]
    ensures CanEmbellishAsWritten(ms, At(0, InChord(1, 0)), At(0, Item(0)), classes, 1)
    ensures EmbellishAsWritten(ms, At(0, InChord(1, 0)), At(0, Item(0)), classes, 1) == [[Note(60), Chord([Some(62), Some(67)]), Rest]]
  {
    var s := Reify(classes);
    Variation.CMajor(classes);
    MoveOnScale(s, 35, 1);
    assert Classes(classes);
    assert AccessAt(ms, At(0, Item(0))) == Note(60) && PitchOf(Note(60)) == Some(60);
    assert Vary.MoveClasses(Some(60), classes, 1) == Some(62);
    EmbellishOnScale(ms, At(0, InChord(1, 0)), At(0, Item(0)), classes, 1);
    assert [Some(64), Some(67)][0 := Some(62)] == [Some(62), Some(67)];
    assert ModifyAt(ms, At(0, InChord(1, 0)), Some(62)) == [[Note(60), Chord([Some(62), Some(67)]), Rest]] by {
      var line := Modify(ms[0], InChord(1, 0), Some(62));
      assert line == [Note(60), Chord([Some(62), Some(67)]), Rest];
      assert ms[0 := line] == [line];
    }
  }

  /** A cluster read at the reference and moved by 0 steps is written as a rest: `[[[64, 67], 60]]` becomes `[[[64, 67], None]]`. */
  lemma EmbellishClusterExample(ms: Motif, classes: seq<int>)
    requires ms == [[Chord([Some(64), Some(67)]), Note(60)]]
    ensures CanEmbellishAsWritten(ms, At(0, Item(1)), At(0, Item(0)), classes, 0)
    ensures EmbellishAsWritten(ms, At(0, Item(1)), At(0, Item(0)), classes, 0) == [[Chord([Some(64), Some(67)]), Rest]]
  {
    assert ModifyAt(ms, At(0, Item(1)), None) == [[Chord([Some(64), Some(67)]), Rest]] by {
      var line := Modify(ms[0], Item(1), None);
      assert line == [Chord([Some(64), Some(67)]), Rest];
      assert ms[0 := line] == [line];
    }
  }
}
