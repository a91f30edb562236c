/**
 * The multi-line motifs of the earlier modules (ch0p1n/vary.py, lead.py,
 * transpose.py, transform.py, select.py and elaborate.py). There a pitch
 * motif is a list of pitch lines, and the helpers `flatten`, `replace`,
 * `modify` and `access` that those modules import work line after line with
 * the single-line primitives of `Structure`; a position names a line first,
 * then `i` or `(i, j)` within it.
 */
module Lines {
  import opened Seqs
  import opened Structure

  type Motif = seq<PitchLine>

  /** The number of flat pitches of a motif. */
  function Count(ms: Motif): nat
  {
    if ms == [] then 0 else Size(ms[0]) + Count(ms[1..])
  }

  /** `flatten`: the flat pitches of every line, line after line. */
  function Flatten(ms: Motif): (r: seq<Option<int>>)
    ensures |r| == Count(ms)
  {
    if ms == [] then [] else Extract(ms[0]) + Flatten(ms[1..])
  }

  /** `replace`: every line refilled in turn from the front of the flat list. */
  function ReplaceLines(ms: Motif, ps: seq<Option<int>>): (r: Motif)
    requires |ps| >= Count(ms)
    ensures |r| == |ms|
  {
    if ms == [] then []
    else [Replace(ms[0], ps[..Size(ms[0])])] + ReplaceLines(ms[1..], ps[Size(ms[0])..])
  }

  /** Refilling keeps the shape of every line. */
  lemma {:induction false} ReplaceLinesShape(ms: Motif, ps: seq<Option<int>>)
    requires |ps| >= Count(ms)
    ensures forall l :: 0 <= l < |ms| ==> Shape(ReplaceLines(ms, ps)[l]) == Shape(ms[l])
  {
    if ms != [] {
      var w := Size(ms[0]);
      ReplaceShape(ms[0], ps[..w]);
      ReplaceLinesShape(ms[1..], ps[w..]);
      var r := ReplaceLines(ms, ps);
      forall l | 0 < l < |ms| ensures Shape(r[l]) == Shape(ms[l]) {
        assert r[l] == ReplaceLines(ms[1..], ps[w..])[l - 1];
        assert ms[l] == ms[1..][l - 1];
      }
    }
  }

  /** Round trip: pouring a motif's own flat pitches back into it gives the motif again. */
  lemma {:induction false} ReplaceFlatten(ms: Motif)
    ensures ReplaceLines(ms, Flatten(ms)) == ms
  {
    if ms != [] {
      var ps := Flatten(ms);
      var w := Size(ms[0]);
      assert ps[..w] == Extract(ms[0]) && ps[w..] == Flatten(ms[1..]);
      ReplaceExtract(ms[0]);
      ReplaceFlatten(ms[1..]);
      assert ms == [ms[0]] + ms[1..];
    }
  }

  /** Round trip the other way: a refilled motif flattens to the pitches it was given. */
  lemma {:induction false} FlattenReplace(ms: Motif, ps: seq<Option<int>>)
    requires |ps| >= Count(ms)
    ensures Flatten(ReplaceLines(ms, ps)) == ps[..Count(ms)]
  {
    if ms != [] {
      var w, n := Size(ms[0]), Count(ms[1..]);
      var a, b := ps[..w], ps[w..];
      assert Extract(Replace(ms[0], a)) == a by {
        ExtractReplace(ms[0], a);
        assert a[..w] == a;
      }
      assert Flatten(ReplaceLines(ms[1..], b)) == b[..n] by {
        FlattenReplace(ms[1..], b);
      }
      PrefixSplit(ps, w, n);
    }
  }

  /** Pouring exactly as many pitches as a motif holds keeps its line shapes and flattens to those pitches. */
  lemma ReplaceLinesSpec(ms: Motif, ps: seq<Option<int>>)
    requires |ps| == Count(ms)
    ensures var r := ReplaceLines(ms, ps);
      |r| == |ms| && (forall l :: 0 <= l < |ms| ==> Shape(r[l]) == Shape(ms[l])) && Flatten(r) == ps
  {
    ReplaceLinesShape(ms, ps);
    FlattenReplace(ms, ps);
    assert ps[..Count(ms)] == ps;
  }

  /** Two motifs whose lines have the same shapes and whose flat pitches agree are the same motif. */
  lemma {:induction false} ShapeFlatten(a: Motif, b: Motif)
    requires |a| == |b| && (forall l :: 0 <= l < |a| ==> Shape(a[l]) == Shape(b[l]))
    requires Flatten(a) == Flatten(b)
    ensures a == b
  {
    if a != [] {
      var w := Size(a[0]);
      assert Size(b[0]) == w by {
        ShapeSize(a[0], b[0]);
      }
      assert Extract(a[0]) == Flatten(a)[..w] && Extract(b[0]) == Flatten(b)[..w];
      ShapeExtract(a[0], b[0]);
      assert Flatten(a[1..]) == Flatten(a)[w..] && Flatten(b[1..]) == Flatten(b)[w..];
      forall l | 0 <= l < |a[1..]| ensures Shape(a[1..][l]) == Shape(b[1..][l]) {
        assert a[1..][l] == a[l + 1] && b[1..][l] == b[l + 1];
      }
      ShapeFlatten(a[1..], b[1..]);
      assert a == [a[0]] + a[1..] && b == [b[0]] + b[1..];
    }
  }

  /** Two motifs with the line shapes of a third and the same flat pitches are the same motif. */
  lemma ShapesAgree(ms: Motif, r: Motif, e: Motif)
    requires |r| == |ms| && forall l :: 0 <= l < |ms| ==> Shape(r[l]) == Shape(ms[l])
    requires |e| == |ms| && forall l :: 0 <= l < |ms| ==> Shape(e[l]) == Shape(ms[l])
    requires Flatten(r) == Flatten(e)
    ensures r == e
  {
    ShapeFlatten(r, e);
  }

  /** Pouring pitches into a motif gives the motif of the same line shapes whose flat pitches they are. */
  lemma ReplaceLinesIs(ms: Motif, ps: seq<Option<int>>, e: Motif)
    requires |ps| == Count(ms) && |e| == |ms|
    requires forall l :: 0 <= l < |ms| ==> Shape(e[l]) == Shape(ms[l])
    requires Flatten(e) == ps
    ensures ReplaceLines(ms, ps) == e
  {
    ReplaceLinesShape(ms, ps);
    FlattenReplace(ms, ps);
    assert ps[..Count(ms)] == ps;
    ShapeFlatten(ReplaceLines(ms, ps), e);
  }

  lemma {:induction false} FlattenConcat(a: Motif, b: Motif)
    ensures Flatten(a + b) == Flatten(a) + Flatten(b)
  {
    if a == [] {
      assert a + b == b;
    } else {
      assert (a + b)[1..] == a[1..] + b;
      FlattenConcat(a[1..], b);
    }
  }

  /** The flat pitches of a two-line motif. */
  lemma FlattenTwo(ms: Motif)
    requires |ms| == 2
    ensures Flatten(ms) == Extract(ms[0]) + Extract(ms[1])
  {
    var t := ms[1..];
    assert t[1..] == [] && Flatten(t) == Extract(ms[1]) + [];
  }

  // ---------------------------------------------------------------- positions

  /** A position in a motif: the line, then the position within that line. */
  datatype At = At(line: nat, pos: Position)

  predicate CanAccessAt(ms: Motif, a: At)
  {
    a.line < |ms| && CanAccess(ms[a.line], a.pos)
  }

  /** `access`: what the position reads in its line. */
  function AccessAt(ms: Motif, a: At): Event
    requires CanAccessAt(ms, a)
  {
    Access(ms[a.line], a.pos)
  }

  /** Where line `l` starts in the flat list of the motif. */
  function LineOffset(ms: Motif, l: nat): nat
    requires l <= |ms|
  {
    Count(ms[..l])
  }

  /** Where position `a` sits in the motif's flat list: the line's start, the item's start in it, and the cluster entry when it names one. */
  function FlatIndex(ms: Motif, a: At): nat
    requires CanAccessAt(ms, a)
  {
    var m := ms[a.line];
    LineOffset(ms, a.line) + Offset(m, a.pos.i) + (if a.pos.InChord? && m[a.pos.i].Chord? then a.pos.j else 0)
  }

  /**
   * What `access` reads is the flat pitch at the matching place of `flatten`:
   * the line's start, plus the item's start within the line, plus the
   * cluster entry when it names one.
   */
  lemma AccessFlatten(ms: Motif, a: At)
    requires CanAccessAt(ms, a) && (a.pos.InChord? || !ms[a.line][a.pos.i].Chord?)
    ensures FlatIndex(ms, a) < Count(ms) && AccessAt(ms, a) == ToEvent(Flatten(ms)[FlatIndex(ms, a)])
  {
    var l, m := a.line, ms[a.line];
    var k := Offset(m, a.pos.i) + (if a.pos.InChord? && m[a.pos.i].Chord? then a.pos.j else 0);
    assert k < Size(m) && Access(m, a.pos) == ToEvent(Extract(m)[k]) by {
      AccessExtract(m, a.pos);
    }
    assert FlatIndex(ms, a) == LineOffset(ms, l) + k && AccessAt(ms, a) == Access(m, a.pos);
    FlattenEntry(ms, l, k);
  }

  /** Entry `k` of line `l` sits at the line's offset plus `k` in the motif's flat list. */
  lemma FlattenEntry(ms: Motif, l: nat, k: nat)
    requires l < |ms| && k < Size(ms[l])
    ensures LineOffset(ms, l) + k < Count(ms) && Flatten(ms)[LineOffset(ms, l) + k] == Extract(ms[l])[k]
  {
    var x, y, z := Flatten(ms[..l]), Extract(ms[l]), Flatten(ms[l + 1..]);
    assert Flatten(ms) == x + y + z by {
      FlattenAt(ms, l);
    }
    MiddleAt(x, y, z, k);
    assert LineOffset(ms, l) == |x|;
  }

  /** The flat list of a motif is that of the lines before `l`, then line `l`'s, then the rest. */
  lemma FlattenAt(ms: Motif, l: nat)
    requires l < |ms|
    ensures Flatten(ms) == Flatten(ms[..l]) + Extract(ms[l]) + Flatten(ms[l + 1..])
  {
    SplitAt(ms, l);
    FlattenConcat(ms[..l + 1], ms[l + 1..]);
    FlattenConcat(ms[..l], [ms[l]]);
    FlattenOne(ms[l]);
  }

  lemma SplitAt(ms: Motif, l: nat)
    requires l < |ms|
    ensures ms[..l + 1] == ms[..l] + [ms[l]] && ms == ms[..l + 1] + ms[l + 1..]
  {
  }

  lemma FlattenOne(m: PitchLine)
    ensures Flatten([m]) == Extract(m)
  {
    assert [m][1..] == [];
  }

  predicate CanModifyAt(ms: Motif, a: At)
  {
    a.line < |ms| && CanModify(ms[a.line], a.pos)
  }

  /**
   * `modify`: the position now reads `x`; every other line, every other
   * item of the position's line, and every other entry of a cluster written
   * into, is as it was.
   */
  function ModifyAt(ms: Motif, a: At, x: Option<int>): (r: Motif)
    requires CanModifyAt(ms, a)
    ensures |r| == |ms| && CanAccessAt(r, a) && AccessAt(r, a) == ToEvent(x)
    ensures forall l :: 0 <= l < |ms| && l != a.line ==> r[l] == ms[l]
    ensures |r[a.line]| == |ms[a.line]|
    ensures forall k :: 0 <= k < |ms[a.line]| && k != a.pos.i ==> r[a.line][k] == ms[a.line][k]
    ensures a.pos.InChord? ==> var e, f := ms[a.line][a.pos.i], r[a.line][a.pos.i];
      f.Chord? && |f.pitches| == |e.pitches| &&
      forall j :: 0 <= j < |e.pitches| && j != a.pos.j ==> f.pitches[j] == e.pitches[j]
  {
    ms[a.line := Modify(ms[a.line], a.pos, x)]
  }

  /** The pitch a single item stands for (`None` for a rest). */
  function PitchOf(e: Event): (r: Option<int>)
    requires !e.Chord?
    ensures ToEvent(r) == e
  {
    if e.Rest? then None else Some(e.pitch)
  }

  /** Writing back what a position reads changes nothing. */
  lemma ModifyAccess(ms: Motif, a: At)
    requires CanModifyAt(ms, a) && !AccessAt(ms, a).Chord?
    ensures ModifyAt(ms, a, PitchOf(AccessAt(ms, a))) == ms
  {
    var m := ms[a.line];
    var r := ModifyAt(ms, a, PitchOf(AccessAt(ms, a)));
    if a.pos.InChord? {
      var ps := m[a.pos.i].pitches;
      assert ps[a.pos.j := ps[a.pos.j]] == ps;
      assert r[a.line] == m;
    } else {
      assert r[a.line] == m;
    }
  }
}
