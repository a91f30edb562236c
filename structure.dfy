/**
 * The motif data model and its structural primitives (ch0p1n/motif.py).
 *
 * A pitch line is a sequence of events: a rest (`None`), a single pitch, or a
 * cluster of simultaneous pitches. After a transformation a cluster may hold
 * `None` entries, so cluster entries are optional pitches. `Extract` flattens a
 * line into its pitches and `Replace` pours a flat list back into the line's
 * shape; `Access` and `Modify` read and write at a position, which is either an
 * item index or an (item, cluster entry) pair.
 */
module Structure {
  import opened Seqs

  datatype Event = Rest | Note(pitch: int) | Chord(pitches: seq<Option<int>>)

  type PitchLine = seq<Event>

  /** A position: `i` or `(i, j)`. `Index` is `_get_i`: the item index of either form. */
  datatype Position = Item(i: nat) | InChord(i: nat, j: nat)
  {
    function Index(): nat
    {
      i
    }
  }

  /** What a line item looks like to `isinstance(item, list)`: a single slot or a cluster of a given size. */
  datatype Slot = Single | Cluster(size: nat)

  function SlotOf(e: Event): Slot
  {
    if e.Chord? then Cluster(|e.pitches|) else Single
  }

  function Shape(m: PitchLine): (r: seq<Slot>)
    ensures |r| == |m| && forall i :: 0 <= i < |m| ==> r[i] == SlotOf(m[i])
  {
    seq(|m|, i requires 0 <= i < |m| => SlotOf(m[i]))
  }

  /** How many flat pitches one item contributes. */
  function Width(e: Event): nat
  {
    if e.Chord? then |e.pitches| else 1
  }

  /** The flat pitches of one item: a cluster's entries, or the item itself. */
  function Flat(e: Event): (r: seq<Option<int>>)
    ensures |r| == Width(e)
  {
    match e
    case Rest => [None]
    case Note(p) => [Some(p)]
    case Chord(ps) => ps
  }

  /** A single flat pitch seen as a line item (`None` is a rest). */
  function ToEvent(x: Option<int>): Event
  {
    if x.None? then Rest else Note(x.value)
  }

  /** The number of flat pitches of a line. */
  function Size(m: PitchLine): nat
  {
    if m == [] then 0 else Width(m[0]) + Size(m[1..])
  }

  /** `_extract`: clusters are spliced in, every other item is appended as one pitch. */
  function Extract(m: PitchLine): (r: seq<Option<int>>)
    ensures |r| == Size(m)
  {
    if m == [] then [] else Flat(m[0]) + Extract(m[1..])
  }

  /** The item rebuilt from exactly `Width(e)` flat pitches. */
  function Refill(e: Event, xs: seq<Option<int>>): (r: Event)
    requires |xs| == Width(e)
    ensures SlotOf(r) == SlotOf(e) && Flat(r) == xs
  {
    if e.Chord? then Chord(xs) else ToEvent(xs[0])
  }

  /**
   * `_replace` (copying variant): consumes the flat list from the front, a
   * cluster taking as many entries as it had and every other item one entry.
   * Entries past the line's size are ignored, as the source's running index
   * never reaches them.
   */
  function Replace(m: PitchLine, ps: seq<Option<int>>): (r: PitchLine)
    requires |ps| >= Size(m)
    ensures |r| == |m|
  {
    if m == [] then []
    else
      var w := Width(m[0]);
      [Refill(m[0], ps[..w])] + Replace(m[1..], ps[w..])
  }

  /** `_replace` keeps the line's shape: every single item stays single and every cluster keeps its length. */
  lemma {:induction false} ReplaceShape(m: PitchLine, ps: seq<Option<int>>)
    requires |ps| >= Size(m)
    ensures Shape(Replace(m, ps)) == Shape(m)
  {
    if m != [] {
      var w := Width(m[0]);
      ReplaceShape(m[1..], ps[w..]);
      var r := Replace(m, ps);
      forall k | 0 <= k < |m| ensures Shape(r)[k] == Shape(m)[k] {
        if k > 0 {
          assert r[k] == Replace(m[1..], ps[w..])[k - 1];
          assert Shape(Replace(m[1..], ps[w..]))[k - 1] == Shape(m[1..])[k - 1];
        }
      }
    }
  }

  lemma {:induction false} SizeConcat(a: PitchLine, b: PitchLine)
    ensures Size(a + b) == Size(a) + Size(b)
  {
    if a == [] {
      assert a + b == b;
    } else {
      assert (a + b)[1..] == a[1..] + b;
      SizeConcat(a[1..], b);
    }
  }

  lemma {:induction false} ExtractConcat(a: PitchLine, b: PitchLine)
    ensures Extract(a + b) == Extract(a) + Extract(b)
  {
    if a == [] {
      assert a + b == b;
    } else {
      assert (a + b)[1..] == a[1..] + b;
      ExtractConcat(a[1..], b);
    }
  }

  /** The flat pitches of a line are those of its first item followed by those of the rest. */
  lemma ExtractCons(e: Event, rest: PitchLine)
    ensures Extract([e] + rest) == Flat(e) + Extract(rest)
  {
    assert ([e] + rest)[1..] == rest;
  }

  /** The flat pitches of a two-item line. */
  lemma ExtractTwo(m: PitchLine)
    requires |m| == 2
    ensures Extract(m) == Flat(m[0]) + Flat(m[1])
  {
    var t := m[1..];
    assert t[1..] == [] && Extract(t) == Flat(m[1]) + [];
  }

  /** The flat pitches of a three-item line. */
  lemma ExtractThree(m: PitchLine)
    requires |m| == 3
    ensures Extract(m) == Flat(m[0]) + Flat(m[1]) + Flat(m[2])
  {
    var t := m[2..];
    assert t[1..] == [] && Extract(t) == Flat(m[2]) + [];
    var u := m[1..];
    assert u[1..] == t && Extract(u) == Flat(m[1]) + Extract(t);
  }

  /** Two lines of the same shape with the same flat pitches are the same line. */
  lemma {:induction false} ShapeExtract(a: PitchLine, b: PitchLine)
    requires Shape(a) == Shape(b) && Extract(a) == Extract(b)
    ensures a == b
  {
    if a != [] {
      assert SlotOf(a[0]) == SlotOf(b[0]) && Shape(a[1..]) == Shape(b[1..]);
      var w := Width(a[0]);
      assert Width(b[0]) == w by {
        RefillFlat(a[0], b[0]);
      }
      assert Flat(a[0]) == Extract(a)[..w] && Flat(b[0]) == Extract(b)[..w];
      assert Extract(a[1..]) == Extract(a)[w..] && Extract(b[1..]) == Extract(b)[w..];
      ShapeExtract(a[1..], b[1..]);
      RefillFlat(a[0], b[0]);
      RefillFlat(b[0], b[0]);
    }
  }

  /** Pouring pitches into a line gives the line of the same shape whose flat pitches they are. */
  lemma ReplaceIs(m: PitchLine, ps: seq<Option<int>>, e: PitchLine)
    requires |ps| == Size(m) && Shape(e) == Shape(m) && Extract(e) == ps
    ensures Replace(m, ps) == e
  {
    ReplaceShape(m, ps);
    ExtractReplace(m, ps);
    assert ps[..Size(m)] == ps;
    ShapeExtract(Replace(m, ps), e);
  }

  /** Round trip: pouring a line's own pitches back into it gives the line again. */
  lemma {:induction false} ReplaceExtract(m: PitchLine)
    ensures Replace(m, Extract(m)) == m
  {
    if m != [] {
      var ps := Extract(m);
      var x, y := Flat(m[0]), Extract(m[1..]);
      assert ps[..|x|] == x && ps[|x|..] == y by {
        ConcatSplit(x, y);
      }
      RefillFlat(m[0], m[0]);
      ReplaceExtract(m[1..]);
      assert Replace(m, ps) == [m[0]] + m[1..];
      ConsSplit(m);
    }
  }

  /** Round trip the other way: the refilled line extracts to the pitches it was given. */
  lemma {:induction false} ExtractReplace(m: PitchLine, ps: seq<Option<int>>)
    requires |ps| >= Size(m)
    ensures Extract(Replace(m, ps)) == ps[..Size(m)]
  {
    if m != [] {
      var w, n := Width(m[0]), Size(m[1..]);
      assert Extract(Replace(m[1..], ps[w..])) == ps[w..][..n] by {
        ExtractReplace(m[1..], ps[w..]);
      }
      assert Flat(Refill(m[0], ps[..w])) == ps[..w];
      PrefixSplit(ps, w, n);
    }
  }

  /** Where item `i` of a line starts in the flat list. */
  function Offset(m: PitchLine, i: nat): nat
    requires i <= |m|
  {
    Size(m[..i])
  }

  lemma {:induction false} OffsetStep(m: PitchLine, i: nat)
    requires i < |m|
    ensures Offset(m, i + 1) == Offset(m, i) + Width(m[i])
    ensures Offset(m, i + 1) <= Size(m)
  {
    assert m[..i + 1] == m[..i] + [m[i]];
    SizeConcat(m[..i], [m[i]]);
    assert m == m[..i + 1] + m[i + 1..];
    SizeConcat(m[..i + 1], m[i + 1..]);
    assert [m[i]][1..] == [];
  }

  /** The flat pitches of item `i` sit at its offset in the extracted list. */
  lemma ExtractAt(m: PitchLine, i: nat)
    requires i < |m|
    ensures Offset(m, i) + Width(m[i]) <= Size(m)
    ensures Extract(m)[Offset(m, i)..Offset(m, i) + Width(m[i])] == Flat(m[i])
  {
    var x, y, z := Extract(m[..i]), Flat(m[i]), Extract(m[i + 1..]);
    ExtractSplit(m, i);
    MiddleSlice(x, y, z);
  }

  /** The flat pitches of a line split around item `i`. */
  lemma {:induction false} ExtractSplit(m: PitchLine, i: nat)
    requires i < |m|
    ensures Extract(m) == Extract(m[..i]) + Flat(m[i]) + Extract(m[i + 1..])
  {
    if i == 0 {
      assert m[..0] == [] && m[1..] == m[0 + 1..];
    } else {
      var t, pre := m[1..], m[..i];
      var f, x, y, z := Flat(m[0]), Extract(t[..i - 1]), Flat(m[i]), Extract(m[i + 1..]);
      assert Extract(t) == x + y + z by {
        ExtractSplit(t, i - 1);
        assert t[i..] == m[i + 1..] && t[i - 1] == m[i];
      }
      assert Extract(pre) == f + x by {
        assert pre[0] == m[0] && pre[1..] == t[..i - 1];
      }
      FourAssoc(f, x, y, z);
    }
  }

  /** Item `i` of a refilled line is rebuilt from the entries at its offset. */
  lemma ReplaceAt(m: PitchLine, ps: seq<Option<int>>, i: nat)
    requires |ps| >= Size(m) && i < |m|
    ensures Offset(m, i) + Width(m[i]) <= Size(m)
    ensures Replace(m, ps)[i] == Refill(m[i], ps[Offset(m, i)..Offset(m, i) + Width(m[i])])
  {
    var r := Replace(m, ps);
    var o, w := Offset(m, i), Width(m[i]);
    ReplaceOffsets(m, ps, i);
    RefillFlat(r[i], m[i]);
    assert o + w <= Size(m) by {
      ExtractAt(m, i);
    }
    assert Flat(r[i]) == ps[o..o + w] by {
      ExtractAt(r, i);
      ExtractReplace(m, ps);
      PrefixSlice(ps, Size(m), o, o + w);
    }
  }

  /** A refilled line has the line's size, and its item `i` has the slot and the offset of the line's. */
  lemma ReplaceOffsets(m: PitchLine, ps: seq<Option<int>>, i: nat)
    requires |ps| >= Size(m) && i < |m|
    ensures var r := Replace(m, ps);
      |r| == |m| && SlotOf(r[i]) == SlotOf(m[i]) && Offset(r, i) == Offset(m, i) && Size(r) == Size(m)
  {
    var r := Replace(m, ps);
    ReplaceShape(m, ps);
    assert SlotOf(r[i]) == SlotOf(m[i]) && Shape(r[..i]) == Shape(m[..i]);
    ShapeSize(r[..i], m[..i]);
    ShapeSize(r, m);
  }

  /** An item is rebuilt from its own flat pitches by any item of its slot. */
  lemma RefillFlat(e: Event, f: Event)
    requires SlotOf(e) == SlotOf(f)
    ensures Width(e) == Width(f) && Refill(f, Flat(e)) == e
  {
  }

  /** Lines of one shape have one size. */
  lemma {:induction false} ShapeSize(a: PitchLine, b: PitchLine)
    requires Shape(a) == Shape(b)
    ensures Size(a) == Size(b)
  {
    if a != [] {
      assert Shape(a[1..]) == Shape(b[1..]) by {
        assert Shape(a)[0] == Shape(b)[0];
        forall k | 0 <= k < |a| - 1 ensures Shape(a[1..])[k] == Shape(b[1..])[k] {
          assert Shape(a)[k + 1] == Shape(b)[k + 1];
        }
      }
      assert SlotOf(a[0]) == SlotOf(b[0]) by {
        assert Shape(a)[0] == Shape(b)[0];
      }
      ShapeSize(a[1..], b[1..]);
    }
  }

  lemma {:induction false} ReplaceSnoc(m: PitchLine, e: Event, ps: seq<Option<int>>)
    requires |ps| >= Size(m) + Width(e)
    ensures Size(m + [e]) == Size(m) + Width(e)
    ensures Replace(m + [e], ps) == Replace(m, ps) + [Refill(e, ps[Size(m)..Size(m) + Width(e)])]
  {
    SizeConcat(m, [e]);
    assert Size([e]) == Width(e) + Size([]);
    var r := Replace(m + [e], ps);
    var expected := Replace(m, ps) + [Refill(e, ps[Size(m)..Size(m) + Width(e)])];
    var me := m + [e];
    assert me[..|m|] == m && me[|m|] == e;
    forall i | 0 <= i < |m| + 1 ensures r[i] == expected[i] {
      if i < |m| {
        ReplacePrefixAt(m, me, ps, i);
      } else {
        ReplaceSnocLast(m, me, ps);
      }
    }
  }

  /** Refilling a longer line leaves the items it shares with a prefix as the prefix's refill has them. */
  lemma ReplacePrefixAt(a: PitchLine, b: PitchLine, ps: seq<Option<int>>, i: nat)
    requires i < |a| <= |b| && b[..|a|] == a && |ps| >= Size(b) && Size(a) <= Size(b)
    ensures Replace(b, ps)[i] == Replace(a, ps)[i]
  {
    PrefixSlice(b, |a|, 0, i);
    assert b[..i] == a[..i] && b[i] == a[i];
    ReplaceAt(a, ps, i);
    ReplaceAt(b, ps, i);
  }

  /** The last item of a line one item longer is refilled from the entries after the shorter line's own. */
  lemma ReplaceSnocLast(m: PitchLine, me: PitchLine, ps: seq<Option<int>>)
    requires |me| == |m| + 1 && me[..|m|] == m && Size(me) == Size(m) + Width(me[|m|]) && |ps| >= Size(me)
    ensures Replace(me, ps)[|m|] == Refill(me[|m|], ps[Size(m)..Size(m) + Width(me[|m|])])
  {
    var o, w := Offset(me, |m|), Width(me[|m|]);
    assert o == Size(m);
    ReplaceAt(me, ps, |m|);
    assert Replace(me, ps)[|m|] == Refill(me[|m|], ps[o..o + w]);
  }

  /**
   * `_replace` with `in_place=True`: the line is written slot by slot while a
   * running index walks the flat list.
   */
  method ReplaceInPlace(line: array<Event>, ps: seq<Option<int>>)
    requires |ps| >= Size(line[..])
    modifies line
    ensures line[..] == Replace(old(line[..]), ps)
  {
    ghost var m := line[..];
    ghost var target := Replace(m, ps);
    var k := 0;
    for i := 0 to line.Length
      invariant k == Offset(m, i) && k <= Size(m)
      invariant |target| == line.Length
      invariant forall j :: 0 <= j < i ==> line[j] == target[j]
      invariant forall j :: i <= j < line.Length ==> line[j] == m[j]
    {
      assert k + Width(m[i]) <= Size(m) <= |ps|
          && Offset(m, i + 1) == k + Width(m[i])
          && target[i] == Refill(m[i], ps[k..k + Width(m[i])]) by {
        OffsetStep(m, i);
        ReplaceAt(m, ps, i);
      }
      var item := line[i];
      var l := Width(item);
      if item.Chord? {
        item := Chord(ps[k..k + l]);
      } else {
        item := ToEvent(ps[k]);
      }
      line[i] := item;
      k := k + l;
    }
    assert line[..] == target;
  }

  /** Whether a position can be read: in range, and in range of its cluster when it names an entry of one. */
  predicate CanAccess(m: PitchLine, pos: Position)
  {
    pos.i < |m| && (pos.InChord? && m[pos.i].Chord? ==> pos.j < |m[pos.i].pitches|)
  }

  /**
   * `_access` on a pitch line: an `(i, j)` position reads entry `j` of a
   * cluster and the item itself otherwise, so that the same position also
   * serves the duration line.
   */
  function Access(m: PitchLine, pos: Position): (r: Event)
    requires CanAccess(m, pos)
    ensures pos.InChord? && m[pos.i].Chord? ==> !r.Chord?
    ensures r.Chord? ==> r == m[pos.i]
  {
    if pos.InChord? && m[pos.i].Chord? then ToEvent(m[pos.i].pitches[pos.j]) else m[pos.i]
  }

  /** `_access` on a duration line: only the item index matters. */
  function AccessDuration(d: seq<real>, pos: Position): (r: real)
    requires pos.i < |d|
    ensures r in d
  {
    d[pos.Index()]
  }

  /** What `Access` reads is the flat pitch at the matching place of `Extract`. */
  lemma AccessExtract(m: PitchLine, pos: Position)
    requires CanAccess(m, pos)
    ensures pos.InChord? && m[pos.i].Chord? ==>
      Offset(m, pos.i) + pos.j < Size(m) && Access(m, pos) == ToEvent(Extract(m)[Offset(m, pos.i) + pos.j])
    ensures !m[pos.i].Chord? ==>
      Offset(m, pos.i) < Size(m) && Access(m, pos) == ToEvent(Extract(m)[Offset(m, pos.i)])
  {
    var e := m[pos.i];
    if pos.InChord? && e.Chord? {
      ExtractEntry(m, pos.i, pos.j);
      assert Flat(e) == e.pitches;
    } else if !e.Chord? {
      ExtractEntry(m, pos.i, 0);
      FlatSingle(e);
    }
  }

  /** A rest or a single pitch is rebuilt from its one flat pitch. */
  lemma FlatSingle(e: Event)
    requires !e.Chord?
    ensures ToEvent(Flat(e)[0]) == e
  {
  }

  /** Entry `j` of item `i`'s flat pitches is the flat pitch at its offset plus `j`. */
  lemma ExtractEntry(m: PitchLine, i: nat, j: nat)
    requires i < |m| && j < Width(m[i])
    ensures Offset(m, i) + j < Size(m) && Extract(m)[Offset(m, i) + j] == Flat(m[i])[j]
  {
    var lo, w := Offset(m, i), Width(m[i]);
    ExtractAt(m, i);
    SliceAt(Extract(m), lo, lo + w, j);
  }

  /** Whether a position can be written: an `(i, j)` position needs a cluster at `i`. */
  predicate CanModify(m: PitchLine, pos: Position)
  {
    pos.i < |m| && (pos.InChord? ==> m[pos.i].Chord? && pos.j < |m[pos.i].pitches|)
  }

  /** `_modify` (copying variant): the item, or the cluster entry, at the position becomes `x`. */
  function Modify(m: PitchLine, pos: Position, x: Option<int>): (r: PitchLine)
    requires CanModify(m, pos)
    ensures |r| == |m| && CanAccess(r, pos)
    ensures forall k :: 0 <= k < |m| && k != pos.i ==> r[k] == m[k]
    ensures Access(r, pos) == ToEvent(x)
    ensures pos.InChord? ==> Shape(r) == Shape(m)
    ensures pos.InChord? ==>
      r[pos.i].Chord? && forall j :: 0 <= j < |m[pos.i].pitches| && j != pos.j ==> r[pos.i].pitches[j] == m[pos.i].pitches[j]
  {
    match pos
    case Item(i) => m[i := ToEvent(x)]
    case InChord(i, j) => m[i := Chord(m[i].pitches[j := x])]
  }

  /** `_modify` with `in_place=True`. */
  method ModifyInPlace(line: array<Event>, pos: Position, x: Option<int>)
    requires CanModify(line[..], pos)
    modifies line
    ensures line[..] == Modify(old(line[..]), pos, x)
  {
    match pos
    case Item(i) =>
      line[i] := ToEvent(x);
    case InChord(i, j) =>
      line[i] := Chord(line[i].pitches[j := x]);
  }

  /** The examples of the source's tests: extracting, refilling and reading a line. */
  lemma StructureExamples()
    ensures Extract([Note(62), Chord([Some(63), Some(64)]), Rest]) == [Some(62), Some(63), Some(64), None]
    ensures Replace([Note(62), Chord([Some(63), Some(64)]), Rest], [Some(1), Some(2), Some(3), Some(4)])
         == [Note(1), Chord([Some(2), Some(3)]), Note(4)]
    ensures Access([Chord([Some(60), Some(61)]), Rest], InChord(0, 1)) == Note(61)
    ensures Access([Chord([Some(60), Some(61)]), Rest], Item(0)) == Chord([Some(60), Some(61)])
    ensures AccessDuration([1.0, 2.0], InChord(0, 1)) == 1.0
  {
    var m := [Note(62), Chord([Some(63), Some(64)]), Rest];
    assert m[1..] == [Chord([Some(63), Some(64)]), Rest];
    assert m[1..][1..] == [Rest];
    var ps := [Some(1), Some(2), Some(3), Some(4)];
    assert ps[..1] == [Some(1)] && ps[1..] == [Some(2), Some(3), Some(4)];
    assert ps[1..][..2] == [Some(2), Some(3)] && ps[1..][2..] == [Some(4)];
  }
}
