/**
 * Editing a motif's pitch line and duration line together (ch0p1n/motif.py):
 * `elaborate` adds items next to a reference item and takes their time from
 * it or from a neighbour, `divide` cuts a motif into parts of equal length,
 * and `fragment` takes a slice, stretched or shrunk to a share of the whole.
 * Durations are exact rationals.
 */
module Editors {
  import opened Seqs
  import opened Structure
  import opened Scale
  import opened Variation

  // ---------------------------------------------------------------- elaborate: pitches

  /** Where `elaborate` puts the new items: before or after the reference item, timed by it or by a neighbour. */
  datatype Side = Left | Right | Previous | Next

  /** An event after a move, and the list the move has left. */
  datatype MovedEvent = MovedEvent(event: Event, scale: seq<int>)

  /** Whether every pitch of an event can be moved by `step` without leaving the list. */
  predicate CanMoveEvent(e: Event, scale: seq<int>, step: int)
  {
    match e
    case Rest => true
    case Note(p) => CanMove(Some(p), scale, Some(step))
    case Chord(ps) => MoveAll(ps, scale, Some(step)).Some?
  }

  /**
   * One nonzero step of `elaborate`: a single pitch is moved, each entry of a
   * cluster is moved in turn along the same list, and a rest stays a rest.
   */
  function MoveEvent(e: Event, scale: seq<int>, step: int): (r: MovedEvent)
    requires CanMoveEvent(e, scale, step)
    ensures step != 0 ==> SlotOf(r.event) == SlotOf(e)
    ensures e.Rest? ==> r == MovedEvent(Rest, scale)
  {
    match e
    case Rest => MovedEvent(Rest, scale)
    case Note(p) =>
      var moved := Move(Some(p), scale, Some(step));
      MovedEvent(ToEvent(moved.pitch), moved.scale)
    case Chord(ps) =>
      var moved := MoveAll(ps, scale, Some(step)).value;
      MovedEvent(Chord(moved.pitches), moved.scale)
  }

  /**
   * The items `elaborate` generates, one per step: a rest for `None`, the
   * current item for 0, and otherwise the current item moved along the shared
   * list, which becomes the current item when the steps are relative. `None`
   * once a move would run off the list.
   */
  function Generated(current: Event, steps: seq<Option<int>>, scale: seq<int>, relative: bool): (r: Option<seq<Event>>)
    ensures r.Some? ==> |r.value| == |steps|
    decreases |steps|
  {
    if steps == [] then Some([])
    else if steps[0].None? then
      var tail := Generated(current, steps[1..], scale, relative);
      if tail.None? then None else Some([Rest] + tail.value)
    else if steps[0].value == 0 then
      var tail := Generated(current, steps[1..], scale, relative);
      if tail.None? then None else Some([current] + tail.value)
    else if !CanMoveEvent(current, scale, steps[0].value) then None
    else
      var moved := MoveEvent(current, scale, steps[0].value);
      var tail := Generated(if relative then moved.event else current, steps[1..], moved.scale, relative);
      if tail.None? then None else Some([moved.event] + tail.value)
  }

  /** How far a step moves, a rest counting as no move. */
  function Distance(step: Option<int>): int
  {
    if step.None? then 0 else step.value
  }

  /** The distance of all the steps together. */
  function Travel(steps: seq<Option<int>>): int
  {
    if steps == [] then 0 else Distance(steps[0]) + Travel(steps[1..])
  }

  /**
   * How far item `k` lies from the reference pitch: the steps so far added up
   * when they are relative, step `k` alone when they are not.
   */
  function Reach(steps: seq<Option<int>>, k: nat, relative: bool): int
    requires k < |steps|
  {
    if relative then Travel(steps[..k + 1]) else Distance(steps[k])
  }

  /**
   * From a pitch on a strictly ascending list, `elaborate` walks the list: item
   * `k` is a rest for a `None` step and otherwise the entry `Reach` places from
   * the reference, whenever every such entry exists.
   */
  lemma {:induction false} GeneratedWalk(scale: seq<int>, i: nat, steps: seq<Option<int>>, relative: bool)
    requires StrictlyAscending(scale) && i < |scale|
    requires forall k :: 0 <= k < |steps| ==> 0 <= i + Reach(steps, k, relative) < |scale|
    decreases |steps|
    ensures Generated(Note(scale[i]), steps, scale, relative).Some?
    ensures forall k :: 0 <= k < |steps| ==>
      Generated(Note(scale[i]), steps, scale, relative).value[k] ==
      if steps[k].None? then Rest else Note(scale[i + Reach(steps, k, relative)])
  {
    if steps != [] {
      var rest := steps[1..];
      var d := Distance(steps[0]);
      ReachFirst(steps, relative);
      var next := if relative then i + d else i;
      forall k | 0 <= k < |rest|
        ensures 0 <= next + Reach(rest, k, relative) < |scale|
      {
        ReachTail(steps, k, relative);
        assert 0 <= i + Reach(steps, k + 1, relative) < |scale|;
      }
      GeneratedWalk(scale, next, rest, relative);
      var head := if steps[0].None? then Rest else Note(scale[i + d]);
      var tail := Generated(Note(scale[next]), rest, scale, relative).value;
      GeneratedFirst(scale, i, steps, relative, next, head);
      WalkCons(scale, i, steps, relative, next, head, tail);
    }
  }

  /** The walk from the reference is its first item followed by the walk from the next reference. */
  lemma WalkCons(scale: seq<int>, i: nat, steps: seq<Option<int>>, relative: bool, next: int, head: Event, tail: seq<Event>)
    requires steps != [] && |tail| == |steps| - 1
    requires forall k :: 0 <= k < |steps| ==> 0 <= i + Reach(steps, k, relative) < |scale|
    requires next == if relative then i + Distance(steps[0]) else i
    requires forall k :: 0 <= k < |tail| ==> 0 <= next + Reach(steps[1..], k, relative) < |scale|
    requires head == if steps[0].None? then Rest else Note(scale[i + Reach(steps, 0, relative)])
    requires forall k :: 0 <= k < |tail| ==>
      tail[k] == if steps[1..][k].None? then Rest else Note(scale[next + Reach(steps[1..], k, relative)])
    ensures forall k :: 0 <= k < |steps| ==>
      ([head] + tail)[k] == if steps[k].None? then Rest else Note(scale[i + Reach(steps, k, relative)])
  {
    forall k | 0 <= k < |steps|
      ensures ([head] + tail)[k] == if steps[k].None? then Rest else Note(scale[i + Reach(steps, k, relative)])
    {
      if k > 0 {
        ReachTail(steps, k - 1, relative);
        assert steps[k] == steps[1..][k - 1];
      }
    }
  }

  /** The first item lies the first step away. */
  lemma ReachFirst(steps: seq<Option<int>>, relative: bool)
    requires steps != []
    ensures Reach(steps, 0, relative) == Distance(steps[0])
  {
    assert steps[..1] == [steps[0]] && Travel([steps[0]]) == Distance(steps[0]) + Travel([]);
  }

  /** Later items lie, from the reference, as far as the first step (when relative) plus their place among the other steps. */
  lemma ReachTail(steps: seq<Option<int>>, k: nat, relative: bool)
    requires k + 1 < |steps|
    ensures Reach(steps, k + 1, relative) == (if relative then Distance(steps[0]) else 0) + Reach(steps[1..], k, relative)
  {
    if relative {
      var pre := steps[..k + 2];
      assert pre[0] == steps[0] && pre[1..] == steps[1..][..k + 1];
    } else {
      assert steps[k + 1] == steps[1..][k];
    }
  }

  /** The first step from an entry of a strictly ascending list stays on it and lands `Distance` entries away. */
  lemma GeneratedFirst(scale: seq<int>, i: nat, steps: seq<Option<int>>, relative: bool, next: nat, head: Event)
    requires StrictlyAscending(scale) && i < |scale| && steps != []
    requires 0 <= i + Distance(steps[0]) < |scale|
    requires next == if relative then i + Distance(steps[0]) else i
    requires head == if steps[0].None? then Rest else Note(scale[i + Distance(steps[0])])
    requires next < |scale| && Generated(Note(scale[next]), steps[1..], scale, relative).Some?
    ensures Generated(Note(scale[i]), steps, scale, relative) == Some([head] + Generated(Note(scale[next]), steps[1..], scale, relative).value)
  {
    if steps[0].None? {
      assert next == i;
    } else if steps[0].value == 0 {
      assert next == i && head == Note(scale[i]);
    } else {
      MoveOnScale(scale, i, steps[0].value);
    }
  }

  /** `list(reversed(s))` */
  function Reversed<T>(s: seq<T>): (r: seq<T>)
    ensures |r| == |s| && forall k :: 0 <= k < |s| ==> r[k] == s[|s| - 1 - k]
  {
    if s == [] then [] else Reversed(s[1..]) + [s[0]]
  }

  /** Where the new items start: at the reference item on the left, just after it on the right. */
  function Gap(i: nat, side: Side): nat
  {
    if side.Left? || side.Previous? then i else i + 1
  }

  /**
   * `elaborate`'s pitch line: the new items, reversed, just before the
   * reference item, or just after it. Taking them out again gives back the
   * line.
   */
  function Spliced(m: PitchLine, i: nat, side: Side, items: seq<Event>): (r: PitchLine)
    requires i < |m|
    ensures |r| == |m| + |items|
    ensures r[..Gap(i, side)] + r[Gap(i, side) + |items|..] == m
    ensures r[Gap(i, side)..Gap(i, side) + |items|] == if side.Left? || side.Previous? then Reversed(items) else items
  {
    var c := Gap(i, side);
    var news := if side.Left? || side.Previous? then Reversed(items) else items;
    var r := m[..c] + news + m[c..];
    assert r[..c] == m[..c] && r[c + |news|..] == m[c..] && r[c..c + |news|] == news;
    assert m[..c] + m[c..] == m;
    r
  }

  // ---------------------------------------------------------------- elaborate: durations

  /** Python's truth value of the optional ratio: `None` and 0 both mean no ratio. */
  predicate Given(ratio: Option<real>)
  {
    ratio.Some? && ratio.value != 0.0
  }

  /** A duration the caller gives is made negative, so that its items are rests. */
  function Negated(duration: Option<real>): (r: Option<real>)
    ensures r.Some? <==> duration.Some?
    ensures r.Some? ==> r.value <= 0.0 && (r.value == duration.value || r.value == -duration.value)
  {
    if duration.Some? && duration.value > 0.0 then Some(-duration.value) else duration
  }

  /**
   * The time the new items share: the reference item's for 'left' and
   * 'right', the neighbour's for 'previous' and 'next' when there is one, and
   * otherwise the caller's (negated). `None` where the source fails: an index
   * past the duration line, or no duration given.
   */
  function ReferenceDuration(ds: seq<real>, i: nat, side: Side, duration: Option<real>): (r: Option<real>)
    ensures (side.Left? || side.Right?) ==> (r.Some? <==> i < |ds|) && (r.Some? ==> r.value == ds[i])
    ensures side.Previous? && 0 < i <= |ds| ==> r == Some(ds[i - 1])
    ensures side.Next? && i + 1 < |ds| ==> r == Some(ds[i + 1])
  {
    match side
    case Left => if i < |ds| then Some(ds[i]) else None
    case Right => if i < |ds| then Some(ds[i]) else None
    case Previous =>
      if i > 0 then (if i - 1 < |ds| then Some(ds[i - 1]) else None)
      else Negated(duration)
    case Next => if i + 1 < |ds| then Some(ds[i + 1]) else Negated(duration)
  }

  /**
   * The durations of the reference and the new items: equal shares without a
   * ratio; with one, the new items share `ratio` of the time and the
   * reference keeps the rest, on the side away from them.
   */
  function NewDurations(d: real, n: nat, side: Side, ratio: Option<real>): (r: seq<real>)
    requires Given(ratio) ==> n > 0
    ensures |r| == n + 1
  {
    if !Given(ratio) then Repeat(Portion(d, n + 1), n + 1)
    else Shares(Portion(d * ratio.value, n), d * (1.0 - ratio.value), n, side.Left? || side.Next?)
  }

  /** One of `n` equal parts of the time `d`. */
  function Portion(d: real, n: nat): real
    requires n > 0
  {
    d / (n as real)
  }

  /** `n` equal parts add up to the whole. */
  lemma PortionsSum(d: real, n: nat)
    requires n > 0
    ensures Sum(Repeat(Portion(d, n), n)) == d
  {
    SumRepeat(Portion(d, n), n);
    assert (n as real) * Portion(d, n) == d;
  }

  /** `n` equal shares with what is kept after them (`first`) or before them. */
  function Shares(share: real, keep: real, n: nat, first: bool): (r: seq<real>)
    ensures |r| == n + 1 && Sum(r) == Sum(Repeat(share, n)) + keep
  {
    SumOne(keep);
    if first then
      SumConcat(Repeat(share, n), [keep]);
      Repeat(share, n) + [keep]
    else
      SumConcat([keep], Repeat(share, n));
      [keep] + Repeat(share, n)
  }

  /** The new durations add up to the time they share. */
  lemma NewDurationsSum(d: real, n: nat, side: Side, ratio: Option<real>)
    requires Given(ratio) ==> n > 0
    ensures Sum(NewDurations(d, n, side, ratio)) == d
  {
    if !Given(ratio) {
      PortionsSum(d, n + 1);
    } else {
      PortionsSum(d * ratio.value, n);
    }
  }

  function Min(a: nat, b: nat): nat
  {
    if a <= b then a else b
  }

  /** `s[:j]` for `j >= 0`: Python clamps the end to the length. */
  function Take<T>(s: seq<T>, j: nat): (r: seq<T>)
    ensures j <= |s| ==> r == s[..j]
    ensures j > |s| ==> r == s
  {
    s[..Min(j, |s|)]
  }

  /** `s[j:]` for `j >= 0`. */
  function Drop<T>(s: seq<T>, j: nat): (r: seq<T>)
    ensures j <= |s| ==> r == s[j..]
    ensures j > |s| ==> r == []
  {
    s[Min(j, |s|)..]
  }

  /** `s[a:b]` for `a, b >= 0`: empty when `a` is not before `b`. */
  function Slice<T>(s: seq<T>, a: nat, b: nat): (r: seq<T>)
    ensures a <= b <= |s| ==> r == s[a..b]
  {
    if a <= b then Take(Drop(s, a), b - a) else []
  }

  /** The item whose duration the new durations replace: the reference item, or its neighbour. */
  function Timed(i: nat, side: Side): nat
  {
    match side
    case Previous => if i > 0 then i - 1 else 0
    case Next => i + 1
    case _ => i
  }

  /**
   * `elaborate`'s duration line: the new durations replace the timed item's,
   * and at the edges, where there is no neighbour, they are added before the
   * line ('previous' of the first item) or after it ('next' of the last).
   */
  function Retimed(ds: seq<real>, i: nat, side: Side, news: seq<real>): (r: seq<real>)
    requires news != []
    ensures i < |ds| ==> |r| == |ds| + |news| - 1
  {
    if side.Previous? && i == 0 then news[1..] + ds
    else if side.Next? && i + 1 == |ds| then ds + news[..|news| - 1]
    else
      var j := Timed(i, side);
      Take(ds, j) + news + Drop(ds, j + 1)
  }

  /** The pitch line and the duration line `elaborate` returns. */
  datatype Lines = Lines(pitches: PitchLine, durations: seq<real>)

  /** What `elaborate` may be called with: a reference on the line, moves that stay on the list, and a time to share. */
  predicate CanElaborate(m: PitchLine, ds: seq<real>, reference: Position, steps: seq<Option<int>>, classes: seq<int>,
                         side: Side, ratio: Option<real>, relative: bool, duration: Option<real>)
  {
    CanAccess(m, reference) &&
    Generated(Access(m, reference), steps, Reify(classes), relative).Some? &&
    ReferenceDuration(ds, reference.i, side, duration).Some? &&
    (Given(ratio) ==> |steps| > 0)
  }

  /** `elaborate`, both lines. */
  function Elaborated(m: PitchLine, ds: seq<real>, reference: Position, steps: seq<Option<int>>, classes: seq<int>,
                      side: Side, ratio: Option<real>, relative: bool, duration: Option<real>): (r: Lines)
    requires CanElaborate(m, ds, reference, steps, classes, side, ratio, relative, duration)
    ensures |r.pitches| == |m| + |steps|
    ensures var g := Gap(reference.Index(), side); g + |steps| <= |r.pitches| && r.pitches[..g] + r.pitches[g + |steps|..] == m
  {
    var i := reference.Index();
    var items := Generated(Access(m, reference), steps, Reify(classes), relative).value;
    var d := ReferenceDuration(ds, i, side, duration).value;
    Lines(Spliced(m, i, side, items), Retimed(ds, i, side, NewDurations(d, |steps|, side, ratio)))
  }

  /**
   * `elaborate`'s loop: generate the items step by step, reifying the classes
   * only at the first real move and then moving along the list each move
   * leaves.
   */
  method Generate(pitch: Event, steps: seq<Option<int>>, classes: seq<int>, relative: bool) returns (items: seq<Event>)
    requires Generated(pitch, steps, Reify(classes), relative).Some?
    ensures items == Generated(pitch, steps, Reify(classes), relative).value
  {
    items := [];
    var current := pitch;
    var scale: seq<int> := [];
    var reified := false;
    ghost var along := Reify(classes);
    ghost var all := Generated(pitch, steps, Reify(classes), relative).value;
    for k := 0 to |steps|
      invariant !reified ==> along == Reify(classes)
      invariant reified ==> scale == along
      invariant Generated(current, steps[k..], along, relative).Some?
      invariant all == items + Generated(current, steps[k..], along, relative).value
    {
      var rest := steps[k..];
      assert rest[0] == steps[k] && rest[1..] == steps[k + 1..];
      ghost var before := items;
      ghost var tail := Generated(current, rest, along, relative).value;
      if steps[k].None? {
        items := items + [Rest];
      } else if steps[k].value == 0 {
        items := items + [current];
      } else {
        if !reified {
          scale := Reify(classes);
          reified := true;
        }
        var moved := MoveEvent(current, scale, steps[k].value);
        items := items + [moved.event];
        scale := moved.scale;
        along := scale;
        if relative {
          current := moved.event;
        }
      }
      ghost var after := Generated(current, steps[k + 1..], along, relative).value;
      assert tail == [items[|items| - 1]] + after;
      assert all == before + tail;
      assert items == before + [items[|items| - 1]];
      ConcatAssoc(before, [items[|items| - 1]], after);
    }
    assert steps[|steps|..] == [];
  }

  /** `elaborate`: the generated items spliced into the pitch line, their durations into the duration line. */
  method Elaborate(m: PitchLine, ds: seq<real>, reference: Position, steps: seq<Option<int>>, classes: seq<int>,
                   side: Side, ratio: Option<real>, relative: bool, duration: Option<real>)
    returns (r: Lines)
    requires CanElaborate(m, ds, reference, steps, classes, side, ratio, relative, duration)
    ensures r == Elaborated(m, ds, reference, steps, classes, side, ratio, relative, duration)
  {
    var i := reference.Index();
    var items := Generate(Access(m, reference), steps, classes, relative);
    var d := ReferenceDuration(ds, i, side, duration).value;
    var durations := NewDurations(d, |steps|, side, ratio);
    r := Lines(Spliced(m, i, side, items), Retimed(ds, i, side, durations));
    ElaboratedIs(m, ds, reference, steps, classes, side, ratio, relative, duration, items);
  }

  /** `Elaborated` once the generated items are known. */
  lemma ElaboratedIs(m: PitchLine, ds: seq<real>, reference: Position, steps: seq<Option<int>>, classes: seq<int>,
                     side: Side, ratio: Option<real>, relative: bool, duration: Option<real>, items: seq<Event>)
    requires CanElaborate(m, ds, reference, steps, classes, side, ratio, relative, duration)
    requires items == Generated(Access(m, reference), steps, Reify(classes), relative).value
    ensures Elaborated(m, ds, reference, steps, classes, side, ratio, relative, duration) ==
      Lines(Spliced(m, reference.i, side, items),
            Retimed(ds, reference.i, side, NewDurations(ReferenceDuration(ds, reference.i, side, duration).value, |steps|, side, ratio)))
  {
  }

  /** `elaborate` adds one item per step to each line, so aligned lines stay aligned. */
  lemma ElaborateAligned(m: PitchLine, ds: seq<real>, reference: Position, steps: seq<Option<int>>, classes: seq<int>,
                         side: Side, ratio: Option<real>, relative: bool, duration: Option<real>)
    requires CanElaborate(m, ds, reference, steps, classes, side, ratio, relative, duration)
    requires |ds| == |m|
    ensures var r := Elaborated(m, ds, reference, steps, classes, side, ratio, relative, duration);
      |r.pitches| == |m| + |steps| && |r.durations| == |ds| + |steps|
  {
    var i := reference.i;
    var news := NewDurations(ReferenceDuration(ds, i, side, duration).value, |steps|, side, ratio);
    RetimedLength(ds, i, side, news);
  }

  /** Away from the edges the new durations replace one, and at the edges all but one are added. */
  lemma RetimedLength(ds: seq<real>, i: nat, side: Side, news: seq<real>)
    requires news != []
    requires (side.Left? || side.Right?) ==> i < |ds|
    requires side.Previous? ==> i <= |ds|
    requires side.Next? ==> i < |ds|
    ensures |Retimed(ds, i, side, news)| == |ds| + |news| - 1
  {
    if !(side.Previous? && i == 0) && !(side.Next? && i + 1 == |ds|) {
      var j := Timed(i, side);
      assert j < |ds|;
      assert |Take(ds, j) + news + Drop(ds, j + 1)| == j + |news| + (|ds| - j - 1);
    }
  }

  /**
   * Where the new durations replace an existing one ('left', 'right', and
   * 'previous' or 'next' of an inner item), `elaborate` keeps the total
   * duration of the motif.
   */
  lemma ElaborateTotal(m: PitchLine, ds: seq<real>, reference: Position, steps: seq<Option<int>>, classes: seq<int>,
                       side: Side, ratio: Option<real>, relative: bool, duration: Option<real>)
    requires CanElaborate(m, ds, reference, steps, classes, side, ratio, relative, duration)
    requires side.Left? || side.Right? || (side.Previous? && 0 < reference.i <= |ds|) || (side.Next? && reference.i + 1 < |ds|)
    ensures Sum(Elaborated(m, ds, reference, steps, classes, side, ratio, relative, duration).durations) == Sum(ds)
  {
    var i := reference.i;
    var d := ReferenceDuration(ds, i, side, duration).value;
    NewDurationsSum(d, |steps|, side, ratio);
    RetimedTotal(ds, i, side, NewDurations(d, |steps|, side, ratio), d);
  }

  /** Replacing the timed item's duration by durations that add up to it keeps the total. */
  lemma RetimedTotal(ds: seq<real>, i: nat, side: Side, news: seq<real>, d: real)
    requires news != [] && Sum(news) == d
    requires !(side.Previous? && i == 0) && !(side.Next? && i + 1 == |ds|)
    requires Timed(i, side) < |ds| && d == ds[Timed(i, side)]
    ensures Sum(Retimed(ds, i, side, news)) == Sum(ds)
  {
    var j := Timed(i, side);
    assert Retimed(ds, i, side, news) == ds[..j] + news + ds[j + 1..];
    SumReplace(ds, j, news);
  }

  // ---------------------------------------------------------------- divide

  /** A part of a motif: its pitch line and its duration line. */
  datatype Part = Part(pitches: PitchLine, durations: seq<real>)

  /** The state of `divide` after some items: the parts so far, and the part being filled. */
  datatype Division = Division(parts: seq<Part>, pm: PitchLine, dm: seq<real>)

  /**
   * One item of `divide`'s loop: an item that still fits the open part joins
   * it, closing it when it fills it exactly; an item that overflows is split,
   * its first share closing the part and the rest, with the same pitch,
   * opening the next one.
   */
  function DivideStep(s: Division, pitch: Event, d: real, l: real): (r: Division)
    ensures |s.parts| <= |r.parts| <= |s.parts| + 1 && r.parts[..|s.parts|] == s.parts
  {
    var ld := Sum(s.dm) + d;
    if ld <= l then
      if ld == l then Division(s.parts + [Part(s.pm + [pitch], s.dm + [d])], [], [])
      else Division(s.parts, s.pm + [pitch], s.dm + [d])
    else
      var d1 := l - Sum(s.dm);
      Division(s.parts + [Part(s.pm + [pitch], s.dm + [d1])], [pitch], [d - d1])
  }

  /** `divide`'s loop after the first `k` items. */
  function Divided(m: PitchLine, ds: seq<real>, l: real, k: nat): (r: Division)
    requires k <= |ds| <= |m|
    ensures |r.parts| <= k
  {
    if k == 0 then Division([], [], []) else DivideStep(Divided(m, ds, l, k - 1), m[k - 1], ds[k - 1], l)
  }

  /** `divide`: the parts of length `total / n`; an unfinished last part is dropped. */
  method Divide(m: PitchLine, ds: seq<real>, n: int) returns (motifs: seq<Part>)
    requires n != 0 && |ds| <= |m|
    ensures motifs == Divided(m, ds, Sum(ds) / (n as real), |ds|).parts
  {
    var l := Sum(ds) / (n as real);
    motifs := [];
    var pm: PitchLine := [];
    var dm: seq<real> := [];
    for i := 0 to |ds|
      invariant Divided(m, ds, l, i) == Division(motifs, pm, dm)
    {
      var ldm := Sum(dm);
      var ld := ldm + ds[i];
      if ld <= l {
        pm := pm + [m[i]];
        dm := dm + [ds[i]];
        if ld == l {
          motifs := motifs + [Part(pm, dm)];
          pm := [];
          dm := [];
        }
      } else {
        var d1 := l - ldm;
        var d2 := ds[i] - d1;
        var pitch := m[i];
        pm := pm + [pitch];
        dm := dm + [d1];
        motifs := motifs + [Part(pm, dm)];
        pm := [pitch];
        dm := [d2];
      }
    }
  }

  /** Every duration is positive and at most `l`. */
  predicate Divisible(ds: seq<real>, l: real)
  {
    forall k :: 0 <= k < |ds| ==> 0.0 < ds[k] <= l
  }

  /**
   * What `divide` keeps after each item: every closed part lasts exactly `l`
   * and has a pitch per duration, the open part lasts less than `l` and has a
   * pitch per duration, and the parts and the open part add up to `total`.
   */
  ghost predicate Kept(r: Division, l: real, total: real)
  {
    (forall q :: 0 <= q < |r.parts| ==> Sum(r.parts[q].durations) == l && |r.parts[q].pitches| == |r.parts[q].durations|) &&
    |r.pm| == |r.dm| && 0.0 <= Sum(r.dm) < l &&
    (|r.parts| as real) * l + Sum(r.dm) == total
  }

  /** With positive durations none longer than `l`, each item keeps `Kept`, the total growing by its duration. */
  lemma DivideStepKept(s: Division, pitch: Event, d: real, l: real, total: real)
    requires Kept(s, l, total) && 0.0 < d <= l
    ensures Kept(DivideStep(s, pitch, d, l), l, total + d)
  {
    var r := DivideStep(s, pitch, d, l);
    var ld := Sum(s.dm) + d;
    if ld <= l {
      SumConcat(s.dm, [d]);
      assert Sum([d]) == d;
      if ld == l {
        ClosedPart(s, Part(s.pm + [pitch], s.dm + [d]), l);
        assert Sum(r.dm) == 0.0;
      }
    } else {
      var d1 := l - Sum(s.dm);
      SumConcat(s.dm, [d1]);
      assert Sum([d1]) == d1;
      assert Sum([d - d1]) == d - d1;
      ClosedPart(s, Part(s.pm + [pitch], s.dm + [d1]), l);
    }
  }

  /** Closing a part of length `l` adds one part and `l` to the closed time. */
  lemma ClosedPart(s: Division, part: Part, l: real)
    requires forall q :: 0 <= q < |s.parts| ==> Sum(s.parts[q].durations) == l && |s.parts[q].pitches| == |s.parts[q].durations|
    requires Sum(part.durations) == l && |part.pitches| == |part.durations|
    ensures var parts := s.parts + [part];
      (forall q :: 0 <= q < |parts| ==> Sum(parts[q].durations) == l && |parts[q].pitches| == |parts[q].durations|) &&
      (|parts| as real) * l == (|s.parts| as real) * l + l
  {
  }

  /** `divide` keeps `Kept` from the first item to the last. */
  lemma {:induction false} DividedParts(m: PitchLine, ds: seq<real>, l: real, k: nat)
    requires k <= |ds| <= |m| && Divisible(ds, l) && 0.0 < l
    ensures Kept(Divided(m, ds, l, k), l, Sum(ds[..k]))
  {
    if k == 0 {
      assert ds[..0] == [];
    } else {
      DividedParts(m, ds, l, k - 1);
      var d := ds[k - 1];
      assert ds[..k] == ds[..k - 1] + [d];
      SumConcat(ds[..k - 1], [d]);
      assert Sum([d]) == d;
      DivideStepKept(Divided(m, ds, l, k - 1), m[k - 1], d, l, Sum(ds[..k - 1]));
    }
  }

  /** A duration line with an item has a positive bound when it is divisible by it. */
  lemma DividedEmpty(ds: seq<real>, l: real)
    requires Divisible(ds, l) && ds != []
    ensures 0.0 < l
  {
    assert 0.0 < ds[0] <= l;
  }

  /**
   * The promise of `divide`: with positive durations none longer than
   * `total / n`, there are exactly `n` parts, each lasting `total / n`, with a
   * pitch per duration.
   */
  lemma DivideCount(m: PitchLine, ds: seq<real>, n: int)
    requires |ds| <= |m| && n > 0 && ds != []
    requires Divisible(ds, Sum(ds) / (n as real))
    ensures var r := Divided(m, ds, Sum(ds) / (n as real), |ds|);
      |r.parts| == n &&
      forall q :: 0 <= q < n ==> Sum(r.parts[q].durations) == Sum(ds) / (n as real) && |r.parts[q].pitches| == |r.parts[q].durations|
  {
    var l := Sum(ds) / (n as real);
    DividedEmpty(ds, l);
    assert (n as real) * l == Sum(ds);
    PartsCount(m, ds, l, n);
  }

  /** With `n` parts' worth of time, `divide` closes exactly `n` parts, each lasting `l`. */
  lemma PartsCount(m: PitchLine, ds: seq<real>, l: real, n: nat)
    requires |ds| <= |m| && 0.0 < l && Divisible(ds, l) && (n as real) * l == Sum(ds)
    ensures var r := Divided(m, ds, l, |ds|);
      |r.parts| == n &&
      forall q :: 0 <= q < n ==> Sum(r.parts[q].durations) == l && |r.parts[q].pitches| == |r.parts[q].durations|
  {
    DividedParts(m, ds, l, |ds|);
    assert ds[..|ds|] == ds;
    var r := Divided(m, ds, l, |ds|);
    WholeParts(|r.parts|, n, l, Sum(r.dm));
  }

  /** Whole parts of a positive length plus less than one more make `n` parts only when they are exactly `n`. */
  lemma WholeParts(p: nat, n: nat, l: real, rest: real)
    requires 0.0 < l && 0.0 <= rest < l
    requires (p as real) * l + rest == (n as real) * l
    ensures p == n
  {
    var x := n - p;
    Multiples(x, l);
    assert (x as real) * l == rest;
  }

  /** A whole multiple of a positive length is at least that length, or at most its negation, unless it is zero. */
  lemma Multiples(x: int, l: real)
    requires 0.0 < l
    ensures x >= 1 ==> l <= (x as real) * l
    ensures x <= -1 ==> (x as real) * l <= -l
  {
  }

  // ---------------------------------------------------------------- fragment

  /**
   * Which end of a fragment absorbs the difference to the wanted length:
   * `'left'`, `'right'`, or any other string, for which no end is stretched.
   */
  datatype Fit = FitLeft | FitRight | FitNone

  /**
   * `fragment`: items `start` to `end` of both lines; with a ratio, the
   * duration at the fitted end is stretched or shrunk so that the fragment
   * lasts `ratio` of the whole motif; with neither end named the slice is
   * returned as it is, ratio or not.
   */
  function Fragment(m: PitchLine, ds: seq<real>, start: nat, end: nat, ratio: Option<real>, fit: Fit): (r: Part)
    requires Given(ratio) && !fit.FitNone? ==> Slice(ds, start, end + 1) != []
    ensures Given(ratio) && !fit.FitNone? ==> |r.durations| == |Slice(ds, start, end + 1)| && Sum(r.durations) == Sum(ds) * ratio.value
    ensures fit.FitNone? ==> r.durations == Slice(ds, start, end + 1)
  {
    var pm := Slice(m, start, end + 1);
    var dm := Slice(ds, start, end + 1);
    if !Given(ratio) || fit.FitNone? then Part(pm, dm)
    else
      var at, total := if fit.FitRight? then |dm| - 1 else 0, Scaled(ds, ratio.value);
      StretchedSpec(dm, at, total);
      assert total == Sum(ds) * ratio.value;
      Part(pm, Stretched(dm, at, total))
  }

  /** `ratio` of the time the whole line lasts. */
  function Scaled(ds: seq<real>, ratio: real): real
  {
    Sum(ds) * ratio
  }

  /** The entry `at` takes up the difference between `total` and the sum of the list. */
  function Stretched(dm: seq<real>, at: nat, total: real): (r: seq<real>)
    requires at < |dm|
  {
    dm[at := dm[at] + (total - Sum(dm))]
  }

  /**
   * A fragment holds items `start` to `end` of both lines; with a ratio it
   * lasts `ratio` of the whole motif and only the fitted end's duration
   * differs from the slice; without one, or with neither end named, it is
   * the slice itself.
   */
  lemma FragmentSpec(m: PitchLine, ds: seq<real>, start: nat, end: nat, ratio: Option<real>, fit: Fit)
    requires start <= end < |ds| && end < |m|
    ensures var r := Fragment(m, ds, start, end, ratio, fit);
      r.pitches == m[start..end + 1] && |r.durations| == end + 1 - start &&
      (!Given(ratio) || fit.FitNone? ==> r.durations == ds[start..end + 1]) &&
      (Given(ratio) && !fit.FitNone? ==> Sum(r.durations) == Sum(ds) * ratio.value) &&
      (Given(ratio) && !fit.FitNone? ==> forall k :: 0 <= k < |r.durations| && k != (if fit.FitRight? then end - start else 0) ==>
        r.durations[k] == ds[start + k])
  {
    var dm := ds[start..end + 1];
    assert Slice(ds, start, end + 1) == dm && Slice(m, start, end + 1) == m[start..end + 1];
    if Given(ratio) && !fit.FitNone? {
      var at, total := if fit.FitRight? then |dm| - 1 else 0, Scaled(ds, ratio.value);
      StretchedSpec(dm, at, total);
      assert total == Sum(ds) * ratio.value;
    }
  }

  /** A stretched list adds up to `total` and differs from the list at `at` only. */
  lemma StretchedSpec(dm: seq<real>, at: nat, total: real)
    requires at < |dm|
    ensures var r := Stretched(dm, at, total);
      |r| == |dm| && Sum(r) == total && forall k :: 0 <= k < |r| && k != at ==> r[k] == dm[k]
  {
    SumUpdate(dm, at, dm[at] + (total - Sum(dm)));
  }
}
