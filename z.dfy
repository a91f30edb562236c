/**
 * ch0p1n/z.py, an earlier copy of the pitch-moving core. Its `_reify`,
 * `_move`, `_extract`, `_replace` and `transpose` are those of motif.py
 * (modelled in `Scale`, `Structure` and `Variation`) with plain numbers for
 * steps. Its `_move2` tests for an empty step list before it drops the zero
 * steps, the other way round from motif.py; both orders compute the same.
 */
module Z {
  import opened Seqs
  import opened Scale

  /** Plain steps seen as the optional steps of motif.py. */
  function Somes(steps: seq<int>): (r: seq<Option<int>>)
    ensures |r| == |steps| && forall k :: 0 <= k < |steps| ==> r[k] == Some(steps[k])
  {
    seq(|steps|, k requires 0 <= k < |steps| => Some(steps[k]))
  }

  /** `[step for step in steps if step != 0]`. */
  function Nonzero(steps: seq<int>): (r: seq<int>)
    ensures forall k :: k in r <==> k in steps && k != 0
  {
    if steps == [] then []
    else
      assert forall k :: k in steps <==> k == steps[0] || k in steps[1..];
      (if steps[0] == 0 then [] else [steps[0]]) + Nonzero(steps[1..])
  }

  /** Dropping zero steps commutes with seeing the steps as optional ones. */
  lemma {:induction false} NonzeroSomes(steps: seq<int>)
    ensures NonZero(Somes(steps)) == Somes(Nonzero(steps))
  {
    if steps != [] {
      assert Somes(steps)[1..] == Somes(steps[1..]);
      NonzeroSomes(steps[1..]);
      var head := if steps[0] == 0 then [] else [steps[0]];
      assert Somes(head + Nonzero(steps[1..])) == Somes(head) + Somes(Nonzero(steps[1..]));
    }
  }

  /** The steps z.py's `_move2` keeps: all of them, or, for an off-scale pitch, the nonzero ones. */
  function KeptZ(p: int, scale: seq<int>, steps: seq<int>): (r: seq<int>)
    ensures forall k :: k in r ==> k in steps
  {
    if p !in scale && 0 in steps then Nonzero(steps) else steps
  }

  /** Whatever `_move2` keeps stays in range when every step does. */
  lemma KeptInRange(p: int, scale: seq<int>, steps: seq<int>)
    requires InRange(p, scale, Somes(steps))
    ensures InRange(p, scale, Somes(KeptZ(p, scale, steps)))
  {
    var kept := KeptZ(p, scale, steps);
    forall step | step in Somes(kept) ensures step in Somes(steps) {
      var k :| 0 <= k < |kept| && Somes(kept)[k] == step;
      assert kept[k] in steps;
      var j :| 0 <= j < |steps| && steps[j] == kept[k];
      assert Somes(steps)[j] == step;
    }
  }

  /**
   * z.py's `_move2`: `[None]` for a missing pitch, nothing for no steps;
   * otherwise, after an off-scale pitch has dropped its zero steps, one move
   * per kept step along the list that the moves may extend.
   */
  function Move2Z(pitch: Option<int>, scale: seq<int>, steps: seq<int>): (r: MovedAll)
    requires CanMove2(pitch, scale, Somes(steps))
    ensures pitch.None? ==> r.pitches == [None] && r.scale == scale
    ensures pitch.Some? ==> Placed(r.scale, pitch.value) == Placed(scale, pitch.value)
    ensures pitch.Some? ==> r.scale == scale || r.scale == Placed(scale, pitch.value)
    ensures pitch.Some? && (pitch.value in scale || 0 !in steps) ==> |r.pitches| == |steps|
  {
    if pitch.None? then MovedAll([None], scale)
    else if steps == [] then MovedAll([], scale)
    else
      var kept := KeptZ(pitch.value, scale, steps);
      KeptInRange(pitch.value, scale, steps);
      MoveSteps(pitch.value, scale, Somes(kept))
  }

  /** Testing for no steps first or last makes no difference: z.py's `_move2` is motif.py's. */
  lemma Move2ZAgrees(pitch: Option<int>, scale: seq<int>, steps: seq<int>)
    requires CanMove2(pitch, scale, Somes(steps))
    ensures Move2Z(pitch, scale, steps) == Move2(pitch, scale, Somes(steps))
  {
    if pitch.Some? && steps != [] {
      var p := pitch.value;
      assert Some(0) in Somes(steps) <==> 0 in steps by {
        if 0 in steps {
          var k :| 0 <= k < |steps| && steps[k] == 0;
          assert Somes(steps)[k] == Some(0);
        }
      }
      NonzeroSomes(steps);
      assert Kept(p, scale, Somes(steps)) == Somes(KeptZ(p, scale, steps));
    }
  }
}
