/**
 * ch0p1n/lead.py: voice leading by semitone windows. Each flat pitch of a
 * multi-line motif is offered the pitches at most `semitone` semitones away
 * whose class is in the harmony, and every combination of one offer per
 * flat pitch is poured back into the motif.
 */
module NearestLead {
  import opened Seqs
  import opened Structure
  import opened Lines
  import opened Z

  /** The pitches `lo .. hi - 1` whose class is in the harmony, in ascending order. */
  function Window(lo: int, hi: int, harmony: seq<int>): seq<int>
    decreases hi - lo
  {
    if lo >= hi then [] else (if lo % 12 in harmony then [lo] else []) + Window(lo + 1, hi, harmony)
  }

  /** A pitch is in the window exactly when it lies in the range and its class is in the harmony. */
  lemma {:induction false} WindowMembers(lo: int, hi: int, harmony: seq<int>, x: int)
    ensures x in Window(lo, hi, harmony) <==> lo <= x < hi && x % 12 in harmony
    decreases hi - lo
  {
    if lo < hi {
      WindowMembers(lo + 1, hi, harmony, x);
    }
  }

  /** The window lists its pitches in strictly ascending order. */
  lemma {:induction false} WindowAscending(lo: int, hi: int, harmony: seq<int>)
    ensures StrictlyAscending(Window(lo, hi, harmony))
    decreases hi - lo
  {
    if lo < hi {
      var rest := Window(lo + 1, hi, harmony);
      WindowAscending(lo + 1, hi, harmony);
      forall k | 0 <= k < |rest| ensures lo < rest[k] {
        WindowMembers(lo + 1, hi, harmony, rest[k]);
      }
    }
  }

  /** `get_nearest_pitches`: `[None]` for a missing pitch, else the harmony's pitches within `semitone` of it. */
  function NearestPitches(pitch: Option<int>, harmony: seq<int>, semitone: int): (r: seq<Option<int>>)
    ensures pitch.None? ==> |r| == 1
    ensures forall k :: 0 <= k < |r| ==> (r[k].None? <==> pitch.None?)
  {
    if pitch.None? then [None]
    else Somes(Window(pitch.value - semitone, pitch.value + semitone + 1, harmony))
  }

  /**
   * For a pitch `p`, the offers are pitches, exactly those at most `semitone`
   * away whose class is in the harmony, listed from low to high.
   */
  lemma NearestSpec(p: int, harmony: seq<int>, semitone: int)
    ensures var r := NearestPitches(Some(p), harmony, semitone);
      (forall k :: 0 <= k < |r| ==> r[k].Some?) &&
      (forall x :: Some(x) in r <==> p - semitone <= x <= p + semitone && x % 12 in harmony) &&
      (forall i, j :: 0 <= i < j < |r| ==> r[i].value < r[j].value)
  {
    var w := Window(p - semitone, p + semitone + 1, harmony);
    var r := NearestPitches(Some(p), harmony, semitone);
    WindowAscending(p - semitone, p + semitone + 1, harmony);
    forall x ensures Some(x) in r <==> p - semitone <= x <= p + semitone && x % 12 in harmony {
      WindowMembers(p - semitone, p + semitone + 1, harmony, x);
      if Some(x) in r {
        var k :| 0 <= k < |r| && r[k] == Some(x);
        assert w[k] == x;
      }
      if x in w {
        var k :| 0 <= k < |w| && w[k] == x;
        assert r[k] == Some(x);
      }
    }
  }

  /** The examples of the source's tests: 60 in the harmony `[7, 11, 2]` with windows of 0, 1 and 2 semitones. */
  lemma NearestExamples(h: seq<int>)
    requires h == [7, 11, 2]
    ensures NearestPitches(None, h, 2) == [None]
    ensures NearestPitches(Some(60), h, 0) == []
    ensures NearestPitches(Some(60), h, 1) == [Some(59)]
    ensures NearestPitches(Some(60), h, 2) == [Some(59), Some(62)]
  {
    assert 60 % 12 !in h && 61 % 12 !in h && 58 % 12 !in h;
    assert 59 % 12 in h && 62 % 12 in h;
    assert Window(60, 61, h) == [];
    assert Window(61, 62, h) == [];
    assert Window(59, 62, h) == [59];
    assert Window(60, 63, h) == [62];
    assert Window(58, 63, h) == [59, 62];
  }

  /** The offers for every flat pitch of the motif, in order. */
  function Offers(ms: Motif, harmony: seq<int>, semitone: int): (r: seq<seq<Option<int>>>)
    ensures |r| == Count(ms)
  {
    var ps := Flatten(ms);
    seq(|ps|, k requires 0 <= k < |ps| => NearestPitches(ps[k], harmony, semitone))
  }

  /** lead.py's `lead`: every combination of one offer per flat pitch, poured back into the motif. */
  function Lead(ms: Motif, harmony: seq<int>, semitone: int): (r: seq<Motif>)
    ensures forall k :: 0 <= k < |r| ==> |r[k]| == |ms|
  {
    var lists := Offers(ms, harmony, semitone);
    var groups := Product(lists);
    assert forall g :: g in groups ==> |g| == Count(ms) by {
      forall g | g in groups ensures |g| == Count(ms) {
        ProductMembers(lists, g);
      }
    }
    seq(|groups|, k requires 0 <= k < |groups| => ReplaceLines(ms, groups[k]))
  }

  /**
   * Every motif `lead` returns keeps the shape of every line, and each of its
   * flat pitches is `None` where the input's is, and otherwise a harmony
   * pitch at most `semitone` away from the input's.
   */
  lemma LeadSpec(ms: Motif, harmony: seq<int>, semitone: int, k: nat, i: nat)
    requires k < |Lead(ms, harmony, semitone)| && i < Count(ms)
    ensures var r := Lead(ms, harmony, semitone)[k];
      |r| == |ms| && (forall l :: 0 <= l < |ms| ==> Shape(r[l]) == Shape(ms[l])) &&
      |Flatten(r)| == Count(ms) &&
      var p, q := Flatten(ms)[i], Flatten(r)[i];
      (p.None? <==> q.None?) &&
      (p.Some? ==> p.value - semitone <= q.value <= p.value + semitone && q.value % 12 in harmony)
  {
    var lists := Offers(ms, harmony, semitone);
    var g := Product(lists)[k];
    assert g in Product(lists);
    ProductMembers(lists, g);
    ReplaceLinesSpec(ms, g);
    assert g[i] in lists[i];
    OfferSpec(Flatten(ms)[i], harmony, semitone, g[i]);
  }

  /** An offer is `None` exactly for a missing pitch, and otherwise a harmony pitch within reach. */
  lemma OfferSpec(p: Option<int>, harmony: seq<int>, semitone: int, x: Option<int>)
    requires x in NearestPitches(p, harmony, semitone)
    ensures (p.None? <==> x.None?) &&
      (p.Some? ==> p.value - semitone <= x.value <= p.value + semitone && x.value % 12 in harmony)
  {
    if p.Some? {
      NearestSpec(p.value, harmony, semitone);
      var w := NearestPitches(p, harmony, semitone);
      var j :| 0 <= j < |w| && w[j] == x;
      assert x.Some? && Some(x.value) in w;
    }
  }

  /** Every choice of one offer per flat pitch gives one of the motifs `lead` returns. */
  lemma LeadMembers(ms: Motif, harmony: seq<int>, semitone: int, g: seq<Option<int>>)
    requires Choice(Offers(ms, harmony, semitone), g)
    ensures |g| == Count(ms) && ReplaceLines(ms, g) in Lead(ms, harmony, semitone)
  {
    var lists := Offers(ms, harmony, semitone);
    ProductMembers(lists, g);
    var k :| 0 <= k < |Product(lists)| && Product(lists)[k] == g;
    assert Lead(ms, harmony, semitone)[k] == ReplaceLines(ms, g);
  }

  /** `lead` returns one motif per combination: the product of the numbers of offers. */
  lemma LeadCount(ms: Motif, harmony: seq<int>, semitone: int)
    ensures |Lead(ms, harmony, semitone)| == Combinations(Offers(ms, harmony, semitone))
  {
    ProductLength(Offers(ms, harmony, semitone));
  }

  /** A pitch with no harmony pitch within reach leaves `lead` with no motif at all. */
  lemma LeadNone(ms: Motif, harmony: seq<int>, semitone: int, i: nat)
    requires i < Count(ms) && Flatten(ms)[i].Some?
    requires forall x :: Flatten(ms)[i].value - semitone <= x <= Flatten(ms)[i].value + semitone ==> x % 12 !in harmony
    ensures Lead(ms, harmony, semitone) == []
  {
    var lists := Offers(ms, harmony, semitone);
    var p := Flatten(ms)[i].value;
    assert lists[i] == NearestPitches(Some(p), harmony, semitone);
    if lists[i] != [] {
      NearestHas(p, harmony, semitone);
      assert false;
    }
    ProductEmptyFactor(lists, i);
  }

  /** A pitch that is offered anything has a harmony pitch within reach. */
  lemma NearestHas(p: int, harmony: seq<int>, semitone: int)
    requires NearestPitches(Some(p), harmony, semitone) != []
    ensures exists x :: p - semitone <= x <= p + semitone && x % 12 in harmony
  {
    var r := NearestPitches(Some(p), harmony, semitone);
    NearestSpec(p, harmony, semitone);
    assert r[0].Some? && Some(r[0].value) in r;
  }
}
