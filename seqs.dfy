/**
 * Sequence vocabulary shared by every part of the motif engine: an optional
 * value (Python's `None`), ascending integer lists and the two list operations
 * the engine leans on (`list.sort()` and `list.index()`), exact sums of
 * durations, and the ordered Cartesian product of `itertools.product`.
 */
module Seqs {

  datatype Option<+T> = None | Some(value: T)

  ghost predicate Ascending(s: seq<int>)
  {
    forall i, j :: 0 <= i < j < |s| ==> s[i] <= s[j]
  }

  ghost predicate StrictlyAscending(s: seq<int>)
  {
    forall i, j :: 0 <= i < j < |s| ==> s[i] < s[j]
  }

  /** Insert `p` in front of the first element that is not smaller than it. */
  function Insert(s: seq<int>, p: int): (r: seq<int>)
    ensures |r| == |s| + 1
  {
    if s == [] then [p]
    else if p <= s[0] then [p] + s
    else [s[0]] + Insert(s[1..], p)
  }

  lemma {:induction false} InsertMultiset(s: seq<int>, p: int)
    ensures multiset(Insert(s, p)) == multiset(s) + multiset{p}
  {
    if s != [] && p > s[0] {
      InsertMultiset(s[1..], p);
      assert s == [s[0]] + s[1..];
      calc {
        multiset(Insert(s, p));
        multiset([s[0]] + Insert(s[1..], p));
        multiset([s[0]]) + multiset(Insert(s[1..], p));
        multiset([s[0]]) + multiset(s[1..]) + multiset{p};
        multiset(s) + multiset{p};
      }
    }
  }

  /** Where `Insert` puts `p`: past every element smaller than `p`. */
  function InsertionPoint(s: seq<int>, p: int): (c: nat)
    ensures c <= |s|
  {
    if s == [] || p <= s[0] then 0 else 1 + InsertionPoint(s[1..], p)
  }

  lemma {:induction false} InsertionPointBounds(s: seq<int>, p: int)
    ensures forall k :: 0 <= k < InsertionPoint(s, p) ==> s[k] < p
    ensures InsertionPoint(s, p) < |s| ==> p <= s[InsertionPoint(s, p)]
  {
    if s != [] && p > s[0] {
      var t := s[1..];
      InsertionPointBounds(t, p);
      forall k | 0 <= k < InsertionPoint(s, p) ensures s[k] < p {
        if k > 0 {
          assert s[k] == t[k - 1];
        }
      }
    }
  }

  lemma {:induction false} InsertSplit(s: seq<int>, p: int)
    ensures Insert(s, p) == s[..InsertionPoint(s, p)] + [p] + s[InsertionPoint(s, p)..]
  {
    if s == [] || p <= s[0] {
      assert s[..0] + [p] + s[0..] == [p] + s;
    } else {
      var t := s[1..];
      InsertSplit(t, p);
      var c := InsertionPoint(t, p);
      calc {
        Insert(s, p);
        [s[0]] + Insert(t, p);
        [s[0]] + (t[..c] + [p] + t[c..]);
        ([s[0]] + t[..c]) + [p] + t[c..];
        { assert [s[0]] + t[..c] == s[..c + 1]; assert t[c..] == s[c + 1..]; }
        s[..c + 1] + [p] + s[c + 1..];
      }
    }
  }

  /** The entries of `Insert(s, p)`: those of `s` below the insertion point, then `p`, then the rest of `s`. */
  lemma InsertIndex(s: seq<int>, p: int, k: nat)
    requires k <= |s|
    ensures var c := InsertionPoint(s, p);
      Insert(s, p)[k] == if k < c then s[k] else if k == c then p else s[k - 1]
  {
    InsertSplit(s, p);
  }

  /** In an ascending list the insertion point is fixed by the values alone. */
  lemma InsertionPointUnique(s: seq<int>, p: int, c: nat)
    requires Ascending(s) && c <= |s|
    requires forall k :: 0 <= k < c ==> s[k] < p
    requires c < |s| ==> p <= s[c]
    ensures InsertionPoint(s, p) == c
  {
    InsertionPointBounds(s, p);
  }

  lemma InsertAscending(s: seq<int>, p: int)
    requires Ascending(s)
    ensures Ascending(Insert(s, p))
  {
    InsertSplit(s, p);
    InsertionPointBounds(s, p);
  }

  /** Python's `list.sort()` on integers (an insertion sort). */
  function Sort(s: seq<int>): (r: seq<int>)
    ensures |r| == |s|
  {
    if s == [] then [] else Insert(Sort(s[..|s| - 1]), s[|s| - 1])
  }

  /** What `sort` promises: an ascending permutation of its input. */
  lemma {:induction false} SortSpec(s: seq<int>)
    ensures Ascending(Sort(s))
    ensures multiset(Sort(s)) == multiset(s)
  {
    if s != [] {
      var init, last := s[..|s| - 1], s[|s| - 1];
      assert s == init + [last];
      SortSpec(init);
      InsertAscending(Sort(init), last);
      InsertMultiset(Sort(init), last);
    }
  }

  /** Sorting keeps every value of its input. */
  lemma SortKeeps(s: seq<int>, x: int)
    requires x in s
    ensures x in Sort(s)
  {
    SortSpec(s);
    assert x in multiset(s);
  }

  /** Two ascending lists holding the same values are the same list. */
  lemma {:induction false} AscendingUnique(a: seq<int>, b: seq<int>)
    requires Ascending(a) && Ascending(b) && multiset(a) == multiset(b)
    ensures a == b
    decreases |a|
  {
    assert |a| == |multiset(a)| == |b|;
    if a != [] {
      SameHead(a, b);
      MultisetTail(a);
      MultisetTail(b);
      AscendingTail(a);
      AscendingTail(b);
      AscendingUnique(a[1..], b[1..]);
      ConsSplit(a);
      ConsSplit(b);
    }
  }

  /** Two ascending lists holding the same values start with the same value. */
  lemma SameHead(a: seq<int>, b: seq<int>)
    requires Ascending(a) && Ascending(b) && multiset(a) == multiset(b) && a != [] && b != []
    ensures a[0] == b[0]
  {
    assert a[0] in multiset(b) && b[0] in multiset(a);
    var i :| 0 <= i < |a| && a[i] == b[0];
    var j :| 0 <= j < |b| && b[j] == a[0];
    assert a[0] <= a[i] && b[0] <= b[j];
  }

  lemma AscendingTail(a: seq<int>)
    requires Ascending(a) && a != []
    ensures Ascending(a[1..])
  {
  }

  lemma MultisetTail(a: seq<int>)
    requires a != []
    ensures multiset(a[1..]) == multiset(a) - multiset{a[0]}
  {
    assert a == [a[0]] + a[1..];
  }

  /** `sort` gives the one ascending list holding exactly the values given. */
  lemma SortUnique(s: seq<int>, r: seq<int>)
    requires Ascending(r) && multiset(r) == multiset(s)
    ensures Sort(s) == r
  {
    SortSpec(s);
    AscendingUnique(Sort(s), r);
  }

  /** Sorting a list after appending one value is a sorted insertion into the sorted list. */
  lemma SortAppend(s: seq<int>, p: int)
    ensures Sort(s + [p]) == Insert(Sort(s), p)
  {
    assert (s + [p])[..|s + [p]| - 1] == s;
  }

  /** Inserting a value that is not smaller than anything present appends it. */
  lemma InsertLast(s: seq<int>, p: int)
    requires Ascending(s)
    requires forall x :: x in s ==> x <= p
    ensures Insert(s, p) == s + [p]
  {
    InsertSplit(s, p);
    InsertionPointBounds(s, p);
    var c := InsertionPoint(s, p);
    var r := Insert(s, p);
    forall k | c <= k < |s| ensures s[k] == p {
      assert s[c] <= s[k] && s[k] in s;
    }
    forall k | 0 <= k < |r| ensures r[k] == (s + [p])[k] {
      if k < c {
        assert r[k] == s[k];
      } else if k > c {
        assert r[k] == s[k - 1];
      }
    }
  }

  /** A list that is already ascending is left as it is by `sort`. */
  lemma {:induction false} SortAscending(s: seq<int>)
    requires Ascending(s)
    ensures Sort(s) == s
  {
    if s != [] {
      var init := s[..|s| - 1];
      assert Ascending(init);
      SortAscending(init);
      forall x | x in init ensures x <= s[|s| - 1] {
        var k :| 0 <= k < |init| && init[k] == x;
      }
      InsertLast(init, s[|s| - 1]);
      assert init + [s[|s| - 1]] == s;
    }
  }

  /** The index of the first occurrence of `p` (`list.index`). */
  function IndexOf(s: seq<int>, p: int): (i: nat)
    requires p in s
    ensures i < |s| && s[i] == p
  {
    if s[0] == p then 0 else 1 + IndexOf(s[1..], p)
  }

  /** No earlier entry holds `p`: the index is that of the first occurrence. */
  lemma {:induction false} IndexOfFirst(s: seq<int>, p: int)
    requires p in s
    ensures forall k :: 0 <= k < IndexOf(s, p) ==> s[k] != p
  {
    if s[0] != p {
      IndexOfFirst(s[1..], p);
      forall k | 0 < k < IndexOf(s, p) ensures s[k] != p {
        assert s[k] == s[1..][k - 1];
      }
    }
  }

  /** An index holding `p` with no earlier `p` is the index of `p`. */
  lemma IndexOfAt(s: seq<int>, p: int, i: nat)
    requires i < |s| && s[i] == p && forall k :: 0 <= k < i ==> s[k] != p
    ensures IndexOf(s, p) == i
  {
    IndexOfFirst(s, p);
  }

  /** In a strictly ascending list the only occurrence of `s[i]` is at `i`. */
  lemma IndexOfStrict(s: seq<int>, i: nat)
    requires StrictlyAscending(s) && i < |s|
    ensures IndexOf(s, s[i]) == i
  {
    IndexOfFirst(s, s[i]);
  }

  /** Positions in a strictly ascending list are ordered like the values they hold. */
  lemma IndexOfMonotone(s: seq<int>, x: int, y: int)
    requires StrictlyAscending(s) && x in s && y in s
    ensures x < y <==> IndexOf(s, x) < IndexOf(s, y)
    ensures x == y <==> IndexOf(s, x) == IndexOf(s, y)
  {
    IndexOfStrict(s, IndexOf(s, x));
    IndexOfStrict(s, IndexOf(s, y));
  }

  /** Exact sum of a duration line. */
  function Sum(s: seq<real>): real
  {
    if s == [] then 0.0 else s[0] + Sum(s[1..])
  }

  lemma SumOne(x: real)
    ensures Sum([x]) == x
  {
  }

  lemma {:induction false} SumConcat(a: seq<real>, b: seq<real>)
    ensures Sum(a + b) == Sum(a) + Sum(b)
  {
    if a == [] {
      assert a + b == b;
    } else {
      assert (a + b)[1..] == a[1..] + b;
      assert Sum(a + b) == a[0] + Sum(a[1..] + b);
      SumConcat(a[1..], b);
    }
  }

  lemma {:induction false} SumUpdate(s: seq<real>, k: nat, v: real)
    requires k < |s|
    ensures Sum(s[k := v]) == Sum(s) - s[k] + v
  {
    if k > 0 {
      assert s[k := v][1..] == s[1..][k - 1 := v];
      SumUpdate(s[1..], k - 1, v);
    }
  }

  /** Replacing one entry by a list changes the sum by the difference. */
  lemma SumReplace(s: seq<real>, j: nat, news: seq<real>)
    requires j < |s|
    ensures Sum(s[..j] + news + s[j + 1..]) == Sum(s) - s[j] + Sum(news)
  {
    var before, after := s[..j], s[j + 1..];
    assert s == before + [s[j]] + after;
    SumConcat(before + [s[j]], after);
    SumConcat(before, [s[j]]);
    SumConcat(before + news, after);
    SumConcat(before, news);
    assert Sum([s[j]]) == s[j];
  }

  lemma ConcatAssoc<T>(a: seq<T>, b: seq<T>, c: seq<T>)
    ensures a + (b + c) == (a + b) + c
  {
  }

  /** `[x] * n` */
  function Repeat<T>(x: T, n: nat): (r: seq<T>)
    ensures |r| == n && forall k :: 0 <= k < n ==> r[k] == x
  {
    if n == 0 then [] else [x] + Repeat(x, n - 1)
  }

  lemma {:induction false} SumRepeat(x: real, n: nat)
    ensures Sum(Repeat(x, n)) == (n as real) * x
  {
    if n > 0 {
      SumRepeat(x, n - 1);
    }
  }

  /** Put `x` in front of every tail (one factor of the product). */
  function PrefixAll<T>(x: T, tails: seq<seq<T>>): (r: seq<seq<T>>)
    ensures |r| == |tails|
    ensures forall k :: 0 <= k < |r| ==> r[k] == [x] + tails[k]
  {
    seq(|tails|, k requires 0 <= k < |tails| => [x] + tails[k])
  }

  function Prepend<T>(xs: seq<T>, tails: seq<seq<T>>): seq<seq<T>>
  {
    if xs == [] then [] else PrefixAll(xs[0], tails) + Prepend(xs[1..], tails)
  }

  /** `itertools.product(*lists)`, in its enumeration order (first factor slowest). */
  function Product<T>(lists: seq<seq<T>>): (r: seq<seq<T>>)
    ensures lists == [] ==> r == [[]]
    ensures |r| == Combinations(lists)
  {
    if lists == [] then [[]]
    else
      PrependLength(lists[0], Product(lists[1..]));
      Prepend(lists[0], Product(lists[1..]))
  }

  /** The number of combinations: the product of the factors' lengths. */
  function Combinations<T>(lists: seq<seq<T>>): nat
  {
    if lists == [] then 1 else |lists[0]| * Combinations(lists[1..])
  }

  /** A choice of one element from every list. */
  ghost predicate Choice<T>(lists: seq<seq<T>>, g: seq<T>)
  {
    |g| == |lists| && forall i :: 0 <= i < |g| ==> g[i] in lists[i]
  }

  lemma {:induction false} PrependLength<T>(xs: seq<T>, tails: seq<seq<T>>)
    ensures |Prepend(xs, tails)| == |xs| * |tails|
  {
    if xs != [] {
      PrependLength(xs[1..], tails);
      MulSucc(|xs[1..]|, |tails|);
    }
  }

  lemma MulSucc(a: nat, b: nat)
    ensures (a + 1) * b == a * b + b
  {
  }

  lemma {:induction false} PrependMembers<T>(xs: seq<T>, tails: seq<seq<T>>, g: seq<T>)
    ensures g in Prepend(xs, tails) <==> |g| > 0 && g[0] in xs && g[1..] in tails
  {
    if xs != [] {
      PrependMembers(xs[1..], tails, g);
      if g in PrefixAll(xs[0], tails) {
        var k :| 0 <= k < |tails| && PrefixAll(xs[0], tails)[k] == g;
        assert g[1..] == tails[k];
      }
      if |g| > 0 && g[0] == xs[0] && g[1..] in tails {
        var k :| 0 <= k < |tails| && tails[k] == g[1..];
        assert g == [xs[0]] + tails[k];
        assert PrefixAll(xs[0], tails)[k] == g;
      }
      assert xs == [xs[0]] + xs[1..];
    }
  }

  /** The product has exactly as many entries as there are combinations ... */
  lemma {:induction false} ProductLength<T>(lists: seq<seq<T>>)
    ensures |Product(lists)| == Combinations(lists)
  {
    if lists != [] {
      ProductLength(lists[1..]);
      PrependLength(lists[0], Product(lists[1..]));
    }
  }

  /** ... and its entries are exactly the choices of one element per list. */
  lemma {:induction false} ProductMembers<T>(lists: seq<seq<T>>, g: seq<T>)
    ensures g in Product(lists) <==> Choice(lists, g)
  {
    if lists == [] {
      assert Product(lists) == [[]];
    } else {
      PrependMembers(lists[0], Product(lists[1..]), g);
      if |g| > 0 {
        ProductMembers(lists[1..], g[1..]);
        if Choice(lists, g) {
          assert Choice(lists[1..], g[1..]) by {
            forall i | 0 <= i < |g| - 1 ensures g[1..][i] in lists[1..][i] {
              assert g[i + 1] in lists[i + 1];
            }
          }
        }
        if g[0] in lists[0] && Choice(lists[1..], g[1..]) {
          forall i | 0 <= i < |g| ensures g[i] in lists[i] {
            if i > 0 {
              assert g[1..][i - 1] in lists[1..][i - 1];
            }
          }
        }
      }
    }
  }

  lemma {:induction false} PrependNoTails<T>(xs: seq<T>)
    ensures Prepend(xs, []) == []
  {
    if xs != [] {
      PrependNoTails(xs[1..]);
    }
  }

  /** A single empty factor empties the whole product. */
  lemma {:induction false} ProductEmptyFactor<T>(lists: seq<seq<T>>, i: nat)
    requires i < |lists| && lists[i] == []
    ensures Product(lists) == []
  {
    if i > 0 {
      ProductEmptyFactor(lists[1..], i - 1);
      PrependNoTails(lists[0]);
    }
  }

  /** A slice lying wholly in the second part of a concatenation is a slice of that part. */
  lemma SliceRight<T>(x: seq<T>, y: seq<T>, lo: nat, hi: nat)
    requires |x| <= lo <= hi <= |x| + |y|
    ensures (x + y)[lo..hi] == y[lo - |x|..hi - |x|]
  {
  }

  /** An element of a slice is the element of the whole at the shifted index. */
  lemma SliceAt<T>(s: seq<T>, lo: nat, hi: nat, j: nat)
    requires lo + j < hi <= |s|
    ensures s[lo..hi][j] == s[lo + j]
  {
  }

  /** A slice of a suffix is a slice of the whole, shifted by where the suffix starts. */
  lemma SliceDrop<T>(s: seq<T>, w: nat, lo: nat, hi: nat)
    requires lo <= hi && w + hi <= |s|
    ensures s[w..][lo..hi] == s[w + lo..w + hi]
  {
  }

  /** A prefix of a prefix is a prefix of the whole. */
  lemma PrefixSlice<T>(s: seq<T>, n: nat, lo: nat, hi: nat)
    requires lo <= hi <= n <= |s|
    ensures s[..n][lo..hi] == s[lo..hi]
  {
  }

  lemma PrefixPrefix<T>(s: seq<T>, n: nat, k: nat)
    requires k <= n <= |s|
    ensures s[..n][..k] == s[..k]
  {
  }

  /** A prefix reaching past `w` is the first `w` elements, then a prefix of the rest. */
  lemma PrefixSplit<T>(s: seq<T>, w: nat, n: nat)
    requires w + n <= |s|
    ensures s[..w + n] == s[..w] + s[w..][..n]
  {
  }

  /** An element of the middle part of a three-part concatenation. */
  lemma MiddleAt<T>(x: seq<T>, y: seq<T>, z: seq<T>, k: nat)
    requires k < |y|
    ensures (x + y + z)[|x| + k] == y[k]
  {
  }

  /** The middle part of a three-part concatenation, sliced back out. */
  lemma MiddleSlice<T>(x: seq<T>, y: seq<T>, z: seq<T>)
    ensures (x + y + z)[|x|..|x| + |y|] == y
  {
  }

  /** Regrouping a concatenation of four parts. */
  lemma FourAssoc<T>(a: seq<T>, b: seq<T>, c: seq<T>, d: seq<T>)
    ensures a + (b + c + d) == (a + b) + c + d
  {
  }

  /** A concatenation cut where its first part ends. */
  lemma ConcatSplit<T>(x: seq<T>, y: seq<T>)
    ensures (x + y)[..|x|] == x && (x + y)[|x|..] == y
  {
  }

  /** A sequence of length two is the display of its two elements. */
  lemma PairSplit<T>(s: seq<T>)
    requires |s| == 2
    ensures s == [s[0], s[1]]
  {
  }

  /** A nonempty sequence is its first element followed by the rest. */
  lemma ConsSplit<T>(s: seq<T>)
    requires s != []
    ensures [s[0]] + s[1..] == s
  {
  }
}
