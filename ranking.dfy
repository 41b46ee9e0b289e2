/**
 * `sorted(counts, key=lambda c: c["count"], reverse=True)`: Python's sort is stable even
 * when reversed, so counters come out by descending count and counters with equal counts
 * keep their original (registry) order. The model is an insertion sort with that contract.
 */
module Ranking {
  import opened Models

  predicate SortedDescending(s: seq<CounterWithSingleCount>) {
    forall i, j :: 0 <= i < j < |s| ==> s[i].count >= s[j].count
  }

  /** The entries with count `c`, in order: a stable sort must keep each of these lists unchanged. */
  function WithCount(s: seq<CounterWithSingleCount>, c: int): (r: seq<CounterWithSingleCount>)
    ensures forall i :: 0 <= i < |r| ==> r[i].count == c
  {
    if s == [] then []
    else (if s[0].count == c then [s[0]] else []) + WithCount(s[1..], c)
  }

  /** Puts `x` in front of the first entry whose count is not larger than its own. */
  function Insert(x: CounterWithSingleCount, s: seq<CounterWithSingleCount>): seq<CounterWithSingleCount> {
    if s == [] || s[0].count <= x.count then [x] + s
    else [s[0]] + Insert(x, s[1..])
  }

  lemma InsertHead(x: CounterWithSingleCount, s: seq<CounterWithSingleCount>)
    ensures Insert(x, s) != []
    ensures Insert(x, s)[0] == x || (s != [] && Insert(x, s)[0] == s[0])
  {
  }

  lemma {:induction false} InsertSorted(x: CounterWithSingleCount, s: seq<CounterWithSingleCount>)
    requires SortedDescending(s)
    ensures SortedDescending(Insert(x, s))
    decreases |s|
  {
    if s != [] && s[0].count > x.count {
      var tail := Insert(x, s[1..]);
      InsertSorted(x, s[1..]);
      InsertHead(x, s[1..]);
      InsertMultiset(x, s[1..]);
      assert forall k :: 0 <= k < |tail| ==> tail[k] in multiset(s[1..]) + multiset{x};
      assert forall k :: 0 <= k < |tail| ==> tail[k] == x || tail[k] in s[1..];
    }
  }

  lemma {:induction false} InsertMultiset(x: CounterWithSingleCount, s: seq<CounterWithSingleCount>)
    ensures multiset(Insert(x, s)) == multiset(s) + multiset{x}
    decreases |s|
  {
    if s != [] && s[0].count > x.count {
      InsertMultiset(x, s[1..]);
      assert s == [s[0]] + s[1..];
    }
  }

  lemma {:induction false} InsertWithCount(x: CounterWithSingleCount, s: seq<CounterWithSingleCount>, c: int)
    ensures WithCount(Insert(x, s), c) == (if x.count == c then [x] else []) + WithCount(s, c)
    decreases |s|
  {
    if s == [] || s[0].count <= x.count {
      assert ([x] + s)[1..] == s;
    } else {
      var tail := Insert(x, s[1..]);
      InsertWithCount(x, s[1..], c);
      assert ([s[0]] + tail)[1..] == tail;
    }
  }

  /**
   * The ranking of `s`: sorted by descending count, a permutation of `s`, and stable
   * (for every count, the entries with that count appear in the same order as in `s`).
   */
  function SortDescending(s: seq<CounterWithSingleCount>): (r: seq<CounterWithSingleCount>)
    ensures SortedDescending(r)
    ensures multiset(r) == multiset(s)
    ensures forall c :: WithCount(r, c) == WithCount(s, c)
  {
    if s == [] then []
    else
      var rest := SortDescending(s[1..]);
      InsertSorted(s[0], rest);
      InsertMultiset(s[0], rest);
      assert s == [s[0]] + s[1..];
      assert forall c :: WithCount(Insert(s[0], rest), c) == WithCount(s, c) by {
        forall c
          ensures WithCount(Insert(s[0], rest), c) == WithCount(s, c)
        {
          InsertWithCount(s[0], rest, c);
        }
      }
      Insert(s[0], rest)
  }

  /** The worked example: registry order glacis 10, viaduc 30, lift 20 ranks viaduc, lift, glacis. */
  lemma RankingExample(glacis: CounterConfig, viaduc: CounterConfig, lift: CounterConfig)
    ensures SortDescending([CounterWithSingleCount(glacis, 10), CounterWithSingleCount(viaduc, 30), CounterWithSingleCount(lift, 20)])
         == [CounterWithSingleCount(viaduc, 30), CounterWithSingleCount(lift, 20), CounterWithSingleCount(glacis, 10)]
  {
    var g, v, l := CounterWithSingleCount(glacis, 10), CounterWithSingleCount(viaduc, 30), CounterWithSingleCount(lift, 20);
    assert [g, v, l][1..] == [v, l] && [v, l][1..] == [l] && [l][1..] == [];
    assert SortDescending([l]) == [l];
    assert SortDescending([v, l]) == Insert(v, [l]) == [v, l];
    assert Insert(g, [l]) == [l, g];
    assert Insert(g, [v, l]) == [v, l, g];
  }

  /** When every count is equal, the ranking is the input order. */
  lemma TieKeepsOrder(s: seq<CounterWithSingleCount>)
    requires forall i :: 0 <= i < |s| ==> s[i].count == s[0].count
    ensures SortDescending(s) == s
  {
    if s != [] {
      var c := s[0].count;
      AllWithCount(s, c);
      AllWithCount(SortDescending(s), c);
    }
  }

  lemma {:induction false} AllWithCount(s: seq<CounterWithSingleCount>, c: int)
    requires forall i :: 0 <= i < |s| ==> s[i].count == c
    ensures WithCount(s, c) == s
    decreases |s|
  {
    if s != [] {
      AllWithCount(s[1..], c);
      assert [s[0]] + s[1..] == s;
    }
  }
}
