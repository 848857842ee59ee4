/** The order log's lazy sort (src/engine/tradingEngine.ts:26-45): orders are
    replayed by creation time ascending, and orders with equal timestamps keep
    their insertion order (a stable sort). */
module OrderLog {
  import opened Types

  predicate SortedByTime(s: seq<Order>) {
    forall i, j :: 0 <= i < j < |s| ==> s[i].createdAt <= s[j].createdAt
  }

  /** The orders of `s` created at time `t`, in their order in `s`. */
  function AtTime(s: seq<Order>, t: int): (r: seq<Order>)
    ensures |r| <= |s|
  {
    if s == [] then []
    else AtTime(s[..|s| - 1], t) + (if s[|s| - 1].createdAt == t then [s[|s| - 1]] else [])
  }

  /** Places `o` after every order of `s` created no later than `o`. */
  function Insert(s: seq<Order>, o: Order): (r: seq<Order>)
    ensures |r| == |s| + 1
  {
    if s == [] || s[|s| - 1].createdAt <= o.createdAt then s + [o]
    else Insert(s[..|s| - 1], o) + [s[|s| - 1]]
  }

  /** Stable sort by `createdAt` (insertion sort, one order at a time). */
  function SortByTime(s: seq<Order>): (r: seq<Order>)
    ensures |r| == |s|
  {
    if s == [] then [] else Insert(SortByTime(s[..|s| - 1]), s[|s| - 1])
  }

  lemma {:induction false} AtTimeAppend(a: seq<Order>, b: seq<Order>, t: int)
    ensures AtTime(a + b, t) == AtTime(a, t) + AtTime(b, t)
  {
    if b == [] {
      assert a + b == a;
    } else {
      assert (a + b)[..|a + b| - 1] == a + b[..|b| - 1];
      AtTimeAppend(a, b[..|b| - 1], t);
    }
  }

  lemma {:induction false} InsertPermutes(s: seq<Order>, o: Order)
    ensures multiset(Insert(s, o)) == multiset(s) + multiset{o}
  {
    if s == [] || s[|s| - 1].createdAt <= o.createdAt {
    } else {
      var init, last := s[..|s| - 1], s[|s| - 1];
      assert s == init + [last];
      InsertPermutes(init, o);
    }
  }

  lemma {:induction false} InsertSorted(s: seq<Order>, o: Order)
    requires SortedByTime(s)
    ensures SortedByTime(Insert(s, o))
  {
    if s == [] || s[|s| - 1].createdAt <= o.createdAt {
    } else {
      var init, last := s[..|s| - 1], s[|s| - 1];
      InsertSorted(init, o);
      var r := Insert(init, o);
      InsertPermutes(init, o);
      forall k | 0 <= k < |r| ensures r[k].createdAt <= last.createdAt {
        assert r[k] in multiset(r);
        if r[k] != o {
          assert r[k] in multiset(init);
          var j :| 0 <= j < |init| && init[j] == r[k];
        }
      }
      assert Insert(s, o) == r + [last];
    }
  }

  /** The sort returns a sorted permutation of the log. */
  lemma {:induction false} SortByTimeIsSortedPermutation(s: seq<Order>)
    ensures SortedByTime(SortByTime(s))
    ensures multiset(SortByTime(s)) == multiset(s)
  {
    if s != [] {
      var init, last := s[..|s| - 1], s[|s| - 1];
      assert s == init + [last];
      SortByTimeIsSortedPermutation(init);
      InsertSorted(SortByTime(init), last);
      InsertPermutes(SortByTime(init), last);
    }
  }

  /** Of two orders created at different times, at most one is created at `t`. */
  lemma AtMostOneAtTime(x: Order, y: Order, t: int)
    requires x.createdAt != y.createdAt
    ensures AtTime([x], t) == [] || AtTime([y], t) == []
  {
    assert [x][..0] == [] && [y][..0] == [];
  }

  lemma SwapEmpty(a: seq<Order>, x: seq<Order>, y: seq<Order>)
    requires x == [] || y == []
    ensures a + x + y == a + y + x
  {
  }

  lemma {:induction false} InsertKeepsTimeOrder(s: seq<Order>, o: Order, t: int)
    ensures AtTime(Insert(s, o), t) == AtTime(s, t) + AtTime([o], t)
  {
    if s == [] || s[|s| - 1].createdAt <= o.createdAt {
      AtTimeAppend(s, [o], t);
    } else {
      var init, last := s[..|s| - 1], s[|s| - 1];
      var r := Insert(init, o);
      assert Insert(s, o) == r + [last];
      assert s == init + [last];
      InsertKeepsTimeOrder(init, o, t);
      AtTimeAppend(r, [last], t);
      AtTimeAppend(init, [last], t);
      AtMostOneAtTime(o, last, t);
      SwapEmpty(AtTime(init, t), AtTime([o], t), AtTime([last], t));
    }
  }

  /** Stability: for every timestamp, the orders created at that time appear in
      the sorted log in the same relative order as in the unsorted one. */
  lemma {:induction false} SortByTimeIsStable(s: seq<Order>, t: int)
    ensures AtTime(SortByTime(s), t) == AtTime(s, t)
  {
    if s != [] {
      var init, last := s[..|s| - 1], s[|s| - 1];
      assert s == init + [last];
      SortByTimeIsStable(init, t);
      InsertKeepsTimeOrder(SortByTime(init), last, t);
      AtTimeAppend(init, [last], t);
    }
  }

  /** An order no older than any logged order goes at the end. */
  lemma InsertLatest(s: seq<Order>, o: Order)
    requires forall x :: x in s ==> x.createdAt <= o.createdAt
    ensures Insert(s, o) == s + [o]
  {
  }

  /** Sorting an already sorted log changes nothing. */
  lemma {:induction false} SortByTimeOfSorted(s: seq<Order>)
    requires SortedByTime(s)
    ensures SortByTime(s) == s
  {
    if s != [] {
      var init, last := s[..|s| - 1], s[|s| - 1];
      assert s == init + [last];
      SortByTimeOfSorted(init);
      InsertLatest(init, last);
    }
  }

  /** Appending to a sorted log and sorting again is one insertion. */
  lemma SortAfterAppend(s: seq<Order>, o: Order)
    requires SortedByTime(s)
    ensures SortByTime(s + [o]) == Insert(s, o)
  {
    assert (s + [o])[..|s + [o]| - 1] == s;
    SortByTimeOfSorted(s);
  }
}
