/**
 * The free task-id search of the task daemon (bin/tau/taud/src/util.rs).
 */
module Taud {
  import opened Primitives

  /** The ids of all elements of a list. */
  ghost function IdSet(ids: seq<u32>): set<int>
  {
    set x: int | x in ids
  }

  /** A list never holds more distinct ids than it has elements. */
  lemma {:induction false} IdSetSize(ids: seq<u32>)
    ensures |IdSet(ids)| <= |ids|
  {
    if ids != [] {
      IdSetSize(ids[1..]);
      assert IdSet(ids) == IdSet(ids[1..]) + {ids[0] as int};
    }
  }

  /** The ids 1 to n. */
  ghost function IdRange(n: nat): set<int>
  {
    if n == 0 then {} else IdRange(n - 1) + {n}
  }

  lemma {:induction false} IdRangeSize(n: nat)
    ensures forall k :: k in IdRange(n) <==> 1 <= k <= n
    ensures |IdRange(n)| == n
  {
    if n > 0 {
      IdRangeSize(n - 1);
    }
  }

  lemma SubsetSize(a: set<int>, b: set<int>)
    requires a <= b
    ensures |a| <= |b|
  {
    assert b == a + (b - a);
    assert a !! (b - a);
  }

  /** Pigeonhole: a list holding every id from 1 to n has at least n elements. */
  lemma CoveredRangeBound(ids: seq<u32>, n: nat)
    requires forall k: int :: 1 <= k <= n ==> k in IdSet(ids)
    ensures n <= |ids|
  {
    IdRangeSize(n);
    forall k | k in IdRange(n)
      ensures k in IdSet(ids)
    {
      assert 1 <= k <= n;
    }
    SubsetSize(IdRange(n), IdSet(ids));
    IdSetSize(ids);
  }

  /**
   * find_free_id: the smallest positive id not in the list. The source
   * counts over u32 with `for i in 1..`, whose iterator overflows (a panic
   * in a debug build) when it would have to yield u32::MAX; that outcome
   * is None, and it only happens when every id below u32::MAX is taken.
   */
  method FindFreeId(taskIds: seq<u32>) returns (r: Option<u32>)
    ensures r.Some? ==> 1 <= r.value < U32_MAX
    ensures r.Some? ==> r.value !in taskIds
    ensures r.Some? ==> forall k: u32 :: 1 <= k < r.value ==> k in taskIds
    ensures r.Some? ==> r.value <= |taskIds| + 1
    ensures r.None? <==> forall k: u32 :: 1 <= k < U32_MAX ==> k in taskIds
    ensures |taskIds| < U32_MAX - 1 ==> r.Some?
  {
    var i: int := 1;
    while true
      invariant 1 <= i <= U32_MAX
      invariant forall k: u32 :: 1 <= k < i ==> k in taskIds
      decreases U32_MAX - i
    {
      if i == U32_MAX {
        CoveredRangeBound(taskIds, U32_MAX - 1);
        return None;
      }
      if i !in taskIds {
        CoveredRangeBound(taskIds, i - 1);
        return Some(i);
      }
      i := i + 1;
    }
  }

  /** The unit tests of find_free_id, as obligations on its contract. */
  method FindFreeIdTests()
  {
    var ids: seq<u32> := [1, 3, 8, 9, 10, 3];
    var found := FindFreeId(ids);
    assert found == Some(2) by {
      assert 1 in ids;
      assert 2 !in ids;
    }
    ids := ids + [found.value];
    found := FindFreeId(ids);
    assert found == Some(4) by {
      assert 1 in ids && 2 in ids && 3 in ids;
      assert 4 !in ids;
    }
    found := FindFreeId([]);
    assert found == Some(1);
    var duplicates: seq<u32> := seq(100, _ => 1);
    found := FindFreeId(duplicates);
    assert found == Some(2) by {
      assert duplicates[0] == 1;
      assert 2 !in duplicates;
    }
  }
}
