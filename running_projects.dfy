/**
 * The ordering `selectRunningProject` applies to the running projects it lists:
 * `result.sort((o1, o2) -> o2.getStartTime().compareTo(o1.getStartTime()))`, latest start first.
 */
module RunningProjects {
  import opened Dto

  predicate SortedByStartDesc(xs: seq<ExecutorParam>)
  {
    forall i, j :: 0 <= i < j < |xs| ==> xs[i].startTime >= xs[j].startTime
  }

  predicate StartAtMost(xs: seq<ExecutorParam>, t: int)
  {
    forall i :: 0 <= i < |xs| ==> xs[i].startTime <= t
  }

  /** Places `x` before the first element that did not start later than `x`. */
  function InsertByStart(x: ExecutorParam, xs: seq<ExecutorParam>): (r: seq<ExecutorParam>)
    ensures multiset(r) == multiset(xs) + multiset{x}
    decreases |xs|
  {
    if xs == [] || xs[0].startTime <= x.startTime then [x] + xs
    else
      assert xs == [xs[0]] + xs[1..];
      [xs[0]] + InsertByStart(x, xs[1..])
  }

  /** Inserting an element no later than `t` into a list no later than `t` keeps it so. */
  lemma {:induction false} InsertByStartBounded(x: ExecutorParam, xs: seq<ExecutorParam>, t: int)
    requires StartAtMost(xs, t) && x.startTime <= t
    ensures StartAtMost(InsertByStart(x, xs), t)
    decreases |xs|
  {
    if xs != [] && xs[0].startTime > x.startTime {
      InsertByStartBounded(x, xs[1..], t);
    }
  }

  /** Insertion keeps the list ordered latest start first. */
  lemma {:induction false} InsertByStartSorted(x: ExecutorParam, xs: seq<ExecutorParam>)
    requires SortedByStartDesc(xs)
    ensures SortedByStartDesc(InsertByStart(x, xs))
    decreases |xs|
  {
    if xs != [] && xs[0].startTime > x.startTime {
      var tail := InsertByStart(x, xs[1..]);
      InsertByStartSorted(x, xs[1..]);
      InsertByStartBounded(x, xs[1..], xs[0].startTime);
      var r := [xs[0]] + tail;
      forall i, j | 0 <= i < j < |r| ensures r[i].startTime >= r[j].startTime {
        assert r[j] == tail[j - 1];
        if i > 0 { assert r[i] == tail[i - 1]; }
      }
    }
  }

  /** The sorted list: latest start first, the same elements with the same multiplicities. */
  function SortByStartDesc(xs: seq<ExecutorParam>): (r: seq<ExecutorParam>)
    ensures SortedByStartDesc(r)
    ensures multiset(r) == multiset(xs)
    decreases |xs|
  {
    if xs == [] then []
    else
      assert xs == [xs[0]] + xs[1..];
      var sorted := SortByStartDesc(xs[1..]);
      InsertByStartSorted(xs[0], sorted);
      InsertByStart(xs[0], sorted)
  }
}
