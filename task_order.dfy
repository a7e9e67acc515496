/**
 * The `taskPriority` reorder both configuration pages perform on a drag end:
 * find the indices of the dragged and the target task, copy the list,
 * `splice(oldIndex, 1)` the copy, then `splice(newIndex, 0, active.id)` it.
 * `splice` is modelled with its JavaScript start rule (a negative start counts
 * from the end), because the Configure/Index.tsx page calls it unguarded.
 */
module TaskOrder {

  /** `tasks.findIndex(task => task === x)`: the first index holding `x`, or -1. */
  function FindIndex(tasks: seq<string>, x: string): (r: int)
    ensures r == -1 <==> x !in tasks
    ensures r != -1 ==> 0 <= r < |tasks| && tasks[r] == x && x !in tasks[..r]
    decreases |tasks|
  {
    if tasks == [] then -1
    else if tasks[0] == x then 0
    else
      var i := FindIndex(tasks[1..], x);
      if i == -1 then -1 else i + 1
  }

  /** The position `splice(start, ...)` acts on in an array of length `n`. */
  function SpliceStart(start: int, n: nat): (k: nat)
    ensures k <= n
    ensures 0 <= start <= n ==> k == start
    ensures start < 0 && n + start >= 0 ==> k == n + start
  {
    if start < 0 then (if n + start < 0 then 0 else n + start)
    else if start < n then start
    else n
  }

  /** The array after `a.splice(start, 1)`. */
  function SpliceRemoveOne(s: seq<string>, start: int): (r: seq<string>)
    ensures var k := SpliceStart(start, |s|);
      k < |s| ==>
        && |r| == |s| - 1
        && multiset(r) + multiset{s[k]} == multiset(s)
        && (forall i :: 0 <= i < k ==> r[i] == s[i])
        && (forall i :: k <= i < |r| ==> r[i] == s[i + 1])
    ensures SpliceStart(start, |s|) == |s| ==> r == s
  {
    var k := SpliceStart(start, |s|);
    if k < |s| then
      assert s == s[..k] + [s[k]] + s[k + 1..];
      s[..k] + s[k + 1..]
    else s
  }

  /** The array after `a.splice(start, 0, x)`. */
  function SpliceInsert(s: seq<string>, start: int, x: string): (r: seq<string>)
    ensures var k := SpliceStart(start, |s|);
      && |r| == |s| + 1
      && r[k] == x
      && multiset(r) == multiset(s) + multiset{x}
      && (forall i :: 0 <= i < k ==> r[i] == s[i])
      && (forall i :: k < i < |r| ==> r[i] == s[i - 1])
  {
    assert s == s[..SpliceStart(start, |s|)] + s[SpliceStart(start, |s|)..];
    var k := SpliceStart(start, |s|);
    s[..k] + [x] + s[k..]
  }

  /** The new priority list the drag handlers build from the two indices. */
  function MoveTask(tasks: seq<string>, oldIndex: int, newIndex: int, active: string): seq<string>
  {
    SpliceInsert(SpliceRemoveOne(tasks, oldIndex), newIndex, active)
  }

  /** No repeated task names. */
  predicate Distinct(tasks: seq<string>)
  {
    forall i, j :: 0 <= i < j < |tasks| ==> tasks[i] != tasks[j]
  }

  /**
   * Moving the entry at `from` to `to`: the list keeps its length and its
   * multiset of tasks, the moved task sits at `to`, and removing it from
   * both lists leaves the other tasks in their old relative order.
   */
  lemma MoveTaskPlaces(tasks: seq<string>, from: int, to: int, active: string)
    requires 0 <= from < |tasks| && 0 <= to < |tasks| && tasks[from] == active
    ensures var r := MoveTask(tasks, from, to, active);
      && |r| == |tasks|
      && r[to] == active
      && r[..to] + r[to + 1..] == tasks[..from] + tasks[from + 1..]
      && multiset(r) == multiset(tasks)
  {
    var s := SpliceRemoveOne(tasks, from);
    var r := SpliceInsert(s, to, active);
    assert r == s[..to] + [active] + s[to..];
    assert r[..to] + r[to + 1..] == s by {
      assert r[..to] == s[..to];
      assert r[to + 1..] == s[to..];
    }
  }

  /** The drag handlers' move on the indices `findIndex` gives, when both ids are in the list. */
  lemma MoveByIdPlaces(tasks: seq<string>, active: string, over: string)
    requires active in tasks && over in tasks
    ensures var r := MoveTask(tasks, FindIndex(tasks, active), FindIndex(tasks, over), active);
      && |r| == |tasks|
      && r[FindIndex(tasks, over)] == active
      && multiset(r) == multiset(tasks)
      && (Distinct(tasks) ==> Distinct(r))
  {
    var from, to := FindIndex(tasks, active), FindIndex(tasks, over);
    MoveTaskPlaces(tasks, from, to, active);
    var r := MoveTask(tasks, from, to, active);
    if Distinct(tasks) {
      PermutationKeepsDistinct(tasks, r);
    }
  }

  /** A rearrangement of a list without repeats has no repeats. */
  lemma PermutationKeepsDistinct(a: seq<string>, b: seq<string>)
    requires Distinct(a) && multiset(a) == multiset(b)
    ensures Distinct(b)
  {
    forall x | x in multiset(a)
      ensures multiset(a)[x] == 1
    {
      DistinctCount(a, x);
    }
    DistinctFromCounts(b);
  }

  /** A list in which every task occurs once has no repeats. */
  lemma {:induction false} DistinctFromCounts(b: seq<string>)
    requires forall x :: x in multiset(b) ==> multiset(b)[x] == 1
    ensures Distinct(b)
    decreases |b|
  {
    if b != [] {
      var h, t := b[0], b[1..];
      assert b == [h] + t;
      assert multiset(b) == multiset{h} + multiset(t);
      assert h in multiset(b);
      assert multiset(b)[h] == 1 + multiset(t)[h];
      assert h !in multiset(t);
      forall x | x in multiset(t)
        ensures multiset(t)[x] == 1
      {
        assert x in multiset(b);
      }
      DistinctFromCounts(t);
      forall i, j | 0 <= i < j < |b|
        ensures b[i] != b[j]
      {
        if i > 0 {
          assert b[i] == t[i - 1] && b[j] == t[j - 1];
        } else {
          assert b[j] == t[j - 1];
          assert b[j] in t;
        }
      }
    }
  }

  /** In a list without repeats every task occurs exactly once. */
  lemma {:induction false} DistinctCount(a: seq<string>, x: string)
    requires Distinct(a) && x in a
    ensures multiset(a)[x] == 1
    decreases |a|
  {
    assert a == [a[0]] + a[1..];
    if a[0] == x {
      assert x !in a[1..];
    } else {
      DistinctCount(a[1..], x);
    }
  }

  /**
   * The unguarded move when the dragged id is not in a non-empty list:
   * `splice(-1, 1)` drops the LAST task and the dragged id is inserted in
   * its place, so the list is no longer a rearrangement of the old one.
   */
  lemma UnguardedMoveDropsLast(tasks: seq<string>, active: string, over: string)
    requires |tasks| > 0 && active !in tasks
    ensures var r := MoveTask(tasks, FindIndex(tasks, active), FindIndex(tasks, over), active);
      && |r| == |tasks|
      && multiset(r) == multiset(tasks[..|tasks| - 1]) + multiset{active}
      && multiset(r) != multiset(tasks)
  {
    var n := |tasks| - 1;
    var s := SpliceRemoveOne(tasks, -1);
    assert s == tasks[..n];
    var k := SpliceStart(FindIndex(tasks, over), |s|);
    var r := MoveTask(tasks, -1, FindIndex(tasks, over), active);
    assert r == s[..k] + [active] + s[k..];
    assert s[..k] + s[k..] == s;
    assert multiset(r) == multiset(s) + multiset{active};
    assert multiset(tasks)[active] == 0;
    assert multiset(r)[active] >= 1;
  }

  /** The concrete case: dragging an unknown task onto "Inspection" loses "Maintenance". */
  lemma UnguardedMoveExample()
    ensures var tasks := ["Delivery", "Inspection", "Maintenance"];
      MoveTask(tasks, FindIndex(tasks, "Charging"), FindIndex(tasks, "Inspection"), "Charging")
        == ["Delivery", "Charging", "Inspection"]
  {
    var tasks := ["Delivery", "Inspection", "Maintenance"];
    assert FindIndex(tasks, "Charging") == -1;
    assert FindIndex(tasks, "Inspection") == 1;
  }
}
