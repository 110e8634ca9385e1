/** The search for a shortest legal path of status changes, over any transition table. */
module Lifecycle {
  import opened Basics

  /** A table of allowed moves, restricted to the statuses a caller prefers to pass through. */
  datatype Moves<!T(==)> = Moves(allowed: T -> set<T>, preferred: seq<T>)

  predicate CanStep<T(==)>(m: Moves<T>, a: T, b: T) {
    b in m.preferred && b in m.allowed(a)
  }

  function End<T>(start: T, path: seq<T>): T {
    if path == [] then start else path[|path| - 1]
  }

  /** `path` lists the statuses passed after `start`, each one legal move from the one before. */
  ghost predicate IsPath<T>(m: Moves<T>, start: T, path: seq<T>) {
    path != [] ==>
      var before := path[..|path| - 1];
      IsPath(m, start, before) && CanStep(m, End(start, before), path[|path| - 1])
  }

  datatype Entry<T> = Entry(status: T, path: seq<T>)

  /** An entry carries a shortest path to its status. */
  ghost predicate IsShortest<T(!new)>(m: Moves<T>, start: T, e: Entry<T>) {
    && IsPath(m, start, e.path) && End(start, e.path) == e.status
    && forall q :: IsPath(m, start, q) && End(start, q) == e.status ==> |e.path| <= |q|
  }

  ghost predicate SeesWithin<T(!new)>(m: Moves<T>, start: T, seen: set<T>, n: nat) {
    forall q :: IsPath(m, start, q) && |q| <= n ==> End(start, q) in seen
  }

  ghost predicate InQueue<T>(queue: seq<Entry<T>>, v: T) {
    exists i :: 0 <= i < |queue| && queue[i].status == v
  }

  /**
   * The search frontier: statuses are seen exactly when expanded or queued, the successors of expanded
   * ones are seen, and the queue holds shortest paths of length n or n + 1 in non-decreasing order.
   */
  ghost predicate Frontier<T(!new)>(m: Moves<T>, start: T, queue: seq<Entry<T>>, seen: set<T>, done: set<T>, n: nat) {
    && start in seen
    && (forall v :: v in seen <==> v in done || InQueue(queue, v))
    && (forall i :: 0 <= i < |queue| ==> IsShortest(m, start, queue[i]) && n <= |queue[i].path| <= n + 1)
    && (forall i, j :: 0 <= i < j < |queue| ==> |queue[i].path| <= |queue[j].path|)
    && SeesWithin(m, start, seen, n)
  }

  ghost predicate Closed<T(!new)>(m: Moves<T>, seen: set<T>, done: set<T>) {
    forall u, v :: u in done && CanStep(m, u, v) ==> v in seen
  }

  lemma ExtendShortest<T(!new)>(m: Moves<T>, start: T, seen: set<T>, e: Entry<T>, next: T)
    requires IsShortest(m, start, e) && SeesWithin(m, start, seen, |e.path|)
    requires CanStep(m, e.status, next) && next !in seen
    ensures IsShortest(m, start, Entry(next, e.path + [next]))
  {
    var path := e.path + [next];
    assert path[..|path| - 1] == e.path;
    forall q | IsPath(m, start, q) && End(start, q) == next
      ensures |path| <= |q|
    {
      assert |q| > |e.path|;
    }
  }

  /** Once every entry of length n is expanded, all statuses within n + 1 moves are seen. */
  lemma SeesOneFurther<T(!new)>(m: Moves<T>, start: T, queue: seq<Entry<T>>, seen: set<T>, done: set<T>, n: nat)
    requires SeesWithin(m, start, seen, n) && Closed(m, seen, done)
    requires forall v :: v in seen ==> v in done || InQueue(queue, v)
    requires forall i :: 0 <= i < |queue| ==> IsShortest(m, start, queue[i]) && |queue[i].path| > n
    ensures SeesWithin(m, start, seen, n + 1)
  {
    forall q | IsPath(m, start, q) && |q| <= n + 1
      ensures End(start, q) in seen
    {
      if |q| == n + 1 {
        var before := q[..n];
        assert End(start, before) in seen;
      }
    }
  }

  lemma {:induction false} ClosedSeesAll<T(!new)>(m: Moves<T>, start: T, seen: set<T>, q: seq<T>)
    requires start in seen && Closed(m, seen, seen) && IsPath(m, start, q)
    ensures End(start, q) in seen
    decreases |q|
  {
    if q != [] {
      ClosedSeesAll(m, start, seen, q[..|q| - 1]);
    }
  }

  /** The frontier while `e`, already taken from the queue, is being expanded. */
  ghost predicate Expanding<T(!new)>(m: Moves<T>, start: T, e: Entry<T>, queue: seq<Entry<T>>, seen: set<T>, done: set<T>, n: nat) {
    && IsShortest(m, start, e) && |e.path| == n
    && Frontier(m, start, queue, seen, done + {e.status}, n) && Closed(m, seen, done)
  }

  lemma FrontPopped<T(!new)>(m: Moves<T>, start: T, queue: seq<Entry<T>>, seen: set<T>, done: set<T>, n: nat)
    requires queue != [] && |queue[0].path| == n
    requires Frontier(m, start, queue, seen, done, n) && Closed(m, seen, done)
    ensures Expanding(m, start, queue[0], queue[1..], seen, done, n)
  {
    var rest := queue[1..];
    forall v
      ensures InQueue(queue, v) <==> v == queue[0].status || InQueue(rest, v)
    {
      if InQueue(rest, v) {
        var i :| 0 <= i < |rest| && rest[i].status == v;
        assert queue[i + 1].status == v;
      }
      if InQueue(queue, v) && v != queue[0].status {
        var i :| 0 <= i < |queue| && queue[i].status == v;
        assert rest[i - 1].status == v;
      }
    }
  }

  lemma EnqueueKeepsExpanding<T(!new)>(m: Moves<T>, start: T, e: Entry<T>, queue: seq<Entry<T>>, seen: set<T>, done: set<T>, n: nat, next: T)
    requires Expanding(m, start, e, queue, seen, done, n)
    requires IsShortest(m, start, Entry(next, e.path + [next]))
    ensures Expanding(m, start, e, queue + [Entry(next, e.path + [next])], seen + {next}, done, n)
  {
    var longer := queue + [Entry(next, e.path + [next])];
    forall v
      ensures InQueue(longer, v) <==> v == next || InQueue(queue, v)
    {
      if v == next {
        assert longer[|queue|].status == v;
      }
      if InQueue(queue, v) {
        var i :| 0 <= i < |queue| && queue[i].status == v;
        assert longer[i].status == v;
      }
    }
  }

  /** The last successor of `e` has been seen: the next round starts from the new front of the queue. */
  lemma FinishExpanding<T(!new)>(m: Moves<T>, start: T, e: Entry<T>, queue: seq<Entry<T>>, seen: set<T>, done: set<T>, n: nat)
    requires Expanding(m, start, e, queue, seen, done, n)
    requires forall v :: CanStep(m, e.status, v) ==> v in seen
    ensures var next := if queue == [] then n else |queue[0].path|;
            && Frontier(m, start, queue, seen, done + {e.status}, next)
            && Closed(m, seen, done + {e.status})
  {
    if queue != [] && |queue[0].path| > n {
      SeesOneFurther(m, start, queue, seen, done + {e.status}, n);
    }
  }

  /** One turn of the search: append the unseen successors of `e`, or stop at the target. */
  method Expand<T(==,!new)>(m: Moves<T>, ghost start: T, e: Entry<T>, target: T, waiting: seq<Entry<T>>, seenBefore: set<T>,
                            ghost done: set<T>, ghost n: nat)
      returns (found: Option<seq<T>>, queue: seq<Entry<T>>, seen: set<T>)
    requires Expanding(m, start, e, waiting, seenBefore, done, n)
    requires target !in seenBefore
    ensures found.Some? ==> IsShortest(m, start, Entry(target, found.value))
    ensures found.None? ==>
              && Expanding(m, start, e, queue, seen, done, n)
              && (forall v :: CanStep(m, e.status, v) ==> v in seen)
              && target !in seen
              && seenBefore <= seen <= seenBefore + (set v | v in m.preferred)
              && (seen == seenBefore ==> queue == waiting)
  {
    hide Frontier, Closed, IsShortest;
    queue, seen := waiting, seenBefore;
    for i := 0 to |m.preferred|
      invariant seenBefore <= seen <= seenBefore + (set v | v in m.preferred)
      invariant target !in seen
      invariant seen == seenBefore ==> queue == waiting
      invariant Expanding(m, start, e, queue, seen, done, n)
      invariant forall k :: 0 <= k < i && CanStep(m, e.status, m.preferred[k]) ==> m.preferred[k] in seen
    {
      var next := m.preferred[i];
      if !CanStep(m, e.status, next) || next in seen {
        continue;
      }
      var nextPath := e.path + [next];
      ExpandingSeesWithin(m, start, e, queue, seen, done, n);
      ExtendShortest(m, start, seen, e, next);
      if next == target {
        return Some(nextPath), queue, seen;
      }
      EnqueueKeepsExpanding(m, start, e, queue, seen, done, n, next);
      seen := seen + {next};
      queue := queue + [Entry(next, nextPath)];
    }
    found := None;
  }

  lemma ExpandingSeesWithin<T(!new)>(m: Moves<T>, start: T, e: Entry<T>, queue: seq<Entry<T>>, seen: set<T>, done: set<T>, n: nat)
    requires Expanding(m, start, e, queue, seen, done, n)
    ensures SeesWithin(m, start, seen, |e.path|)
  {
  }

  lemma ExhaustedSearchSeesAll<T(!new)>(m: Moves<T>, start: T, target: T, seen: set<T>, done: set<T>, n: nat)
    requires Frontier(m, start, [], seen, done, n) && Closed(m, seen, done) && target !in seen
    ensures forall q :: IsPath(m, start, q) ==> End(start, q) != target
  {
    assert Closed(m, seen, seen);
    forall q | IsPath(m, start, q)
      ensures End(start, q) != target
    {
      ClosedSeesAll(m, start, seen, q);
    }
  }

  lemma InitialFrontier<T(!new)>(m: Moves<T>, start: T)
    ensures Frontier(m, start, [Entry(start, [])], {start}, {}, 0) && Closed(m, {start}, {})
  {
    var queue := [Entry(start, [])];
    assert queue[0].status == start;
    assert IsShortest(m, start, queue[0]);
  }

  /**
   * Breadth-first search. It terminates for every table, returns a shortest legal path, and fails
   * exactly when there is none.
   */
  method TransitionPath<T(==,!new)>(m: Moves<T>, current: T, target: T) returns (r: Option<seq<T>>)
    ensures r.Some? ==>
              && IsPath(m, current, r.value) && End(current, r.value) == target
              && forall q :: IsPath(m, current, q) && End(current, q) == target ==> |r.value| <= |q|
    ensures r.None? ==> forall q :: IsPath(m, current, q) ==> End(current, q) != target
  {
    hide Frontier, Closed;
    if current == target {
      return Some([]);
    }
    var queue := [Entry(current, [])];
    var seen := {current};
    ghost var done: set<T> := {};
    ghost var n: nat := 0;
    ghost var universe := {current} + set v | v in m.preferred;
    InitialFrontier(m, current);
    while queue != []
      invariant seen <= universe
      invariant target !in seen
      invariant Frontier(m, current, queue, seen, done, n) && Closed(m, seen, done)
      invariant queue != [] ==> |queue[0].path| == n
      decreases universe - seen, |queue|
    {
      FrontPopped(m, current, queue, seen, done, n);
      var e := queue[0];
      var found, longer, wider := Expand(m, current, e, target, queue[1..], seen, done, n);
      if found.Some? {
        return found;
      }
      FinishExpanding(m, current, e, longer, wider, done, n);
      if wider != seen {
        ghost var added :| added in wider && added !in seen;
        assert added in universe - seen && added !in universe - wider;
        assert universe - wider < universe - seen;
      }
      queue, seen := longer, wider;
      done := done + {e.status};
      n := if queue == [] then n else |queue[0].path|;
    }
    ExhaustedSearchSeesAll(m, current, target, seen, done, n);
    r := None;
  }
}
