/**
 * The walk over a task's delegation lineage
 * (apps/desktop/src/App.tsx:2620-2648). The broker's answers are fixed for the
 * length of one walk.
 */
module DelegationWalk {
  import opened Common

  /** One delegation row; its child task may be missing. */
  datatype Row = Row(id: string, child: string)

  /** `listDelegations`: the rows of each task. */
  type Lineage = map<string, seq<Row>>

  const LIMIT: nat := 64

  function RowsOf(g: Lineage, task: string): seq<Row> {
    Get(g, task).GetOr([])
  }

  /** The rows of a list of tasks, one task after the other. */
  function AllRows(g: Lineage, tasks: seq<string>): seq<Row> {
    if tasks == [] then [] else AllRows(g, tasks[..|tasks| - 1]) + RowsOf(g, tasks[|tasks| - 1])
  }

  /** An empty child id is no task. */
  ghost predicate Edge(g: Lineage, parent: string, child: string) {
    child != "" && exists row :: row in RowsOf(g, parent) && row.child == child
  }

  ghost predicate Path(g: Lineage, path: seq<string>) {
    path != [] && forall i :: 0 <= i < |path| - 1 ==> Edge(g, path[i], path[i + 1])
  }

  ghost predicate Reaches(g: Lineage, root: string, task: string) {
    exists path :: Path(g, path) && path[0] == root && path[|path| - 1] == task
  }

  lemma RootReachesItself(g: Lineage, root: string)
    ensures Reaches(g, root, root)
  {
    assert Path(g, [root]);
  }

  lemma ReachesChild(g: Lineage, root: string, parent: string, child: string)
    requires Reaches(g, root, parent) && Edge(g, parent, child)
    ensures Reaches(g, root, child)
  {
    var path :| Path(g, path) && path[0] == root && path[|path| - 1] == parent;
    assert Path(g, path + [child]);
  }

  ghost predicate ClosedUnder(g: Lineage, visited: set<string>, pending: seq<string>) {
    forall parent, child :: parent in visited && Edge(g, parent, child) ==> child in visited || child in pending
  }

  /** A set that holds the root and the children of its members holds everything reachable. */
  lemma {:induction false} ClosedHoldsPath(g: Lineage, visited: set<string>, path: seq<string>)
    requires ClosedUnder(g, visited, []) && Path(g, path) && path[0] in visited
    ensures path[|path| - 1] in visited
    decreases |path|
  {
    if |path| > 1 {
      assert Edge(g, path[0], path[1]);
      ClosedHoldsPath(g, visited, path[1..]);
    }
  }

  predicate Distinct(tasks: seq<string>) {
    forall i, j :: 0 <= i < j < |tasks| ==> tasks[i] != tasks[j]
  }

  function SetOf(tasks: seq<string>): set<string> {
    set t | t in tasks
  }

  lemma {:induction false} DistinctCount(tasks: seq<string>)
    requires Distinct(tasks)
    ensures |SetOf(tasks)| == |tasks|
  {
    if tasks != [] {
      var before := tasks[..|tasks| - 1];
      DistinctCount(before);
      assert SetOf(tasks) == SetOf(before) + {tasks[|tasks| - 1]};
    }
  }

  lemma SubsetOfSameSize(small: set<string>, large: set<string>)
    requires small <= large && |large| <= |small|
    ensures small == large
  {
    assert |large - small| == |large| - |small|;
  }

  /** The children a visit appends to the queue. */
  function Unvisited(rows: seq<Row>, visited: set<string>): (children: seq<string>)
    ensures forall t :: t in children <==> t != "" && t !in visited && exists row :: row in rows && row.child == t
  {
    if rows == [] then []
    else
      var before := Unvisited(rows[..|rows| - 1], visited);
      var child := rows[|rows| - 1].child;
      assert rows == rows[..|rows| - 1] + [rows[|rows| - 1]];
      if child != "" && child !in visited then before + [child] else before
  }

  /** What the loop keeps: everything listed or queued is reachable, and children are not forgotten. */
  ghost predicate Walking(g: Lineage, root: string, order: seq<string>, pending: seq<string>) {
    && Distinct(order) && |order| <= LIMIT
    && (if order == [] then pending == [root] else order[0] == root)
    && (forall task :: task in order ==> Reaches(g, root, task))
    && (forall task :: task in pending ==> task != "" && Reaches(g, root, task))
    && ClosedUnder(g, SetOf(order), pending)
  }

  lemma WalkSkips(g: Lineage, root: string, order: seq<string>, pending: seq<string>)
    requires Walking(g, root, order, pending) && pending != [] && pending[0] in order
    ensures Walking(g, root, order, pending[1..])
  {
    assert pending == [pending[0]] + pending[1..];
    assert forall task :: task in pending <==> task == pending[0] || task in pending[1..];
  }

  lemma WalkVisits(g: Lineage, root: string, order: seq<string>, pending: seq<string>)
    requires Walking(g, root, order, pending) && pending != [] && pending[0] !in order && |order| < LIMIT
    ensures
      var more := order + [pending[0]];
      Walking(g, root, more, pending[1..] + Unvisited(RowsOf(g, pending[0]), SetOf(more)))
  {
    var parent := pending[0];
    var more := order + [parent];
    var found := Unvisited(RowsOf(g, parent), SetOf(more));
    var queue := pending[1..] + found;
    assert pending == [parent] + pending[1..];
    assert forall task :: task in pending <==> task == parent || task in pending[1..];
    forall task | task in queue
      ensures task != "" && Reaches(g, root, task)
    {
      if task in found {
        assert Edge(g, parent, task);
        ReachesChild(g, root, parent, task);
      }
    }
    forall p, c | p in SetOf(more) && Edge(g, p, c)
      ensures c in SetOf(more) || c in queue
    {
      if p == parent {
        assert c !in SetOf(more) ==> c in found;
      } else {
        assert p in SetOf(order);
      }
    }
  }

  lemma WalkEnds(g: Lineage, root: string, order: seq<string>, task: string)
    requires Walking(g, root, order, []) && order != [] && Reaches(g, root, task)
    ensures task in order
  {
    var path :| Path(g, path) && path[0] == root && path[|path| - 1] == task;
    ClosedHoldsPath(g, SetOf(order), path);
  }

  // ---- nearest first ------------------------------------------------------------

  /** The task is at most `n` delegations away from the root. */
  ghost predicate Within(g: Lineage, root: string, task: string, n: nat) {
    exists path :: Path(g, path) && path[0] == root && path[|path| - 1] == task && |path| <= n + 1
  }

  ghost predicate AsNear(g: Lineage, root: string, near: string, task: string) {
    forall n: nat :: Within(g, root, task, n) ==> Within(g, root, near, n)
  }

  /** Every listed task is as near to the root as any task not listed before it. */
  ghost predicate NearestFirst(g: Lineage, root: string, order: seq<string>) {
    forall i, task :: 0 <= i < |order| && task !in order[..i] ==> AsNear(g, root, order[i], task)
  }

  /** Somewhere in the list the task stands at that level or a lower one. */
  ghost predicate Stands(all: seq<string>, levels: seq<nat>, task: string, level: nat) {
    exists j :: 0 <= j < |all| && j < |levels| && all[j] == task && levels[j] <= level
  }

  /**
   * The distances at which the listed and then the queued tasks were met: they only
   * grow, by at most one over the queue's first.
   */
  ghost predicate Grows(levels: seq<nat>, listed: nat) {
    && listed <= |levels|
    && (forall i, j :: 0 <= i <= j < |levels| ==> levels[i] <= levels[j])
    && (listed < |levels| ==> forall i :: 0 <= i < |levels| ==> levels[i] <= levels[listed] + 1)
  }

  ghost predicate MetWithin(g: Lineage, root: string, all: seq<string>, levels: seq<nat>) {
    |levels| == |all| && forall i :: 0 <= i < |all| ==> Within(g, root, all[i], levels[i])
  }

  /** Every child of a listed task was met no more than one step further than the task. */
  ghost predicate ChildrenMet(g: Lineage, all: seq<string>, levels: seq<nat>, listed: nat) {
    && listed <= |all| == |levels|
    && forall i, c :: 0 <= i < listed && Edge(g, all[i], c) ==> Stands(all, levels, c, levels[i] + 1)
  }

  /** All that was met, the first `listed` of it listed. */
  ghost predicate AllMet(g: Lineage, root: string, all: seq<string>, levels: seq<nat>, listed: nat) {
    && all != [] && all[0] == root && MetWithin(g, root, all, levels) && levels[0] == 0
    && Grows(levels, listed) && ChildrenMet(g, all, levels, listed)
  }

  ghost predicate Levelled(g: Lineage, root: string, order: seq<string>, pending: seq<string>, levels: seq<nat>) {
    AllMet(g, root, order + pending, levels, |order|)
  }

  lemma WithinMore(g: Lineage, root: string, task: string, m: nat, n: nat)
    requires m <= n && Within(g, root, task, m)
    ensures Within(g, root, task, n)
  {
    var path :| Path(g, path) && path[0] == root && path[|path| - 1] == task && |path| <= m + 1;
  }

  lemma WithinChild(g: Lineage, root: string, parent: string, child: string, n: nat)
    requires Within(g, root, parent, n) && Edge(g, parent, child)
    ensures Within(g, root, child, n + 1)
  {
    var path :| Path(g, path) && path[0] == root && path[|path| - 1] == parent && |path| <= n + 1;
    assert Path(g, path + [child]);
  }

  /** Along a path from the root each task is listed, no later than its distance, or the queue is as near. */
  lemma {:induction false} ListedAlongPath(
    g: Lineage, root: string, order: seq<string>, pending: seq<string>, levels: seq<nat>, path: seq<string>)
    requires Levelled(g, root, order, pending, levels) && Path(g, path) && path[0] == root
    ensures
      || (pending != [] && levels[|order|] <= |path| - 1)
      || exists i :: 0 <= i < |order| && order[i] == path[|path| - 1] && levels[i] <= |path| - 1
    decreases |path|
  {
    var all, last := order + pending, |path| - 1;
    if last == 0 {
      assert order != [] ==> order[0] == root;
    } else {
      var before := path[..last];
      ListedAlongPath(g, root, order, pending, levels, before);
      if i :| 0 <= i < |order| && order[i] == before[last - 1] && levels[i] <= last - 1 {
        assert Edge(g, path[last - 1], path[last]) && all[i] == order[i];
        assert Stands(all, levels, path[last], levels[i] + 1);
        var j :| 0 <= j < |all| && all[j] == path[last] && levels[j] <= levels[i] + 1;
        assert j < |order| ==> order[j] == path[last];
        assert j >= |order| ==> levels[|order|] <= levels[j];
      }
    }
  }

  /** So the first of the queue is as near as any task that is not listed. */
  lemma FirstIsNearest(g: Lineage, root: string, order: seq<string>, pending: seq<string>, levels: seq<nat>, task: string)
    requires Levelled(g, root, order, pending, levels) && pending != [] && task !in order
    ensures AsNear(g, root, pending[0], task)
  {
    forall n: nat | Within(g, root, task, n)
      ensures Within(g, root, pending[0], n)
    {
      var path :| Path(g, path) && path[0] == root && path[|path| - 1] == task && |path| <= n + 1;
      ListedAlongPath(g, root, order, pending, levels, path);
      assert (order + pending)[|order|] == pending[0];
      WithinMore(g, root, pending[0], levels[|order|], n);
    }
  }

  lemma NearestSnoc(g: Lineage, root: string, order: seq<string>, pending: seq<string>, levels: seq<nat>)
    requires NearestFirst(g, root, order) && Levelled(g, root, order, pending, levels) && pending != []
    ensures NearestFirst(g, root, order + [pending[0]])
  {
    var more := order + [pending[0]];
    forall i, task | 0 <= i < |more| && task !in more[..i]
      ensures AsNear(g, root, more[i], task)
    {
      if i < |order| {
        assert more[..i] == order[..i];
      } else {
        assert more[..i] == order;
        FirstIsNearest(g, root, order, pending, levels, task);
      }
    }
  }

  function Dropped<T>(all: seq<T>, at: nat): (rest: seq<T>)
    requires at < |all|
    ensures |rest| == |all| - 1
    ensures forall j :: 0 <= j < |rest| ==> rest[j] == all[if j < at then j else j + 1]
  {
    all[..at] + all[at + 1..]
  }

  lemma GrowsDropped(levels: seq<nat>, listed: nat)
    requires Grows(levels, listed) && listed < |levels|
    ensures Grows(Dropped(levels, listed), listed)
  {
  }

  /** Dropping a task that stands before it, at no higher level, loses no child. */
  lemma ChildrenDropped(g: Lineage, all: seq<string>, levels: seq<nat>, listed: nat, at: nat)
    requires ChildrenMet(g, all, levels, listed) && Grows(levels, listed)
    requires at < listed < |all| && all[at] == all[listed]
    ensures ChildrenMet(g, Dropped(all, listed), Dropped(levels, listed), listed)
  {
    var rest, after := Dropped(all, listed), Dropped(levels, listed);
    forall i, c | 0 <= i < listed && Edge(g, rest[i], c)
      ensures Stands(rest, after, c, after[i] + 1)
    {
      assert Stands(all, levels, c, levels[i] + 1);
      var j :| 0 <= j < |all| && all[j] == c && levels[j] <= levels[i] + 1;
      var k := if j < listed then j else if j == listed then at else j - 1;
      assert rest[k] == c && after[k] <= after[i] + 1;
    }
  }

  /** A queued task that is listed already is skipped: it stands before at no higher level. */
  lemma LevelsSkip(g: Lineage, root: string, order: seq<string>, pending: seq<string>, levels: seq<nat>)
    requires Levelled(g, root, order, pending, levels) && pending != [] && pending[0] in order
    ensures Levelled(g, root, order, pending[1..], Dropped(levels, |order|))
  {
    var all := order + pending;
    var at :| 0 <= at < |order| && order[at] == pending[0];
    assert Dropped(all, |order|) == order + pending[1..];
    assert all[at] == all[|order|];
    GrowsDropped(levels, |order|);
    ChildrenDropped(g, all, levels, |order|, at);
  }

  function Further(levels: seq<nat>, level: nat, count: nat): (after: seq<nat>)
    ensures |after| == |levels| + count && after[..|levels|] == levels
    ensures forall j :: |levels| <= j < |after| ==> after[j] == level
  {
    levels + seq(count, i => level)
  }

  lemma GrowsFurther(levels: seq<nat>, listed: nat, count: nat)
    requires Grows(levels, listed) && listed < |levels|
    ensures Grows(Further(levels, levels[listed] + 1, count), listed + 1)
  {
    var after := Further(levels, levels[listed] + 1, count);
    assert forall i :: 0 <= i < |levels| ==> after[i] == levels[i];
  }

  lemma MetFurther(g: Lineage, root: string, all: seq<string>, levels: seq<nat>, listed: nat, found: seq<string>)
    requires MetWithin(g, root, all, levels) && listed < |all| && forall c :: c in found ==> Edge(g, all[listed], c)
    ensures MetWithin(g, root, all + found, Further(levels, levels[listed] + 1, |found|))
  {
    var after := Further(levels, levels[listed] + 1, |found|);
    forall i | 0 <= i < |all + found|
      ensures Within(g, root, (all + found)[i], after[i])
    {
      if i < |all| {
        assert after[i] == after[..|levels|][i];
      } else {
        assert (all + found)[i] in found;
        WithinChild(g, root, all[listed], (all + found)[i], levels[listed]);
      }
    }
  }

  lemma StandsFurther(all: seq<string>, levels: seq<nat>, more: seq<string>, after: seq<nat>, task: string, level: nat)
    requires Stands(all, levels, task, level) && all <= more && levels <= after
    ensures Stands(more, after, task, level)
  {
    var j :| 0 <= j < |all| && j < |levels| && all[j] == task && levels[j] <= level;
    assert more[j] == task && after[j] <= level;
  }

  lemma ChildrenFurther(g: Lineage, all: seq<string>, levels: seq<nat>, listed: nat, found: seq<string>)
    requires ChildrenMet(g, all, levels, listed) && Grows(levels, listed) && listed < |all|
    requires forall c :: Edge(g, all[listed], c) ==> c in all[..listed + 1] || c in found
    ensures ChildrenMet(g, all + found, Further(levels, levels[listed] + 1, |found|), listed + 1)
  {
    var more, after := all + found, Further(levels, levels[listed] + 1, |found|);
    assert forall i :: 0 <= i < |levels| ==> after[i] == after[..|levels|][i];
    forall i, c | 0 <= i < listed + 1 && Edge(g, more[i], c)
      ensures Stands(more, after, c, after[i] + 1)
    {
      if i < listed {
        assert Edge(g, all[i], c);
        StandsFurther(all, levels, more, after, c, levels[i] + 1);
      } else if c in found {
        var j :| 0 <= j < |found| && found[j] == c;
        assert more[|all| + j] == c && after[|all| + j] == levels[listed] + 1;
      } else {
        var j :| 0 <= j < |all[..listed + 1]| && all[..listed + 1][j] == c;
        assert more[j] == c && after[j] <= levels[listed];
      }
    }
  }

  lemma AllMetFurther(g: Lineage, root: string, all: seq<string>, levels: seq<nat>, listed: nat, found: seq<string>)
    requires AllMet(g, root, all, levels, listed) && listed < |all|
    requires forall c :: c in found ==> Edge(g, all[listed], c)
    requires forall c :: Edge(g, all[listed], c) ==> c in all[..listed + 1] || c in found
    ensures AllMet(g, root, all + found, Further(levels, levels[listed] + 1, |found|), listed + 1)
  {
    GrowsFurther(levels, listed, |found|);
    MetFurther(g, root, all, levels, listed, found);
    ChildrenFurther(g, all, levels, listed, found);
    var after := Further(levels, levels[listed] + 1, |found|);
    assert after[0] == after[..|levels|][0];
  }

  lemma Regrouped<T>(order: seq<T>, pending: seq<T>, found: seq<T>)
    requires pending != []
    ensures order + [pending[0]] + (pending[1..] + found) == order + pending + found
    ensures (order + pending)[|order|] == pending[0] && (order + pending)[..|order| + 1] == order + [pending[0]]
  {
  }

  /** A visited task's children are queued one level further. */
  lemma LevelsVisit(g: Lineage, root: string, order: seq<string>, pending: seq<string>, levels: seq<nat>, found: seq<string>)
    requires Levelled(g, root, order, pending, levels) && pending != []
    requires forall c :: c in found ==> Edge(g, pending[0], c)
    requires forall c :: Edge(g, pending[0], c) ==> c in order + [pending[0]] || c in found
    ensures Levelled(g, root, order + [pending[0]], pending[1..] + found, Further(levels, levels[|order|] + 1, |found|))
  {
    Regrouped(order, pending, found);
    AllMetFurther(g, root, order + pending, levels, |order|, found);
  }

  /** What the loop keeps of the order. */
  ghost predicate Ranked(g: Lineage, root: string, order: seq<string>, pending: seq<string>) {
    NearestFirst(g, root, order) && exists levels :: Levelled(g, root, order, pending, levels)
  }

  lemma RankedStart(g: Lineage, root: string)
    ensures Ranked(g, root, [], [root])
  {
    assert Path(g, [root]) && Within(g, root, root, 0);
    assert [] + [root] == [root];
    assert Levelled(g, root, [], [root], [0]);
  }

  lemma RankedSkip(g: Lineage, root: string, order: seq<string>, pending: seq<string>)
    requires Ranked(g, root, order, pending) && pending != [] && pending[0] in order
    ensures Ranked(g, root, order, pending[1..])
  {
    var levels :| Levelled(g, root, order, pending, levels);
    LevelsSkip(g, root, order, pending, levels);
  }

  lemma RankedVisit(g: Lineage, root: string, order: seq<string>, pending: seq<string>)
    requires Ranked(g, root, order, pending) && pending != []
    ensures
      var more := order + [pending[0]];
      Ranked(g, root, more, pending[1..] + Unvisited(RowsOf(g, pending[0]), SetOf(more)))
  {
    var levels :| Levelled(g, root, order, pending, levels);
    NearestSnoc(g, root, order, pending, levels);
    LevelsVisit(g, root, order, pending, levels, Unvisited(RowsOf(g, pending[0]), SetOf(order + [pending[0]])));
  }

  /** What the loop keeps. */
  ghost predicate Listing(
    g: Lineage, root: string, order: seq<string>, rows: seq<Row>, visited: set<string>, pending: seq<string>)
  {
    && Walking(g, root, order, pending) && Ranked(g, root, order, pending)
    && visited == SetOf(order) && |visited| == |order| && rows == AllRows(g, order)
  }

  lemma ListingSkips(
    g: Lineage, root: string, order: seq<string>, rows: seq<Row>, visited: set<string>, pending: seq<string>)
    requires Listing(g, root, order, rows, visited, pending) && pending != []
    requires pending[0] == "" || pending[0] in visited
    ensures Listing(g, root, order, rows, visited, pending[1..])
  {
    assert pending[0] in pending;
    WalkSkips(g, root, order, pending);
    RankedSkip(g, root, order, pending);
  }

  lemma ListingVisits(
    g: Lineage, root: string, order: seq<string>, rows: seq<Row>, visited: set<string>, pending: seq<string>)
    requires Listing(g, root, order, rows, visited, pending) && pending != []
    requires pending[0] !in visited && |visited| < LIMIT
    ensures
      var parent := pending[0];
      Listing(g, root, order + [parent], rows + RowsOf(g, parent), visited + {parent},
              pending[1..] + Unvisited(RowsOf(g, parent), visited + {parent}))
  {
    var parent := pending[0];
    WalkVisits(g, root, order, pending);
    RankedVisit(g, root, order, pending);
    DistinctCount(order + [parent]);
    assert SetOf(order + [parent]) == visited + {parent};
    assert (order + [parent])[..|order|] == order;
  }

  /** A walk that ran out of queue has listed everything reachable. */
  lemma ListingEnds(g: Lineage, root: string, order: seq<string>, rows: seq<Row>, visited: set<string>, pending: seq<string>)
    requires Listing(g, root, order, rows, visited, pending) && (pending == [] || |visited| >= LIMIT)
    ensures Distinct(order) && |order| <= LIMIT && order != [] && order[0] == root
    ensures rows == AllRows(g, order) && NearestFirst(g, root, order)
    ensures forall task :: task in order ==> Reaches(g, root, task)
    ensures |order| < LIMIT ==> forall task :: Reaches(g, root, task) ==> task in order
  {
    if |order| < LIMIT {
      forall task | Reaches(g, root, task)
        ensures task in order
      {
        WalkEnds(g, root, order, task);
      }
    }
  }

  /**
   * The walk ends on every lineage, cycles included. It lists each task at most
   * once, only reachable ones and the nearest first, with each one's rows once;
   * and unless it stopped at the limit it lists them all.
   */
  method Walk(g: Lineage, root: string) returns (order: seq<string>, rows: seq<Row>)
    requires root != ""
    ensures Distinct(order) && |order| <= LIMIT
    ensures order != [] && order[0] == root
    ensures rows == AllRows(g, order)
    ensures forall task :: task in order ==> Reaches(g, root, task)
    ensures NearestFirst(g, root, order)
    ensures |order| < LIMIT ==> forall task :: Reaches(g, root, task) ==> task in order
  {
    rows, order := [], [];
    var pending := [root];
    var visited: set<string> := {};
    RootReachesItself(g, root);
    RankedStart(g, root);
    while |pending| > 0 && |visited| < LIMIT
      invariant Listing(g, root, order, rows, visited, pending)
      decreases LIMIT - |visited|, |pending|
    {
      var parent := pending[0];
      if parent == "" || parent in visited {
        ListingSkips(g, root, order, rows, visited, pending);
        pending := pending[1..];
        continue;
      }
      ListingVisits(g, root, order, rows, visited, pending);
      visited := visited + {parent};
      order := order + [parent];
      var children := RowsOf(g, parent);
      rows := rows + children;
      pending := pending[1..] + Unvisited(children, visited);
    }
    ListingEnds(g, root, order, rows, visited, pending);
  }

  /**
   * When at most 64 tasks are reachable, whatever a walk with these guarantees
   * lists is exactly the reachable set, even if it ran into the limit.
   */
  lemma SmallLineagesAreWalkedWhole(g: Lineage, root: string, order: seq<string>, reachable: set<string>)
    requires forall task :: task in reachable <==> Reaches(g, root, task)
    requires |reachable| <= LIMIT
    requires Distinct(order) && |order| <= LIMIT && forall task :: task in order ==> Reaches(g, root, task)
    requires |order| < LIMIT ==> forall task :: Reaches(g, root, task) ==> task in order
    ensures SetOf(order) == reachable
  {
    DistinctCount(order);
    if |order| == LIMIT {
      SubsetOfSameSize(SetOf(order), reachable);
    }
  }
}
