/**
 * Projection events and the reducer the renderer folds them with
 * (apps/desktop/src/runtimeProjection.ts:207-213, 367-391).
 */
module Projections {
  // The reducer's effect on content is left abstract: a state's content is the
  // list of operations that produced it, from which any concrete reducer computes
  // its value. Only the sequence guard is kept concrete.

  import opened Common
  import opened Sorting

  /** `batchable` marks text-only streaming updates; `reset` marks `projectionReset`. */
  datatype Event = Event(task: string, order: nat, batchable: bool, reset: bool, payload: nat)

  /** Folding one event, or one of the two presentation adjustments of a reconciliation. */
  datatype Op = Fold(event: Event) | Settle | Fail

  /** `lastSeq` is the highest folded sequence number. */
  datatype Projection = Projection(task: string, lastSeq: nat, ops: seq<Op>)

  function Create(task: string): Projection {
    Projection(task, 0, [])
  }

  /** `applyRuntimeProjection`: another task's event, or an already folded one, changes nothing. */
  function Apply(p: Projection, e: Event): Projection {
    if e.task != p.task || e.order <= p.lastSeq then p
    else Projection(p.task, e.order, p.ops + [Fold(e)])
  }

  /** `applyRuntimeProjectionBatch`. */
  function Batch(p: Projection, events: seq<Event>): Projection {
    if events == [] then p else Apply(Batch(p, events[..|events| - 1]), events[|events| - 1])
  }

  /** The events a list of operations has folded, in order. */
  function Folded(ops: seq<Op>): seq<Event> {
    if ops == [] then []
    else
      var before := Folded(ops[..|ops| - 1]);
      match ops[|ops| - 1]
      case Fold(e) => before + [e]
      case Settle => before
      case Fail => before
  }

  function Folds(events: seq<Event>): (ops: seq<Op>)
    ensures |ops| == |events|
    ensures forall i :: 0 <= i < |events| ==> ops[i] == Fold(events[i])
  {
    seq(|events|, i requires 0 <= i < |events| => Fold(events[i]))
  }

  /** The value a concrete reducer gives a list of operations. */
  function Value<C>(ops: seq<Op>, initial: C, step: (C, Event) -> C, settle: C -> C, fail: C -> C): C {
    if ops == [] then initial
    else
      var before := Value(ops[..|ops| - 1], initial, step, settle, fail);
      match ops[|ops| - 1]
      case Fold(e) => step(before, e)
      case Settle => settle(before)
      case Fail => fail(before)
  }

  function FoldEvents<C>(events: seq<Event>, initial: C, step: (C, Event) -> C): C {
    if events == [] then initial
    else step(FoldEvents(events[..|events| - 1], initial, step), events[|events| - 1])
  }

  /** Whatever the reducer, content without adjustments is the fold of its events. */
  lemma {:induction false} ValueIsFold<C>(
    ops: seq<Op>, initial: C, step: (C, Event) -> C, settle: C -> C, fail: C -> C)
    requires forall op :: op in ops ==> op.Fold?
    ensures Value(ops, initial, step, settle, fail) == FoldEvents(Folded(ops), initial, step)
  {
    if ops != [] {
      var before := ops[..|ops| - 1];
      ValueIsFold(before, initial, step, settle, fail);
      var e := ops[|ops| - 1].event;
      assert ops[|ops| - 1] in ops;
      assert (Folded(before) + [e])[..|Folded(before)|] == Folded(before);
    }
  }

  lemma FoldedSnoc(ops: seq<Op>, op: Op)
    ensures Folded(ops + [op]) == if op.Fold? then Folded(ops) + [op.event] else Folded(ops)
  {
    assert (ops + [op])[..|ops|] == ops;
  }

  lemma BatchSnoc(p: Projection, events: seq<Event>, e: Event)
    ensures Batch(p, events + [e]) == Apply(Batch(p, events), e)
  {
    assert (events + [e])[..|events|] == events;
  }

  lemma {:induction false} BatchKeepsTask(p: Projection, events: seq<Event>)
    ensures Batch(p, events).task == p.task && Batch(p, events).lastSeq >= p.lastSeq
  {
    if events != [] {
      BatchKeepsTask(p, events[..|events| - 1]);
    }
  }

  // ---- selecting events -----------------------------------------------------

  /** The events of a task with a sequence number above `last`, in order. */
  function NewFor(events: seq<Event>, task: string, last: nat): seq<Event> {
    if events == [] then []
    else
      var before := NewFor(events[..|events| - 1], task, last);
      var e := events[|events| - 1];
      if e.task == task && e.order > last then before + [e] else before
  }

  lemma NewForSnoc(events: seq<Event>, e: Event, task: string, last: nat)
    ensures NewFor(events + [e], task, last) ==
            NewFor(events, task, last) + (if e.task == task && e.order > last then [e] else [])
  {
    assert (events + [e])[..|events|] == events;
  }

  lemma {:induction false} NewForTwice(events: seq<Event>, task: string, low: nat, high: nat)
    requires low <= high
    ensures NewFor(NewFor(events, task, low), task, high) == NewFor(events, task, high)
  {
    if events != [] {
      var before := events[..|events| - 1];
      var e := events[|events| - 1];
      NewForTwice(before, task, low, high);
      NewForSnoc(NewFor(before, task, low), e, task, high);
    }
  }

  lemma {:induction false} NewForNothing(events: seq<Event>, task: string, last: nat)
    requires forall e :: e in events && e.task == task ==> e.order <= last
    ensures NewFor(events, task, last) == []
  {
    if events != [] {
      var before := events[..|events| - 1];
      assert forall e :: e in before ==> e in events;
      NewForNothing(before, task, last);
      assert events[|events| - 1] in events;
    }
  }

  /** A batch skips what its state has already folded. */
  lemma {:induction false} BatchSkipsOld(p: Projection, events: seq<Event>)
    ensures Batch(p, events) == Batch(p, NewFor(events, p.task, p.lastSeq))
  {
    if events != [] {
      var before := events[..|events| - 1];
      var e := events[|events| - 1];
      BatchSkipsOld(p, before);
      BatchKeepsTask(p, before);
      BatchSnoc(p, NewFor(before, p.task, p.lastSeq), e);
    }
  }

  /** `sort((a, b) => a.seq - b.seq)`. */
  function Sorted(events: seq<Event>): seq<Event> {
    SortBy(events, (e: Event) => e.order)
  }

  predicate Increasing(events: seq<Event>) {
    forall i, j :: 0 <= i < j < |events| ==> events[i].order < events[j].order
  }

  lemma SortedIncreasing(events: seq<Event>)
    requires Increasing(events)
    ensures Sorted(events) == events
  {
    SortByAscending(events, (e: Event) => e.order);
  }

  // ---- logs -----------------------------------------------------------------

  /** A task's persisted log: its own events, numbered upward from above zero. */
  ghost predicate LogOk(log: seq<Event>, task: string) {
    && (forall i :: 0 <= i < |log| ==> log[i].task == task && log[i].order > 0)
    && Increasing(log)
  }

  /** The watermark of the first `n` events. */
  function Watermark(log: seq<Event>, n: nat): nat
    requires n <= |log|
  {
    if n == 0 then 0 else log[n - 1].order
  }

  function Between(log: seq<Event>, i: nat, n: nat): seq<Event>
    requires n <= |log|
  {
    if i < n then log[i..n] else []
  }

  /** The state has folded exactly a prefix of the log, each event once and in order. */
  ghost predicate Exact(p: Projection, log: seq<Event>, task: string) {
    && p.task == task
    && Folded(p.ops) <= log
    && p.lastSeq == Watermark(log, |Folded(p.ops)|)
  }

  lemma BetweenSnoc(log: seq<Event>, i: nat, d: nat)
    requires i < d <= |log|
    ensures Between(log, i, d) == Between(log, i, d - 1) + [log[d - 1]]
  {
  }

  lemma PastWatermark(log: seq<Event>, task: string, k: nat, n: nat)
    requires LogOk(log, task) && k < |log| && n <= |log|
    ensures log[k].task == task && (log[k].order > Watermark(log, n) <==> n <= k)
  {
  }

  lemma OneMoreFor(events: seq<Event>, log: seq<Event>, task: string, k: nat, n: nat)
    requires LogOk(log, task) && k < |log| && n <= |log|
    requires NewFor(events, task, Watermark(log, n)) == Between(log, n, k)
    ensures NewFor(events + [log[k]], task, Watermark(log, n)) == Between(log, n, k + 1)
  {
    NewForSnoc(events, log[k], task, Watermark(log, n));
    PastWatermark(log, task, k, n);
    if n <= k {
      BetweenSnoc(log, n, k + 1);
    }
  }

  /** Of the events from `i` to `d`, those past the watermark of `n` are those from `n` on. */
  ghost predicate SelectsFrom(log: seq<Event>, task: string, i: nat, d: nat, n: nat)
    requires d <= |log| && n <= |log|
  {
    NewFor(Between(log, i, d), task, Watermark(log, n)) == Between(log, n, d)
  }

  lemma SelectsNone(log: seq<Event>, task: string, i: nat, d: nat, n: nat)
    requires d <= i <= n <= |log|
    ensures SelectsFrom(log, task, i, d, n)
  {
  }

  lemma SelectsMore(log: seq<Event>, task: string, i: nat, d: nat, n: nat)
    requires LogOk(log, task) && i < d <= |log| && n <= |log| && SelectsFrom(log, task, i, d - 1, n)
    ensures SelectsFrom(log, task, i, d, n)
  {
    BetweenSnoc(log, i, d);
    OneMoreFor(Between(log, i, d - 1), log, task, d - 1, n);
  }

  lemma {:induction false} Selects(log: seq<Event>, task: string, i: nat, d: nat, n: nat)
    requires LogOk(log, task) && i <= n <= |log| && d <= |log|
    ensures SelectsFrom(log, task, i, d, n)
    decreases d
  {
    if i < d {
      Selects(log, task, i, d - 1, n);
      SelectsMore(log, task, i, d, n);
    } else {
      SelectsNone(log, task, i, d, n);
    }
  }

  lemma NewForLog(log: seq<Event>, task: string, i: nat, d: nat, n: nat)
    requires LogOk(log, task) && i <= n <= |log| && d <= |log|
    ensures NewFor(Between(log, i, d), task, Watermark(log, n)) == Between(log, n, d)
  {
    Selects(log, task, i, d, n);
  }

  /** One more log event on an exact state: folded if it is the next, ignored if already folded. */
  lemma ApplyFromLog(p: Projection, log: seq<Event>, task: string, d: nat)
    requires LogOk(log, task) && Exact(p, log, task) && d < |log| && d <= |Folded(p.ops)|
    ensures
      var next := Apply(p, log[d]);
      && Exact(next, log, task)
      && |Folded(next.ops)| == if d == |Folded(p.ops)| then d + 1 else |Folded(p.ops)|
  {
    FoldedSnoc(p.ops, Fold(log[d]));
  }

  /** The events up to `d`, folded on an exact state that stands earlier, leave it exact. */
  ghost predicate FoldsUpTo(p: Projection, log: seq<Event>, task: string, d: nat)
    requires d <= |log|
  {
    var next := Batch(p, Between(log, |Folded(p.ops)|, d));
    Exact(next, log, task) && |Folded(next.ops)| == if d > |Folded(p.ops)| then d else |Folded(p.ops)|
  }

  lemma FoldsMore(p: Projection, log: seq<Event>, task: string, d: nat)
    requires LogOk(log, task) && |Folded(p.ops)| < d <= |log| && FoldsUpTo(p, log, task, d - 1)
    ensures FoldsUpTo(p, log, task, d)
  {
    var j := |Folded(p.ops)|;
    BetweenSnoc(log, j, d);
    BatchSnoc(p, Between(log, j, d - 1), log[d - 1]);
    ApplyFromLog(Batch(p, Between(log, j, d - 1)), log, task, d - 1);
  }

  lemma {:induction false} FoldsAll(p: Projection, log: seq<Event>, task: string, d: nat)
    requires LogOk(log, task) && Exact(p, log, task) && d <= |log|
    ensures FoldsUpTo(p, log, task, d)
    decreases d
  {
    if |Folded(p.ops)| < d {
      FoldsAll(p, log, task, d - 1);
      FoldsMore(p, log, task, d);
    }
  }

  /** Folding the log from where an exact state stands keeps it exact, up to the end of the fold. */
  lemma BatchFromLog(p: Projection, log: seq<Event>, task: string, d: nat)
    requires LogOk(log, task) && Exact(p, log, task) && d <= |log|
    ensures
      var next := Batch(p, Between(log, |Folded(p.ops)|, d));
      && Exact(next, log, task)
      && |Folded(next.ops)| == if d > |Folded(p.ops)| then d else |Folded(p.ops)|
  {
    FoldsAll(p, log, task, d);
  }

  lemma {:induction false} FoldedFolds(events: seq<Event>)
    ensures Folded(Folds(events)) == events
  {
    if events != [] {
      var before := events[..|events| - 1];
      FoldedFolds(before);
      assert Folds(events) == Folds(before) + [Fold(events[|events| - 1])];
      FoldedSnoc(Folds(before), Fold(events[|events| - 1]));
    }
  }

  /** What a snapshot of the first `n` events hydrates to. */
  function Snapshot(log: seq<Event>, task: string, n: nat): Projection
    requires n <= |log|
  {
    Projection(task, Watermark(log, n), Folds(log[..n]))
  }

  lemma SnapshotIsExact(log: seq<Event>, task: string, n: nat)
    requires n <= |log|
    ensures Exact(Snapshot(log, task, n), log, task) && |Folded(Snapshot(log, task, n).ops)| == n
  {
    FoldedFolds(log[..n]);
  }
}
