/**
 * Whole states of a task: the events such a state has folded and those that still
 * wait for it, in the frame or in the buffer, are together everything delivered.
 * Each stretch of the renderer that touches a state or what waits for it either
 * keeps that or breaks it under a test of its own
 * (apps/desktop/src/App.tsx:2110-2232, 2271-2309, 2431-2461).
 */
module WholeStates {
  import opened Common
  import opened Projections
  import opened Hydration

  // ---- waiting events ---------------------------------------------------------

  /** The frame fills only while a task is ready and the buffer only while it is not, so framed events are older. */
  function Waiting(r: Renderer): seq<Event> {
    r.frame + r.buffer
  }

  /** Some of the events would still be folded by the state. */
  predicate Newer(events: seq<Event>, task: string, p: Projection) {
    NewFor(events, task, p.lastSeq) != []
  }

  /** The task's waiting events are delivered ones, each once and in order. */
  ghost predicate WaitOk(n: Native, waiting: seq<Event>, task: string) {
    && DeliveredOf(n, task) <= |LogOf(n, task)|
    && Increasing(NewFor(waiting, task, 0))
    && forall e :: e in NewFor(waiting, task, 0) ==> e in LogOf(n, task)[..DeliveredOf(n, task)]
  }

  lemma {:induction false} NewForJoined(a: seq<Event>, b: seq<Event>, task: string, last: nat)
    ensures NewFor(a + b, task, last) == NewFor(a, task, last) + NewFor(b, task, last)
  {
    if b == [] {
      assert a + b == a;
    } else {
      var before := b[..|b| - 1];
      assert a + b == (a + before) + [b[|b| - 1]];
      NewForSnoc(a + before, b[|b| - 1], task, last);
      NewForJoined(a, before, task, last);
    }
  }

  lemma {:induction false} NewForMembers(events: seq<Event>, task: string, last: nat, e: Event)
    ensures e in NewFor(events, task, last) <==> e in events && e.task == task && e.order > last
  {
    if events != [] {
      NewForMembers(events[..|events| - 1], task, last, e);
      assert events == events[..|events| - 1] + [events[|events| - 1]];
    }
  }

  lemma {:induction false} NewForIncreasing(events: seq<Event>, task: string, last: nat)
    requires Increasing(events)
    ensures Increasing(NewFor(events, task, last))
  {
    if events != [] {
      var before, e := events[..|events| - 1], events[|events| - 1];
      NewForIncreasing(before, task, last);
      forall i | 0 <= i < |NewFor(before, task, last)|
        ensures NewFor(before, task, last)[i].order < e.order
      {
        NewForMembers(before, task, last, NewFor(before, task, last)[i]);
      }
    }
  }

  /** The waiting events past a sequence number: increasing, delivered, and above it. */
  lemma WaitingPast(n: Native, waiting: seq<Event>, task: string, last: nat)
    requires WaitOk(n, waiting, task)
    ensures Increasing(NewFor(waiting, task, last))
    ensures forall e :: e in NewFor(waiting, task, last) ==>
              e.order > last && e.task == task && e in LogOf(n, task)[..DeliveredOf(n, task)]
  {
    NewForTwice(waiting, task, 0, last);
    NewForIncreasing(NewFor(waiting, task, 0), task, last);
    forall e | e in NewFor(waiting, task, last)
      ensures e.order > last && e.task == task && e in NewFor(waiting, task, 0)
    {
      NewForMembers(waiting, task, last, e);
      NewForMembers(waiting, task, 0, e);
    }
  }

  // ---- whole states -----------------------------------------------------------

  function LastOrder(events: seq<Event>): nat {
    if events == [] then 0 else events[|events| - 1].order
  }

  /**
   * A state of the task: it folded events of the log in order, from the log's start
   * unless all it folded has been delivered.
   */
  ghost predicate Sound(n: Native, task: string, p: Projection)
    requires LogsOk(n)
  {
    && p.task == task
    && Increasing(Folded(p.ops)) && p.lastSeq == LastOrder(Folded(p.ops))
    && (forall e :: e in Folded(p.ops) ==> e in LogOf(n, task))
    && (Folded(p.ops) <= LogOf(n, task) || p.lastSeq <= Reached(n, task))
  }

  /** What the state has folded, and would fold of the waiting events. */
  function All(waiting: seq<Event>, task: string, p: Projection): seq<Event> {
    Folded(p.ops) + NewFor(waiting, task, p.lastSeq)
  }

  ghost predicate Whole(n: Native, waiting: seq<Event>, task: string, p: Projection) {
    All(waiting, task, p) <= LogOf(n, task) && |All(waiting, task, p)| >= DeliveredOf(n, task)
  }

  /** The mark of a state: set exactly when it is not whole. */
  ghost predicate MarkOk(n: Native, waiting: seq<Event>, task: string, p: Projection, mark: bool)
    requires LogsOk(n)
  {
    Sound(n, task, p) && (mark <==> !Whole(n, waiting, task, p))
  }

  /** Of a sound state, exactness is a matter of its events alone. */
  lemma ExactExactly(n: Native, task: string, p: Projection)
    requires LogsOk(n) && Sound(n, task, p)
    ensures Exact(p, LogOf(n, task), task) <==> Folded(p.ops) <= LogOf(n, task)
  {
  }

  lemma LogOrders(n: Native, task: string, i: nat, j: nat)
    requires LogsOk(n) && i <= j < |LogOf(n, task)|
    ensures 0 < LogOf(n, task)[i].order <= LogOf(n, task)[j].order && (i < j ==> LogOf(n, task)[i].order < LogOf(n, task)[j].order)
    ensures LogOf(n, task)[i].task == task
  {
    assert TaskOk(n, task);
  }

  /** Waiting events are no newer than what is delivered. */
  lemma NothingPastDelivered(n: Native, waiting: seq<Event>, task: string, last: nat)
    requires LogsOk(n) && WaitOk(n, waiting, task) && last >= Reached(n, task)
    ensures NewFor(waiting, task, last) == []
  {
    WaitingPast(n, waiting, task, last);
    var past := NewFor(waiting, task, last);
    if past != [] {
      assert past[0] in past;
      var i :| 0 <= i < DeliveredOf(n, task) && LogOf(n, task)[i] == past[0];
      LogOrders(n, task, i, DeliveredOf(n, task) - 1);
    }
  }

  /** A state is up to date exactly when it is whole and nothing waits for it. */
  lemma UpToDateExactly(n: Native, waiting: seq<Event>, task: string, p: Projection)
    requires LogsOk(n) && WaitOk(n, waiting, task) && Sound(n, task, p)
    ensures UpToDate(n, task, p) <==> Whole(n, waiting, task, p) && !Newer(waiting, task, p)
  {
    ExactExactly(n, task, p);
    if UpToDate(n, task, p) {
      UpToDateIsAhead(n, task, p);
      NothingPastDelivered(n, waiting, task, p.lastSeq);
    }
  }

  lemma UpToDateIsAhead(n: Native, task: string, p: Projection)
    requires LogsOk(n) && UpToDate(n, task, p)
    ensures p.lastSeq >= Reached(n, task)
  {
    assert TaskOk(n, task);
    if DeliveredOf(n, task) > 0 {
      LogOrders(n, task, DeliveredOf(n, task) - 1, |Folded(p.ops)| - 1);
    }
  }

  // ---- how a mark changes -------------------------------------------------------

  lemma EventIsNew(n: Native, waiting: seq<Event>, task: string, p: Projection, e: Event)
    requires LogsOk(n) && WaitOk(n, waiting, task) && Sound(n, task, p)
    requires e.order > p.lastSeq && e.order > Reached(n, task)
    ensures forall x :: x in All(waiting, task, p) ==> x.order < e.order
  {
    WaitingPast(n, waiting, task, p.lastSeq);
    forall x | x in All(waiting, task, p)
      ensures x.order < e.order
    {
      if x in Folded(p.ops) {
        var i :| 0 <= i < |Folded(p.ops)| && Folded(p.ops)[i] == x;
        assert i < |Folded(p.ops)| - 1 ==> x.order < Folded(p.ops)[|Folded(p.ops)| - 1].order;
      } else {
        var i :| 0 <= i < DeliveredOf(n, task) && LogOf(n, task)[i] == x;
        LogOrders(n, task, i, DeliveredOf(n, task) - 1);
      }
    }
  }

  lemma PrefixHolds(all: seq<Event>, log: seq<Event>, i: nat)
    requires i < |log|
    ensures all <= log && i < |all| ==> log[i] in all
  {
    assert all <= log && i < |all| ==> all[i] == log[i];
  }

  /** Events all below the next one to be delivered are a prefix of the log no longer than what is delivered. */
  lemma PrefixIsDelivered(n: Native, task: string, all: seq<Event>)
    requires LogsOk(n) && DeliveredOf(n, task) < |LogOf(n, task)| && all <= LogOf(n, task)
    requires forall x :: x in all ==> x.order < LogOf(n, task)[DeliveredOf(n, task)].order
    ensures |all| <= DeliveredOf(n, task)
  {
    PrefixHolds(all, LogOf(n, task), DeliveredOf(n, task));
  }

  /** A state past the next event to be delivered came from a load that had it. */
  lemma AheadIsLog(n: Native, waiting: seq<Event>, task: string, p: Projection)
    requires LogsOk(n) && WaitOk(n, waiting, task) && Sound(n, task, p)
    requires DeliveredOf(n, task) < |LogOf(n, task)| && LogOf(n, task)[DeliveredOf(n, task)].order <= p.lastSeq
    ensures NewFor(waiting, task, p.lastSeq) == []
    ensures Folded(p.ops) <= LogOf(n, task) && |Folded(p.ops)| > DeliveredOf(n, task)
    ensures Whole(n, waiting, task, p)
  {
    var log, d := LogOf(n, task), DeliveredOf(n, task);
    assert TaskOk(n, task);
    if d > 0 {
      LogOrders(n, task, d - 1, d);
    }
    NothingPastDelivered(n, waiting, task, p.lastSeq);
    LogOrders(n, task, d, d);
    assert Folded(p.ops) != [];
    if |Folded(p.ops)| - 1 <= d {
      LogOrders(n, task, |Folded(p.ops)| - 1, d);
    }
  }

  lemma CountedOf(n: Native, task: string, u: string)
    ensures LogOf(Counted(n, task), u) == LogOf(n, u)
    ensures DeliveredOf(Counted(n, task), u) == DeliveredOf(n, u) + (if u == task then 1 else 0)
  {
  }

  lemma SoundCounted(n: Native, task: string, u: string, p: Projection)
    requires LogsOk(n) && DeliveredOf(n, task) < |LogOf(n, task)| && Sound(n, u, p)
    ensures LogsOk(Counted(n, task)) && Sound(Counted(n, task), u, p)
  {
    LogsCounted(n, task);
    CountedOf(n, task, u);
  }

  lemma NextIsPast(n: Native, task: string)
    requires LogsOk(n) && DeliveredOf(n, task) < |LogOf(n, task)|
    ensures LogOf(n, task)[DeliveredOf(n, task)].order > Reached(n, task)
    ensures LogOf(n, task)[DeliveredOf(n, task)].task == task
  {
    var d := DeliveredOf(n, task);
    LogOrders(n, task, if d > 0 then d - 1 else 0, d);
    assert TaskOk(n, task);
  }

  /** The next event in a row: whole before it exactly when whole after it. */
  lemma OneMoreWhole(n: Native, waiting: seq<Event>, task: string, p: Projection)
    requires LogsOk(n) && WaitOk(n, waiting, task) && Sound(n, task, p)
    requires DeliveredOf(n, task) < |LogOf(n, task)| && LogOf(n, task)[DeliveredOf(n, task)].order > p.lastSeq
    ensures
      var log, all, d := LogOf(n, task), All(waiting, task, p), DeliveredOf(n, task);
      (all + [log[d]] <= log && |all| + 1 >= d + 1) <==> Whole(n, waiting, task, p)
  {
    var log, all, d := LogOf(n, task), All(waiting, task, p), DeliveredOf(n, task);
    NextIsPast(n, task);
    EventIsNew(n, waiting, task, p, log[d]);
    if all <= log {
      PrefixIsDelivered(n, task, all);
    }
    OneMore(log, all, d);
  }

  lemma OneMore(log: seq<Event>, all: seq<Event>, d: nat)
    requires d < |log| && (all <= log ==> |all| <= d)
    ensures (all + [log[d]] <= log && |all| + 1 >= d + 1) <==> (all <= log && |all| >= d)
  {
    if all + [log[d]] <= log {
      assert all <= log;
    }
  }

  lemma AllAppended(waiting: seq<Event>, task: string, p: Projection, e: Event)
    requires e.task == task
    ensures All(waiting + [e], task, p) == if e.order > p.lastSeq then All(waiting, task, p) + [e] else All(waiting, task, p)
  {
    NewForSnoc(waiting, e, task, p.lastSeq);
  }

  /** A delivered event that goes on waiting changes no mark. */
  lemma MarkAppended(n: Native, waiting: seq<Event>, task: string, p: Projection, mark: bool)
    requires LogsOk(n) && WaitOk(n, waiting, task) && MarkOk(n, waiting, task, p, mark)
    requires DeliveredOf(n, task) < |LogOf(n, task)|
    ensures LogsOk(Counted(n, task))
    ensures MarkOk(Counted(n, task), waiting + [LogOf(n, task)[DeliveredOf(n, task)]], task, p, mark)
  {
    var e := LogOf(n, task)[DeliveredOf(n, task)];
    SoundCounted(n, task, task, p);
    CountedOf(n, task, task);
    NextIsPast(n, task);
    AllAppended(waiting, task, p, e);
    if e.order <= p.lastSeq {
      AheadIsLog(n, waiting, task, p);
    } else {
      OneMoreWhole(n, waiting, task, p);
    }
  }

  /** Another task's event changes no mark, wherever it goes. */
  lemma MarkOfOther(n: Native, waiting: seq<Event>, task: string, e: Event, u: string, p: Projection, mark: bool)
    requires LogsOk(n) && MarkOk(n, waiting, u, p, mark) && u != task && e.task == task
    requires DeliveredOf(n, task) < |LogOf(n, task)|
    ensures LogsOk(Counted(n, task))
    ensures MarkOk(Counted(n, task), waiting, u, p, mark) && MarkOk(Counted(n, task), waiting + [e], u, p, mark)
  {
    SoundCounted(n, task, u, p);
    CountedOf(n, task, u);
    NewForSnoc(waiting, e, u, p.lastSeq);
  }

  lemma SoundApply(n: Native, task: string, p: Projection)
    requires LogsOk(n) && Sound(n, task, p) && DeliveredOf(n, task) < |LogOf(n, task)|
    ensures
      var e, m := LogOf(n, task)[DeliveredOf(n, task)], Counted(n, task);
      && LogsOk(m) && Sound(m, task, Apply(p, e))
      && (e.order > p.lastSeq ==> Folded(Apply(p, e).ops) == Folded(p.ops) + [e] && Apply(p, e).lastSeq == e.order == Reached(m, task))
  {
    var e := LogOf(n, task)[DeliveredOf(n, task)];
    SoundCounted(n, task, task, p);
    CountedOf(n, task, task);
    NextIsPast(n, task);
    FoldedSnoc(p.ops, Fold(e));
    LogsCounted(n, task);
    if e.order > p.lastSeq {
      IncreasingSnoc(Folded(p.ops), e);
    }
  }

  lemma IncreasingSnoc(events: seq<Event>, e: Event)
    requires Increasing(events) && LastOrder(events) < e.order
    ensures Increasing(events + [e])
  {
  }

  /** A cached state in the background skips what waits for it when it folds the next event. */
  lemma MarkApplied(n: Native, waiting: seq<Event>, task: string, p: Projection, mark: bool)
    requires LogsOk(n) && WaitOk(n, waiting, task) && MarkOk(n, waiting, task, p, mark)
    requires DeliveredOf(n, task) < |LogOf(n, task)|
    ensures LogsOk(Counted(n, task))
    ensures MarkOk(Counted(n, task), waiting, task, Apply(p, LogOf(n, task)[DeliveredOf(n, task)]), mark || Newer(waiting, task, p))
  {
    var log, d := LogOf(n, task), DeliveredOf(n, task);
    var e := log[d];
    SoundApply(n, task, p);
    CountedOf(n, task, task);
    NextIsPast(n, task);
    if e.order <= p.lastSeq {
      AheadIsLog(n, waiting, task, p);
    } else {
      NothingPastDelivered(n, waiting, task, e.order);
      assert All(waiting, task, Apply(p, e)) == Folded(p.ops) + [e];
      if Newer(waiting, task, p) {
        SkippedIsMissing(n, waiting, task, p);
      } else {
        assert All(waiting, task, p) == Folded(p.ops);
        OneMoreWhole(n, waiting, task, p);
      }
    }
  }

  lemma SkippedIsMissing(n: Native, waiting: seq<Event>, task: string, p: Projection)
    requires LogsOk(n) && WaitOk(n, waiting, task) && Sound(n, task, p) && Newer(waiting, task, p)
    requires DeliveredOf(n, task) < |LogOf(n, task)|
    ensures !(Folded(p.ops) + [LogOf(n, task)[DeliveredOf(n, task)]] <= LogOf(n, task))
  {
    var log, d, j := LogOf(n, task), DeliveredOf(n, task), |Folded(p.ops)|;
    WaitingPast(n, waiting, task, p.lastSeq);
    var e := NewFor(waiting, task, p.lastSeq)[0];
    assert e in NewFor(waiting, task, p.lastSeq);
    var i :| 0 <= i < d && log[i] == e;
    if Folded(p.ops) + [log[d]] <= log {
      assert (Folded(p.ops) + [log[d]])[j] == log[j];
      LogOrders(n, task, if j < d then j else d, if j < d then d else j);
    }
  }

  // Waiting events that are dropped.

  lemma WaitParts(n: Native, framed: seq<Event>, buffered: seq<Event>, task: string)
    requires WaitOk(n, framed + buffered, task)
    ensures WaitOk(n, framed, task) && WaitOk(n, buffered, task)
  {
    NewForJoined(framed, buffered, task, 0);
    var f, b := NewFor(framed, task, 0), NewFor(buffered, task, 0);
    assert forall e :: e in f || e in b ==> e in f + b;
    assert forall i :: 0 <= i < |f| ==> (f + b)[i] == f[i];
    assert forall i :: 0 <= i < |b| ==> (f + b)[|f| + i] == b[i];
  }

  lemma FoldedUpTo(p: Projection, e: Event)
    requires Increasing(Folded(p.ops)) && p.lastSeq == LastOrder(Folded(p.ops)) && e.order > p.lastSeq
    ensures e !in Folded(p.ops)
  {
  }

  /** A delivered event that a state has not folded and that does not wait is missing. */
  lemma DroppedIsMissing(n: Native, kept: seq<Event>, task: string, p: Projection, e: Event)
    requires LogsOk(n) && Sound(n, task, p) && DeliveredOf(n, task) <= |LogOf(n, task)| && e.order > p.lastSeq
    requires e in LogOf(n, task)[..DeliveredOf(n, task)] && e !in NewFor(kept, task, p.lastSeq)
    ensures !Whole(n, kept, task, p)
  {
    var log, all, d := LogOf(n, task), All(kept, task, p), DeliveredOf(n, task);
    FoldedUpTo(p, e);
    assert e !in all;
    var i :| 0 <= i < d && log[i] == e;
    PrefixHolds(all, log, i);
  }

  lemma Disjoint(a: seq<Event>, b: seq<Event>)
    requires Increasing(a + b)
    ensures forall e :: e in b ==> e !in a
    ensures forall e :: e in a ==> e !in b
  {
    forall i, j | 0 <= i < |a| && 0 <= j < |b|
      ensures a[i] != b[j]
    {
      assert (a + b)[i].order < (a + b)[|a| + j].order;
    }
  }

  lemma WholeWithoutBuffer(n: Native, framed: seq<Event>, buffered: seq<Event>, task: string, p: Projection)
    requires LogsOk(n) && WaitOk(n, framed + buffered, task) && Sound(n, task, p)
    ensures Whole(n, framed, task, p) <==> Whole(n, framed + buffered, task, p) && !Newer(buffered, task, p)
  {
    NewForJoined(framed, buffered, task, p.lastSeq);
    WaitingPast(n, framed + buffered, task, p.lastSeq);
    var f, b := NewFor(framed, task, p.lastSeq), NewFor(buffered, task, p.lastSeq);
    if b == [] {
      assert f + b == f;
    } else {
      assert b[0] in b && b[0] in f + b;
      Disjoint(f, b);
      DroppedIsMissing(n, framed, task, p, b[0]);
    }
  }

  lemma WholeWithoutFrame(n: Native, framed: seq<Event>, buffered: seq<Event>, task: string, p: Projection)
    requires LogsOk(n) && WaitOk(n, framed + buffered, task) && Sound(n, task, p)
    ensures Whole(n, buffered, task, p) <==> Whole(n, framed + buffered, task, p) && !Newer(framed, task, p)
  {
    NewForJoined(framed, buffered, task, p.lastSeq);
    WaitingPast(n, framed + buffered, task, p.lastSeq);
    var f, b := NewFor(framed, task, p.lastSeq), NewFor(buffered, task, p.lastSeq);
    if f == [] {
      assert f + b == b;
    } else {
      assert f[0] in f && f[0] in f + b;
      Disjoint(f, b);
      DroppedIsMissing(n, buffered, task, p, f[0]);
    }
  }

  /** Dropping the frame or the buffer marks the states that would still have folded some of it. */
  lemma MarkDropped(n: Native, framed: seq<Event>, buffered: seq<Event>, task: string, p: Projection, mark: bool)
    requires LogsOk(n) && WaitOk(n, framed + buffered, task) && MarkOk(n, framed + buffered, task, p, mark)
    ensures MarkOk(n, framed, task, p, mark || Newer(buffered, task, p))
    ensures MarkOk(n, buffered, task, p, mark || Newer(framed, task, p))
  {
    WholeWithoutBuffer(n, framed, buffered, task, p);
    WholeWithoutFrame(n, framed, buffered, task, p);
  }

  // Waiting events that are folded.

  /** `q` is `p` with these events folded. */
  ghost predicate FoldsOf(p: Projection, past: seq<Event>, q: Projection) {
    && q.task == p.task && Folded(q.ops) == Folded(p.ops) + past
    && q.lastSeq == (if past == [] then p.lastSeq else LastOrder(past)) && Increasing(Folded(q.ops))
  }

  lemma {:induction false} BatchFolds(p: Projection, events: seq<Event>)
    requires Increasing(events) && p.lastSeq == LastOrder(Folded(p.ops)) && Increasing(Folded(p.ops))
    requires forall e :: e in events ==> e.task == p.task
    ensures FoldsOf(p, NewFor(events, p.task, p.lastSeq), Batch(p, events))
  {
    if events != [] {
      var before, e := events[..|events| - 1], events[|events| - 1];
      assert forall x :: x in before ==> x in events;
      BatchFolds(p, before);
      var past := NewFor(before, p.task, p.lastSeq);
      if past != [] {
        PastIsBefore(events, p.task, p.lastSeq);
      }
      ApplyFolds(p, past, Batch(p, before), e);
    }
  }

  lemma PastIsBefore(events: seq<Event>, task: string, last: nat)
    requires events != [] && Increasing(events) && NewFor(events[..|events| - 1], task, last) != []
    ensures last < LastOrder(NewFor(events[..|events| - 1], task, last)) < events[|events| - 1].order
  {
    var before := events[..|events| - 1];
    var past := NewFor(before, task, last);
    assert past[|past| - 1] in past;
    NewForMembers(before, task, last, past[|past| - 1]);
  }

  lemma ApplyFolds(p: Projection, past: seq<Event>, q: Projection, e: Event)
    requires p.lastSeq == LastOrder(Folded(p.ops)) && FoldsOf(p, past, q) && e.task == p.task
    requires past != [] ==> p.lastSeq < LastOrder(past) < e.order
    ensures FoldsOf(p, if e.order > p.lastSeq then past + [e] else past, Apply(q, e))
  {
    FoldedSnoc(q.ops, Fold(e));
    if e.order > p.lastSeq {
      LastOfJoined(Folded(p.ops), past);
      IncreasingSnoc(Folded(q.ops), e);
      assert Folded(p.ops) + past + [e] == Folded(p.ops) + (past + [e]);
    }
  }

  lemma LastOfJoined(a: seq<Event>, b: seq<Event>)
    ensures LastOrder(a + b) == if b == [] then LastOrder(a) else LastOrder(b)
  {
  }

  lemma {:induction false} NewForLater(events: seq<Event>, task: string, low: nat, high: nat)
    requires forall e :: e in events && e.task == task ==> e.order > high && e.order > low
    ensures NewFor(events, task, low) == NewFor(events, task, high)
  {
    if events != [] {
      assert forall e :: e in events[..|events| - 1] ==> e in events;
      NewForLater(events[..|events| - 1], task, low, high);
      assert events[|events| - 1] in events;
    }
  }

  /** Folding the framed events into a state changes neither what it has nor what it would have. */
  lemma AllFolded(n: Native, framed: seq<Event>, buffered: seq<Event>, task: string, p: Projection)
    requires LogsOk(n) && WaitOk(n, framed + buffered, task) && Sound(n, task, p)
    ensures
      var q := Batch(p, OnTask(framed, task));
      Sound(n, task, q) && All(buffered, task, q) == All(framed + buffered, task, p)
  {
    var past, q := NewFor(framed, task, p.lastSeq), Batch(p, OnTask(framed, task));
    WaitParts(n, framed, buffered, task);
    WaitingPast(n, framed, task, 0);
    BatchFolds(p, OnTask(framed, task));
    NewForTwice(framed, task, 0, p.lastSeq);
    NewForJoined(framed, buffered, task, p.lastSeq);
    if past != [] {
      BufferedIsLater(n, framed, buffered, task, p.lastSeq);
      SoundFolded(n, framed, task, p);
    }
    WaitingPast(n, framed, task, p.lastSeq);
    FoldedIsSound(n, task, p, past, q);
    Moved(Folded(p.ops), past, NewFor(buffered, task, p.lastSeq));
  }

  lemma Moved(a: seq<Event>, b: seq<Event>, c: seq<Event>)
    ensures a + b + c == a + (b + c)
  {
  }

  lemma FoldedIsSound(n: Native, task: string, p: Projection, past: seq<Event>, q: Projection)
    requires LogsOk(n) && Sound(n, task, p) && FoldsOf(p, past, q) && (past != [] ==> LastOrder(past) <= Reached(n, task))
    requires forall e :: e in past ==> e in LogOf(n, task)
    ensures Sound(n, task, q)
  {
    LastOfJoined(Folded(p.ops), past);
    assert past == [] ==> Folded(q.ops) == Folded(p.ops);
  }

  lemma SoundFolded(n: Native, framed: seq<Event>, task: string, p: Projection)
    requires LogsOk(n) && WaitOk(n, framed, task) && NewFor(framed, task, p.lastSeq) != []
    ensures LastOrder(NewFor(framed, task, p.lastSeq)) <= Reached(n, task)
  {
    WaitingPast(n, framed, task, p.lastSeq);
    var past := NewFor(framed, task, p.lastSeq);
    assert past[|past| - 1] in past;
    var i :| 0 <= i < DeliveredOf(n, task) && LogOf(n, task)[i] == past[|past| - 1];
    LogOrders(n, task, i, DeliveredOf(n, task) - 1);
  }

  lemma BufferedIsLater(n: Native, framed: seq<Event>, buffered: seq<Event>, task: string, last: nat)
    requires WaitOk(n, framed + buffered, task) && NewFor(framed, task, last) != []
    ensures NewFor(buffered, task, last) == NewFor(buffered, task, LastOrder(NewFor(framed, task, last)))
  {
    var past := NewFor(framed, task, last);
    var e := past[|past| - 1];
    assert e in past;
    NewForMembers(framed, task, last, e);
    NewForMembers(framed, task, 0, e);
    NewForJoined(framed, buffered, task, 0);
    var f, b := NewFor(framed, task, 0), NewFor(buffered, task, 0);
    var i :| 0 <= i < |f| && f[i] == e;
    forall j | 0 <= j < |b|
      ensures b[j].order > e.order
    {
      assert (f + b)[i].order < (f + b)[|f| + j].order;
    }
    NewForTwice(buffered, task, 0, last);
    NewForTwice(buffered, task, 0, e.order);
    NewForLater(b, task, last, e.order);
  }

  /** A flush of the frame into a state leaves its mark. */
  lemma MarkFolded(n: Native, framed: seq<Event>, buffered: seq<Event>, task: string, p: Projection, mark: bool)
    requires LogsOk(n) && WaitOk(n, framed + buffered, task) && MarkOk(n, framed + buffered, task, p, mark)
    ensures MarkOk(n, buffered, task, Batch(p, OnTask(framed, task)), mark)
  {
    AllFolded(n, framed, buffered, task, p);
  }

  /** So does a commit of the buffer into a state no framed event is newer than. */
  lemma MarkCommitted(n: Native, framed: seq<Event>, buffered: seq<Event>, task: string, p: Projection, mark: bool)
    requires LogsOk(n) && WaitOk(n, framed + buffered, task) && MarkOk(n, framed + buffered, task, p, mark)
    requires !Newer(framed, task, p)
    ensures MarkOk(n, framed, task, Batch(p, OnTask(buffered, task)), mark)
  {
    WaitParts(n, framed, buffered, task);
    assert buffered + [] == buffered;
    AllFolded(n, buffered, [], task, p);
    FrameStaysOld(framed, buffered, task, p);
  }

  lemma FrameStaysOld(framed: seq<Event>, buffered: seq<Event>, task: string, p: Projection)
    requires p.task == task && !Newer(framed, task, p)
    requires All([], task, Batch(p, OnTask(buffered, task))) == All(buffered, task, p)
    ensures All(framed, task, Batch(p, OnTask(buffered, task))) == All(framed + buffered, task, p)
  {
    var q := Batch(p, OnTask(buffered, task));
    NewForJoined(framed, buffered, task, p.lastSeq);
    BatchKeepsTask(p, OnTask(buffered, task));
    NewForTwice(framed, task, p.lastSeq, q.lastSeq);
    assert NewFor(framed, task, q.lastSeq) == [];
    assert [] + NewFor(buffered, task, p.lastSeq) == NewFor(buffered, task, p.lastSeq);
  }

  // States from a load or from nothing.

  /** The first `k` events of the task and those that wait past them are fewer than those delivered. */
  predicate Lacks(n: Native, waiting: seq<Event>, task: string, k: nat)
    requires k <= |LogOf(n, task)|
  {
    k + |NewFor(waiting, task, Watermark(LogOf(n, task), k))| < DeliveredOf(n, task)
  }

  ghost predicate SelectedFrom(selection: seq<Event>, log: seq<Event>, low: nat, high: nat)
    requires low <= high <= |log|
  {
    Increasing(selection) && forall e :: e in selection ==> exists k :: low <= k < high && log[k] == e
  }

  lemma {:induction false} AtLeast(selection: seq<Event>, log: seq<Event>, low: nat, high: nat, i: nat) returns (k: nat)
    requires low <= high <= |log| && Increasing(log) && SelectedFrom(selection, log, low, high) && i < |selection|
    ensures low + i <= k < high && log[k] == selection[i]
    decreases i
  {
    assert selection[i] in selection;
    k :| low <= k < high && log[k] == selection[i];
    if i > 0 {
      var j := AtLeast(selection, log, low, high, i - 1);
      assert log[j].order < log[k].order;
    }
  }

  lemma {:induction false} AtMost(selection: seq<Event>, log: seq<Event>, low: nat, high: nat, i: nat) returns (k: nat)
    requires low <= high <= |log| && Increasing(log) && SelectedFrom(selection, log, low, high) && i < |selection|
    ensures low <= k <= high - (|selection| - i) && log[k] == selection[i]
    decreases |selection| - i
  {
    assert selection[i] in selection;
    k :| low <= k < high && log[k] == selection[i];
    if i < |selection| - 1 {
      var j := AtMost(selection, log, low, high, i + 1);
      assert log[k].order < log[j].order;
    }
  }

  /** An increasing selection from a stretch of the log is the stretch if it is as long. */
  lemma FullSelection(selection: seq<Event>, log: seq<Event>, low: nat, high: nat)
    requires low <= high <= |log| && Increasing(log) && SelectedFrom(selection, log, low, high)
    ensures |selection| <= high - low
    ensures |selection| == high - low ==> selection == log[low..high]
  {
    if selection != [] {
      var k := AtLeast(selection, log, low, high, |selection| - 1);
    }
    if |selection| == high - low {
      forall i | 0 <= i < |selection|
        ensures selection[i] == log[low..high][i]
      {
        var j := AtLeast(selection, log, low, high, i);
        var k := AtMost(selection, log, low, high, i);
        assert log[j].order == log[k].order;
      }
    }
  }

  lemma WaitingPastLoad(n: Native, waiting: seq<Event>, task: string, k: nat)
    requires LogsOk(n) && WaitOk(n, waiting, task) && k < DeliveredOf(n, task)
    ensures
      var log, d, past := LogOf(n, task), DeliveredOf(n, task), NewFor(waiting, task, Watermark(LogOf(n, task), k));
      |past| <= d - k && (|past| == d - k ==> past == log[k..d])
  {
    var log, d := LogOf(n, task), DeliveredOf(n, task);
    var past := NewFor(waiting, task, Watermark(log, k));
    assert TaskOk(n, task);
    WaitingPast(n, waiting, task, Watermark(log, k));
    forall e | e in past
      ensures exists i :: k <= i < d && log[i] == e
    {
      var i :| 0 <= i < d && log[i] == e;
      assert k <= i;
    }
    FullSelection(past, log, k, d);
  }

  /** A loaded state is whole exactly when nothing that was delivered later is gone. */
  lemma MarkLoaded(n: Native, waiting: seq<Event>, task: string, k: nat)
    requires LogsOk(n) && WaitOk(n, waiting, task) && k <= |LogOf(n, task)|
    ensures MarkOk(n, waiting, task, Snapshot(LogOf(n, task), task, k), Lacks(n, waiting, task, k))
  {
    var log, d := LogOf(n, task), DeliveredOf(n, task);
    assert TaskOk(n, task);
    FoldedFolds(log[..k]);
    var past := NewFor(waiting, task, Watermark(log, k));
    if k < d {
      WaitingPastLoad(n, waiting, task, k);
      LongEnough(log, past, k, d);
    } else {
      WatermarkGrows(log, task, d, k);
      NothingPastDelivered(n, waiting, task, Watermark(log, k));
      assert log[..k] + past == log[..k];
    }
    SoundLoad(n, task, k);
  }

  lemma LongEnough(log: seq<Event>, past: seq<Event>, k: nat, d: nat)
    requires k < d <= |log| && |past| <= d - k && (|past| == d - k ==> past == log[k..d])
    ensures (log[..k] + past <= log && k + |past| >= d) <==> k + |past| >= d
  {
    assert log[..k] + log[k..d] == log[..d];
  }

  lemma SoundLoad(n: Native, task: string, k: nat)
    requires LogsOk(n) && k <= |LogOf(n, task)|
    ensures Sound(n, task, Snapshot(LogOf(n, task), task, k))
  {
    assert TaskOk(n, task);
    FoldedFolds(LogOf(n, task)[..k]);
  }

  /** So is a state made from nothing. */
  lemma MarkCreated(n: Native, waiting: seq<Event>, task: string)
    requires LogsOk(n) && WaitOk(n, waiting, task)
    ensures MarkOk(n, waiting, task, Create(task), Lacks(n, waiting, task, 0))
  {
    MarkLoaded(n, waiting, task, 0);
    assert Folds(LogOf(n, task)[..0]) == [];
  }

  lemma MarkOfSame(n: Native, waiting: seq<Event>, task: string, p: Projection, q: Projection, mark: bool)
    requires LogsOk(n) && MarkOk(n, waiting, task, p, mark)
    requires q.task == p.task && q.lastSeq == p.lastSeq && Folded(q.ops) == Folded(p.ops)
    ensures MarkOk(n, waiting, task, q, mark)
  {
  }

  lemma MarkAdjusted(n: Native, waiting: seq<Event>, task: string, p: Projection, op: Op, mark: bool)
    requires LogsOk(n) && MarkOk(n, waiting, task, p, mark) && !op.Fold?
    ensures MarkOk(n, waiting, task, p.(ops := p.ops + [op]), mark)
  {
    FoldedSnoc(p.ops, op);
    MarkOfSame(n, waiting, task, p, p.(ops := p.ops + [op]), mark);
  }

  // A longer log.

  lemma LastIsInLog(n: Native, task: string, p: Projection)
    requires LogsOk(n) && Sound(n, task, p)
    ensures p.lastSeq <= Watermark(LogOf(n, task), |LogOf(n, task)|)
  {
    var log := LogOf(n, task);
    assert TaskOk(n, task);
    if Folded(p.ops) <= log {
      if Folded(p.ops) != [] {
        LogOrders(n, task, |Folded(p.ops)| - 1, |log| - 1);
      }
    } else {
      WatermarkGrows(log, task, DeliveredOf(n, task), |log|);
    }
  }

  lemma NewIsNotHeld(n: Native, waiting: seq<Event>, task: string, p: Projection, e: Event)
    requires LogsOk(n) && WaitOk(n, waiting, task) && Sound(n, task, p)
    requires e.order > Watermark(LogOf(n, task), |LogOf(n, task)|)
    ensures e !in All(waiting, task, p)
  {
    var log := LogOf(n, task);
    LastIsInLog(n, task, p);
    FoldedUpTo(p, e);
    WaitingPast(n, waiting, task, p.lastSeq);
    forall x | x in log
      ensures x.order < e.order
    {
      var i :| 0 <= i < |log| && log[i] == x;
      LogOrders(n, task, i, |log| - 1);
    }
  }

  lemma SamePrefix(all: seq<Event>, log: seq<Event>, e: Event)
    requires e !in all
    ensures all <= log + [e] <==> all <= log
  {
    PrefixHolds(all, log + [e], |log|);
  }

  lemma MarkPersisted(n: Native, waiting: seq<Event>, task: string, p: Projection, e: Event, mark: bool)
    requires LogsOk(n) && WaitOk(n, waiting, task) && MarkOk(n, waiting, task, p, mark)
    requires e.order > Watermark(LogOf(n, e.task), |LogOf(n, e.task)|)
    ensures LogsOk(Persisted(n, e)) && MarkOk(Persisted(n, e), waiting, task, p, mark)
  {
    LogsPersisted(n, e);
    if e.task == task {
      NewIsNotHeld(n, waiting, task, p, e);
      SamePrefix(All(waiting, task, p), LogOf(n, task), e);
    }
  }

  lemma WaitPersisted(n: Native, waiting: seq<Event>, task: string, e: Event)
    requires WaitOk(n, waiting, task)
    ensures WaitOk(Persisted(n, e), waiting, task)
  {
    LogGrows(n, e, task);
    assert LogOf(Persisted(n, e), task)[..DeliveredOf(n, task)] == LogOf(n, task)[..DeliveredOf(n, task)];
  }

  lemma WaitDelivered(n: Native, waiting: seq<Event>, task: string, u: string)
    requires LogsOk(n) && WaitOk(n, waiting, u) && DeliveredOf(n, task) < |LogOf(n, task)|
    ensures WaitOk(Counted(n, task), waiting, u)
    ensures WaitOk(Counted(n, task), waiting + [LogOf(n, task)[DeliveredOf(n, task)]], u)
  {
    var e, before := LogOf(n, task)[DeliveredOf(n, task)], NewFor(waiting, u, 0);
    CountedOf(n, task, u);
    NextIsPast(n, task);
    NewForSnoc(waiting, e, u, 0);
    if u == task {
      assert LogOf(n, u)[..DeliveredOf(n, u) + 1] == LogOf(n, u)[..DeliveredOf(n, u)] + [e];
      if before != [] {
        assert before[|before| - 1] in before;
        var i :| 0 <= i < DeliveredOf(n, u) && LogOf(n, u)[i] == before[|before| - 1];
        LogOrders(n, u, i, DeliveredOf(n, u));
      }
      IncreasingSnoc(before, e);
    }
  }
}
