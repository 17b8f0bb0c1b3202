/**
 * When the cached state of a task misses events, and which ways of leaving the
 * task can then lead to a ready task that misses them for good
 * (apps/desktop/src/App.tsx:2110-2461, 3609).
 */
module HydrationLoss {
  // `Marks` follows, by the tests of the renderer's branches, which of the states
  // it holds are not whole. Then an entry is up to date exactly when it is not
  // marked and nothing newer waits, and that decides which tasks can be lost.

  import opened Common
  import opened Projections
  import opened Hydration
  import opened WholeStates

  // ---- runs ---------------------------------------------------------------------

  /** The component reconciles from a task's own cache entry, or from nothing. */
  predicate Ordinary(s: State, step: Step) {
    step.Reconcile? && step.cached.Some? ==> step.cached == Get(s.r.cache, step.task)
  }

  ghost predicate AllOrdinary(s: State, run: seq<Step>)
    requires Possible(s, run)
    decreases |run|
  {
    run == [] || (Ordinary(s, run[0]) && AllOrdinary(Next(s, run[0]), run[1..]))
  }

  ghost predicate AllWait(n: Native, waiting: seq<Event>) {
    forall task :: WaitOk(n, waiting, task)
  }

  /** No framed event is newer than what the current reconciliation began with. */
  ghost predicate FrameIsOld(s: State) {
    s.r.generation in s.flights ==>
      var f := s.flights[s.r.generation];
      f.since <= |LogOf(s.native, f.task)| && NewFor(s.r.frame, f.task, Watermark(LogOf(s.native, f.task), f.since)) == []
  }

  ghost predicate Held(s: State) {
    && Base(s) && AllWait(s.native, Waiting(s.r)) && FrameIsOld(s)
    && (s.r.ready ==> s.r.buffer == [])
    && (s.r.generation == 0 ==> s.r.runtime.None? && s.r.frame == [] && !s.r.ready)
  }

  lemma PartsWait(n: Native, framed: seq<Event>, buffered: seq<Event>)
    requires AllWait(n, framed + buffered)
    ensures AllWait(n, framed) && AllWait(n, buffered) && AllWait(n, framed + [])
  {
    assert framed + [] == framed;
    forall task
      ensures WaitOk(n, framed, task) && WaitOk(n, buffered, task)
    {
      WaitParts(n, framed, buffered, task);
    }
  }

  lemma HeldPersist(s: State, e: Event)
    requires Held(s) && Enabled(s, Persist(e))
    ensures Held(Next(s, Persist(e)))
  {
    BasePersist(s, e);
    forall task
      ensures WaitOk(Persisted(s.native, e), Waiting(s.r), task)
    {
      WaitPersisted(s.native, Waiting(s.r), task, e);
    }
    if s.r.generation in s.flights {
      LogGrows(s.native, e, s.flights[s.r.generation].task);
    }
  }

  /** Where the next event of a task goes. */
  lemma DeliveredWaiting(s: State, task: string)
    requires Held(s) && Enabled(s, Deliver(task))
    ensures
      var e, t := LogOf(s.native, task)[DeliveredOf(s.native, task)], DeliverOnly(s, task);
      Waiting(t.r) == if task != s.r.task then Waiting(s.r)
                      else if !s.r.ready || e.batchable then Waiting(s.r) + [e] else []
  {
    var e := LogOf(s.native, task)[DeliveredOf(s.native, task)];
    NextIsPast(s.native, task);
    assert s.r.frame + (s.r.buffer + [e]) == s.r.frame + s.r.buffer + [e];
    assert s.r.ready ==> s.r.frame + [e] + [] == s.r.frame + [] + [e];
  }

  lemma HeldDeliverOnly(s: State, task: string)
    requires Held(s) && Enabled(s, Deliver(task))
    ensures Held(DeliverOnly(s, task))
  {
    BaseDeliverOnly(s, task);
    DeliveredWaiting(s, task);
    forall u
      ensures WaitOk(Counted(s.native, task), Waiting(DeliverOnly(s, task).r), u)
    {
      WaitDelivered(s.native, Waiting(s.r), task, u);
    }
    if s.r.generation in s.flights {
      assert FlightOk(s, s.r.generation, s.flights[s.r.generation]);
      CountedOf(s.native, task, s.flights[s.r.generation].task);
    }
  }

  lemma HeldBegin(s: State, task: string, preserve: bool, cached: Option<Projection>)
    requires Held(s)
    ensures Held(Begin(s, task, preserve, cached))
  {
    BaseBegin(s, task, preserve, cached);
    PartsWait(s.native, s.r.frame, s.r.buffer);
    assert TaskOk(s.native, task);
    NothingNew(s.native, s.r.frame, task, DeliveredOf(s.native, task));
  }

  lemma HeldDeliver(s: State, task: string)
    requires Held(s) && Enabled(s, Deliver(task))
    ensures Held(Next(s, Deliver(task)))
  {
    HeldDeliverOnly(s, task);
    HeldBegin(DeliverOnly(s, task), LogOf(s.native, task)[DeliveredOf(s.native, task)].task, false, None);
  }

  lemma HeldFrame(s: State)
    requires Held(s)
    ensures Held(Next(s, Frame))
  {
    BaseFrame(s);
    PartsWait(s.native, s.r.frame, s.r.buffer);
    assert [] + s.r.buffer == s.r.buffer;
  }

  lemma HeldAnswer(s: State, step: Step)
    requires Held(s) && Enabled(s, step) && (step.DisplayLoaded? || step.DeltaLoaded? || step.LoadFailed?)
    ensures Held(Next(s, step))
  {
    BaseAnswer(s, step);
    PartsWait(s.native, s.r.frame, s.r.buffer);
    assert FlightOk(s, step.generation, s.flights[step.generation]);
  }

  lemma HeldSeed(s: State, task: string)
    requires Held(s) && Enabled(s, Seed(task))
    ensures Held(Next(s, Seed(task)))
  {
    BaseSeed(s, task);
    PartsWait(s.native, s.r.frame, s.r.buffer);
    assert s.r.generation + 1 !in s.flights by {
      assert forall g :: g in s.flights ==> FlightOk(s, g, s.flights[g]);
    }
  }

  lemma HeldRestore(s: State, task: string)
    requires Held(s) && Enabled(s, Restore(task))
    ensures Held(Next(s, Restore(task)))
  {
    BaseRestore(s, task);
    assert TaskOk(s.native, task);
  }

  lemma HeldAfterRestore(s: State, task: string, loaded: Option<Projection>)
    requires Held(s) && 0 in s.flights && s.flights[0].task == task
    ensures Held(AfterRestore(s, task, loaded))
  {
    var t := AfterRestore(s, task, loaded);
    BaseAfterRestore(s, task, loaded);
    assert TaskOk(s.native, task);
    NothingNew(s.native, s.r.frame, task, DeliveredOf(s.native, task));
  }

  lemma HeldNext(s: State, step: Step)
    requires Held(s) && Enabled(s, step)
    ensures Held(Next(s, step))
  {
    match step
    case Persist(e) => HeldPersist(s, e);
    case Deliver(task) => HeldDeliver(s, task);
    case Frame => HeldFrame(s);
    case Reconcile(task, preserve, cached) => HeldBegin(s, task, preserve, cached);
    case DisplayLoaded(_, _) => HeldAnswer(s, step);
    case DeltaLoaded(_, _, _, _) => HeldAnswer(s, step);
    case LoadFailed(_) => HeldAnswer(s, step);
    case Seed(task) => HeldSeed(s, task);
    case Restore(task) => HeldRestore(s, task);
    case RestoreLoaded(n) => HeldAfterRestore(s, s.flights[0].task, Some(Snapshot(LogOf(s.native, s.flights[0].task), s.flights[0].task, n)));
    case RestoreFailed => HeldAfterRestore(s, s.flights[0].task, None);
    case Evict(_) => BaseShown(s, step);
    case Clear => BaseShown(s, step);
  }

  // ---- the marks ------------------------------------------------------------------

  /**
   * Marks of the cache entries, of the shown state and of what the current
   * reconciliation displays.
   */
  datatype Marks = Marks(entries: set<string>, shown: bool, display: bool)

  const NO_MARKS := Marks({}, false, false)

  function Marking(entries: set<string>, task: string, mark: bool): set<string> {
    if mark then entries + {task} else entries - {task}
  }

  /** Dropping events marks the entries that would still have folded some of them. */
  function Dropping(m: Marks, cache: map<string, Projection>, dropped: seq<Event>): set<string> {
    m.entries + set u | u in cache && Newer(dropped, u, cache[u])
  }

  /** The mark of the state that live events are folded into: the shown one, or one made from nothing. */
  function LiveMark(s: State, m: Marks): bool {
    if s.r.runtime.None? then Lacks(s.native, Waiting(s.r), s.r.task, 0) else m.shown
  }

  /** The frame is folded into the shown task's state, which is written if it had events for it, and gone for the others. */
  function Flushing(s: State, m: Marks, writes: bool): Marks {
    var dropped := Dropping(m, s.r.cache, s.r.frame);
    var display := m.display || (DisplayOf(s).Some? && Newer(s.r.frame, s.r.task, DisplayOf(s).value));
    if writes then Marks(Marking(dropped, s.r.task, LiveMark(s, m)), LiveMark(s, m), display)
    else Marks(dropped, m.shown, display)
  }

  function Beginning(s: State, m: Marks, task: string, preserve: bool): Marks {
    var entries := if preserve then m.entries else Dropping(m, s.r.cache, s.r.buffer);
    Marks(entries, task in entries, task in entries)
  }

  /** The marks after a step, by the tests of its branches. */
  function MarksAfterStep(s: State, m: Marks, step: Step): Marks
    requires Enabled(s, step)
  {
    match step
    case Deliver(task) =>
      if task != s.r.task then
        if task in s.r.cache && Newer(Waiting(s.r), task, s.r.cache[task]) then m.(entries := m.entries + {task}) else m
      else if !s.r.ready || LogOf(s.native, task)[DeliveredOf(s.native, task)].batchable then m
      else Flushing(s, m, true)
    case Frame => Flushing(s, m, OnTask(s.r.frame, s.r.task) != [])
    case Reconcile(task, preserve, _) => Beginning(s, m, task, preserve)
    case DisplayLoaded(g, _) => if g != s.r.generation then m else Marks(m.entries - {s.r.task}, false, false)
    case DeltaLoaded(g, _, matched, _) =>
      if g != s.r.generation then m
      else Marks(Marking(Dropping(m, s.r.cache, s.r.buffer), s.r.task, matched && m.display), matched && m.display, m.display)
    case LoadFailed(g) =>
      if g != s.r.generation then m
      else
        var mark := if s.flights[g].display.None? then Lacks(s.native, Waiting(s.r), s.r.task, 0) else m.display;
        Marks(Marking(m.entries, s.r.task, mark), mark, m.display)
    case Seed(task) => Marks(Dropping(m, s.r.cache, s.r.buffer) - {task}, false, false)
    case RestoreLoaded(n) =>
      var mark := Lacks(s.native, Waiting(s.r), s.flights[0].task, n);
      Marks(Marking(m.entries, s.flights[0].task, mark), mark, mark)
    case Evict(task) => m.(entries := m.entries - {task})
    case _ => m
  }

  function MarksAfter(s: State, m: Marks, run: seq<Step>): Marks
    requires Possible(s, run)
    decreases |run|
  {
    if run == [] then m else MarksAfter(Next(s, run[0]), MarksAfterStep(s, m, run[0]), run[1..])
  }

  ghost predicate EntryOk(s: State, m: Marks, u: string)
    requires LogsOk(s.native)
  {
    u in s.r.cache ==> MarkOk(s.native, Waiting(s.r), u, s.r.cache[u], u in m.entries)
  }

  ghost predicate RuntimeOk(s: State, m: Marks)
    requires LogsOk(s.native)
  {
    s.r.runtime.Some? ==> MarkOk(s.native, Waiting(s.r), s.r.task, s.r.runtime.value, m.shown)
  }

  ghost predicate DisplayOk(s: State, m: Marks)
    requires LogsOk(s.native)
  {
    DisplayOf(s).Some? ==> MarkOk(s.native, Waiting(s.r), s.r.task, DisplayOf(s).value, m.display)
  }

  ghost predicate MarksOk(s: State, m: Marks) {
    Held(s) && (forall u :: EntryOk(s, m, u)) && RuntimeOk(s, m) && DisplayOk(s, m)
  }

  lemma MarksPersist(s: State, m: Marks, e: Event)
    requires MarksOk(s, m) && Enabled(s, Persist(e))
    ensures MarksOk(Next(s, Persist(e)), m)
  {
    HeldPersist(s, e);
    forall u
      ensures EntryOk(Next(s, Persist(e)), m, u)
    {
      assert EntryOk(s, m, u);
      if u in s.r.cache {
        MarkPersisted(s.native, Waiting(s.r), u, s.r.cache[u], e, u in m.entries);
      }
    }
    if s.r.runtime.Some? {
      MarkPersisted(s.native, Waiting(s.r), s.r.task, s.r.runtime.value, e, m.shown);
    }
    if DisplayOf(s).Some? {
      MarkPersisted(s.native, Waiting(s.r), s.r.task, DisplayOf(s).value, e, m.display);
    }
  }

  lemma BackgroundEntry(s: State, m: Marks, task: string, u: string)
    requires MarksOk(s, m) && Enabled(s, Deliver(task)) && task != s.r.task && LogsOk(Next(s, Deliver(task)).native)
    ensures EntryOk(Next(s, Deliver(task)), MarksAfterStep(s, m, Deliver(task)), u)
  {
    NextIsPast(s.native, task);
    assert EntryOk(s, m, u);
    if u in s.r.cache {
      if u == task {
        MarkApplied(s.native, Waiting(s.r), u, s.r.cache[u], u in m.entries);
      } else {
        MarkOfOther(s.native, Waiting(s.r), task, LogOf(s.native, task)[DeliveredOf(s.native, task)], u, s.r.cache[u], u in m.entries);
      }
    }
  }

  lemma BackgroundShown(s: State, m: Marks, task: string)
    requires MarksOk(s, m) && Enabled(s, Deliver(task)) && task != s.r.task && LogsOk(Next(s, Deliver(task)).native)
    ensures RuntimeOk(Next(s, Deliver(task)), m) && DisplayOk(Next(s, Deliver(task)), m)
  {
    var e := LogOf(s.native, task)[DeliveredOf(s.native, task)];
    NextIsPast(s.native, task);
    if s.r.runtime.Some? {
      MarkOfOther(s.native, Waiting(s.r), task, e, s.r.task, s.r.runtime.value, m.shown);
    }
    if DisplayOf(s).Some? {
      MarkOfOther(s.native, Waiting(s.r), task, e, s.r.task, DisplayOf(s).value, m.display);
    }
  }

  lemma MarksBackground(s: State, m: Marks, task: string)
    requires MarksOk(s, m) && Enabled(s, Deliver(task)) && task != s.r.task
    ensures MarksOk(Next(s, Deliver(task)), MarksAfterStep(s, m, Deliver(task)))
  {
    HeldDeliver(s, task);
    forall u
      ensures EntryOk(Next(s, Deliver(task)), MarksAfterStep(s, m, Deliver(task)), u)
    {
      BackgroundEntry(s, m, task, u);
    }
    BackgroundShown(s, m, task);
  }

  lemma MarkWaits(n: Native, waiting: seq<Event>, task: string, u: string, p: Projection, mark: bool)
    requires LogsOk(n) && AllWait(n, waiting) && MarkOk(n, waiting, u, p, mark) && DeliveredOf(n, task) < |LogOf(n, task)|
    ensures LogsOk(Counted(n, task))
    ensures MarkOk(Counted(n, task), waiting + [LogOf(n, task)[DeliveredOf(n, task)]], u, p, mark)
  {
    NextIsPast(n, task);
    if u == task {
      MarkAppended(n, waiting, task, p, mark);
    } else {
      MarkOfOther(n, waiting, task, LogOf(n, task)[DeliveredOf(n, task)], u, p, mark);
    }
  }

  lemma MarksWait(s: State, m: Marks, task: string)
    requires MarksOk(s, m) && Enabled(s, Deliver(task)) && task == s.r.task
    requires !s.r.ready || LogOf(s.native, task)[DeliveredOf(s.native, task)].batchable
    ensures MarksOk(Next(s, Deliver(task)), m)
  {
    var t := Next(s, Deliver(task));
    HeldDeliver(s, task);
    DeliveredWaiting(s, task);
    NextIsPast(s.native, task);
    forall u
      ensures EntryOk(t, m, u)
    {
      assert EntryOk(s, m, u);
      if u in s.r.cache {
        MarkWaits(s.native, Waiting(s.r), task, u, s.r.cache[u], u in m.entries);
      }
    }
    if s.r.runtime.Some? {
      MarkWaits(s.native, Waiting(s.r), task, s.r.task, s.r.runtime.value, m.shown);
    }
    if DisplayOf(s).Some? {
      MarkWaits(s.native, Waiting(s.r), task, s.r.task, DisplayOf(s).value, m.display);
    }
  }

  /** The state that live events are folded into, made from nothing if need be, has its mark. */
  lemma LiveMarkIsOk(s: State, m: Marks)
    requires MarksOk(s, m)
    ensures MarkOk(s.native, Waiting(s.r), s.r.task, s.r.runtime.GetOr(Create(s.r.task)), LiveMark(s, m))
  {
    if s.r.runtime.None? {
      MarkCreated(s.native, Waiting(s.r), s.r.task);
    }
  }

  lemma EventApplies(framed: seq<Event>, e: Event)
    requires e.order > 0
    ensures OnTask(framed + [e], e.task) != []
  {
    NewForSnoc(framed, e, e.task, 0);
  }

  /** Another task's entry when an immediate event flushes the frame. */
  lemma MarkOfFlushed(n: Native, framed: seq<Event>, task: string, u: string, p: Projection, mark: bool)
    requires LogsOk(n) && AllWait(n, framed) && MarkOk(n, framed, u, p, mark) && DeliveredOf(n, task) < |LogOf(n, task)| && u != task
    ensures LogsOk(Counted(n, task)) && MarkOk(Counted(n, task), [], u, p, mark || Newer(framed, u, p))
  {
    var e := LogOf(n, task)[DeliveredOf(n, task)];
    MarkWaits(n, framed, task, u, p, mark);
    WaitDelivered(n, framed, task, u);
    assert framed + [e] + [] == framed + [e];
    MarkDropped(Counted(n, task), framed + [e], [], u, p, mark);
    NextIsPast(n, task);
    NewForSnoc(framed, e, u, p.lastSeq);
  }

  lemma MarkOfLive(n: Native, framed: seq<Event>, task: string, p: Projection, mark: bool)
    requires LogsOk(n) && AllWait(n, framed) && MarkOk(n, framed, task, p, mark) && DeliveredOf(n, task) < |LogOf(n, task)|
    ensures
      var e := LogOf(n, task)[DeliveredOf(n, task)];
      LogsOk(Counted(n, task)) && MarkOk(Counted(n, task), [], task, Batch(p, OnTask(framed + [e], task)), mark)
  {
    var e := LogOf(n, task)[DeliveredOf(n, task)];
    MarkWaits(n, framed, task, task, p, mark);
    WaitDelivered(n, framed, task, task);
    assert framed + [e] + [] == framed + [e];
    MarkFolded(Counted(n, task), framed + [e], [], task, p, mark);
  }

  lemma ImmediateOthers(s: State, m: Marks, task: string, u: string)
    requires MarksOk(s, m) && Enabled(s, Deliver(task)) && task == s.r.task && u != task && u in s.r.cache && s.r.ready
    ensures LogsOk(Counted(s.native, task))
    ensures MarkOk(Counted(s.native, task), [], u, s.r.cache[u], u in Flushing(s, m, true).entries)
  {
    assert EntryOk(s, m, u) && Waiting(s.r) == s.r.frame;
    MarkOfFlushed(s.native, s.r.frame, task, u, s.r.cache[u], u in m.entries);
  }

  lemma ImmediateState(s: State, m: Marks, task: string)
    requires MarksOk(s, m) && Enabled(s, Deliver(task)) && task == s.r.task && s.r.ready
    ensures LogsOk(Counted(s.native, task))
    ensures
      var e := LogOf(s.native, task)[DeliveredOf(s.native, task)];
      && OnTask(s.r.frame + [e], task) != []
      && MarkOk(Counted(s.native, task), [], task,
                Batch(s.r.runtime.GetOr(Create(task)), OnTask(s.r.frame + [e], task)), LiveMark(s, m))
  {
    assert Waiting(s.r) == s.r.frame;
    NextIsPast(s.native, task);
    LiveMarkIsOk(s, m);
    MarkOfLive(s.native, s.r.frame, task, s.r.runtime.GetOr(Create(task)), LiveMark(s, m));
    EventApplies(s.r.frame, LogOf(s.native, task)[DeliveredOf(s.native, task)]);
  }

  lemma MarksImmediate(s: State, m: Marks, task: string)
    requires MarksOk(s, m) && Enabled(s, Deliver(task)) && task == s.r.task
    requires s.r.ready && !LogOf(s.native, task)[DeliveredOf(s.native, task)].batchable
    ensures MarksOk(DeliverOnly(s, task), Flushing(s, m, true))
  {
    var t, k := DeliverOnly(s, task), Flushing(s, m, true);
    HeldDeliverOnly(s, task);
    DeliveredWaiting(s, task);
    NextIsPast(s.native, task);
    ImmediateState(s, m, task);
    forall u
      ensures EntryOk(t, k, u)
    {
      if u in s.r.cache && u != task {
        ImmediateOthers(s, m, task, u);
      }
    }
    assert DisplayOf(t).None? by {
      assert forall g :: g in s.flights ==> FlightOk(s, g, s.flights[g]);
    }
  }

  lemma MarksReset(s: State, m: Marks, task: string)
    requires MarksOk(s, m) && s.r.buffer == []
    ensures MarksOk(Begin(s, task, false, None), m)
  {
    HeldBegin(s, task, false, None);
    forall u
      ensures EntryOk(Begin(s, task, false, None), m, u)
    {
      assert EntryOk(s, m, u);
    }
  }

  lemma MarksDeliver(s: State, m: Marks, task: string)
    requires MarksOk(s, m) && Enabled(s, Deliver(task))
    ensures MarksOk(Next(s, Deliver(task)), MarksAfterStep(s, m, Deliver(task)))
  {
    var e := LogOf(s.native, task)[DeliveredOf(s.native, task)];
    NextIsPast(s.native, task);
    if task != s.r.task {
      MarksBackground(s, m, task);
    } else if !s.r.ready || e.batchable {
      MarksWait(s, m, task);
    } else {
      MarksImmediate(s, m, task);
      if e.reset {
        MarksReset(DeliverOnly(s, task), Flushing(s, m, true), task);
      }
    }
  }

  lemma NothingFramed(framed: seq<Event>, task: string, p: Projection)
    requires OnTask(framed, task) == []
    ensures !Newer(framed, task, p)
  {
    NewForTwice(framed, task, 0, p.lastSeq);
  }

  lemma FlushedEntry(r: Renderer, u: string)
    requires u != r.task || OnTask(r.frame, u) == []
    ensures Get(Flushed(r).cache, u) == Get(r.cache, u) && Waiting(Flushed(r)) == r.buffer
  {
    assert [] + r.buffer == r.buffer;
  }

  lemma FrameOther(s: State, m: Marks, u: string)
    requires MarksOk(s, m) && u in s.r.cache && (u != s.r.task || OnTask(s.r.frame, u) == [])
    ensures EntryOk(Next(s, Frame), MarksAfterStep(s, m, Frame), u)
  {
    assert EntryOk(s, m, u);
    FlushedEntry(s.r, u);
    MarkDropped(s.native, s.r.frame, s.r.buffer, u, s.r.cache[u], u in m.entries);
    MarkedByFlush(s, m, u, OnTask(s.r.frame, s.r.task) != []);
  }

  lemma MarkedByFlush(s: State, m: Marks, u: string, writes: bool)
    requires u in s.r.cache && (u != s.r.task || !writes)
    ensures u in Flushing(s, m, writes).entries <==> u in m.entries || Newer(s.r.frame, u, s.r.cache[u])
  {
  }

  lemma FrameWrites(s: State, m: Marks)
    requires MarksOk(s, m) && OnTask(s.r.frame, s.r.task) != []
    ensures EntryOk(Next(s, Frame), MarksAfterStep(s, m, Frame), s.r.task)
    ensures RuntimeOk(Next(s, Frame), MarksAfterStep(s, m, Frame))
  {
    assert [] + s.r.buffer == s.r.buffer;
    LiveMarkIsOk(s, m);
    MarkFolded(s.native, s.r.frame, s.r.buffer, s.r.task, s.r.runtime.GetOr(Create(s.r.task)), LiveMark(s, m));
  }

  lemma FrameKeepsRuntime(s: State, m: Marks)
    requires MarksOk(s, m) && OnTask(s.r.frame, s.r.task) == []
    ensures RuntimeOk(Next(s, Frame), MarksAfterStep(s, m, Frame))
  {
    assert [] + s.r.buffer == s.r.buffer;
    if s.r.runtime.Some? {
      NothingFramed(s.r.frame, s.r.task, s.r.runtime.value);
      MarkDropped(s.native, s.r.frame, s.r.buffer, s.r.task, s.r.runtime.value, m.shown);
    }
  }

  lemma FrameDisplay(s: State, m: Marks)
    requires MarksOk(s, m)
    ensures DisplayOk(Next(s, Frame), MarksAfterStep(s, m, Frame))
  {
    assert [] + s.r.buffer == s.r.buffer;
    if DisplayOf(s).Some? {
      MarkDropped(s.native, s.r.frame, s.r.buffer, s.r.task, DisplayOf(s).value, m.display);
    }
  }

  lemma MarksFrame(s: State, m: Marks)
    requires MarksOk(s, m)
    ensures MarksOk(Next(s, Frame), MarksAfterStep(s, m, Frame))
  {
    HeldFrame(s);
    if OnTask(s.r.frame, s.r.task) != [] {
      FrameWrites(s, m);
    } else {
      FrameKeepsRuntime(s, m);
    }
    forall u
      ensures EntryOk(Next(s, Frame), MarksAfterStep(s, m, Frame), u)
    {
      if u in s.r.cache && (u != s.r.task || OnTask(s.r.frame, u) == []) {
        FrameOther(s, m, u);
      }
    }
    FrameDisplay(s, m);
  }

  /** The entries once the buffer, if it is not kept, is gone. */
  lemma EntriesDropped(s: State, m: Marks, u: string)
    requires MarksOk(s, m) && u in s.r.cache
    ensures MarkOk(s.native, s.r.frame + [], u, s.r.cache[u], u in Dropping(m, s.r.cache, s.r.buffer))
  {
    assert EntryOk(s, m, u) && s.r.frame + [] == s.r.frame;
    MarkDropped(s.native, s.r.frame, s.r.buffer, u, s.r.cache[u], u in m.entries);
  }

  lemma MarksReconcile(s: State, m: Marks, task: string, preserve: bool, cached: Option<Projection>)
    requires MarksOk(s, m) && Ordinary(s, Reconcile(task, preserve, cached))
    ensures MarksOk(Next(s, Reconcile(task, preserve, cached)), Beginning(s, m, task, preserve))
  {
    var t, k := Next(s, Reconcile(task, preserve, cached)), Beginning(s, m, task, preserve);
    HeldBegin(s, task, preserve, cached);
    forall u
      ensures EntryOk(t, k, u)
    {
      assert EntryOk(s, m, u);
      if u in s.r.cache && !preserve {
        EntriesDropped(s, m, u);
      }
    }
    assert EntryOk(t, k, task);
  }

  /** What a current load finds is whole: all that was delivered since it began waits. */
  lemma LoadLacksNothing(s: State, k: nat)
    requires Held(s) && s.r.generation in s.flights && s.flights[s.r.generation].floor <= k <= |LogOf(s.native, s.r.task)|
    ensures !Lacks(s.native, Waiting(s.r), s.r.task, k)
    ensures NewFor(s.r.frame, s.r.task, Watermark(LogOf(s.native, s.r.task), k)) == []
  {
    var f, log, d := s.flights[s.r.generation], LogOf(s.native, s.r.task), DeliveredOf(s.native, s.r.task);
    assert FlightOk(s, s.r.generation, f) && TaskOk(s.native, s.r.task);
    WatermarkGrows(log, s.r.task, f.since, k);
    NewForTwice(s.r.frame, s.r.task, Watermark(log, f.since), Watermark(log, k));
    NewForTwice(s.r.buffer, s.r.task, Watermark(log, f.since), Watermark(log, k));
    NewForLog(log, s.r.task, f.since, d, k);
    NewForJoined(s.r.frame, s.r.buffer, s.r.task, Watermark(log, k));
  }

  lemma MarksDisplay(s: State, m: Marks, g: nat, n: nat)
    requires MarksOk(s, m) && Enabled(s, DisplayLoaded(g, n))
    ensures MarksOk(Next(s, DisplayLoaded(g, n)), MarksAfterStep(s, m, DisplayLoaded(g, n)))
  {
    var t, k := Next(s, DisplayLoaded(g, n)), MarksAfterStep(s, m, DisplayLoaded(g, n));
    HeldAnswer(s, DisplayLoaded(g, n));
    assert FlightOk(s, g, s.flights[g]);
    if g == s.r.generation {
      LoadLacksNothing(s, n);
      MarkLoaded(s.native, Waiting(s.r), s.r.task, n);
    }
    forall u
      ensures EntryOk(t, k, u)
    {
      assert EntryOk(s, m, u);
    }
  }

  /** The state a current reconciliation commits. */
  lemma MarkOfCommit(s: State, m: Marks, g: nat, n: nat, matched: bool, settle: bool)
    requires MarksOk(s, m) && Enabled(s, DeltaLoaded(g, n, matched, settle)) && g == s.r.generation
    ensures
      var log := LogOf(s.native, s.r.task);
      var base := if matched then DisplayOf(s).value else Snapshot(log, s.r.task, n);
      MarkOk(s.native, s.r.frame, s.r.task, Merged(base, s.r.buffer, s.r.task, Watermark(log, n), settle), matched && m.display)
  {
    var log := LogOf(s.native, s.r.task);
    assert FlightOk(s, g, s.flights[g]);
    var base := if matched then DisplayOf(s).value else Snapshot(log, s.r.task, n);
    LoadLacksNothing(s, n);
    MarkLoaded(s.native, Waiting(s.r), s.r.task, n);
    MarkCommitted(s.native, s.r.frame, s.r.buffer, s.r.task, base, matched && m.display);
    MergedIsBatch(s.native, s.r.buffer, s.r.task, base, s.r.frame);
    var next := Batch(base, OnTask(s.r.buffer, s.r.task));
    MarkAdjusted(s.native, s.r.frame, s.r.task, next, Settle, matched && m.display);
  }

  /** Sorting changes nothing, and what the base has folded already is skipped anyway. */
  lemma MergedIsBatch(n: Native, buffered: seq<Event>, task: string, base: Projection, framed: seq<Event>)
    requires WaitOk(n, framed + buffered, task) && base.task == task
    ensures Batch(base, Sorted(NewFor(buffered, task, base.lastSeq))) == Batch(base, OnTask(buffered, task))
  {
    WaitParts(n, framed, buffered, task);
    WaitingPast(n, buffered, task, base.lastSeq);
    SortedIncreasing(NewFor(buffered, task, base.lastSeq));
    BatchOnTask(base, buffered);
  }

  lemma MarksDelta(s: State, m: Marks, g: nat, n: nat, matched: bool, settle: bool)
    requires MarksOk(s, m) && Enabled(s, DeltaLoaded(g, n, matched, settle))
    ensures
      var step := DeltaLoaded(g, n, matched, settle);
      MarksOk(Next(s, step), MarksAfterStep(s, m, step))
  {
    var step := DeltaLoaded(g, n, matched, settle);
    var t, k := Next(s, step), MarksAfterStep(s, m, step);
    HeldAnswer(s, step);
    assert FlightOk(s, g, s.flights[g]);
    if g == s.r.generation {
      MarkOfCommit(s, m, g, n, matched, settle);
      assert s.r.frame + [] == s.r.frame;
    }
    forall u
      ensures EntryOk(t, k, u)
    {
      assert EntryOk(s, m, u);
      if g == s.r.generation && u in s.r.cache {
        EntriesDropped(s, m, u);
      }
    }
  }

  lemma MarksFailed(s: State, m: Marks, g: nat)
    requires MarksOk(s, m) && Enabled(s, LoadFailed(g))
    ensures MarksOk(Next(s, LoadFailed(g)), MarksAfterStep(s, m, LoadFailed(g)))
  {
    var t, k := Next(s, LoadFailed(g)), MarksAfterStep(s, m, LoadFailed(g));
    HeldAnswer(s, LoadFailed(g));
    assert FlightOk(s, g, s.flights[g]);
    if g == s.r.generation {
      if DisplayOf(s).None? {
        MarkCreated(s.native, Waiting(s.r), s.r.task);
        MarkAdjusted(s.native, Waiting(s.r), s.r.task, Create(s.r.task), Fail, k.shown);
      } else {
        MarkAdjusted(s.native, Waiting(s.r), s.r.task, DisplayOf(s).value, Fail, k.shown);
      }
    }
    forall u
      ensures EntryOk(t, k, u)
    {
      assert EntryOk(s, m, u);
    }
  }

  lemma MarksSeed(s: State, m: Marks, task: string)
    requires MarksOk(s, m) && Enabled(s, Seed(task))
    ensures MarksOk(Next(s, Seed(task)), MarksAfterStep(s, m, Seed(task)))
  {
    var t, k := Next(s, Seed(task)), MarksAfterStep(s, m, Seed(task));
    HeldSeed(s, task);
    PartsWait(s.native, s.r.frame, s.r.buffer);
    MarkCreated(s.native, s.r.frame + [], task);
    forall u
      ensures EntryOk(t, k, u)
    {
      if u in s.r.cache && u != task {
        EntriesDropped(s, m, u);
      }
    }
    assert DisplayOf(t).None? by {
      assert forall g :: g in s.flights ==> FlightOk(s, g, s.flights[g]);
    }
  }

  lemma MarksRestored(s: State, m: Marks, n: nat)
    requires MarksOk(s, m) && Enabled(s, RestoreLoaded(n))
    ensures MarksOk(Next(s, RestoreLoaded(n)), MarksAfterStep(s, m, RestoreLoaded(n)))
  {
    var t, k := Next(s, RestoreLoaded(n)), MarksAfterStep(s, m, RestoreLoaded(n));
    var task := s.flights[0].task;
    HeldNext(s, RestoreLoaded(n));
    MarkLoaded(s.native, Waiting(s.r), task, n);
    forall u
      ensures EntryOk(t, k, u)
    {
      assert EntryOk(s, m, u);
    }
  }

  lemma MarksUntouched(s: State, m: Marks, step: Step)
    requires MarksOk(s, m) && Enabled(s, step) && (step.Restore? || step.RestoreFailed? || step.Evict? || step.Clear?)
    ensures MarksOk(Next(s, step), MarksAfterStep(s, m, step))
  {
    HeldNext(s, step);
    forall u
      ensures EntryOk(Next(s, step), MarksAfterStep(s, m, step), u)
    {
      assert EntryOk(s, m, u);
    }
  }

  lemma MarksNext(s: State, m: Marks, step: Step)
    requires MarksOk(s, m) && Enabled(s, step) && Ordinary(s, step)
    ensures MarksOk(Next(s, step), MarksAfterStep(s, m, step))
  {
    match step
    case Persist(e) => MarksPersist(s, m, e);
    case Deliver(task) => MarksDeliver(s, m, task);
    case Frame => MarksFrame(s, m);
    case Reconcile(task, preserve, cached) => MarksReconcile(s, m, task, preserve, cached);
    case DisplayLoaded(g, n) => MarksDisplay(s, m, g, n);
    case DeltaLoaded(g, n, matched, settle) => MarksDelta(s, m, g, n, matched, settle);
    case LoadFailed(g) => MarksFailed(s, m, g);
    case Seed(task) => MarksSeed(s, m, task);
    case RestoreLoaded(n) => MarksRestored(s, m, n);
    case Restore(_) => MarksUntouched(s, m, step);
    case RestoreFailed => MarksUntouched(s, m, step);
    case Evict(_) => MarksUntouched(s, m, step);
    case Clear => MarksUntouched(s, m, step);
  }

  lemma {:induction false} EveryRunKeepsMarks(s: State, m: Marks, run: seq<Step>)
    requires MarksOk(s, m) && Possible(s, run) && AllOrdinary(s, run)
    ensures MarksOk(After(s, run), MarksAfter(s, m, run))
    decreases |run|
  {
    if run != [] {
      MarksNext(s, m, run[0]);
      EveryRunKeepsMarks(Next(s, run[0]), MarksAfterStep(s, m, run[0]), run[1..]);
    }
  }

  /**
   * In every state of every ordinary run, whichever window of a reconciliation it
   * is in, the cached state of a task is up to date exactly when it is not marked
   * and nothing newer waits for it in the frame or in the buffer.
   */
  lemma CachedUpToDateExactly(run: seq<Step>, task: string)
    requires Possible(INITIAL, run) && AllOrdinary(INITIAL, run)
    ensures
      var s := After(INITIAL, run);
      var m := MarksAfter(INITIAL, NO_MARKS, run);
      EntryUpToDate(s, task) <==>
      (task in s.r.cache ==> task !in m.entries && !Newer(Waiting(s.r), task, s.r.cache[task]))
  {
    EveryRunKeepsMarks(INITIAL, NO_MARKS, run);
    var s := After(INITIAL, run);
    assert EntryOk(s, MarksAfter(INITIAL, NO_MARKS, run), task);
    if task in s.r.cache {
      UpToDateExactly(s.native, Waiting(s.r), task, s.r.cache[task]);
    }
  }

  /** So leaving the shown task now leaves it up to date exactly then. */
  lemma LeavingExactly(run: seq<Step>)
    requires Possible(INITIAL, run) && AllOrdinary(INITIAL, run)
    ensures
      var s := After(INITIAL, run);
      var m := MarksAfter(INITIAL, NO_MARKS, run);
      LeavesUpToDate(s) <==>
      (s.r.task in s.r.cache ==> s.r.task !in m.entries && !Newer(Waiting(s.r), s.r.task, s.r.cache[s.r.task]))
  {
    CachedUpToDateExactly(run, After(INITIAL, run).r.task);
  }

  // ---- which leavings lose an event --------------------------------------------------

  /**
   * A run that, although it leaves the task only while its cached state is up to
   * date, ends with the task ready and not exact, everything delivered and
   * nothing waiting for it.
   */
  ghost predicate Loses(s: State, run: seq<Step>, task: string) {
    && Possible(s, run) && AllOrdinary(s, run) && AllCarefulWith(s, run, task)
    && var t := After(s, run);
      && t.r.ready && !t.cleared && t.r.task == task && t.r.runtime.Some?
      && DeliveredOf(t.native, task) == |LogOf(t.native, task)| && !Newer(Waiting(t.r), task, t.r.runtime.value)
      && !Exact(t.r.runtime.value, LogOf(t.native, task), task)
  }

  lemma LosesStep(s: State, step: Step, rest: seq<Step>, task: string)
    requires Enabled(s, step) && Ordinary(s, step) && CarefulWith(s, step, task) && Loses(Next(s, step), rest, task)
    ensures Loses(s, [step] + rest, task) && After(s, [step] + rest) == After(Next(s, step), rest)
  {
    assert ([step] + rest)[1..] == rest;
  }

  predicate NoResets(events: seq<Event>) {
    forall e :: e in events ==> !e.reset
  }

  lemma {:induction false} NoEpoch(events: seq<Event>)
    requires NoResets(events)
    ensures Epoch(events) == 0
  {
    if events != [] {
      assert events[|events| - 1] in events && forall e :: e in events[..|events| - 1] ==> e in events;
      NoEpoch(events[..|events| - 1]);
    }
  }

  /** The run loses the task, and resets nothing of a log without resets: then what it skipped would still be shown. */
  ghost predicate LosesPlainly(s: State, run: seq<Step>, task: string) {
    Loses(s, run, task) && (NoResets(LogOf(s.native, task)) ==> NoResets(LogOf(After(s, run).native, task)))
  }

  /** A background task whose cached state is not up to date. */
  ghost predicate Behind(s: State, task: string) {
    && Held(s) && s.r.task != task && task in s.r.cache
    && Sound(s.native, task, s.r.cache[task]) && !UpToDate(s.native, task, s.r.cache[task])
  }

  lemma BehindDeliver(s: State, task: string)
    requires Behind(s, task) && Enabled(s, Deliver(task))
    ensures
      var t := Next(s, Deliver(task));
      && Behind(t, task) && LogOf(t.native, task) == LogOf(s.native, task)
      && DeliveredOf(t.native, task) == DeliveredOf(s.native, task) + 1
  {
    var p, e := s.r.cache[task], LogOf(s.native, task)[DeliveredOf(s.native, task)];
    HeldDeliver(s, task);
    NextIsPast(s.native, task);
    CountedOf(s.native, task, task);
    DeliveryWrites(s, task, task);
    SoundApply(s.native, task, p);
    ExactExactly(s.native, task, p);
    ExactExactly(Counted(s.native, task), task, Apply(p, e));
    StillBehind(LogOf(s.native, task), Folded(p.ops), e, DeliveredOf(s.native, task));
  }

  lemma StillBehind(log: seq<Event>, folded: seq<Event>, e: Event, d: nat)
    requires !(folded <= log && |folded| >= d)
    ensures !(folded + [e] <= log && |folded + [e]| >= d + 1)
  {
    assert folded + [e] <= log ==> folded <= log;
  }

  /** A new event, which the skipped state folds: then its watermark and epoch are the log's. */
  function Following(log: seq<Event>, task: string, p: Projection): Event {
    Event(task, Watermark(log, |log|) + 1, false, Epoch(Folded(p.ops)) != Epoch(log), 0)
  }

  lemma EpochSnoc(events: seq<Event>, e: Event)
    ensures Epoch(events + [e]) == if e.reset then e.order else Epoch(events)
  {
    assert (events + [e])[..|events|] == events;
  }

  lemma EpochsAgree(log: seq<Event>, task: string, p: Projection)
    requires forall x :: x in Folded(p.ops) ==> x in log
    ensures Epoch(Folded(p.ops) + [Following(log, task, p)]) == Epoch(log + [Following(log, task, p)])
    ensures NoResets(log) ==> NoResets(log + [Following(log, task, p)])
  {
    EpochSnoc(Folded(p.ops), Following(log, task, p));
    EpochSnoc(log, Following(log, task, p));
    if NoResets(log) {
      NoEpoch(log);
      NoEpoch(Folded(p.ops));
    }
  }

  lemma NotExactAfter(n: Native, task: string, p: Projection, e: Event)
    requires LogsOk(n) && Sound(n, task, p) && !UpToDate(n, task, p) && DeliveredOf(n, task) == |LogOf(n, task)|
    requires e.order > Watermark(LogOf(n, task), |LogOf(n, task)|)
    ensures !(Folded(p.ops) + [e] <= LogOf(n, task) + [e])
  {
    var log, folded := LogOf(n, task), Folded(p.ops);
    ExactExactly(n, task, p);
    assert TaskOk(n, task);
    assert folded + [e] <= log + [e] ==> (log + [e])[|folded|] == e;
    if |folded| < |log| {
      LogOrders(n, task, |folded|, |log| - 1);
      assert (log + [e])[|folded|] == log[|folded|];
    }
    SameEnd(folded, log, e);
  }

  lemma SameEnd(folded: seq<Event>, log: seq<Event>, e: Event)
    ensures folded + [e] <= log + [e] && |folded| >= |log| ==> folded == log
  {
    assert folded + [e] <= log + [e] && |folded| == |log| ==> (log + [e])[..|log|] == (folded + [e])[..|log|];
  }

  /** One more event is delivered, and the component returns to the task. */
  lemma ReturnLoses(s: State, task: string) returns (run: seq<Step>)
    requires Behind(s, task) && DeliveredOf(s.native, task) == |LogOf(s.native, task)|
    ensures LosesPlainly(s, run, task)
  {
    var p, log := s.r.cache[task], LogOf(s.native, task);
    var e := Following(log, task, p);
    var s1 := Next(s, Persist(e));
    HeldPersist(s, e);
    var s2 := Next(s1, Deliver(task));
    SkippedStateFollows(s, task);
    run := DeceivedReturn(s2, task);
    LosesStep(s1, Deliver(task), run, task);
    run := [Deliver(task)] + run;
    LosesStep(s, Persist(e), run, task);
    run := [Persist(e)] + run;
  }

  /** The skipped state has the log's watermark and epoch, but not its events. */
  ghost predicate Deceives(s: State, task: string) {
    && Held(s) && s.r.task != task && task in s.r.cache
    && DeliveredOf(s.native, task) == |LogOf(s.native, task)|
    && Unchanged(s.r.cache[task], LogOf(s.native, task), |LogOf(s.native, task)|)
    && !Exact(s.r.cache[task], LogOf(s.native, task), task)
  }

  lemma SkippedStateFollows(s: State, task: string)
    requires Behind(s, task) && DeliveredOf(s.native, task) == |LogOf(s.native, task)|
    ensures
      var e := Following(LogOf(s.native, task), task, s.r.cache[task]);
      && Enabled(s, Persist(e)) && Enabled(Next(s, Persist(e)), Deliver(task))
      && var t := Next(Next(s, Persist(e)), Deliver(task));
        && Deceives(t, task) && LogOf(t.native, task) == LogOf(s.native, task) + [e]
        && (NoResets(LogOf(s.native, task)) ==> NoResets(LogOf(t.native, task)))
  {
    var p, log := s.r.cache[task], LogOf(s.native, task);
    var e := Following(log, task, p);
    var s1 := Next(s, Persist(e));
    HeldPersist(s, e);
    LogGrows(s.native, e, task);
    assert LogOf(s1.native, task) == log + [e];
    LastIsInLog(s.native, task, p);
    NotExactAfter(s.native, task, p, e);
    HeldDeliver(s1, task);
    DeliveryWrites(s1, task, task);
    CountedOf(s1.native, task, task);
    FoldedSnoc(p.ops, Fold(e));
    EpochsAgree(log, task, p);
    assert (log + [e])[..|log| + 1] == log + [e];
  }

  /** Returning to it, the native side finds it unchanged and it is committed as it is. */
  lemma CommitsCached(s: State, task: string)
    requires Deceives(s, task)
    ensures
      var t := Next(s, Reconcile(task, false, Some(s.r.cache[task])));
      var step := DeltaLoaded(t.r.generation, |LogOf(s.native, task)|, true, false);
      Enabled(t, step) && Loses(Next(t, step), [], task)
  {
    var p, log := s.r.cache[task], LogOf(s.native, task);
    var t := Next(s, Reconcile(task, false, Some(p)));
    var step := DeltaLoaded(t.r.generation, |log|, true, false);
    HeldBegin(s, task, false, Some(p));
    assert t.flights[t.r.generation] == Flight(task, |log|, |log|, Some(p));
    assert Merged(p, [], task, p.lastSeq, false) == p;
    var u := Next(t, step);
    assert u.r.runtime == Some(p);
    NothingPastDelivered(s.native, Waiting(t.r), task, p.lastSeq);
    assert Waiting(u.r) == Waiting(t.r);
  }

  lemma DeceivedReturn(s: State, task: string) returns (run: seq<Step>)
    requires Deceives(s, task)
    ensures LosesPlainly(s, run, task)
  {
    var back := Reconcile(task, false, Some(s.r.cache[task]));
    var commit := DeltaLoaded(Next(s, back).r.generation, |LogOf(s.native, task)|, true, false);
    CommitsCached(s, task);
    LosesStep(Next(s, back), commit, [], task);
    LosesStep(s, back, [commit] + [], task);
    run := [back] + ([commit] + []);
  }

  /** A background task that is not up to date can be lost: everything out for it is delivered, and then it is returned to. */
  lemma {:induction false} BehindLoses(s: State, task: string) returns (run: seq<Step>)
    requires Behind(s, task)
    ensures LosesPlainly(s, run, task)
    decreases |LogOf(s.native, task)| - DeliveredOf(s.native, task)
  {
    assert TaskOk(s.native, task);
    if DeliveredOf(s.native, task) == |LogOf(s.native, task)| {
      run := ReturnLoses(s, task);
    } else {
      BehindDeliver(s, task);
      var rest := BehindLoses(Next(s, Deliver(task)), task);
      LosesStep(s, Deliver(task), rest, task);
      run := [Deliver(task)] + rest;
    }
  }

  /** A careful run loses nothing of a task that is up to date. */
  lemma UpToDateLosesNothing(s: State, run: seq<Step>, task: string)
    requires Base(s) && s.r.task != task && EntryUpToDate(s, task)
    ensures !Loses(s, run, task)
  {
    if Possible(s, run) && AllCarefulWith(s, run, task) {
      SafeRuns(s, run, task);
    }
  }

  lemma LeftIsBehind(run: seq<Step>, step: Step)
    requires Possible(INITIAL, run) && AllOrdinary(INITIAL, run)
    requires
      var s := After(INITIAL, run);
      Enabled(s, step) && Ordinary(s, step) && ShownBy(s, step) != s.r.task && !LeavesUpToDate(s)
    ensures Behind(Next(After(INITIAL, run), step), After(INITIAL, run).r.task)
  {
    var s := After(INITIAL, run);
    EveryRunKeepsMarks(INITIAL, NO_MARKS, run);
    HeldNext(s, step);
    LeftTaskStays(s, step);
    ShownIsShown(s, step);
    assert EntryOk(s, MarksAfter(INITIAL, NO_MARKS, run), s.r.task);
  }

  /**
   * Over every ordinary run: a step that leaves the shown task can lead to its
   * loss, with no further fault of the component, exactly when the cached state
   * is not up to date then.
   */
  lemma LeavingLosesExactly(run: seq<Step>, step: Step)
    requires Possible(INITIAL, run) && AllOrdinary(INITIAL, run)
    requires
      var s := After(INITIAL, run);
      Enabled(s, step) && Ordinary(s, step) && ShownBy(s, step) != s.r.task
    ensures
      var s := After(INITIAL, run);
      (exists more :: Loses(Next(s, step), more, s.r.task)) <==> !LeavesUpToDate(s)
  {
    var s := After(INITIAL, run);
    EveryRunKeepsMarks(INITIAL, NO_MARKS, run);
    HeldNext(s, step);
    LeftTaskStays(s, step);
    ShownIsShown(s, step);
    if LeavesUpToDate(s) {
      forall more
        ensures !Loses(Next(s, step), more, s.r.task)
      {
        UpToDateLosesNothing(Next(s, step), more, s.r.task);
      }
    } else {
      LeftIsBehind(run, step);
      var more := BehindLoses(Next(s, step), s.r.task);
    }
  }

  /** If the task was never reset, exactly then in a run that never resets it either. */
  lemma LeavingLosesPlainlyExactly(run: seq<Step>, step: Step)
    requires Possible(INITIAL, run) && AllOrdinary(INITIAL, run)
    requires
      var s := After(INITIAL, run);
      Enabled(s, step) && Ordinary(s, step) && ShownBy(s, step) != s.r.task && NoResets(LogOf(s.native, s.r.task))
    ensures
      var s := After(INITIAL, run);
      var t := Next(s, step);
      (exists more :: Loses(t, more, s.r.task) && NoResets(LogOf(After(t, more).native, s.r.task))) <==> !LeavesUpToDate(s)
  {
    LeavingLosesExactly(run, step);
    var s := After(INITIAL, run);
    if !LeavesUpToDate(s) {
      LeftIsBehind(run, step);
      var more := BehindLoses(Next(s, step), s.r.task);
    }
  }

  // ---- four runs ---------------------------------------------------------------------

  ghost predicate Reaches(s: State, run: seq<Step>, t: State) {
    Possible(s, run) && AllOrdinary(s, run) && After(s, run) == t
  }

  lemma ReachesStep(s: State, step: Step, rest: seq<Step>, t: State)
    requires Enabled(s, step) && Ordinary(s, step) && Reaches(Next(s, step), rest, t)
    ensures Reaches(s, [step] + rest, t)
  {
    assert ([step] + rest)[1..] == rest;
  }

  const FIRST := Event("a", 1, false, false, 0)
  const SECOND := Event("a", 2, false, false, 0)
  const STREAMED := Event("a", 2, true, false, 0)

  /** The first event of "a" is delivered and the task's load fails. */
  const FAILED_LOAD: seq<Step> :=
    [Persist(FIRST)] + ([Deliver("a")] + ([Reconcile("a", false, None)] + ([LoadFailed(1)] + [])))

  const FAILED := State(
    Renderer(1, false, "a", [], [], Some(Projection("a", 0, [Fail])), map["a" := Projection("a", 0, [Fail])]),
    Native(map["a" := [FIRST]], map["a" := 1]), map[], false)

  lemma LoadFails()
    ensures Reaches(INITIAL, FAILED_LOAD, FAILED)
  {
    var s1 := Next(INITIAL, Persist(FIRST));
    assert [] + [FIRST] == [FIRST];
    var s2 := Next(s1, Deliver("a"));
    var s3 := Next(s2, Reconcile("a", false, None));
    assert s3.flights == map[1 := Flight("a", 1, 1, None)];
    assert [] + [Fail] == [Fail];
    assert Next(s3, LoadFailed(1)) == FAILED;
    ReachesStep(s3, LoadFailed(1), [], FAILED);
    ReachesStep(s2, Reconcile("a", false, None), [LoadFailed(1)] + [], FAILED);
    ReachesStep(s1, Deliver("a"), [Reconcile("a", false, None)] + ([LoadFailed(1)] + []), FAILED);
    ReachesStep(INITIAL, Persist(FIRST), [Deliver("a")] + ([Reconcile("a", false, None)] + ([LoadFailed(1)] + [])), FAILED);
  }

  /** Nothing waits for the task, and it can be lost for good if it is left now. */
  ghost predicate CanBeLost(run: seq<Step>) {
    && Possible(INITIAL, run) && AllOrdinary(INITIAL, run)
    && var s := After(INITIAL, run);
      && s.r.task == "a" && Waiting(s.r) == []
      && exists more :: Loses(Next(s, Reconcile("b", false, None)), more, "a")
  }

  lemma LostFrom(run: seq<Step>, s: State)
    requires Reaches(INITIAL, run, s) && s.r.task == "a" && Waiting(s.r) == [] && !LeavesUpToDate(s)
    ensures CanBeLost(run)
  {
    LeavingLosesExactly(run, Reconcile("b", false, None));
  }

  lemma FailedLoadLosesAnEvent()
    ensures CanBeLost(FAILED_LOAD)
  {
    LoadFails();
    LostFrom(FAILED_LOAD, FAILED);
  }

  /** The first event of "a" is folded at once; the second waits for the frame, which fires during a first load. */
  const FRAME_DURING_LOAD: seq<Step> :=
    [Seed("a")] + ([Persist(FIRST)] + ([Deliver("a")] + ([Persist(STREAMED)] + ([Deliver("a")]
    + ([Reconcile("a", true, None)] + ([Frame] + []))))))

  const FRAMED := State(
    Renderer(2, false, "a", [], [], Some(Projection("a", 2, [Fold(STREAMED)])), map["a" := Projection("a", 2, [Fold(STREAMED)])]),
    Native(map["a" := [FIRST, STREAMED]], map["a" := 2]), map[2 := Flight("a", 2, 2, None)], false)

  const FOLDED := State(
    Renderer(1, true, "a", [], [], Some(Projection("a", 1, [Fold(FIRST)])), map["a" := Projection("a", 1, [Fold(FIRST)])]),
    Native(map["a" := [FIRST]], map["a" := 1]), map[], false)

  lemma FirstIsFolded(rest: seq<Step>, t: State)
    requires Reaches(FOLDED, rest, t)
    ensures Reaches(INITIAL, [Seed("a")] + ([Persist(FIRST)] + ([Deliver("a")] + rest)), t)
  {
    var s1 := Next(INITIAL, Seed("a"));
    assert [] + [FIRST] == [FIRST];
    var s2 := Next(s1, Persist(FIRST));
    assert NewFor([FIRST], "a", 0) == [] + [FIRST];
    assert Batch(Create("a"), [FIRST]) == Apply(Batch(Create("a"), []), FIRST);
    assert [] + [Fold(FIRST)] == [Fold(FIRST)];
    assert Next(s2, Deliver("a")) == FOLDED;
    ReachesStep(s2, Deliver("a"), rest, t);
    ReachesStep(s1, Persist(FIRST), [Deliver("a")] + rest, t);
    ReachesStep(INITIAL, Seed("a"), [Persist(FIRST)] + ([Deliver("a")] + rest), t);
  }

  const STREAMING := State(
    Renderer(1, true, "a", [], [STREAMED], Some(Projection("a", 1, [Fold(FIRST)])), map["a" := Projection("a", 1, [Fold(FIRST)])]),
    Native(map["a" := [FIRST, STREAMED]], map["a" := 2]), map[], false)

  lemma SecondIsFramed(rest: seq<Step>, t: State)
    requires Reaches(STREAMING, rest, t)
    ensures Reaches(FOLDED, [Persist(STREAMED)] + ([Deliver("a")] + rest), t)
  {
    var s := Next(FOLDED, Persist(STREAMED));
    assert [FIRST] + [STREAMED] == [FIRST, STREAMED];
    assert [] + [STREAMED] == [STREAMED];
    assert Next(s, Deliver("a")) == STREAMING;
    ReachesStep(s, Deliver("a"), rest, t);
    ReachesStep(FOLDED, Persist(STREAMED), [Deliver("a")] + rest, t);
  }

  lemma FrameFires()
    ensures Reaches(INITIAL, FRAME_DURING_LOAD, FRAMED)
  {
    var s := Next(STREAMING, Reconcile("a", true, None));
    assert NewFor([STREAMED], "a", 0) == [] + [STREAMED];
    assert Batch(Create("a"), [STREAMED]) == Apply(Batch(Create("a"), []), STREAMED);
    assert [] + [Fold(STREAMED)] == [Fold(STREAMED)];
    assert Next(s, Frame) == FRAMED;
    ReachesStep(s, Frame, [], FRAMED);
    ReachesStep(STREAMING, Reconcile("a", true, None), [Frame] + [], FRAMED);
    SecondIsFramed([Reconcile("a", true, None)] + ([Frame] + []), FRAMED);
    FirstIsFolded([Persist(STREAMED)] + ([Deliver("a")] + ([Reconcile("a", true, None)] + ([Frame] + []))), FRAMED);
  }

  /** A state that has only the second of two events is not up to date. */
  lemma FirstIsMissing(s: State, e: Event)
    requires s.r.task == "a" && Get(s.r.cache, "a") == Some(Projection("a", 2, [Fold(e)]))
    requires LogOf(s.native, "a") == [FIRST, e] && e != FIRST
    ensures !LeavesUpToDate(s)
  {
    FoldedSnoc([], Fold(e));
    assert [] + [Fold(e)] == [Fold(e)] && Folded([Fold(e)]) == [] + [e];
    assert Folded([Fold(e)])[0] == e && [FIRST, e][0] == FIRST;
  }

  lemma FrameDuringLoadLosesAnEvent()
    ensures CanBeLost(FRAME_DURING_LOAD)
  {
    FrameFires();
    FirstIsMissing(FRAMED, STREAMED);
    LostFrom(FRAME_DURING_LOAD, FRAMED);
  }

  /** After its first event "a" is deselected for a new chat, and goes on. */
  const NEW_CHAT: seq<Step> :=
    [Seed("a")] + ([Persist(FIRST)] + ([Deliver("a")] + ([Clear] + ([Persist(SECOND)] + ([Deliver("a")] + [])))))

  const DESELECTED := State(
    Renderer(1, true, "a", [], [], Some(Projection("a", 2, [Fold(SECOND)])), map["a" := Projection("a", 2, [Fold(SECOND)])]),
    Native(map["a" := [FIRST, SECOND]], map["a" := 2]), map[], true)

  lemma NewChatGoesOn()
    ensures Reaches(INITIAL, NEW_CHAT, DESELECTED)
  {
    var s4 := Next(FOLDED, Clear);
    var s5 := Next(s4, Persist(SECOND));
    assert [FIRST] + [SECOND] == [FIRST, SECOND];
    assert [] + [SECOND] == [SECOND];
    assert NewFor([SECOND], "a", 0) == [] + [SECOND];
    assert Batch(Create("a"), [SECOND]) == Apply(Batch(Create("a"), []), SECOND);
    assert [] + [Fold(SECOND)] == [Fold(SECOND)];
    assert Next(s5, Deliver("a")) == DESELECTED;
    ReachesStep(s5, Deliver("a"), [], DESELECTED);
    ReachesStep(s4, Persist(SECOND), [Deliver("a")] + [], DESELECTED);
    ReachesStep(FOLDED, Clear, [Persist(SECOND)] + ([Deliver("a")] + []), DESELECTED);
    FirstIsFolded([Clear] + ([Persist(SECOND)] + ([Deliver("a")] + [])), DESELECTED);
  }

  lemma NewChatLosesAnEvent()
    ensures CanBeLost(NEW_CHAT)
  {
    NewChatGoesOn();
    FirstIsMissing(DESELECTED, SECOND);
    LostFrom(NEW_CHAT, DESELECTED);
  }

  /** "a" is displayed and its first event is buffered when it is left. */
  const ABANDONED: seq<Step> :=
    [Reconcile("a", false, None)] + ([DisplayLoaded(1, 0)] + ([Persist(FIRST)] + ([Deliver("a")] + [])))

  const BUFFERED := State(
    Renderer(1, false, "a", [FIRST], [], Some(Create("a")), map["a" := Create("a")]),
    Native(map["a" := [FIRST]], map["a" := 1]), map[1 := Flight("a", 0, 0, Some(Create("a")))], false)

  lemma FirstIsBuffered()
    ensures Reaches(INITIAL, ABANDONED, BUFFERED)
  {
    var s1 := Next(INITIAL, Reconcile("a", false, None));
    assert Snapshot([], "a", 0) == Create("a");
    var s2 := Next(s1, DisplayLoaded(1, 0));
    assert s2.r == Renderer(1, false, "a", [], [], Some(Create("a")), map["a" := Create("a")]);
    assert [] + [FIRST] == [FIRST];
    var s3 := Next(s2, Persist(FIRST));
    assert s3.native == Native(map["a" := [FIRST]], map[]);
    assert Next(s3, Deliver("a")) == BUFFERED;
    ReachesStep(s3, Deliver("a"), [], BUFFERED);
    ReachesStep(s2, Persist(FIRST), [Deliver("a")] + [], BUFFERED);
    ReachesStep(s1, DisplayLoaded(1, 0), [Persist(FIRST)] + ([Deliver("a")] + []), BUFFERED);
    ReachesStep(INITIAL, Reconcile("a", false, None), [DisplayLoaded(1, 0)] + ([Persist(FIRST)] + ([Deliver("a")] + [])), BUFFERED);
  }

  lemma AbandonedHydrationLosesAnEvent()
    ensures Possible(INITIAL, ABANDONED) && AllOrdinary(INITIAL, ABANDONED)
    ensures
      var s := After(INITIAL, ABANDONED);
      s.r.task == "a" && exists more :: Loses(Next(s, Reconcile("b", false, None)), more, "a")
  {
    FirstIsBuffered();
    LeavingLosesExactly(ABANDONED, Reconcile("b", false, None));
  }
}
