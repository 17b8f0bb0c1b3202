/**
 * Snapshot-plus-log hydration of a task's projection
 * (apps/desktop/src/App.tsx:2097-2232, 2271-2309, 2431-2461, 2516-2558, 3511-3517, 3609).
 */
module Hydration {
  // Each stretch of the renderer between two awaits is one step. The native side
  // appends to a task's log before it delivers an event, and answers a load with
  // a snapshot of a prefix of the log no shorter than it was when the load began.

  import opened Common
  import opened Projections
  import opened Sorting

  /** The projection refs of the component; an animation frame is due while `frame` is not empty. */
  datatype Renderer = Renderer(
    generation: nat, ready: bool, task: string, buffer: seq<Event>, frame: seq<Event>,
    runtime: Option<Projection>, cache: map<string, Projection>)

  // ---- the synchronous stretches --------------------------------------------

  function OnTask(events: seq<Event>, task: string): seq<Event> {
    NewFor(events, task, 0)
  }

  /** `applyLiveProjectionBatch`. Sequence numbers start above zero. */
  function Live(r: Renderer, events: seq<Event>): Renderer {
    var applicable := OnTask(events, r.task);
    if applicable == [] then r
    else
      var next := Batch(r.runtime.GetOr(Create(r.task)), applicable);
      r.(runtime := Some(next), cache := r.cache[r.task := next])
  }

  /** `flushFrameEvents`. */
  function Flushed(r: Renderer): Renderer {
    Live(r.(frame := []), r.frame)
  }

  /** The subscription callback, up to the reconciliation a reset starts. */
  function Received(r: Renderer, e: Event): Renderer {
    if e.task != r.task then
      if e.task in r.cache then r.(cache := r.cache[e.task := Apply(r.cache[e.task], e)]) else r
    else if !r.ready then r.(buffer := r.buffer + [e])
    else if e.batchable then r.(frame := r.frame + [e])
    else Live(r.(frame := []), r.frame + [e])
  }

  predicate StartsReset(r: Renderer, e: Event) {
    e.task == r.task && r.ready && !e.batchable && e.reset
  }

  /** `reconcileTaskProjection` up to its first await. */
  function Began(r: Renderer, task: string, preserve: bool, cached: Option<Projection>): Renderer {
    r.(generation := r.generation + 1, ready := false, task := task,
       buffer := if preserve then r.buffer else [], runtime := cached)
  }

  /** The persisted display state arrived. */
  function Displayed(r: Renderer, generation: nat, task: string, display: Projection): Renderer {
    if generation != r.generation then r
    else r.(cache := r.cache[task := display], runtime := Some(display))
  }

  /** The state a reconciliation commits: the loaded base plus the newer buffered events. */
  function Merged(base: Projection, buffer: seq<Event>, task: string, watermark: nat, settle: bool): Projection {
    var next := Batch(base, Sorted(NewFor(buffer, task, watermark)));
    if settle then next.(ops := next.ops + [Settle]) else next
  }

  /** The second load arrived; `settle` says whether the connection or turn is shown as ended. */
  function Committed(
    r: Renderer, generation: nat, task: string, base: Projection, watermark: nat, settle: bool): Renderer
  {
    if generation != r.generation then r
    else
      var next := Merged(base, r.buffer, task, watermark, settle);
      r.(buffer := [], ready := true, cache := r.cache[task := next], runtime := Some(next))
  }

  /** The `catch`. */
  function Broken(r: Renderer, generation: nat, task: string, display: Option<Projection>): Renderer {
    if generation != r.generation then r
    else
      var shown := display.GetOr(Create(task));
      var failed := shown.(ops := shown.ops + [Fail]);
      r.(ready := false, cache := r.cache[task := failed], runtime := Some(failed))
  }

  /** `appendTask`: a just-created task has no events and is ready at once. */
  function Seeded(r: Renderer, task: string): Renderer {
    r.(generation := r.generation + 1, buffer := [], task := task, ready := true,
       cache := r.cache[task := Create(task)], runtime := Some(Create(task)))
  }

  /** Startup shows the restored task, not yet ready, before it loads the task's persisted state. */
  function Restoring(r: Renderer, task: string): Renderer {
    r.(task := task, ready := false)
  }

  /** That load ended, with nothing when it failed: the task is reconciled from it, its buffer kept. */
  function Restored(r: Renderer, task: string, loaded: Option<Projection>): Renderer {
    Began(Kept(r, task, loaded), task, true, loaded)
  }

  function Kept(r: Renderer, task: string, loaded: Option<Projection>): Renderer {
    if loaded.Some? then r.(cache := r.cache[task := loaded.value], runtime := loaded) else r
  }

  /** The cache entry of an archived or deleted task goes, were it the shown one's. */
  function Evicted(r: Renderer, task: string): Renderer {
    r.(cache := r.cache - {task})
  }

  /** `setRuntimeState(null)`, when no task is selected any more: the projection goes on under the shown one. */
  function Cleared(r: Renderer): Renderer {
    r.(runtime := None)
  }

  // ---- runs -----------------------------------------------------------------

  // The startup load is flight 0, which no generation guards.

  /**
   * A reconciliation in flight. `since` counts the task's events delivered when
   * it began, `floor` the events persisted when its current load began.
   */
  datatype Flight = Flight(task: string, since: nat, floor: nat, display: Option<Projection>)

  /** What is persisted per task, and how much of it has reached the renderer. */
  datatype Native = Native(logs: map<string, seq<Event>>, delivered: map<string, nat>)

  /** `cleared`: the shown state was set to null after it was last committed or seeded. */
  datatype State = State(r: Renderer, native: Native, flights: map<nat, Flight>, cleared: bool)

  datatype Step =
    | Persist(event: Event)
    | Deliver(task: string)
    | Frame
    | Reconcile(task: string, preserve: bool, cached: Option<Projection>)
    | DisplayLoaded(generation: nat, n: nat)
    | DeltaLoaded(generation: nat, n: nat, matched: bool, settle: bool)
    | LoadFailed(generation: nat)
    | Seed(task: string)
    | Restore(task: string)
    | RestoreLoaded(n: nat)
    | RestoreFailed
    | Evict(task: string)
    | Clear

  const INITIAL := State(Renderer(0, false, "", [], [], None, map[]), Native(map[], map[]), map[], false)

  function LogOf(n: Native, task: string): seq<Event> {
    Get(n.logs, task).GetOr([])
  }

  function DeliveredOf(n: Native, task: string): nat {
    Get(n.delivered, task).GetOr(0)
  }

  /** The sequence number of the last reset among events, or 0: the reset epoch. */
  function Epoch(events: seq<Event>): nat {
    if events == [] then 0
    else if events[|events| - 1].reset then events[|events| - 1].order
    else Epoch(events[..|events| - 1])
  }

  /** The native side finds a display unchanged: its watermark and its reset epoch are those of the first `n` events. */
  predicate Unchanged(display: Projection, log: seq<Event>, n: nat)
    requires n <= |log|
  {
    display.lastSeq == Watermark(log, n) && Epoch(Folded(display.ops)) == Epoch(log[..n])
  }

  predicate Enabled(s: State, step: Step) {
    match step
    case Persist(e) => e.order > Watermark(LogOf(s.native, e.task), |LogOf(s.native, e.task)|)
    case Deliver(task) => DeliveredOf(s.native, task) < |LogOf(s.native, task)|
    case Frame => true
    case Reconcile(_, _, _) => true
    case DisplayLoaded(g, n) =>
      g in s.flights && g > 0 && s.flights[g].display.None? && s.flights[g].floor <= n <= |LogOf(s.native, s.flights[g].task)|
    case DeltaLoaded(g, n, matched, _) =>
      && g in s.flights && g > 0 && s.flights[g].display.Some?
      && s.flights[g].floor <= n <= |LogOf(s.native, s.flights[g].task)|
      && (matched <==> Unchanged(s.flights[g].display.value, LogOf(s.native, s.flights[g].task), n))
    case LoadFailed(g) => g in s.flights && g > 0
    case Seed(task) => LogOf(s.native, task) == [] && DeliveredOf(s.native, task) == 0
    case Restore(_) => s.r.generation == 0 && 0 !in s.flights
    case RestoreLoaded(n) => 0 in s.flights && s.flights[0].floor <= n <= |LogOf(s.native, s.flights[0].task)|
    case RestoreFailed => 0 in s.flights
    case Evict(_) => true
    case Clear => true
  }

  function Persisted(n: Native, e: Event): Native {
    n.(logs := n.logs[e.task := LogOf(n, e.task) + [e]])
  }

  function Counted(n: Native, task: string): Native {
    n.(delivered := n.delivered[task := DeliveredOf(n, task) + 1])
  }

  function Begin(s: State, task: string, preserve: bool, cached: Option<Projection>): State {
    var r := Began(s.r, task, preserve, cached);
    s.(r := r,
       flights := s.flights[r.generation := Flight(task, DeliveredOf(s.native, task), |LogOf(s.native, task)|, cached)])
  }

  function AfterRestore(s: State, task: string, loaded: Option<Projection>): State {
    Begin(s.(r := Kept(s.r, task, loaded), flights := s.flights - {0}), task, true, loaded)
  }

  function Next(s: State, step: Step): State
    requires Enabled(s, step)
  {
    match step
    case Persist(e) => s.(native := Persisted(s.native, e))
    case Deliver(task) =>
      var e := LogOf(s.native, task)[DeliveredOf(s.native, task)];
      var t := s.(r := Received(s.r, e), native := Counted(s.native, task));
      if StartsReset(s.r, e) then Begin(t, e.task, false, None) else t
    case Frame => s.(r := Flushed(s.r))
    case Reconcile(task, preserve, cached) => Begin(s, task, preserve, cached)
    case DisplayLoaded(g, n) =>
      var f := s.flights[g];
      var display := Snapshot(LogOf(s.native, f.task), f.task, n);
      s.(r := Displayed(s.r, g, f.task, display),
         flights := if g == s.r.generation
                    then s.flights[g := f.(display := Some(display), floor := |LogOf(s.native, f.task)|)]
                    else s.flights - {g})
    case DeltaLoaded(g, n, matched, settle) =>
      var f := s.flights[g];
      var log := LogOf(s.native, f.task);
      var base := if matched then f.display.value else Snapshot(log, f.task, n);
      s.(r := Committed(s.r, g, f.task, base, Watermark(log, n), settle), flights := s.flights - {g},
         cleared := s.cleared && g != s.r.generation)
    case LoadFailed(g) =>
      s.(r := Broken(s.r, g, s.flights[g].task, s.flights[g].display), flights := s.flights - {g})
    case Seed(task) => s.(r := Seeded(s.r, task), cleared := false)
    case Restore(task) =>
      s.(r := Restoring(s.r, task),
         flights := s.flights[0 := Flight(task, DeliveredOf(s.native, task), |LogOf(s.native, task)|, None)])
    case RestoreLoaded(n) =>
      var task := s.flights[0].task;
      AfterRestore(s, task, Some(Snapshot(LogOf(s.native, task), task, n)))
    case RestoreFailed => AfterRestore(s, s.flights[0].task, None)
    case Evict(task) => s.(r := Evicted(s.r, task))
    case Clear => s.(r := Cleared(s.r), cleared := true)
  }

  predicate Possible(s: State, run: seq<Step>)
    decreases |run|
  {
    run == [] || (Enabled(s, run[0]) && Possible(Next(s, run[0]), run[1..]))
  }

  function After(s: State, run: seq<Step>): State
    requires Possible(s, run)
    decreases |run|
  {
    if run == [] then s else After(Next(s, run[0]), run[1..])
  }

  // ---- invariant ------------------------------------------------------------

  ghost predicate TaskOk(n: Native, task: string) {
    LogOk(LogOf(n, task), task) && DeliveredOf(n, task) <= |LogOf(n, task)|
  }

  ghost predicate LogsOk(n: Native) {
    forall task :: TaskOk(n, task)
  }

  /** The watermark of what a task has been delivered. */
  ghost function Reached(n: Native, task: string): nat
    requires LogsOk(n)
  {
    assert TaskOk(n, task);
    Watermark(LogOf(n, task), DeliveredOf(n, task))
  }

  /** Buffered and framed events have been delivered. */
  ghost predicate Known(n: Native, events: seq<Event>)
    requires LogsOk(n)
  {
    forall e :: e in events ==> e.order <= Reached(n, e.task)
  }

  ghost predicate FlightOk(s: State, g: nat, f: Flight)
    requires LogsOk(s.native)
  {
    var log := LogOf(s.native, f.task);
    assert TaskOk(s.native, f.task);
    && g <= s.r.generation
    && f.since <= f.floor <= |log| && f.since <= DeliveredOf(s.native, f.task)
    && (g == s.r.generation ==>
          && f.task == s.r.task && !s.r.ready
          && NewFor(s.r.buffer, f.task, Watermark(log, f.since)) == Between(log, f.since, DeliveredOf(s.native, f.task)))
  }

  /** What every run keeps, whatever states it caches. */
  ghost predicate Base(s: State) {
    && LogsOk(s.native)
    && Known(s.native, s.r.buffer) && Known(s.native, s.r.frame)
    && forall g :: g in s.flights ==> FlightOk(s, g, s.flights[g])
  }

  /**
   * A ready task shows exactly a prefix of its log, and its framed events are
   * exactly the delivered rest.
   */
  ghost predicate ReadyOk(s: State)
    requires LogsOk(s.native)
  {
    assert TaskOk(s.native, s.r.task);
    s.r.ready && !s.cleared ==>
      && s.r.runtime.Some? && (s.r.task in s.r.cache ==> s.r.cache[s.r.task] == s.r.runtime.value)
      && var p := s.r.runtime.value;
        var log := LogOf(s.native, s.r.task);
        && Exact(p, log, s.r.task)
        && NewFor(s.r.frame, s.r.task, p.lastSeq) == Between(log, |Folded(p.ops)|, DeliveredOf(s.native, s.r.task))
  }

  /** What the current reconciliation displays. */
  function DisplayOf(s: State): Option<Projection> {
    if s.r.generation in s.flights then s.flights[s.r.generation].display else None
  }

  /** The shown task is exact: what its reconciliation displays, and its state once ready. */
  ghost predicate ShownOk(s: State)
    requires LogsOk(s.native)
  {
    && (DisplayOf(s).Some? ==> Exact(DisplayOf(s).value, LogOf(s.native, s.r.task), s.r.task))
    && ReadyOk(s)
  }

  ghost predicate Inv(s: State) {
    Base(s) && ShownOk(s)
  }

  /** A cached state handed to a reconciliation has folded exactly a prefix of its task's log. */
  ghost predicate Faithful(s: State, step: Step) {
    step.Reconcile? && step.cached.Some? ==> Exact(step.cached.value, LogOf(s.native, step.task), step.task)
  }

  lemma BatchOnTask(p: Projection, events: seq<Event>)
    ensures Batch(p, OnTask(events, p.task)) == Batch(p, NewFor(events, p.task, p.lastSeq))
  {
    BatchSkipsOld(p, OnTask(events, p.task));
    NewForTwice(events, p.task, 0, p.lastSeq);
  }

  lemma LiveWrites(r: Renderer, events: seq<Event>)
    requires r.runtime.Some? && (r.task in r.cache ==> r.cache[r.task] == r.runtime.value)
    ensures
      var next := Live(r, events);
      && next.(runtime := r.runtime, cache := r.cache) == r
      && next.runtime == Some(Batch(r.runtime.value, OnTask(events, r.task)))
      && (r.task in next.cache ==> next.cache[r.task] == next.runtime.value)
      && forall other :: other != r.task ==> Get(next.cache, other) == Get(r.cache, other)
  {
  }

  /** Applying everything framed brings an exact state up to the delivered log. */
  lemma LiveIsExact(r: Renderer, events: seq<Event>, log: seq<Event>, d: nat)
    requires LogOk(log, r.task) && d <= |log|
    requires r.runtime.Some? && (r.task in r.cache ==> r.cache[r.task] == r.runtime.value)
    requires Exact(r.runtime.value, log, r.task)
    requires NewFor(events, r.task, r.runtime.value.lastSeq) == Between(log, |Folded(r.runtime.value.ops)|, d)
    ensures
      var next := Live(r, events);
      && next.(runtime := r.runtime, cache := r.cache) == r
      && next.runtime.Some? && (r.task in next.cache ==> next.cache[r.task] == next.runtime.value)
      && Exact(next.runtime.value, log, r.task)
      && |Folded(next.runtime.value.ops)| >= d
      && forall other :: other != r.task ==> Get(next.cache, other) == Get(r.cache, other)
  {
    var p := r.runtime.value;
    LiveWrites(r, events);
    BatchOnTask(p, events);
    BatchFromLog(p, log, r.task, d);
    NewForTwice(events, r.task, 0, p.lastSeq);
  }

  lemma LogsPersisted(n: Native, e: Event)
    requires LogsOk(n) && e.order > Watermark(LogOf(n, e.task), |LogOf(n, e.task)|)
    ensures LogsOk(Persisted(n, e))
    ensures forall task :: Reached(Persisted(n, e), task) == Reached(n, task)
  {
    var m := Persisted(n, e);
    forall task
      ensures TaskOk(m, task)
    {
      assert TaskOk(n, task);
    }
    forall task
      ensures Reached(m, task) == Reached(n, task)
    {
      assert TaskOk(n, task);
    }
  }

  lemma FlightPersisted(s: State, e: Event, g: nat)
    requires Base(s) && Enabled(s, Persist(e)) && g in s.flights
    requires LogsOk(Persisted(s.native, e))
    ensures FlightOk(Next(s, Persist(e)), g, s.flights[g])
  {
    assert FlightOk(s, g, s.flights[g]) && TaskOk(s.native, s.flights[g].task);
  }

  lemma BasePersist(s: State, e: Event)
    requires Base(s) && Enabled(s, Persist(e))
    ensures Base(Next(s, Persist(e)))
  {
    LogsPersisted(s.native, e);
    forall g | g in s.flights
      ensures FlightOk(Next(s, Persist(e)), g, s.flights[g])
    {
      FlightPersisted(s, e, g);
    }
  }

  lemma BaseFrame(s: State)
    requires Base(s)
    ensures Base(Next(s, Frame))
  {
    forall g | g in s.flights
      ensures FlightOk(Next(s, Frame), g, s.flights[g])
    {
      assert FlightOk(s, g, s.flights[g]);
    }
  }

  lemma WatermarkGrows(log: seq<Event>, task: string, m: nat, n: nat)
    requires LogOk(log, task) && m <= n <= |log|
    ensures Watermark(log, m) <= Watermark(log, n)
  {
  }

  lemma NothingNew(native: Native, events: seq<Event>, task: string, n: nat)
    requires LogsOk(native) && Known(native, events) && DeliveredOf(native, task) <= n <= |LogOf(native, task)|
    ensures NewFor(events, task, Watermark(LogOf(native, task), n)) == []
  {
    assert TaskOk(native, task);
    WatermarkGrows(LogOf(native, task), task, DeliveredOf(native, task), n);
    assert forall e :: e in events && e.task == task ==> e.order <= Reached(native, task);
    NewForNothing(events, task, Watermark(LogOf(native, task), n));
  }

  lemma BaseBegin(s: State, task: string, preserve: bool, cached: Option<Projection>)
    requires Base(s)
    ensures Base(Begin(s, task, preserve, cached))
  {
    var t := Begin(s, task, preserve, cached);
    assert TaskOk(s.native, task);
    NothingNew(t.native, t.r.buffer, task, DeliveredOf(t.native, task));
    forall g | g in t.flights
      ensures FlightOk(t, g, t.flights[g])
    {
      assert g in s.flights && g != t.r.generation ==> FlightOk(s, g, s.flights[g]);
    }
  }

  /** Delivery before the reset's reconciliation, if any, begins. */
  function DeliverOnly(s: State, task: string): State
    requires Enabled(s, Deliver(task))
  {
    s.(r := Received(s.r, LogOf(s.native, task)[DeliveredOf(s.native, task)]),
       native := Counted(s.native, task))
  }

  lemma DeliveredFlight(s: State, task: string, g: nat)
    requires Base(s) && Enabled(s, Deliver(task)) && g in s.flights
    requires LogsOk(DeliverOnly(s, task).native)
    ensures FlightOk(DeliverOnly(s, task), g, s.flights[g])
  {
    var f := s.flights[g];
    var log := LogOf(s.native, task);
    var d := DeliveredOf(s.native, task);
    assert FlightOk(s, g, f) && TaskOk(s.native, task);
    if g == s.r.generation && task == f.task {
      OneMoreFor(s.r.buffer, log, task, d, f.since);
    }
  }

  lemma LogsCounted(n: Native, task: string)
    requires LogsOk(n) && DeliveredOf(n, task) < |LogOf(n, task)|
    ensures LogsOk(Counted(n, task))
    ensures forall u :: Reached(n, u) <= Reached(Counted(n, task), u)
    ensures LogOf(n, task)[DeliveredOf(n, task)].task == task
    ensures LogOf(n, task)[DeliveredOf(n, task)].order == Reached(Counted(n, task), task)
  {
    var m := Counted(n, task);
    assert TaskOk(n, task);
    forall u
      ensures TaskOk(m, u)
    {
      assert TaskOk(n, u);
    }
    forall u
      ensures Reached(n, u) <= Reached(m, u)
    {
      assert TaskOk(n, u);
      WatermarkGrows(LogOf(n, u), u, DeliveredOf(n, u), DeliveredOf(m, u));
    }
  }

  lemma DeliveredKnown(s: State, task: string)
    requires Base(s) && Enabled(s, Deliver(task)) && LogsOk(DeliverOnly(s, task).native)
    ensures Known(DeliverOnly(s, task).native, DeliverOnly(s, task).r.buffer)
    ensures Known(DeliverOnly(s, task).native, DeliverOnly(s, task).r.frame)
  {
    var t := DeliverOnly(s, task);
    var e := LogOf(s.native, task)[DeliveredOf(s.native, task)];
    LogsCounted(s.native, task);
    assert forall x :: x in t.r.buffer ==> x in s.r.buffer || x == e;
    assert forall x :: x in t.r.frame ==> x in s.r.frame || x == e;
  }

  lemma BaseDeliverOnly(s: State, task: string)
    requires Base(s) && Enabled(s, Deliver(task))
    ensures Base(DeliverOnly(s, task))
  {
    LogsCounted(s.native, task);
    DeliveredKnown(s, task);
    forall g | g in s.flights
      ensures FlightOk(DeliverOnly(s, task), g, s.flights[g])
    {
      DeliveredFlight(s, task, g);
    }
  }

  lemma BaseDeliver(s: State, task: string)
    requires Base(s) && Enabled(s, Deliver(task))
    ensures Base(Next(s, Deliver(task)))
  {
    BaseDeliverOnly(s, task);
    var e := LogOf(s.native, task)[DeliveredOf(s.native, task)];
    if StartsReset(s.r, e) {
      BaseBegin(DeliverOnly(s, task), e.task, false, None);
    }
  }

  lemma BaseAnswer(s: State, step: Step)
    requires Base(s) && Enabled(s, step) && (step.DisplayLoaded? || step.DeltaLoaded? || step.LoadFailed?)
    ensures Base(Next(s, step))
  {
    var t := Next(s, step);
    assert FlightOk(s, step.generation, s.flights[step.generation]);
    forall g | g in t.flights
      ensures FlightOk(t, g, t.flights[g])
    {
      assert FlightOk(s, g, s.flights[g]);
    }
  }

  lemma BaseSeed(s: State, task: string)
    requires Base(s) && Enabled(s, Seed(task))
    ensures Base(Next(s, Seed(task)))
  {
    forall g | g in s.flights
      ensures FlightOk(Next(s, Seed(task)), g, s.flights[g])
    {
      assert FlightOk(s, g, s.flights[g]);
    }
  }

  lemma BaseRestore(s: State, task: string)
    requires Base(s) && Enabled(s, Restore(task))
    ensures Base(Next(s, Restore(task)))
  {
    var t := Next(s, Restore(task));
    assert TaskOk(s.native, task);
    NothingNew(t.native, t.r.buffer, task, DeliveredOf(t.native, task));
    forall g | g in t.flights
      ensures FlightOk(t, g, t.flights[g])
    {
      assert g in s.flights ==> FlightOk(s, g, s.flights[g]);
    }
  }

  lemma BaseAfterRestore(s: State, task: string, loaded: Option<Projection>)
    requires Base(s)
    ensures Base(AfterRestore(s, task, loaded))
  {
    var t := s.(r := Kept(s.r, task, loaded), flights := s.flights - {0});
    forall g | g in t.flights
      ensures FlightOk(t, g, t.flights[g])
    {
      assert FlightOk(s, g, s.flights[g]);
    }
    BaseBegin(t, task, true, loaded);
  }

  lemma BaseShown(s: State, step: Step)
    requires Base(s) && Enabled(s, step) && (step.Evict? || step.Clear?)
    ensures Base(Next(s, step))
  {
    forall g | g in s.flights
      ensures FlightOk(Next(s, step), g, s.flights[g])
    {
      assert FlightOk(s, g, s.flights[g]);
    }
  }

  lemma BaseNext(s: State, step: Step)
    requires Base(s) && Enabled(s, step)
    ensures Base(Next(s, step))
  {
    match step
    case Persist(e) => BasePersist(s, e);
    case Deliver(task) => BaseDeliver(s, task);
    case Frame => BaseFrame(s);
    case Reconcile(task, preserve, cached) => BaseBegin(s, task, preserve, cached);
    case DisplayLoaded(_, _) => BaseAnswer(s, step);
    case DeltaLoaded(_, _, _, _) => BaseAnswer(s, step);
    case LoadFailed(_) => BaseAnswer(s, step);
    case Seed(task) => BaseSeed(s, task);
    case Restore(task) => BaseRestore(s, task);
    case RestoreLoaded(n) => BaseAfterRestore(s, s.flights[0].task, Some(Snapshot(LogOf(s.native, s.flights[0].task), s.flights[0].task, n)));
    case RestoreFailed => BaseAfterRestore(s, s.flights[0].task, None);
    case Evict(_) => BaseShown(s, step);
    case Clear => BaseShown(s, step);
  }

  // ---- the shown task -------------------------------------------------------

  lemma FramedReady(s: State, task: string)
    requires Inv(s) && Enabled(s, Deliver(task)) && LogsOk(DeliverOnly(s, task).native)
    requires s.r.ready && task == s.r.task && LogOf(s.native, task)[DeliveredOf(s.native, task)].batchable
    ensures ReadyOk(DeliverOnly(s, task))
  {
    assert TaskOk(s.native, task);
    if !s.cleared {
      OneMoreFor(s.r.frame, LogOf(s.native, task), task, DeliveredOf(s.native, task), |Folded(s.r.runtime.value.ops)|);
    }
  }

  lemma AppliedReady(s: State, task: string)
    requires Inv(s) && Enabled(s, Deliver(task)) && LogsOk(DeliverOnly(s, task).native)
    requires s.r.ready && task == s.r.task && !LogOf(s.native, task)[DeliveredOf(s.native, task)].batchable
    ensures ReadyOk(DeliverOnly(s, task))
  {
    assert TaskOk(s.native, task);
    if !s.cleared {
      var log := LogOf(s.native, task);
      var d := DeliveredOf(s.native, task);
      OneMoreFor(s.r.frame, log, task, d, |Folded(s.r.runtime.value.ops)|);
      LiveIsExact(s.r.(frame := []), s.r.frame + [log[d]], log, d + 1);
    }
  }

  lemma DeliveredReady(s: State, task: string)
    requires Inv(s) && Enabled(s, Deliver(task)) && LogsOk(DeliverOnly(s, task).native)
    ensures ReadyOk(DeliverOnly(s, task))
  {
    assert TaskOk(s.native, s.r.task);
    if s.r.ready && task == s.r.task {
      if LogOf(s.native, task)[DeliveredOf(s.native, task)].batchable {
        FramedReady(s, task);
      } else {
        AppliedReady(s, task);
      }
    } else {
      LogsCounted(s.native, task);
      var r := DeliverOnly(s, task).r;
      assert s.r.ready ==> r.(cache := s.r.cache) == s.r && Get(r.cache, s.r.task) == Get(s.r.cache, s.r.task);
    }
  }

  lemma ShownDeliver(s: State, task: string)
    requires Inv(s) && Enabled(s, Deliver(task))
    ensures LogsOk(Next(s, Deliver(task)).native) && ShownOk(Next(s, Deliver(task)))
  {
    LogsCounted(s.native, task);
    assert TaskOk(s.native, s.r.task);
    DeliveredReady(s, task);
    var e := LogOf(s.native, task)[DeliveredOf(s.native, task)];
    assert StartsReset(s.r, e) ==> DisplayOf(Next(s, Deliver(task))).None?;
  }

  lemma LogGrows(n: Native, e: Event, task: string)
    ensures LogOf(n, task) <= LogOf(Persisted(n, e), task)
    ensures DeliveredOf(Persisted(n, e), task) == DeliveredOf(n, task)
  {
  }

  lemma ExactInLongerLog(p: Projection, log: seq<Event>, more: seq<Event>, task: string)
    requires Exact(p, log, task) && log <= more
    ensures Exact(p, more, task)
  {
  }

  lemma ReadyPersist(s: State, e: Event)
    requires Inv(s) && Enabled(s, Persist(e)) && LogsOk(Persisted(s.native, e))
    ensures ReadyOk(Next(s, Persist(e)))
  {
    var log := LogOf(s.native, s.r.task);
    assert TaskOk(s.native, s.r.task);
    LogGrows(s.native, e, s.r.task);
    if s.r.ready && !s.cleared {
      var j, d := |Folded(s.r.runtime.value.ops)|, DeliveredOf(s.native, s.r.task);
      ExactInLongerLog(s.r.runtime.value, log, LogOf(Persisted(s.native, e), s.r.task), s.r.task);
      assert Between(LogOf(Persisted(s.native, e), s.r.task), j, d) == Between(log, j, d);
    }
  }

  lemma ShownPersist(s: State, e: Event)
    requires Inv(s) && Enabled(s, Persist(e))
    ensures LogsOk(Next(s, Persist(e)).native) && ShownOk(Next(s, Persist(e)))
  {
    LogsPersisted(s.native, e);
    ReadyPersist(s, e);
    LogGrows(s.native, e, s.r.task);
    if DisplayOf(s).Some? {
      ExactInLongerLog(DisplayOf(s).value, LogOf(s.native, s.r.task), LogOf(Persisted(s.native, e), s.r.task), s.r.task);
    }
  }

  lemma ShownFrame(s: State)
    requires Inv(s)
    ensures ShownOk(Next(s, Frame))
  {
    assert TaskOk(s.native, s.r.task);
    if s.r.ready && !s.cleared {
      LiveIsExact(s.r.(frame := []), s.r.frame, LogOf(s.native, s.r.task), DeliveredOf(s.native, s.r.task));
    }
  }

  lemma WatermarkIsCount(p: Projection, log: seq<Event>, task: string, n: nat)
    requires LogOk(log, task) && Exact(p, log, task) && n <= |log| && p.lastSeq == Watermark(log, n)
    ensures |Folded(p.ops)| == n
  {
  }

  /** What a current reconciliation commits is exact and has folded everything delivered. */
  lemma MergedIsExact(s: State, g: nat, n: nat, matched: bool, settle: bool)
    requires Inv(s) && Enabled(s, DeltaLoaded(g, n, matched, settle)) && g == s.r.generation
    ensures
      var f := s.flights[g];
      var log := LogOf(s.native, f.task);
      var base := if matched then f.display.value else Snapshot(log, f.task, n);
      var next := Merged(base, s.r.buffer, f.task, Watermark(log, n), settle);
      && Exact(next, log, f.task)
      && |Folded(next.ops)| == if n < DeliveredOf(s.native, f.task) then DeliveredOf(s.native, f.task) else n
  {
    var f := s.flights[g];
    var log := LogOf(s.native, f.task);
    var d := DeliveredOf(s.native, f.task);
    assert FlightOk(s, g, f) && TaskOk(s.native, f.task);
    SnapshotIsExact(log, f.task, n);
    var base := if matched then f.display.value else Snapshot(log, f.task, n);
    if matched {
      WatermarkIsCount(base, log, f.task, n);
    }
    NewForTwice(s.r.buffer, f.task, Watermark(log, f.since), Watermark(log, n));
    NewForLog(log, f.task, f.since, d, n);
    MergedFromLog(base, s.r.buffer, log, f.task, d, n, settle);
  }

  lemma MergedFromLog(base: Projection, buffer: seq<Event>, log: seq<Event>, task: string, d: nat, n: nat, settle: bool)
    requires LogOk(log, task) && Exact(base, log, task) && |Folded(base.ops)| == n && n <= |log| && d <= |log|
    requires NewFor(buffer, task, Watermark(log, n)) == Between(log, n, d)
    ensures
      var next := Merged(base, buffer, task, Watermark(log, n), settle);
      Exact(next, log, task) && |Folded(next.ops)| == if n < d then d else n
  {
    SortedIncreasing(Between(log, n, d));
    BatchFromLog(base, log, task, d);
    FoldedSnoc(Batch(base, Between(log, n, d)).ops, Settle);
  }

  lemma ShownDelta(s: State, g: nat, n: nat, matched: bool, settle: bool)
    requires Inv(s) && Enabled(s, DeltaLoaded(g, n, matched, settle))
    ensures ShownOk(Next(s, DeltaLoaded(g, n, matched, settle)))
  {
    var t := Next(s, DeltaLoaded(g, n, matched, settle));
    assert FlightOk(s, g, s.flights[g]);
    if g == s.r.generation {
      MergedIsExact(s, g, n, matched, settle);
      NothingNew(t.native, t.r.frame, t.r.task, |Folded(t.r.runtime.value.ops)|);
    }
  }

  lemma ShownAnswer(s: State, step: Step)
    requires Inv(s) && Enabled(s, step) && (step.DisplayLoaded? || step.LoadFailed?)
    ensures ShownOk(Next(s, step))
  {
    var f := s.flights[step.generation];
    assert FlightOk(s, step.generation, f);
    if step.DisplayLoaded? {
      SnapshotIsExact(LogOf(s.native, f.task), f.task, step.n);
    }
  }

  /** Whether a step shows a task anew, from a load, from nothing or from a cached state. */
  predicate Founds(step: Step) {
    step.Reconcile? || step.Seed? || step.Restore? || step.RestoreLoaded? || step.RestoreFailed?
  }

  /** What is shown anew is exact, whatever was shown before. */
  lemma ShownFounded(s: State, step: Step)
    requires Base(s) && Enabled(s, step) && Founds(step) && Faithful(s, step)
    ensures Base(Next(s, step)) && ShownOk(Next(s, step))
  {
    BaseNext(s, step);
    assert s.r.generation + 1 !in s.flights by {
      assert forall g :: g in s.flights ==> FlightOk(s, g, s.flights[g]);
    }
    match step
    case Seed(task) => NothingNew(s.native, s.r.frame, task, 0);
    case RestoreLoaded(n) => SnapshotIsExact(LogOf(s.native, s.flights[0].task), s.flights[0].task, n);
    case _ =>
  }

  lemma InvNext(s: State, step: Step)
    requires Inv(s) && Enabled(s, step) && Faithful(s, step)
    ensures Inv(Next(s, step))
  {
    BaseNext(s, step);
    if Founds(step) {
      ShownFounded(s, step);
    } else {
      match step
      case Persist(e) => ShownPersist(s, e);
      case Deliver(task) => ShownDeliver(s, task);
      case Frame => ShownFrame(s);
      case DisplayLoaded(_, _) => ShownAnswer(s, step);
      case DeltaLoaded(g, n, matched, settle) => ShownDelta(s, g, n, matched, settle);
      case LoadFailed(_) => ShownAnswer(s, step);
      case Evict(_) =>
      case Clear =>
    }
  }

  ghost predicate AllFaithful(s: State, run: seq<Step>)
    requires Possible(s, run)
    decreases |run|
  {
    run == [] || (Faithful(s, run[0]) && AllFaithful(Next(s, run[0]), run[1..]))
  }

  lemma {:induction false} FaithfulRunsKeepInv(s: State, run: seq<Step>)
    requires Inv(s) && Possible(s, run) && AllFaithful(s, run)
    ensures Inv(After(s, run))
    decreases |run|
  {
    if run != [] {
      InvNext(s, run[0]);
      FaithfulRunsKeepInv(Next(s, run[0]), run[1..]);
    }
  }

  /**
   * Catch-up is exact. In every run whose cached states are faithful, a ready
   * task whose state was not cleared shows a prefix of its log with each event folded once and in order, and
   * flushing the frame folds everything delivered: no event is lost, repeated
   * or reordered between snapshot, buffer and frame.
   */
  lemma CatchUpIsExact(run: seq<Step>)
    requires Possible(INITIAL, run) && AllFaithful(INITIAL, run) && After(INITIAL, run).r.ready && !After(INITIAL, run).cleared
    ensures
      var s := After(INITIAL, run);
      var flushed := Flushed(s.r);
      && LogsOk(s.native)
      && s.r.runtime.Some? && Exact(s.r.runtime.value, LogOf(s.native, s.r.task), s.r.task)
      && flushed.runtime.Some? && Exact(flushed.runtime.value, LogOf(s.native, s.r.task), s.r.task)
      && |Folded(flushed.runtime.value.ops)| >= DeliveredOf(s.native, s.r.task)
  {
    FaithfulRunsKeepInv(INITIAL, run);
    var s := After(INITIAL, run);
    assert TaskOk(s.native, s.r.task);
    LiveIsExact(s.r.(frame := []), s.r.frame, LogOf(s.native, s.r.task), DeliveredOf(s.native, s.r.task));
  }

  /** Whether a step is an answer to the reconciliation of a generation. */
  predicate Answers(step: Step, g: nat) {
    match step
    case DisplayLoaded(h, _) => g == h
    case DeltaLoaded(h, _, _, _) => g == h
    case LoadFailed(h) => g == h
    case _ => false
  }

  lemma {:induction false} GenerationGrows(s: State, run: seq<Step>)
    requires Possible(s, run)
    ensures After(s, run).r.generation >= s.r.generation
    decreases |run|
  {
    if run != [] {
      GenerationGrows(Next(s, run[0]), run[1..]);
    }
  }

  /** However late its answers come, a superseded reconciliation never touches the renderer. */
  lemma SupersededNeverCommits(s: State, run: seq<Step>, g: nat, step: Step)
    requires g < s.r.generation && Possible(s, run)
    requires Answers(step, g) && Enabled(After(s, run), step)
    ensures Next(After(s, run), step).r == After(s, run).r
  {
    GenerationGrows(s, run);
  }

  // ---- what each step does --------------------------------------------------

  /** A state that folds these events next, each that is its task's and newer than all it has. */
  function Folding(p: Projection, events: seq<Event>): Projection
    decreases |events|
  {
    if events == [] then p
    else
      var e := events[0];
      Folding(if e.task == p.task && e.order > p.lastSeq then Projection(p.task, e.order, p.ops + [Fold(e)]) else p, events[1..])
  }

  lemma {:induction false} FoldingIsBatch(p: Projection, events: seq<Event>, more: seq<Event>)
    ensures Batch(p, events + more) == Folding(Batch(p, events), more)
    decreases |more|
  {
    if more == [] {
      assert events + more == events;
    } else {
      assert events + more == events + [more[0]] + more[1..];
      BatchSnoc(p, events, more[0]);
      FoldingIsBatch(p, events + [more[0]], more[1..]);
    }
  }

  /** The shown task's state and entry take these events, in their order. */
  ghost predicate TakesLive(r: Renderer, events: seq<Event>, t: Renderer) {
    var mine := NewFor(events, r.task, 0);
    var next := Folding(if r.runtime.Some? then r.runtime.value else Projection(r.task, 0, []), mine);
    t == if mine == [] then r else r.(runtime := Some(next), cache := r.cache[r.task := next])
  }

  lemma LiveTakes(r: Renderer, events: seq<Event>)
    ensures TakesLive(r, events, Live(r, events))
  {
    FoldingIsBatch(r.runtime.GetOr(Create(r.task)), [], NewFor(events, r.task, 0));
    assert [] + NewFor(events, r.task, 0) == NewFor(events, r.task, 0);
  }

  /** The frame that fires gives its events to the shown task, and they are gone. */
  lemma FrameExactly(s: State)
    ensures
      var t := Next(s, Frame);
      t.native == s.native && t.flights == s.flights && TakesLive(s.r.(frame := []), s.r.frame, t.r)
  {
    LiveTakes(s.r.(frame := []), s.r.frame);
  }

  /**
   * A delivered event of another task is folded into that task's entry, if there is
   * one; the shown task's waits in the buffer until it is ready, then for the frame
   * if it is text only, and is otherwise folded at once behind what the frame holds.
   */
  lemma DeliveryExactly(s: State, task: string)
    requires Base(s) && Enabled(s, Deliver(task))
    requires task in s.r.cache ==> s.r.cache[task].task == task
    ensures
      var e, t := LogOf(s.native, task)[DeliveredOf(s.native, task)], Next(s, Deliver(task));
      && t.native == Native(s.native.logs, s.native.delivered[task := DeliveredOf(s.native, task) + 1])
      && if task != s.r.task then
           t.r == if task !in s.r.cache || e.order <= s.r.cache[task].lastSeq then s.r
                  else s.r.(cache := s.r.cache[task := Projection(task, e.order, s.r.cache[task].ops + [Fold(e)])])
         else if !s.r.ready then t.r == s.r.(buffer := s.r.buffer + [e])
         else if e.batchable then t.r == s.r.(frame := s.r.frame + [e])
         else !e.reset ==> TakesLive(s.r.(frame := []), s.r.frame + [e], t.r)
  {
    LogsCounted(s.native, task);
    LiveTakes(s.r.(frame := []), s.r.frame + [LogOf(s.native, task)[DeliveredOf(s.native, task)]]);
    assert task in s.r.cache ==> s.r.cache[task := s.r.cache[task]] == s.r.cache;
  }

  /** A reconciliation shows its task in the given state and keeps the buffer only if asked; its load is out. */
  lemma ReconcileExactly(s: State, task: string, preserve: bool, cached: Option<Projection>)
    ensures
      var t, g := Next(s, Reconcile(task, preserve, cached)), s.r.generation + 1;
      && t.r == Renderer(g, false, task, if preserve then s.r.buffer else [], s.r.frame, cached, s.r.cache)
      && t.flights == s.flights[g := Flight(task, DeliveredOf(s.native, task), |LogOf(s.native, task)|, cached)]
      && t.native == s.native
  {
  }

  /** The first load of the current reconciliation is shown and cached; one of an older reconciliation is dropped. */
  lemma DisplayExactly(s: State, g: nat, n: nat)
    requires Base(s) && Enabled(s, DisplayLoaded(g, n))
    ensures
      var t, f := Next(s, DisplayLoaded(g, n)), s.flights[g];
      var log := LogOf(s.native, f.task);
      var display := Projection(f.task, Watermark(log, n), Folds(log[..n]));
      && t.native == s.native
      && if g == s.r.generation
         then t.r == s.r.(runtime := Some(display), cache := s.r.cache[f.task := display])
              && t.flights == s.flights[g := Flight(f.task, f.since, |log|, Some(display))]
         else t.r == s.r && t.flights == s.flights - {g}
  {
  }

  /**
   * The second load of the current reconciliation makes its task ready: the base is
   * what is displayed if the native side found that unchanged, else the loaded state;
   * the task's buffered events past the load are folded in order of their numbers,
   * the connection or turn is shown as ended if nothing runs, and the buffer is empty.
   */
  lemma CommitExactly(s: State, g: nat, n: nat, matched: bool, settle: bool)
    requires Base(s) && Enabled(s, DeltaLoaded(g, n, matched, settle))
    ensures
      var t, f := Next(s, DeltaLoaded(g, n, matched, settle)), s.flights[g];
      var log := LogOf(s.native, f.task);
      var base := if matched then f.display.value else Projection(f.task, Watermark(log, n), Folds(log[..n]));
      var next := Folding(base, SortBy(NewFor(s.r.buffer, f.task, Watermark(log, n)), (e: Event) => e.order));
      var settled := if settle then Projection(next.task, next.lastSeq, next.ops + [Settle]) else next;
      && t.flights == s.flights - {g} && t.native == s.native
      && t.r == (if g == s.r.generation
                 then Renderer(g, true, s.r.task, [], s.r.frame, Some(settled), s.r.cache[f.task := settled])
                 else s.r)
      && t.cleared == (if g == s.r.generation then false else s.cleared)
  {
    var log := LogOf(s.native, s.flights[g].task);
    var base := if matched then s.flights[g].display.value else Snapshot(log, s.flights[g].task, n);
    var events := Sorted(NewFor(s.r.buffer, s.flights[g].task, Watermark(log, n)));
    FoldingIsBatch(base, [], events);
    assert [] + events == events;
  }

  /** A failed load of the current reconciliation leaves its task unready and shows what it displayed, or nothing, as disconnected. */
  lemma FailureExactly(s: State, g: nat)
    requires Base(s) && Enabled(s, LoadFailed(g))
    ensures
      var t, f := Next(s, LoadFailed(g)), s.flights[g];
      var shown := if f.display.Some? then f.display.value else Projection(f.task, 0, []);
      var failed := Projection(shown.task, shown.lastSeq, shown.ops + [Fail]);
      && t.flights == s.flights - {g} && t.native == s.native
      && t.r == if g == s.r.generation
                then s.r.(ready := false, runtime := Some(failed), cache := s.r.cache[f.task := failed])
                else s.r
  {
  }

  /** A new task is shown at once, ready and empty, in a generation of its own. */
  lemma SeedExactly(s: State, task: string)
    requires Enabled(s, Seed(task))
    ensures
      var t, empty := Next(s, Seed(task)), Projection(task, 0, []);
      && t.r == Renderer(s.r.generation + 1, true, task, [], s.r.frame, Some(empty), s.r.cache[task := empty])
      && t.flights == s.flights && t.native == s.native && !t.cleared
  {
  }

  /** Startup shows the restored task unready, loads it, and reconciles it from what it loaded with the buffer kept. */
  lemma RestoreExactly(s: State, step: Step)
    requires Enabled(s, step) && (step.Restore? || step.RestoreLoaded? || step.RestoreFailed?)
    ensures
      var t := Next(s, step);
      && t.native == s.native
      && match step
         case Restore(task) =>
           && t.r == s.r.(task := task, ready := false)
           && t.flights == s.flights[0 := Flight(task, DeliveredOf(s.native, task), |LogOf(s.native, task)|, None)]
         case RestoreLoaded(n) =>
           var f := s.flights[0];
           var log := LogOf(s.native, f.task);
           var loaded := Projection(f.task, Watermark(log, n), Folds(log[..n]));
           && t.r == Renderer(s.r.generation + 1, false, f.task, s.r.buffer, s.r.frame, Some(loaded), s.r.cache[f.task := loaded])
           && t.r == Restored(s.r, f.task, Some(loaded))
           && t.flights == (s.flights - {0})[t.r.generation := Flight(f.task, DeliveredOf(s.native, f.task), |log|, Some(loaded))]
         case RestoreFailed =>
           var task := s.flights[0].task;
           && t.r == Renderer(s.r.generation + 1, false, task, s.r.buffer, s.r.frame, None, s.r.cache)
           && t.r == Restored(s.r, task, None)
           && t.flights == (s.flights - {0})[t.r.generation := Flight(task, DeliveredOf(s.native, task), |LogOf(s.native, task)|, None)]
         case _ => true
  {
  }

  /** The event is the last reset among these. */
  predicate IsLastReset(events: seq<Event>, i: nat) {
    i < |events| && events[i].reset && forall j :: i < j < |events| ==> !events[j].reset
  }

  lemma {:induction false} EpochExactly(events: seq<Event>)
    ensures (forall i :: 0 <= i < |events| ==> !events[i].reset) ==> Epoch(events) == 0
    ensures forall i: nat :: IsLastReset(events, i) ==> Epoch(events) == events[i].order
  {
    if events != [] && !events[|events| - 1].reset {
      var before := events[..|events| - 1];
      EpochExactly(before);
      forall i: nat | IsLastReset(events, i)
        ensures Epoch(events) == events[i].order
      {
        assert IsLastReset(before, i);
      }
    }
  }

  /** The native side reports a display unchanged exactly when it has the log's last number and the log's last reset. */
  lemma MatchedExactly(s: State, g: nat, n: nat, matched: bool, settle: bool)
    requires Enabled(s, DeltaLoaded(g, n, matched, settle))
    ensures
      var display, log := s.flights[g].display.value, LogOf(s.native, s.flights[g].task)[..n];
      matched <==> display.lastSeq == (if log == [] then 0 else log[n - 1].order) && Epoch(Folded(display.ops)) == Epoch(log)
  {
  }

  /** A persisted event is the last of its task's log; no other log changes, and nothing is delivered. */
  lemma PersistExactly(s: State, e: Event, task: string)
    requires Enabled(s, Persist(e))
    ensures
      var t := Next(s, Persist(e));
      && t.r == s.r && t.flights == s.flights
      && LogOf(t.native, task) == (if task == e.task then LogOf(s.native, task) + [e] else LogOf(s.native, task))
      && DeliveredOf(t.native, task) == DeliveredOf(s.native, task)
  {
  }

  /** Eviction and deselection touch the task's entry and the shown state, and nothing else. */
  lemma GoneExactly(s: State, task: string)
    ensures Next(s, Evict(task)) == State(s.r.(cache := s.r.cache - {task}), s.native, s.flights, s.cleared)
    ensures Next(s, Clear) == State(s.r.(runtime := None), s.native, s.flights, true)
  {
  }

  /**
   * A reset that is delivered to the ready shown task always starts a reconciliation
   * from nothing, whatever waits for the frame; no other delivery starts one.
   */
  lemma ResetStartsExactly(s: State, task: string)
    requires Base(s) && Enabled(s, Deliver(task))
    ensures
      var e := LogOf(s.native, task)[DeliveredOf(s.native, task)];
      var t := Next(s, Deliver(task));
      if task == s.r.task && s.r.ready && !e.batchable && e.reset
      then
        && t.r.generation == s.r.generation + 1 && !t.r.ready && t.r.task == task
        && t.r.buffer == [] && t.r.runtime.None?
        && t.flights == s.flights[t.r.generation := Flight(task, DeliveredOf(t.native, task), |LogOf(t.native, task)|, None)]
      else t.r.generation == s.r.generation && t.flights == s.flights && t.r.ready == s.r.ready && t.r.task == s.r.task
  {
    LogsCounted(s.native, task);
  }

  // ---- background caches ----------------------------------------------------

  /** A state that has folded at least everything its task was delivered. */
  ghost predicate UpToDate(n: Native, task: string, p: Projection) {
    Exact(p, LogOf(n, task), task) && |Folded(p.ops)| >= DeliveredOf(n, task)
  }

  ghost predicate EntryUpToDate(s: State, task: string) {
    task in s.r.cache ==> UpToDate(s.native, task, s.r.cache[task])
  }

  /** Every cached task other than the shown one is up to date. */
  ghost predicate Background(s: State) {
    forall u :: u != s.r.task ==> EntryUpToDate(s, u)
  }

  /** Leaving the shown task now leaves its cached state up to date. */
  ghost predicate LeavesUpToDate(s: State) {
    EntryUpToDate(s, s.r.task)
  }

  /** The task a step shows. */
  function ShownBy(s: State, step: Step): string
    requires Enabled(s, step)
  {
    match step
    case Reconcile(task, _, _) => task
    case Seed(task) => task
    case Restore(task) => task
    case RestoreLoaded(_) => s.flights[0].task
    case RestoreFailed => s.flights[0].task
    case _ => s.r.task
  }

  /**
   * The task is left, or shown again from its cache entry, only while that entry
   * is up to date; and it is shown from its own entry, if from any.
   */
  ghost predicate CarefulWith(s: State, step: Step, task: string)
    requires Enabled(s, step)
  {
    && (s.r.task == task && ShownBy(s, step) != task ==> LeavesUpToDate(s))
    && (step.Reconcile? && step.task == task && step.cached.Some? ==>
          step.cached == Get(s.r.cache, task) && (s.r.task == task ==> LeavesUpToDate(s)))
  }

  ghost predicate AllCarefulWith(s: State, run: seq<Step>, task: string)
    requires Possible(s, run)
    decreases |run|
  {
    run == [] || (CarefulWith(s, run[0], task) && AllCarefulWith(Next(s, run[0]), run[1..], task))
  }

  /** How the component reconciles when no hydration is abandoned. */
  ghost predicate AllCareful(s: State, run: seq<Step>)
    requires Possible(s, run)
  {
    forall task :: AllCarefulWith(s, run, task)
  }

  lemma DeliveryWrites(s: State, task: string, u: string)
    requires Base(s) && Enabled(s, Deliver(task)) && u != s.r.task
    ensures
      Get(Next(s, Deliver(task)).r.cache, u) ==
        if task == u && u in s.r.cache
        then Some(Apply(s.r.cache[u], LogOf(s.native, u)[DeliveredOf(s.native, u)]))
        else Get(s.r.cache, u)
  {
    LogsCounted(s.native, task);
  }

  /** Only the shown task's cache entry is written, except by delivery to a background task. */
  lemma CacheWrites(s: State, step: Step, u: string)
    requires Base(s) && Enabled(s, step) && u != s.r.task
    requires u != ShownBy(s, step) && step != Evict(u)
    ensures
      Get(Next(s, step).r.cache, u) ==
        if step.Deliver? && step.task == u && u in s.r.cache
        then Some(Apply(s.r.cache[u], LogOf(s.native, u)[DeliveredOf(s.native, u)]))
        else Get(s.r.cache, u)
  {
    match step
    case Deliver(task) => DeliveryWrites(s, task, u);
    case DisplayLoaded(g, _) => assert FlightOk(s, g, s.flights[g]);
    case DeltaLoaded(g, _, _, _) => assert FlightOk(s, g, s.flights[g]);
    case LoadFailed(g) => assert FlightOk(s, g, s.flights[g]);
    case _ =>
  }

  lemma LeftTaskStays(s: State, step: Step)
    requires Base(s) && Enabled(s, step) && ShownBy(s, step) != s.r.task
    ensures Get(Next(s, step).r.cache, s.r.task) == Get(s.r.cache, s.r.task)
    ensures Next(s, step).native == s.native
  {
  }

  lemma BackgroundStays(s: State, step: Step, u: string)
    requires Base(s) && EntryUpToDate(s, u) && Enabled(s, step) && u != s.r.task && u != ShownBy(s, step)
    ensures EntryUpToDate(Next(s, step), u)
  {
    if u in Next(s, step).r.cache {
      assert TaskOk(s.native, u);
      CacheWrites(s, step, u);
      if step.Deliver? && step.task == u {
        ApplyFromLog(s.r.cache[u], LogOf(s.native, u), u, DeliveredOf(s.native, u));
      }
    }
  }

  lemma ShownIsShown(s: State, step: Step)
    requires Base(s) && Enabled(s, step)
    ensures Next(s, step).r.task == ShownBy(s, step)
    ensures !Founds(step) ==> ShownBy(s, step) == s.r.task
  {
  }

  /** A task that is exact while it is shown, and up to date while it is not. */
  ghost predicate Safe(s: State, task: string)
    requires LogsOk(s.native)
  {
    if s.r.task == task then ShownOk(s) else EntryUpToDate(s, task)
  }

  lemma SafeNext(s: State, step: Step, task: string)
    requires Base(s) && Safe(s, task) && Enabled(s, step) && CarefulWith(s, step, task)
    ensures Base(Next(s, step)) && Safe(Next(s, step), task)
  {
    BaseNext(s, step);
    ShownIsShown(s, step);
    if ShownBy(s, step) == task {
      assert step.Reconcile? ==> Faithful(s, step);
      if Founds(step) { ShownFounded(s, step); } else { InvNext(s, step); }
    } else if s.r.task == task {
      LeftTaskStays(s, step);
    } else {
      BackgroundStays(s, step, task);
    }
  }

  lemma {:induction false} SafeRuns(s: State, run: seq<Step>, task: string)
    requires Base(s) && Safe(s, task) && Possible(s, run) && AllCarefulWith(s, run, task)
    ensures Base(After(s, run)) && Safe(After(s, run), task)
    decreases |run|
  {
    if run != [] {
      SafeNext(s, run[0], task);
      SafeRuns(Next(s, run[0]), run[1..], task);
    }
  }

  lemma CarefulIsFaithful(s: State, step: Step)
    requires Base(s) && Enabled(s, step) && (step.Reconcile? ==> Safe(s, step.task) && CarefulWith(s, step, step.task))
    ensures Faithful(s, step)
  {
  }

  lemma {:induction false} CarefulRuns(s: State, run: seq<Step>)
    requires Base(s) && (forall task :: Safe(s, task)) && Possible(s, run) && AllCareful(s, run)
    ensures AllFaithful(s, run) && Base(After(s, run)) && forall task :: Safe(After(s, run), task)
    decreases |run|
  {
    if run != [] {
      var t := Next(s, run[0]);
      BaseNext(s, run[0]);
      forall task
        ensures Safe(t, task) && CarefulWith(s, run[0], task) && AllCarefulWith(t, run[1..], task)
      {
        assert AllCarefulWith(s, run, task);
        SafeNext(s, run[0], task);
      }
      CarefulIsFaithful(s, run[0]);
      CarefulRuns(t, run[1..]);
    }
  }

  /**
   * If no hydration is abandoned, cached states are always faithful: every
   * ready task is exact without assuming so, and so is every cached task in the
   * background.
   */
  lemma NothingAbandonedNothingLost(run: seq<Step>)
    requires Possible(INITIAL, run) && AllCareful(INITIAL, run)
    ensures AllFaithful(INITIAL, run) && Inv(After(INITIAL, run)) && Background(After(INITIAL, run))
  {
    CarefulRuns(INITIAL, run);
    var s := After(INITIAL, run);
    assert Safe(s, s.r.task);
    forall u | u != s.r.task
      ensures EntryUpToDate(s, u)
    {
      assert Safe(s, u);
    }
  }

  /**
   * Leaving a ready task keeps its cache up to date exactly when no newer event
   * waits for the frame, or its entry is gone.
   */
  lemma LeavingReadyTaskExactly(s: State)
    requires Inv(s) && s.r.ready && !s.cleared
    ensures LeavesUpToDate(s) <==>
            (s.r.task in s.r.cache ==> NewFor(s.r.frame, s.r.task, s.r.cache[s.r.task].lastSeq) == [])
  {
    assert TaskOk(s.native, s.r.task);
  }

  // ---- the component's refs -------------------------------------------------

  class ProjectionRefs {
    var generation: nat
    var ready: bool
    var task: string
    var buffer: seq<Event>
    var frameEvents: seq<Event>
    var runtimeState: Option<Projection>
    var cache: map<string, Projection>

    constructor ()
      ensures View() == INITIAL.r
    {
      generation, ready, task, buffer, frameEvents, runtimeState, cache := 0, false, "", [], [], None, map[];
    }

    function View(): Renderer
      reads this
    {
      Renderer(generation, ready, task, buffer, frameEvents, runtimeState, cache)
    }

    method ApplyLiveProjectionBatch(events: seq<Event>)
      modifies this`runtimeState, this`cache
      ensures View() == Live(old(View()), events)
    {
      var applicable := OnTask(events, task);
      if |applicable| == 0 {
        return;
      }
      var next := Batch(runtimeState.GetOr(Create(task)), applicable);
      cache := cache[task := next];
      runtimeState := Some(next);
    }

    method FlushFrameEvents()
      modifies this
      ensures View() == Flushed(old(View()))
    {
      var events := frameEvents;
      frameEvents := [];
      ApplyLiveProjectionBatch(events);
    }

    /** The subscription callback; `reset` asks the caller to reconcile the event's task. */
    method OnProjection(e: Event) returns (reset: bool)
      modifies this
      ensures View() == Received(old(View()), e) && reset == StartsReset(old(View()), e)
    {
      reset := false;
      if e.task != task {
        if e.task in cache {
          cache := cache[e.task := Apply(cache[e.task], e)];
        }
        return;
      }
      if !ready {
        buffer := buffer + [e];
        return;
      }
      if e.batchable {
        frameEvents := frameEvents + [e];
        return;
      }
      var events := frameEvents + [e];
      frameEvents := [];
      ApplyLiveProjectionBatch(events);
      reset := e.reset;
    }

    /** `reconcileTaskProjection` up to its first await. */
    method BeginReconcile(next: string, preserve: bool, cached: Option<Projection>) returns (mine: nat)
      modifies this
      ensures View() == Began(old(View()), next, preserve, cached) && mine == generation
    {
      generation := generation + 1;
      mine := generation;
      ready := false;
      task := next;
      if !preserve {
        buffer := [];
      }
      runtimeState := cached;
    }

    /** After the persisted load; `current` says whether the reconciliation goes on. */
    method OnDisplayLoaded(mine: nat, loaded: Projection) returns (current: bool)
      modifies this
      ensures View() == Displayed(old(View()), mine, loaded.task, loaded)
      ensures current == (mine == old(generation))
    {
      current := mine == generation;
      if current {
        cache := cache[loaded.task := loaded];
        runtimeState := Some(loaded);
      }
    }

    /** After the second load. */
    method OnDeltaLoaded(mine: nat, name: string, base: Projection, watermark: nat, settle: bool)
      modifies this
      ensures View() == Committed(old(View()), mine, name, base, watermark, settle)
    {
      var buffered := Sorted(NewFor(buffer, name, watermark));
      var next := Batch(base, buffered);
      if mine != generation {
        return;
      }
      buffer := [];
      ready := true;
      if settle {
        next := next.(ops := next.ops + [Settle]);
      }
      cache := cache[name := next];
      runtimeState := Some(next);
    }

    /** The `catch` of `reconcileTaskProjection`. */
    method OnLoadFailed(mine: nat, name: string, display: Option<Projection>)
      modifies this
      ensures View() == Broken(old(View()), mine, name, display)
    {
      if mine != generation {
        return;
      }
      ready := false;
      var failed := display.GetOr(Create(name));
      failed := failed.(ops := failed.ops + [Fail]);
      cache := cache[name := failed];
      runtimeState := Some(failed);
    }

    /** Startup, up to its load of the restored task's state. */
    method BeginRestore(name: string)
      modifies this
      ensures View() == Restoring(old(View()), name)
    {
      task := name;
      ready := false;
    }

    /** After that load, up to the first await of the reconciliation it starts. */
    method OnRestoreLoaded(name: string, loaded: Option<Projection>) returns (mine: nat)
      modifies this
      ensures View() == Restored(old(View()), name, loaded) && mine == generation
    {
      if loaded.Some? {
        cache := cache[name := loaded.value];
        runtimeState := loaded;
      }
      mine := BeginReconcile(name, true, loaded);
    }

    /** The projection part of `evictTaskHotCaches`. */
    method Evict(name: string)
      modifies this
      ensures View() == Evicted(old(View()), name)
    {
      cache := cache - {name};
    }

    /** The projection part of opening a new chat: nothing but the shown state goes. */
    method Deselect()
      modifies this`runtimeState
      ensures View() == Cleared(old(View()))
    {
      runtimeState := None;
    }

    /** The projection part of `appendTask`. */
    method AppendTask(name: string)
      modifies this
      ensures View() == Seeded(old(View()), name)
    {
      generation := generation + 1;
      buffer := [];
      task := name;
      ready := true;
      cache := cache[name := Create(name)];
      runtimeState := Some(Create(name));
    }
  }
}
