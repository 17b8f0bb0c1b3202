/**
 * Task Git refresh: generation numbers, the invalidated-path map and the
 * surgical application of loads (apps/desktop/src/App.tsx:1970-2045).
 */
module GitRefresh {
  // `Core` is what the renderer holds for one task. `State` adds the refreshes in
  // flight and a history kept on an independent clock, so that the claims below
  // are about the order of events and not about the generation numbers.

  import opened Common
  import opened GitSnapshots

  /** An entry of the invalidated-path map: absent, a set of paths, or `null` for every path. */
  datatype Dirty = Clean | Paths(paths: set<string>) | Everything {
    predicate Covers(path: string) {
      Everything? || (Paths? && path in paths)
    }

    /** The set handed to `reconcileGitSnapshot`; absent and `null` both ask for a full replacement. */
    function Surgical(): Option<set<string>> {
      if Paths? then Some(paths) else None
    }
  }

  datatype Core = Core(generation: nat, applied: nat, dirty: Dirty, cache: Option<Snapshot>)

  // ---- the synchronous stretches, on one task -------------------------------

  /** `invalidateTaskGit`; `what` is Everything when no paths were given. */
  function Invalidated(c: Core, what: Dirty): Core {
    var dirty :=
      if what.Everything? || c.dirty.Everything? then Everything
      else
        var known := if c.dirty.Paths? then c.dirty.paths else {};
        var more := if what.Paths? then what.paths else {};
        Paths(known + more);
    c.(dirty := dirty, generation := c.generation + 1)
  }

  /** The generation bump of `refreshTaskGitSnapshot` before it awaits the load. */
  function Begun(c: Core): Core {
    c.(generation := c.generation + 1)
  }

  /** `refreshInvalidatedTaskGit` up to its await: take the dirty entry, then begin. */
  function Taken(c: Core): Core {
    Begun(c.(dirty := Clean))
  }

  /** `applyTaskGitSnapshot` without an expected generation. */
  function Direct(c: Core, git: Snapshot): Core {
    c.(generation := c.generation + 1, applied := c.generation + 1, cache := Some(git))
  }

  /** The continuation of `refreshTaskGitSnapshot`: reconcile, then apply if nothing overtook it. */
  function Landed(c: Core, generation: nat, incoming: Snapshot, surgical: Option<set<string>>): Core {
    if generation != c.generation then c
    else c.(applied := generation, cache := Some(Reconcile(c.cache, incoming, surgical).git))
  }

  /** The argument `invalidated === null ? undefined : (invalidated ?? [])` of a re-report. */
  function Rereported(taken: Dirty): Dirty {
    if taken.Clean? then Paths({}) else taken
  }

  /** `refreshInvalidatedTaskGit` after its await; `got` says whether a snapshot came back. */
  function Settled(c: Core, generation: nat, taken: Dirty, got: bool): Core {
    if !got && c.applied < generation then Invalidated(c, Rereported(taken)) else c
  }

  // ---- runs -----------------------------------------------------------------

  datatype Phase = Loading | Landing(got: bool) | Rejected

  /** A refresh in flight. `tracked` ones came from `refreshInvalidatedTaskGit`. */
  datatype Flight = Flight(start: nat, taken: Dirty, tracked: bool, phase: Phase)

  datatype Invalidation = Invalidation(what: Dirty, at: nat)

  /**
   * History: `clock` counts events, `log` holds every reported invalidation,
   * `appliedStart` is when the last applied load started reading, `lastBump` is
   * when the generation last moved. Flights are keyed by their generation.
   */
  datatype State = State(
    core: Core, flights: map<nat, Flight>, log: seq<Invalidation>,
    clock: nat, appliedStart: nat, lastBump: nat)

  datatype Event =
    | Invalidate(what: Dirty)
    | StartTracked
    | StartBare
    | LoadOk(generation: nat, incoming: Snapshot)
    | LoadFailed(generation: nat)
    | Settle(generation: nat)
    | ApplyDirect(git: Snapshot)

  const INITIAL := State(Core(0, 0, Clean, None), map[], [], 1, 0, 0)

  /** Rows of a load carry its start time and have one row per key. */
  ghost predicate ReadAt(git: Snapshot, at: nat) {
    UniqueKeys(git.files) && forall r :: r in git.files ==> r.loadedAt == at
  }

  ghost predicate Enabled(s: State, e: Event) {
    match e
    case Invalidate(what) => !what.Clean?
    case StartTracked => true
    case StartBare => true
    case LoadOk(g, incoming) => g in s.flights && s.flights[g].phase.Loading? && ReadAt(incoming, s.flights[g].start)
    case LoadFailed(g) => g in s.flights && s.flights[g].phase.Loading?
    case Settle(g) => g in s.flights && s.flights[g].tracked && !s.flights[g].phase.Loading?
    case ApplyDirect(git) => ReadAt(git, s.clock)
  }

  function Next(s: State, e: Event): State
    requires Enabled(s, e)
  {
    var t := s.(clock := s.clock + 1);
    match e
    case Invalidate(what) =>
      t.(core := Invalidated(s.core, what), log := s.log + [Invalidation(what, s.clock)], lastBump := s.clock)
    case StartTracked =>
      var g := s.core.generation + 1;
      t.(core := Taken(s.core), lastBump := s.clock,
         flights := s.flights[g := Flight(s.clock, s.core.dirty, true, Loading)])
    case StartBare =>
      var g := s.core.generation + 1;
      t.(core := Begun(s.core), lastBump := s.clock,
         flights := s.flights[g := Flight(s.clock, Clean, false, Loading)])
    case LoadOk(g, incoming) =>
      var f := s.flights[g];
      var got := g == s.core.generation;
      t.(core := Landed(s.core, g, incoming, f.taken.Surgical()),
         appliedStart := if got then f.start else s.appliedStart,
         flights := if f.tracked then s.flights[g := f.(phase := Landing(got))] else s.flights - {g})
    case LoadFailed(g) =>
      var f := s.flights[g];
      t.(flights := if f.tracked then s.flights[g := f.(phase := Rejected)] else s.flights - {g})
    case Settle(g) =>
      var f := s.flights[g];
      var core :=
        if f.phase.Rejected? then Invalidated(s.core, Rereported(f.taken))
        else Settled(s.core, g, f.taken, f.phase.got);
      t.(core := core, flights := s.flights - {g},
         lastBump := if core.generation == s.core.generation then s.lastBump else s.clock)
    case ApplyDirect(git) =>
      t.(core := Direct(s.core, git), appliedStart := s.clock, lastBump := s.clock)
  }

  ghost predicate Possible(s: State, run: seq<Event>)
    decreases |run|
  {
    run == [] || (Enabled(s, run[0]) && Possible(Next(s, run[0]), run[1..]))
  }

  ghost function After(s: State, run: seq<Event>): State
    requires Possible(s, run)
    decreases |run|
  {
    if run == [] then s else After(Next(s, run[0]), run[1..])
  }

  // ---- the order invariant --------------------------------------------------

  ghost predicate InOrder(s: State, g: nat, f: Flight) {
    && 0 < g <= s.core.generation
    && f.start <= s.lastBump
    && (g == s.core.generation <==> f.start == s.lastBump)
    && (g <= s.core.applied <==> f.start <= s.appliedStart)
    && (f.phase == Landing(true) ==> g <= s.core.applied)
    && (f.phase.Loading? ==> g != s.core.applied)
    && (f.tracked && g == s.core.generation ==> s.core.dirty.Clean?)
    && (!f.tracked ==> f.taken.Clean? && f.phase.Loading?)
  }

  /** The generation numbers order refreshes, applied loads and invalidations as the clock does. */
  ghost predicate Ordered(s: State) {
    && s.core.applied <= s.core.generation
    && s.lastBump < s.clock && s.appliedStart <= s.lastBump
    && (forall g :: g in s.flights ==> InOrder(s, g, s.flights[g]))
    && (forall g, h :: g in s.flights && h in s.flights && g < h ==> s.flights[g].start < s.flights[h].start)
    && (forall i :: 0 <= i < |s.log| ==> s.log[i].at <= s.lastBump)
    && (forall g, i :: g in s.flights && g == s.core.generation && 0 <= i < |s.log| ==>
          s.log[i].at < s.flights[g].start)
  }

  /**
   * A reported path is still going to be refreshed (it is dirty, or a refresh in
   * flight took it), or some applied load started reading after the report.
   */
  ghost predicate Accounted(s: State, path: string, at: nat) {
    || s.core.dirty.Covers(path)
    || (exists g :: g in s.flights && s.flights[g].taken.Covers(path) && at < s.flights[g].start)
    || at < s.appliedStart
  }

  ghost predicate NothingLost(s: State) {
    forall i, path :: 0 <= i < |s.log| && s.log[i].what.Covers(path) ==> Accounted(s, path, s.log[i].at)
  }

  ghost predicate Inv(s: State) {
    Ordered(s) && NothingLost(s)
  }

  lemma InOrderNext(s: State, e: Event, g: nat)
    requires Ordered(s) && Enabled(s, e) && g in Next(s, e).flights
    ensures InOrder(Next(s, e), g, Next(s, e).flights[g])
  {
    if g in s.flights {
      assert InOrder(s, g, s.flights[g]);
    }
    if e.LoadOk? {
      assert InOrder(s, e.generation, s.flights[e.generation]);
    }
  }

  lemma StartsOrderedNext(s: State, e: Event, g: nat, h: nat)
    requires Ordered(s) && Enabled(s, e) && g in Next(s, e).flights && h in Next(s, e).flights && g < h
    ensures Next(s, e).flights[g].start < Next(s, e).flights[h].start
  {
    if h in s.flights {
      assert InOrder(s, h, s.flights[h]);
    }
    if g in s.flights {
      assert InOrder(s, g, s.flights[g]);
    }
  }

  lemma OrderedNext(s: State, e: Event)
    requires Ordered(s) && Enabled(s, e)
    ensures Ordered(Next(s, e))
  {
    var t := Next(s, e);
    forall g | g in t.flights
      ensures InOrder(t, g, t.flights[g])
    {
      InOrderNext(s, e, g);
    }
    forall g, h | g in t.flights && h in t.flights && g < h
      ensures t.flights[g].start < t.flights[h].start
    {
      StartsOrderedNext(s, e, g, h);
    }
    if e.LoadOk? {
      assert InOrder(s, e.generation, s.flights[e.generation]);
    }
  }

  lemma NothingLostNext(s: State, e: Event)
    requires Inv(s) && Enabled(s, e)
    ensures NothingLost(Next(s, e))
  {
    var t := Next(s, e);
    forall i, path | 0 <= i < |t.log| && t.log[i].what.Covers(path)
      ensures Accounted(t, path, t.log[i].at)
    {
      if i < |s.log| {
        assert Accounted(s, path, s.log[i].at);
        if !s.core.dirty.Covers(path) && !(s.log[i].at < s.appliedStart) {
          var g :| g in s.flights && s.flights[g].taken.Covers(path) && s.log[i].at < s.flights[g].start;
          if g in t.flights {
            assert t.flights[g].taken.Covers(path);
          }
        } else if e.StartTracked? && s.core.dirty.Covers(path) {
          assert t.flights[s.core.generation + 1].taken.Covers(path);
        }
      }
    }
  }

  lemma {:induction false} EveryRunKeepsInv(s: State, run: seq<Event>)
    requires Inv(s) && Possible(s, run)
    ensures Inv(After(s, run))
    decreases |run|
  {
    if run != [] {
      OrderedNext(s, run[0]);
      NothingLostNext(s, run[0]);
      EveryRunKeepsInv(Next(s, run[0]), run[1..]);
    }
  }

  /** No invalidation is lost, in any interleaving. */
  lemma NoInvalidationIsLost(run: seq<Event>)
    requires Possible(INITIAL, run)
    ensures NothingLost(After(INITIAL, run))
  {
    EveryRunKeepsInv(INITIAL, run);
  }

  /**
   * Every write of the cache raises the applied generation; an event that does
   * not write leaves both alone.
   */
  lemma AppliedGenerationsIncrease(s: State, e: Event)
    requires Inv(s) && Enabled(s, e)
    ensures
      var t := Next(s, e);
      var writes := e.ApplyDirect? || (e.LoadOk? && e.generation == s.core.generation);
      && (e.ApplyDirect? ==> t.core.cache == Some(e.git) && t.core.applied == t.core.generation > s.core.generation)
      && if writes then t.core.applied > s.core.applied && t.core.cache.Some? && t.appliedStart > s.appliedStart
      else t.core.applied == s.core.applied && t.core.cache == s.core.cache
  {
  }

  /**
   * A load is written exactly when no invalidation, refresh or direct apply
   * happened since it started reading.
   */
  lemma {:induction false} OvertakenExactly(run: seq<Event>, g: nat, incoming: Snapshot)
    requires Possible(INITIAL, run) && Enabled(After(INITIAL, run), LoadOk(g, incoming))
    ensures
      var s := After(INITIAL, run);
      var t := Next(s, LoadOk(g, incoming));
      if s.lastBump == s.flights[g].start
      then t.core.cache == Some(Reconcile(s.core.cache, incoming, s.flights[g].taken.Surgical()).git)
           && t.core.applied == g && t.appliedStart == s.flights[g].start
      else t.core == s.core && t.appliedStart == s.appliedStart
  {
    EveryRunKeepsInv(INITIAL, run);
  }

  /**
   * Which refreshes are in flight, and what they hold: a start adds one under the
   * next generation, a tracked one with everything that was dirty, which is dirty
   * no longer; an answered or failed load is out of flight at once unless it is
   * tracked, and then once it has settled.
   */
  lemma FlightsExactly(s: State, e: Event)
    requires Inv(s) && Enabled(s, e)
    ensures
      var t, g := Next(s, e), s.core.generation + 1;
      match e
      case StartTracked =>
        && t.core.generation == g && t.core.dirty.Clean? && t.core.cache == s.core.cache && t.core.applied == s.core.applied
        && t.flights == s.flights[g := Flight(s.clock, s.core.dirty, true, Loading)]
      case StartBare =>
        && t.core == s.core.(generation := g) && t.flights == s.flights[g := Flight(s.clock, Clean, false, Loading)]
      case LoadOk(h, _) =>
        if s.flights[h].tracked then t.flights == s.flights[h := s.flights[h].(phase := Landing(h == s.core.generation))]
        else t.flights == s.flights - {h}
      case LoadFailed(h) =>
        t.core == s.core
        && if s.flights[h].tracked then t.flights == s.flights[h := s.flights[h].(phase := Rejected)] else t.flights == s.flights - {h}
      case Settle(h) => t.flights == s.flights - {h}
      case _ => t.flights == s.flights
  {
  }

  /** What is dirty after a report: every path it names and every path that was, and the generation moves. */
  lemma InvalidationExactly(s: State, what: Dirty, path: string)
    requires Enabled(s, Invalidate(what))
    ensures
      var t := Next(s, Invalidate(what));
      && (t.core.dirty.Covers(path) <==> s.core.dirty.Covers(path) || what.Covers(path))
      && t.core.generation == s.core.generation + 1 && t.core.cache == s.core.cache && t.core.applied == s.core.applied
      && t.log == s.log + [Invalidation(what, s.clock)]
  {
  }

  /**
   * A refresh that settles puts back what it took exactly when its load was
   * rejected, or was not written and nothing newer was applied since it began.
   */
  lemma SettlingExactly(run: seq<Event>, g: nat, path: string)
    requires Possible(INITIAL, run) && Enabled(After(INITIAL, run), Settle(g))
    ensures
      var s := After(INITIAL, run);
      var t, f := Next(s, Settle(g)), s.flights[g];
      var putsBack := f.phase.Rejected? || (f.phase == Landing(false) && s.core.applied < g);
      && (t.core.dirty.Covers(path) <==> s.core.dirty.Covers(path) || (putsBack && f.taken.Covers(path)))
      && t.core.generation == (if putsBack then s.core.generation + 1 else s.core.generation)
      && t.core.cache == s.core.cache && t.core.applied == s.core.applied
  {
    EveryRunKeepsInv(INITIAL, run);
    assert InOrder(After(INITIAL, run), g, After(INITIAL, run).flights[g]);
  }

  // ---- stale patches --------------------------------------------------------

  /** The row's path was reported after the load that produced its patch started. */
  ghost predicate StaleSince(s: State, r: Row, at: nat) {
    exists i :: 0 <= i < |s.log| && s.log[i].what.Covers(r.path) && s.log[i].at == at && at > r.loadedAt
  }

  /** The report will reach a later refresh: it is dirty, or a refresh that is not yet superseded holds it. */
  ghost predicate Pending(s: State, path: string, at: nat) {
    || s.core.dirty.Covers(path)
    || exists g :: g in s.flights && g > s.core.applied && s.flights[g].taken.Covers(path) && at < s.flights[g].start
  }

  ghost predicate NoOrphan(s: State) {
    s.core.cache.Some? ==>
      && UniqueKeys(s.core.cache.value.files)
      && forall r, at: nat :: r in s.core.cache.value.files && StaleSince(s, r, at) ==> Pending(s, r.path, at)
  }

  /** Nothing is in flight and nothing is waiting for a refresh. */
  ghost predicate Quiescent(s: State) {
    s.flights == map[] && forall path :: !s.core.dirty.Covers(path)
  }

  /** At quiescence no cached row shows a patch older than a report about its path. */
  lemma QuiescentHoldsNoStalePatch(s: State)
    requires NoOrphan(s) && Quiescent(s)
    ensures s.core.cache.Some? ==> forall r, at: nat :: r in s.core.cache.value.files ==> !StaleSince(s, r, at)
  {
    if s.core.cache.Some? {
      forall r, at: nat | r in s.core.cache.value.files
        ensures !StaleSince(s, r, at)
      {
        assert StaleSince(s, r, at) ==> Pending(s, r.path, at);
      }
    }
  }

  /**
   * A surgical refresh that is the newest also holds every path of the older
   * refreshes it may supersede.
   */
  ghost predicate Nested(s: State) {
    forall g, h, path ::
      && g in s.flights && h in s.flights && s.core.applied < g < h && s.flights[h].taken.Paths?
      && s.flights[g].taken.Covers(path)
      ==> path in s.flights[h].taken.paths
  }

  /** A surgical refresh starts only over what refreshes in flight already took. */
  ghost predicate Guarded(s: State, e: Event) {
    e.StartTracked? && s.core.dirty.Paths? ==>
      forall g, path :: g in s.flights && g > s.core.applied && s.flights[g].taken.Covers(path) ==>
        path in s.core.dirty.paths
  }

  /** No refresh overlaps another: the simple way to be guarded. */
  ghost predicate Alone(s: State, e: Event) {
    e.StartTracked? || e.StartBare? ==> s.flights == map[]
  }

  ghost predicate AllGuarded(s: State, run: seq<Event>)
    requires Possible(s, run)
    decreases |run|
  {
    run == [] || (Guarded(s, run[0]) && AllGuarded(Next(s, run[0]), run[1..]))
  }

  ghost predicate AllAlone(s: State, run: seq<Event>)
    requires Possible(s, run)
    decreases |run|
  {
    run == [] || (Alone(s, run[0]) && AllAlone(Next(s, run[0]), run[1..]))
  }

  lemma NestedNext(s: State, e: Event)
    requires Inv(s) && Nested(s) && Enabled(s, e) && Guarded(s, e)
    ensures Nested(Next(s, e))
  {
    var t := Next(s, e);
    forall g, h, path |
      && g in t.flights && h in t.flights && t.core.applied < g < h && t.flights[h].taken.Paths?
      && t.flights[g].taken.Covers(path)
      ensures path in t.flights[h].taken.paths
    {
      AppliedGenerationsIncrease(s, e);
      assert g in s.flights;
    }
  }

  /** What a written load leaves stale: rows it kept although a report came after their patch. */
  lemma LandedStaleRowIsKept(s: State, g: nat, incoming: Snapshot, r: Row, at: nat)
    requires Inv(s) && Enabled(s, LoadOk(g, incoming)) && g == s.core.generation
    requires r in Next(s, LoadOk(g, incoming)).core.cache.value.files
    ensures StaleSince(Next(s, LoadOk(g, incoming)), r, at) ==>
            && s.core.cache.Some? && r in s.core.cache.value.files && StaleSince(s, r, at)
            && s.flights[g].taken.Paths? && r.path !in s.flights[g].taken.paths
  {
    KeptRowOrigin(s.core.cache, incoming, s.flights[g].taken.Surgical(), r);
  }

  /** The newest surgical refresh holds every path whose cached patch is stale. */
  lemma NewestHoldsStalePaths(s: State, g: nat, r: Row, at: nat)
    requires Inv(s) && NoOrphan(s) && Nested(s)
    requires g in s.flights && g == s.core.generation && s.flights[g].taken.Paths?
    requires s.core.cache.Some? && r in s.core.cache.value.files
    ensures StaleSince(s, r, at) ==> r.path in s.flights[g].taken.paths
  {
    if StaleSince(s, r, at) {
      assert Pending(s, r.path, at);
      assert InOrder(s, g, s.flights[g]);
      var h :| h in s.flights && h > s.core.applied && s.flights[h].taken.Covers(r.path) && at < s.flights[h].start;
      assert InOrder(s, h, s.flights[h]);
    }
  }

  lemma NoOrphanLanding(s: State, g: nat, incoming: Snapshot)
    requires Inv(s) && NoOrphan(s) && Nested(s) && Enabled(s, LoadOk(g, incoming)) && g == s.core.generation
    ensures NoOrphan(Next(s, LoadOk(g, incoming)))
  {
    var t := Next(s, LoadOk(g, incoming));
    ReconcileKeepsKeys(s.core.cache, incoming, s.flights[g].taken.Surgical());
    forall r, at: nat | r in t.core.cache.value.files
      ensures !StaleSince(t, r, at)
    {
      LandedStaleRowIsKept(s, g, incoming, r, at);
      if s.core.cache.Some? && r in s.core.cache.value.files && s.flights[g].taken.Paths? {
        NewestHoldsStalePaths(s, g, r, at);
      }
    }
  }

  /** What is pending stays so, unless a load lands. */
  lemma PendingStays(s: State, e: Event, path: string, at: nat)
    requires Inv(s) && Enabled(s, e) && Pending(s, path, at) && at <= s.lastBump && !e.ApplyDirect?
    requires e.LoadOk? ==> e.generation != s.core.generation
    ensures Pending(Next(s, e), path, at)
  {
    var t := Next(s, e);
    if s.core.dirty.Covers(path) {
      if e.StartTracked? {
        assert t.flights[s.core.generation + 1].taken.Covers(path);
      }
    } else {
      var g :| g in s.flights && g > s.core.applied && s.flights[g].taken.Covers(path) && at < s.flights[g].start;
      if g in t.flights {
        assert t.flights[g].taken.Covers(path);
      }
    }
  }

  lemma NoOrphanNext(s: State, e: Event)
    requires Inv(s) && NoOrphan(s) && Nested(s) && Enabled(s, e)
    ensures NoOrphan(Next(s, e))
  {
    var t := Next(s, e);
    if e.LoadOk? && e.generation == s.core.generation {
      NoOrphanLanding(s, e.generation, e.incoming);
    } else if t.core.cache.Some? && !e.ApplyDirect? {
      forall r, at: nat | r in t.core.cache.value.files && StaleSince(t, r, at)
        ensures Pending(t, r.path, at)
      {
        if StaleSince(s, r, at) {
          PendingStays(s, e, r.path, at);
        }
      }
    }
  }

  lemma {:induction false} GuardedRunsKeepNoOrphan(s: State, run: seq<Event>)
    requires Inv(s) && NoOrphan(s) && Nested(s) && Possible(s, run) && AllGuarded(s, run)
    ensures NoOrphan(After(s, run))
    decreases |run|
  {
    if run != [] {
      OrderedNext(s, run[0]);
      NothingLostNext(s, run[0]);
      NestedNext(s, run[0]);
      NoOrphanNext(s, run[0]);
      GuardedRunsKeepNoOrphan(Next(s, run[0]), run[1..]);
    }
  }

  lemma {:induction false} AloneIsGuarded(s: State, run: seq<Event>)
    requires Possible(s, run) && AllAlone(s, run)
    ensures AllGuarded(s, run)
    decreases |run|
  {
    if run != [] {
      AloneIsGuarded(Next(s, run[0]), run[1..]);
    }
  }

  /** If a task's refreshes never overlap, a quiescent state retains no stale patch. */
  lemma NonOverlappingRunsEndFresh(run: seq<Event>)
    requires Possible(INITIAL, run) && AllAlone(INITIAL, run) && Quiescent(After(INITIAL, run))
    ensures
      var s := After(INITIAL, run);
      s.core.cache.Some? ==> forall r, at: nat :: r in s.core.cache.value.files ==> !StaleSince(s, r, at)
  {
    AloneIsGuarded(INITIAL, run);
    GuardedRunsKeepNoOrphan(INITIAL, run);
    QuiescentHoldsNoStalePatch(After(INITIAL, run));
  }

  // ---- exactly when a surgical start is safe --------------------------------

  /** Every cached row that is stale is in the dirty set the surgical refresh would take. */
  ghost predicate TakesEveryStalePath(s: State)
    requires s.core.dirty.Paths? && s.core.cache.Some?
  {
    forall r, at: nat :: r in s.core.cache.value.files && StaleSince(s, r, at) ==> r.path in s.core.dirty.paths
  }

  ghost predicate SafeToLand(s: State)
    requires s.core.dirty.Paths?
  {
    var t := Next(s, StartTracked);
    forall incoming :: ReadAt(incoming, s.clock) ==>
      NoOrphan(Next(t, LoadOk(s.core.generation + 1, incoming)))
  }

  /** The same rows read again: what a checkout reports when only patch bodies changed. */
  function Reread(git: Snapshot, at: nat): (r: Snapshot)
    ensures |r.files| == |git.files|
    ensures forall i :: 0 <= i < |git.files| ==> r.files[i] == git.files[i].(loadedAt := at)
  {
    git.(files := seq(|git.files|, i requires 0 <= i < |git.files| => git.files[i].(loadedAt := at)))
  }

  lemma RereadIsRead(git: Snapshot, at: nat)
    requires UniqueKeys(git.files)
    ensures ReadAt(Reread(git, at), at)
  {
    var again := Reread(git, at);
    forall i, j | 0 <= i < j < |again.files|
      ensures Key(again.files[i]) != Key(again.files[j])
    {
      assert Key(git.files[i]) != Key(git.files[j]);
    }
  }

  lemma RereadKeepsRow(git: Snapshot, at: nat, paths: set<string>, r: Row)
    requires UniqueKeys(git.files) && r in git.files && r.path !in paths
    ensures r in Reconcile(Some(git), Reread(git, at), Some(paths)).git.files
  {
    var i :| 0 <= i < |git.files| && git.files[i] == r;
    ExistingIsUnique(git.files, i);
    ReconcileIsRowwise(Some(git), Reread(git, at), Some(paths));
    assert Reconcile(Some(git), Reread(git, at), Some(paths)).git.files[i] == r;
  }

  /** The load that reads the same rows again, for a refresh started now. */
  ghost function Reloaded(s: State): Event
    requires s.core.cache.Some?
  {
    LoadOk(s.core.generation + 1, Reread(s.core.cache.value, s.clock))
  }

  /** A stale row outside the surgical set survives a reread, and every refresh in flight is overtaken. */
  lemma RereadKeepsStale(s: State, r: Row, at: nat)
    requires Inv(s) && s.core.dirty.Paths? && s.core.cache.Some? && UniqueKeys(s.core.cache.value.files)
    requires r in s.core.cache.value.files && StaleSince(s, r, at) && r.path !in s.core.dirty.paths
    ensures Enabled(Next(s, StartTracked), Reloaded(s))
    ensures
      var u := Next(Next(s, StartTracked), Reloaded(s));
      && Inv(u) && u.core.dirty.Clean? && u.log == s.log
      && u.core.cache.Some? && r in u.core.cache.value.files && StaleSince(u, r, at)
      && forall g :: g in u.flights ==> g <= u.core.applied
  {
    var t := Next(s, StartTracked);
    RereadIsRead(s.core.cache.value, s.clock);
    RereadKeepsRow(s.core.cache.value, s.clock, s.core.dirty.paths, r);
    OrderedNext(s, StartTracked);
    NothingLostNext(s, StartTracked);
    OrderedNext(t, Reloaded(s));
    NothingLostNext(t, Reloaded(s));
    forall g | g in t.flights
      ensures g <= t.core.generation
    {
      assert InOrder(t, g, t.flights[g]);
    }
  }

  lemma RereadOrphansRow(s: State, r: Row, at: nat)
    requires Inv(s) && NoOrphan(s) && s.core.dirty.Paths? && s.core.cache.Some?
    requires r in s.core.cache.value.files && StaleSince(s, r, at) && r.path !in s.core.dirty.paths
    ensures !SafeToLand(s)
  {
    RereadIsRead(s.core.cache.value, s.clock);
    RereadKeepsStale(s, r, at);
    var u := Next(Next(s, StartTracked), Reloaded(s));
    assert !Pending(u, r.path, at);
  }

  /**
   * Starting a surgical refresh leaves no patch behind, whatever its load
   * returns, if and only if the dirty set it takes holds every stale path: a
   * refresh in flight must not be holding another one.
   */
  lemma SurgicalStartIsSafeExactly(s: State)
    requires Inv(s) && NoOrphan(s) && s.core.dirty.Paths? && s.core.cache.Some?
    ensures SafeToLand(s) <==> TakesEveryStalePath(s)
  {
    if TakesEveryStalePath(s) {
      var t := Next(s, StartTracked);
      var g := s.core.generation + 1;
      OrderedNext(s, StartTracked);
      NothingLostNext(s, StartTracked);
      forall incoming | ReadAt(incoming, s.clock)
        ensures NoOrphan(Next(t, LoadOk(g, incoming)))
      {
        var u := Next(t, LoadOk(g, incoming));
        ReconcileKeepsKeys(t.core.cache, incoming, Some(s.core.dirty.paths));
        forall r, at: nat | r in u.core.cache.value.files
          ensures !StaleSince(u, r, at)
        {
          LandedStaleRowIsKept(t, g, incoming, r, at);
          assert StaleSince(t, r, at) ==> StaleSince(s, r, at);
        }
      }
    } else {
      var r, at: nat :| r in s.core.cache.value.files && StaleSince(s, r, at) && r.path !in s.core.dirty.paths;
      RereadOrphansRow(s, r, at);
    }
  }

  // ---- from an unsafe start to the end of its refreshes -----------------------

  lemma RunStep(s: State, e: Event, rest: seq<Event>)
    requires Enabled(s, e) && Possible(Next(s, e), rest)
    ensures Possible(s, [e] + rest) && After(s, [e] + rest) == After(Next(s, e), rest)
  {
    assert ([e] + rest)[1..] == rest;
  }

  /** Whether an event only carries on a refresh that is in flight. */
  predicate Finishing(e: Event) {
    e.LoadOk? || e.LoadFailed? || e.Settle?
  }

  ghost predicate ShowsStale(s: State) {
    s.core.cache.Some? && exists r, at: nat :: r in s.core.cache.value.files && StaleSince(s, r, at)
  }

  ghost predicate Finishes(s: State, run: seq<Event>) {
    Possible(s, run) && Quiescent(After(s, run)) && forall e :: e in run ==> Finishing(e)
  }

  /** No rejected refresh has a path to put back. */
  ghost predicate NothingToPutBack(s: State) {
    forall g, path :: g in s.flights && s.flights[g].phase.Rejected? ==> !s.flights[g].taken.Covers(path)
  }

  /** A newer load is applied than any in flight, and nothing is or will be dirty. */
  ghost predicate AllOvertaken(s: State) {
    && (forall g :: g in s.flights ==> g <= s.core.applied)
    && NothingToPutBack(s) && forall path :: !s.core.dirty.Covers(path)
  }

  ghost predicate SameView(s: State, t: State) {
    t.core.cache == s.core.cache && t.log == s.log
  }

  lemma SettleOne(s: State, g: nat)
    requires Inv(s) && AllOvertaken(s) && Enabled(s, Settle(g))
    ensures
      var t := Next(s, Settle(g));
      Inv(t) && AllOvertaken(t) && SameView(s, t) && t.flights == s.flights - {g}
  {
    OrderedNext(s, Settle(g));
    NothingLostNext(s, Settle(g));
    assert InOrder(s, g, s.flights[g]);
    var t := Next(s, Settle(g));
    forall path
      ensures !t.core.dirty.Covers(path)
    {
      assert !s.core.dirty.Covers(path);
      assert s.flights[g].phase.Rejected? ==> !s.flights[g].taken.Covers(path);
    }
  }

  function NoRows(): Snapshot {
    Snapshot(Header(Repository, "", "", 0, 0, "", None), [], [], [])
  }

  lemma AnswerOne(s: State, g: nat)
    requires Inv(s) && AllOvertaken(s) && g in s.flights && s.flights[g].phase.Loading?
    ensures Enabled(s, LoadOk(g, NoRows()))
    ensures
      var f, t := s.flights[g], Next(s, LoadOk(g, NoRows()));
      && Inv(t) && AllOvertaken(t) && SameView(s, t)
      && t.flights == if f.tracked then s.flights[g := f.(phase := Landing(false))] else s.flights - {g}
  {
    assert InOrder(s, g, s.flights[g]);
    OrderedNext(s, LoadOk(g, NoRows()));
    NothingLostNext(s, LoadOk(g, NoRows()));
  }

  function LoadingOf(flights: map<nat, Flight>): set<nat> {
    set g | g in flights && flights[g].phase.Loading?
  }

  ghost function Left(s: State): nat {
    |s.flights| + |LoadingOf(s.flights)|
  }

  lemma FewerLeft(before: map<nat, Flight>, g: nat, f: Flight)
    requires g in before
    ensures |before - {g}| == |before| - 1 && |LoadingOf(before - {g})| <= |LoadingOf(before)|
    ensures before[g].phase.Loading? && !f.phase.Loading? ==>
              |before[g := f]| == |before| && |LoadingOf(before[g := f])| < |LoadingOf(before)|
  {
    assert |before.Keys| == |before| && |(before - {g}).Keys| == |before - {g}| && |before[g := f].Keys| == |before[g := f]|;
    assert (before - {g}).Keys == before.Keys - {g} && before[g := f].Keys == before.Keys;
    assert LoadingOf(before - {g}) == LoadingOf(before) - {g};
    assert !f.phase.Loading? ==> LoadingOf(before[g := f]) == LoadingOf(before) - {g};
  }

  lemma FinishStep(s: State, g: nat) returns (e: Event)
    requires Inv(s) && AllOvertaken(s) && g in s.flights
    ensures Enabled(s, e) && Finishing(e)
    ensures
      var t := Next(s, e);
      Inv(t) && AllOvertaken(t) && SameView(s, t) && Left(t) < Left(s)
  {
    var f := s.flights[g];
    FewerLeft(s.flights, g, f.(phase := Landing(false)));
    if f.phase.Loading? {
      AnswerOne(s, g);
      e := LoadOk(g, NoRows());
    } else {
      assert InOrder(s, g, f);
      SettleOne(s, g);
      e := Settle(g);
    }
  }

  /** Overtaken refreshes finish one by one, and change nothing that is shown. */
  lemma {:induction false} OvertakenFinish(s: State) returns (run: seq<Event>)
    requires Inv(s) && AllOvertaken(s)
    ensures Finishes(s, run) && SameView(s, After(s, run))
    decreases Left(s)
  {
    if s.flights == map[] {
      run := [];
    } else {
      var g :| g in s.flights;
      var e := FinishStep(s, g);
      var rest := OvertakenFinish(Next(s, e));
      FinishesStep(s, e, rest);
      run := [e] + rest;
    }
  }

  lemma FinishesStep(s: State, e: Event, rest: seq<Event>)
    requires Enabled(s, e) && Finishing(e) && Finishes(Next(s, e), rest)
    ensures Finishes(s, [e] + rest) && After(s, [e] + rest) == After(Next(s, e), rest)
  {
    RunStep(s, e, rest);
  }

  /** An unsafe start, a reread that lands first, and the rest finishes: a stale patch is left behind. */
  lemma UnsafeStartEndsStale(s: State, r: Row, at: nat) returns (run: seq<Event>)
    requires Inv(s) && NothingToPutBack(s)
    requires s.core.dirty.Paths? && s.core.cache.Some? && UniqueKeys(s.core.cache.value.files)
    requires r in s.core.cache.value.files && StaleSince(s, r, at) && r.path !in s.core.dirty.paths
    ensures Finishes(Next(s, StartTracked), run) && ShowsStale(After(Next(s, StartTracked), run))
  {
    var t := Next(s, StartTracked);
    var u := Next(t, Reloaded(s));
    RereadKeepsStale(s, r, at);
    assert NothingToPutBack(u);
    var rest := OvertakenFinish(u);
    FinishesStep(t, Reloaded(s), rest);
    run := [Reloaded(s)] + rest;
    assert StaleSince(After(u, rest), r, at);
  }

  // The other direction: a safe start that finishes leaves nothing stale.

  /** The refresh that took the stale paths has landed, or still holds them, or has put them back. */
  ghost predicate TakesCare(s: State, mine: nat, u: State) {
    && SameLog(s, u) && u.core.cache.Some? && mine <= u.core.generation
    && (forall g :: g in u.flights ==> g <= mine)
    && (!ShowsStale(u)
        || (&& u.core.cache == s.core.cache && u.core.applied < mine
            && ((mine !in u.flights && HoldsAll(s.core.dirty, u.core.dirty))
                || (&& mine in u.flights && u.flights[mine].tracked && u.flights[mine].taken == s.core.dirty
                    && u.flights[mine].phase != Landing(true)))))
  }

  ghost predicate SameLog(s: State, u: State) {
    u.log == s.log
  }

  ghost predicate HoldsAll(some: Dirty, all: Dirty) {
    forall path :: some.Covers(path) ==> all.Covers(path)
  }

  lemma LandingTakesCare(s: State, mine: nat, u: State, e: Event)
    requires s.core.dirty.Paths? && s.core.cache.Some? && TakesEveryStalePath(s)
    requires Inv(u) && TakesCare(s, mine, u) && e.LoadOk? && Enabled(u, e) && e.generation == u.core.generation
    ensures TakesCare(s, mine, Next(u, e))
  {
    var t := Next(u, e);
    if r, at: nat :| r in t.core.cache.value.files && StaleSince(t, r, at) {
      LandedStaleRowIsKept(u, e.generation, e.incoming, r, at);
      assert StaleSince(u, r, at) && ShowsStale(u);
      assert StaleSince(s, r, at);
    }
  }

  lemma TakesCareNext(s: State, mine: nat, u: State, e: Event)
    requires s.core.dirty.Paths? && s.core.cache.Some? && TakesEveryStalePath(s)
    requires Inv(u) && TakesCare(s, mine, u) && Enabled(u, e) && Finishing(e)
    ensures TakesCare(s, mine, Next(u, e))
  {
    var t := Next(u, e);
    if e.LoadOk? && e.generation == u.core.generation {
      LandingTakesCare(s, mine, u, e);
    } else {
      assert t.core.cache == u.core.cache && t.log == u.log;
      assert ShowsStale(t) ==> ShowsStale(u) by {
        if r, at: nat :| t.core.cache.Some? && r in t.core.cache.value.files && StaleSince(t, r, at) {
          assert StaleSince(u, r, at);
        }
      }
    }
  }

  lemma NothingHeldIsStale(s: State, mine: nat, u: State)
    requires s.core.dirty.Paths? && s.core.cache.Some? && TakesEveryStalePath(s)
    requires TakesCare(s, mine, u) && Quiescent(u)
    ensures !ShowsStale(u)
  {
    assert forall r: Row, at: nat :: StaleSince(u, r, at) <==> StaleSince(s, r, at);
    if ShowsStale(u) {
      forall path
        ensures path !in s.core.dirty.paths
      {
        assert s.core.dirty.Covers(path) <==> path in s.core.dirty.paths;
      }
    }
  }

  lemma {:induction false} TakesCareToTheEnd(s: State, mine: nat, u: State, run: seq<Event>)
    requires s.core.dirty.Paths? && s.core.cache.Some? && TakesEveryStalePath(s)
    requires Inv(u) && TakesCare(s, mine, u) && Finishes(u, run)
    ensures !ShowsStale(After(u, run))
    decreases |run|
  {
    if run == [] {
      NothingHeldIsStale(s, mine, u);
    } else {
      assert run[0] in run && forall e :: e in run[1..] ==> e in run;
      OrderedNext(u, run[0]);
      NothingLostNext(u, run[0]);
      TakesCareNext(s, mine, u, run[0]);
      TakesCareToTheEnd(s, mine, Next(u, run[0]), run[1..]);
    }
  }

  /** A rejected refresh that holds a path ends with it dirty again. */
  lemma {:induction false} RejectedPutsBack(u: State, run: seq<Event>, g: nat, path: string)
    requires Possible(u, run) && forall e :: e in run ==> Finishing(e)
    requires u.core.dirty.Covers(path)
             || (g in u.flights && u.flights[g].phase.Rejected? && u.flights[g].taken.Covers(path))
    ensures !Quiescent(After(u, run))
    decreases |run|
  {
    if run != [] {
      assert run[0] in run && forall e :: e in run[1..] ==> e in run;
      RejectedPutsBack(Next(u, run[0]), run[1..], g, path);
    }
  }

  /**
   * A surgical start can leave a stale patch behind for good, once the refreshes
   * then in flight have finished, if and only if its dirty set misses a stale path
   * and no rejected refresh will put a path back.
   */
  lemma StartCanEndStaleExactly(s: State)
    requires Inv(s) && NoOrphan(s) && s.core.dirty.Paths? && s.core.cache.Some?
    ensures (exists run :: Finishes(Next(s, StartTracked), run) && ShowsStale(After(Next(s, StartTracked), run)))
            <==> !TakesEveryStalePath(s) && NothingToPutBack(s)
  {
    var t := Next(s, StartTracked);
    OrderedNext(s, StartTracked);
    NothingLostNext(s, StartTracked);
    if run :| Finishes(t, run) && ShowsStale(After(t, run)) {
      if TakesEveryStalePath(s) {
        forall g | g in t.flights
          ensures g <= s.core.generation + 1
        {
          assert InOrder(t, g, t.flights[g]);
        }
        TakesCareToTheEnd(s, s.core.generation + 1, t, run);
      }
      forall g, path | g in s.flights && s.flights[g].phase.Rejected?
        ensures !s.flights[g].taken.Covers(path)
      {
        if s.flights[g].taken.Covers(path) {
          assert InOrder(s, g, s.flights[g]);
          RejectedPutsBack(t, run, g, path);
        }
      }
    }
    if !TakesEveryStalePath(s) && NothingToPutBack(s) {
      var r, at: nat :| r in s.core.cache.value.files && StaleSince(s, r, at) && r.path !in s.core.dirty.paths;
      var run := UnsafeStartEndsStale(s, r, at);
    }
  }

  // ---- the overlap that loses a refresh -------------------------------------

  const OVERLAP_ROW: Row := Row("p", false, Modified, 1, 1, Some(true), 0, 1)

  function OverlapSnapshot(at: nat): Snapshot {
    Snapshot(Header(Repository, "main", "", 0, 0, "", None), [], [], [OVERLAP_ROW.(loadedAt := at)])
  }

  function OverlapFlight(start: nat, path: string, phase: Phase): Flight {
    Flight(start, Paths({path}), true, phase)
  }

  const OVERLAP_LOG: seq<Invalidation> := [Invalidation(Paths({"p"}), 2), Invalidation(Paths({"q"}), 4)]

  /** Both refreshes in flight: R1 (generation 3) took {p}, R2 (generation 5) took {q}. */
  const OVERLAPPED := State(
    Core(5, 1, Clean, Some(OverlapSnapshot(1))),
    map[3 := OverlapFlight(3, "p", Loading), 5 := OverlapFlight(5, "q", Loading)],
    OVERLAP_LOG, 6, 1, 5)

  /** The end of the run: nothing in flight, nothing dirty, generation 5 applied. */
  const OVERLAP_END := State(Core(5, 5, Clean, Some(OverlapSnapshot(1))), map[], OVERLAP_LOG, 10, 5, 5)

  const OVERLAP_START: seq<Event> := [
    ApplyDirect(OverlapSnapshot(1)), Invalidate(Paths({"p"})), StartTracked,
    Invalidate(Paths({"q"})), StartTracked]

  const OVERLAP_FINISH: seq<Event> := [
    LoadOk(5, OverlapSnapshot(5)), Settle(5), LoadOk(3, OverlapSnapshot(3)), Settle(3)]

  lemma OverlapStarts()
    ensures Possible(INITIAL, OVERLAP_START) && After(INITIAL, OVERLAP_START) == OVERLAPPED
  {
    var s1 := Next(INITIAL, OVERLAP_START[0]);
    var s2 := Next(s1, OVERLAP_START[1]);
    assert s2.core == Core(2, 1, Paths({"p"}), Some(OverlapSnapshot(1)));
    var s3 := Next(s2, OVERLAP_START[2]);
    var s4 := Next(s3, OVERLAP_START[3]);
    assert s4.core == Core(4, 1, Paths({"q"}), Some(OverlapSnapshot(1)));
    assert Next(s4, OVERLAP_START[4]) == OVERLAPPED;
    RunStep(s4, OVERLAP_START[4], []);
    RunStep(s3, OVERLAP_START[3], [OVERLAP_START[4]]);
    RunStep(s2, OVERLAP_START[2], [OVERLAP_START[3]] + [OVERLAP_START[4]]);
    RunStep(s1, OVERLAP_START[1], [OVERLAP_START[2]] + ([OVERLAP_START[3]] + [OVERLAP_START[4]]));
    RunStep(INITIAL, OVERLAP_START[0], [OVERLAP_START[1]] + ([OVERLAP_START[2]] + ([OVERLAP_START[3]] + [OVERLAP_START[4]])));
  }

  lemma OverlapFinishes()
    ensures Possible(OVERLAPPED, OVERLAP_FINISH) && After(OVERLAPPED, OVERLAP_FINISH) == OVERLAP_END
  {
    var rows := OverlapSnapshot(1).files;
    assert rows == [OVERLAP_ROW];
    assert Existing(rows, Key(OVERLAP_ROW)) == Some(OVERLAP_ROW);
    assert KeptRows(rows, OverlapSnapshot(5).files, Some({"q"})) == rows;
    var s1 := Next(OVERLAPPED, OVERLAP_FINISH[0]);
    assert s1.core == OVERLAP_END.core;
    var s2 := Next(s1, OVERLAP_FINISH[1]);
    var s3 := Next(s2, OVERLAP_FINISH[2]);
    assert s3.core == OVERLAP_END.core;
    assert Next(s3, OVERLAP_FINISH[3]) == OVERLAP_END;
    RunStep(s3, OVERLAP_FINISH[3], []);
    RunStep(s2, OVERLAP_FINISH[2], [OVERLAP_FINISH[3]]);
    RunStep(s1, OVERLAP_FINISH[1], [OVERLAP_FINISH[2]] + [OVERLAP_FINISH[3]]);
    RunStep(OVERLAPPED, OVERLAP_FINISH[0], [OVERLAP_FINISH[1]] + ([OVERLAP_FINISH[2]] + [OVERLAP_FINISH[3]]));
  }

  /**
   * With overlap the guarantee fails. R1 takes {p}; a later surgical R2 takes
   * {q} and lands first; R1 is dropped as superseded. The run ends quiescent,
   * showing p's patch from before its report.
   */
  lemma OverlapEndsStale()
    ensures Possible(INITIAL, OVERLAP_START) && Possible(After(INITIAL, OVERLAP_START), OVERLAP_FINISH)
    ensures
      var s := After(After(INITIAL, OVERLAP_START), OVERLAP_FINISH);
      && Quiescent(s)
      && s.core.cache.Some? && OVERLAP_ROW in s.core.cache.value.files && StaleSince(s, OVERLAP_ROW, 2)
  {
    OverlapStarts();
    OverlapFinishes();
    assert OVERLAP_END.log[0].what.Covers(OVERLAP_ROW.path);
  }

  // ---- the renderer's maps --------------------------------------------------

  /** The refs of the component, each keyed by task. */
  class TaskGitRefs {
    var generation: map<string, nat>
    var appliedGeneration: map<string, nat>
    var invalidatedPaths: map<string, Option<set<string>>>
    var cache: map<string, Snapshot>

    constructor ()
      ensures forall task :: View(task) == INITIAL.core
    {
      generation, appliedGeneration, invalidatedPaths, cache := map[], map[], map[], map[];
    }

    /** What the maps hold for one task; `null` in the dirty map reads as Everything. */
    function View(task: string): Core
      reads this
    {
      Core(
        Get(generation, task).GetOr(0),
        Get(appliedGeneration, task).GetOr(0),
        if task !in invalidatedPaths then Clean
        else if invalidatedPaths[task].None? then Everything
        else Paths(invalidatedPaths[task].value),
        Get(cache, task))
    }

    method ApplyTaskGitSnapshot(task: string, git: Snapshot, expected: Option<nat>) returns (applied: bool)
      modifies this
      ensures expected.None? ==> applied && View(task) == Direct(old(View(task)), git)
      ensures expected.Some? ==>
        applied == (expected.value == old(View(task)).generation)
        && View(task) ==
           if applied then old(View(task)).(applied := expected.value, cache := Some(git)) else old(View(task))
      ensures forall other :: other != task ==> View(other) == old(View(other))
    {
      var current := Get(generation, task).GetOr(0);
      if expected.Some? && expected.value != current {
        return false;
      }
      var appliedNow := if expected.Some? then expected.value else current + 1;
      if expected.None? {
        generation := generation[task := appliedNow];
      }
      appliedGeneration := appliedGeneration[task := appliedNow];
      cache := cache[task := git];
      return true;
    }

    /** `refreshTaskGitSnapshot` up to its await. */
    method BeginRefresh(task: string) returns (mine: nat)
      modifies this
      ensures View(task) == Begun(old(View(task))) && mine == View(task).generation
      ensures forall other :: other != task ==> View(other) == old(View(other))
    {
      mine := Get(generation, task).GetOr(0) + 1;
      generation := generation[task := mine];
    }

    /** `refreshTaskGitSnapshot` after its await. */
    method FinishRefresh(task: string, mine: nat, incoming: Snapshot, surgical: Option<set<string>>)
      returns (git: Option<Snapshot>)
      modifies this
      ensures View(task) == Landed(old(View(task)), mine, incoming, surgical)
      ensures git == if mine == old(View(task)).generation then View(task).cache else None
      ensures forall other :: other != task ==> View(other) == old(View(other))
    {
      var reconciled := Reconcile(Get(cache, task), incoming, surgical);
      var applied := ApplyTaskGitSnapshot(task, reconciled.git, Some(mine));
      git := if applied then Some(reconciled.git) else None;
    }

    /** `invalidateTaskGit`; no `paths` means every path. */
    method InvalidateTaskGit(task: string, paths: Option<set<string>>)
      modifies this
      ensures View(task) == Invalidated(old(View(task)), if paths.None? then Everything else Paths(paths.value))
      ensures forall other :: other != task ==> View(other) == old(View(other))
    {
      var current := Get(invalidatedPaths, task);
      if paths.None? || current == Some(None) {
        invalidatedPaths := invalidatedPaths[task := None];
      } else {
        var known := if current.Some? then current.value.value else {};
        invalidatedPaths := invalidatedPaths[task := Some(known + paths.value)];
      }
      generation := generation[task := Get(generation, task).GetOr(0) + 1];
    }

    /** `refreshInvalidatedTaskGit` up to its await. */
    method BeginInvalidatedRefresh(task: string) returns (taken: Dirty, mine: nat)
      modifies this
      ensures View(task) == Taken(old(View(task)))
      ensures taken == old(View(task)).dirty && mine == View(task).generation
      ensures forall other :: other != task ==> View(other) == old(View(other))
    {
      taken := View(task).dirty;
      invalidatedPaths := invalidatedPaths - {task};
      mine := BeginRefresh(task);
    }

    /** `refreshInvalidatedTaskGit` after its await, when the load was answered. */
    method SettleInvalidatedRefresh(task: string, taken: Dirty, mine: nat, git: Option<Snapshot>)
      modifies this
      ensures View(task) == Settled(old(View(task)), mine, taken, git.Some?)
      ensures forall other :: other != task ==> View(other) == old(View(other))
    {
      if git.None? && Get(appliedGeneration, task).GetOr(0) < mine {
        RejectInvalidatedRefresh(task, taken);
      }
    }

    /** The `catch` of `refreshInvalidatedTaskGit`. */
    method RejectInvalidatedRefresh(task: string, taken: Dirty)
      modifies this
      ensures View(task) == Invalidated(old(View(task)), Rereported(taken))
      ensures forall other :: other != task ==> View(other) == old(View(other))
    {
      InvalidateTaskGit(
        task,
        match taken
        case Everything => None
        case Clean => Some({})
        case Paths(paths) => Some(paths));
    }
  }
}
