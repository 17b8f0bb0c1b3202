/**
 * The single-flight model catalog with epoch invalidation
 * (apps/desktop/src/bridge.ts:2396-2408, 4453-4475).
 */
module ModelCatalog {
  // A request is the promise `discoverModelCatalog(...).then(...).finally(...)`.
  // Its `then`, its `finally` and the answers it passes on are separate steps, so
  // calls and invalidations interleave with each of them.

  import opened Common

  /** `epoch` is the provenance of a catalog: the epoch in which its probe started. */
  datatype Catalog = Catalog(models: seq<string>, epoch: nat)

  /** The three maps, for one runtime; `load` is the registered request. */
  datatype Loader = Loader(cache: Option<Catalog>, load: Option<nat>, epoch: nat)

  /** What `loadModelCatalog` hands back: a cached catalog, or a request to wait on. */
  datatype Source = Now(catalog: Catalog) | On(request: nat)

  /** `loadModelCatalog`; `spare` numbers the request it would create. */
  function Reading(l: Loader, spare: nat): Source {
    if l.cache.Some? then Now(l.cache.value)
    else if l.load.Some? then On(l.load.value)
    else On(spare)
  }

  function Read(l: Loader, spare: nat): Loader {
    if l.cache.None? && l.load.None? then l.(load := Some(spare)) else l
  }

  /** `if (loads.get(runtime) === request) loads.delete(runtime)`. */
  function Released(l: Loader, request: nat): Loader {
    if l.load == Some(request) then l.(load := None) else l
  }

  /** `invalidateModelCatalog`. */
  function Invalidated(l: Loader): Loader {
    Loader(None, None, l.epoch + 1)
  }

  /** The `then` of a request whose probe still belongs to the epoch: an empty catalog is not cached. */
  function Discovered(l: Loader, catalog: Catalog): Loader {
    if catalog.models != [] then l.(cache := Some(catalog)) else l
  }

  // ---- runs -----------------------------------------------------------------

  /** A request restarts at most once: it is then chained to what the nested load handed back. */
  datatype Phase = Probing | Answered(catalog: Catalog) | Rejected | Chained(to: nat)

  datatype Request = Request(epoch: nat, phase: Phase, finished: bool)

  datatype Caller = Caller(epoch: nat, source: Source)

  /** Requests are numbered by creation; `callers` is the history of outside calls. */
  datatype State = State(loader: Loader, requests: seq<Request>, callers: seq<Caller>)

  datatype Event =
    | Call
    | ProbeOk(request: nat, models: seq<string>)
    | ProbeFailed(request: nat)
    | Finish(request: nat)
    | Invalidate

  const INITIAL := State(Loader(None, None, 0), [], [])

  /** The request created by a read, if it created one. */
  function Created(l: Loader, requests: seq<Request>): seq<Request> {
    if l.cache.None? && l.load.None? then requests + [Request(l.epoch, Probing, false)] else requests
  }

  /** Chains lead to requests of later epochs. */
  predicate Forward(requests: seq<Request>) {
    forall r :: 0 <= r < |requests| && requests[r].phase.Chained? ==>
      requests[r].phase.to < |requests| && requests[requests[r].phase.to].epoch > requests[r].epoch
  }

  function MaxEpoch(requests: seq<Request>): (e: nat)
    ensures forall r :: 0 <= r < |requests| ==> requests[r].epoch <= e
  {
    if requests == [] then 0
    else
      var e := MaxEpoch(requests[..|requests| - 1]);
      var last := requests[|requests| - 1].epoch;
      if last > e then last else e
  }

  datatype Answer = Waiting | Failed | Got(catalog: Catalog)

  /** What a request resolves to once its `finally` has run; chained requests pass answers on. */
  function AnswerOf(requests: seq<Request>, r: nat): Answer
    requires Forward(requests) && r < |requests|
    decreases MaxEpoch(requests) - requests[r].epoch
  {
    match requests[r].phase
    case Probing => Waiting
    case Answered(catalog) => Got(catalog)
    case Rejected => Failed
    case Chained(to) => if requests[to].finished then AnswerOf(requests, to) else Waiting
  }

  predicate Enabled(s: State, e: Event) {
    match e
    case Call => true
    case ProbeOk(r, _) => r < |s.requests| && s.requests[r].phase.Probing?
    case ProbeFailed(r) => r < |s.requests| && s.requests[r].phase.Probing?
    case Finish(r) =>
      Forward(s.requests) && r < |s.requests| && !s.requests[r].finished && AnswerOf(s.requests, r) != Waiting
    case Invalidate => true
  }

  function Next(s: State, e: Event): State
    requires Enabled(s, e)
  {
    match e
    case Call =>
      var spare := |s.requests|;
      State(Read(s.loader, spare), Created(s.loader, s.requests),
            s.callers + [Caller(s.loader.epoch, Reading(s.loader, spare))])
    case ProbeOk(r, models) =>
      var request := s.requests[r];
      if request.epoch == s.loader.epoch then
        var catalog := Catalog(models, request.epoch);
        s.(loader := Discovered(s.loader, catalog), requests := s.requests[r := request.(phase := Answered(catalog))])
      else
        // Stale: load again, in the same step, and follow that load.
        var l := Released(s.loader, r);
        var spare := |s.requests|;
        var phase :=
          match Reading(l, spare)
          case Now(catalog) => Answered(catalog)
          case On(to) => Chained(to);
        s.(loader := Read(l, spare), requests := Created(l, s.requests[r := request.(phase := phase)]))
    case ProbeFailed(r) =>
      s.(requests := s.requests[r := s.requests[r].(phase := Rejected)])
    case Finish(r) =>
      s.(loader := Released(s.loader, r), requests := s.requests[r := s.requests[r].(finished := true)])
    case Invalidate =>
      s.(loader := Invalidated(s.loader))
  }

  predicate Possible(s: State, run: seq<Event>)
    decreases |run|
  {
    run == [] || (Enabled(s, run[0]) && Possible(Next(s, run[0]), run[1..]))
  }

  function After(s: State, run: seq<Event>): State
    requires Possible(s, run)
    decreases |run|
  {
    if run == [] then s else After(Next(s, run[0]), run[1..])
  }

  // ---- invariant ------------------------------------------------------------

  /** Facts about one request against the current loader. */
  ghost predicate RequestOk(s: State, r: nat, request: Request) {
    && request.epoch <= s.loader.epoch
    && (request.phase.Answered? ==> request.epoch <= request.phase.catalog.epoch)
    && (request.phase.Chained? ==>
          request.phase.to < |s.requests| && s.requests[request.phase.to].epoch > request.epoch)
    && (request.phase.Probing? ==> !request.finished)
    && (request.phase.Chained? && request.finished ==> s.requests[request.phase.to].finished)
    && (request.phase.Probing? && request.epoch == s.loader.epoch ==> s.loader.load == Some(r))
  }

  ghost predicate CallerOk(s: State, caller: Caller) {
    match caller.source
    case Now(catalog) => catalog.epoch >= caller.epoch
    case On(r) => r < |s.requests| && s.requests[r].epoch >= caller.epoch
  }

  ghost predicate Inv(s: State) {
    && (s.loader.cache.Some? ==> s.loader.cache.value.epoch == s.loader.epoch && s.loader.cache.value.models != [])
    && (s.loader.load.Some? ==>
          && s.loader.load.value < |s.requests|
          && s.requests[s.loader.load.value].epoch == s.loader.epoch
          && !s.requests[s.loader.load.value].finished)
    && (forall r :: 0 <= r < |s.requests| ==> RequestOk(s, r, s.requests[r]))
    && (forall i :: 0 <= i < |s.callers| ==> CallerOk(s, s.callers[i]))
  }

  lemma InvForward(s: State)
    requires Inv(s)
    ensures Forward(s.requests)
  {
    assert forall r :: 0 <= r < |s.requests| ==> RequestOk(s, r, s.requests[r]);
  }

  /** Requests never disappear, and keep the epoch they started in. */
  lemma RequestsPersist(s: State, e: Event)
    requires Enabled(s, e)
    ensures |s.requests| <= |Next(s, e).requests|
    ensures forall r :: 0 <= r < |s.requests| ==>
      && Next(s, e).requests[r].epoch == s.requests[r].epoch
      && (s.requests[r].finished ==> Next(s, e).requests[r].finished)
    ensures s.loader.epoch <= Next(s, e).loader.epoch
  {
  }

  lemma LoaderNext(s: State, e: Event)
    requires Inv(s) && Enabled(s, e)
    ensures
      var t := Next(s, e);
      && (t.loader.cache.Some? ==> t.loader.cache.value.epoch == t.loader.epoch && t.loader.cache.value.models != [])
      && (t.loader.load.Some? ==>
            && t.loader.load.value < |t.requests|
            && t.requests[t.loader.load.value].epoch == t.loader.epoch
            && !t.requests[t.loader.load.value].finished)
  {
    RequestsPersist(s, e);
    if e.ProbeOk? {
      assert RequestOk(s, e.request, s.requests[e.request]);
    }
  }

  lemma RestartOk(s: State, r: nat, models: seq<string>)
    requires Inv(s) && Enabled(s, ProbeOk(r, models)) && s.requests[r].epoch != s.loader.epoch
    ensures
      var t := Next(s, ProbeOk(r, models));
      RequestOk(t, r, t.requests[r])
  {
    assert RequestOk(s, r, s.requests[r]);
    LoaderNext(s, ProbeOk(r, models));
  }

  lemma RequestNext(s: State, e: Event, r: nat)
    requires Inv(s) && Enabled(s, e) && r < |Next(s, e).requests|
    ensures RequestOk(Next(s, e), r, Next(s, e).requests[r])
  {
    RequestsPersist(s, e);
    if r < |s.requests| {
      assert RequestOk(s, r, s.requests[r]);
      match e
      case ProbeOk(q, models) =>
        if s.requests[q].epoch != s.loader.epoch {
          RestartOk(s, q, models);
        }
      case Call =>
      case ProbeFailed(_) =>
      case Finish(_) =>
      case Invalidate =>
    }
  }

  lemma InvNext(s: State, e: Event)
    requires Inv(s) && Enabled(s, e)
    ensures Inv(Next(s, e))
  {
    var t := Next(s, e);
    LoaderNext(s, e);
    RequestsPersist(s, e);
    forall r | 0 <= r < |t.requests|
      ensures RequestOk(t, r, t.requests[r])
    {
      RequestNext(s, e, r);
    }
    forall i | 0 <= i < |t.callers|
      ensures CallerOk(t, t.callers[i])
    {
      assert i < |s.callers| ==> CallerOk(s, s.callers[i]);
    }
  }

  lemma {:induction false} EveryRunKeepsInv(s: State, run: seq<Event>)
    requires Inv(s) && Possible(s, run)
    ensures Inv(After(s, run))
    decreases |run|
  {
    if run != [] {
      InvNext(s, run[0]);
      EveryRunKeepsInv(Next(s, run[0]), run[1..]);
    }
  }

  /** An answer comes from an epoch no older than the request it answers. */
  lemma {:induction false} AnswersAreNotOlder(s: State, r: nat)
    requires Inv(s) && Forward(s.requests) && r < |s.requests|
    ensures AnswerOf(s.requests, r).Got? ==> AnswerOf(s.requests, r).catalog.epoch >= s.requests[r].epoch
    decreases MaxEpoch(s.requests) - s.requests[r].epoch
  {
    assert RequestOk(s, r, s.requests[r]);
    if s.requests[r].phase.Chained? {
      AnswersAreNotOlder(s, s.requests[r].phase.to);
    }
  }

  // ---- claims over every run ------------------------------------------------

  /** A cached catalog was discovered by a probe of the current epoch; a registered load belongs to it too. */
  lemma CacheAndLoadAreCurrent(run: seq<Event>)
    requires Possible(INITIAL, run)
    ensures
      var s := After(INITIAL, run);
      && (s.loader.cache.Some? ==> s.loader.cache.value.epoch == s.loader.epoch)
      && (s.loader.load.Some? ==>
            s.loader.load.value < |s.requests| && s.requests[s.loader.load.value].epoch == s.loader.epoch)
  {
    EveryRunKeepsInv(INITIAL, run);
  }

  /** At most one probe of the current epoch is running. */
  lemma OneProbeAtATime(run: seq<Event>, q: nat, r: nat)
    requires Possible(INITIAL, run) && q < |After(INITIAL, run).requests| && r < |After(INITIAL, run).requests|
    requires
      var s := After(INITIAL, run);
      && s.requests[q].phase.Probing? && s.requests[q].epoch == s.loader.epoch
      && s.requests[r].phase.Probing? && s.requests[r].epoch == s.loader.epoch
    ensures q == r
  {
    EveryRunKeepsInv(INITIAL, run);
    var s := After(INITIAL, run);
    assert RequestOk(s, q, s.requests[q]) && RequestOk(s, r, s.requests[r]);
  }

  /** Without an invalidation the epoch stays. */
  predicate Undisturbed(run: seq<Event>) {
    Invalidate !in run
  }

  /** The catalog is cached, so no probe of this epoch runs any more. */
  ghost predicate Holds(s: State, catalog: Catalog) {
    && s.loader.cache == Some(catalog) && catalog.epoch == s.loader.epoch
    && forall r :: 0 <= r < |s.requests| && s.requests[r].phase.Probing? ==> s.requests[r].epoch != s.loader.epoch
  }

  lemma HoldsNext(s: State, e: Event, catalog: Catalog)
    requires Inv(s) && Holds(s, catalog) && Enabled(s, e) && e != Invalidate
    ensures Holds(Next(s, e), catalog) && Next(s, e).loader.epoch == s.loader.epoch
  {
  }

  lemma {:induction false} HoldsUntilInvalidated(s: State, run: seq<Event>, catalog: Catalog)
    requires Inv(s) && Holds(s, catalog) && Possible(s, run) && Undisturbed(run)
    ensures Inv(After(s, run)) && Holds(After(s, run), catalog)
    decreases |run|
  {
    if run != [] {
      assert run[0] in run && forall e :: e in run[1..] ==> e in run;
      InvNext(s, run[0]);
      HoldsNext(s, run[0], catalog);
      HoldsUntilInvalidated(Next(s, run[0]), run[1..], catalog);
    }
  }

  /**
   * After a probe of the current epoch answers with a nonempty list and until the
   * next invalidation, the cache holds exactly that list, and a call receives it
   * at once and creates no request.
   */
  lemma CachedUntilInvalidated(run: seq<Event>, r: nat, models: seq<string>, more: seq<Event>)
    requires Possible(INITIAL, run) && Enabled(After(INITIAL, run), ProbeOk(r, models)) && models != []
    requires
      var s := After(INITIAL, run);
      s.requests[r].epoch == s.loader.epoch && Possible(Next(s, ProbeOk(r, models)), more) && Undisturbed(more)
    ensures
      var s := After(INITIAL, run);
      var t := After(Next(s, ProbeOk(r, models)), more);
      var u := Next(t, Call);
      && t.loader.cache == Some(Catalog(models, s.loader.epoch))
      && u.callers == t.callers + [Caller(s.loader.epoch, Now(Catalog(models, s.loader.epoch)))]
      && u.requests == t.requests && u.loader == t.loader
  {
    EveryRunKeepsInv(INITIAL, run);
    var s := After(INITIAL, run);
    InvNext(s, ProbeOk(r, models));
    assert RequestOk(s, r, s.requests[r]);
    forall q | 0 <= q < |s.requests| && q != r && s.requests[q].phase.Probing?
      ensures s.requests[q].epoch != s.loader.epoch
    {
      assert RequestOk(s, q, s.requests[q]);
    }
    HoldsUntilInvalidated(Next(s, ProbeOk(r, models)), more, Catalog(models, s.loader.epoch));
  }

  /** An empty list answers its request, but is not cached: the loader stays as it was. */
  lemma EmptyIsNotCached(s: State, r: nat)
    requires Enabled(s, ProbeOk(r, [])) && s.requests[r].epoch == s.loader.epoch
    ensures Next(s, ProbeOk(r, [])).loader == s.loader
    ensures Next(s, ProbeOk(r, [])).requests == s.requests[r := s.requests[r].(phase := Answered(Catalog([], s.loader.epoch)))]
  {
  }

  /**
   * A call without a cached catalog joins the registered load if there is one and
   * otherwise registers one request, of the current epoch, and waits on it.
   */
  lemma CallExactly(run: seq<Event>)
    requires Possible(INITIAL, run)
    ensures
      var s := After(INITIAL, run);
      var t := Next(s, Call);
      && |t.callers| == |s.callers| + 1 && t.callers[..|s.callers|] == s.callers
      && t.loader.epoch == s.loader.epoch && t.loader.cache == s.loader.cache
      && var caller := t.callers[|s.callers|];
        && caller.epoch == s.loader.epoch
        && match caller.source
           case Now(catalog) => s.loader.cache == Some(catalog) && t.requests == s.requests && t.loader == s.loader
           case On(r) =>
             && s.loader.cache.None? && t.loader.load == Some(r)
             && if s.loader.load.Some? then t.requests == s.requests && s.loader.load == Some(r)
                else r == |s.requests| && t.requests == s.requests + [Request(s.loader.epoch, Probing, false)]
  {
  }

  /**
   * A probe of an older epoch caches nothing. Its request passes on the cached
   * catalog if there is one, else follows the load registered now, which it
   * registers itself, for the current epoch, if there is none but its own.
   */
  lemma StaleProbeFollows(s: State, r: nat, models: seq<string>)
    requires Enabled(s, ProbeOk(r, models)) && s.requests[r].epoch != s.loader.epoch
    ensures
      var t, others := Next(s, ProbeOk(r, models)), s.loader.load.Some? && s.loader.load != Some(r);
      && t.loader.cache == s.loader.cache && t.loader.epoch == s.loader.epoch && t.callers == s.callers
      && t.requests[r].epoch == s.requests[r].epoch && t.requests[r].finished == s.requests[r].finished
      && if s.loader.cache.Some?
         then
           && t.requests == s.requests[r := t.requests[r]] && t.requests[r].phase == Answered(s.loader.cache.value)
           && t.loader.load == (if others then s.loader.load else None)
         else if others
         then
           && t.requests == s.requests[r := t.requests[r]] && t.requests[r].phase == Chained(s.loader.load.value)
           && t.loader.load == s.loader.load
         else
           && t.requests == s.requests[r := t.requests[r]] + [Request(s.loader.epoch, Probing, false)]
           && t.requests[r].phase == Chained(|s.requests|) && t.loader.load == Some(|s.requests|)
  {
  }

  /** A failed probe rejects its request; nothing is cached and the registration stays until the request finishes. */
  lemma FailedProbeRejects(s: State, r: nat)
    requires Enabled(s, ProbeFailed(r))
    ensures
      Next(s, ProbeFailed(r)) ==
      State(s.loader, s.requests[r := Request(s.requests[r].epoch, Rejected, s.requests[r].finished)], s.callers)
  {
  }

  /** An invalidation leaves no catalog and no registered load, so the next call probes again. */
  lemma InvalidatedLoadsAnew(s: State)
    ensures
      var t := Next(Next(s, Invalidate), Call);
      && t.loader.epoch == s.loader.epoch + 1
      && t.requests == s.requests + [Request(s.loader.epoch + 1, Probing, false)]
      && t.callers == s.callers + [Caller(s.loader.epoch + 1, On(|s.requests|))]
  {
  }

  /** A finished request is registered no longer; what another request registered stays. */
  lemma FinishReleasesOwn(s: State, r: nat)
    requires Enabled(s, Finish(r))
    ensures
      var t := Next(s, Finish(r));
      && t.loader.load != Some(r) && (s.loader.load != Some(r) ==> t.loader.load == s.loader.load)
      && t.loader.cache == s.loader.cache && t.loader.epoch == s.loader.epoch
      && t.requests[r].finished
  {
  }

  /** What a caller has received, if anything. */
  function Received(s: State, caller: Caller): Answer
    requires Forward(s.requests) && (caller.source.On? ==> caller.source.request < |s.requests|)
  {
    match caller.source
    case Now(catalog) => Got(catalog)
    case On(r) => if s.requests[r].finished then AnswerOf(s.requests, r) else Waiting
  }

  /** Every catalog a caller receives comes from an epoch no older than its call. */
  lemma NoCallerReceivesAStaleCatalog(run: seq<Event>, i: nat)
    requires Possible(INITIAL, run) && i < |After(INITIAL, run).callers|
    ensures
      var s := After(INITIAL, run);
      var caller := s.callers[i];
      && Forward(s.requests) && (caller.source.On? ==> caller.source.request < |s.requests|)
      && (Received(s, caller).Got? ==> Received(s, caller).catalog.epoch >= caller.epoch)
  {
    EveryRunKeepsInv(INITIAL, run);
    var s := After(INITIAL, run);
    InvForward(s);
    assert CallerOk(s, s.callers[i]);
    if s.callers[i].source.On? {
      AnswersAreNotOlder(s, s.callers[i].source.request);
    }
  }

  /** The requests a request has restarted into, one after the other. */
  function Restarts(requests: seq<Request>, r: nat): (chain: seq<nat>)
    requires Forward(requests) && r < |requests|
    decreases MaxEpoch(requests) - requests[r].epoch
  {
    if requests[r].phase.Chained? then [requests[r].phase.to] + Restarts(requests, requests[r].phase.to) else []
  }

  /** The chain's requests have strictly later epochs, so it never returns to its start, and it is short. */
  lemma {:induction false} RestartsMoveForward(s: State, r: nat)
    requires Inv(s) && Forward(s.requests) && r < |s.requests|
    ensures forall q :: q in Restarts(s.requests, r) ==> q < |s.requests| && s.requests[q].epoch > s.requests[r].epoch
    ensures |Restarts(s.requests, r)| <= s.loader.epoch - s.requests[r].epoch
    decreases MaxEpoch(s.requests) - s.requests[r].epoch
  {
    assert RequestOk(s, r, s.requests[r]);
    if s.requests[r].phase.Chained? {
      RestartsMoveForward(s, s.requests[r].phase.to);
    }
  }

  /** A restart chain never waits on itself and restarts at most once per invalidation since the request began. */
  lemma RestartsAreBounded(run: seq<Event>, r: nat)
    requires Possible(INITIAL, run) && r < |After(INITIAL, run).requests|
    ensures
      var s := After(INITIAL, run);
      && Forward(s.requests)
      && r !in Restarts(s.requests, r)
      && |Restarts(s.requests, r)| <= s.loader.epoch - s.requests[r].epoch
  {
    EveryRunKeepsInv(INITIAL, run);
    InvForward(After(INITIAL, run));
    RestartsMoveForward(After(INITIAL, run), r);
  }

  ghost predicate CanMove(s: State, r: nat) {
    r < |s.requests| && (Enabled(s, ProbeFailed(r)) || Enabled(s, Finish(r)))
  }

  lemma {:induction false} FinishedIsAnswered(s: State, r: nat)
    requires Inv(s) && Forward(s.requests) && r < |s.requests| && s.requests[r].finished
    ensures AnswerOf(s.requests, r) != Waiting
    decreases MaxEpoch(s.requests) - s.requests[r].epoch
  {
    assert RequestOk(s, r, s.requests[r]);
    if s.requests[r].phase.Chained? {
      FinishedIsAnswered(s, s.requests[r].phase.to);
    }
  }

  /** No deadlock: a request that is not finished waits only on a running probe or on a `finally` that is due. */
  lemma {:induction false} WaitingCanMove(s: State, r: nat) returns (q: nat)
    requires Inv(s) && Forward(s.requests) && r < |s.requests| && !s.requests[r].finished
    ensures CanMove(s, q) && (q == r || q in Restarts(s.requests, r))
    decreases MaxEpoch(s.requests) - s.requests[r].epoch
  {
    assert RequestOk(s, r, s.requests[r]);
    q := r;
    if s.requests[r].phase.Chained? {
      var to := s.requests[r].phase.to;
      if s.requests[to].finished {
        FinishedIsAnswered(s, to);
      } else {
        q := WaitingCanMove(s, to);
      }
    }
  }

  // ---- the module's maps ----------------------------------------------------

  /** Catalogs, loads and epochs of every runtime; `created` counts the promises made. */
  class ModelCatalogs {
    var caches: map<string, Catalog>
    var loads: map<string, nat>
    var epochs: map<string, nat>
    var created: nat

    constructor ()
      ensures forall runtime :: View(runtime) == INITIAL.loader
    {
      caches, loads, epochs, created := map[], map[], map[], 0;
    }

    function View(runtime: string): Loader
      reads this
    {
      Loader(Get(caches, runtime), Get(loads, runtime), Get(epochs, runtime).GetOr(0))
    }

    /** `loadModelCatalog` up to its first suspension. */
    method Load(runtime: string) returns (source: Source)
      modifies this
      ensures source == Reading(old(View(runtime)), old(created))
      ensures View(runtime) == Read(old(View(runtime)), old(created))
      ensures forall other :: other != runtime ==> View(other) == old(View(other))
    {
      if runtime in caches {
        return Now(caches[runtime]);
      }
      if runtime in loads {
        return On(loads[runtime]);
      }
      source := On(created);
      loads := loads[runtime := created];
      created := created + 1;
    }

    method Release(runtime: string, request: nat)
      modifies this
      ensures View(runtime) == Released(old(View(runtime)), request) && created == old(created)
      ensures forall other :: other != runtime ==> View(other) == old(View(other))
    {
      if runtime in loads && loads[runtime] == request {
        loads := loads - {runtime};
      }
    }

    /** The `then` of a request that started in `epoch`. */
    method OnProbe(runtime: string, request: nat, epoch: nat, models: seq<string>) returns (source: Source)
      modifies this
      ensures
        var before := old(View(runtime));
        if epoch == before.epoch
        then View(runtime) == Discovered(before, Catalog(models, epoch)) && source == Now(Catalog(models, epoch))
        else
          && View(runtime) == Read(Released(before, request), old(created))
          && source == Reading(Released(before, request), old(created))
      ensures forall other :: other != runtime ==> View(other) == old(View(other))
    {
      if Get(epochs, runtime).GetOr(0) != epoch {
        Release(runtime, request);
        source := Load(runtime);
        return;
      }
      var catalog := Catalog(models, epoch);
      if |models| > 0 {
        caches := caches[runtime := catalog];
      }
      source := Now(catalog);
    }

    method Invalidate(runtime: string)
      modifies this
      ensures View(runtime) == Invalidated(old(View(runtime)))
      ensures forall other :: other != runtime ==> View(other) == old(View(other))
    {
      epochs := epochs[runtime := Get(epochs, runtime).GetOr(0) + 1];
      loads := loads - {runtime};
      caches := caches - {runtime};
    }
  }
}
