/**
 * Stills of browser tabs, one per open tab (apps/desktop/src/browserPosters.ts).
 */
module BrowserPosters {
  // A poster call, a warm capture and a retry timer each complete in a later
  // step, in any order. A `Still` carries the document its call was issued for;
  // a `PosterTab` carries the document the page really shows, which the cache
  // never reads.

  import opened Common

  datatype PosterTab = PosterTab(id: string, url: string, loading: bool, document: nat)

  datatype Still = Still(data: string, document: nat)

  /** `still` is None while the source holds "" there. */
  datatype Entry = Entry(still: Option<Still>, forUrl: string, pending: bool, attempts: nat, request: nat)

  /** The fields of a `BrowserPosterCache`; the published pictures carry their documents too. */
  datatype Cache = Cache(entries: map<string, Entry>, view: map<string, Still>, sequence: nat)

  function ViewOf(entries: map<string, Entry>): (view: map<string, Still>)
    ensures forall id :: id in view <==> id in entries && entries[id].still.Some?
    ensures forall id :: id in view ==> view[id] == entries[id].still.value
  {
    map id | id in entries && entries[id].still.Some? :: entries[id].still.value
  }

  /** `publish`. */
  function Published(c: Cache): Cache {
    c.(view := ViewOf(c.entries))
  }

  /** The synchronous part of `fetch`; the call it issues has number `sequence + 1`. */
  function Fetched(c: Cache, id: string, url: string): Cache {
    var request := c.sequence + 1;
    var samePage := id in c.entries && c.entries[id].forUrl == url;
    var entry :=
      if samePage then Entry(c.entries[id].still, url, true, c.entries[id].attempts + 1, request)
      else Entry(None, url, true, 1, request);
    c.(sequence := request, entries := c.entries[id := entry])
  }

  /** `sync` up to its source check: forget closed tabs. */
  function Closed(c: Cache, open: set<string>): Cache {
    if c.entries.Keys <= open then c
    else Published(c.(entries := map id | id in c.entries && id in open :: c.entries[id]))
  }

  /** Whether `sync` asks for a tab's still. */
  predicate Asks(c: Cache, tab: PosterTab) {
    !tab.loading && !(tab.id in c.entries && c.entries[tab.id].forUrl == tab.url)
  }

  /** Whether `sync` drops a loading tab's still. */
  predicate Drops(c: Cache, tab: PosterTab) {
    tab.loading && tab.id in c.entries
  }

  /** One turn of the loop in `sync`. */
  function Synced(c: Cache, tab: PosterTab): Cache {
    if Drops(c, tab) then Published(c.(entries := c.entries - {tab.id}))
    else if Asks(c, tab) then Fetched(c, tab.id, tab.url)
    else c
  }

  function SyncedAll(c: Cache, tabs: seq<PosterTab>): Cache
    decreases |tabs|
  {
    if tabs == [] then c else SyncedAll(Synced(c, tabs[0]), tabs[1..])
  }

  function Ids(tabs: seq<PosterTab>): (ids: set<string>)
    ensures forall id :: id in ids <==> exists tab :: tab in tabs && tab.id == id
  {
    set tab | tab in tabs :: tab.id
  }

  /** Whether `refresh` asks again. */
  predicate Refreshes(c: Cache, id: string) {
    id in c.entries && !c.entries[id].pending
  }

  /** Whether a settled call is still the entry's own. */
  predicate Matches(c: Cache, id: string, url: string, request: nat) {
    id in c.entries && c.entries[id].forUrl == url && c.entries[id].request == request
  }

  /** The still after a settled call: the new picture, or the one already held. */
  function Kept(entry: Entry, data: string, document: nat): Option<Still> {
    if data != "" then Some(Still(data, document)) else entry.still
  }

  function Shown(view: map<string, Still>, id: string): string {
    Text(Get(view, id))
  }

  function Text(still: Option<Still>): string {
    if still.None? then "" else still.value.data
  }

  /** `settle`, without its timer; `data` is "" when there is no picture. */
  function Settled(c: Cache, id: string, url: string, request: nat, data: string, document: nat): Cache {
    if !Matches(c, id, url, request) then c
    else
      var still := Kept(c.entries[id], data, document);
      var next := c.(entries := c.entries[id := c.entries[id].(still := still, pending := false)]);
      if Shown(c.view, id) != Text(still) then Published(next) else next.(view := Credited(next.view, id, still))
  }

  /** The same picture, from now on the new call's; only the history changes. */
  function Credited(view: map<string, Still>, id: string, still: Option<Still>): map<string, Still> {
    if still.Some? then view[id := still.value] else view
  }

  /** Whether `settle` leaves a retry timer. */
  predicate LeavesTimer(c: Cache, id: string, url: string, request: nat, data: string) {
    Matches(c, id, url, request) && Kept(c.entries[id], data, 0).None? && c.entries[id].attempts < 2
  }

  /** Whether a fired timer asks again. */
  predicate Retries(c: Cache, id: string, url: string) {
    id in c.entries && c.entries[id].forUrl == url && !c.entries[id].pending && c.entries[id].still.None?
  }

  predicate Warms(c: Cache, id: string, url: string, request: nat, data: string) {
    data != "" && id in c.entries && c.entries[id].forUrl == url && c.entries[id].request <= request
  }

  /** The completion of `warm`. */
  function Warmed(c: Cache, id: string, url: string, request: nat, data: string, document: nat): Cache {
    if !Warms(c, id, url, request, data) then c
    else
      var entry := c.entries[id].(still := Some(Still(data, document)), request := request);
      Published(c.(entries := c.entries[id := entry]))
  }

  // ---- runs -----------------------------------------------------------------

  /** A call that has been issued; `document` is the tab's document at that moment. */
  datatype Call = Call(id: string, url: string, document: nat, warm: bool)

  datatype Timer = Timer(id: string, url: string)

  /** The address and document of a tab when `sync` last saw it loaded. */
  datatype Seen = Seen(url: string, document: nat)

  /**
   * Calls are keyed by request number and timers by the request that left them.
   * `auto` counts the automatic calls made for the tab's current document;
   * `stale` counts the retry timers that were already running for the same
   * address when that document was first asked for.
   */
  datatype State = State(
    cache: Cache, calls: map<nat, Call>, timers: map<nat, Timer>,
    seen: map<string, Seen>, auto: map<string, nat>, stale: map<string, nat>)

  datatype Event =
    | Sync(live: bool, tabs: seq<PosterTab>)
    | Refresh(id: string)
    | Warm(id: string)
    | Complete(request: nat, data: string)
    | Fire(timer: nat)

  const INITIAL := State(Cache(map[], map[], 0), map[], map[], map[], map[], map[])

  function TimersOf(timers: map<nat, Timer>, timer: Timer): (running: set<nat>)
    ensures running <= timers.Keys
  {
    set t | t in timers && timers[t] == timer
  }

  function SyncTab(s: State, tab: PosterTab): State {
    var cache := Synced(s.cache, tab);
    var t := s.(cache := cache,
                seen := if tab.loading then s.seen - {tab.id} else s.seen[tab.id := Seen(tab.url, tab.document)]);
    if Asks(s.cache, tab) then
      t.(calls := s.calls[cache.sequence := Call(tab.id, tab.url, tab.document, false)],
         auto := s.auto[tab.id := 1],
         stale := s.stale[tab.id := |TimersOf(s.timers, Timer(tab.id, tab.url))|])
    else t
  }

  function SyncTabs(s: State, tabs: seq<PosterTab>): State
    decreases |tabs|
  {
    if tabs == [] then s else SyncTabs(SyncTab(s, tabs[0]), tabs[1..])
  }

  function CloseTabs(s: State, open: set<string>): State {
    s.(cache := Closed(s.cache, open), seen := map id | id in s.seen && id in open :: s.seen[id])
  }

  /**
   * What `sync` relies on: a tab whose address has not changed since it was last
   * seen loaded shows the same document, unless it was seen loading or closed in
   * between.
   */
  predicate Reported(s: State, tab: PosterTab) {
    !tab.loading && tab.id in s.seen && s.seen[tab.id].url == tab.url ==> s.seen[tab.id].document == tab.document
  }

  predicate AllReported(s: State, tabs: seq<PosterTab>)
    decreases |tabs|
  {
    tabs == [] || (Reported(s, tabs[0]) && AllReported(SyncTab(s, tabs[0]), tabs[1..]))
  }

  predicate Enabled(s: State, e: Event) {
    match e
    case Sync(live, tabs) => live ==> AllReported(CloseTabs(s, Ids(tabs)), tabs)
    case Refresh(_) => true
    case Warm(_) => true
    case Complete(request, _) => request in s.calls
    case Fire(timer) => timer in s.timers
  }

  /** The document of a tab, as far as its last loaded sighting tells. */
  function Current(s: State, id: string): nat {
    if id in s.seen then s.seen[id].document else 0
  }

  /** A fetch at the entry's own address, by `refresh` or a timer. */
  function Refetched(s: State, id: string): State
    requires id in s.cache.entries
  {
    var url := s.cache.entries[id].forUrl;
    s.(cache := Fetched(s.cache, id, url),
       calls := s.calls[s.cache.sequence + 1 := Call(id, url, Current(s, id), false)])
  }

  function Next(s: State, e: Event): State
    requires Enabled(s, e)
  {
    match e
    case Sync(live, tabs) =>
      var t := CloseTabs(s, Ids(tabs));
      if live then SyncTabs(t, tabs) else t
    case Refresh(id) =>
      if Refreshes(s.cache, id) then Refetched(s, id) else s
    case Warm(id) =>
      if id in s.cache.entries then
        s.(cache := s.cache.(sequence := s.cache.sequence + 1),
           calls := s.calls[s.cache.sequence + 1 := Call(id, s.cache.entries[id].forUrl, Current(s, id), true)])
      else s
    case Complete(request, data) =>
      var call := s.calls[request];
      var t := s.(calls := s.calls - {request});
      if call.warm then t.(cache := Warmed(s.cache, call.id, call.url, request, data, call.document))
      else
        t.(cache := Settled(s.cache, call.id, call.url, request, data, call.document),
           timers := if LeavesTimer(s.cache, call.id, call.url, request, data)
                     then s.timers[request := Timer(call.id, call.url)] else s.timers)
    case Fire(timer) =>
      var at := s.timers[timer];
      var t := s.(timers := s.timers - {timer});
      if Retries(s.cache, at.id, at.url)
      then Refetched(t, at.id).(auto := s.auto[at.id := Get(s.auto, at.id).GetOr(0) + 1])
      else t
  }

  predicate Possible(s: State, run: seq<Event>)
    decreases |run|
  {
    run == [] || (Enabled(s, run[0]) && Possible(Next(s, run[0]), run[1..]))
  }

  function After(s: State, run: seq<Event>): State
    requires Possible(s, run)
    decreases |run|
  {
    if run == [] then s else After(Next(s, run[0]), run[1..])
  }

  // ---- documents and the published view -------------------------------------

  ghost predicate OwnStill(s: State, id: string) {
    id in s.cache.entries ==>
      && id in s.seen && s.cache.entries[id].forUrl == s.seen[id].url
      && (s.cache.entries[id].still.Some? ==> s.cache.entries[id].still.value.document == s.seen[id].document)
  }

  /** A held still came from a call issued for the document the tab was last seen with. */
  ghost predicate NoForeignStill(s: State) {
    forall id :: OwnStill(s, id)
  }

  ghost predicate CallBelongs(s: State, r: nat, call: Call) {
    && r <= s.cache.sequence
    && (call.id in s.cache.entries && call.id in s.seen
        && call.url == s.cache.entries[call.id].forUrl && r >= s.cache.entries[call.id].request
        ==> call.document == s.seen[call.id].document)
  }

  /** A call that could still land on an entry was issued for that entry's document. */
  ghost predicate CallsBelong(s: State) {
    forall r :: r in s.calls ==> CallBelongs(s, r, s.calls[r])
  }

  /** The published view holds open tabs only and differs from the entries only where a call is pending for a first still. */
  ghost predicate ViewCurrent(c: Cache) {
    forall id :: ShownRight(c, id)
  }

  ghost predicate ShownRight(c: Cache, id: string) {
    && (id in c.view ==> id in c.entries && c.view[id].data != "")
    && (id in c.entries ==>
          && (c.entries[id].still.Some? ==> c.entries[id].still.value.data != "")
          && (Get(c.view, id) == c.entries[id].still || (c.entries[id].pending && c.entries[id].still.None?)))
  }

  ghost predicate Inv(s: State) {
    NoForeignStill(s) && CallsBelong(s) && ViewCurrent(s.cache)
  }

  /** Publishing makes the whole view current, whatever it was before. */
  lemma ViewPublished(c: Cache)
    requires forall id :: id in c.entries && c.entries[id].still.Some? ==> c.entries[id].still.value.data != ""
    ensures ViewCurrent(Published(c))
    ensures forall id :: Get(Published(c).view, id) == if id in c.entries then c.entries[id].still else None
  {
  }

  lemma ViewFetched(c: Cache, id: string, url: string)
    requires ViewCurrent(c)
    ensures ViewCurrent(Fetched(c, id, url))
  {
    var next := Fetched(c, id, url);
    forall other
      ensures ShownRight(next, other)
    {
      assert ShownRight(c, other);
    }
  }

  lemma Texts(c: Cache)
    requires ViewCurrent(c)
    ensures forall id :: id in c.entries && c.entries[id].still.Some? ==> c.entries[id].still.value.data != ""
  {
    forall id | id in c.entries && c.entries[id].still.Some?
      ensures c.entries[id].still.value.data != ""
    {
      assert ShownRight(c, id);
    }
  }

  lemma ViewSynced(c: Cache, tab: PosterTab)
    requires ViewCurrent(c)
    ensures ViewCurrent(Synced(c, tab))
  {
    if tab.loading {
      Texts(c);
      ViewPublished(c.(entries := c.entries - {tab.id}));
    } else if Asks(c, tab) {
      ViewFetched(c, tab.id, tab.url);
    }
  }

  lemma ViewClosed(c: Cache, open: set<string>)
    requires ViewCurrent(c)
    ensures ViewCurrent(Closed(c, open))
  {
    Texts(c);
    ViewPublished(c.(entries := map id | id in c.entries && id in open :: c.entries[id]));
  }

  lemma ViewSettled(c: Cache, id: string, url: string, request: nat, data: string, document: nat)
    requires ViewCurrent(c)
    ensures ViewCurrent(Settled(c, id, url, request, data, document))
  {
    if Matches(c, id, url, request) {
      Texts(c);
      var still := Kept(c.entries[id], data, document);
      var next := c.(entries := c.entries[id := c.entries[id].(still := still, pending := false)]);
      ViewPublished(next);
      forall other
        ensures Shown(c.view, id) == Text(still) ==> ShownRight(next.(view := Credited(next.view, id, still)), other)
      {
        assert ShownRight(c, other);
      }
    }
  }

  lemma ViewWarmed(c: Cache, id: string, url: string, request: nat, data: string, document: nat)
    requires ViewCurrent(c)
    ensures ViewCurrent(Warmed(c, id, url, request, data, document))
  {
    if Warms(c, id, url, request, data) {
      Texts(c);
      var entry := c.entries[id].(still := Some(Still(data, document)), request := request);
      ViewPublished(c.(entries := c.entries[id := entry]));
    }
  }

  lemma InvSyncTab(s: State, tab: PosterTab)
    requires Inv(s) && Reported(s, tab)
    ensures Inv(SyncTab(s, tab))
  {
    var t := SyncTab(s, tab);
    ViewSynced(s.cache, tab);
    assert OwnStill(s, tab.id);
    forall id
      ensures OwnStill(t, id)
    {
      assert OwnStill(s, id);
    }
    forall r | r in t.calls
      ensures CallBelongs(t, r, t.calls[r])
    {
      assert r in s.calls ==> CallBelongs(s, r, s.calls[r]);
    }
  }

  lemma {:induction false} InvSyncTabs(s: State, tabs: seq<PosterTab>)
    requires Inv(s) && AllReported(s, tabs)
    ensures Inv(SyncTabs(s, tabs))
    decreases |tabs|
  {
    if tabs != [] {
      InvSyncTab(s, tabs[0]);
      InvSyncTabs(SyncTab(s, tabs[0]), tabs[1..]);
    }
  }

  lemma InvCloseTabs(s: State, open: set<string>)
    requires Inv(s)
    ensures Inv(CloseTabs(s, open))
  {
    var t := CloseTabs(s, open);
    ViewClosed(s.cache, open);
    forall id
      ensures OwnStill(t, id)
    {
      assert OwnStill(s, id);
    }
    forall r | r in t.calls
      ensures CallBelongs(t, r, t.calls[r])
    {
      assert CallBelongs(s, r, s.calls[r]);
      assert OwnStill(s, s.calls[r].id);
    }
  }

  lemma InvRefetched(s: State, id: string)
    requires Inv(s) && id in s.cache.entries
    ensures Inv(Refetched(s, id))
  {
    var t := Refetched(s, id);
    ViewFetched(s.cache, id, s.cache.entries[id].forUrl);
    forall other
      ensures OwnStill(t, other)
    {
      assert OwnStill(s, other);
    }
    assert OwnStill(s, id);
    forall r | r in t.calls
      ensures CallBelongs(t, r, t.calls[r])
    {
      assert r in s.calls ==> CallBelongs(s, r, s.calls[r]);
    }
  }

  lemma InvWarm(s: State, id: string)
    requires Inv(s)
    ensures Inv(Next(s, Warm(id)))
  {
    var t := Next(s, Warm(id));
    assert OwnStill(s, id);
    forall other
      ensures OwnStill(t, other) && ShownRight(t.cache, other)
    {
      assert OwnStill(s, other) && ShownRight(s.cache, other);
    }
    forall r | r in t.calls
      ensures CallBelongs(t, r, t.calls[r])
    {
      assert r in s.calls ==> CallBelongs(s, r, s.calls[r]);
    }
  }

  lemma InvCompleteWarm(s: State, request: nat, data: string)
    requires Inv(s) && request in s.calls && s.calls[request].warm
    ensures Inv(Next(s, Complete(request, data)))
  {
    var t := Next(s, Complete(request, data));
    var call := s.calls[request];
    ViewWarmed(s.cache, call.id, call.url, request, data, call.document);
    assert CallBelongs(s, request, call);
    forall id
      ensures OwnStill(t, id)
    {
      assert OwnStill(s, id);
    }
    assert forall r :: r in t.calls ==> CallBelongs(s, r, s.calls[r]);
  }

  lemma InvCompleteFetch(s: State, request: nat, data: string)
    requires Inv(s) && request in s.calls && !s.calls[request].warm
    ensures Inv(Next(s, Complete(request, data)))
  {
    var t := Next(s, Complete(request, data));
    var call := s.calls[request];
    ViewSettled(s.cache, call.id, call.url, request, data, call.document);
    assert CallBelongs(s, request, call) && OwnStill(s, call.id);
    forall id
      ensures OwnStill(t, id)
    {
      assert OwnStill(s, id);
    }
    assert forall r :: r in t.calls ==> CallBelongs(s, r, s.calls[r]);
  }

  lemma InvNext(s: State, e: Event)
    requires Inv(s) && Enabled(s, e)
    ensures Inv(Next(s, e))
  {
    match e
    case Sync(live, tabs) =>
      InvCloseTabs(s, Ids(tabs));
      if live {
        InvSyncTabs(CloseTabs(s, Ids(tabs)), tabs);
      }
    case Refresh(id) =>
      if Refreshes(s.cache, id) {
        InvRefetched(s, id);
      }
    case Warm(id) =>
      InvWarm(s, id);
    case Complete(request, data) =>
      if s.calls[request].warm { InvCompleteWarm(s, request, data); } else { InvCompleteFetch(s, request, data); }
    case Fire(timer) =>
      var at := s.timers[timer];
      var t := s.(timers := s.timers - {timer});
      assert Inv(t) by {
        assert forall id :: OwnStill(s, id) ==> OwnStill(t, id);
        assert forall r :: r in s.calls && CallBelongs(s, r, s.calls[r]) ==> CallBelongs(t, r, t.calls[r]);
      }
      if Retries(s.cache, at.id, at.url) {
        InvRefetched(t, at.id);
        var u := Refetched(t, at.id);
        assert forall id :: OwnStill(u, id) ==> OwnStill(Next(s, e), id);
        assert forall r :: r in u.calls && CallBelongs(u, r, u.calls[r]) ==> CallBelongs(Next(s, e), r, u.calls[r]);
      }
  }

  lemma {:induction false} EveryRunKeepsInv(s: State, run: seq<Event>)
    requires Inv(s) && Possible(s, run)
    ensures Inv(After(s, run))
    decreases |run|
  {
    if run != [] {
      InvNext(s, run[0]);
      EveryRunKeepsInv(Next(s, run[0]), run[1..]);
    }
  }

  /**
   * In every run, whatever the order of results, warm captures, timers and
   * reloads of the same address: no entry holds another document's picture, and
   * the view is the entries' except at tabs with a call pending for a first still.
   */
  lemma NeverAnotherDocumentsPicture(run: seq<Event>)
    requires Possible(INITIAL, run)
    ensures NoForeignStill(After(INITIAL, run)) && ViewCurrent(After(INITIAL, run).cache)
  {
    EveryRunKeepsInv(INITIAL, run);
  }

  lemma RunStep(s: State, e: Event, rest: seq<Event>)
    requires Enabled(s, e) && Possible(Next(s, e), rest)
    ensures Possible(s, [e] + rest) && After(s, [e] + rest) == After(Next(s, e), rest)
  {
    assert ([e] + rest)[1..] == rest;
  }

  // ---- when the view paints a page that was left --------------------------------

  /** The view shows at a tab a picture that its entry does not hold. */
  predicate PaintsLeft(c: Cache, id: string) {
    id in c.view && id in c.entries && c.entries[id].still != Some(c.view[id])
  }

  /** The view shows at a tab a picture taken of a document that is no longer the tab's. */
  predicate PaintsAnother(s: State, id: string) {
    id in s.cache.view && s.cache.view[id].document != Current(s, id)
  }

  /** In every state the view shows just the entry's still, unless the entry waits for its first one. */
  lemma ViewExactly(s: State, id: string)
    requires Inv(s)
    ensures id !in s.cache.entries ==> id !in s.cache.view
    ensures id in s.cache.entries ==>
              Get(s.cache.view, id) == s.cache.entries[id].still
              || (s.cache.entries[id].pending && s.cache.entries[id].still.None?)
    ensures PaintsLeft(s.cache, id) <==>
              id in s.cache.view && s.cache.entries[id].pending && s.cache.entries[id].still.None?
    ensures PaintsAnother(s, id) ==> PaintsLeft(s.cache, id)
  {
    assert ShownRight(s.cache, id) && OwnStill(s, id);
  }

  /** The tab was reported settled at an address other than its entry's. */
  predicate Navigates(c: Cache, tab: PosterTab) {
    tab.id in c.entries && Asks(c, tab)
  }

  /**
   * One turn of `sync` leaves a picture painted that an entry does not hold
   * exactly when none was dropped in that turn and either it was painted so
   * before, or the turn moves the tab to another address while its entry held a
   * still.
   */
  lemma TurnPaintsExactly(s: State, tab: PosterTab, id: string)
    requires Inv(s)
    ensures PaintsLeft(SyncTab(s, tab).cache, id) <==>
              !Drops(s.cache, tab)
              && (PaintsLeft(s.cache, id)
                  || (id == tab.id && Navigates(s.cache, tab) && s.cache.entries[id].still.Some?))
  {
    assert ShownRight(s.cache, id);
  }

  /**
   * A navigation seen without a loading state: the view is kept. If it showed the
   * entry's own still, it paints the old address's picture under the new one
   * exactly when the entry held a still, and that is another document's picture
   * exactly when the document changed too.
   */
  lemma NavigationPaintsExactly(s: State, tab: PosterTab)
    requires Inv(s) && Navigates(s.cache, tab)
    ensures
      var t := SyncTab(s, tab);
      && t.cache.view == s.cache.view && t.cache.entries[tab.id].forUrl == tab.url != s.cache.entries[tab.id].forUrl
      && (!PaintsLeft(s.cache, tab.id) ==>
            && Get(t.cache.view, tab.id) == s.cache.entries[tab.id].still
            && (PaintsLeft(t.cache, tab.id) <==> s.cache.entries[tab.id].still.Some?)
            && (PaintsAnother(t, tab.id) <==> s.cache.entries[tab.id].still.Some? && Current(s, tab.id) != tab.document))
  {
    assert ShownRight(s.cache, tab.id) && OwnStill(s, tab.id);
  }

  /** Whether some turn of the loop in `sync` drops a still. */
  predicate DropsSome(c: Cache, tabs: seq<PosterTab>)
    decreases |tabs|
  {
    tabs != [] && (Drops(c, tabs[0]) || DropsSome(Synced(c, tabs[0]), tabs[1..]))
  }

  /** Whether a step publishes. */
  predicate Publishes(s: State, e: Event)
    requires Enabled(s, e)
  {
    match e
    case Sync(live, tabs) =>
      !(s.cache.entries.Keys <= Ids(tabs)) || (live && DropsSome(Closed(s.cache, Ids(tabs)), tabs))
    case Complete(request, data) =>
      var call := s.calls[request];
      if call.warm then Warms(s.cache, call.id, call.url, request, data)
      else
        Matches(s.cache, call.id, call.url, request)
        && Shown(s.cache.view, call.id) != Text(Kept(s.cache.entries[call.id], data, call.document))
    case _ => false
  }

  /** Whether a step brings a tab the very picture that the view shows there already. */
  predicate Confirms(s: State, e: Event, id: string)
    requires Enabled(s, e)
  {
    && e.Complete? && !s.calls[e.request].warm && s.calls[e.request].id == id
    && Matches(s.cache, id, s.calls[e.request].url, e.request) && e.data != "" && e.data == Shown(s.cache.view, id)
  }

  lemma {:induction false} TurnsKeepPainting(s: State, tabs: seq<PosterTab>, id: string)
    requires Inv(s) && AllReported(s, tabs) && PaintsLeft(s.cache, id)
    ensures !DropsSome(s.cache, tabs) ==>
              PaintsLeft(SyncTabs(s, tabs).cache, id) && SyncTabs(s, tabs).cache.view == s.cache.view
    decreases |tabs|
  {
    if tabs != [] {
      TurnPaintsExactly(s, tabs[0], id);
      InvSyncTab(s, tabs[0]);
      if !Drops(s.cache, tabs[0]) {
        TurnsKeepPainting(SyncTab(s, tabs[0]), tabs[1..], id);
      }
    }
  }

  /** Every step but `sync` leaves such a picture painted exactly when it was, unless the step publishes or confirms it. */
  lemma StepPaintsExactly(s: State, e: Event, id: string)
    requires Inv(s) && Enabled(s, e) && !e.Sync?
    ensures PaintsLeft(Next(s, e).cache, id) <==>
              PaintsLeft(s.cache, id) && !Publishes(s, e) && !Confirms(s, e, id)
    ensures !Publishes(s, e) && !Confirms(s, e, id) ==> Get(Next(s, e).cache.view, id) == Get(s.cache.view, id)
  {
    assert ShownRight(s.cache, id);
    if e.Complete? {
      CompletionPaintsExactly(s, e.request, e.data, id);
    }
  }

  lemma CompletionPaintsExactly(s: State, request: nat, data: string, id: string)
    requires Inv(s) && request in s.calls
    ensures
      var e := Complete(request, data);
      && (PaintsLeft(Next(s, e).cache, id) <==>
            PaintsLeft(s.cache, id) && !Publishes(s, e) && !Confirms(s, e, id))
      && (!Publishes(s, e) && !Confirms(s, e, id) ==> Get(Next(s, e).cache.view, id) == Get(s.cache.view, id))
  {
    assert ShownRight(s.cache, id) && ShownRight(s.cache, s.calls[request].id);
  }

  /** A run none of whose steps publishes or confirms the tab's picture. */
  predicate Unpublished(s: State, run: seq<Event>, id: string)
    requires Possible(s, run)
    decreases |run|
  {
    run == [] || (!Publishes(s, run[0]) && !Confirms(s, run[0], id) && Unpublished(Next(s, run[0]), run[1..], id))
  }

  /** Until the next publish the picture of the page that was left stays painted, whatever else happens. */
  lemma {:induction false} PaintedUntilPublished(s: State, run: seq<Event>, id: string)
    requires Inv(s) && Possible(s, run) && PaintsLeft(s.cache, id) && Unpublished(s, run, id)
    ensures PaintsLeft(After(s, run).cache, id) && Get(After(s, run).cache.view, id) == Get(s.cache.view, id)
    decreases |run|
  {
    if run != [] {
      var e := run[0];
      InvNext(s, e);
      if e.Sync? {
        InvCloseTabs(s, Ids(e.tabs));
        if e.live {
          TurnsKeepPainting(CloseTabs(s, Ids(e.tabs)), e.tabs, id);
        }
      } else {
        StepPaintsExactly(s, e, id);
      }
      PaintedUntilPublished(Next(s, e), run[1..], id);
    }
  }

  const ON_PAGE_A := PosterTab("t", "A", false, 1)
  const ON_PAGE_B := PosterTab("t", "B", false, 2)

  /** Tab "t" has its still of page A and moves to page B without ever being reported as loading. */
  const LEAVING_PAGE_A: seq<Event> := [Sync(true, [ON_PAGE_A])] + ([Complete(1, "a")] + ([Sync(true, [ON_PAGE_B])] + []))

  lemma SyncOne(s: State, tab: PosterTab)
    requires Reported(CloseTabs(s, {tab.id}), tab)
    ensures Enabled(s, Sync(true, [tab])) && Next(s, Sync(true, [tab])) == SyncTab(CloseTabs(s, {tab.id}), tab)
  {
    assert Ids([tab]) == {tab.id};
    var t := CloseTabs(s, {tab.id});
    assert [tab][1..] == [];
    assert SyncTabs(t, [tab]) == SyncTabs(SyncTab(t, tab), []);
  }

  lemma PageAIsShown()
    ensures Enabled(INITIAL, Sync(true, [ON_PAGE_A]))
    ensures
      var s := Next(INITIAL, Sync(true, [ON_PAGE_A]));
      && Enabled(s, Complete(1, "a"))
      && var t := Next(s, Complete(1, "a"));
        && t.cache.entries == map["t" := Entry(Some(Still("a", 1)), "A", false, 1, 1)]
        && t.cache.view == map["t" := Still("a", 1)]
        && Reported(CloseTabs(t, {"t"}), ON_PAGE_B) && CloseTabs(t, {"t"}).cache == t.cache
  {
    SyncOne(INITIAL, ON_PAGE_A);
    var s := Next(INITIAL, Sync(true, [ON_PAGE_A]));
    assert s.cache.entries == map["t" := Entry(None, "A", true, 1, 1)] && 1 in s.calls;
    assert Next(s, Complete(1, "a")).cache.entries == map["t" := Entry(Some(Still("a", 1)), "A", false, 1, 1)];
  }

  /**
   * So the exception at pending tabs occurs: here the view goes on painting the
   * page left behind under the new address.
   */
  lemma PendingTabCanShowThePageLeft()
    ensures Possible(INITIAL, LEAVING_PAGE_A)
    ensures
      var s := After(INITIAL, LEAVING_PAGE_A);
      && "t" in s.cache.entries && s.cache.entries["t"].forUrl == "B"
      && s.cache.entries["t"].still.None? && Shown(s.cache.view, "t") == "a"
  {
    PageAIsShown();
    var s1 := Next(INITIAL, Sync(true, [ON_PAGE_A]));
    var s2 := Next(s1, Complete(1, "a"));
    SyncOne(s2, ON_PAGE_B);
    RunStep(s2, Sync(true, [ON_PAGE_B]), []);
    RunStep(s1, Complete(1, "a"), [Sync(true, [ON_PAGE_B])] + []);
    RunStep(INITIAL, Sync(true, [ON_PAGE_A]), [Complete(1, "a")] + ([Sync(true, [ON_PAGE_B])] + []));
  }

  // ---- what each step does ----------------------------------------------------------

  /** Only the entry of one tab changed. */
  ghost predicate OnlyEntry(c: Cache, d: Cache, id: string) {
    forall other :: other != id ==> Get(d.entries, other) == Get(c.entries, other)
  }

  /**
   * One turn of `sync`: a loading tab loses its entry, and its picture with it; a
   * settled tab at an address that its entry does not have is asked for, from
   * nothing; every other tab stays as it is.
   */
  lemma TurnExactly(s: State, tab: PosterTab)
    ensures
      var t := SyncTab(s, tab);
      && OnlyEntry(s.cache, t.cache, tab.id) && t.timers == s.timers
      && if tab.loading
         then
           && tab.id !in t.cache.entries && t.calls == s.calls && t.cache.sequence == s.cache.sequence
           && (tab.id !in s.cache.entries ==> t.cache == s.cache)
           && (tab.id in s.cache.entries ==>
                 forall id :: Get(t.cache.view, id) == if id in t.cache.entries then t.cache.entries[id].still else None)
         else if tab.id in s.cache.entries && s.cache.entries[tab.id].forUrl == tab.url
         then t.cache == s.cache && t.calls == s.calls
         else
           && t.cache.sequence == s.cache.sequence + 1 && t.cache.view == s.cache.view
           && t.calls == s.calls[t.cache.sequence := Call(tab.id, tab.url, tab.document, false)]
           && Get(t.cache.entries, tab.id) == Some(Entry(None, tab.url, true, 1, t.cache.sequence))
  {
  }

  /** Tabs that are not listed any more lose their entries and pictures; the others keep their entries. */
  lemma ClosingExactly(s: State, open: set<string>, id: string)
    requires ViewCurrent(s.cache)
    ensures
      var t := CloseTabs(s, open);
      && Get(t.cache.entries, id) == (if id in open then Get(s.cache.entries, id) else None)
      && (id !in open ==> id !in t.cache.view)
      && (if s.cache.entries.Keys <= open then t.cache.view == s.cache.view
          else Get(t.cache.view, id) == if id in t.cache.entries then t.cache.entries[id].still else None)
      && t.cache.sequence == s.cache.sequence && t.calls == s.calls && t.timers == s.timers
  {
    assert ShownRight(s.cache, id);
  }

  /** Outside a live window `sync` only closes; in one it then takes the tabs in order. */
  lemma SyncExactly(s: State, live: bool, tabs: seq<PosterTab>)
    requires Enabled(s, Sync(live, tabs))
    ensures
      var open := set tab | tab in tabs :: tab.id;
      Next(s, Sync(live, tabs)) == if live then SyncTabs(CloseTabs(s, open), tabs) else CloseTabs(s, open)
  {
    assert (set tab | tab in tabs :: tab.id) == Ids(tabs);
  }

  /**
   * The answer of the call that a tab's entry waits for ends the wait. A picture
   * replaces the one it held, an empty answer keeps that; the view shows what the
   * entry holds then; and a timer is left exactly if it holds nothing and has been
   * asked for fewer than twice. Any other answer changes nothing.
   */
  lemma AnswerExactly(s: State, request: nat, data: string)
    requires Inv(s) && request in s.calls && !s.calls[request].warm
    ensures
      var t, call := Next(s, Complete(request, data)), s.calls[request];
      && t.calls == s.calls - {request}
      && if call.id in s.cache.entries && s.cache.entries[call.id].forUrl == call.url && s.cache.entries[call.id].request == request
         then
           var before := s.cache.entries[call.id];
           var still := if data == "" then before.still else Some(Still(data, call.document));
           && OnlyEntry(s.cache, t.cache, call.id) && t.cache.sequence == s.cache.sequence
           && Get(t.cache.entries, call.id) == Some(Entry(still, before.forUrl, false, before.attempts, before.request))
           && Get(t.cache.view, call.id) == still
           && t.timers == if still.None? && before.attempts < 2 then s.timers[request := Timer(call.id, call.url)] else s.timers
         else t.cache == s.cache && t.timers == s.timers
  {
    var call := s.calls[request];
    assert ShownRight(s.cache, call.id) && OwnStill(s, call.id);
    Texts(s.cache);
  }

  /**
   * A warm capture is issued for every known tab. Its picture counts exactly if it
   * has one and the tab is still at that address and was not asked for since.
   */
  lemma WarmExactly(s: State, id: string)
    ensures
      var t := Next(s, Warm(id));
      if id in s.cache.entries
      then
        && t.cache.entries == s.cache.entries && t.cache.view == s.cache.view && t.cache.sequence == s.cache.sequence + 1
        && t.calls == s.calls[t.cache.sequence := Call(id, s.cache.entries[id].forUrl, Current(s, id), true)]
      else t == s
  {
  }

  lemma CaptureExactly(s: State, request: nat, data: string)
    requires request in s.calls && s.calls[request].warm
    ensures
      var t, call := Next(s, Complete(request, data)), s.calls[request];
      && t.calls == s.calls - {request} && t.timers == s.timers && t.cache.sequence == s.cache.sequence
      && if data != "" && call.id in s.cache.entries
            && s.cache.entries[call.id].forUrl == call.url && s.cache.entries[call.id].request <= request
         then
           var before := s.cache.entries[call.id];
           && OnlyEntry(s.cache, t.cache, call.id)
           && Get(t.cache.entries, call.id)
              == Some(Entry(Some(Still(data, call.document)), before.forUrl, before.pending, before.attempts, request))
           && forall id :: Get(t.cache.view, id) == if id in t.cache.entries then t.cache.entries[id].still else None
         else t.cache == s.cache
  {
  }

  /** A timer that fires asks again exactly for a tab still at its address, with nothing pending and no picture. */
  lemma FireExactly(s: State, timer: nat)
    requires timer in s.timers
    ensures
      var t, at := Next(s, Fire(timer)), s.timers[timer];
      && t.timers == s.timers - {timer}
      && if at.id in s.cache.entries && s.cache.entries[at.id].forUrl == at.url
            && !s.cache.entries[at.id].pending && s.cache.entries[at.id].still.None?
         then
           && OnlyEntry(s.cache, t.cache, at.id) && t.cache.sequence == s.cache.sequence + 1 && t.cache.view == s.cache.view
           && t.calls == s.calls[t.cache.sequence := Call(at.id, at.url, Current(s, at.id), false)]
           && Get(t.cache.entries, at.id)
              == Some(Entry(None, at.url, true, s.cache.entries[at.id].attempts + 1, t.cache.sequence))
         else t.cache == s.cache && t.calls == s.calls
  {
  }

  /** A refresh asks again exactly for a tab that is known and has no call pending, picture or not. */
  lemma RefreshAsksExactly(s: State, id: string)
    ensures
      var t := Next(s, Refresh(id));
      if id in s.cache.entries && !s.cache.entries[id].pending
      then
        && OnlyEntry(s.cache, t.cache, id) && t.cache.sequence == s.cache.sequence + 1
        && t.calls == s.calls[t.cache.sequence := Call(id, s.cache.entries[id].forUrl, Current(s, id), false)]
        && id in t.cache.entries && t.cache.entries[id].pending && t.cache.entries[id].request == t.cache.sequence
        && t.cache.entries[id].still == s.cache.entries[id].still && t.cache.view == s.cache.view
      else t == s
  {
  }

  // ---- pending tabs and their calls -----------------------------------------

  ghost predicate CalledFor(s: State, id: string) {
    id in s.cache.entries && s.cache.entries[id].pending ==>
      var r := s.cache.entries[id].request;
      r in s.calls && s.calls[r] == Call(id, s.cache.entries[id].forUrl, s.calls[r].document, false)
  }

  /** Every pending tab has its own poster call out. */
  ghost predicate PendingIsCalledFor(s: State) {
    forall id :: CalledFor(s, id)
  }

  /** A warm capture that completes while the tab's own call is still out. */
  predicate WarmOvertakes(s: State, e: Event) {
    && e.Complete? && e.request in s.calls && s.calls[e.request].warm
    && Warms(s.cache, s.calls[e.request].id, s.calls[e.request].url, e.request, e.data)
    && s.cache.entries[s.calls[e.request].id].pending
  }

  lemma CalledForSyncTabs(s: State, tabs: seq<PosterTab>)
    requires Inv(s) && PendingIsCalledFor(s) && AllReported(s, tabs)
    ensures PendingIsCalledFor(SyncTabs(s, tabs))
    decreases |tabs|
  {
    if tabs != [] {
      var t := SyncTab(s, tabs[0]);
      forall id
        ensures CalledFor(t, id)
      {
        assert CalledFor(s, id);
        assert forall r :: r in s.calls ==> CallBelongs(s, r, s.calls[r]);
      }
      InvSyncTab(s, tabs[0]);
      CalledForSyncTabs(t, tabs[1..]);
    }
  }

  lemma CalledForSync(s: State, live: bool, tabs: seq<PosterTab>)
    requires Inv(s) && PendingIsCalledFor(s) && Enabled(s, Sync(live, tabs))
    ensures PendingIsCalledFor(Next(s, Sync(live, tabs)))
  {
    InvCloseTabs(s, Ids(tabs));
    var closed := CloseTabs(s, Ids(tabs));
    forall id
      ensures CalledFor(closed, id)
    {
      assert CalledFor(s, id);
    }
    if live {
      CalledForSyncTabs(closed, tabs);
    }
  }

  lemma CalledForRefetched(s: State, id: string)
    requires Inv(s) && PendingIsCalledFor(s) && id in s.cache.entries
    ensures PendingIsCalledFor(Refetched(s, id))
  {
    var t := Refetched(s, id);
    forall other
      ensures CalledFor(t, other)
    {
      assert CalledFor(s, other);
      assert forall r :: r in s.calls ==> CallBelongs(s, r, s.calls[r]);
    }
  }

  lemma CalledForComplete(s: State, request: nat, data: string)
    requires Inv(s) && PendingIsCalledFor(s) && Enabled(s, Complete(request, data))
    requires !WarmOvertakes(s, Complete(request, data))
    ensures PendingIsCalledFor(Next(s, Complete(request, data)))
  {
    var t := Next(s, Complete(request, data));
    forall id
      ensures CalledFor(t, id)
    {
      assert CalledFor(s, id);
    }
  }

  /**
   * A step keeps every pending tab called for, except exactly a warm capture
   * that overtakes the tab's call: it renumbers the entry, so the call's own
   * result is dropped and `pending` stays set with nothing outstanding.
   */
  lemma WarmOvertakingExactly(s: State, e: Event)
    requires Inv(s) && PendingIsCalledFor(s) && Enabled(s, e)
    ensures PendingIsCalledFor(Next(s, e)) <==> !WarmOvertakes(s, e)
  {
    match e
    case Sync(live, tabs) =>
      CalledForSync(s, live, tabs);
    case Refresh(id) =>
      if Refreshes(s.cache, id) {
        CalledForRefetched(s, id);
      }
    case Warm(id) =>
      forall other
        ensures CalledFor(Next(s, e), other)
      {
        assert CalledFor(s, other);
        assert forall r :: r in s.calls ==> CallBelongs(s, r, s.calls[r]);
      }
    case Complete(request, data) =>
      if WarmOvertakes(s, e) {
        assert !CalledFor(Next(s, e), s.calls[request].id);
      } else {
        CalledForComplete(s, request, data);
      }
    case Fire(timer) =>
      var at := s.timers[timer];
      var t := s.(timers := s.timers - {timer});
      assert Inv(t) && PendingIsCalledFor(t) by {
        assert forall id :: OwnStill(s, id) && CalledFor(s, id) ==> OwnStill(t, id) && CalledFor(t, id);
        assert forall r :: r in s.calls && CallBelongs(s, r, s.calls[r]) ==> CallBelongs(t, r, t.calls[r]);
      }
      if Retries(s.cache, at.id, at.url) {
        CalledForRefetched(t, at.id);
        assert forall id :: CalledFor(Refetched(t, at.id), id) ==> CalledFor(Next(s, e), id);
      } else {
        assert Next(s, e) == t;
      }
  }

  ghost predicate Stuck(s: State, id: string) {
    && id in s.cache.entries && s.cache.entries[id].pending
    && s.cache.entries[id].request <= s.cache.sequence && s.cache.entries[id].request !in s.calls
    && forall r :: r in s.calls ==> r <= s.cache.sequence
  }

  lemma StuckNext(s: State, id: string, e: Event)
    requires Stuck(s, id) && Enabled(s, e) && !e.Sync?
    ensures Stuck(Next(s, e), id)
  {
    if e.Fire? {
      StuckFire(s, id, e.timer);
    }
  }

  lemma StuckFire(s: State, id: string, timer: nat)
    requires Stuck(s, id) && timer in s.timers
    ensures Stuck(Next(s, Fire(timer)), id)
  {
    assert Retries(s.cache, s.timers[timer].id, s.timers[timer].url) ==> s.timers[timer].id != id;
  }

  /** Once overtaken, nothing but a later `sync` ends the pending state: results, timers, refreshes and warm captures do not. */
  lemma {:induction false} StuckUntilSync(s: State, id: string, run: seq<Event>)
    requires Stuck(s, id) && Possible(s, run)
    requires forall e :: e in run ==> !e.Sync?
    ensures Stuck(After(s, run), id)
    decreases |run|
  {
    if run != [] {
      assert run[0] in run;
      StuckNext(s, id, run[0]);
      StuckUntilSync(Next(s, run[0]), id, run[1..]);
    }
  }

  // ---- automatic calls per document -----------------------------------------

  /** Neither `refresh` nor `warm`. */
  predicate Automatic(e: Event) {
    !e.Refresh? && !e.Warm?
  }

  /**
   * What a tab's current document has cost and may still cost: calls made, retry
   * timers running for its address, and the timer its first call may leave.
   */
  function Budget(s: State, id: string): nat
    requires id in s.cache.entries
  {
    var entry := s.cache.entries[id];
    Get(s.auto, id).GetOr(0)
    + |TimersOf(s.timers, Timer(id, entry.forUrl))|
    + (if entry.attempts == 1 && entry.pending then 1 else 0)
  }

  /** Facts about runs without `refresh` and `warm`. */
  ghost predicate AutomaticInv(s: State) {
    && (forall r :: r in s.calls ==> !s.calls[r].warm && r <= s.cache.sequence && r !in s.timers)
    && (forall r :: r in s.timers ==> r <= s.cache.sequence)
    && (forall id :: id in s.cache.entries ==> AutomaticEntry(s, s.cache.entries[id]))
  }

  ghost predicate AutomaticEntry(s: State, entry: Entry) {
    && entry.attempts >= 1 && entry.request <= s.cache.sequence
    && (entry.request in s.calls ==> entry.pending)
  }

  lemma TimerGone(timers: map<nat, Timer>, t: nat, timer: Timer)
    requires t in timers
    ensures |TimersOf(timers - {t}, timer)| == |TimersOf(timers, timer)| - (if timers[t] == timer then 1 else 0)
  {
    var all := TimersOf(timers, timer);
    assert TimersOf(timers - {t}, timer) == all - {t};
  }

  lemma TimerAdded(timers: map<nat, Timer>, t: nat, added: Timer, timer: Timer)
    requires t !in timers
    ensures |TimersOf(timers[t := added], timer)| == |TimersOf(timers, timer)| + (if added == timer then 1 else 0)
  {
    var all := TimersOf(timers, timer);
    assert TimersOf(timers[t := added], timer) == if added == timer then all + {t} else all;
  }

  lemma AutomaticComplete(s: State, request: nat, data: string)
    requires AutomaticInv(s) && request in s.calls
    ensures AutomaticInv(Next(s, Complete(request, data)))
    ensures Next(s, Complete(request, data)).cache.entries.Keys == s.cache.entries.Keys
  {
    var t := Next(s, Complete(request, data));
    forall id | id in t.cache.entries
      ensures AutomaticEntry(t, t.cache.entries[id])
    {
      assert AutomaticEntry(s, s.cache.entries[id]);
    }
  }

  lemma AutomaticFire(s: State, timer: nat)
    requires AutomaticInv(s) && timer in s.timers
    ensures AutomaticInv(Next(s, Fire(timer)))
    ensures Next(s, Fire(timer)).cache.entries.Keys == s.cache.entries.Keys
  {
    var t := Next(s, Fire(timer));
    forall id | id in t.cache.entries
      ensures AutomaticEntry(t, t.cache.entries[id])
    {
      assert AutomaticEntry(s, s.cache.entries[id]);
    }
  }

  lemma BudgetComplete(s: State, request: nat, data: string, id: string)
    requires AutomaticInv(s) && request in s.calls && id in s.cache.entries
    ensures
      var t := Next(s, Complete(request, data));
      && id in t.cache.entries && t.cache.entries[id].forUrl == s.cache.entries[id].forUrl
      && t.stale == s.stale && Budget(t, id) <= Budget(s, id)
  {
    var call := s.calls[request];
    var timer := Timer(id, s.cache.entries[id].forUrl);
    assert AutomaticEntry(s, s.cache.entries[id]);
    TimerAdded(s.timers, request, Timer(call.id, call.url), timer);
  }

  lemma BudgetFire(s: State, fired: nat, id: string)
    requires AutomaticInv(s) && fired in s.timers && id in s.cache.entries
    ensures
      var t := Next(s, Fire(fired));
      && id in t.cache.entries && t.cache.entries[id].forUrl == s.cache.entries[id].forUrl
      && t.stale == s.stale && Budget(t, id) <= Budget(s, id)
  {
    var entry := s.cache.entries[id];
    var at := s.timers[fired];
    assert AutomaticEntry(s, entry);
    TimerGone(s.timers, fired, Timer(id, entry.forUrl));
    var t := Next(s, Fire(fired));
    if at.id != id || !Retries(s.cache, id, at.url) {
      assert t.cache.entries[id] == entry && Get(t.auto, id) == Get(s.auto, id);
    } else {
      assert t.cache.entries[id].attempts == entry.attempts + 1 >= 2;
      assert at == Timer(id, entry.forUrl);
    }
  }

  /** A result or a timer never raises a tab's budget, and keeps its address. */
  lemma BudgetNext(s: State, e: Event, id: string)
    requires AutomaticInv(s) && Enabled(s, e) && (e.Complete? || e.Fire?) && id in s.cache.entries
    ensures AutomaticInv(Next(s, e))
    ensures
      var t := Next(s, e);
      && id in t.cache.entries && t.cache.entries[id].forUrl == s.cache.entries[id].forUrl
      && t.stale == s.stale && Budget(t, id) <= Budget(s, id)
  {
    if e.Complete? {
      AutomaticComplete(s, e.request, e.data);
      BudgetComplete(s, e.request, e.data, id);
    } else {
      AutomaticFire(s, e.timer);
      BudgetFire(s, e.timer, id);
    }
  }

  lemma BudgetSyncTab(s: State, tab: PosterTab, id: string)
    requires WithinBudget(s) && id in SyncTab(s, tab).cache.entries
    ensures
      var t := SyncTab(s, tab);
      Budget(t, id) <= 2 + Get(t.stale, id).GetOr(0)
  {
    var t := SyncTab(s, tab);
    if id != tab.id || !Asks(s.cache, tab) {
      assert t.cache.entries[id] == s.cache.entries[id];
      assert Budget(t, id) == Budget(s, id);
    } else {
      assert t.cache.entries[id] == Entry(None, tab.url, true, 1, t.cache.sequence);
      assert t.timers == s.timers;
    }
  }

  lemma AutomaticEntrySynced(s: State, tab: PosterTab, id: string)
    requires AutomaticInv(s) && id in SyncTab(s, tab).cache.entries
    ensures AutomaticEntry(SyncTab(s, tab), SyncTab(s, tab).cache.entries[id])
  {
    if id in s.cache.entries {
      assert AutomaticEntry(s, s.cache.entries[id]);
    }
  }

  lemma AutomaticSyncTab(s: State, tab: PosterTab)
    requires AutomaticInv(s) && WithinBudget(s)
    ensures AutomaticInv(SyncTab(s, tab)) && WithinBudget(SyncTab(s, tab))
  {
    var t := SyncTab(s, tab);
    forall id | id in t.cache.entries
      ensures AutomaticEntry(t, t.cache.entries[id])
    {
      AutomaticEntrySynced(s, tab, id);
    }
    forall id | id in t.cache.entries
      ensures Budget(t, id) <= 2 + Get(t.stale, id).GetOr(0)
    {
      BudgetSyncTab(s, tab, id);
    }
  }

  ghost predicate WithinBudget(s: State) {
    forall id :: id in s.cache.entries ==> Budget(s, id) <= 2 + Get(s.stale, id).GetOr(0)
  }

  lemma {:induction false} AutomaticSyncTabs(s: State, tabs: seq<PosterTab>)
    requires AutomaticInv(s) && WithinBudget(s)
    ensures AutomaticInv(SyncTabs(s, tabs)) && WithinBudget(SyncTabs(s, tabs))
    decreases |tabs|
  {
    if tabs != [] {
      AutomaticSyncTab(s, tabs[0]);
      AutomaticSyncTabs(SyncTab(s, tabs[0]), tabs[1..]);
    }
  }

  lemma AutomaticCloseTabs(s: State, ids: set<string>)
    requires AutomaticInv(s) && WithinBudget(s)
    ensures AutomaticInv(CloseTabs(s, ids)) && WithinBudget(CloseTabs(s, ids))
  {
    var closed := CloseTabs(s, ids);
    forall id | id in closed.cache.entries
      ensures Budget(closed, id) <= 2 + Get(closed.stale, id).GetOr(0)
    {
      assert closed.cache.entries[id] == s.cache.entries[id];
    }
  }

  lemma AutomaticNext(s: State, e: Event)
    requires AutomaticInv(s) && WithinBudget(s) && Enabled(s, e) && Automatic(e)
    ensures AutomaticInv(Next(s, e)) && WithinBudget(Next(s, e))
  {
    if e.Sync? {
      AutomaticCloseTabs(s, Ids(e.tabs));
      if e.live {
        AutomaticSyncTabs(CloseTabs(s, Ids(e.tabs)), e.tabs);
      }
    } else {
      if e.Complete? {
        AutomaticComplete(s, e.request, e.data);
      } else {
        AutomaticFire(s, e.timer);
      }
      forall id | id in Next(s, e).cache.entries
        ensures Budget(Next(s, e), id) <= 2 + Get(Next(s, e).stale, id).GetOr(0)
      {
        BudgetNext(s, e, id);
      }
    }
  }

  lemma {:induction false} AutomaticRuns(s: State, run: seq<Event>)
    requires AutomaticInv(s) && WithinBudget(s) && Possible(s, run)
    requires forall e :: e in run ==> Automatic(e)
    ensures AutomaticInv(After(s, run)) && WithinBudget(After(s, run))
    decreases |run|
  {
    if run != [] {
      AutomaticNext(s, run[0]);
      AutomaticRuns(Next(s, run[0]), run[1..]);
    }
  }

  /**
   * Without `refresh` and `warm`, one document costs at most two automatic
   * calls, plus one for each retry timer an earlier document at the same address
   * left running.
   */
  lemma AutomaticCallsAreBounded(run: seq<Event>, id: string)
    requires Possible(INITIAL, run) && id in After(INITIAL, run).cache.entries
    requires forall e :: e in run ==> Automatic(e)
    ensures
      var s := After(INITIAL, run);
      Get(s.auto, id).GetOr(0) <= 2 + Get(s.stale, id).GetOr(0)
  {
    AutomaticRuns(INITIAL, run);
  }

  /** A document just asked for: its first call is out and nothing else was tried. */
  ghost predicate JustAsked(s: State, id: string) {
    && AutomaticInv(s) && id in s.cache.entries && id in s.auto && s.auto[id] == 1
    && var entry := s.cache.entries[id];
      && entry.pending && entry.still.None? && entry.attempts == 1 && entry.request in s.calls
      && s.calls[entry.request].id == id && s.calls[entry.request].url == entry.forUrl
  }

  ghost predicate OnlyResultsAndTimers(run: seq<Event>) {
    forall e :: e in run ==> e.Complete? || e.Fire?
  }

  ghost predicate CanCostThree(s: State, id: string) {
    exists run :: Possible(s, run) && OnlyResultsAndTimers(run) && Get(After(s, run).auto, id).GetOr(0) >= 3
  }

  lemma {:induction false} BudgetOverRun(s: State, id: string, run: seq<Event>)
    requires AutomaticInv(s) && id in s.cache.entries && Possible(s, run) && OnlyResultsAndTimers(run)
    ensures Get(After(s, run).auto, id).GetOr(0) <= Budget(s, id)
    decreases |run|
  {
    if run != [] {
      BudgetNext(s, run[0], id);
      BudgetOverRun(Next(s, run[0]), id, run[1..]);
    }
  }

  /** The first call's empty result leaves its own timer, and the older timer makes the second call. */
  lemma SecondCall(s: State, id: string, t: nat)
    requires JustAsked(s, id) && t in s.timers && s.timers[t] == Timer(id, s.cache.entries[id].forUrl)
    ensures
      var entry := s.cache.entries[id];
      var n := s.cache.sequence + 1;
      && Enabled(Next(s, Complete(entry.request, "")), Fire(t))
      && var after := Next(Next(s, Complete(entry.request, "")), Fire(t));
         && Get(after.auto, id) == Some(2)
         && Get(after.cache.entries, id) == Some(Entry(None, entry.forUrl, true, 2, n))
         && n in after.calls && !after.calls[n].warm && after.calls[n].id == id && after.calls[n].url == entry.forUrl
         && Get(after.timers, entry.request) == Some(Timer(id, entry.forUrl)) && entry.request != n
  {
    var r := s.cache.entries[id].request;
    var s1 := Next(s, Complete(r, ""));
    assert r != t && Retries(s1.cache, id, s.cache.entries[id].forUrl);
  }

  lemma StaysAutomatic(s: State, request: nat, t: nat)
    requires AutomaticInv(s) && request in s.calls && t in Next(s, Complete(request, "")).timers
    ensures AutomaticInv(Next(Next(s, Complete(request, "")), Fire(t)))
  {
    AutomaticComplete(s, request, "");
    AutomaticFire(Next(s, Complete(request, "")), t);
  }

  /** After the second call's empty result a timer still running makes the third. */
  lemma ThirdCall(s: State, id: string, url: string, timer: nat, request: nat)
    requires AutomaticInv(s) && id in s.cache.entries && id in s.auto && s.auto[id] == 2
    requires s.cache.entries[id] == Entry(None, url, true, 2, request)
    requires request in s.calls && !s.calls[request].warm && s.calls[request].id == id && s.calls[request].url == url
    requires timer in s.timers && s.timers[timer] == Timer(id, url) && timer != request
    ensures
      var run := [Complete(request, "")] + ([Fire(timer)] + []);
      Possible(s, run) && Get(After(s, run).auto, id) == Some(3)
  {
    var s1 := Next(s, Complete(request, ""));
    RunStep(s1, Fire(timer), []);
    RunStep(s, Complete(request, ""), [Fire(timer)] + []);
  }

  /** An empty first result, the stale timer, an empty second result, the document's own timer. */
  lemma StaleTimerCostsAThirdCall(s: State, id: string, t: nat)
    requires JustAsked(s, id) && t in s.timers && s.timers[t] == Timer(id, s.cache.entries[id].forUrl)
    ensures CanCostThree(s, id)
  {
    var r := s.cache.entries[id].request;
    var url := s.cache.entries[id].forUrl;
    var n := s.cache.sequence;
    var s1 := Next(s, Complete(r, ""));
    var s2 := Next(s1, Fire(t));
    SecondCall(s, id, t);
    StaysAutomatic(s, r, t);
    ThirdCall(s2, id, url, r, n + 1);
    var rest := [Complete(n + 1, "")] + ([Fire(r)] + []);
    FourAreAutomatic(r, t, n + 1, r);
    RunStep(s1, Fire(t), rest);
    RunStep(s, Complete(r, ""), [Fire(t)] + rest);
  }

  lemma FourAreAutomatic(request: nat, timer: nat, request2: nat, timer2: nat)
    ensures OnlyResultsAndTimers(
              [Complete(request, "")] + ([Fire(timer)] + ([Complete(request2, "")] + ([Fire(timer2)] + []))))
  {
  }

  /**
   * The limit of two holds exactly when no earlier document at the same address
   * left a retry timer running: with one, a third automatic call is possible.
   */
  lemma ThirdCallExactly(s: State, id: string)
    requires JustAsked(s, id)
    ensures CanCostThree(s, id) <==> TimersOf(s.timers, Timer(id, s.cache.entries[id].forUrl)) != {}
  {
    var running := TimersOf(s.timers, Timer(id, s.cache.entries[id].forUrl));
    if running != {} {
      var t :| t in running;
      StaleTimerCostsAThirdCall(s, id, t);
    } else if CanCostThree(s, id) {
      var run :| Possible(s, run) && OnlyResultsAndTimers(run) && Get(After(s, run).auto, id).GetOr(0) >= 3;
      BudgetOverRun(s, id, run);
    }
  }

  // ---- the cache object -----------------------------------------------------

  class BrowserPosterCache {
    var entries: map<string, Entry>
    var view: map<string, Still>
    var requestSequence: nat

    constructor ()
      ensures Contents() == INITIAL.cache
    {
      entries, view, requestSequence := map[], map[], 0;
    }

    function Contents(): Cache
      reads this
    {
      Cache(entries, view, requestSequence)
    }

    method Publish()
      modifies this
      ensures Contents() == Published(old(Contents()))
    {
      view := ViewOf(entries);
    }

    /** The synchronous part of `fetch`. */
    method Fetch(id: string, url: string) returns (request: nat)
      modifies this
      ensures Contents() == Fetched(old(Contents()), id, url) && request == requestSequence
    {
      var previous := Get(entries, id);
      var samePage := previous.Some? && previous.value.forUrl == url;
      var attempts := if samePage then previous.value.attempts + 1 else 1;
      requestSequence := requestSequence + 1;
      request := requestSequence;
      entries := entries[id := Entry(if samePage then previous.value.still else None, url, true, attempts, request)];
    }

    /** `live` says whether there is a source and a task. */
    method Sync(live: bool, tabs: seq<PosterTab>)
      modifies this
      ensures
        var closed := Closed(old(Contents()), Ids(tabs));
        Contents() == if live then SyncedAll(closed, tabs) else closed
    {
      var open := Ids(tabs);
      var closing := entries.Keys - open;
      assert forall id :: id in entries.Keys && id !in open ==> id in closing;
      if closing != {} {
        entries := map id | id in entries && id in open :: entries[id];
        Publish();
      }
      ghost var closed := Contents();
      if !live {
        return;
      }
      var i := 0;
      while i < |tabs|
        invariant 0 <= i <= |tabs|
        invariant SyncedAll(closed, tabs) == SyncedAll(Contents(), tabs[i..])
      {
        var tab := tabs[i];
        if tab.loading {
          if tab.id in entries {
            entries := entries - {tab.id};
            Publish();
          }
        } else if !(tab.id in entries && entries[tab.id].forUrl == tab.url) {
          var request := Fetch(tab.id, tab.url);
        }
        i := i + 1;
      }
    }

    method Refresh(id: string) returns (asked: bool)
      modifies this
      ensures asked == Refreshes(old(Contents()), id)
      ensures asked ==> id in old(entries) && Contents() == Fetched(old(Contents()), id, old(entries)[id].forUrl)
      ensures !asked ==> Contents() == old(Contents())
    {
      asked := id in entries && !entries[id].pending;
      if asked {
        var request := Fetch(id, entries[id].forUrl);
      }
    }

    /** `settle`; `timer` says whether it leaves a retry timer. */
    method Settle(id: string, url: string, request: nat, data: string, document: nat) returns (timer: bool)
      modifies this
      ensures Contents() == Settled(old(Contents()), id, url, request, data, document)
      ensures timer == LeavesTimer(old(Contents()), id, url, request, data)
    {
      if !(id in entries && entries[id].forUrl == url && entries[id].request == request) {
        return false;
      }
      var entry := entries[id];
      var still := if data != "" then Some(Still(data, document)) else entry.still;
      entries := entries[id := entry.(still := still, pending := false)];
      if Shown(view, id) != Text(still) {
        Publish();
      } else if still.Some? {
        // The same text: only its history changes.
        view := view[id := still.value];
      }
      timer := still.None? && entry.attempts < 2;
    }

    /** The completion of `warm`. */
    method SettleWarm(id: string, url: string, request: nat, data: string, document: nat)
      modifies this
      ensures Contents() == Warmed(old(Contents()), id, url, request, data, document)
    {
      if data == "" || id !in entries || entries[id].forUrl != url || entries[id].request > request {
        return;
      }
      entries := entries[id := entries[id].(still := Some(Still(data, document)), request := request)];
      Publish();
    }

    /** A retry timer. */
    method Retry(id: string, url: string) returns (asked: bool)
      modifies this
      ensures asked == Retries(old(Contents()), id, url)
      ensures Contents() == if asked then Fetched(old(Contents()), id, url) else old(Contents())
    {
      asked := id in entries && entries[id].forUrl == url && !entries[id].pending && entries[id].still.None?;
      if asked {
        var request := Fetch(id, url);
      }
    }
  }

  /** The loop over tabs in `sync` is the machine's step on the cache. */
  lemma {:induction false} SyncStepsAgree(s: State, tabs: seq<PosterTab>)
    ensures SyncTabs(s, tabs).cache == SyncedAll(s.cache, tabs)
    decreases |tabs|
  {
    if tabs != [] {
      SyncStepsAgree(SyncTab(s, tabs[0]), tabs[1..]);
    }
  }
}
