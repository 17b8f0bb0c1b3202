/**
 * The archive retention sweep (apps/desktop/src/App.tsx:4769-4893).
 */
module Retention {
  // A sweep stamps newly archived chats, forgets chats no longer archived, and
  // only when its stamps already match the archived set archives or deletes old
  // chats. Sweeps never overlap. A call may fail for any single chat.

  import opened Common

  /** `busy` says whether the status is starting, running or waiting; an unreadable date is None. */
  datatype Task = Task(id: string, child: bool, busy: bool, pinned: bool, updatedAt: Option<int>)

  /** Stored text: a date, some other text, or the empty one, which the sweep's test takes for no stamp. */
  datatype Stamp = At(time: int) | NoDate | Empty

  /** When each archived chat was first seen archived. */
  type Stamps = map<string, Stamp>

  /** `Date.parse` of the stamp, or of "" for a chat without one. */
  function DateOf(stamps: Stamps, id: string): Option<int> {
    if id in stamps && stamps[id].At? then Some(stamps[id].time) else None
  }

  /** What one sweep reads when it starts; an absent limit is "never". */
  datatype Settings = Settings(archiveMs: Option<nat>, deleteMs: Option<nat>, active: string, canArchive: bool)

  function IdsOf(tasks: seq<Task>): (ids: set<string>)
    ensures forall id :: id in ids <==> exists task :: task in tasks && task.id == id
  {
    set task | task in tasks :: task.id
  }

  function NextStamps(stamps: Stamps, archived: seq<Task>, now: int): Stamps {
    map id | id in IdsOf(archived) :: if id in stamps then stamps[id] else At(now)
  }

  predicate Idle(task: Task, active: string) {
    task.id != active && !task.child && !task.busy
  }

  /** A readable date more than the limit in the past. */
  predicate OlderThan(date: Option<int>, limit: Option<nat>, now: int) {
    date.Some? && limit.Some? && limit.value != 0 && now - date.value > limit.value
  }

  predicate Archives(settings: Settings, now: int, task: Task) {
    settings.canArchive && !task.pinned && Idle(task, settings.active)
    && OlderThan(task.updatedAt, settings.archiveMs, now)
  }

  predicate Deletes(settings: Settings, stamps: Stamps, now: int, task: Task) {
    Idle(task, settings.active) && OlderThan(DateOf(stamps, task.id), settings.deleteMs, now)
  }

  function ArchivedIds(settings: Settings, now: int, live: seq<Task>, failing: set<string>): set<string> {
    (set task | task in live && Archives(settings, now, task) :: task.id) - failing
  }

  function DeletedIds(settings: Settings, stamps: Stamps, now: int, archived: seq<Task>, failing: set<string>): set<string> {
    (set task | task in archived && Deletes(settings, stamps, now, task) :: task.id) - failing
  }

  /** Whether the archived chats are not exactly the stamped ones. */
  predicate StampsDiffer(stamps: Stamps, archived: seq<Task>) {
    IdsOf(archived) != stamps.Keys
  }

  /** No archived chat's stamp is the empty text, which no sweep ever writes. */
  predicate NoneEmpty(stamps: Stamps, archived: seq<Task>) {
    forall id :: id in IdsOf(archived) && id in stamps ==> stamps[id] != Empty
  }

  /** Whether the sweep's test takes the stamps for changed. */
  predicate Restamps(stamps: Stamps, archived: seq<Task>) {
    StampsDiffer(stamps, archived) || !NoneEmpty(stamps, archived)
  }

  /** With no limit set and no stamp stored the sweep does not even start. */
  predicate Dormant(stamps: Stamps, settings: Settings) {
    settings.archiveMs.GetOr(0) == 0 && settings.deleteMs.GetOr(0) == 0 && stamps == map[]
  }

  /** What a sweep leaves: the stamps, and the chats it archived and deleted. */
  datatype Outcome = Outcome(stamps: Stamps, archived: set<string>, deleted: set<string>)

  function Swept(
    stamps: Stamps, settings: Settings, now: int, live: seq<Task>, archived: seq<Task>, failing: set<string>): Outcome
  {
    if Dormant(stamps, settings) then Outcome(stamps, {}, {})
    else if Restamps(stamps, archived) then Outcome(NextStamps(stamps, archived, now), {}, {})
    else
      var deleted := DeletedIds(settings, stamps, now, archived, failing);
      Outcome(stamps - deleted, ArchivedIds(settings, now, live, failing), deleted)
  }

  // ---- one sweep ------------------------------------------------------------

  lemma StampSnoc(stamps: Stamps, archived: seq<Task>, task: Task, now: int)
    ensures IdsOf(archived + [task]) == IdsOf(archived) + {task.id}
    ensures
      NextStamps(stamps, archived + [task], now) ==
      NextStamps(stamps, archived, now)[task.id := if task.id in stamps then stamps[task.id] else At(now)]
  {
  }

  /** The test of the loop and of the two sizes. */
  predicate LoopFindsNew(stamps: Stamps, archived: seq<Task>) {
    exists id :: id in IdsOf(archived) && (id !in stamps || stamps[id] == Empty)
  }

  /**
   * An archived chat without a stamp, or a different number of entries: exactly
   * when the archived set differs from the stamped one or a stamp is empty. So
   * the test is exactly the difference of the sets when no stamp is empty.
   */
  lemma StampsTestIsExact(stamps: Stamps, archived: seq<Task>, now: int)
    ensures LoopFindsNew(stamps, archived) || |stamps| != |NextStamps(stamps, archived, now)| <==> Restamps(stamps, archived)
    ensures NoneEmpty(stamps, archived) ==> (Restamps(stamps, archived) <==> StampsDiffer(stamps, archived))
  {
    assert NextStamps(stamps, archived, now).Keys == IdsOf(archived);
    assert |stamps.Keys| == |stamps|;
    assert |NextStamps(stamps, archived, now).Keys| == |NextStamps(stamps, archived, now)|;
    SameSizeSubset(IdsOf(archived), stamps.Keys);
  }

  /** The stamping loop and its `stampsChanged` test. */
  method StampArchived(stamps: Stamps, archived: seq<Task>, now: int) returns (next: Stamps, changed: bool)
    ensures next == NextStamps(stamps, archived, now)
    ensures changed <==> Restamps(stamps, archived)
  {
    next := map[];
    changed := false;
    var i := 0;
    while i < |archived|
      invariant 0 <= i <= |archived|
      invariant next == NextStamps(stamps, archived[..i], now)
      invariant changed <==> LoopFindsNew(stamps, archived[..i])
    {
      var id := archived[i].id;
      assert NextStamps(stamps, archived[..i + 1], now) ==
             next[id := if id in stamps then stamps[id] else At(now)] by {
        StampSnoc(stamps, archived[..i], archived[i], now);
        assert archived[..i + 1] == archived[..i] + [archived[i]];
      }
      FindsNewSnoc(stamps, archived[..i], archived[i]);
      assert archived[..i + 1] == archived[..i] + [archived[i]];
      next := next[id := if id in stamps then stamps[id] else At(now)];
      if id !in stamps || stamps[id] == Empty {
        changed := true;
      }
      i := i + 1;
    }
    assert archived[..i] == archived;
    StampsTestIsExact(stamps, archived, now);
    if |stamps| != |next| {
      changed := true;
    }
  }

  lemma FindsNewSnoc(stamps: Stamps, archived: seq<Task>, task: Task)
    ensures LoopFindsNew(stamps, archived + [task]) <==>
            LoopFindsNew(stamps, archived) || task.id !in stamps || stamps[task.id] == Empty
  {
    StampSnoc(stamps, archived, task, 0);
    assert task.id in IdsOf(archived + [task]);
    assert forall id :: id in IdsOf(archived) ==> id in IdsOf(archived + [task]);
  }

  lemma SameSizeSubset(small: set<string>, large: set<string>)
    ensures small <= large && |small| == |large| ==> small == large
  {
    if small <= large && |small| == |large| {
      assert |large - small| == |large| - |small|;
    }
  }

  lemma UnchangedStamps(stamps: Stamps, archived: seq<Task>, now: int)
    requires !Restamps(stamps, archived)
    ensures NextStamps(stamps, archived, now) == stamps
  {
    assert NextStamps(stamps, archived, now).Keys == stamps.Keys;
  }

  /** A sweep that keeps its stamps prunes them only when it deleted something. */
  lemma SweepActs(
    stamps: Stamps, settings: Settings, now: int, live: seq<Task>, archived: seq<Task>, failing: set<string>, after: Stamps)
    requires !Dormant(stamps, settings) && !Restamps(stamps, archived)
    requires
      var deleted := DeletedIds(settings, stamps, now, archived, failing);
      after == if deleted == {} then stamps else stamps - deleted
    ensures
      Swept(stamps, settings, now, live, archived, failing)
      == Outcome(after, ArchivedIds(settings, now, live, failing), DeletedIds(settings, stamps, now, archived, failing))
  {
    var none: set<string> := {};
    assert stamps - none == stamps;
  }

  lemma ArchivedStep(settings: Settings, now: int, live: seq<Task>, i: nat, failing: set<string>)
    requires i < |live|
    ensures ArchivedIds(settings, now, live[..i + 1], failing)
            == ArchivedIds(settings, now, live[..i], failing)
               + (if Archives(settings, now, live[i]) && live[i].id !in failing then {live[i].id} else {})
  {
    assert live[..i + 1] == live[..i] + [live[i]];
  }

  lemma DeletedStep(settings: Settings, stamps: Stamps, now: int, archived: seq<Task>, k: nat, failing: set<string>)
    requires k < |archived|
    ensures DeletedIds(settings, stamps, now, archived[..k + 1], failing)
            == DeletedIds(settings, stamps, now, archived[..k], failing)
               + (if Deletes(settings, stamps, now, archived[k]) && archived[k].id !in failing then {archived[k].id} else {})
  {
    assert archived[..k + 1] == archived[..k] + [archived[k]];
  }

  class RetentionRefs {
    var stamps: Stamps

    constructor ()
      ensures stamps == map[]
    {
      stamps := map[];
    }

    /** The body of the sweep; `failing` are the chats whose native call fails. */
    method Sweep(settings: Settings, now: int, live: seq<Task>, archived: seq<Task>, failing: set<string>)
      returns (archivedIds: set<string>, removedIds: set<string>)
      modifies this
      ensures
        Outcome(stamps, archivedIds, removedIds) == Swept(old(stamps), settings, now, live, archived, failing)
    {
      archivedIds, removedIds := {}, {};
      if settings.archiveMs.GetOr(0) == 0 && settings.deleteMs.GetOr(0) == 0 && |stamps| == 0 {
        return;
      }
      ghost var before := stamps;
      var next, changed := StampArchived(stamps, archived, now);
      if changed {
        stamps := next;
        return;
      }
      UnchangedStamps(stamps, archived, now);
      var i := 0;
      while i < |live|
        invariant 0 <= i <= |live|
        invariant stamps == before && archivedIds == ArchivedIds(settings, now, live[..i], failing)
      {
        ArchivedStep(settings, now, live, i, failing);
        if Archives(settings, now, live[i]) && live[i].id !in failing {
          archivedIds := archivedIds + {live[i].id};
        }
        i := i + 1;
      }
      assert live[..i] == live;
      var k := 0;
      while k < |archived|
        invariant 0 <= k <= |archived|
        invariant stamps == before && removedIds == DeletedIds(settings, next, now, archived[..k], failing)
      {
        DeletedStep(settings, next, now, archived, k, failing);
        if Deletes(settings, next, now, archived[k]) && archived[k].id !in failing {
          removedIds := removedIds + {archived[k].id};
        }
        k := k + 1;
      }
      assert archived[..k] == archived;
      if removedIds != {} {
        stamps := next - removedIds;
      }
      SweepActs(before, settings, now, live, archived, failing, stamps);
    }
  }

  // ---- runs of sweeps -------------------------------------------------------

  /** A completed sweep: when it ran and which chats it saw archived. */
  datatype Pass = Pass(now: int, seen: set<string>)

  datatype State = State(stamps: Stamps, passes: seq<Pass>)

  datatype Sweep = Sweep(settings: Settings, now: int, live: seq<Task>, archived: seq<Task>, failing: set<string>)

  const INITIAL := State(map[], [])

  function OutcomeOf(s: State, w: Sweep): Outcome {
    Swept(s.stamps, w.settings, w.now, w.live, w.archived, w.failing)
  }

  function Next(s: State, w: Sweep): State {
    State(OutcomeOf(s, w).stamps, if Dormant(s.stamps, w.settings) then s.passes else s.passes + [Pass(w.now, IdsOf(w.archived))])
  }

  function After(s: State, run: seq<Sweep>): State
    decreases |run|
  {
    if run == [] then s else After(Next(s, run[0]), run[1..])
  }

  /** The chat was stamped by pass `k`, and every pass since then saw it archived. */
  ghost predicate StampedBy(s: State, id: string, k: nat) {
    && id in s.stamps && k < |s.passes| && s.stamps[id] == At(s.passes[k].now)
    && forall j :: k <= j < |s.passes| ==> id in s.passes[j].seen
  }

  ghost predicate Inv(s: State) {
    forall id :: id in s.stamps ==> exists k :: 0 <= k < |s.passes| && StampedBy(s, id, k)
  }

  lemma InvNext(s: State, w: Sweep)
    requires Inv(s)
    ensures Inv(Next(s, w))
  {
    var t := Next(s, w);
    forall id | id in t.stamps
      ensures exists k :: 0 <= k < |t.passes| && StampedBy(t, id, k)
    {
      if id in s.stamps {
        var k :| 0 <= k < |s.passes| && StampedBy(s, id, k);
        assert StampedBy(t, id, k);
      } else {
        assert StampedBy(t, id, |s.passes|);
      }
    }
  }

  lemma {:induction false} EveryRunKeepsInv(s: State, run: seq<Sweep>)
    requires Inv(s)
    ensures Inv(After(s, run))
    decreases |run|
  {
    if run != [] {
      InvNext(s, run[0]);
      EveryRunKeepsInv(Next(s, run[0]), run[1..]);
    }
  }

  /**
   * A chat is deleted only if some earlier sweep stamped it, every completed
   * sweep from that one to this saw it archived, and the stamp is older than the
   * limit.
   */
  lemma DeletedOnlyAfterItsTime(run: seq<Sweep>, w: Sweep, id: string)
    requires id in OutcomeOf(After(INITIAL, run), w).deleted
    ensures w.settings.deleteMs.Some?
    ensures
      var s := After(INITIAL, run);
      && id in IdsOf(w.archived)
      && exists k :: 0 <= k < |s.passes| && StampedBy(s, id, k) && w.now - s.passes[k].now > w.settings.deleteMs.value
  {
    var s := After(INITIAL, run);
    EveryRunKeepsInv(INITIAL, run);
    var task :| task in w.archived && Deletes(w.settings, s.stamps, w.now, task) && task.id == id;
    assert id in s.stamps;
    var k :| 0 <= k < |s.passes| && StampedBy(s, id, k);
  }

  /** A sweep that changes the stamped set touches no chat. */
  lemma StampingSweepTouchesNothing(s: State, w: Sweep)
    requires StampsDiffer(s.stamps, w.archived)
    ensures OutcomeOf(s, w).archived == {} && OutcomeOf(s, w).deleted == {}
    ensures OutcomeOf(s, w).stamps.Keys == if Dormant(s.stamps, w.settings) then {} else IdsOf(w.archived)
  {
  }

  /** No run of sweeps stores an empty stamp, so over runs the test is exactly the difference of the sets. */
  lemma RunsTestTheSets(run: seq<Sweep>, w: Sweep)
    ensures Restamps(After(INITIAL, run).stamps, w.archived) <==> StampsDiffer(After(INITIAL, run).stamps, w.archived)
  {
    EveryRunKeepsInv(INITIAL, run);
    var s := After(INITIAL, run);
    forall id | id in s.stamps
      ensures s.stamps[id] != Empty
    {
      var k :| 0 <= k < |s.passes| && StampedBy(s, id, k);
    }
  }

  /** An empty stamp stalls retention: while its chat stays archived no sweep archives or deletes any chat. */
  lemma {:induction false} EmptyStampStalls(s: State, run: seq<Sweep>, id: string, w: Sweep)
    requires id in s.stamps && s.stamps[id] == Empty && id in IdsOf(w.archived)
    requires forall v :: v in run ==> id in IdsOf(v.archived)
    ensures OutcomeOf(After(s, run), w).archived == {} && OutcomeOf(After(s, run), w).deleted == {}
    decreases |run|
  {
    if run != [] {
      assert run[0] in run;
      EmptyStampStalls(Next(s, run[0]), run[1..], id, w);
    }
  }

  /** After any sweep that starts exactly the chats it saw archived and did not delete are stamped. */
  lemma StampsFollowTheArchive(s: State, w: Sweep)
    requires !Dormant(s.stamps, w.settings)
    ensures OutcomeOf(s, w).stamps.Keys == IdsOf(w.archived) - OutcomeOf(s, w).deleted
  {
  }

  /** A sweep acts: it has something to do, its stamps match the archive and none of those is empty. */
  predicate Acts(s: State, w: Sweep) {
    && ((w.settings.archiveMs.Some? && w.settings.archiveMs.value > 0)
        || (w.settings.deleteMs.Some? && w.settings.deleteMs.value > 0) || s.stamps != map[])
    && (set task | task in w.archived :: task.id) == s.stamps.Keys
    && forall id :: id in s.stamps ==> s.stamps[id] != Empty
  }

  /** Not open when the sweep started, no child, and not busy. */
  predicate MayGo(task: Task, w: Sweep) {
    task.id != w.settings.active && !task.child && !task.busy
  }

  /**
   * A sweep deletes exactly the archived chats that may go, whose stamp is older
   * than a limit that is set and not zero, and whose call does not fail.
   */
  lemma DeletedExactly(s: State, w: Sweep, id: string)
    ensures
      id in OutcomeOf(s, w).deleted <==>
      && Acts(s, w) && id !in w.failing
      && w.settings.deleteMs.Some? && w.settings.deleteMs.value > 0
      && exists task :: task in w.archived && task.id == id && MayGo(task, w)
           && id in s.stamps && s.stamps[id].At? && w.now - s.stamps[id].time > w.settings.deleteMs.value
  {
    if Acts(s, w) {
      assert !Restamps(s.stamps, w.archived) && !Dormant(s.stamps, w.settings);
    }
  }

  /**
   * It archives exactly the live chats that may go, are not pinned and were last
   * updated longer ago than a limit that is set and not zero, where the native
   * side can archive at all.
   */
  lemma ArchivedExactly(s: State, w: Sweep, id: string)
    ensures
      id in OutcomeOf(s, w).archived <==>
      && Acts(s, w) && id !in w.failing && w.settings.canArchive
      && w.settings.archiveMs.Some? && w.settings.archiveMs.value > 0
      && exists task :: task in w.live && task.id == id && MayGo(task, w) && !task.pinned
           && task.updatedAt.Some? && w.now - task.updatedAt.value > w.settings.archiveMs.value
  {
    if Acts(s, w) {
      assert !Restamps(s.stamps, w.archived) && !Dormant(s.stamps, w.settings);
    }
  }

  /** A sweep that starts but does not act stamps the archive: known chats keep their stamps, new ones get its time. */
  lemma StampsExactly(s: State, w: Sweep)
    ensures
      var after := OutcomeOf(s, w).stamps;
      if (w.settings.archiveMs.None? || w.settings.archiveMs.value == 0)
         && (w.settings.deleteMs.None? || w.settings.deleteMs.value == 0) && s.stamps == map[]
      then after == s.stamps
      else if Acts(s, w) then after == s.stamps - OutcomeOf(s, w).deleted
      else forall id :: id in after <==> id in IdsOf(w.archived)
    ensures
      var after := OutcomeOf(s, w).stamps;
      forall id :: id in after ==> after[id] == if id in s.stamps then s.stamps[id] else At(w.now)
  {
    assert Acts(s, w) ==> !Restamps(s.stamps, w.archived) && !Dormant(s.stamps, w.settings);
  }

  /** Ids name one chat each. */
  predicate OneTaskPerId(tasks: seq<Task>) {
    forall a, b :: a in tasks && b in tasks && a.id == b.id ==> a == b
  }

  /** Active, child and busy chats are never archived or deleted, and pinned ones never archived. */
  lemma ProtectedChatsStay(s: State, w: Sweep, task: Task)
    requires OneTaskPerId(w.live + w.archived) && task in w.live + w.archived
    ensures task.id == w.settings.active || task.child || task.busy ==>
              task.id !in OutcomeOf(s, w).archived && task.id !in OutcomeOf(s, w).deleted
    ensures task.pinned ==> task.id !in OutcomeOf(s, w).archived
  {
    forall other | other in w.live || other in w.archived
      ensures other.id == task.id ==> other == task
    {
      assert other in w.live + w.archived;
    }
  }

  // ---- chats opened while a sweep runs ------------------------------------------

  // The sweep reads the active chat when it starts, and then waits for one call
  // after another; the user may open any chat meanwhile.

  /** The deletions of one sweep: the chats still waiting for their call, those deleted, and those deleted while open. */
  datatype Deletion = Deletion(active: string, waiting: seq<string>, deleted: set<string>, deletedOpen: set<string>)

  datatype Moment = Open(id: string) | Call(ok: bool)

  function Chosen(w: Sweep, stamps: Stamps, archived: seq<Task>): seq<string> {
    if archived == [] then []
    else (if Deletes(w.settings, stamps, w.now, archived[0]) then [archived[0].id] else []) + Chosen(w, stamps, archived[1..])
  }

  /** Whether the sweep, when it starts, picks the chat for deletion. */
  predicate PicksForDeletion(s: State, w: Sweep, id: string) {
    && !Dormant(s.stamps, w.settings) && !Restamps(s.stamps, w.archived)
    && exists task :: task in w.archived && task.id == id && Deletes(w.settings, s.stamps, w.now, task)
  }

  function Begun(s: State, w: Sweep): Deletion {
    Deletion(
      w.settings.active,
      if Dormant(s.stamps, w.settings) || Restamps(s.stamps, w.archived) then [] else Chosen(w, s.stamps, w.archived),
      {}, {})
  }

  predicate Occurs(d: Deletion, m: Moment) {
    m.Call? ==> d.waiting != []
  }

  function Then(d: Deletion, m: Moment): Deletion
    requires Occurs(d, m)
  {
    match m
    case Open(id) => d.(active := id)
    case Call(ok) =>
      var id := d.waiting[0];
      Deletion(d.active, d.waiting[1..],
               if ok then d.deleted + {id} else d.deleted,
               if ok && d.active == id then d.deletedOpen + {id} else d.deletedOpen)
  }

  predicate CanRun(d: Deletion, run: seq<Moment>)
    decreases |run|
  {
    run == [] || (Occurs(d, run[0]) && CanRun(Then(d, run[0]), run[1..]))
  }

  function Reached(d: Deletion, run: seq<Moment>): Deletion
    requires CanRun(d, run)
    decreases |run|
  {
    if run == [] then d else Reached(Then(d, run[0]), run[1..])
  }

  /** Exactly the calls for the `failing` chats fail. */
  predicate FailsFor(d: Deletion, run: seq<Moment>, failing: set<string>)
    requires CanRun(d, run)
    decreases |run|
  {
    run == []
    || ((run[0].Call? ==> run[0].ok == (d.waiting[0] !in failing)) && FailsFor(Then(d, run[0]), run[1..], failing))
  }

  lemma {:induction false} ChosenExactly(w: Sweep, stamps: Stamps, archived: seq<Task>, id: string)
    ensures id in Chosen(w, stamps, archived)
            <==> exists task :: task in archived && task.id == id && Deletes(w.settings, stamps, w.now, task)
  {
    if archived != [] {
      ChosenExactly(w, stamps, archived[1..], id);
      assert archived == [archived[0]] + archived[1..];
    }
  }

  lemma PickedExactly(s: State, w: Sweep, id: string)
    ensures id in Begun(s, w).waiting <==> PicksForDeletion(s, w, id)
  {
    ChosenExactly(w, s.stamps, w.archived, id);
  }

  /** A call that succeeds deletes the chat that waited first, and it was open exactly if it is the active one then. */
  lemma CallDeletesExactly(d: Deletion, ok: bool, id: string)
    requires d.waiting != []
    ensures
      var n := Then(d, Call(ok));
      && n.waiting == d.waiting[1..] && n.active == d.active
      && (id in n.deleted <==> id in d.deleted || (ok && id == d.waiting[0]))
      && (id in n.deletedOpen <==> id in d.deletedOpen || (ok && id == d.waiting[0] && id == d.active))
    ensures Then(d, Open(id)) == Deletion(id, d.waiting, d.deleted, d.deletedOpen)
  {
  }

  lemma {:induction false} CallsDelete(d: Deletion, run: seq<Moment>, failing: set<string>, id: string)
    requires CanRun(d, run) && FailsFor(d, run, failing) && Reached(d, run).waiting == []
    ensures id in Reached(d, run).deleted <==> id in d.deleted || (id in d.waiting && id !in failing)
    decreases |run|
  {
    if run != [] {
      CallsDelete(Then(d, run[0]), run[1..], failing, id);
      if run[0].Call? {
        assert d.waiting == [d.waiting[0]] + d.waiting[1..];
      }
    }
  }

  /** Whatever chats are opened while it runs, a sweep that ends has deleted the same chats. */
  lemma OpeningNeverProtects(s: State, w: Sweep, run: seq<Moment>)
    requires
      var d := Begun(s, w);
      CanRun(d, run) && FailsFor(d, run, w.failing) && Reached(d, run).waiting == []
    ensures Reached(Begun(s, w), run).deleted == OutcomeOf(s, w).deleted
  {
    forall id
      ensures id in Reached(Begun(s, w), run).deleted <==> id in OutcomeOf(s, w).deleted
    {
      CallsDelete(Begun(s, w), run, w.failing, id);
      PickedExactly(s, w, id);
    }
  }

  lemma {:induction false} DeletedOpenWaited(d: Deletion, run: seq<Moment>, id: string)
    requires CanRun(d, run) && id in Reached(d, run).deletedOpen
    ensures id in d.deletedOpen || id in d.waiting
    decreases |run|
  {
    if run != [] {
      DeletedOpenWaited(Then(d, run[0]), run[1..], id);
    }
  }

  lemma {:induction false} WaitingCanBeOpened(d: Deletion, id: string) returns (run: seq<Moment>)
    requires id in d.waiting
    ensures CanRun(d, run) && id in Reached(d, run).deletedOpen
    decreases |d.waiting|
  {
    if d.waiting[0] == id {
      var open := Then(d, Open(id));
      run := [Open(id)] + [Call(true)];
      assert run[1..] == [Call(true)] && [Call(true)][1..] == [];
      assert id in Then(open, Call(true)).deletedOpen;
      assert Reached(open, [Call(true)]) == Then(open, Call(true));
    } else {
      assert d.waiting == [d.waiting[0]] + d.waiting[1..];
      var rest := WaitingCanBeOpened(Then(d, Call(true)), id);
      run := [Call(true)] + rest;
      assert run[1..] == rest;
    }
  }

  /**
   * A chat can be deleted while it is open exactly when the sweep picked it at its
   * start: the chat open then is spared, one opened later is not.
   */
  lemma DeletedOpenExactly(s: State, w: Sweep, id: string)
    ensures (exists run: seq<Moment> :: CanRun(Begun(s, w), run) && id in Reached(Begun(s, w), run).deletedOpen)
            <==> PicksForDeletion(s, w, id)
    ensures PicksForDeletion(s, w, id) ==> id != w.settings.active
  {
    PickedExactly(s, w, id);
    if PicksForDeletion(s, w, id) {
      var run := WaitingCanBeOpened(Begun(s, w), id);
    } else if run: seq<Moment> :| CanRun(Begun(s, w), run) && id in Reached(Begun(s, w), run).deletedOpen {
      DeletedOpenWaited(Begun(s, w), run, id);
    }
  }
}
