/**
 * Composer drafts: the optimistic-revision store
 * (apps/desktop/src/composerDraftStore.ts:19-89) and the coalescing writer that
 * persists them (apps/desktop/src/App.tsx:3014-3049).
 */
module ComposerDrafts {
  import opened Common

  datatype Owner = NewChat(project: string) | OfTask(task: string)

  datatype Attachment = Attachment(path: string, preview: Option<string>)

  /** `route` stands for the runtime, model, effort and permission fields, which are only carried along. */
  datatype Value = Value(prompt: string, attachments: seq<Attachment>, selection: (nat, nat), route: nat)

  datatype Draft = Draft(owner: Owner, value: Value, revision: nat, updatedAt: nat)

  /** `draftOwnerKey`. */
  function Key(owner: Owner): string {
    match owner
    case NewChat(project) => "project:" + project
    case OfTask(task) => "task:" + task
  }

  lemma KeysAreDistinct(a: Owner, b: Owner)
    ensures Key(a) == Key(b) <==> a == b
  {
    if a.NewChat? {
      assert Key(a)[0] == 'p' && Key(a)[8..] == a.project;
    } else {
      assert Key(a)[0] == 't' && Key(a)[5..] == a.task;
    }
    if b.NewChat? {
      assert Key(b)[0] == 'p' && Key(b)[8..] == b.project;
    } else {
      assert Key(b)[0] == 't' && Key(b)[5..] == b.task;
    }
  }

  type Drafts = map<string, Draft>

  function WithoutPreviews(value: Value): Value {
    value.(attachments :=
      seq(|value.attachments|, i requires 0 <= i < |value.attachments| => value.attachments[i].(preview := None)))
  }

  /** `update`: the draft it stores and returns. */
  function Revised(drafts: Drafts, owner: Owner, value: Value, now: nat): Draft {
    var revision := if Key(owner) in drafts then drafts[Key(owner)].revision else 0;
    Draft(owner, WithoutPreviews(value), revision + 1, now)
  }

  /** The emptied draft that `clear` and `promote` leave behind. */
  function Emptied(current: Draft, now: nat): Draft {
    current.(value := current.value.(prompt := "", attachments := [], selection := (0, 0)),
             revision := current.revision + 1, updatedAt := now)
  }

  /** Whether `clear` or `promote` still holds the newest revision. */
  predicate Fresh(drafts: Drafts, owner: Owner, revision: nat) {
    Key(owner) in drafts && drafts[Key(owner)].revision == revision
  }

  function Moved(drafts: Drafts, project: string, task: string, now: nat): Draft
    requires Key(NewChat(project)) in drafts
  {
    drafts[Key(NewChat(project))].(owner := OfTask(task), updatedAt := now)
  }

  function Promoted(drafts: Drafts, project: string, task: string, revision: nat, now: nat): Drafts {
    if !Fresh(drafts, NewChat(project), revision) then drafts
    else
      drafts[Key(OfTask(task)) := Moved(drafts, project, task, now)]
            [Key(NewChat(project)) := Emptied(drafts[Key(NewChat(project))], now)]
  }

  function Cleared(drafts: Drafts, owner: Owner, revision: nat, now: nat): Drafts {
    if !Fresh(drafts, owner, revision) then drafts
    else drafts[Key(owner) := Emptied(drafts[Key(owner)], now)]
  }

  /** What `hydrate` keeps: for each key the first draft of the highest revision. */
  ghost predicate Newest(listed: seq<Draft>, drafts: Drafts) {
    && (forall d :: d in listed ==> Key(d.owner) in drafts && drafts[Key(d.owner)].revision >= d.revision)
    && (forall k :: k in drafts ==> FirstOfItsRevision(listed, k, drafts[k]))
  }

  ghost predicate FirstOfItsRevision(listed: seq<Draft>, k: string, d: Draft) {
    exists i :: 0 <= i < |listed| && listed[i] == d && Key(d.owner) == k
      && forall j :: 0 <= j < i && Key(listed[j].owner) == k ==> listed[j].revision < d.revision
  }

  // ---- the store object -----------------------------------------------------

  class ComposerDraftStore {
    var drafts: Drafts

    constructor ()
      ensures drafts == map[]
    {
      drafts := map[];
    }

    method Hydrate(listed: seq<Draft>)
      modifies this
      ensures Newest(listed, drafts)
    {
      drafts := map[];
      var i := 0;
      while i < |listed|
        invariant 0 <= i <= |listed|
        invariant Newest(listed[..i], drafts)
      {
        var draft := listed[i];
        var key := Key(draft.owner);
        NewestSnoc(listed[..i], drafts, draft);
        assert listed[..i + 1] == listed[..i] + [draft];
        if key !in drafts || draft.revision > drafts[key].revision {
          drafts := drafts[key := draft];
        }
        i := i + 1;
      }
      assert listed[..i] == listed;
    }

    function Read(owner: Owner): Option<Draft>
      reads this
    {
      Get(drafts, Key(owner))
    }

    method Update(owner: Owner, value: Value, now: nat) returns (draft: Draft)
      modifies this
      ensures draft == Revised(old(drafts), owner, value, now)
      ensures drafts == old(drafts)[Key(owner) := draft]
    {
      var current := Read(owner);
      draft := Draft(owner, WithoutPreviews(value), (if current.Some? then current.value.revision else 0) + 1, now);
      drafts := drafts[Key(owner) := draft];
    }

    /** The task's draft and the project's emptied one, or None for a stale revision. */
    method Promote(project: string, task: string, revision: nat, now: nat) returns (promoted: Option<(Draft, Draft)>)
      modifies this
      ensures promoted.Some? <==> Fresh(old(drafts), NewChat(project), revision)
      ensures drafts == Promoted(old(drafts), project, task, revision, now)
      ensures promoted.Some? ==>
        && promoted.value.0 == Moved(old(drafts), project, task, now)
        && promoted.value.1 == Emptied(old(drafts)[Key(NewChat(project))], now)
    {
      var current := Read(NewChat(project));
      if current.None? || current.value.revision != revision {
        return None;
      }
      var taskDraft := current.value.(owner := OfTask(task), updatedAt := now);
      var projectDraft := Emptied(current.value, now);
      drafts := drafts[Key(OfTask(task)) := taskDraft];
      drafts := drafts[Key(NewChat(project)) := projectDraft];
      promoted := Some((taskDraft, projectDraft));
    }

    method Clear(owner: Owner, revision: nat, now: nat) returns (cleared: Option<Draft>)
      modifies this
      ensures drafts == Cleared(old(drafts), owner, revision, now)
      ensures cleared == if Fresh(old(drafts), owner, revision) then Get(drafts, Key(owner)) else None
    {
      var current := Read(owner);
      if current.None? || current.value.revision != revision {
        return None;
      }
      cleared := Some(Emptied(current.value, now));
      drafts := drafts[Key(owner) := cleared.value];
    }
  }

  lemma FirstSnoc(listed: seq<Draft>, k: string, d: Draft, more: Draft)
    requires FirstOfItsRevision(listed, k, d)
    ensures FirstOfItsRevision(listed + [more], k, d)
  {
    var i :| 0 <= i < |listed| && listed[i] == d && Key(d.owner) == k
             && forall j :: 0 <= j < i && Key(listed[j].owner) == k ==> listed[j].revision < d.revision;
    var all := listed + [more];
    assert all[i] == d;
    assert forall j :: 0 <= j < i ==> all[j] == listed[j];
  }

  lemma NewestSnoc(listed: seq<Draft>, drafts: Drafts, draft: Draft)
    requires Newest(listed, drafts)
    ensures
      var key := Key(draft.owner);
      Newest(listed + [draft],
             if key !in drafts || draft.revision > drafts[key].revision then drafts[key := draft] else drafts)
  {
    var key := Key(draft.owner);
    var all := listed + [draft];
    var after := if key !in drafts || draft.revision > drafts[key].revision then drafts[key := draft] else drafts;
    forall k | k in after
      ensures FirstOfItsRevision(all, k, after[k])
    {
      if k in drafts && after[k] == drafts[k] {
        FirstSnoc(listed, k, drafts[k], draft);
      } else {
        assert all[|listed|] == draft;
        forall j | 0 <= j < |listed| && Key(all[j].owner) == key
          ensures all[j].revision < draft.revision
        {
          assert all[j] == listed[j] && listed[j] in listed;
        }
      }
    }
  }

  // ---- the writer -----------------------------------------------------------

  /** A JavaScript Map in insertion order; setting a present key keeps its place. */
  type Pending = seq<(string, Draft)>

  function Put(pending: Pending, key: string, draft: Draft): Pending {
    if pending == [] then [(key, draft)]
    else if pending[0].0 == key then [(key, draft)] + pending[1..]
    else [pending[0]] + Put(pending[1..], key, draft)
  }

  predicate Holds(pending: Pending, key: string, draft: Draft) {
    exists i :: 0 <= i < |pending| && pending[i] == (key, draft)
  }

  predicate Unique(pending: Pending) {
    forall i, j :: 0 <= i < j < |pending| ==> pending[i].0 != pending[j].0
  }

  lemma {:induction false} PutHolds(pending: Pending, key: string, draft: Draft)
    requires Unique(pending)
    ensures Unique(Put(pending, key, draft)) && Holds(Put(pending, key, draft), key, draft)
    ensures Put(pending, key, draft) != []
    ensures forall k, d :: k != key ==> (Holds(Put(pending, key, draft), k, d) <==> Holds(pending, k, d))
    ensures forall d :: Holds(Put(pending, key, draft), key, d) ==> d == draft
  {
    var after := Put(pending, key, draft);
    if pending == [] || pending[0].0 == key {
      assert after[0] == (key, draft);
      assert forall i :: 1 <= i < |after| ==> after[i] == pending[i];
    } else {
      var rest := pending[1..];
      PutHolds(rest, key, draft);
      var tail := Put(rest, key, draft);
      assert after == [pending[0]] + tail;
      forall i | 0 <= i < |tail|
        ensures tail[i].0 != pending[0].0
      {
        var k, d := tail[i].0, tail[i].1;
        assert Holds(tail, k, d);
        if k != key {
          assert Holds(rest, k, d);
          var j :| 0 <= j < |rest| && rest[j] == (k, d);
          assert pending[j + 1] == (k, d);
        }
      }
      HoldsCons(pending[0], tail);
      HoldsCons(pending[0], rest);
      assert pending == [pending[0]] + rest;
    }
  }

  lemma HoldsCons(first: (string, Draft), rest: Pending)
    ensures forall k, d :: Holds([first] + rest, k, d) <==> (k, d) == first || Holds(rest, k, d)
  {
    var all := [first] + rest;
    assert all[0] == first;
    forall k, d
      ensures Holds(all, k, d) <==> (k, d) == first || Holds(rest, k, d)
    {
      if Holds(rest, k, d) {
        var i :| 0 <= i < |rest| && rest[i] == (k, d);
        assert all[i + 1] == (k, d);
      }
      if Holds(all, k, d) {
        var i :| 0 <= i < |all| && all[i] == (k, d);
        assert i > 0 ==> rest[i - 1] == (k, d);
      }
    }
  }

  /** A writer loop: queued as a microtask, or suspended at a save call. */
  datatype Loop = Queued | Saving

  datatype Writer = Writer(pending: Pending, running: bool)

  function Enqueued(w: Writer, draft: Draft): Writer {
    Writer(Put(w.pending, Key(draft.owner), draft), true)
  }

  /** One turn of the loop: take the first pending draft, or stop. */
  function Turned(w: Writer): Writer {
    if w.pending == [] then w.(running := false) else w.(pending := w.pending[1..])
  }

  /**
   * `loops` are the writer loops alive, `attempts` the drafts handed to the save
   * call, and `changed` the keys written since the store was hydrated.
   */
  datatype State = State(drafts: Drafts, writer: Writer, loops: seq<Loop>, attempts: seq<Draft>, changed: set<string>)

  /** Each edit of the store hands its result to the writer in the same step. */
  datatype Event =
    | Edit(owner: Owner, value: Value, now: nat)
    | Clear(owner: Owner, revision: nat, now: nat)
    | Promote(project: string, task: string, revision: nat, now: nat)
    | Resume(loop: nat)

  ghost predicate KeysMatch(drafts: Drafts) {
    forall k :: k in drafts ==> Key(drafts[k].owner) == k
  }

  ghost predicate Starting(s: State) {
    KeysMatch(s.drafts) && s.writer == Writer([], false) && s.loops == [] && s.attempts == [] && s.changed == {}
  }

  /** `persistComposerDraft`. */
  function Persist(s: State, draft: Draft): State {
    s.(writer := Enqueued(s.writer, draft),
       loops := if s.writer.running then s.loops else s.loops + [Queued],
       changed := s.changed + {Key(draft.owner)})
  }

  function Store(s: State, draft: Draft): State {
    Persist(s.(drafts := s.drafts[Key(draft.owner) := draft]), draft)
  }

  function Next(s: State, e: Event): State
    requires e.Resume? ==> e.loop < |s.loops|
  {
    match e
    case Edit(owner, value, now) => Store(s, Revised(s.drafts, owner, value, now))
    case Clear(owner, revision, now) =>
      if Fresh(s.drafts, owner, revision) then Store(s, Emptied(s.drafts[Key(owner)], now)) else s
    case Promote(project, task, revision, now) =>
      if Fresh(s.drafts, NewChat(project), revision) then
        Store(Store(s, Moved(s.drafts, project, task, now)), Emptied(s.drafts[Key(NewChat(project))], now))
      else s
    case Resume(loop) =>
      var t := s.(writer := Turned(s.writer));
      if s.writer.pending == [] then t.(loops := s.loops[..loop] + s.loops[loop + 1..])
      else t.(loops := s.loops[loop := Saving], attempts := s.attempts + [s.writer.pending[0].1])
  }

  /** Promotion creates a task: it has no draft yet. */
  predicate Enabled(s: State, e: Event) {
    match e
    case Promote(_, task, _, _) => Key(OfTask(task)) !in s.drafts
    case Resume(loop) => loop < |s.loops|
    case _ => true
  }

  predicate Possible(s: State, run: seq<Event>)
    decreases |run|
  {
    run == [] || (Enabled(s, run[0]) && Possible(Next(s, run[0]), run[1..]))
  }

  function After(s: State, run: seq<Event>): State
    requires Possible(s, run)
    decreases |run|
  {
    if run == [] then s else After(Next(s, run[0]), run[1..])
  }

  // ---- revisions ------------------------------------------------------------

  /** Every draft of `before` is still there, unchanged or at a higher revision. */
  ghost predicate Grown(before: Drafts, after: Drafts) {
    forall k :: k in before ==> k in after && (after[k] == before[k] || after[k].revision > before[k].revision)
  }

  /** A stale `clear` or `promote` changes nothing. */
  lemma StaleChangesNothing(s: State, e: Event)
    requires e.Clear? ==> !Fresh(s.drafts, e.owner, e.revision)
    requires e.Promote? ==> !Fresh(s.drafts, NewChat(e.project), e.revision)
    requires e.Clear? || e.Promote?
    ensures Next(s, e) == s
  {
  }

  /** The store's part of a fresh promotion, key by key. */
  lemma PromotionWrites(s: State, project: string, task: string, revision: nat, now: nat)
    requires KeysMatch(s.drafts) && Fresh(s.drafts, NewChat(project), revision)
    ensures
      var t := Next(s, Promote(project, task, revision, now));
      && t.drafts == Promoted(s.drafts, project, task, revision, now)
      && KeysMatch(t.drafts)
  {
    KeysAreDistinct(NewChat(project), OfTask(task));
    KeysAreDistinct(s.drafts[Key(NewChat(project))].owner, NewChat(project));
  }

  /** Other owners' drafts are as they were. */
  ghost predicate OthersKept(before: Drafts, after: Drafts, owners: set<Owner>) {
    forall k :: k !in (set o | o in owners :: Key(o)) ==> Get(after, k) == Get(before, k)
  }

  /** An update stores what was given, its attachments without previews, as the newest draft of its owner. */
  lemma UpdateStoresTheValue(s: State, owner: Owner, value: Value, now: nat)
    ensures
      var before, after := s.drafts, Next(s, Edit(owner, value, now)).drafts;
      && OthersKept(before, after, {owner}) && Key(owner) in after
      && var d := after[Key(owner)];
        && d.owner == owner && d.updatedAt == now
        && d.revision == (if Key(owner) in before then before[Key(owner)].revision + 1 else 1)
        && d.value.prompt == value.prompt && d.value.selection == value.selection && d.value.route == value.route
        && |d.value.attachments| == |value.attachments|
        && forall i :: 0 <= i < |value.attachments| ==>
            d.value.attachments[i].path == value.attachments[i].path && d.value.attachments[i].preview.None?
  {
  }

  /** The draft as it was, but with nothing written in it and under the next revision. */
  predicate LeftEmpty(before: Draft, after: Draft) {
    && after.value.prompt == "" && after.value.attachments == [] && after.value.selection == (0, 0)
    && after.value.route == before.value.route
    && after.owner == before.owner && after.revision == before.revision + 1
  }

  /** A fresh clear leaves the owner's draft empty. */
  lemma ClearEmpties(s: State, owner: Owner, revision: nat, now: nat)
    requires KeysMatch(s.drafts) && Key(owner) in s.drafts && s.drafts[Key(owner)].revision == revision
    ensures
      var after := Next(s, Clear(owner, revision, now)).drafts;
      && OthersKept(s.drafts, after, {owner})
      && Key(owner) in after && LeftEmpty(s.drafts[Key(owner)], after[Key(owner)]) && after[Key(owner)].updatedAt == now
      && after == Cleared(s.drafts, owner, revision, now)
  {
  }

  /** A fresh promotion gives the task the project's draft, under its revision, and leaves the project's empty. */
  lemma PromotionMovesTheDraft(s: State, project: string, task: string, revision: nat, now: nat)
    requires KeysMatch(s.drafts)
    requires Key(NewChat(project)) in s.drafts && s.drafts[Key(NewChat(project))].revision == revision
    ensures
      var before, after := s.drafts, Next(s, Promote(project, task, revision, now)).drafts;
      && OthersKept(before, after, {NewChat(project), OfTask(task)})
      && Key(NewChat(project)) in after && LeftEmpty(before[Key(NewChat(project))], after[Key(NewChat(project))])
      && Get(after, Key(OfTask(task))) == Some(Draft(OfTask(task), before[Key(NewChat(project))].value, revision, now))
      && after[Key(NewChat(project))].updatedAt == now
  {
    KeysAreDistinct(NewChat(project), OfTask(task));
    KeysAreDistinct(s.drafts[Key(NewChat(project))].owner, NewChat(project));
  }

  /** The keys that wait to be saved, in order. */
  function KeysOf(pending: Pending): seq<string> {
    if pending == [] then [] else [pending[0].0] + KeysOf(pending[1..])
  }

  /** A waiting owner keeps its place; a new one goes last. */
  lemma {:induction false} PutKeepsOrder(pending: Pending, key: string, draft: Draft)
    ensures KeysOf(Put(pending, key, draft)) == if key in KeysOf(pending) then KeysOf(pending) else KeysOf(pending) + [key]
  {
    if pending != [] && pending[0].0 != key {
      PutKeepsOrder(pending[1..], key, draft);
    }
  }

  /** A turn saves the draft that has waited first, and the others go on waiting in order. */
  lemma TurnSavesTheFirst(s: State, loop: nat)
    requires loop < |s.loops|
    ensures
      var t := Next(s, Resume(loop));
      if s.writer.pending == []
      then t.attempts == s.attempts && !t.writer.running && t.writer.pending == [] && |t.loops| == |s.loops| - 1
      else t.attempts == s.attempts + [s.writer.pending[0].1] && [s.writer.pending[0]] + t.writer.pending == s.writer.pending
           && t.writer.running == s.writer.running && |t.loops| == |s.loops| && t.loops[loop] == Saving
    ensures Next(s, Resume(loop)).drafts == s.drafts
  {
  }

  /** Every change of the store wakes the writer: a loop is alive, a new one only if none was. */
  lemma ChangesWakeTheWriter(s: State, draft: Draft)
    ensures
      var t := Persist(s, draft);
      && t.writer.running && t.drafts == s.drafts
      && t.loops == if s.writer.running then s.loops else s.loops + [Queued]
  {
  }

  /**
   * A fresh promotion keeps every revision growing exactly when the task had no
   * draft of the same or a higher revision.
   */
  lemma PromotionGrowsExactly(s: State, project: string, task: string, revision: nat, now: nat)
    requires KeysMatch(s.drafts) && Fresh(s.drafts, NewChat(project), revision)
    requires Key(OfTask(task)) in s.drafts ==> s.drafts[Key(OfTask(task))] != Moved(s.drafts, project, task, now)
    ensures Grown(s.drafts, Next(s, Promote(project, task, revision, now)).drafts) <==>
            (Key(OfTask(task)) in s.drafts ==> s.drafts[Key(OfTask(task))].revision < revision)
  {
    PromotionWrites(s, project, task, revision, now);
    KeysAreDistinct(NewChat(project), OfTask(task));
    var t := Next(s, Promote(project, task, revision, now));
    assert t.drafts[Key(OfTask(task))].revision == revision;
  }

  // ---- the invariant --------------------------------------------------------

  /** The last draft of a key that was handed to the save call. */
  function LastAttempt(attempts: seq<Draft>, key: string): Option<Draft> {
    if attempts == [] then None
    else if Key(attempts[|attempts| - 1].owner) == key then Some(attempts[|attempts| - 1])
    else LastAttempt(attempts[..|attempts| - 1], key)
  }

  /** Revisions handed to the save call strictly increase for every owner. */
  ghost predicate AttemptsIncrease(attempts: seq<Draft>) {
    forall i, j :: 0 <= i < j < |attempts| && Key(attempts[i].owner) == Key(attempts[j].owner) ==>
      attempts[i].revision < attempts[j].revision
  }

  ghost predicate Above(attempts: seq<Draft>, key: string, revision: nat) {
    forall i :: 0 <= i < |attempts| && Key(attempts[i].owner) == key ==> attempts[i].revision < revision
  }

  /** What is settled about one key. */
  ghost predicate KeyOk(s: State, key: string) {
    && (forall d :: Holds(s.writer.pending, key, d) ==>
          && key in s.drafts && d == s.drafts[key] && Key(d.owner) == key && key in s.changed
          && Above(s.attempts, key, d.revision))
    && (key in s.drafts ==> Above(s.attempts, key, s.drafts[key].revision + 1))
    && (key !in s.drafts ==> Above(s.attempts, key, 0))
    && (key in s.changed ==>
          && key in s.drafts
          && (Holds(s.writer.pending, key, s.drafts[key]) || LastAttempt(s.attempts, key) == Some(s.drafts[key])))
  }

  ghost predicate Inv(s: State) {
    && KeysMatch(s.drafts)
    && Unique(s.writer.pending)
    && |s.loops| == (if s.writer.running then 1 else 0)
    && (s.writer.pending != [] ==> s.writer.running)
    && AttemptsIncrease(s.attempts)
    && forall key :: KeyOk(s, key)
  }

  /** Storing a newer draft, or the first one of its key, and handing it to the writer. */
  lemma InvStore(s: State, draft: Draft)
    requires Inv(s)
    requires Key(draft.owner) in s.drafts ==> s.drafts[Key(draft.owner)].revision < draft.revision
    ensures Inv(Store(s, draft)) && Grown(s.drafts, Store(s, draft).drafts)
  {
    var t := Store(s, draft);
    var key := Key(draft.owner);
    PutHolds(s.writer.pending, key, draft);
    forall k
      ensures KeyOk(t, k)
    {
      assert KeyOk(s, k);
    }
  }

  /** Taking the first pending draft keeps every key settled. */
  lemma KeysAfterTurn(s: State, t: State, first: (string, Draft), rest: Pending)
    requires Inv(s) && s.writer.pending != [] && first == s.writer.pending[0] && rest == s.writer.pending[1..]
    requires t.drafts == s.drafts && t.changed == s.changed
    requires t.writer.pending == rest && t.attempts == s.attempts + [first.1]
    ensures forall k :: KeyOk(t, k)
    ensures Key(first.1.owner) == first.0 && Above(s.attempts, first.0, first.1.revision)
  {
    assert s.writer.pending == [first] + rest;
    HoldsCons(first, rest);
    assert Holds(s.writer.pending, first.0, first.1) && KeyOk(s, first.0);
    assert t.attempts[..|s.attempts|] == s.attempts;
    assert forall d :: !Holds(rest, first.0, d);
    forall k
      ensures KeyOk(t, k)
    {
      assert KeyOk(s, k);
      assert k != first.0 ==> LastAttempt(t.attempts, k) == LastAttempt(s.attempts, k);
    }
  }

  lemma InvResume(s: State, loop: nat)
    requires Inv(s) && loop < |s.loops|
    ensures Inv(Next(s, Resume(loop)))
  {
    var t := Next(s, Resume(loop));
    if s.writer.pending != [] {
      var first := s.writer.pending[0];
      KeysAfterTurn(s, t, first, s.writer.pending[1..]);
    } else {
      forall k
        ensures KeyOk(t, k)
      {
        assert KeyOk(s, k);
      }
    }
  }

  lemma InvNext(s: State, e: Event)
    requires Inv(s) && Enabled(s, e)
    ensures Inv(Next(s, e)) && Grown(s.drafts, Next(s, e).drafts)
  {
    match e
    case Edit(owner, value, now) => InvStore(s, Revised(s.drafts, owner, value, now));
    case Clear(owner, revision, now) =>
      if Fresh(s.drafts, owner, revision) {
        InvStore(s, Emptied(s.drafts[Key(owner)], now));
      }
    case Promote(project, task, revision, now) =>
      if Fresh(s.drafts, NewChat(project), revision) {
        KeysAreDistinct(NewChat(project), OfTask(task));
        InvStore(s, Moved(s.drafts, project, task, now));
        InvStore(Store(s, Moved(s.drafts, project, task, now)), Emptied(s.drafts[Key(NewChat(project))], now));
      }
    case Resume(loop) => InvResume(s, loop);
  }

  lemma StartingInv(s: State)
    requires Starting(s)
    ensures Inv(s)
  {
    forall key
      ensures KeyOk(s, key)
    {
    }
  }

  lemma GrownTwice(a: Drafts, b: Drafts, c: Drafts)
    requires Grown(a, b) && Grown(b, c)
    ensures Grown(a, c)
  {
  }

  lemma {:induction false} EveryRunKeepsInv(s: State, run: seq<Event>)
    requires Inv(s) && Possible(s, run)
    ensures Inv(After(s, run)) && Grown(s.drafts, After(s, run).drafts)
    decreases |run|
  {
    if run != [] {
      InvNext(s, run[0]);
      EveryRunKeepsInv(Next(s, run[0]), run[1..]);
      GrownTwice(s.drafts, Next(s, run[0]).drafts, After(s, run).drafts);
    }
  }

  /** Over every run: revisions only grow, one writer loop at most, and saves in increasing revisions. */
  lemma DraftsAreSafe(s: State, run: seq<Event>)
    requires Starting(s) && Possible(s, run)
    ensures
      var t := After(s, run);
      Grown(s.drafts, t.drafts) && |t.loops| <= 1 && AttemptsIncrease(t.attempts)
  {
    StartingInv(s);
    EveryRunKeepsInv(s, run);
  }

  /** When the writer is idle, the newest draft of every owner that changed was the last one handed to the save call. */
  lemma IdleMeansAttempted(s: State, run: seq<Event>, key: string)
    requires Starting(s) && Possible(s, run)
    requires !After(s, run).writer.running && key in After(s, run).changed
    ensures
      var t := After(s, run);
      && key in t.drafts && LastAttempt(t.attempts, key) == Some(t.drafts[key])
      && t.loops == [] && t.writer.pending == []
  {
    StartingInv(s);
    EveryRunKeepsInv(s, run);
    assert KeyOk(After(s, run), key);
  }

  // ---- the writer's refs ----------------------------------------------------

  class DraftWriterRefs {
    var pendingDraftWrites: Pending
    var draftWriterRunning: bool

    constructor ()
      ensures View() == Writer([], false)
    {
      pendingDraftWrites, draftWriterRunning := [], false;
    }

    function View(): Writer
      reads this
    {
      Writer(pendingDraftWrites, draftWriterRunning)
    }

    /** `starts` says whether a writer loop is queued. */
    method PersistComposerDraft(draft: Draft) returns (starts: bool)
      modifies this
      ensures View() == Enqueued(old(View()), draft) && starts == !old(draftWriterRunning)
    {
      pendingDraftWrites := Put(pendingDraftWrites, Key(draft.owner), draft);
      if draftWriterRunning {
        return false;
      }
      draftWriterRunning := true;
      starts := true;
    }

    /** The loop from one suspension to the next; None ends it. */
    method Turn() returns (next: Option<Draft>)
      modifies this
      ensures View() == Turned(old(View()))
      ensures next == if old(pendingDraftWrites) == [] then None else Some(old(pendingDraftWrites)[0].1)
    {
      if |pendingDraftWrites| > 0 {
        next := Some(pendingDraftWrites[0].1);
        pendingDraftWrites := pendingDraftWrites[1..];
      } else {
        next := None;
        draftWriterRunning := false;
      }
    }
  }
}
