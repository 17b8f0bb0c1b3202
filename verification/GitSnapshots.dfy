/**
 * Surgical reconciliation of a freshly loaded Git snapshot with the cached one
 * (apps/desktop/src/gitSnapshot.ts).
 */
module GitSnapshots {
  // The source compares rows by object identity. A row here carries an `ident`
  // standing for its object, so `==` on rows is that identity. `loadedAt` is the
  // history of the row's patch: the moment the load that produced it started.

  import opened Common

  datatype Kind = Repository | NotRepository

  datatype Status = Modified | Added | Deleted | Renamed

  datatype Row = Row(
    path: string, staged: bool, status: Status, additions: nat, deletions: nat,
    statsLoaded: Option<bool>, ident: nat, loadedAt: nat)

  datatype Header = Header(
    kind: Kind, branch: string, upstream: string, ahead: nat, behind: nat,
    worktree: string, historyHasMore: Option<bool>)

  datatype Snapshot = Snapshot(header: Header, remotes: seq<string>, commits: seq<string>, files: seq<Row>)

  /** What a reconciliation returns, and whether it is the previous object itself. */
  datatype Reconciled = Reconciled(git: Snapshot, reused: bool)

  /** `diffFileKey`: one row per path and index/worktree side. */
  function Key(r: Row): (bool, string) {
    (r.staged, r.path)
  }

  predicate SameFileSummary(left: Row, right: Row) {
    && left.path == right.path
    && left.status == right.status
    && left.staged == right.staged
    && left.additions == right.additions
    && left.deletions == right.deletions
    && left.statsLoaded == right.statsLoaded
  }

  ghost predicate UniqueKeys(files: seq<Row>) {
    forall i, j :: 0 <= i < j < |files| ==> Key(files[i]) != Key(files[j])
  }

  /** `new Map(files.map(...)).get(key)`: the last row with the key. */
  function Existing(files: seq<Row>, key: (bool, string)): (r: Option<Row>)
    ensures r.Some? ==> r.value in files && Key(r.value) == key
    ensures r.None? ==> forall f :: f in files ==> Key(f) != key
  {
    if files == [] then None
    else if Key(files[|files| - 1]) == key then Some(files[|files| - 1])
    else Existing(files[..|files| - 1], key)
  }

  /** The row kept for an incoming row: the cached object, or the incoming one. */
  function Kept(previous: seq<Row>, row: Row, invalidated: Option<set<string>>): Row {
    if invalidated.None? || row.path in invalidated.value then row
    else
      var existing := Existing(previous, Key(row));
      if existing.Some? && SameFileSummary(existing.value, row) then existing.value else row
  }

  function KeptRows(previous: seq<Row>, incoming: seq<Row>, invalidated: Option<set<string>>): (rows: seq<Row>)
    ensures |rows| == |incoming|
    ensures forall i :: 0 <= i < |incoming| ==> rows[i] == Kept(previous, incoming[i], invalidated)
  {
    seq(|incoming|, i requires 0 <= i < |incoming| => Kept(previous, incoming[i], invalidated))
  }

  /** `reconcileGitSnapshot`. */
  function Reconcile(previous: Option<Snapshot>, incoming: Snapshot, invalidated: Option<set<string>>): Reconciled {
    if previous.None? || previous.value.header.kind != incoming.header.kind then Reconciled(incoming, false)
    else
      var was := previous.value;
      var files := KeptRows(was.files, incoming.files, invalidated);
      var remotes := if was.remotes == incoming.remotes then was.remotes else incoming.remotes;
      var commits := if was.commits == incoming.commits then was.commits else incoming.commits;
      if files == was.files && remotes == was.remotes && commits == was.commits && was.header == incoming.header
      then Reconciled(was, true)
      else Reconciled(incoming.(files := files, remotes := remotes, commits := commits), false)
  }

  lemma {:induction false} ExistingIsUnique(files: seq<Row>, i: nat)
    requires UniqueKeys(files) && i < |files|
    ensures Existing(files, Key(files[i])) == Some(files[i])
  {
    if i < |files| - 1 {
      assert Key(files[i]) != Key(files[|files| - 1]);
      ExistingIsUnique(files[..|files| - 1], i);
    }
  }

  /**
   * Both return paths agree: whichever object comes back, its value is the
   * incoming snapshot with the rows replaced one by one. The early return for
   * an absent or differently-kinded previous snapshot keeps no old row at all.
   */
  lemma ReconcileIsRowwise(previous: Option<Snapshot>, incoming: Snapshot, invalidated: Option<set<string>>)
    ensures
      var git := Reconcile(previous, incoming, invalidated).git;
      && git.(files := incoming.files) == incoming
      && |git.files| == |incoming.files|
      && forall i :: 0 <= i < |git.files| ==>
          git.files[i] ==
            if previous.Some? && previous.value.header.kind == incoming.header.kind
            then Kept(previous.value.files, incoming.files[i], invalidated)
            else incoming.files[i]
  {
  }

  /** Every row shows what the load found: only the object, with its patch, can be an older one. */
  lemma RowsShowTheLoad(previous: Option<Snapshot>, incoming: Snapshot, invalidated: Option<set<string>>)
    ensures
      var git := Reconcile(previous, incoming, invalidated).git;
      && |git.files| == |incoming.files|
      && forall i :: 0 <= i < |incoming.files| ==>
          git.files[i].(ident := incoming.files[i].ident, loadedAt := incoming.files[i].loadedAt) == incoming.files[i]
  {
    ReconcileIsRowwise(previous, incoming, invalidated);
  }

  /** A row of the result is an incoming row, or an untouched cached row that shows the same and whose path was not invalidated. */
  lemma KeptRowOrigin(previous: Option<Snapshot>, incoming: Snapshot, invalidated: Option<set<string>>, r: Row)
    requires r in Reconcile(previous, incoming, invalidated).git.files
    ensures
      || r in incoming.files
      || (&& previous.Some? && r in previous.value.files
          && invalidated.Some? && r.path !in invalidated.value
          && exists row :: row in incoming.files && r.(ident := row.ident, loadedAt := row.loadedAt) == row)
  {
    var git := Reconcile(previous, incoming, invalidated).git;
    var i :| 0 <= i < |git.files| && git.files[i] == r;
    ReconcileIsRowwise(previous, incoming, invalidated);
    assert incoming.files[i] in incoming.files;
  }

  /**
   * A row is a cached object exactly when both snapshots are of one kind, its path
   * was not invalidated and a cached row agrees with the loaded one in path, side,
   * status, counts and whether the counts are loaded. Then it is that cached row.
   */
  lemma RowIsCachedExactly(previous: Snapshot, incoming: Snapshot, invalidated: Option<set<string>>, i: nat)
    requires UniqueKeys(previous.files) && FreshObjects(previous.files, incoming.files) && i < |incoming.files|
    ensures |Reconcile(Some(previous), incoming, invalidated).git.files| == |incoming.files|
    ensures
      var row, kept := incoming.files[i], Reconcile(Some(previous), incoming, invalidated).git.files[i];
      && (kept in previous.files <==>
            && previous.header.kind == incoming.header.kind
            && invalidated.Some? && row.path !in invalidated.value
            && exists c :: c in previous.files
                 && c.path == row.path && c.staged == row.staged && c.status == row.status
                 && c.additions == row.additions && c.deletions == row.deletions && c.statsLoaded == row.statsLoaded)
      && (kept !in previous.files ==> kept == row)
  {
    var row := incoming.files[i];
    assert row in incoming.files;
    ReconcileIsRowwise(Some(previous), incoming, invalidated);
    if c :| c in previous.files && c.path == row.path && c.staged == row.staged && c.status == row.status
            && c.additions == row.additions && c.deletions == row.deletions && c.statsLoaded == row.statsLoaded
    {
      var j :| 0 <= j < |previous.files| && previous.files[j] == c;
      ExistingIsUnique(previous.files, j);
    }
  }

  /** Keys come from the incoming rows alone, so uniqueness carries over. */
  lemma ReconcileKeepsKeys(previous: Option<Snapshot>, incoming: Snapshot, invalidated: Option<set<string>>)
    ensures
      var git := Reconcile(previous, incoming, invalidated).git;
      && |git.files| == |incoming.files|
      && forall i :: 0 <= i < |git.files| ==> Key(git.files[i]) == Key(incoming.files[i])
  {
    ReconcileIsRowwise(previous, incoming, invalidated);
  }

  ghost predicate FreshObjects(previous: seq<Row>, incoming: seq<Row>) {
    forall p, r :: p in previous && r in incoming ==> p.ident != r.ident
  }

  ghost predicate NothingVisibleChanged(was: Snapshot, incoming: Snapshot) {
    && was.header == incoming.header
    && was.remotes == incoming.remotes
    && was.commits == incoming.commits
    && |was.files| == |incoming.files|
    && forall i :: 0 <= i < |was.files| ==>
        was.files[i].(ident := incoming.files[i].ident, loadedAt := incoming.files[i].loadedAt) == incoming.files[i]
  }

  /**
   * The previous snapshot object itself comes back exactly when nothing visible
   * changed and no listed row was invalidated (rows freshly parsed from the load
   * are never the cached objects).
   */
  lemma ReusedExactlyWhenNothingChanged(was: Snapshot, incoming: Snapshot, invalidated: Option<set<string>>)
    requires UniqueKeys(was.files)
    requires FreshObjects(was.files, incoming.files)
    ensures Reconcile(Some(was), incoming, invalidated).reused <==>
            && NothingVisibleChanged(was, incoming)
            && (forall r :: r in incoming.files ==> invalidated.Some? && r.path !in invalidated.value)
  {
    var files := KeptRows(was.files, incoming.files, invalidated);
    if Reconcile(Some(was), incoming, invalidated).reused {
      forall i | 0 <= i < |was.files|
        ensures was.files[i].(ident := incoming.files[i].ident, loadedAt := incoming.files[i].loadedAt) == incoming.files[i]
        ensures invalidated.Some? && incoming.files[i].path !in invalidated.value
      {
        assert files[i] == was.files[i];
        assert was.files[i] in was.files && incoming.files[i] in incoming.files;
      }
    }
    if && NothingVisibleChanged(was, incoming)
       && (forall r :: r in incoming.files ==> invalidated.Some? && r.path !in invalidated.value)
    {
      forall i | 0 <= i < |was.files|
        ensures files[i] == was.files[i]
      {
        assert incoming.files[i] in incoming.files;
        assert SameFileSummary(was.files[i], incoming.files[i]);
        ExistingIsUnique(was.files, i);
      }
      assert files == was.files;
    }
  }
}
