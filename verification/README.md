# Renderer protocols of AI Integrator

A Dafny 4.11 model of the asynchronous protocols in AI Integrator's desktop
renderer, with proofs about every run of them. `dafny verify dfyconfig.toml`
checks the whole project.

JavaScript runs one step at a time and interleaves at every `await`. Each
protocol is therefore a state machine whose steps are the synchronous stretches
between awaits. A module holds three layers:

* the machine on values: `State`, `Event`, `Enabled`, `Next`, and `Possible` and
  `After` for whole runs, with native calls that may complete late, fail or be
  overtaken in any order;
* an invariant kept by every step, and the claims about all runs that follow;
* the source's own object as a class, or its loop as a method, whose `ensures`
  equate the new fields with the machine's functions of the old ones. Suspended
  functions appear as one method per stretch.

Histories that the source does not keep (load start times, documents, sent
calls, logs) are part of the machine states only.

| module | subject |
|---|---|
| `GitSnapshots`, `GitRefresh` | surgical Git refresh with generations and an invalidated-path map |
| `BrowserBounds` | placement lanes of native browser pages |
| `Projections`, `Hydration` | snapshot-plus-log hydration of a task's projection |
| `WholeStates`, `HydrationLoss` | which cached states of tasks miss events, and when that is for good |
| `BrowserPosters` | stills of browser tabs |
| `ModelCatalog` | single-flight catalog with epochs |
| `ComposerDrafts` | optimistic-revision draft store and its writer |
| `AcpOwnership`, `AcpTurns`, `AcpSelection` | provider ownership, the task queue, bounded recovery, selection caches |
| `AutomationTranscript` | greedy claiming of scheduled prompts |
| `QueueDrain` | the queued-message drain |
| `Retention` | the archive retention sweep |
| `DelegationWalk` | the walk over a delegation lineage |
| `DiffLines` | unified-diff parser and printer |
| `ForkTitles` | fork titles |
| `Keybindings`, `KeyTable`, `KeybindingDispatch`, `KeybindingRegistry` | shortcut grammar and dispatch |
| `Common`, `Sorting`, `Decimals`, `Whitespace` | shared definitions |

## Where the code falls short of an obvious claim

Each item names the lemma with the exact condition, over all inputs, states or
runs of its machine, and runs or inputs that meet it.

* A surgical Git refresh that starts while another one holds a stale path can
  leave that path's old patch in a quiescent cache
  (`GitRefresh.StartCanEndStaleExactly`; a run from the start:
  `GitRefresh.OverlapEndsStale`).
* A task can be lost: shown as ready without an event that it was delivered. That
  can follow from leaving it if and only if its cache entry is not up to date then
  (`HydrationLoss.LeavingLosesExactly`), which is so if and only if something newer
  waits in the frame or in the buffer, or the entry is marked
  (`HydrationLoss.LeavingExactly`). Marks come from a fallback to an empty state
  after something was delivered, at `App.tsx:2220` when a first load fails and at
  `App.tsx:2280` when live events meet no shown state, and from events dropped or
  skipped earlier. Runs: a switch during hydration
  (`HydrationLoss.AbandonedHydrationLosesAnEvent`), a failed first load
  (`FailedLoadLosesAnEvent`), a frame during a first load
  (`FrameDuringLoadLosesAnEvent`), and a new chat opened while the task goes on
  (`NewChatLosesAnEvent`).
* The comment at `browserPosters.ts:134` says that a previous address is never
  painted under the new page. That holds of the entry, not of the published view:
  a tab that moves on without being seen loading keeps its old picture if and only
  if it had one (`BrowserPosters.NavigationPaintsExactly`,
  `BrowserPosters.TurnPaintsExactly`; a run:
  `BrowserPosters.PendingTabCanShowThePageLeft`), until the next publish
  (`BrowserPosters.PaintedUntilPublished`, `BrowserPosters.StepPaintsExactly`).
* A warm capture that overtakes a poster call leaves the tab pending with nothing
  outstanding (`BrowserPosters.WarmOvertakingExactly`, `StuckUntilSync`).
* A retry timer left by an earlier document at the same address allows a third
  automatic poster call (`BrowserPosters.ThirdCallExactly`).
* Promoting a draft onto a task that already has one of the same or a higher
  revision lowers or repeats its revision (`ComposerDrafts.PromotionGrowsExactly`).
* Pausing the queue does not stop a message that is being sent or marked or whose
  timer is armed (`QueueDrain.PauseStopsAllButExactly`; a run:
  `QueueDrain.StartsThoughPaused`).
* A message whose take fails, or may still fail, can be sent again
  (`QueueDrain.StartsAgainExactly`; a run: `QueueDrain.FailedTakeStartsAgain`).
* A sweep spares the chat that is open when it starts, not one opened while it
  waits for its calls (`Retention.DeletedOpenExactly`).
* An empty stamp among the stored retention stamps keeps the stamps-changed test
  true (`Retention.StampsTestIsExact`), so sweeps do not act while its chat stays
  archived (`Retention.EmptyStampStalls`).
* Fork titles that are clamped, of an empty or broken base, or numbered past the
  largest safe integer repeat (`ForkTitles.NextRepeatsExactly`).
* All of git's extended headers but the index line reach the reader as context
  rows (`DiffLines.ExtendedHeaderExactly`, and for any header line
  `DiffLines.HeaderLineExactly`, `DiffLines.RoundTripsExactly`).

## Model

| member | source | states |
|---|---|---|
| GitSnapshots.ReconcileIsRowwise | apps/desktop/src/gitSnapshot.ts:24-62 | Whichever of the two objects is returned, its value is the incoming snapshot with each row kept or replaced on its own; nothing is kept from an absent or differently-kinded snapshot. |
| GitSnapshots.RowsShowTheLoad | apps/desktop/src/gitSnapshot.ts:4-36 | Every row of the result equals the loaded row in all that it shows; only its object and loaded patch can be older. |
| GitSnapshots.RowIsCachedExactly | apps/desktop/src/gitSnapshot.ts:4-36 | A row is the cached object if and only if the kinds agree, its path is not invalidated and a cached row equals it in path, side, status, additions, deletions and statsLoaded. |
| GitSnapshots.KeptRowOrigin | apps/desktop/src/gitSnapshot.ts:31-36 | Every row of the result is an incoming row, or a cached row that shows the same as an incoming one and whose path was not invalidated. |
| GitSnapshots.ReconcileKeepsKeys | apps/desktop/src/gitSnapshot.ts:32-36 | The result has the incoming rows' keys, in order, so unique keys stay unique. |
| GitSnapshots.ReusedExactlyWhenNothingChanged | apps/desktop/src/gitSnapshot.ts:43-59 | The previous snapshot object is returned if and only if header, remotes, commits and every row show the same and no listed row was invalidated. |
| GitRefresh.NoInvalidationIsLost | apps/desktop/src/App.tsx:1997-2045 | In every interleaving each reported path is in the dirty map, in the taken set of a refresh in flight, or older than the start of an applied load. |
| GitRefresh.AppliedGenerationsIncrease | apps/desktop/src/App.tsx:1970-1982 | Every cache write raises the applied generation strictly, and a direct apply writes exactly the given snapshot; a step that does not write changes neither. |
| GitRefresh.OvertakenExactly | apps/desktop/src/App.tsx:1970-1982 | A load is written if and only if no invalidation, refresh or direct apply came after it began reading; an overtaken one never is. |
| GitRefresh.FlightsExactly | apps/desktop/src/App.tsx:1997-2045 | Which refreshes are in flight after each step, and with what they took; a tracked start takes all that is dirty. |
| GitRefresh.InvalidationExactly | apps/desktop/src/App.tsx:2015-2025 | After a report exactly the paths dirty before and the reported ones are dirty, and the generation has moved. |
| GitRefresh.SettlingExactly | apps/desktop/src/App.tsx:2033-2042 | Over every run a refresh that settles puts back what it took if and only if its load was rejected, or was not written and nothing newer was applied. |
| GitRefresh.NonOverlappingRunsEndFresh | apps/desktop/src/App.tsx:1997-2045 | If refreshes of the task never overlap, no quiescent state retains a patch older than a report about its path. |
| GitRefresh.SurgicalStartIsSafeExactly | apps/desktop/src/App.tsx:2027-2033 | The landing of a surgical refresh that starts now can leave no stale patch behind, whatever its load returns, if and only if the dirty set it takes holds every stale path. |
| GitRefresh.StartCanEndStaleExactly | apps/desktop/src/App.tsx:1997-2045 | The refreshes then in flight can finish, in some order, in a quiescent state that shows a stale patch, if and only if that dirty set misses a stale path and no rejected refresh has a path to put back. |
| GitRefresh.GuardedRunsKeepNoOrphan | apps/desktop/src/App.tsx:1997-2045 | Runs that start surgical refreshes only when that is safe, overlapping or not, keep every stale row covered by something that will refresh it. |
| GitRefresh.QuiescentHoldsNoStalePatch | apps/desktop/src/App.tsx:1997-2045 | A quiescent state in which every stale row is so covered holds no stale patch. |
| GitRefresh.AloneIsGuarded | apps/desktop/src/App.tsx:2027-2045 | Non-overlapping runs are among them. |
| GitRefresh.OverlapEndsStale | apps/desktop/src/App.tsx:2027-2045 | Without that condition the guarantee fails: a later surgical refresh of another path lands first, and the quiescent cache shows the first path's old patch. |
| GitRefresh.TaskGitRefs.ApplyTaskGitSnapshot | apps/desktop/src/App.tsx:1970-1995 | The whole new cache, generation and applied generation; refused if and only if an expected generation is not the current one. |
| GitRefresh.TaskGitRefs.BeginRefresh | apps/desktop/src/App.tsx:1997-2004 | Draws the next generation and touches nothing else. |
| GitRefresh.TaskGitRefs.FinishRefresh | apps/desktop/src/App.tsx:2005-2010 | Writes the reconciled snapshot under the drawn generation, or nothing. |
| GitRefresh.TaskGitRefs.InvalidateTaskGit | apps/desktop/src/App.tsx:2015-2025 | Adds the paths, or marks everything; everything absorbs later paths. |
| GitRefresh.TaskGitRefs.BeginInvalidatedRefresh | apps/desktop/src/App.tsx:2027-2033 | Takes the dirty set and draws a generation. |
| GitRefresh.TaskGitRefs.SettleInvalidatedRefresh | apps/desktop/src/App.tsx:2034-2038 | Writes, or puts the taken set back when nothing newer was applied. |
| GitRefresh.TaskGitRefs.RejectInvalidatedRefresh | apps/desktop/src/App.tsx:2039-2042 | A failed load puts the taken set back. |
| BrowserBounds.EveryRunIsOrderly | apps/desktop/src/browserBounds.ts:100-162 | Over every run: a pending placement without a microtask has a call of its own owner out that will wake it, sent revisions strictly increase, and consecutive sends of one owner never overlap a call of that owner. |
| BrowserBounds.SendsExactly | apps/desktop/src/browserBounds.ts:132-146 | Over every run, when the microtask runs the waiting placement goes out unless the last one sent was its owner's and a call of that owner is out; a change of owner never waits. |
| BrowserBounds.WaitingIsScheduled | apps/desktop/src/browserBounds.ts:107-161 | A placement and a completed call schedule a microtask if and only if something waits, and send nothing themselves. |
| BrowserBounds.QuiescentSentTheNewest | apps/desktop/src/browserBounds.ts:132-162 | At quiescence nothing is pending and the last placement sent is the last one placed. |
| BrowserBounds.LanesSettle | apps/desktop/src/browserBounds.ts:122-162 | Without new placements every step lowers a measure of the lane. |
| BrowserBounds.SomeStepUntilQuiescent | apps/desktop/src/browserBounds.ts:122-162 | Until quiescence some step is possible, so no placement waits forever while calls complete. |
| BrowserBounds.CoalescingRefinesImmediateSending | apps/desktop/src/browserBounds.ts:91-162 | A receiver that keeps the highest revision ends, under any completion order, where sending every placement at once would have left it. |
| BrowserBounds.OutstandingExactly | apps/desktop/src/browserBounds.ts:146-160 | A revision is in flight if and only if it was sent and has not completed. |
| BrowserBounds.OwnersAreDistinct | apps/desktop/src/browserBounds.ts:136 | Owner strings agree if and only if task, tab and visibility do, for ids without NUL. |
| BrowserBounds.LanesAreDistinct | apps/desktop/src/browserBounds.ts:87-89 | Lane keys agree if and only if the slots agree and, in the deck, the tabs do. |
| BrowserBounds.PlacementClock.NextPlacementOrder | apps/desktop/src/browserBounds.ts:44-48 | Each call draws a revision above all earlier ones. |
| BrowserBounds.PlacementLane.Schedule | apps/desktop/src/browserBounds.ts:122-130 | Queues a microtask if and only if none is queued and a placement waits. |
| BrowserBounds.PlacementLane.Drain | apps/desktop/src/browserBounds.ts:132-146 | Takes the pending placement and records its call, unless a call of the same last owner is out. |
| BrowserBounds.PlacementLane.Complete | apps/desktop/src/browserBounds.ts:158-161 | Drops exactly the completed call and schedules again. |
| BrowserBounds.BrowserBoundsCoordinator.Place | apps/desktop/src/browserBounds.ts:100-114 | Replaces the pending placement of its own lane with a newer revision and leaves every other lane alone. |
| Projections.ValueIsFold | apps/desktop/src/runtimeProjection.ts:207-213 | For any reducer the modelled state is the fold of its events. |
| Projections.BatchSkipsOld | apps/desktop/src/runtimeProjection.ts:367-391 | A batch changes nothing for events at or below the state's sequence number. |
| Projections.BatchFromLog | apps/desktop/src/runtimeProjection.ts:207-391 | Applying a stretch of the log to a state that folded a prefix folds each missing event once and in order. |
| Hydration.CatchUpIsExact | apps/desktop/src/App.tsx:2110-2232 | In every run of startup, switches, resets, loads, evictions, deselections and deliveries a ready task whose state was not set to null shows a prefix of its log, each event folded once and in order, and flushing the frame folds everything delivered, given faithful cached states. |
| Hydration.MergedIsExact | apps/desktop/src/App.tsx:2130-2170 | What a current reconciliation commits has folded exactly the delivered events, whether the cached or the loaded state was the base. |
| Hydration.SupersededNeverCommits | apps/desktop/src/App.tsx:2126-2171 | A reconciliation of an older generation never changes the renderer. |
| Hydration.ResetStartsExactly | apps/desktop/src/App.tsx:2458-2461 | A delivery starts a reconciliation, in the next generation and from nothing, if and only if it is a reset of the ready shown task that is not text only, whatever the frame holds. |
| Hydration.DeliveryExactly | apps/desktop/src/App.tsx:2431-2457 | Where a delivered event goes, and what the state and entry it is folded into become. |
| Hydration.FrameExactly | apps/desktop/src/App.tsx:2271-2309 | The frame's events of the shown task are folded in order into its state, or into an empty one if there is none; the frame is empty. |
| Hydration.ReconcileExactly | apps/desktop/src/App.tsx:2116-2121 | The whole renderer after a reconciliation begins, and its flight. |
| Hydration.DisplayExactly | apps/desktop/src/App.tsx:2125-2128 | The first load is shown and cached in the current generation, and dropped in any other. |
| Hydration.CommitExactly | apps/desktop/src/App.tsx:2130-2213 | The second load makes the task ready with the display or the load as base and the newer buffered events folded by number, settled if nothing runs; in another generation it is dropped. |
| Hydration.FailureExactly | apps/desktop/src/App.tsx:2214-2229 | A failed load leaves the task unready, showing what was displayed, or an empty state, as disconnected. |
| Hydration.RestoreExactly | apps/desktop/src/App.tsx:2516-2558 | The renderer after each stretch of startup. |
| Hydration.NothingAbandonedNothingLost | apps/desktop/src/App.tsx:2110-2558 | If a task is left, or shown again from its entry, only while its cached state is up to date, cached states are always faithful, so every ready and every cached background task is exact with no assumption; the startup reconciliation from its own load is among these runs. |
| Hydration.LeavingReadyTaskExactly | apps/desktop/src/App.tsx:2116-2121 | Leaving a ready task keeps its cache up to date if and only if no newer event waits for the frame, or its entry is gone. |
| WholeStates.UpToDateExactly | apps/desktop/src/App.tsx:2156-2171 | A state is up to date if and only if what it folded and what still waits for it are together everything delivered, and nothing waits. |
| WholeStates.MarkApplied | apps/desktop/src/App.tsx:2431-2438 | A background entry that folds the next event loses what waits for it, and nothing else. |
| WholeStates.MarkDropped | apps/desktop/src/App.tsx:2120 | Dropping the buffer or the frame breaks exactly the states that would still have folded some of it. |
| WholeStates.MarkFolded | apps/desktop/src/App.tsx:2271-2309 | A flush of the frame into a state neither breaks it nor mends it. |
| WholeStates.MarkLoaded | apps/desktop/src/App.tsx:2125-2171 | A loaded state, or one made from nothing, is whole if and only if its events and those waiting past them are as many as were delivered. |
| HydrationLoss.LeavingExactly | apps/desktop/src/App.tsx:2110-2461 | Over every run of the component and in every window of a reconciliation, first load, second load, failed, ready or restoring: leaving the shown task leaves its entry up to date if and only if the entry is unmarked and nothing newer waits in frame or buffer; a mark is set by the tests of the branches that write or drop, above all the two fallbacks to an empty state after something was delivered. |
| HydrationLoss.CachedUpToDateExactly | apps/desktop/src/App.tsx:2110-2461 | The same of every cached task, shown or not. |
| HydrationLoss.LeavingLosesExactly | apps/desktop/src/App.tsx:2110-2461 | From any state of any such run and for any step that leaves the shown task: a run that is careful with that task from then on can still end with it ready and not exact, everything delivered and nothing waiting, if and only if its entry was not up to date when it was left. |
| HydrationLoss.LeavingLosesPlainlyExactly | apps/desktop/src/App.tsx:2110-2461 | Of a task that was never reset the same, with a run that never resets it: what is missing would then still be shown. |
| HydrationLoss.AbandonedHydrationLosesAnEvent | apps/desktop/src/App.tsx:2120 | A run whose buffered event is dropped by a switch can so lose its task. |
| HydrationLoss.FailedLoadLosesAnEvent | apps/desktop/src/App.tsx:2219-2226 | So can one whose first load fails after a delivery, with nothing waiting. |
| HydrationLoss.FrameDuringLoadLosesAnEvent | apps/desktop/src/App.tsx:2280-2302 | So can one whose frame fires during a first load. |
| HydrationLoss.NewChatLosesAnEvent | apps/desktop/src/App.tsx:2280-2302 | So can one whose task goes on after it was deselected for a new chat. |
| Hydration.ProjectionRefs.ApplyLiveProjectionBatch | apps/desktop/src/App.tsx:2271-2305 | Folds the shown task's events into its state and its cache entry, and nothing else. |
| Hydration.ProjectionRefs.FlushFrameEvents | apps/desktop/src/App.tsx:2306-2309 | Applies the framed events and empties the frame. |
| Hydration.ProjectionRefs.OnProjection | apps/desktop/src/App.tsx:2431-2461 | Routes an event to the background cache, the buffer, the frame or the live state. |
| Hydration.ProjectionRefs.BeginReconcile | apps/desktop/src/App.tsx:2116-2121 | Starts a new generation, keeps the buffer only when asked, and shows the cached state or none. |
| Hydration.ProjectionRefs.OnDisplayLoaded | apps/desktop/src/App.tsx:2125-2128 | Caches and shows the persisted state, for the current generation only. |
| Hydration.ProjectionRefs.OnDeltaLoaded | apps/desktop/src/App.tsx:2156-2213 | Commits the merged state, for the current generation only. |
| Hydration.ProjectionRefs.OnLoadFailed | apps/desktop/src/App.tsx:2214-2229 | Leaves the task unready with a disconnected state, for the current generation only. |
| Hydration.ProjectionRefs.AppendTask | apps/desktop/src/App.tsx:3506-3517 | Makes a just-created task ready and empty. |
| Hydration.ProjectionRefs.BeginRestore | apps/desktop/src/App.tsx:2519-2524 | Startup shows the restored task unready, in the generation and with the buffer it finds. |
| Hydration.ProjectionRefs.OnRestoreLoaded | apps/desktop/src/App.tsx:2526-2558 | Caches and shows the loaded state, if any, and reconciles from it with the buffer kept. |
| Hydration.ProjectionRefs.Evict | apps/desktop/src/App.tsx:4211-4212 | Removes one task's cache entry and nothing else. |
| Hydration.ProjectionRefs.Deselect | apps/desktop/src/App.tsx:3607-3611 | Opening a new chat sets the shown state to null and leaves every other ref as it was. |
| BrowserPosters.NeverAnotherDocumentsPicture | apps/desktop/src/browserPosters.ts:63-181 | Over all runs, out-of-order results and same-address reloads included, a still comes from a call issued for the tab's current document, and the view differs from the entries only at tabs with a call pending; under the hypothesis `Reported` that a tab keeps its document while it keeps its address, unless it was seen loading or closed. |
| BrowserPosters.ViewExactly | apps/desktop/src/browserPosters.ts:128-180 | In every state the view at a tab is the entry's own still, unless the entry waits for its first one; only there can it paint another document's picture. |
| BrowserPosters.TurnExactly | apps/desktop/src/browserPosters.ts:77-90 | A turn of `sync` drops a loading tab's entry, asks from nothing for a settled tab at a new address, and leaves every other tab alone. |
| BrowserPosters.ClosingExactly | apps/desktop/src/browserPosters.ts:65-76 | Exactly the tabs no longer listed lose entry and picture. |
| BrowserPosters.RefreshAsksExactly | apps/desktop/src/browserPosters.ts:97-103 | A refresh issues one call if and only if the tab is known and has none pending, whether or not it has a picture. |
| BrowserPosters.AnswerExactly | apps/desktop/src/browserPosters.ts:149-171 | The answer to the entry's own request ends the wait with its picture, or the held one if it has none, and leaves a timer if and only if there is none at all and fewer than two attempts were made; any other answer changes nothing. |
| BrowserPosters.CaptureExactly | apps/desktop/src/browserPosters.ts:111-124 | A warm capture counts if and only if it has a picture, the tab is at its address and no newer read was made. |
| BrowserPosters.FireExactly | apps/desktop/src/browserPosters.ts:165-170 | A timer asks again if and only if the tab is still there, without a picture and with nothing pending. |
| BrowserPosters.NavigationPaintsExactly | apps/desktop/src/browserPosters.ts:77-147 | A settled tab seen at a new address keeps the published picture: it paints the old address's picture under the new one if and only if the entry held a still, and another document's if and only if the document changed too. |
| BrowserPosters.TurnPaintsExactly | apps/desktop/src/browserPosters.ts:77-91 | For every turn of the loop of `sync` and every tab: a picture its entry does not hold is painted after the turn if and only if the turn dropped no still and it was painted before or the turn was such a navigation. |
| BrowserPosters.StepPaintsExactly | apps/desktop/src/browserPosters.ts:97-171 | No other step begins it, and one ends it if and only if it publishes or brings the tab the picture already shown. |
| BrowserPosters.PaintedUntilPublished | apps/desktop/src/browserPosters.ts:63-180 | Over every run without such a step the old picture stays painted. |
| BrowserPosters.WarmOvertakingExactly | apps/desktop/src/browserPosters.ts:111-158 | A step leaves a pending tab with no call that can settle it if and only if it is a warm capture overtaking that tab's call. |
| BrowserPosters.StuckUntilSync | apps/desktop/src/browserPosters.ts:97-171 | From there only a later sync ends the pending state. |
| BrowserPosters.AutomaticCallsAreBounded | apps/desktop/src/browserPosters.ts:63-171 | Without refresh and warm a document costs at most two automatic calls, plus one per retry timer an earlier document at the same address left running. |
| BrowserPosters.ThirdCallExactly | apps/desktop/src/browserPosters.ts:165-170 | A third automatic call is possible if and only if such a timer is running. |
| BrowserPosters.StaleTimerCostsAThirdCall | apps/desktop/src/browserPosters.ts:165-170 | The run that makes it. |
| BrowserPosters.SyncStepsAgree | apps/desktop/src/browserPosters.ts:77-90 | The loop over the tabs is the machine's step, tab by tab. |
| BrowserPosters.BrowserPosterCache.Publish | apps/desktop/src/browserPosters.ts:173-180 | The view becomes exactly the entries' nonempty stills. |
| BrowserPosters.BrowserPosterCache.Fetch | apps/desktop/src/browserPosters.ts:128-140 | The new entry keeps its picture if and only if the address is the same, and counts the attempt. |
| BrowserPosters.BrowserPosterCache.Sync | apps/desktop/src/browserPosters.ts:63-91 | Drops closed and loading tabs and asks exactly for those with a new address. |
| BrowserPosters.BrowserPosterCache.Refresh | apps/desktop/src/browserPosters.ts:97-103 | Asks again only for a known tab with no call pending. |
| BrowserPosters.BrowserPosterCache.Settle | apps/desktop/src/browserPosters.ts:149-171 | Accepts a result for the entry's own request and address only; a first empty result leaves a timer. |
| BrowserPosters.BrowserPosterCache.SettleWarm | apps/desktop/src/browserPosters.ts:118-124 | Accepts a nonempty capture unless the page moved on or a newer read won. |
| BrowserPosters.BrowserPosterCache.Retry | apps/desktop/src/browserPosters.ts:166-170 | Fetches only for the same address, with nothing pending and no still. |
| ModelCatalog.CacheAndLoadAreCurrent | apps/desktop/src/bridge.ts:4453-4475 | A cached catalog was discovered by a probe of the current epoch, and a registered load belongs to the current epoch. |
| ModelCatalog.OneProbeAtATime | apps/desktop/src/bridge.ts:4453-4475 | At most one probe of the current epoch runs. |
| ModelCatalog.CachedUntilInvalidated | apps/desktop/src/bridge.ts:4453-4475 | Over every run: once a probe of the current epoch answered with a nonempty list, and until the next invalidation, the cache holds exactly it and every call receives it at once without a new request. |
| ModelCatalog.CallExactly | apps/desktop/src/bridge.ts:4453-4474 | A call without a cached catalog joins the registered load, or else registers exactly one request of the current epoch. |
| ModelCatalog.EmptyIsNotCached | apps/desktop/src/bridge.ts:4466-4468 | An empty list answers its request and leaves the loader as it was. |
| ModelCatalog.StaleProbeFollows | apps/desktop/src/bridge.ts:4462-4465 | A probe of an older epoch caches nothing; its request follows the cached catalog, the load registered since, or one it registers for the current epoch. |
| ModelCatalog.NoCallerReceivesAStaleCatalog | apps/desktop/src/bridge.ts:4453-4475 | Every caller receives a catalog of an epoch no older than its call. |
| ModelCatalog.RestartsMoveForward | apps/desktop/src/bridge.ts:4462-4465 | The requests of a restart chain have strictly later epochs. |
| ModelCatalog.RestartsAreBounded | apps/desktop/src/bridge.ts:4462-4465 | A chain never waits on itself and restarts at most once per invalidation since it began. |
| ModelCatalog.WaitingCanMove | apps/desktop/src/bridge.ts:4459-4475 | No deadlock: an unfinished request has an enabled step behind it. |
| ModelCatalog.ModelCatalogs.Load | apps/desktop/src/bridge.ts:4453-4474 | Answers from the cache, joins the registered load, or registers a new one for the current epoch. |
| ModelCatalog.ModelCatalogs.OnProbe | apps/desktop/src/bridge.ts:4461-4469 | Caches a nonempty catalog of the current epoch; of an older one it only drops its own registration and restarts. |
| ModelCatalog.ModelCatalogs.Release | apps/desktop/src/bridge.ts:4470-4472 | Removes the registration if and only if it is the request's own. |
| ModelCatalog.ModelCatalogs.Invalidate | apps/desktop/src/bridge.ts:2403-2408 | Opens a new epoch with no load and no cached catalog. |
| ComposerDrafts.KeysAreDistinct | apps/desktop/src/bridge.ts:739-741 | Draft keys agree if and only if the owners do. |
| ComposerDrafts.StaleChangesNothing | apps/desktop/src/composerDraftStore.ts:44-89 | A clear or promote with a stale revision changes nothing. |
| ComposerDrafts.UpdateStoresTheValue | apps/desktop/src/composerDraftStore.ts:32-42 | An update stores the given prompt, selection, route and attachments without previews as the newest draft, and no other owner's changes. |
| ComposerDrafts.ClearEmpties | apps/desktop/src/composerDraftStore.ts:75-89 | A fresh clear leaves the owner's draft with no prompt, no attachments and no selection, under the next revision. |
| ComposerDrafts.PromotionMovesTheDraft | apps/desktop/src/composerDraftStore.ts:44-73 | A fresh promotion gives the task the project's draft under its revision and leaves the project's empty. |
| ComposerDrafts.PromotionGrowsExactly | apps/desktop/src/composerDraftStore.ts:52-72 | A promotion keeps every revision growing if and only if the task had no draft of the same or a higher revision. |
| ComposerDrafts.DraftsAreSafe | apps/desktop/src/App.tsx:3014-3044 | Over every run whose promotions target fresh tasks: revisions per owner only grow, at most one writer loop lives, and each owner's saves have strictly increasing revisions. |
| ComposerDrafts.IdleMeansAttempted | apps/desktop/src/App.tsx:3014-3044 | When the writer is idle the newest draft of every changed owner was its last save attempt. |
| ComposerDrafts.PutKeepsOrder | apps/desktop/src/App.tsx:3014-3019 | A waiting owner keeps its place in the queue and a new one goes last. |
| ComposerDrafts.TurnSavesTheFirst | apps/desktop/src/App.tsx:3022-3041 | A turn saves the draft that has waited first; with none left the loop ends. |
| ComposerDrafts.ComposerDraftStore.Hydrate | apps/desktop/src/composerDraftStore.ts:19-26 | Keeps for each key the first listed draft of the highest revision. |
| ComposerDrafts.ComposerDraftStore.Update | apps/desktop/src/composerDraftStore.ts:32-42 | Stores the value without previews under the next revision. |
| ComposerDrafts.ComposerDraftStore.Promote | apps/desktop/src/composerDraftStore.ts:44-73 | Moves the project's draft to the task and empties the project's under the next revision, if the revision is current. |
| ComposerDrafts.ComposerDraftStore.Clear | apps/desktop/src/composerDraftStore.ts:75-89 | Empties the draft under the next revision, if the revision is current. |
| ComposerDrafts.DraftWriterRefs.PersistComposerDraft | apps/desktop/src/App.tsx:3014-3019 | Replaces the owner's waiting draft in place and queues a loop if and only if none runs. |
| ComposerDrafts.DraftWriterRefs.Turn | apps/desktop/src/App.tsx:3022-3041 | Takes the first waiting draft, or ends the loop. |
| AcpOwnership.OwnershipIsExclusive | apps/desktop/src/bridge.ts:3656-3709 | Over all runs of setups and resets a task is in a provider's connection set if and only if the active map names that provider, so the sets are disjoint. |
| AcpOwnership.CompletedSetupIsBound | apps/desktop/src/bridge.ts:3796-3978 | A completed setup leaves a session bound after the latest successful connect, for the requested provider and delegation mode, and for Grok on a connect launched with the requested model and effort; whatever saved session was restored and even if resets emptied the records meanwhile. |
| AcpOwnership.SetupConnectsExactly | apps/desktop/src/bridge.ts:3879-3918 | Over every run a setup that completes has connected again, once, if and only if the task was not owned, its Grok launch differs in model or effort, or it was not found live and still owned. |
| AcpOwnership.BeginAsks | apps/desktop/src/bridge.ts:3879-3911 | A setup first checks the connection if it is owned and launched as wanted, and else connects. |
| AcpOwnership.ConnectionAnswers | apps/desktop/src/bridge.ts:3856-3927 | Where each answer of the liveness check and the connect leads, and what it records. |
| AcpOwnership.CertifiedConnectionOwns | apps/desktop/src/bridge.ts:3868-3928 | A certified connection is the task's only one, without a session, and the setup goes on to a recorded, resumed or new session. |
| AcpOwnership.SessionAnswers | apps/desktop/src/bridge.ts:3806-3978 | Where each answer of the session calls leads, and what it records. |
| AcpOwnership.GoodAnswersComplete | apps/desktop/src/bridge.ts:3796-3978 | From every reachable stage good answers complete the setup in finitely many steps. |
| AcpOwnership.AdoptedOwnsAlone | apps/desktop/src/bridge.ts:3879-3928 | After adopting, the task is in that provider's set alone and has no session anywhere. |
| AcpOwnership.ResetsLeaveNothing | apps/desktop/src/bridge.ts:3706-3708 | Resetting every provider leaves no record of any task. |
| AcpOwnership.AcpRegistry.ResetCursor | apps/desktop/src/bridge.ts:3656-3662 | Removes exactly the task's Cursor records, and its active entry only when that is Cursor. |
| AcpOwnership.AcpRegistry.ResetStandard | apps/desktop/src/bridge.ts:3672-3682 | The same for Grok or Kimi. |
| AcpOwnership.AcpRegistry.ResetAll | apps/desktop/src/bridge.ts:3664-3691 | Removes every record of one provider and no other's. |
| AcpOwnership.AcpRegistry.InvalidateMcpSessions | apps/desktop/src/bridge.ts:3698-3709 | Resets every provider. |
| AcpOwnership.AcpRegistry.AdoptCursor | apps/desktop/src/bridge.ts:3879-3883 | Gives the task to Cursor and takes it from the others. |
| AcpOwnership.AcpRegistry.AdoptStandard | apps/desktop/src/bridge.ts:3920-3927 | Gives the task to Grok or Kimi and takes it from the others. |
| AcpOwnership.AcpRegistry.BindSession | apps/desktop/src/bridge.ts:3849-3851 | Records the session and its delegation mode. |
| AcpTurns.OneAtATimeInCallOrder | apps/desktop/src/bridge.ts:3622-3634 | Operations of a task run one at a time and in call order, whatever fails. |
| AcpTurns.NoEntryMeansNothingPending | apps/desktop/src/bridge.ts:3630-3632 | Without a map entry every operation called so far has settled. |
| AcpTurns.QueueMoves | apps/desktop/src/bridge.ts:3622-3634 | While something waits, some operation can start, settle or release its successor. |
| AcpTurns.EntryExactly | apps/desktop/src/bridge.ts:3622-3634 | The map holds an entry, the last tail, if and only if the last operation has not been cleaned up. |
| AcpTurns.StepsExactly | apps/desktop/src/bridge.ts:3622-3634 | Each step moves its own operation one phase on and touches no other. |
| AcpTurns.QueueEnds | apps/desktop/src/bridge.ts:3622-3634 | Without new calls only finitely many steps are left. |
| AcpTurns.AcpTaskQueues.Chain | apps/desktop/src/bridge.ts:3622-3629 | Chains behind the task's current tail and becomes it. |
| AcpTurns.AcpTaskQueues.CleanUp | apps/desktop/src/bridge.ts:3630-3632 | Drops the entry if and only if it is still this tail. |
| AcpTurns.AttemptAcpTurn | apps/desktop/src/acpRecovery.ts:14-29 | Submits only after a setup that succeeded, and reports the phase that failed. |
| AcpTurns.RunAcpTurnWithRecovery | apps/desktop/src/acpRecovery.ts:31-51 | Makes the calls of the turn specification, in order, and throws its error. |
| AcpTurns.RecoveryIsBounded | apps/desktop/src/acpRecovery.ts:31-51 | At most two attempts, one reset per failure, and an error if and only if the last attempt failed. |
| AcpTurns.TurnExactly | apps/desktop/src/acpRecovery.ts:14-51 | The calls of a turn in order, the one case in which it tries again, and the error it throws. |
| AcpTurns.DeliveredAtMostOnceExactly | apps/desktop/src/acpRecovery.ts:37-47 | The prompt is delivered at most once if and only if the retried first submit did not deliver it, or the retry does not. |
| AcpTurns.NeverDeliveredTwice | apps/desktop/src/acpRecovery.ts:44-47 | If a provider-disconnected submit means undelivered, no turn delivers twice. |
| AcpSelection.RememberedIsTrue | apps/desktop/src/bridge.ts:4008-4103 | Over every run, failed calls and resets included, every remembered value is the session's real value. |
| AcpSelection.AppliedMeetsTheRequest | apps/desktop/src/bridge.ts:4008-4063 | A successful application leaves the session with every requested value that the session lets one configure, as the maps say when each option is read. |
| AcpSelection.ApplicationExactly | apps/desktop/src/bridge.ts:4008-4063 | An application makes a call for each of model, effort and Fast if and only if it is asked for, offered and not known to be set, and leaves session and memory with exactly that. |
| AcpSelection.ThrowsExactly | apps/desktop/src/bridge.ts:4008-4063 | It throws if and only if a needed switch has no selector or one of those calls fails. |
| AcpSelection.AnswersGoOn | apps/desktop/src/bridge.ts:4016-4061 | What each answer leads to in the machine, with the options as read after it. |
| AcpSelection.RepeatingMakesNoCalls | apps/desktop/src/bridge.ts:4011-4049 | After an application any number of repetitions of its request makes no provider call and finds the session as it was, until the memory is dropped. |
| AcpSelection.ApplyingIsARun | apps/desktop/src/bridge.ts:4008-4063 | For every memory, session and sequence of answers the specified application is a run of the machine: the same calls in the same order, the same end. |
| AcpSelection.ApplyingIsTrue | apps/desktop/src/bridge.ts:4008-4063 | A throw half way leaves the memory true of the session; without one the request is met and nothing is left to ask; with nothing to ask nothing changes. |
| AcpSelection.SelectionCache.Apply | apps/desktop/src/bridge.ts:4008-4063 | Outcome, session, calls and the task's entry are those of the specified application; the shared object stays the map's, and other tasks are untouched. |
| AcpSelection.SelectionCache.ApplyModel | apps/desktop/src/bridge.ts:4009-4033 | Object and session become those of the specified model part, which calls only for a different model and forgets the parameters it resets. |
| AcpSelection.SelectionCache.ApplyParameters | apps/desktop/src/bridge.ts:4034-4061 | Object and session become those of the specified effort part, then Fast part. |
| AutomationTranscript.GreedyIsMatching | apps/desktop/src/automationTranscript.ts:100-120 | The claims are a matching of dispatched runs to eligible prompts. |
| AutomationTranscript.GreedyIsMaximum | apps/desktop/src/automationTranscript.ts:100-173 | No assignment of dispatched runs to eligible prompts serves more runs, in whatever order the greedy claim takes them. |
| AutomationTranscript.Exchange | apps/desktop/src/automationTranscript.ts:110-119 | Freeing the first eligible prompt of a run costs a matching at most one assignment. |
| AutomationTranscript.EligibleExactly | apps/desktop/src/automationTranscript.ts:100-124 | Which messages read as a run's prompt, in terms of their text, time and author. |
| AutomationTranscript.RunTakesOrReports | apps/desktop/src/automationTranscript.ts:151-199 | A dispatched run takes the first such message, which then shows the automation's prompt; any other run leaves its receipt. |
| AutomationTranscript.TimelineReportsCreation | apps/desktop/src/automationTranscript.ts:134-153 | An automation leaves the receipt of its creation and takes its runs in the order of their claims. |
| AutomationTranscript.LoopIsGreedy | apps/desktop/src/automationTranscript.ts:151-199 | The loop over the runs makes exactly the greedy claims: the same runs take the same prompts, in the order of the runs. |
| AutomationTranscript.MergeClaimsAMaximum | apps/desktop/src/automationTranscript.ts:127-205 | For one automation the transcript marks as many prompts as any assignment could. |
| AutomationTranscript.MergeLosesNothing | apps/desktop/src/automationTranscript.ts:127-205 | For a nonempty timeline the result is in time order, every provider event survives exactly once, no prompt serves two runs, and the length is events + automations + unmatched runs. |
| AutomationTranscript.MergeRuns | apps/desktop/src/automationTranscript.ts:151-199 | The inner loop computes the specified claims and receipts. |
| AutomationTranscript.MergeSchedulingTranscript | apps/desktop/src/automationTranscript.ts:127-205 | The method computes the specified transcript. |
| AutomationTranscript.EventsForRun | apps/desktop/src/automationTranscript.ts:82-98 | The run's prompt with everything up to the next user message, or nothing. |
| QueueDrain.ChosenIsLowest | apps/desktop/src/App.tsx:5763-5771 | The chosen message is waiting and of the lowest position among those waiting; none is chosen only when none waits. |
| QueueDrain.EffectExactly | apps/desktop/src/App.tsx:6383-6427 | An effect run clears each hold and arms the timer, for a waiting message of the lowest position, if and only if the stated conditions on turn, projection, pause and queue hold. |
| QueueDrain.FireExactly | apps/desktop/src/App.tsx:6273-6274 | A timer begins its dispatch if and only if no queue operation is busy. |
| QueueDrain.DispatchStages | apps/desktop/src/App.tsx:6275-6363 | What each reply of a dispatch leads to in the queue, the holds and the store. |
| QueueDrain.DrainIsOrderly | apps/desktop/src/App.tsx:6372-6439 | In every run a started message is the lowest-position one of the queue an earlier effect run saw, unpaused and with no turn active; between two starts an effect run saw an active turn with another id and a later one saw none. |
| QueueDrain.RefusalIsRespected | apps/desktop/src/App.tsx:6395-6409 | After a refused send nothing starts before an effect run saw an active turn or a projection past the refused one, unless the composer wrote over the hold. |
| QueueDrain.StartedOnceUnlessTakeFailed | apps/desktop/src/App.tsx:6338-6361 | Over every run: between two starts of one message its take failed. |
| QueueDrain.StartsAgainExactly | apps/desktop/src/App.tsx:6319-6369 | From any state of any run a started message can be started again if and only if it is still stored and its take failed or is outstanding, or it is being sent again already. |
| QueueDrain.PauseStopsAllButExactly | apps/desktop/src/App.tsx:6411-6427 | From any paused state of any run some message can still start before the queue is unpaused if and only if at that moment a send is out, or a stored message is being marked or has its timer armed. |
| QueueDrain.StartsThoughPaused | apps/desktop/src/App.tsx:6427 | The last case occurs: a pause before the zero-delay timer does not stop the chosen message. |
| QueueDrain.PausedQueueHolds | apps/desktop/src/App.tsx:6411-6413 | In every other paused state nothing starts in any run without an unpause. |
| QueueDrain.DrainRefs.RunEffect | apps/desktop/src/App.tsx:6383-6427 | The effect clears the two holds exactly when their turn is visible or over, and chooses a message only past every guard. |
| QueueDrain.DrainRefs.Dispatch | apps/desktop/src/App.tsx:6273-6274 | A dispatch begins if and only if no queue operation is busy. |
| QueueDrain.DrainRefs.OnReply | apps/desktop/src/App.tsx:6325-6369 | After a started turn or a refusal no effect run schedules a message before it sees that turn, or something past the refused one; once the dispatch is over the next can begin. |
| Retention.DeletedOnlyAfterItsTime | apps/desktop/src/App.tsx:4832-4838 | A chat is deleted only if a sweep stamped it, every completed sweep since saw it archived, and the stamp is older than the limit. |
| Retention.DeletedExactly | apps/desktop/src/App.tsx:4820-4872 | A sweep deletes exactly the archived chats that are not open, child or busy, whose stamp is older than a set limit and whose call does not fail, when it acts at all. |
| Retention.ArchivedExactly | apps/desktop/src/App.tsx:4820-4852 | The same for archiving live, unpinned chats by their last update. |
| Retention.StampsExactly | apps/desktop/src/App.tsx:4800-4890 | The stamps after a sweep: known chats keep theirs, new ones get its time, deleted ones lose theirs. |
| Retention.StampsTestIsExact | apps/desktop/src/App.tsx:4800-4810 | The stamps-changed test holds if and only if the archived set differs from the stamped set or an archived chat has the empty text as its stamp; with no empty stamp it is exactly the difference of the sets. |
| Retention.RunsTestTheSets | apps/desktop/src/App.tsx:4800-4817 | No run of sweeps stores an empty stamp, so over runs the test is exactly that difference. |
| Retention.EmptyStampStalls | apps/desktop/src/App.tsx:4803-4817 | A stored empty stamp stops every later sweep from archiving or deleting anything while its chat stays archived. |
| Retention.StampArchived | apps/desktop/src/App.tsx:4800-4810 | The stamping loop computes the new stamps and that test. |
| Retention.StampingSweepTouchesNothing | apps/desktop/src/App.tsx:4811-4817 | A sweep that changes the stamps archives and deletes nothing. |
| Retention.StampsFollowTheArchive | apps/desktop/src/App.tsx:4800-4890 | After a sweep that starts, exactly the chats it saw archived and did not delete are stamped. |
| Retention.ProtectedChatsStay | apps/desktop/src/App.tsx:4820-4838 | Child and busy chats and the one open when the sweep starts are never removed, and pinned ones never archived. |
| Retention.OpeningNeverProtects | apps/desktop/src/App.tsx:4818-4872 | Whatever chats are opened between its calls, a sweep that ends has deleted the same chats. |
| Retention.DeletedOpenExactly | apps/desktop/src/App.tsx:4818-4872 | A chat can be deleted while it is open if and only if the sweep picked it when it started, when another chat was open. |
| Retention.RetentionRefs.Sweep | apps/desktop/src/App.tsx:4769-4893 | The sweep's new stamps and the chats it archived and deleted. |
| DelegationWalk.Walk | apps/desktop/src/App.tsx:2630-2648 | The walk ends on every graph, lists each task once, only reachable ones and the nearest to the root first, each with its rows once, and all of them unless it stopped at the limit. |
| DelegationWalk.SmallLineagesAreWalkedWhole | apps/desktop/src/App.tsx:2636-2648 | When at most 64 tasks are reachable, the walk lists exactly those. |
| DiffLines.ParseDiffLines | apps/desktop/src/bridge.ts:4578-4620 | The loop computes the specified lines from the split patch. |
| DiffLines.HunkHeaderExactly | apps/desktop/src/bridge.ts:4594-4596 | The header parser yields two numbers if and only if the line has the regular expression's shape with them. |
| DiffLines.LineEndsDoNotMatter | apps/desktop/src/bridge.ts:4582 | A patch reads the same with line feeds alone and with carriage returns before them. |
| DiffLines.SkippedExactly | apps/desktop/src/bridge.ts:4583-4592 | The lines that show nothing, by what they open with. |
| DiffLines.RoundTripsExactly | apps/desktop/src/bridge.ts:4578-4620 | Parsing a printed list of file patches, with any header lines before each file's hunks, recovers every line's kind, content and numbers and nothing else if and only if every header line has a prefix the parser skips, no heading or content holds a newline or ends in a carriage return, no added content starts with "++ " or deleted one with "-- ", and no line is on a side that starts at 0. |
| DiffLines.ItemsRoundTrip | apps/desktop/src/bridge.ts:4582-4617 | The same, line by line, with the two running numbers, from any two counters. |
| DiffLines.HeaderLineExactly | apps/desktop/src/bridge.ts:4583-4617 | A header line yields no row if and only if it has one of the skipped prefixes; otherwise it yields one row, which is not a hunk's. |
| DiffLines.ExtendedHeaderExactly | apps/desktop/src/bridge.ts:4583-4617 | Of git's eleven extended headers only the index line is skipped; every other one, with any text, becomes a context row. |
| DiffLines.GitHeaderExactly | apps/desktop/src/bridge.ts:4583-4593 | So the header of a file meets that condition if and only if its extended headers do. |
| ForkTitles.ParseExactly | apps/desktop/src/forkTitle.ts:24-30 | A title parses to a base, kind and index if and only if, trimmed, it has the regular expression's shape with a safe positive number. |
| ForkTitles.NextForkTitle | apps/desktop/src/forkTitle.ts:53-67 | The loop numbers past the highest existing fork. |
| ForkTitles.NextParsesExactly | apps/desktop/src/forkTitle.ts:37-67 | The next title parses to the same base, kind and highest index + 1 if and only if it fits 240 characters, the base is a nonempty single line and the number is safe. |
| ForkTitles.NextFits | apps/desktop/src/forkTitle.ts:37-43 | Every next title is at most 240 characters: a beginning of the base with the whole marker after it. |
| ForkTitles.NextKeepsWhatFits | apps/desktop/src/forkTitle.ts:37-43 | Nothing of the marker and no more of the base than needed is cut, and no blank is left before the marker. |
| ForkTitles.HighestExactly | apps/desktop/src/forkTitle.ts:53-67 | The number counted on is the highest among existing forks of the same base and kind. |
| ForkTitles.NextIsFreshAndFlat | apps/desktop/src/forkTitle.ts:53-67 | Then it is in no existing set, above every existing fork, and keeps the base. |
| ForkTitles.ForksNeverCollideOrNest | apps/desktop/src/forkTitle.ts:53-67 | Over any run of forks of forks no two titles are equal and every title keeps the source's base. |
| ForkTitles.NextRepeatsExactly | apps/desktop/src/forkTitle.ts:24-67 | For every source, kind and existing set: forking again after the next title exists repeats it if and only if it cannot be named, its marker not fitting, its base empty or not one line, or its number unsafe. |
| ForkTitles.ClampedTitlesRepeat | apps/desktop/src/forkTitle.ts:37-43 | Whatever exists, a base that leaves no room for its marker gets the same title twice. |
| ForkTitles.UnsafeNumbersRepeat | apps/desktop/src/forkTitle.ts:27-28 | Past the largest safe integer the next title is not read back and repeats. |
| Keybindings.ParseBinding | apps/desktop/src/keybindings.ts:300-338 | The loop over the modifier words computes the specified binding, or none. |
| Keybindings.ParseInvertsSerialize | apps/desktop/src/keybindings.ts:285-338 | Every binding on a key of the table is parsed back from its text. |
| Keybindings.ParsedIsInTable | apps/desktop/src/keybindings.ts:334-337 | A parsed binding is on a key of the table. |
| Keybindings.ModifiersExactly | apps/desktop/src/keybindings.ts:310-333 | Modifier words are accepted if and only if each spells a modifier, and set exactly those spelled, in any order, case and number. |
| Keybindings.ParseExactly | apps/desktop/src/keybindings.ts:300-338 | A text is read as a binding if and only if its parts are all there, all but the last spell its modifiers, and the last spells its key. |
| Keybindings.SpelledExactly | apps/desktop/src/keybindings.ts:231-271 | A word spells exactly the key of the table that it equals up to case. |
| Keybindings.ModIsThePlatformKey | apps/desktop/src/keybindings.ts:373-388 | With physical Control up, Command on macOS and Control elsewhere give the same binding. |
| Keybindings.ModifiersAreDistinguished | apps/desktop/src/keybindings.ts:373-388 | Keydowns of one platform that give the same binding hold the same modifiers, and off macOS none holds Meta. |
| Keybindings.NormalizeIsIdempotent | apps/desktop/src/keybindings.ts:341-344 | A normal form is its own normal form and means the same binding. |
| Keybindings.SerializeIsInjective | apps/desktop/src/keybindings.ts:285-293 | Two bindings have the same text if and only if they are equal. |
| Keybindings.EventBindingsAreCanonical | apps/desktop/src/keybindings.ts:361-388 | A binding read from a keydown is canonical. |
| KeyTable.ShippedTableIsGood | apps/desktop/src/keybindings.ts:231-271 | No two of the 83 shipped keys share a code or a spelling in any case. |
| KeybindingDispatch.ReadOverrides | apps/desktop/src/keybindings.ts:395-411 | Keeps for each known command its last understood entry, in normal form, and nothing else. |
| KeybindingDispatch.ResolveKeybindings | apps/desktop/src/keybindings.ts:426-447 | Each row has the override or default, the customized flag and the other owners of its keys. |
| KeybindingDispatch.ResolvedExactly | apps/desktop/src/keybindings.ts:413-447 | A command is bound as its override says, by default only without one, and customized if and only if that differs from the default. |
| KeybindingDispatch.UnderstoodExactly | apps/desktop/src/keybindings.ts:395-411 | Which stored entries are understood, and what they bind their command to. |
| KeybindingDispatch.ConflictsExactly | apps/desktop/src/keybindings.ts:443-446 | A conflict list names another command if and only if both have that binding; conflicts are mutual and never with oneself. |
| KeybindingDispatch.ConflictsAreCommands | apps/desktop/src/keybindings.ts:443-446 | A conflict list names registry commands only. |
| KeybindingDispatch.KeybindingLookup | apps/desktop/src/keybindings.ts:450-456 | A binding is looked up as command c if and only if c is the first registry command resolved to it. |
| KeybindingDispatch.LookupExactly | apps/desktop/src/keybindings.ts:450-456 | The lookup holds exactly the nonempty texts commands are bound to by override or default, each for the first such command. |
| KeybindingDispatch.DispatchIsFirstMatch | apps/desktop/src/keybindings.ts:471-483 | A keydown runs a command if and only if it is the first whose resolved binding, read by the grammar, is the pressed keys, and they carry a modifier or no field has focus. |
| KeybindingRegistry.ShippedDispatch | apps/desktop/src/keybindings.ts:70-483 | The same for the shipped keys and commands under any stored overrides. |
| KeybindingRegistry.DefaultsAreCanonical | apps/desktop/src/keybindings.ts:70-218 | Every shipped default is in normal form. |
| KeybindingRegistry.DefaultsDoNotConflict | apps/desktop/src/keybindings.ts:70-218 | No shipped default conflicts. |
| KeybindingRegistry.IdsAreUnique | apps/desktop/src/keybindings.ts:70-218 | Command ids are unique. |

## Left out

- Reducer bodies: an event is folded by an uninterpreted step, so the claims hold of any reducer that depends on the state and the event alone. `clearVerifiedRuntimeFailures` and merging of older pages are not folds of the log and are not modelled.
- The native store and the runtime crates: a snapshot is assumed to fold the log up to its watermark, events to be persisted before they are delivered, and `cacheMatched` to be reported exactly when watermark and reset epoch match (crates/session-store/src/projection_store/snapshot.rs:65-76).
- Writes to the task Git cache that bypass the generations: history paging, single-diff loading, project refreshes, eviction of a task's caches, the copy made when switching to a task that shares the checkout (App.tsx:3259) and the first entry of a created task (App.tsx:3488).
- Session-driven catalog writes for Cursor and Kimi, which bypass the epochs, and the per-session certification set.
- The native half of ACP: a failed connect or session start is assumed to leave the earlier native session alone, and one identifier stands for a task's renderer and native ids.
- Send now, steering and the wait for a priority send's stop; switching tasks while a queued message is in flight. The drain follows one active task.
- A delegation lookup that fails ends the walk and is not modelled; the broker's answers are fixed during one walk.
- React rendering: an effect run sees any rendered state, however old, and effect runs may come at any time, which covers every dependency list.
- Timers as real time, localStorage, event listeners and IPC transport: each is a step of the environment.
- Dates: `Date.parse` and ISO strings are integers, so `localeCompare` on claim times is the order of numbers.
- Retention reads one snapshot of the tasks and settings for a whole sweep, as the closure does; paging of the archive is a single answer.
- NeverAnotherDocumentsPicture: assumes `Reported`, that the tabs handed to `sync` keep their document while they keep their address, unless they were seen loading or closed in between; a page replaced at the same address with no loading state ever reported cannot be told apart by the cache.
- SelectionCache.Apply: one application with no other step at its awaits and fixed options; resets, replaced options and failures in between are in the machine of the same module.
- NothingAbandonedNothingLost: covers runs that leave a task only while its cached state is up to date; all other runs of the component are decided by the two exact lemmas of HydrationLoss.
- The mark that `stopTurn` puts on the shown turn and its cache entry (App.tsx:6189-6198), an adjustment that folds no event.
- Queue ids are never used twice by the store (`Enqueue` in `QueueDrain`), and a file's header line does not begin with "@@" (`Headed` in `DiffLines`): such a line opens a hunk.
- LeavingLosesExactly: exactness counts every event, also those before a reset, which the reducer then no longer shows; LeavingLosesPlainlyExactly is about tasks without resets.
- Truncating a task's log for an edit, which removes the cache entry (App.tsx:3728) and reconciles: logs only grow here. The removals at App.tsx:4212 and 4346 are modelled, their other caches are not.
- `toNativeBrowserBounds` and its rounding, titlebar geometry, tab dragging, omnibox, settings normalizers, model labels, commit decoration, demo data and curated lists, which hold no state and have few branches.
- Strings are sequences of code units without surrogates. `toLowerCase` is any function that lower-cases ASCII; `Number` and printing are exact, as they are up to 2^53.
- `keycaps`, labels, hints and groups of commands: display only.
