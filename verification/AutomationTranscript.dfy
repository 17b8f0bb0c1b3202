/**
 * Claiming of scheduled prompts and the merge of scheduling receipts into a
 * provider transcript (apps/desktop/src/automationTranscript.ts:84-206).
 */
module AutomationTranscript {
  // Timestamps are integers in milliseconds, as `Date.parse` gives them.

  import opened Common
  import opened Sorting

  datatype Kind = User | Other

  datatype Phase = Created | Prompted | Failing | Beginning

  datatype Scheduling = Scheduling(automation: string, run: Option<string>, phase: Phase)

  datatype Entry = Entry(id: string, kind: Kind, body: string, time: int, scheduling: Option<Scheduling>)

  /**
   * `trimmed` is the prompt without surrounding blanks and `turnPrompt` is what
   * `automationTurnPrompt` sends for it now.
   */
  datatype Automation = Automation(
    id: string, title: string, prompt: string, trimmed: string, turnPrompt: string,
    iterationNotes: bool, createdAt: int)

  datatype Status = Claimed | Dispatched | Failed

  datatype Run = Run(id: string, status: Status, claimedAt: int, finishedAt: Option<int>)

  datatype Timeline = Timeline(automation: Automation, runs: seq<Run>)

  // ---- claiming -------------------------------------------------------------

  predicate At(text: string, part: string, i: int) {
    0 <= i <= |text| - |part| && text[i..i + |part|] == part
  }

  predicate Includes(text: string, part: string) {
    exists i :: 0 <= i <= |text| - |part| && At(text, part, i)
  }

  /** Whether a user message is this automation's dispatched prompt. */
  predicate Matches(a: Automation, body: string) {
    || body == a.turnPrompt
    || (&& a.iterationNotes
        && (a.trimmed + "\n\nIteration context appended by scheduling:\n") <= body
        && Includes(body, "automationId `" + a.id + "`"))
  }

  /** A prompt this run may claim: not used, and not more than a second older than the claim. */
  predicate Eligible(a: Automation, run: Run, e: Entry, used: set<string>) {
    e.kind.User? && e.id !in used && Matches(a, e.body) && e.time >= run.claimedAt - 1000
  }

  /** `firstPromptForRun`: the index of the first eligible event from `from` on. */
  function FirstPrompt(events: seq<Entry>, a: Automation, run: Run, used: set<string>, from: nat): (found: Option<nat>)
    requires from <= |events|
    ensures found.Some? ==>
      && from <= found.value < |events| && Eligible(a, run, events[found.value], used)
      && forall i :: from <= i < found.value ==> !Eligible(a, run, events[i], used)
    ensures found.None? ==> forall i :: from <= i < |events| ==> !Eligible(a, run, events[i], used)
    decreases |events| - from
  {
    if from == |events| then None
    else if Eligible(a, run, events[from], used) then Some(from)
    else FirstPrompt(events, a, run, used, from + 1)
  }

  /**
   * A run's prompt is the first user message no other run took, at most a second
   * older than the run's claim, that reads exactly as the automation's prompt is
   * sent, or, if iteration notes are appended to it, begins with the prompt and
   * the notes' heading and names the automation.
   */
  ghost predicate ReadsAsPrompt(a: Automation, e: Entry, run: Run, used: set<string>) {
    var name := "automationId `" + a.id + "`";
    && e.kind == User && e.id !in used && run.claimedAt - e.time <= 1000
    && (e.body == a.turnPrompt
        || (&& a.iterationNotes
            && |e.body| >= |a.trimmed| + |"\n\nIteration context appended by scheduling:\n"|
            && e.body[..|a.trimmed|] == a.trimmed
            && e.body[|a.trimmed|..|a.trimmed| + |"\n\nIteration context appended by scheduling:\n"|]
               == "\n\nIteration context appended by scheduling:\n"
            && exists before: string, after: string :: e.body == before + name + after))
  }

  lemma PrefixInParts(a: string, b: string, text: string)
    ensures a + b <= text <==> |text| >= |a| + |b| && text[..|a|] == a && text[|a|..|a| + |b|] == b
  {
    if |text| >= |a| + |b| {
      assert text[..|a| + |b|] == text[..|a|] + text[|a|..|a| + |b|];
      assert a + b <= text ==> (a + b)[..|a|] == text[..|a|] && (a + b)[|a|..] == text[|a|..|a| + |b|];
    }
  }

  lemma EligibleExactly(a: Automation, run: Run, e: Entry, used: set<string>)
    ensures Eligible(a, run, e, used) <==> ReadsAsPrompt(a, e, run, used)
  {
    var name := "automationId `" + a.id + "`";
    PrefixInParts(a.trimmed, "\n\nIteration context appended by scheduling:\n", e.body);
    IncludesExactly(e.body, name);
  }

  lemma IncludesExactly(text: string, part: string)
    ensures Includes(text, part) <==> exists before: string, after: string :: text == before + part + after
  {
    if Includes(text, part) {
      var i :| 0 <= i <= |text| - |part| && At(text, part, i);
      assert text == text[..i] + part + text[i + |part|..];
    }
    if before: string, after: string :| text == before + part + after {
      assert At(text, part, |before|);
    }
  }

  /** What a run claims when its turn comes. */
  function ClaimOf(events: seq<Entry>, a: Automation, run: Run, used: set<string>): Option<nat> {
    if run.status.Dispatched? then FirstPrompt(events, a, run, used, 0) else None
  }

  /** The claims of the runs from `k` on: run index to event index. */
  function Greedy(events: seq<Entry>, a: Automation, runs: seq<Run>, k: nat, used: set<string>): (claims: map<nat, nat>)
    requires k <= |runs|
    ensures forall r :: r in claims ==> k <= r < |runs| && claims[r] < |events|
    decreases |runs| - k
  {
    if k == |runs| then map[]
    else
      var claim := ClaimOf(events, a, runs[k], used);
      if claim.None? then Greedy(events, a, runs, k + 1, used)
      else Greedy(events, a, runs, k + 1, used + {events[claim.value].id})[k := claim.value]
  }

  /** An assignment of dispatched runs to prompts they may claim, no prompt twice. */
  ghost predicate Matching(events: seq<Entry>, a: Automation, runs: seq<Run>, k: nat, used: set<string>, m: map<nat, nat>) {
    && (forall r :: r in m ==>
          && k <= r < |runs| && m[r] < |events|
          && runs[r].status.Dispatched? && Eligible(a, runs[r], events[m[r]], used))
    && (forall q, r :: q in m && r in m && q != r ==> m[q] != m[r])
  }

  predicate InTimeOrder(events: seq<Entry>) {
    forall i, j :: 0 <= i < j < |events| ==> events[i].time <= events[j].time
  }

  predicate UniqueIds(events: seq<Entry>) {
    forall i, j :: 0 <= i < j < |events| ==> events[i].id != events[j].id
  }

  /** The greedy claims are a matching. */
  lemma {:induction false} GreedyIsMatching(events: seq<Entry>, a: Automation, runs: seq<Run>, k: nat, used: set<string>)
    requires k <= |runs| && UniqueIds(events)
    ensures Matching(events, a, runs, k, used, Greedy(events, a, runs, k, used))
    decreases |runs| - k
  {
    if k < |runs| {
      var claim := ClaimOf(events, a, runs[k], used);
      if claim.Some? {
        GreedyIsMatching(events, a, runs, k + 1, used + {events[claim.value].id});
      } else {
        GreedyIsMatching(events, a, runs, k + 1, used);
      }
    }
  }

  lemma Without(m: map<nat, nat>, k: nat)
    ensures |m - {k}| == |m| - (if k in m then 1 else 0)
  {
    assert (m - {k}).Keys == m.Keys - {k};
    assert |(m - {k}).Keys| == |m - {k}| && |m.Keys| == |m|;
  }

  lemma Retargeted(m: map<nat, nat>, k: nat, i: nat)
    requires k in m
    ensures |m[k := i]| == |m|
  {
    assert m[k := i].Keys == m.Keys;
    assert |m[k := i].Keys| == |m[k := i]| && |m.Keys| == |m|;
  }

  lemma WithoutMatching(
    events: seq<Entry>, a: Automation, runs: seq<Run>, k: nat, used: set<string>, m: map<nat, nat>, r: nat)
    requires Matching(events, a, runs, k, used, m)
    ensures Matching(events, a, runs, k, used, m - {r})
  {
  }

  /** A prompt no earlier than one a run may claim may be claimed by it too. */
  lemma LaterIsEligible(events: seq<Entry>, a: Automation, first: Run, second: Run, g: nat, q: nat, used: set<string>)
    requires InTimeOrder(events) && g <= q < |events|
    requires Eligible(a, first, events[q], used) && Eligible(a, second, events[g], used)
    ensures Eligible(a, second, events[q], used)
  {
  }

  /** Run `r` takes over the prompt of run `k`. */
  lemma TakenOver(
    events: seq<Entry>, a: Automation, runs: seq<Run>, k: nat, used: set<string>, m: map<nat, nat>, r: nat)
    requires Matching(events, a, runs, k, used, m) && k in m && r in m && r != k
    requires Eligible(a, runs[r], events[m[k]], used)
    ensures
      var n := (m - {k})[r := m[k]];
      && Matching(events, a, runs, k, used, n) && k !in n && |n| == |m| - 1
      && forall q :: q in n ==> n[q] != m[r]
  {
    Without(m, k);
    Retargeted(m - {k}, r, m[k]);
  }

  /** Once prompt `g` is free, the matching avoids its id. */
  lemma AvoidsUsed(
    events: seq<Entry>, a: Automation, runs: seq<Run>, k: nat, used: set<string>, m: map<nat, nat>, g: nat)
    requires UniqueIds(events) && g < |events|
    requires Matching(events, a, runs, k, used, m) && k !in m && forall r :: r in m ==> m[r] != g
    ensures Matching(events, a, runs, k + 1, used + {events[g].id}, m)
  {
    forall r | r in m
      ensures Eligible(a, runs[r], events[m[r]], used + {events[g].id})
    {
      assert events[m[r]].id != events[g].id;
    }
  }

  /** Freeing the first eligible prompt `g` of run `k` costs a matching at most one assignment. */
  lemma Exchange(
    events: seq<Entry>, a: Automation, runs: seq<Run>, k: nat, used: set<string>, m: map<nat, nat>, g: nat)
    returns (rest: map<nat, nat>)
    requires k < |runs| && InTimeOrder(events) && UniqueIds(events)
    requires Matching(events, a, runs, k, used, m)
    requires runs[k].status.Dispatched? && FirstPrompt(events, a, runs[k], used, 0) == Some(g)
    ensures Matching(events, a, runs, k + 1, used + {events[g].id}, rest) && |rest| + 1 >= |m|
  {
    if r :| r in m && r != k && m[r] == g {
      if k in m {
        // The prompt taken from k is no earlier than g, so r may have it.
        LaterIsEligible(events, a, runs[k], runs[r], g, m[k], used);
        TakenOver(events, a, runs, k, used, m, r);
        rest := (m - {k})[r := m[k]];
      } else {
        Without(m, r);
        WithoutMatching(events, a, runs, k, used, m, r);
        rest := m - {r};
      }
    } else {
      Without(m, k);
      WithoutMatching(events, a, runs, k, used, m, k);
      rest := m - {k};
    }
    AvoidsUsed(events, a, runs, k, used, rest, g);
  }

  /**
   * First-fit is optimal: no assignment of dispatched runs to eligible prompts
   * serves more runs than the greedy claims do, in whatever order the runs are
   * taken.
   */
  lemma {:induction false} GreedyIsMaximum(
    events: seq<Entry>, a: Automation, runs: seq<Run>, k: nat, used: set<string>, m: map<nat, nat>)
    requires k <= |runs| && InTimeOrder(events) && UniqueIds(events)
    requires Matching(events, a, runs, k, used, m)
    ensures |m| <= |Greedy(events, a, runs, k, used)|
    decreases |runs| - k
  {
    if k == |runs| {
      assert m == map[];
    } else {
      var claim := ClaimOf(events, a, runs[k], used);
      if claim.None? {
        assert k !in m;
        GreedyIsMaximum(events, a, runs, k + 1, used, m);
      } else {
        var g := claim.value;
        var rest := Exchange(events, a, runs, k, used, m, g);
        GreedyIsMaximum(events, a, runs, k + 1, used + {events[g].id}, rest);
        var later := Greedy(events, a, runs, k + 1, used + {events[g].id});
        assert k !in later;
        Without(later[k := g], k);
        assert later[k := g] - {k} == later;
      }
    }
  }

  // ---- the merge ------------------------------------------------------------

  /**
   * The locals of `mergeSchedulingTranscript`. `claims` records which run took
   * which prompt.
   */
  datatype Merge = Merge(
    scheduled: seq<Entry>, replacements: map<string, Entry>, used: set<string>, claims: seq<(Run, string)>)

  const BLANK := Merge([], map[], {}, [])

  /** `schedulingEvent`. */
  function Receipt(a: Automation, run: Option<Run>, phase: Phase, time: int): Entry {
    Entry(
      if run.Some? then "automation-run-" + run.value.id else "automation-created-" + a.id,
      Other, a.title, time, Some(Scheduling(a.id, if run.Some? then Some(run.value.id) else None, phase)))
  }

  function Replacement(a: Automation, run: Run, e: Entry): Entry {
    e.(body := a.prompt, scheduling := Some(Scheduling(a.id, Some(run.id), Prompted)))
  }

  /** One turn of the inner loop. */
  function TakeRun(m: Merge, events: seq<Entry>, a: Automation, run: Run): Merge {
    var claim := ClaimOf(events, a, run, m.used);
    if claim.Some? then
      var e := events[claim.value];
      Merge(m.scheduled, m.replacements[e.id := Replacement(a, run, e)], m.used + {e.id}, m.claims + [(run, e.id)])
    else if run.status.Failed? then
      m.(scheduled := m.scheduled + [Receipt(a, Some(run), Failing, run.finishedAt.GetOr(run.claimedAt))])
    else
      m.(scheduled := m.scheduled + [Receipt(a, Some(run), Beginning, run.claimedAt)])
  }

  function TakeRuns(m: Merge, events: seq<Entry>, a: Automation, runs: seq<Run>): Merge {
    if runs == [] then m
    else TakeRun(TakeRuns(m, events, a, runs[..|runs| - 1]), events, a, runs[|runs| - 1])
  }

  function ByClaim(runs: seq<Run>): seq<Run> {
    SortBy(runs, (run: Run) => run.claimedAt)
  }

  /** One turn of the outer loop. */
  function TakeTimeline(m: Merge, events: seq<Entry>, t: Timeline): Merge {
    TakeRuns(
      m.(scheduled := m.scheduled + [Receipt(t.automation, None, Created, t.automation.createdAt)]),
      events, t.automation, ByClaim(t.runs))
  }

  function TakeAll(m: Merge, events: seq<Entry>, timelines: seq<Timeline>): Merge {
    if timelines == [] then m
    else TakeTimeline(TakeAll(m, events, timelines[..|timelines| - 1]), events, timelines[|timelines| - 1])
  }

  function Shown(e: Entry, replacements: map<string, Entry>): Entry {
    if e.id in replacements then replacements[e.id] else e
  }

  function Survivors(events: seq<Entry>, replacements: map<string, Entry>): (survivors: seq<Entry>)
    ensures |survivors| == |events|
    ensures forall i :: 0 <= i < |events| ==> survivors[i] == Shown(events[i], replacements)
  {
    seq(|events|, i requires 0 <= i < |events| => Shown(events[i], replacements))
  }

  /** `mergeSchedulingTranscript`. */
  function Merged(events: seq<Entry>, timelines: seq<Timeline>): seq<Entry> {
    if timelines == [] then events
    else
      var m := TakeAll(BLANK, events, timelines);
      SortBy(Survivors(events, m.replacements) + m.scheduled, (e: Entry) => e.time)
  }

  /**
   * A run takes the first message that reads as its prompt, if it was dispatched,
   * and that message will show the automation's prompt under the run's name;
   * otherwise the run leaves a receipt of its own, at the time it failed or began.
   */
  lemma RunTakesOrReports(m: Merge, events: seq<Entry>, a: Automation, run: Run)
    ensures
      var n := TakeRun(m, events, a, run);
      if i: nat :| run.status == Dispatched && i < |events| && ReadsAsPrompt(a, events[i], run, m.used)
                   && forall j: nat :: j < i ==> !ReadsAsPrompt(a, events[j], run, m.used)
      then
        && n.scheduled == m.scheduled && n.used == m.used + {events[i].id} && n.claims == m.claims + [(run, events[i].id)]
        && n.replacements == m.replacements[events[i].id :=
             Entry(events[i].id, events[i].kind, a.prompt, events[i].time, Some(Scheduling(a.id, Some(run.id), Prompted)))]
      else
        && n.used == m.used && n.claims == m.claims && n.replacements == m.replacements
        && n.scheduled == m.scheduled + [Entry(
             "automation-run-" + run.id, Other, a.title,
             if run.status == Failed && run.finishedAt.Some? then run.finishedAt.value else run.claimedAt,
             Some(Scheduling(a.id, Some(run.id), if run.status == Failed then Failing else Beginning)))]
  {
    forall i: nat | i < |events|
      ensures Eligible(a, run, events[i], m.used) <==> ReadsAsPrompt(a, events[i], run, m.used)
    {
      EligibleExactly(a, run, events[i], m.used);
    }
  }

  /** A timeline begins with the receipt of the automation's creation, and then takes its runs in the order of their claims. */
  lemma TimelineReportsCreation(m: Merge, events: seq<Entry>, t: Timeline)
    ensures
      var created := Entry(
        "automation-created-" + t.automation.id, Other, t.automation.title, t.automation.createdAt,
        Some(Scheduling(t.automation.id, None, Created)));
      var runs := SortBy(t.runs, (run: Run) => run.claimedAt);
      TakeTimeline(m, events, t)
      == TakeRuns(Merge(m.scheduled + [created], m.replacements, m.used, m.claims), events, t.automation, runs)
  {
  }

  /** Without automations the transcript stays as it is. */
  lemma NothingToMerge(events: seq<Entry>)
    ensures Merged(events, []) == events
  {
  }

  /** A message shows as it was unless some run took it, and then as its replacement. */
  lemma SurvivorsExactly(events: seq<Entry>, replacements: map<string, Entry>, i: nat)
    requires i < |events|
    ensures Survivors(events, replacements)[i] == Get(replacements, events[i].id).GetOr(events[i])
  {
  }

  /** The inner loop over one automation's runs. */
  method MergeRuns(events: seq<Entry>, automation: Automation, runs: seq<Run>, begun: Merge) returns (m: Merge)
    ensures m == TakeRuns(begun, events, automation, runs)
  {
    var scheduled, replacements, used, claims := begun.scheduled, begun.replacements, begun.used, begun.claims;
    var k := 0;
    while k < |runs|
      invariant 0 <= k <= |runs|
      invariant Merge(scheduled, replacements, used, claims) == TakeRuns(begun, events, automation, runs[..k])
    {
      var run := runs[k];
      var prompt := if run.status.Dispatched? then FirstPrompt(events, automation, run, used, 0) else None;
      if prompt.Some? {
        var e := events[prompt.value];
        used := used + {e.id};
        replacements := replacements[e.id := Replacement(automation, run, e)];
        claims := claims + [(run, e.id)];
      } else if run.status.Failed? {
        var at := if run.finishedAt.Some? then run.finishedAt.value else run.claimedAt;
        scheduled := scheduled + [Receipt(automation, Some(run), Failing, at)];
      } else {
        scheduled := scheduled + [Receipt(automation, Some(run), Beginning, run.claimedAt)];
      }
      assert runs[..k + 1][..k] == runs[..k];
      k := k + 1;
    }
    assert runs[..k] == runs;
    m := Merge(scheduled, replacements, used, claims);
  }

  method MergeSchedulingTranscript(events: seq<Entry>, timelines: seq<Timeline>) returns (merged: seq<Entry>)
    ensures merged == Merged(events, timelines)
  {
    if |timelines| == 0 {
      return events;
    }
    var m := BLANK;
    var i := 0;
    while i < |timelines|
      invariant 0 <= i <= |timelines|
      invariant m == TakeAll(BLANK, events, timelines[..i])
    {
      var automation := timelines[i].automation;
      m := m.(scheduled := m.scheduled + [Receipt(automation, None, Created, automation.createdAt)]);
      m := MergeRuns(events, automation, ByClaim(timelines[i].runs), m);
      assert timelines[..i + 1][..i] == timelines[..i];
      i := i + 1;
    }
    assert timelines[..i] == timelines;
    merged := SortBy(Survivors(events, m.replacements) + m.scheduled, (e: Entry) => e.time);
  }

  function RunCount(timelines: seq<Timeline>): nat {
    if timelines == [] then 0 else RunCount(timelines[..|timelines| - 1]) + |timelines[|timelines| - 1].runs|
  }

  /** Every claimed id is one prompt's, taken by one run, and its replacement keeps its id, kind and time. */
  ghost predicate MergeOk(m: Merge, events: seq<Entry>) {
    && m.replacements.Keys == m.used && |m.used| == |m.claims|
    && (forall i, j :: 0 <= i < j < |m.claims| ==> m.claims[i].1 != m.claims[j].1)
    && (forall i :: 0 <= i < |m.claims| ==> m.claims[i].1 in m.used)
    && forall id :: id in m.replacements ==> KeepsPlace(m.replacements[id], id, events)
  }

  ghost predicate KeepsPlace(r: Entry, id: string, events: seq<Entry>) {
    exists i :: 0 <= i < |events| && events[i].id == id && r.id == id && r.time == events[i].time && r.kind == events[i].kind
  }

  lemma ReplacementKeepsPlace(events: seq<Entry>, a: Automation, run: Run, i: nat)
    requires i < |events|
    ensures KeepsPlace(Replacement(a, run, events[i]), events[i].id, events)
  {
  }

  lemma MergeOkClaim(m: Merge, events: seq<Entry>, run: Run, id: string, kept: Entry)
    requires MergeOk(m, events) && id !in m.used && KeepsPlace(kept, id, events)
    ensures MergeOk(Merge(m.scheduled, m.replacements[id := kept], m.used + {id}, m.claims + [(run, id)]), events)
  {
    var replacements := m.replacements[id := kept];
    assert forall other :: other in replacements ==> KeepsPlace(replacements[other], other, events);
  }

  lemma MergeOkRun(m: Merge, events: seq<Entry>, a: Automation, run: Run)
    requires MergeOk(m, events)
    ensures MergeOk(TakeRun(m, events, a, run), events)
    ensures
      var n := TakeRun(m, events, a, run);
      |n.scheduled| + |n.claims| == |m.scheduled| + |m.claims| + 1
  {
    var claim := ClaimOf(events, a, run, m.used);
    if claim.Some? {
      var e := events[claim.value];
      ReplacementKeepsPlace(events, a, run, claim.value);
      MergeOkClaim(m, events, run, e.id, Replacement(a, run, e));
    }
  }

  lemma {:induction false} MergeOkRuns(m: Merge, events: seq<Entry>, a: Automation, runs: seq<Run>)
    requires MergeOk(m, events)
    ensures
      var n := TakeRuns(m, events, a, runs);
      MergeOk(n, events) && |n.scheduled| + |n.claims| == |m.scheduled| + |m.claims| + |runs|
  {
    if runs != [] {
      MergeOkRuns(m, events, a, runs[..|runs| - 1]);
      MergeOkRun(TakeRuns(m, events, a, runs[..|runs| - 1]), events, a, runs[|runs| - 1]);
    }
  }

  lemma {:induction false} MergeOkAll(events: seq<Entry>, timelines: seq<Timeline>)
    ensures
      var n := TakeAll(BLANK, events, timelines);
      MergeOk(n, events) && |n.scheduled| + |n.claims| == |timelines| + RunCount(timelines)
  {
    if timelines != [] {
      var before := timelines[..|timelines| - 1];
      var t := timelines[|timelines| - 1];
      MergeOkAll(events, before);
      var m := TakeAll(BLANK, events, before);
      SortByOrders(t.runs, (run: Run) => run.claimedAt);
      MergeOkRuns(
        m.(scheduled := m.scheduled + [Receipt(t.automation, None, Created, t.automation.createdAt)]),
        events, t.automation, ByClaim(t.runs));
    }
  }

  lemma SurvivorsKeepPlace(events: seq<Entry>, m: Merge, i: nat)
    requires UniqueIds(events) && MergeOk(m, events) && i < |events|
    ensures
      var e := Shown(events[i], m.replacements);
      e.id == events[i].id && e.time == events[i].time && e.kind == events[i].kind
  {
    var id := events[i].id;
    if id in m.replacements {
      assert KeepsPlace(m.replacements[id], id, events);
      var k :| 0 <= k < |events| && events[k].id == id && m.replacements[id].id == id
               && m.replacements[id].time == events[k].time && m.replacements[id].kind == events[k].kind;
      assert !(k < i) && !(i < k);
    }
  }

  /**
   * For any nonempty timeline: the transcript is in time order; every provider
   * event survives exactly once, at its own time and under its own id; no prompt
   * serves two runs; and the length is the events, the automations and the runs
   * without a prompt.
   */
  lemma MergeLosesNothing(events: seq<Entry>, timelines: seq<Timeline>)
    requires timelines != [] && UniqueIds(events)
    ensures
      var m := TakeAll(BLANK, events, timelines);
      var survivors := Survivors(events, m.replacements);
      && Ascending(Merged(events, timelines), (e: Entry) => e.time)
      && multiset(Merged(events, timelines)) == multiset(survivors) + multiset(m.scheduled)
      && (forall i :: 0 <= i < |events| ==>
            && survivors[i].id == events[i].id && survivors[i].time == events[i].time
            && survivors[i].kind == events[i].kind)
      && (forall i, j :: 0 <= i < j < |m.claims| ==> m.claims[i].1 != m.claims[j].1)
      && |Merged(events, timelines)| == |events| + |timelines| + (RunCount(timelines) - |m.claims|)
  {
    var m := TakeAll(BLANK, events, timelines);
    MergeOkAll(events, timelines);
    var survivors := Survivors(events, m.replacements);
    SortByOrders(survivors + m.scheduled, (e: Entry) => e.time);
    forall i | 0 <= i < |events|
      ensures
        && survivors[i].id == events[i].id && survivors[i].time == events[i].time
        && survivors[i].kind == events[i].kind
    {
      SurvivorsKeepPlace(events, m, i);
    }
  }

  /** The claims of the runs from `k` on, in the order of the runs. */
  function Listed(events: seq<Entry>, runs: seq<Run>, k: nat, claims: map<nat, nat>): seq<(Run, string)>
    requires k <= |runs| && forall r :: r in claims ==> claims[r] < |events|
    decreases |runs| - k
  {
    if k == |runs| then []
    else (if k in claims then [(runs[k], events[claims[k]].id)] else []) + Listed(events, runs, k + 1, claims)
  }

  lemma {:induction false} ListedIgnoresEarlier(
    events: seq<Entry>, runs: seq<Run>, k: nat, claims: map<nat, nat>, r: nat, i: nat)
    requires r < k <= |runs| && i < |events| && forall q :: q in claims ==> claims[q] < |events|
    ensures Listed(events, runs, k, claims[r := i]) == Listed(events, runs, k, claims)
    decreases |runs| - k
  {
    if k < |runs| {
      ListedIgnoresEarlier(events, runs, k + 1, claims, r, i);
    }
  }

  /** What run `k` adds to the claims. */
  function ClaimedBy(events: seq<Entry>, a: Automation, run: Run, used: set<string>): seq<(Run, string)> {
    var claim := ClaimOf(events, a, run, used);
    if claim.Some? then [(run, events[claim.value].id)] else []
  }

  function UsedBy(events: seq<Entry>, a: Automation, run: Run, used: set<string>): set<string> {
    var claim := ClaimOf(events, a, run, used);
    if claim.Some? then used + {events[claim.value].id} else used
  }

  lemma GreedyStep(events: seq<Entry>, a: Automation, runs: seq<Run>, k: nat, used: set<string>)
    requires k < |runs|
    ensures
      var greedy := Greedy(events, a, runs, k, used);
      var later := Greedy(events, a, runs, k + 1, UsedBy(events, a, runs[k], used));
      && Listed(events, runs, k, greedy) == ClaimedBy(events, a, runs[k], used) + Listed(events, runs, k + 1, later)
      && |greedy| == |ClaimedBy(events, a, runs[k], used)| + |later|
  {
    var claim := ClaimOf(events, a, runs[k], used);
    var later := Greedy(events, a, runs, k + 1, UsedBy(events, a, runs[k], used));
    assert k !in later;
    if claim.Some? {
      ListedIgnoresEarlier(events, runs, k + 1, later, k, claim.value);
      Without(later[k := claim.value], k);
      assert later[k := claim.value] - {k} == later;
    }
  }

  lemma {:induction false} ListedHasAll(events: seq<Entry>, a: Automation, runs: seq<Run>, k: nat, used: set<string>)
    requires k <= |runs|
    ensures |Listed(events, runs, k, Greedy(events, a, runs, k, used))| == |Greedy(events, a, runs, k, used)|
    decreases |runs| - k
  {
    if k < |runs| {
      GreedyStep(events, a, runs, k, used);
      ListedHasAll(events, a, runs, k + 1, UsedBy(events, a, runs[k], used));
    }
  }

  lemma TakeRunClaims(m: Merge, events: seq<Entry>, a: Automation, run: Run)
    ensures TakeRun(m, events, a, run).claims == m.claims + ClaimedBy(events, a, run, m.used)
    ensures TakeRun(m, events, a, run).used == UsedBy(events, a, run, m.used)
  {
  }

  lemma Appended<T>(a: seq<T>, b: seq<T>, c: seq<T>)
    ensures (a + b) + c == a + (b + c)
  {
  }

  lemma TakeRunsSnoc(m: Merge, events: seq<Entry>, a: Automation, runs: seq<Run>, k: nat)
    requires k < |runs|
    ensures TakeRuns(m, events, a, runs[..k + 1]) == TakeRun(TakeRuns(m, events, a, runs[..k]), events, a, runs[k])
  {
    assert runs[..k + 1][..k] == runs[..k];
  }

  /** The claims from `k` on are those of run `k` and those from `k + 1` on. */
  lemma ClaimsGoOn(before: Merge, events: seq<Entry>, a: Automation, runs: seq<Run>, k: nat)
    requires k < |runs|
    ensures
      var after := TakeRun(before, events, a, runs[k]);
      after.claims + Listed(events, runs, k + 1, Greedy(events, a, runs, k + 1, after.used))
      == before.claims + Listed(events, runs, k, Greedy(events, a, runs, k, before.used))
  {
    TakeRunClaims(before, events, a, runs[k]);
    GreedyStep(events, a, runs, k, before.used);
    var used := UsedBy(events, a, runs[k], before.used);
    Appended(before.claims, ClaimedBy(events, a, runs[k], before.used),
             Listed(events, runs, k + 1, Greedy(events, a, runs, k + 1, used)));
  }

  /**
   * The loop over one automation's runs makes exactly the greedy claims: the
   * same runs take the same prompts, in the order of the runs.
   */
  lemma {:induction false} LoopIsGreedy(m: Merge, events: seq<Entry>, a: Automation, runs: seq<Run>, k: nat)
    requires k <= |runs|
    ensures
      var before := TakeRuns(m, events, a, runs[..k]);
      TakeRuns(m, events, a, runs).claims
      == before.claims + Listed(events, runs, k, Greedy(events, a, runs, k, before.used))
    decreases |runs| - k
  {
    if k == |runs| {
      assert runs[..k] == runs;
    } else {
      LoopIsGreedy(m, events, a, runs, k + 1);
      TakeRunsSnoc(m, events, a, runs, k);
      ClaimsGoOn(TakeRuns(m, events, a, runs[..k]), events, a, runs, k);
    }
  }

  /** For one automation the transcript marks as many prompts as any assignment of its dispatched runs could. */
  lemma MergeClaimsAMaximum(events: seq<Entry>, t: Timeline, m: map<nat, nat>)
    requires InTimeOrder(events) && UniqueIds(events)
    requires Matching(events, t.automation, ByClaim(t.runs), 0, {}, m)
    ensures |m| <= |TakeAll(BLANK, events, [t]).claims|
  {
    var begun := BLANK.(scheduled := [] + [Receipt(t.automation, None, Created, t.automation.createdAt)]);
    assert [t][..0] == [];
    var runs := ByClaim(t.runs);
    LoopIsGreedy(begun, events, t.automation, runs, 0);
    assert runs[..0] == [];
    ListedHasAll(events, t.automation, runs, 0, {});
    GreedyIsMaximum(events, t.automation, runs, 0, {}, m);
  }

  // ---- the slice of one run -------------------------------------------------

  /** `eventsForRun`: the run's prompt and everything up to the next user message. */
  method EventsForRun(events: seq<Entry>, a: Automation, run: Run) returns (slice: seq<Entry>)
    ensures FirstPrompt(events, a, run, {}, 0).None? ==> slice == []
    ensures FirstPrompt(events, a, run, {}, 0).Some? ==>
      var start := FirstPrompt(events, a, run, {}, 0).value;
      && 0 < |slice| <= |events| - start && slice == events[start..start + |slice|]
      && (forall i :: 0 < i < |slice| ==> !slice[i].kind.User?)
      && (start + |slice| < |events| ==> events[start + |slice|].kind.User?)
  {
    var prompt := FirstPrompt(events, a, run, {}, 0);
    if prompt.None? {
      return [];
    }
    var start := prompt.value;
    var end := start + 1;
    while end < |events| && !events[end].kind.User?
      invariant start < end <= |events|
      invariant forall i :: start < i < end ==> !events[i].kind.User?
    {
      end := end + 1;
    }
    slice := events[start..end];
  }
}
