/**
 * Placement lanes for native browser pages (apps/desktop/src/browserBounds.ts).
 */
module BrowserBounds {
  // Each lane keeps only the newest placement, starts its call in a microtask and
  // serializes calls of one owner; a change of owner is sent at once. A microtask
  // and a call's completion are separate atomic steps, and completions may come
  // in any order.

  import opened Common

  datatype Bounds = Bounds(x: int, y: int, width: nat, height: nat)

  datatype Slot = Pane | Deck | Popout

  datatype Placement = Placement(
    task: string, tab: string, bounds: Option<Bounds>, slot: Slot, session: nat, revision: nat)

  const NUL: string := "\0"

  /** Slots and owners are joined with a NUL, as in the source. */
  function LaneKey(slot: Slot, tab: string): string {
    match slot
    case Pane => "pane"
    case Popout => "popout"
    case Deck => "deck" + NUL + tab
  }

  function Owner(p: Placement): string {
    p.task + NUL + p.tab + NUL + (if p.bounds.Some? then "shown" else "hidden")
  }

  /** The fields of a `PlacementLane`. */
  datatype Lane = Lane(scheduled: bool, lastOwner: Option<string>, inFlight: map<nat, string>, pending: Option<Placement>)

  const EMPTY_LANE := Lane(false, None, map[], None)

  /** `schedule`: queue one microtask when something is pending. */
  function Scheduled(lane: Lane): Lane {
    if lane.scheduled || lane.pending.None? then lane else lane.(scheduled := true)
  }

  /** The part of `place` that touches the lane. */
  function Placed(lane: Lane, p: Placement): Lane {
    Scheduled(lane.(pending := Some(p)))
  }

  /** Whether `drain` holds a placement back: its owner sent last and still has a call out. */
  predicate HeldBack(lane: Lane, p: Placement) {
    lane.lastOwner == Some(Owner(p)) && Owner(p) in lane.inFlight.Values
  }

  /** The microtask: clear `scheduled`, then `drain`. */
  function Drained(lane: Lane): Lane {
    var idle := lane.(scheduled := false);
    if idle.pending.None? || HeldBack(idle, idle.pending.value) then idle
    else
      var p := idle.pending.value;
      Lane(false, Some(Owner(p)), idle.inFlight[p.revision := Owner(p)], None)
  }

  /** What the microtask hands to the writer. */
  function Sends(lane: Lane): Option<Placement> {
    if lane.pending.None? || HeldBack(lane, lane.pending.value) then None else lane.pending
  }

  /** The `finally` of a call. */
  function Completed(lane: Lane, revision: nat): Lane {
    Scheduled(lane.(inFlight := lane.inFlight - {revision}))
  }

  // ---- runs of one lane -----------------------------------------------------

  datatype Call = Sent(p: Placement) | Done(revision: nat)

  /** `clock` is the shared revision clock; `placed` and `log` are history. */
  datatype State = State(lane: Lane, clock: nat, placed: seq<Placement>, log: seq<Call>)

  const INITIAL := State(EMPTY_LANE, 0, [], [])

  /** Other lanes and windows may draw revisions between two placements of this lane. */
  datatype Event = Place(p: Placement) | Microtask | Complete(revision: nat)

  predicate Enabled(s: State, e: Event) {
    match e
    case Place(p) => p.revision > s.clock
    case Microtask => s.lane.scheduled
    case Complete(revision) => revision in s.lane.inFlight
  }

  function Next(s: State, e: Event): State
    requires Enabled(s, e)
  {
    match e
    case Place(p) => s.(lane := Placed(s.lane, p), clock := p.revision, placed := s.placed + [p])
    case Microtask =>
      var sends := Sends(s.lane);
      s.(lane := Drained(s.lane), log := if sends.Some? then s.log + [Sent(sends.value)] else s.log)
    case Complete(revision) => s.(lane := Completed(s.lane, revision), log := s.log + [Done(revision)])
  }

  predicate Possible(s: State, run: seq<Event>)
    decreases |run|
  {
    run == [] || (Enabled(s, run[0]) && Possible(Next(s, run[0]), run[1..]))
  }

  function After(s: State, run: seq<Event>): State
    requires Possible(s, run)
    decreases |run|
  {
    if run == [] then s else After(Next(s, run[0]), run[1..])
  }

  /** The placements handed to the writer, in order. */
  function SentOf(log: seq<Call>): seq<Placement> {
    if log == [] then []
    else
      var before := SentOf(log[..|log| - 1]);
      match log[|log| - 1]
      case Sent(p) => before + [p]
      case Done(_) => before
  }

  /** The calls that have not completed, with their owners. */
  function Outstanding(log: seq<Call>): map<nat, string> {
    if log == [] then map[]
    else
      var before := Outstanding(log[..|log| - 1]);
      match log[|log| - 1]
      case Sent(p) => before[p.revision := Owner(p)]
      case Done(revision) => before - {revision}
  }

  /** A revision is outstanding exactly when it was sent and has not completed since. */
  lemma {:induction false} OutstandingExactly(log: seq<Call>, revision: nat)
    ensures revision in Outstanding(log) <==>
            exists i :: 0 <= i < |log| && log[i].Sent? && log[i].p.revision == revision
                        && forall j :: i < j < |log| ==> log[j] != Done(revision)
  {
    if log != [] {
      var before := log[..|log| - 1];
      var last := log[|log| - 1];
      OutstandingExactly(before, revision);
      if revision in Outstanding(before) && last != Done(revision) {
        var i :| 0 <= i < |before| && before[i].Sent? && before[i].p.revision == revision
                 && forall j :: i < j < |before| ==> before[j] != Done(revision);
        assert log[i] == before[i];
        assert forall j :: i < j < |log| ==> log[j] != Done(revision);
      }
      if i :| 0 <= i < |log| && log[i].Sent? && log[i].p.revision == revision
              && forall j :: i < j < |log| ==> log[j] != Done(revision)
      {
        if i < |before| {
          assert before[i] == log[i];
          assert forall j :: i < j < |before| ==> before[j] == log[j];
        }
      }
    }
  }

  predicate Increasing(ps: seq<Placement>) {
    forall i, j :: 0 <= i < j < |ps| ==> ps[i].revision < ps[j].revision
  }

  function Last(ps: seq<Placement>): Placement
    requires ps != []
  {
    ps[|ps| - 1]
  }

  /** A send by the owner that sent last happens only when that owner has no call out. */
  ghost predicate Serialized(log: seq<Call>) {
    forall k :: 0 <= k < |log| && log[k].Sent? && SentOf(log[..k]) != []
      && Owner(Last(SentOf(log[..k]))) == Owner(log[k].p)
      ==> Owner(log[k].p) !in Outstanding(log[..k]).Values
  }

  /** A pending placement with no microtask has a call of the same owner to wake it. */
  predicate NoLostWakeup(lane: Lane) {
    lane.pending.Some? && !lane.scheduled ==> Owner(lane.pending.value) in lane.inFlight.Values
  }

  ghost predicate Inv(s: State) {
    var sent := SentOf(s.log);
    && NoLostWakeup(s.lane)
    && (s.lane.scheduled ==> s.lane.pending.Some?)
    && s.lane.inFlight == Outstanding(s.log)
    && s.lane.lastOwner == (if sent == [] then None else Some(Owner(Last(sent))))
    && Increasing(s.placed) && Increasing(sent)
    && (forall p :: p in s.placed ==> p.revision <= s.clock)
    && (forall p :: p in sent ==> p in s.placed)
    && (s.lane.pending.Some? ==>
          && s.placed != [] && s.lane.pending.value == Last(s.placed)
          && forall p :: p in sent ==> p.revision < s.lane.pending.value.revision)
    && (s.lane.pending.None? ==>
          (s.placed == [] && sent == []) || (s.placed != [] && sent != [] && Last(s.placed) == Last(sent)))
    && Serialized(s.log)
  }

  lemma SentOfSnoc(log: seq<Call>, c: Call)
    ensures SentOf(log + [c]) == if c.Sent? then SentOf(log) + [c.p] else SentOf(log)
    ensures Outstanding(log + [c]) ==
            if c.Sent? then Outstanding(log)[c.p.revision := Owner(c.p)] else Outstanding(log) - {c.revision}
  {
    assert (log + [c])[..|log|] == log;
  }

  lemma SerializedSnoc(log: seq<Call>, c: Call)
    requires Serialized(log)
    requires c.Sent? && SentOf(log) != [] && Owner(Last(SentOf(log))) == Owner(c.p) ==>
             Owner(c.p) !in Outstanding(log).Values
    ensures Serialized(log + [c])
  {
    var more := log + [c];
    forall k | 0 <= k < |more| && more[k].Sent? && SentOf(more[..k]) != []
               && Owner(Last(SentOf(more[..k]))) == Owner(more[k].p)
      ensures Owner(more[k].p) !in Outstanding(more[..k]).Values
    {
      assert more[..k] == log[..k];
      if k == |log| {
        assert log[..k] == log;
      }
    }
  }

  lemma InvPlace(s: State, p: Placement)
    requires Inv(s) && Enabled(s, Place(p))
    ensures Inv(Next(s, Place(p)))
  {
  }

  lemma InvMicrotask(s: State)
    requires Inv(s) && Enabled(s, Microtask)
    ensures Inv(Next(s, Microtask))
  {
    var sends := Sends(s.lane);
    if sends.Some? {
      SentOfSnoc(s.log, Sent(sends.value));
      SerializedSnoc(s.log, Sent(sends.value));
    }
  }

  lemma InvComplete(s: State, revision: nat)
    requires Inv(s) && Enabled(s, Complete(revision))
    ensures Inv(Next(s, Complete(revision)))
  {
    SentOfSnoc(s.log, Done(revision));
    SerializedSnoc(s.log, Done(revision));
  }

  lemma InvNext(s: State, e: Event)
    requires Inv(s) && Enabled(s, e)
    ensures Inv(Next(s, e))
  {
    match e
    case Place(p) => InvPlace(s, p);
    case Microtask => InvMicrotask(s);
    case Complete(revision) => InvComplete(s, revision);
  }

  lemma {:induction false} EveryRunKeepsInv(s: State, run: seq<Event>)
    requires Inv(s) && Possible(s, run)
    ensures Inv(After(s, run))
    decreases |run|
  {
    if run != [] {
      InvNext(s, run[0]);
      EveryRunKeepsInv(Next(s, run[0]), run[1..]);
    }
  }

  /**
   * In every run: a waiting placement has a microtask or a call that will wake
   * it, revisions go out in increasing order, and consecutive sends of one
   * owner never overlap a call of that owner.
   */
  lemma EveryRunIsOrderly(run: seq<Event>)
    requires Possible(INITIAL, run)
    ensures
      var s := After(INITIAL, run);
      && NoLostWakeup(s.lane)
      && Increasing(SentOf(s.log))
      && Serialized(s.log)
      && forall p :: p in SentOf(s.log) ==> p in s.placed
  {
    EveryRunKeepsInv(INITIAL, run);
  }

  /**
   * When the microtask runs, the waiting placement goes out exactly when the
   * placement sent before it had another owner or no call of its own owner is out:
   * a change of owner never waits. Otherwise it goes on waiting.
   */
  lemma SendsExactly(run: seq<Event>)
    requires Possible(INITIAL, run) && Enabled(After(INITIAL, run), Microtask)
    ensures
      var s := After(INITIAL, run);
      var t := Next(s, Microtask);
      var sent := SentOf(s.log);
      && s.lane.pending.Some? && !t.lane.scheduled
      && if sent != [] && Owner(Last(sent)) == Owner(s.lane.pending.value)
            && Owner(s.lane.pending.value) in Outstanding(s.log).Values
         then t.log == s.log && t.lane.pending == s.lane.pending
         else t.log == s.log + [Sent(s.lane.pending.value)] && t.lane.pending.None?
  {
    EveryRunKeepsInv(INITIAL, run);
  }

  /** A placement gets a microtask at once, and so does a waiting one whenever a call completes. */
  lemma WaitingIsScheduled(run: seq<Event>, e: Event)
    requires Possible(INITIAL, run) && Enabled(After(INITIAL, run), e) && !e.Microtask?
    ensures
      var t := Next(After(INITIAL, run), e);
      && t.lane.scheduled == t.lane.pending.Some?
      && (e.Place? ==> t.lane.pending == Some(e.p) && t.log == After(INITIAL, run).log)
      && (e.Complete? ==> t.lane.pending == After(INITIAL, run).lane.pending && e.revision !in t.lane.inFlight)
  {
    EveryRunKeepsInv(INITIAL, run);
  }

  // ---- quiescence -----------------------------------------------------------

  predicate Quiescent(s: State) {
    !s.lane.scheduled && s.lane.inFlight == map[]
  }

  /** When nothing is scheduled or in flight, the newest placement has been sent, and sent last. */
  lemma QuiescentSentTheNewest(run: seq<Event>)
    requires Possible(INITIAL, run) && Quiescent(After(INITIAL, run))
    ensures
      var s := After(INITIAL, run);
      && s.lane.pending.None?
      && (s.placed != [] <==> SentOf(s.log) != [])
      && (s.placed != [] ==> Last(SentOf(s.log)) == Last(s.placed))
  {
    EveryRunKeepsInv(INITIAL, run);
  }

  /** How far a lane is from quiescence once nothing more is placed. */
  function Work(lane: Lane): nat {
    (if lane.pending.Some? then 3 else 0) + (if lane.scheduled then 1 else 0) + 2 * |lane.inFlight|
  }

  /**
   * Without new placements every step brings the lane closer to quiescence, and
   * some step is possible until it is reached: no placement waits forever on a
   * lane whose calls complete.
   */
  lemma LanesSettle(s: State, e: Event)
    requires Inv(s) && Enabled(s, e) && !e.Place?
    ensures Work(Next(s, e).lane) < Work(s.lane)
  {
    if e.Complete? {
      var left := s.lane.inFlight - {e.revision};
      assert left.Keys == s.lane.inFlight.Keys - {e.revision};
      assert |left.Keys| == |left| && |s.lane.inFlight.Keys| == |s.lane.inFlight|;
    }
  }

  lemma SomeStepUntilQuiescent(s: State)
    requires Inv(s)
    ensures Quiescent(s) <==> forall e: Event :: Enabled(s, e) ==> e.Place?
  {
    if !Quiescent(s) {
      if s.lane.scheduled {
        assert Enabled(s, Microtask);
      } else {
        var revision :| revision in s.lane.inFlight;
        assert Enabled(s, Complete(revision));
      }
    }
  }

  // ---- the receiving side ---------------------------------------------------

  /** The native side keeps the placement with the highest revision. */
  function Receive(current: Option<Placement>, p: Placement): Option<Placement> {
    if current.None? || p.revision > current.value.revision then Some(p) else current
  }

  function ReceiveAll(arrivals: seq<Placement>): Option<Placement> {
    if arrivals == [] then None
    else Receive(ReceiveAll(arrivals[..|arrivals| - 1]), Last(arrivals))
  }

  /** The same calls, in whatever order they take effect. */
  ghost predicate Reordering(arrivals: seq<Placement>, sent: seq<Placement>) {
    forall p :: p in arrivals <==> p in sent
  }

  lemma {:induction false} ReceiveAllIsNewest(arrivals: seq<Placement>)
    requires arrivals != []
    ensures ReceiveAll(arrivals).Some?
    ensures ReceiveAll(arrivals).value in arrivals
    ensures forall p :: p in arrivals ==> p.revision <= ReceiveAll(arrivals).value.revision
  {
    var before := arrivals[..|arrivals| - 1];
    assert arrivals == before + [Last(arrivals)];
    if before != [] {
      ReceiveAllIsNewest(before);
    }
  }

  lemma ReorderingOfNothing(arrivals: seq<Placement>)
    requires Reordering(arrivals, [])
    ensures arrivals == []
  {
    if arrivals != [] {
      ReceiveAllIsNewest(arrivals);
    }
  }

  lemma NewestOfIncreasing(arrivals: seq<Placement>, sent: seq<Placement>)
    requires Increasing(sent) && sent != [] && Reordering(arrivals, sent)
    ensures ReceiveAll(arrivals) == Some(Last(sent))
  {
    assert Last(sent) in sent;
    assert Last(sent) in arrivals;
    ReceiveAllIsNewest(arrivals);
    var got := ReceiveAll(arrivals).value;
    var i :| 0 <= i < |sent| && sent[i] == got;
  }

  /**
   * Coalescing is invisible at rest: whatever order the sent calls take effect
   * in, the native page ends where it would have ended had every placement been
   * sent at once, in any order.
   */
  lemma CoalescingRefinesImmediateSending(run: seq<Event>, coalesced: seq<Placement>, immediate: seq<Placement>)
    requires Possible(INITIAL, run) && Quiescent(After(INITIAL, run))
    requires Reordering(coalesced, SentOf(After(INITIAL, run).log))
    requires Reordering(immediate, After(INITIAL, run).placed)
    ensures ReceiveAll(coalesced) == ReceiveAll(immediate)
    ensures After(INITIAL, run).placed != [] ==> ReceiveAll(coalesced) == Some(Last(After(INITIAL, run).placed))
  {
    var s := After(INITIAL, run);
    EveryRunKeepsInv(INITIAL, run);
    QuiescentSentTheNewest(run);
    if s.placed == [] {
      ReorderingOfNothing(coalesced);
      ReorderingOfNothing(immediate);
    } else {
      NewestOfIncreasing(coalesced, SentOf(s.log));
      NewestOfIncreasing(immediate, s.placed);
    }
  }

  // ---- keys -----------------------------------------------------------------

  predicate NulFree(text: string) {
    '\0' !in text
  }

  lemma {:induction false} FirstNul(a: string, b: string, x: string, y: string)
    requires NulFree(a) && NulFree(b) && a + NUL + x == b + NUL + y
    ensures a == b && x == y
  {
    var left := a + NUL + x;
    var right := b + NUL + y;
    assert left[0] == right[0];
    if a != "" && b != "" {
      assert left[1..] == a[1..] + NUL + x && right[1..] == b[1..] + NUL + y;
      FirstNul(a[1..], b[1..], x, y);
    } else {
      assert x == left[|a| + 1..] && y == right[|b| + 1..];
    }
  }

  /** Two placements share an owner string exactly when task, tab and visibility agree. */
  lemma OwnersAreDistinct(p: Placement, q: Placement)
    requires NulFree(p.task) && NulFree(p.tab) && NulFree(q.task) && NulFree(q.tab)
    ensures Owner(p) == Owner(q) <==> p.task == q.task && p.tab == q.tab && p.bounds.Some? == q.bounds.Some?
  {
    if Owner(p) == Owner(q) {
      var tailP := p.tab + NUL + (if p.bounds.Some? then "shown" else "hidden");
      var tailQ := q.tab + NUL + (if q.bounds.Some? then "shown" else "hidden");
      assert Owner(p) == p.task + NUL + tailP && Owner(q) == q.task + NUL + tailQ;
      FirstNul(p.task, q.task, tailP, tailQ);
      FirstNul(p.tab, q.tab, if p.bounds.Some? then "shown" else "hidden", if q.bounds.Some? then "shown" else "hidden");
      assert |"shown"| == 5 && |"hidden"| == 6;
    }
  }

  /** The pane and the popout are one lane each; every deck tab has its own. */
  lemma LanesAreDistinct(s1: Slot, t1: string, s2: Slot, t2: string)
    ensures LaneKey(s1, t1) == LaneKey(s2, t2) <==> s1 == s2 && (s1.Deck? ==> t1 == t2)
  {
    if s1.Deck? {
      assert LaneKey(s1, t1)[4] == '\0' && LaneKey(s1, t1)[5..] == t1;
    }
    if s2.Deck? {
      assert LaneKey(s2, t2)[4] == '\0' && LaneKey(s2, t2)[5..] == t2;
    }
    assert "popout"[4] == 'u' && "pane"[1] == 'a' && "deck"[0] == 'd';
  }

  // ---- the coordinator ------------------------------------------------------

  /** The window's ordering clock, shared by every coordinator. */
  class PlacementClock {
    const session: nat
    var revision: nat

    constructor (session: nat)
      ensures this.session == session && revision == 0
    {
      this.session := session;
      revision := 0;
    }

    method NextPlacementOrder() returns (order: nat)
      modifies this
      ensures order == revision == old(revision) + 1
    {
      revision := revision + 1;
      order := revision;
    }
  }

  class PlacementLane {
    var scheduled: bool
    var lastOwner: Option<string>
    var inFlight: map<nat, string>
    var pending: Option<Placement>

    constructor ()
      ensures View() == EMPTY_LANE
    {
      scheduled, lastOwner, inFlight, pending := false, None, map[], None;
    }

    function View(): Lane
      reads this
    {
      Lane(scheduled, lastOwner, inFlight, pending)
    }

    method Schedule()
      modifies this
      ensures View() == Scheduled(old(View()))
    {
      if scheduled || pending.None? {
        return;
      }
      scheduled := true;
    }

    /** The queued microtask; the placement it returns goes to the writer. */
    method Drain() returns (sends: Option<Placement>)
      modifies this
      ensures View() == Drained(old(View())) && sends == Sends(old(View()))
    {
      scheduled := false;
      sends := None;
      if pending.Some? {
        var placement := pending.value;
        var owner := Owner(placement);
        var sameOwnerInFlight := owner in inFlight.Values;
        if !(lastOwner == Some(owner) && sameOwnerInFlight) {
          pending := None;
          lastOwner := Some(owner);
          inFlight := inFlight[placement.revision := owner];
          sends := Some(placement);
        }
      }
    }

    /** The `finally` of the writer's promise. */
    method Complete(revision: nat)
      modifies this
      ensures View() == Completed(old(View()), revision)
    {
      inFlight := inFlight - {revision};
      Schedule();
    }
  }

  class BrowserBoundsCoordinator {
    const clock: PlacementClock
    var lanes: map<string, PlacementLane>

    constructor (clock: PlacementClock)
      ensures Valid() && this.clock == clock && lanes == map[]
    {
      this.clock := clock;
      lanes := map[];
    }

    /** Lanes are distinct objects, one per key. */
    ghost predicate Valid()
      reads this
    {
      forall k, l :: k in lanes && l in lanes && k != l ==> lanes[k] != lanes[l]
    }

    /** The lane of a key; a key never placed has the empty lane. */
    function View(key: string): Lane
      reads this, lanes.Values
    {
      if key in lanes then lanes[key].View() else EMPTY_LANE
    }

    /** Touches the placement's own lane only, with a revision newer than any drawn before. */
    method Place(task: string, tab: string, bounds: Option<Bounds>, slot: Slot)
      requires Valid()
      modifies this, clock, lanes.Values
      ensures Valid() && clock.revision == old(clock.revision) + 1
      ensures
        View(LaneKey(slot, tab)) ==
        Placed(old(View(LaneKey(slot, tab))), Placement(task, tab, bounds, slot, clock.session, clock.revision))
      ensures forall other: string :: other != LaneKey(slot, tab) ==> View(other) == old(View(other))
      ensures fresh(lanes.Values - old(lanes.Values))
    {
      var key := LaneKey(slot, tab);
      var lane: PlacementLane;
      if key in lanes {
        lane := lanes[key];
      } else {
        lane := new PlacementLane();
      }
      var order := clock.NextPlacementOrder();
      lane.pending := Some(Placement(task, tab, bounds, slot, clock.session, order));
      lanes := lanes[key := lane];
      lane.Schedule();
    }
  }
}
