/**
 * The queued-message drain of one active task
 * (apps/desktop/src/App.tsx:6268-6439), without Send now.
 */
module QueueDrain {
  // An effect run reads what the renderer last drew, which may lag the store in
  // any way, and may arm one zero-delay timer. The timer dispatches: the message
  // is marked in the store, its turn is sent, and then it is taken.

  import opened Common
  import opened Sorting

  datatype Phase = Waiting | Dispatching

  datatype Message = Message(id: string, position: int, phase: Phase)

  datatype Status = Pending | InProgress | Completed | Failed | Interrupted

  datatype Turn = Turn(id: string, status: Status)

  /** What one render shows the effect: the task's queue and its projected turn. */
  datatype Rendered = Rendered(queue: seq<Message>, turn: Option<Turn>, lastSeq: int, optimistic: bool)

  predicate Active(turn: Option<Turn>) {
    turn.Some? && (turn.value.status == Pending || turn.value.status == InProgress)
  }

  function IdOf(turn: Option<Turn>): Option<string> {
    if turn.Some? then Some(turn.value.id) else None
  }

  // ---- the choice of a message ------------------------------------------------

  function FirstWaiting(queue: seq<Message>): Option<Message> {
    if queue == [] then None
    else if queue[0].phase == Waiting then Some(queue[0])
    else FirstWaiting(queue[1..])
  }

  /** `activeQueuedMessages` and its first queued message. */
  function Chosen(queue: seq<Message>): Option<Message> {
    FirstWaiting(SortBy(queue, (m: Message) => m.position))
  }

  lemma {:induction false} FirstWaitingIsLowest(queue: seq<Message>)
    requires Ascending(queue, (m: Message) => m.position)
    ensures FirstWaiting(queue).None? <==> forall m :: m in queue ==> m.phase != Waiting
    ensures FirstWaiting(queue).Some? ==>
      var chosen := FirstWaiting(queue).value;
      chosen in queue && chosen.phase == Waiting
      && forall m :: m in queue && m.phase == Waiting ==> chosen.position <= m.position
  {
    if queue != [] {
      var key := (m: Message) => m.position;
      forall i | 0 <= i < |queue|
        ensures queue[0].position <= queue[i].position
      {
        assert i > 0 ==> key(queue[0]) <= key(queue[i]);
      }
      assert queue == [queue[0]] + queue[1..];
      FirstWaitingIsLowest(queue[1..]);
    }
  }

  /** The drained message has the lowest position of those waiting; there is none only when none waits. */
  lemma ChosenIsLowest(queue: seq<Message>)
    ensures Chosen(queue).None? <==> forall m :: m in queue ==> m.phase != Waiting
    ensures Chosen(queue).Some? ==>
      var chosen := Chosen(queue).value;
      chosen in queue && chosen.phase == Waiting
      && forall m :: m in queue && m.phase == Waiting ==> chosen.position <= m.position
  {
    var key := (m: Message) => m.position;
    var sorted := SortBy(queue, key);
    SortByOrders(queue, key);
    assert forall m :: m in queue <==> m in multiset(sorted);
    assert forall m :: m in sorted <==> m in multiset(sorted);
    FirstWaitingIsLowest(sorted);
  }

  // ---- the refs ---------------------------------------------------------------

  /**
   * `awaiting` holds the turn id that the started turn must differ from,
   * `waitingAfter` the sequence number at which a send was refused, and `busy`
   * the message some queue operation is working on.
   */
  datatype Refs = Refs(awaiting: Option<Option<string>>, waitingAfter: Option<int>, paused: bool, busy: Option<string>)

  /** The started turn is visible: active, and not the one seen when it was sent. */
  predicate ShowsNewTurn(turn: Option<Turn>, previous: Option<string>) {
    Active(turn) && IdOf(turn) != previous
  }

  /** A refused send may be repeated: its turn is visible, or over. */
  predicate ShowsRefusal(r: Rendered, waitingAfter: int) {
    Active(r.turn) || r.lastSeq > waitingAfter
  }

  predicate HeldByStart(refs: Refs, r: Rendered) {
    refs.awaiting.Some? && !ShowsNewTurn(r.turn, refs.awaiting.value)
  }

  predicate HeldByRefusal(refs: Refs, r: Rendered) {
    refs.waitingAfter.Some? && !ShowsRefusal(r, refs.waitingAfter.value)
  }

  function RefsAfterRun(refs: Refs, r: Rendered): Refs {
    if HeldByStart(refs, r) then refs
    else if HeldByRefusal(refs, r) then refs.(awaiting := None)
    else refs.(awaiting := None, waitingAfter := None)
  }

  /** The message for which an effect run arms the timer. */
  function Scheduled(refs: Refs, r: Rendered): Option<Message> {
    if HeldByStart(refs, r) || HeldByRefusal(refs, r) || Active(r.turn) || r.optimistic || refs.paused || refs.busy.Some?
    then None
    else Chosen(r.queue)
  }

  function Begun(refs: Refs, id: string): Refs {
    if refs.busy.Some? then refs else refs.(busy := Some(id))
  }

  /** The message with what its closure captured; `run` is the log position of the effect run that chose it. */
  datatype Job = Job(id: string, previous: Option<string>, lastSeq: int, run: nat)

  datatype Outcome = TurnStarted | TurnActive | TurnFailed

  /** What a dispatch learns: how its send ended, or that it is over. */
  datatype Reply = Sent(outcome: Outcome) | Over

  function RefsAfterReply(refs: Refs, job: Job, reply: Reply): Refs {
    match reply
    case Sent(TurnStarted) => refs.(awaiting := Some(job.previous))
    case Sent(TurnActive) => refs.(waitingAfter := Some(job.lastSeq))
    case Sent(TurnFailed) => refs
    case Over => refs.(busy := None)
  }

  class DrainRefs {
    var awaiting: Option<Option<string>>
    var waitingAfter: Option<int>
    var paused: bool
    var busy: Option<string>

    constructor ()
      ensures View() == Refs(None, None, false, None)
    {
      awaiting, waitingAfter, paused, busy := None, None, false, None;
    }

    function View(): Refs
      reads this
    {
      Refs(awaiting, waitingAfter, paused, busy)
    }

    /** The effect body, past the guards that the projection is this task's. */
    method RunEffect(r: Rendered) returns (message: Option<Message>)
      modifies this
      ensures View() == RefsAfterRun(old(View()), r)
      ensures message == Scheduled(old(View()), r)
    {
      if awaiting.Some? {
        if Active(r.turn) && IdOf(r.turn) != awaiting.value {
          awaiting := None;
        } else {
          return None;
        }
      }
      if waitingAfter.Some? {
        var projectionAdvanced := r.lastSeq > waitingAfter.value;
        var terminalProjection := r.turn.None? || r.turn.value.status in {Completed, Failed, Interrupted};
        if Active(r.turn) || (projectionAdvanced && terminalProjection) {
          waitingAfter := None;
        } else {
          return None;
        }
      }
      if Active(r.turn) || r.optimistic || paused || busy.Some? {
        return None;
      }
      var sorted := SortBy(r.queue, (m: Message) => m.position);
      message := None;
      var i := 0;
      while i < |sorted| && message.None?
        invariant 0 <= i <= |sorted|
        invariant FirstWaiting(sorted) == if message.Some? then message else FirstWaiting(sorted[i..])
      {
        if sorted[i].phase == Waiting {
          message := Some(sorted[i]);
        }
        i := i + 1;
      }
      assert i == |sorted| ==> sorted[i..] == [];
    }

    /** `dispatchQueuedMessage` up to its first call, which is made when `begins`. */
    method Dispatch(id: string) returns (begins: bool)
      modifies this
      ensures begins <==> old(View()).busy.None?
      ensures View() == Begun(old(View()), id)
    {
      if busy.Some? {
        return false;
      }
      busy := Some(id);
      begins := true;
    }

    /**
     * `dispatchQueuedMessage` after its send, and its `finally` block. A started
     * turn, or the one that refused the send, keeps every effect run from choosing a
     * message until that run sees it; once over, the next dispatch can begin.
     */
    method OnReply(job: Job, reply: Reply)
      modifies this
      ensures View() == RefsAfterReply(old(View()), job, reply)
      ensures reply == Sent(TurnStarted) ==>
                forall r: Rendered :: !ShowsNewTurn(r.turn, job.previous) ==> Scheduled(View(), r).None?
      ensures reply == Sent(TurnActive) ==>
                forall r: Rendered :: !ShowsRefusal(r, job.lastSeq) ==> Scheduled(View(), r).None?
      ensures reply == Over ==> forall id: string :: Begun(View(), id).busy == Some(id)
    {
      match reply {
        case Sent(TurnStarted) =>
          awaiting := Some(job.previous);
        case Sent(TurnActive) =>
          waitingAfter := Some(job.lastSeq);
        case Sent(TurnFailed) =>
        case Over =>
          busy := None;
      }
    }
  }

  // ---- the protocol ------------------------------------------------------------

  /** Where a dispatch is suspended. `Holding` and `Reverting` put the message back in the queue. */
  datatype Stage = Marking | Sending | Holding | Taking | Refreshing | Reverting

  datatype Flight = Flight(job: Job, stage: Stage)

  datatype Entry =
    | Ran(rendered: Rendered)
    | Started(job: Job)
    /** The send was refused because a turn is active. */
    | Refused(job: Job)
    /** The composer recorded a refusal of its own, or withdrew it. */
    | ComposerWrote
    | TakeFailed(id: string)
    | Paused
    | Unpaused

  /** `stored` is the native queue, `known` every id it ever gave out. */
  datatype State = State(refs: Refs, timer: Option<Job>, flight: Option<Flight>, stored: set<string>, known: set<string>, log: seq<Entry>)

  const INITIAL := State(Refs(None, None, false, None), None, None, {}, {}, [])

  datatype Event =
    /** An effect run; `ready` says that the shown projection is this task's. */
    | Effect(ready: bool, rendered: Rendered)
    | Fire
    | MarkReply(ok: bool)
    | SendReply(outcome: Outcome)
    | HoldReply(ok: bool)
    | TakeReply(ok: bool)
    | RefreshReply
    | RevertReply
    | Enqueue(id: string)
    | Remove(id: string)
    | Pause
    | Unpause
    | OtherBegins(id: string)
    | OtherEnds
    | ComposerRefused(lastSeq: int)
    | ComposerGaveUp

  predicate At(s: State, stage: Stage) {
    s.flight.Some? && s.flight.value.stage == stage
  }

  /** A render may lag the store in any way, but shows only messages that the store once gave out. */
  predicate Remembered(s: State, queue: seq<Message>) {
    forall m :: m in queue ==> m.id in s.known
  }

  predicate Enabled(s: State, e: Event) {
    match e
    case Fire => s.timer.Some?
    case MarkReply(_) => At(s, Marking)
    case SendReply(_) => At(s, Sending)
    case HoldReply(_) => At(s, Holding)
    case TakeReply(_) => At(s, Taking)
    case RefreshReply => At(s, Refreshing)
    case RevertReply => At(s, Reverting)
    case Enqueue(id) => id !in s.known
    case Effect(ready, r) => ready ==> Remembered(s, r.queue)
    case OtherBegins(_) => s.refs.busy.None?
    case OtherEnds => s.refs.busy.Some? && s.flight.None?
    case _ => true
  }

  function Logged(s: State, entry: Entry): State {
    s.(log := s.log + [entry])
  }

  function Move(s: State, stage: Stage): State
    requires s.flight.Some?
  {
    s.(flight := Some(s.flight.value.(stage := stage)))
  }

  function Settled(s: State): State
    requires s.flight.Some?
  {
    s.(flight := None, refs := RefsAfterReply(s.refs, s.flight.value.job, Over))
  }

  /** Every effect run first clears the timer of the run before it. */
  function AfterEffect(s: State, ready: bool, r: Rendered): State {
    if !ready then s.(timer := None)
    else
      var message := Scheduled(s.refs, r);
      var timer := if message.Some? then Some(Job(message.value.id, IdOf(r.turn), r.lastSeq, |s.log|)) else None;
      Logged(s.(refs := RefsAfterRun(s.refs, r), timer := timer), Ran(r))
  }

  function AfterFire(s: State): State
    requires s.timer.Some?
  {
    var job := s.timer.value;
    s.(timer := None,
       refs := Begun(s.refs, job.id),
       flight := if s.refs.busy.Some? then s.flight else Some(Flight(job, Marking)))
  }

  function AfterSend(s: State, outcome: Outcome): State
    requires At(s, Sending)
  {
    var job := s.flight.value.job;
    var t := s.(refs := RefsAfterReply(s.refs, job, Sent(outcome)));
    match outcome
    case TurnStarted => Logged(Move(t, Taking), Started(job))
    case TurnActive => Logged(Move(t, Holding), Refused(job))
    case TurnFailed => Move(t, Reverting)
  }

  function AfterTake(s: State, ok: bool): State
    requires At(s, Taking)
  {
    var id := s.flight.value.job.id;
    if ok && id in s.stored then Move(s.(stored := s.stored - {id}), Refreshing)
    else Logged(Move(s, Reverting), TakeFailed(id))
  }

  function Next(s: State, e: Event): State
    requires Enabled(s, e)
  {
    match e
    case Effect(ready, r) => AfterEffect(s, ready, r)
    case Fire => AfterFire(s)
    case MarkReply(ok) => Move(s, if ok && s.flight.value.job.id in s.stored then Sending else Reverting)
    case SendReply(outcome) => AfterSend(s, outcome)
    case HoldReply(ok) => if ok then Settled(s) else Move(s, Reverting)
    case TakeReply(ok) => AfterTake(s, ok)
    case RefreshReply => Settled(s)
    case RevertReply => Settled(s)
    case Enqueue(id) => s.(stored := s.stored + {id}, known := s.known + {id})
    case Remove(id) => s.(stored := s.stored - {id})
    case Pause => Logged(s.(refs := s.refs.(paused := true)), Paused)
    case Unpause => Logged(s.(refs := s.refs.(paused := false)), Unpaused)
    case OtherBegins(id) => s.(refs := s.refs.(busy := Some(id)))
    case OtherEnds => s.(refs := s.refs.(busy := None))
    case ComposerRefused(lastSeq) => Logged(s.(refs := s.refs.(waitingAfter := Some(lastSeq))), ComposerWrote)
    case ComposerGaveUp => Logged(s.(refs := s.refs.(waitingAfter := None)), ComposerWrote)
  }

  predicate Possible(s: State, run: seq<Event>)
    decreases |run|
  {
    run == [] || (Enabled(s, run[0]) && Possible(Next(s, run[0]), run[1..]))
  }

  function After(s: State, run: seq<Event>): State
    requires Possible(s, run)
    decreases |run|
  {
    if run == [] then s else After(Next(s, run[0]), run[1..])
  }

  // ---- what each step does ------------------------------------------------------

  predicate SameStore(s: State, t: State) {
    t.stored == s.stored && t.known == s.known
  }

  /**
   * An effect run for the shown task forgets a started turn once it sees an active
   * one with another id, and a refused send once, past that, it sees an active turn
   * or a later projection. It arms the timer exactly when neither is left, no turn
   * is active or being started, the queue is neither paused nor busy and some
   * message waits: then for a waiting one of the lowest position.
   */
  lemma EffectExactly(s: State, r: Rendered)
    requires Enabled(s, Effect(true, r))
    ensures
      var t := Next(s, Effect(true, r));
      var active := r.turn.Some? && (r.turn.value.status == Pending || r.turn.value.status == InProgress);
      var startSeen := s.refs.awaiting.Some? ==> active && s.refs.awaiting.value != Some(r.turn.value.id);
      var refusalSeen := s.refs.waitingAfter.Some? ==> active || r.lastSeq > s.refs.waitingAfter.value;
      && t.refs.awaiting == (if startSeen then None else s.refs.awaiting)
      && t.refs.waitingAfter == (if startSeen && refusalSeen then None else s.refs.waitingAfter)
      && t.refs.paused == s.refs.paused && t.refs.busy == s.refs.busy && t.flight == s.flight && SameStore(s, t)
      && (t.timer.Some? <==>
            && startSeen && refusalSeen && !active && !r.optimistic && !s.refs.paused && s.refs.busy.None?
            && exists m :: m in r.queue && m.phase == Waiting)
      && (t.timer.Some? ==>
            && t.timer.value.previous == (if r.turn.Some? then Some(r.turn.value.id) else None)
            && t.timer.value.lastSeq == r.lastSeq
            && exists m :: m in r.queue && m.phase == Waiting && m.id == t.timer.value.id
                 && forall other :: other in r.queue && other.phase == Waiting ==> m.position <= other.position)
  {
    ChosenIsLowest(r.queue);
  }

  /** An effect run before the task's projection is shown only drops the timer. */
  lemma UnreadyEffect(s: State, r: Rendered)
    ensures Next(s, Effect(false, r)) == s.(timer := None)
  {
  }

  /** A timer that fires begins the dispatch of its message, unless a queue operation is busy. */
  lemma FireExactly(s: State)
    requires Enabled(s, Fire)
    ensures
      var t := Next(s, Fire);
      && t.timer.None? && SameStore(s, t) && t.log == s.log
      && if s.refs.busy.None?
         then t.refs == Refs(s.refs.awaiting, s.refs.waitingAfter, s.refs.paused, Some(s.timer.value.id))
              && t.flight == Some(Flight(s.timer.value, Marking))
         else t.refs == s.refs && t.flight == s.flight
  {
  }

  /** A dispatch marks its message, sends it, takes it and refreshes; whatever fails on the way unmarks it. */
  lemma DispatchStages(s: State, e: Event)
    requires Enabled(s, e) && (e.MarkReply? || e.SendReply? || e.HoldReply? || e.TakeReply?)
    ensures
      var t, job := Next(s, e), s.flight.value.job;
      var held := job.id in s.stored;
      && t.known == s.known && t.timer == s.timer && t.refs.paused == s.refs.paused
      && (t.flight.Some? ==> t.flight.value.job == job)
      && match e
         case MarkReply(ok) => t.flight == Some(Flight(job, if ok && held then Sending else Reverting)) && t.refs == s.refs && t.stored == s.stored
         case SendReply(outcome) =>
           && t.stored == s.stored && t.refs.busy == s.refs.busy
           && t.flight == Some(Flight(job, match outcome case TurnStarted => Taking case TurnActive => Holding case TurnFailed => Reverting))
           && t.refs.awaiting == (if outcome.TurnStarted? then Some(job.previous) else s.refs.awaiting)
           && t.refs.waitingAfter == (if outcome.TurnActive? then Some(job.lastSeq) else s.refs.waitingAfter)
         case HoldReply(ok) =>
           && t.stored == s.stored
           && if ok then t.flight.None? && t.refs.busy.None? else t.flight == Some(Flight(job, Reverting)) && t.refs == s.refs
         case TakeReply(ok) =>
           && t.refs == s.refs && t.stored == (if ok then s.stored - {job.id} else s.stored)
           && t.flight == Some(Flight(job, if ok && held then Refreshing else Reverting))
  {
  }

  /** The end of a dispatch frees the queue; the holds stay. */
  lemma DispatchEnds(s: State, e: Event)
    requires Enabled(s, e) && (e.RefreshReply? || e.RevertReply?)
    ensures
      Next(s, e) ==
      s.(flight := None, refs := Refs(s.refs.awaiting, s.refs.waitingAfter, s.refs.paused, None))
  {
  }

  /** The store, the user and the composer. */
  lemma OutsideSteps(s: State, e: Event)
    requires Enabled(s, e)
    ensures
      var t := Next(s, e);
      match e
      case Enqueue(id) => id in t.stored && id in t.known && t.refs == s.refs && t.flight == s.flight && t.timer == s.timer
                          && (forall o :: o != id ==> (o in t.stored <==> o in s.stored))
      case Remove(id) => t.refs == s.refs && t.flight == s.flight && t.timer == s.timer && t.known == s.known
                         && forall o :: o in t.stored <==> o in s.stored && o != id
      case Pause => t.refs.paused && t.refs.busy == s.refs.busy && t.timer == s.timer && t.flight == s.flight
      case Unpause => !t.refs.paused && t.refs.busy == s.refs.busy && t.timer == s.timer && t.flight == s.flight
      case OtherBegins(id) => t.refs.busy == Some(id) && t.flight == s.flight && SameStore(s, t)
      case OtherEnds => t.refs.busy.None? && t.refs.paused == s.refs.paused && SameStore(s, t)
      case ComposerRefused(lastSeq) => t.refs.waitingAfter == Some(lastSeq) && t.refs.awaiting == s.refs.awaiting && SameStore(s, t)
      case ComposerGaveUp => t.refs.waitingAfter.None? && t.refs.awaiting == s.refs.awaiting && SameStore(s, t)
      case _ => true
  {
  }

  // ---- what holds after every run ----------------------------------------------

  /** The pause flag as the first `n` log entries leave it. */
  predicate PausedAt(log: seq<Entry>, n: nat)
    requires n <= |log|
  {
    n > 0 && log[n - 1] != Unpaused && (log[n - 1] == Paused || PausedAt(log, n - 1))
  }

  /** After the start at `i`, some effect run saw an active turn with a new id. */
  ghost predicate SawItsTurn(log: seq<Entry>, i: nat) {
    exists a :: 0 <= i < a < |log| && SeesNew(log, i, a)
  }

  predicate SeesNew(log: seq<Entry>, i: nat, a: nat) {
    i < |log| && a < |log| && log[i].Started? && log[a].Ran? && ShowsNewTurn(log[a].rendered.turn, log[i].job.previous)
  }

  /** What ends the wait after the refusal at `i`: its turn is visible or over, or the composer wrote over the hold. */
  predicate EndsRefusal(log: seq<Entry>, i: nat, a: nat) {
    && i < |log| && a < |log| && log[i].Refused?
    && (log[a] == ComposerWrote || (log[a].Ran? && ShowsRefusal(log[a].rendered, log[i].job.lastSeq)))
  }

  ghost predicate RefusalEnded(log: seq<Entry>, i: nat, j: nat) {
    exists a :: 0 <= i < a < j && EndsRefusal(log, i, a)
  }

  predicate SeesIdle(log: seq<Entry>, b: nat) {
    b < |log| && log[b].Ran? && !Active(log[b].rendered.turn)
  }

  /** ... and a later run, before position `j`, saw no active turn. */
  ghost predicate SawItEnd(log: seq<Entry>, i: nat, j: nat) {
    exists a, b :: i < a < b < j && SeesNew(log, i, a) && SeesIdle(log, b)
  }

  /** The job is what the effect run at `job.run` chose, and that run saw the queue neither paused nor a turn active. */
  predicate WellChosen(log: seq<Entry>, job: Job) {
    && job.run < |log| && log[job.run].Ran? && !PausedAt(log, job.run)
    && var r := log[job.run].rendered;
       && !Active(r.turn) && !r.optimistic && job.previous == IdOf(r.turn) && job.lastSeq == r.lastSeq
       && Chosen(r.queue).Some? && job.id == Chosen(r.queue).value.id
  }

  ghost predicate TakeFailedSince(log: seq<Entry>, i: nat, id: string) {
    exists k :: i < k < |log| && log[k] == TakeFailed(id)
  }

  predicate MayStart(s: State) {
    s.timer.Some? || At(s, Marking) || At(s, Sending)
  }

  /** Only one dispatch or other operation at a time, and a timer only while nothing awaits a turn. */
  predicate OneJob(s: State) {
    && (s.flight.Some? ==> s.timer.None? && s.refs.busy == Some(s.flight.value.job.id))
    && (s.refs.awaiting.Some? ==> s.timer.None? && !At(s, Marking) && !At(s, Sending))
    && s.stored <= s.known
  }

  ghost predicate StartIsFollowed(s: State, i: nat)
    requires i < |s.log| && s.log[i].Started?
  {
    && (MayStart(s) ==> SawItEnd(s.log, i, |s.log|))
    && (s.refs.awaiting == Some(s.log[i].job.previous) || SawItsTurn(s.log, i))
    && s.log[i].job.id in s.known
  }

  ghost predicate RefusalIsHeld(s: State, i: nat)
    requires i < |s.log| && s.log[i].Refused?
  {
    || RefusalEnded(s.log, i, |s.log|)
    || (s.refs.waitingAfter == Some(s.log[i].job.lastSeq) && !MayStart(s))
  }

  ghost predicate StartIsTaken(s: State, i: nat)
    requires i < |s.log| && s.log[i].Started?
  {
    var id := s.log[i].job.id;
    || TakeFailedSince(s.log, i, id)
    || (At(s, Taking) && s.flight.value.job.id == id)
    || (id !in s.stored && !(At(s, Sending) && s.flight.value.job.id == id))
  }

  /** Two starts: the first one's turn was seen to run and end, and a repeated message means a failed take. */
  ghost predicate Separate(log: seq<Entry>, i: nat, j: nat)
    requires i < j < |log| && log[i].Started? && log[j].Started?
  {
    && SawItEnd(log, i, j)
    && (log[i].job.id == log[j].job.id ==> exists k :: i < k < j && log[k] == TakeFailed(log[i].job.id))
  }

  ghost predicate Sound(log: seq<Entry>) {
    && (forall i :: 0 <= i < |log| && log[i].Started? ==> log[i].job.run < i && WellChosen(log, log[i].job))
    && (forall i, j :: 0 <= i < j < |log| && log[i].Started? && log[j].Started? ==> Separate(log, i, j))
    && (forall i, j :: 0 <= i < j < |log| && log[i].Refused? && log[j].Started? ==> RefusalEnded(log, i, j))
  }

  ghost predicate Inv(s: State) {
    && OneJob(s)
    && s.refs.paused == PausedAt(s.log, |s.log|)
    && (s.timer.Some? ==> WellChosen(s.log, s.timer.value))
    && (At(s, Marking) || At(s, Sending) ==> WellChosen(s.log, s.flight.value.job))
    && (At(s, Sending) ==> s.flight.value.job.id in s.known)
    && (forall i :: 0 <= i < |s.log| && s.log[i].Started? ==> StartIsFollowed(s, i))
    && (forall i :: 0 <= i < |s.log| && s.log[i].Started? ==> StartIsTaken(s, i))
    && (forall i :: 0 <= i < |s.log| && s.log[i].Refused? ==> RefusalIsHeld(s, i))
    && Sound(s.log)
  }

  // ---- its proof -----------------------------------------------------------------

  lemma {:induction false} PausedAtGrows(log: seq<Entry>, more: Entry, n: nat)
    requires n <= |log|
    ensures PausedAt(log + [more], n) == PausedAt(log, n)
  {
    if n > 0 {
      PausedAtGrows(log, more, n - 1);
    }
  }

  lemma ChoiceGrows(log: seq<Entry>, more: Entry, job: Job)
    requires WellChosen(log, job)
    ensures WellChosen(log + [more], job)
  {
    PausedAtGrows(log, more, job.run);
  }

  lemma SeenGrows(log: seq<Entry>, more: Entry, i: nat)
    ensures SawItsTurn(log, i) ==> SawItsTurn(log + [more], i)
    ensures SawItEnd(log, i, |log|) ==> SawItEnd(log + [more], i, |log|)
    ensures SawItEnd(log, i, |log|) ==> SawItEnd(log + [more], i, |log| + 1)
    ensures forall id :: TakeFailedSince(log, i, id) ==> TakeFailedSince(log + [more], i, id)
  {
    var all := log + [more];
    if SawItsTurn(log, i) {
      var a :| 0 <= i < a < |log| && SeesNew(log, i, a);
      assert SeesNew(all, i, a);
    }
    if SawItEnd(log, i, |log|) {
      var a, b :| i < a < b < |log| && SeesNew(log, i, a) && SeesIdle(log, b);
      assert SeesNew(all, i, a) && SeesIdle(all, b);
    }
    forall id | TakeFailedSince(log, i, id)
      ensures TakeFailedSince(all, i, id)
    {
      var k :| i < k < |log| && log[k] == TakeFailed(id);
      assert all[k] == TakeFailed(id);
    }
  }

  lemma RefusalGrows(log: seq<Entry>, more: Entry, i: nat, j: nat)
    requires j <= |log|
    ensures RefusalEnded(log, i, j) ==> RefusalEnded(log + [more], i, j) && RefusalEnded(log + [more], i, j + 1)
  {
    if RefusalEnded(log, i, j) {
      var a :| 0 <= i < a < j && EndsRefusal(log, i, a);
      assert EndsRefusal(log + [more], i, a);
    }
  }

  /** Refusals stay held while the hold does, and stay ended. */
  lemma RefusalsLogged(s: State, t: State, more: Entry)
    requires forall i :: 0 <= i < |s.log| && s.log[i].Refused? ==> RefusalIsHeld(s, i)
    requires t.log == s.log + [more] && !more.Refused?
    requires MayStart(t) ==> MayStart(s) || more.Ran?
    requires t.refs.waitingAfter != s.refs.waitingAfter || (MayStart(t) && !MayStart(s)) ==>
               more == ComposerWrote
               || (more.Ran? && (s.refs.waitingAfter.Some? ==> ShowsRefusal(more.rendered, s.refs.waitingAfter.value)))
    ensures forall i :: 0 <= i < |t.log| && t.log[i].Refused? ==> RefusalIsHeld(t, i)
  {
    forall i | 0 <= i < |t.log| && t.log[i].Refused?
      ensures RefusalIsHeld(t, i)
    {
      assert t.log[i] == s.log[i] && RefusalIsHeld(s, i);
      RefusalGrows(s.log, more, i, |s.log|);
      if !RefusalEnded(s.log, i, |s.log|) && !RefusalIsHeld(t, i) {
        assert EndsRefusal(t.log, i, |s.log|);
      }
    }
  }

  lemma SeparateGrows(log: seq<Entry>, more: Entry, i: nat, j: nat)
    requires i < j < |log| && log[i].Started? && log[j].Started? && Separate(log, i, j)
    ensures Separate(log + [more], i, j)
  {
    var all := log + [more];
    var a, b :| i < a < b < j && SeesNew(log, i, a) && SeesIdle(log, b);
    assert SeesNew(all, i, a) && SeesIdle(all, b);
    if log[i].job.id == log[j].job.id {
      var k :| i < k < j && log[k] == TakeFailed(log[i].job.id);
      assert all[k] == TakeFailed(log[i].job.id);
    }
  }

  /** An entry that starts nothing keeps the log sound. */
  lemma SoundGrows(log: seq<Entry>, more: Entry)
    requires Sound(log) && !more.Started?
    ensures Sound(log + [more])
  {
    var all := log + [more];
    forall i | 0 <= i < |all| && all[i].Started?
      ensures all[i].job.run < i && WellChosen(all, all[i].job)
    {
      assert all[i] == log[i];
      ChoiceGrows(log, more, log[i].job);
    }
    forall i, j | 0 <= i < j < |all| && all[i].Started? && all[j].Started?
      ensures Separate(all, i, j)
    {
      assert all[i] == log[i] && all[j] == log[j];
      SeparateGrows(log, more, i, j);
    }
    forall i, j | 0 <= i < j < |all| && all[i].Refused? && all[j].Started?
      ensures RefusalEnded(all, i, j)
    {
      assert all[i] == log[i] && all[j] == log[j];
      RefusalGrows(log, more, i, j);
    }
  }

  lemma InvLogged(s: State, t: State, more: Entry)
    requires Inv(s) && !more.Started? && !more.Refused?
    requires t == Logged(s, more).(refs := s.refs.(paused := t.refs.paused, waitingAfter := t.refs.waitingAfter))
    requires t.refs.waitingAfter == s.refs.waitingAfter || more == ComposerWrote
    requires more == Paused || more == Unpaused || t.refs.paused == s.refs.paused
    requires more == Paused ==> t.refs.paused
    requires more == Unpaused ==> !t.refs.paused
    ensures Inv(t)
  {
    SoundGrows(s.log, more);
    PausedAtGrows(s.log, more, |s.log|);
    if s.timer.Some? {
      ChoiceGrows(s.log, more, s.timer.value);
    }
    if s.flight.Some? && WellChosen(s.log, s.flight.value.job) {
      ChoiceGrows(s.log, more, s.flight.value.job);
    }
    forall i | 0 <= i < |t.log| && t.log[i].Started?
      ensures StartIsFollowed(t, i) && StartIsTaken(t, i)
    {
      assert t.log[i] == s.log[i];
      assert StartIsFollowed(s, i) && StartIsTaken(s, i);
      SeenGrows(s.log, more, i);
    }
    RefusalsLogged(s, t, more);
  }

  /** A step that writes no log entry and cannot start a message sooner. */
  lemma InvQuiet(s: State, t: State)
    requires Inv(s) && OneJob(t)
    requires t.log == s.log && t.refs == s.refs.(busy := t.refs.busy)
    requires s.known <= t.known && forall id :: id in t.stored && id !in s.stored ==> id !in s.known
    requires MayStart(t) ==> MayStart(s)
    requires t.timer.Some? ==> WellChosen(s.log, t.timer.value)
    requires At(t, Marking) || At(t, Sending) ==> WellChosen(t.log, t.flight.value.job)
    requires At(t, Sending) ==> t.flight.value.job.id in t.known
    requires At(t, Sending) && !At(s, Sending) ==> t.flight.value.job.id in s.stored && !At(s, Taking)
    requires At(s, Sending) && At(t, Sending) ==> s.flight == t.flight
    requires At(s, Taking) ==> (At(t, Taking) && s.flight == t.flight) || s.flight.value.job.id !in t.stored
    ensures Inv(t)
  {
    forall i | 0 <= i < |t.log| && t.log[i].Started?
      ensures StartIsFollowed(t, i) && StartIsTaken(t, i)
    {
      assert StartIsFollowed(s, i) && StartIsTaken(s, i);
    }
    forall i | 0 <= i < |t.log| && t.log[i].Refused?
      ensures RefusalIsHeld(t, i)
    {
      assert RefusalIsHeld(s, i);
    }
  }

  lemma InvEffect(s: State, ready: bool, r: Rendered)
    requires Inv(s)
    ensures Inv(AfterEffect(s, ready, r))
  {
    var t := AfterEffect(s, ready, r);
    if !ready {
      InvQuiet(s, t);
    } else {
      var more := Ran(r);
      SoundGrows(s.log, more);
      RefusalsLogged(s, t, more);
      PausedAtGrows(s.log, more, |s.log|);
      assert t.log[|s.log|] == more;
      if s.flight.Some? && WellChosen(s.log, s.flight.value.job) {
        ChoiceGrows(s.log, more, s.flight.value.job);
      }
      forall i | 0 <= i < |t.log| && t.log[i].Started?
        ensures StartIsFollowed(t, i) && StartIsTaken(t, i)
      {
        assert t.log[i] == s.log[i];
        assert StartIsFollowed(s, i) && StartIsTaken(s, i);
        SeenGrows(s.log, more, i);
        if s.refs.awaiting == Some(s.log[i].job.previous) && !HeldByStart(s.refs, r) {
          assert SeesNew(t.log, i, |s.log|);
        }
        if t.timer.Some? {
          SeenThenIdle(s, r, i);
        }
      }
    }
  }

  /** A run that schedules sees no active turn, after an earlier run saw the started one. */
  lemma SeenThenIdle(s: State, r: Rendered, i: nat)
    requires i < |s.log| && s.log[i].Started? && StartIsFollowed(s, i)
    requires Scheduled(s.refs, r).Some?
    ensures SawItEnd(s.log + [Ran(r)], i, |s.log| + 1)
  {
    var all := s.log + [Ran(r)];
    assert s.refs.awaiting.None?;
    var a :| 0 <= i < a < |s.log| && SeesNew(s.log, i, a);
    assert SeesNew(all, i, a) && SeesIdle(all, |s.log|);
  }

  lemma InvSend(s: State, outcome: Outcome)
    requires Inv(s) && At(s, Sending)
    ensures Inv(AfterSend(s, outcome))
  {
    var t := AfterSend(s, outcome);
    var job := s.flight.value.job;
    if outcome == TurnFailed {
      InvQuiet(s, t);
    } else {
      var more := if outcome == TurnStarted then Started(job) else Refused(job);
      PausedAtGrows(s.log, more, |s.log|);
      ChoiceGrows(s.log, more, job);
      RefusalsAtSend(s, t, more);
      if outcome == TurnStarted { StartedIsSound(s); } else { SoundGrows(s.log, more); }
      forall i | 0 <= i < |t.log| && t.log[i].Started?
        ensures StartIsFollowed(t, i) && StartIsTaken(t, i)
      {
        if i < |s.log| {
          assert t.log[i] == s.log[i];
          assert StartIsFollowed(s, i) && StartIsTaken(s, i);
          SeenGrows(s.log, more, i);
          var a, b :| i < a < b < |s.log| && SeesNew(s.log, i, a) && SeesIdle(s.log, b);
        }
      }
    }
  }

  /** When a send is answered every earlier refusal has ended; a new one is held. */
  lemma RefusalsAtSend(s: State, t: State, more: Entry)
    requires Inv(s) && At(s, Sending) && t.log == s.log + [more]
    requires more.Refused? ==> t.refs.waitingAfter == Some(more.job.lastSeq) && !MayStart(t)
    ensures forall i :: 0 <= i < |t.log| && t.log[i].Refused? ==> RefusalIsHeld(t, i)
    ensures forall i :: 0 <= i < |s.log| && s.log[i].Refused? ==> RefusalEnded(t.log, i, |s.log|)
  {
    forall i | 0 <= i < |s.log| && s.log[i].Refused?
      ensures RefusalEnded(t.log, i, |s.log|) && RefusalEnded(t.log, i, |t.log|)
    {
      assert RefusalIsHeld(s, i);
      RefusalGrows(s.log, more, i, |s.log|);
    }
  }

  lemma StartedIsSound(s: State)
    requires Inv(s) && At(s, Sending)
    ensures Sound(s.log + [Started(s.flight.value.job)])
  {
    var more := Started(s.flight.value.job);
    var all := s.log + [more];
    forall i | 0 <= i < |all| && all[i].Started?
      ensures all[i].job.run < i && WellChosen(all, all[i].job)
    {
      ChoiceGrows(s.log, more, all[i].job);
    }
    forall i, j | 0 <= i < j < |all| && all[i].Started? && all[j].Started?
      ensures Separate(all, i, j)
    {
      assert all[i] == s.log[i];
      if j < |s.log| {
        assert all[j] == s.log[j];
        SeparateGrows(s.log, more, i, j);
      } else {
        assert StartIsFollowed(s, i) && StartIsTaken(s, i);
        SeenGrows(s.log, more, i);
      }
    }
    forall i, j | 0 <= i < j < |all| && all[i].Refused? && all[j].Started?
      ensures RefusalEnded(all, i, j)
    {
      assert all[i] == s.log[i];
      if j < |s.log| {
        assert all[j] == s.log[j];
        RefusalGrows(s.log, more, i, j);
      } else {
        assert RefusalIsHeld(s, i);
        RefusalGrows(s.log, more, i, |s.log|);
      }
    }
  }

  lemma InvTake(s: State, ok: bool)
    requires Inv(s) && At(s, Taking)
    ensures Inv(AfterTake(s, ok))
  {
    var id := s.flight.value.job.id;
    var t := AfterTake(s, ok);
    if ok && id in s.stored {
      InvQuiet(s, t);
    } else {
      var more := TakeFailed(id);
      SoundGrows(s.log, more);
      RefusalsLogged(s, t, more);
      PausedAtGrows(s.log, more, |s.log|);
      assert t.log[|s.log|] == more;
      forall i | 0 <= i < |t.log| && t.log[i].Started?
        ensures StartIsFollowed(t, i) && StartIsTaken(t, i)
      {
        assert t.log[i] == s.log[i];
        assert StartIsFollowed(s, i) && StartIsTaken(s, i);
        SeenGrows(s.log, more, i);
      }
    }
  }

  lemma InvNext(s: State, e: Event)
    requires Inv(s) && Enabled(s, e)
    ensures Inv(Next(s, e))
  {
    match e
    case Effect(ready, r) => InvEffect(s, ready, r);
    case SendReply(outcome) => InvSend(s, outcome);
    case TakeReply(ok) => InvTake(s, ok);
    case Fire => InvFire(s);
    case MarkReply(ok) => InvMark(s, ok);
    case Pause => InvLogged(s, Next(s, e), Paused);
    case Unpause => InvLogged(s, Next(s, e), Unpaused);
    case ComposerRefused(_) => InvLogged(s, Next(s, e), ComposerWrote);
    case ComposerGaveUp => InvLogged(s, Next(s, e), ComposerWrote);
    case _ => InvQuiet(s, Next(s, e));
  }

  lemma InvFire(s: State)
    requires Inv(s) && s.timer.Some?
    ensures Inv(AfterFire(s))
  {
    InvQuiet(s, AfterFire(s));
  }

  lemma InvMark(s: State, ok: bool)
    requires Inv(s) && At(s, Marking)
    ensures Inv(Next(s, MarkReply(ok)))
  {
    InvQuiet(s, Next(s, MarkReply(ok)));
  }

  lemma {:induction false} EveryRunKeepsInv(s: State, run: seq<Event>)
    requires Inv(s) && Possible(s, run)
    ensures Inv(After(s, run))
    decreases |run|
  {
    if run != [] {
      InvNext(s, run[0]);
      EveryRunKeepsInv(Next(s, run[0]), run[1..]);
    }
  }

  // ---- the main results ------------------------------------------------------------

  /**
   * In every run each started message is the lowest-position one waiting in the
   * queue that some earlier effect run was shown, with no turn active there and
   * the queue not paused. Between any two starts an effect run saw an active turn
   * other than the one shown before the first start, and a later run saw none.
   */
  lemma DrainIsOrderly(run: seq<Event>, i: nat)
    requires Possible(INITIAL, run) && i < |After(INITIAL, run).log| && After(INITIAL, run).log[i].Started?
    ensures
      var log := After(INITIAL, run).log;
      var job := log[i].job;
      job.run < i && log[job.run].Ran?
      && var r := log[job.run].rendered;
         !Active(r.turn) && job.previous == IdOf(r.turn) && !PausedAt(log, job.run)
         && exists m :: m in r.queue && m.phase == Waiting && m.id == job.id
              && forall other :: other in r.queue && other.phase == Waiting ==> m.position <= other.position
    ensures
      var log := After(INITIAL, run).log;
      forall j :: i < j < |log| && log[j].Started? ==> SawItEnd(log, i, j)
  {
    EveryRunKeepsInv(INITIAL, run);
    var log := After(INITIAL, run).log;
    var r := log[log[i].job.run].rendered;
    ChosenIsLowest(r.queue);
    assert Chosen(r.queue).value in r.queue;
    forall j | i < j < |log| && log[j].Started?
      ensures SawItEnd(log, i, j)
    {
      assert Separate(log, i, j);
    }
  }

  /** A message is started again only after taking it failed; with successful takes, at most once. */
  lemma StartedOnceUnlessTakeFailed(run: seq<Event>, i: nat, j: nat)
    requires Possible(INITIAL, run)
    requires i < j < |After(INITIAL, run).log|
    requires After(INITIAL, run).log[i].Started? && After(INITIAL, run).log[j].Started?
    requires After(INITIAL, run).log[i].job.id == After(INITIAL, run).log[j].job.id
    ensures exists k :: i < k < j && After(INITIAL, run).log[k] == TakeFailed(After(INITIAL, run).log[i].job.id)
  {
    EveryRunKeepsInv(INITIAL, run);
    assert Separate(After(INITIAL, run).log, i, j);
  }

  /**
   * After a refused send nothing starts before an effect run saw an active turn or
   * a projection past the refused one, unless the composer wrote over the hold.
   */
  lemma RefusalIsRespected(run: seq<Event>, i: nat, j: nat)
    requires Possible(INITIAL, run)
    requires i < j < |After(INITIAL, run).log|
    requires After(INITIAL, run).log[i].Refused? && After(INITIAL, run).log[j].Started?
    ensures
      var log := After(INITIAL, run).log;
      exists a :: i < a < j
        && (log[a] == ComposerWrote
            || (log[a].Ran? && (Active(log[a].rendered.turn) || log[a].rendered.lastSeq > log[i].job.lastSeq)))
  {
    EveryRunKeepsInv(INITIAL, run);
    var log := After(INITIAL, run).log;
    assert RefusalEnded(log, i, j);
    var a :| 0 <= i < a < j && EndsRefusal(log, i, a);
  }

  ghost predicate SameStarts(before: seq<Entry>, after: seq<Entry>) {
    before <= after && forall k :: |before| <= k < |after| ==> !after[k].Started?
  }

  // ---- what a pause cannot stop ------------------------------------------------------

  /** Scheduled and dispatched messages are ones that the store once gave out. */
  predicate JobsAreKnown(s: State) {
    && (s.timer.Some? ==> s.timer.value.id in s.known)
    && (s.flight.Some? ==> s.flight.value.job.id in s.known)
  }

  lemma JobsStayKnown(s: State, e: Event)
    requires JobsAreKnown(s) && Enabled(s, e)
    ensures JobsAreKnown(Next(s, e))
  {
    if e.Effect? {
      ChosenIsLowest(e.rendered.queue);
    }
  }

  lemma {:induction false} EveryJobIsKnown(s: State, run: seq<Event>)
    requires JobsAreKnown(s) && Possible(s, run)
    ensures JobsAreKnown(After(s, run))
    decreases |run|
  {
    if run != [] {
      JobsStayKnown(s, run[0]);
      EveryJobIsKnown(Next(s, run[0]), run[1..]);
    }
  }

  /** A send is out, or a message still in the store is scheduled or being marked. */
  predicate CanStillStart(s: State) {
    || At(s, Sending)
    || (At(s, Marking) && s.flight.value.job.id in s.stored)
    || (s.timer.Some? && s.timer.value.id in s.stored)
  }

  ghost predicate StartsSome(s: State, run: seq<Event>)
    requires Possible(s, run)
  {
    !SameStarts(s.log, After(s, run).log)
  }

  /** Paused with nothing that can still start, the queue starts nothing before it is unpaused. */
  lemma {:induction false} PausedQueueHolds(s: State, run: seq<Event>)
    requires s.refs.paused && JobsAreKnown(s) && !CanStillStart(s) && Possible(s, run) && Unpause !in run
    ensures SameStarts(s.log, After(s, run).log)
    decreases |run|
  {
    if run != [] {
      var t := Next(s, run[0]);
      assert run[0] in run;
      JobsStayKnown(s, run[0]);
      assert t.refs.paused && !CanStillStart(t) && SameStarts(s.log, t.log);
      PausedQueueHolds(t, run[1..]);
    }
  }

  lemma RunStep(s: State, e: Event, rest: seq<Event>)
    requires Enabled(s, e) && Possible(Next(s, e), rest)
    ensures Possible(s, [e] + rest) && After(s, [e] + rest) == After(Next(s, e), rest)
  {
    assert ([e] + rest)[1..] == rest;
  }

  /** From the given state the scheduled message is dispatched until its turn is started. */
  lemma Dispatched(s: State, job: Job)
    requires s.timer == Some(job) && s.flight.None? && s.refs.busy.None? && job.id in s.stored
    ensures
      var run := [Fire] + ([MarkReply(true)] + ([SendReply(TurnStarted)] + []));
      Possible(s, run)
      && After(s, run) == s.(refs := s.refs.(awaiting := Some(job.previous), busy := Some(job.id)), timer := None,
                             flight := Some(Flight(job, Taking)), log := s.log + [Started(job)])
  {
    var fired := Next(s, Fire);
    var marked := Next(fired, MarkReply(true));
    RunStep(marked, SendReply(TurnStarted), []);
    RunStep(fired, MarkReply(true), [SendReply(TurnStarted)] + []);
    RunStep(s, Fire, [MarkReply(true)] + ([SendReply(TurnStarted)] + []));
  }

  /** What can still start has a run that starts it, and needs no unpausing. */
  lemma StillStarts(s: State) returns (run: seq<Event>)
    requires OneJob(s) && CanStillStart(s)
    ensures Possible(s, run) && Unpause !in run && StartsSome(s, run)
  {
    if At(s, Sending) {
      RunStep(s, SendReply(TurnStarted), []);
      run := [SendReply(TurnStarted)] + [];
      assert After(s, run).log[|s.log|].Started?;
    } else if At(s, Marking) {
      var marked := Next(s, MarkReply(true));
      RunStep(marked, SendReply(TurnStarted), []);
      RunStep(s, MarkReply(true), [SendReply(TurnStarted)] + []);
      run := [MarkReply(true)] + ([SendReply(TurnStarted)] + []);
      assert After(s, run).log[|s.log|].Started?;
    } else {
      var idle := if s.refs.busy.Some? then Next(s, OtherEnds) else s;
      Dispatched(idle, s.timer.value);
      run := [Fire] + ([MarkReply(true)] + ([SendReply(TurnStarted)] + []));
      assert After(idle, run).log[|s.log|].Started?;
      if s.refs.busy.Some? {
        RunStep(s, OtherEnds, run);
        run := [OtherEnds] + run;
      }
    }
  }

  /**
   * After a pause some message can still start before the queue is unpaused,
   * exactly when at that moment a send is out, or a message that is still in the
   * store is scheduled or being marked.
   */
  lemma PauseStopsAllButExactly(run: seq<Event>)
    requires Possible(INITIAL, run) && After(INITIAL, run).refs.paused
    ensures
      var s := After(INITIAL, run);
      (exists more :: Possible(s, more) && Unpause !in more && StartsSome(s, more)) <==> CanStillStart(s)
  {
    var s := After(INITIAL, run);
    EveryRunKeepsInv(INITIAL, run);
    EveryJobIsKnown(INITIAL, run);
    if CanStillStart(s) {
      var more := StillStarts(s);
    } else {
      forall more | Possible(s, more) && Unpause !in more
        ensures !StartsSome(s, more)
      {
        PausedQueueHolds(s, more);
      }
    }
  }

  // ---- when a message can start again --------------------------------------------------

  predicate Handles(s: State, stage: Stage, id: string) {
    At(s, stage) && s.flight.value.job.id == id
  }

  ghost predicate StartsMessage(s: State, run: seq<Event>, id: string)
    requires Possible(s, run)
  {
    var log := After(s, run).log;
    exists k :: |s.log| <= k < |log| && log[k].Started? && log[k].job.id == id
  }

  ghost predicate NotStartedSince(before: seq<Entry>, after: seq<Entry>, id: string) {
    before <= after && forall k :: |before| <= k < |after| ==> !(after[k].Started? && after[k].job.id == id)
  }

  /** A message that left the store is never started again: its id is not given out twice. */
  lemma {:induction false} GoneIsNotStarted(s: State, run: seq<Event>, id: string)
    requires id in s.known && id !in s.stored && !Handles(s, Sending, id) && Possible(s, run)
    ensures NotStartedSince(s.log, After(s, run).log, id)
    decreases |run|
  {
    if run != [] {
      var t := Next(s, run[0]);
      assert id in t.known && id !in t.stored && !Handles(t, Sending, id) && NotStartedSince(s.log, t.log, id);
      GoneIsNotStarted(t, run[1..], id);
    }
  }

  /** Whatever is under way can end without taking anything from the store. */
  lemma Freed(s: State) returns (run: seq<Event>)
    requires OneJob(s)
    ensures Possible(s, run)
    ensures
      var t := After(s, run);
      t.flight.None? && t.refs.busy.None? && t.stored == s.stored && t.known == s.known && s.log <= t.log
  {
    if s.flight.None? {
      if s.refs.busy.Some? {
        RunStep(s, OtherEnds, []);
        run := [OtherEnds] + [];
      } else {
        run := [];
      }
    } else {
      var first :=
        match s.flight.value.stage
        case Marking => MarkReply(false)
        case Sending => SendReply(TurnFailed)
        case Holding => HoldReply(true)
        case Taking => TakeReply(false)
        case Refreshing => RefreshReply
        case Reverting => RevertReply;
      var t := Next(s, first);
      if t.flight.Some? {
        RunStep(t, RevertReply, []);
        RunStep(s, first, [RevertReply] + []);
        run := [first] + ([RevertReply] + []);
      } else {
        RunStep(s, first, []);
        run := [first] + [];
      }
    }
  }

  function OnlyMessage(id: string): Rendered {
    Rendered([Message(id, 0, Waiting)], None, 0, false)
  }

  lemma OnlyMessageIsChosen(id: string)
    ensures Chosen(OnlyMessage(id).queue) == Some(Message(id, 0, Waiting))
  {
    ChosenIsLowest(OnlyMessage(id).queue);
    assert Message(id, 0, Waiting) in OnlyMessage(id).queue;
  }

  /** A render of an active turn ends both holds, whatever they wait for. */
  function AnotherTurn(refs: Refs): Rendered {
    Rendered([], Some(Turn(if refs.awaiting == Some(Some("a")) then "b" else "a", InProgress)), 0, false)
  }

  /** With nothing under way, any message in the store can be started. */
  lemma StoredCanStart(s: State, id: string) returns (run: seq<Event>)
    requires s.flight.None? && s.refs.busy.None? && id in s.stored && id in s.known
    ensures Possible(s, run) && StartsMessage(s, run, id)
  {
    var s1 := Next(s, Unpause);
    var seen := Effect(true, AnotherTurn(s.refs));
    var s2 := Next(s1, seen);
    assert s2.refs == Refs(None, None, false, None);
    var shown := Effect(true, OnlyMessage(id));
    OnlyMessageIsChosen(id);
    var s3 := Next(s2, shown);
    var job := Job(id, None, 0, |s2.log|);
    assert s3.timer == Some(job);
    Dispatched(s3, job);
    var send := [Fire] + ([MarkReply(true)] + ([SendReply(TurnStarted)] + []));
    assert After(s3, send).log[|s3.log|] == Started(job);
    RunStep(s2, shown, send);
    RunStep(s1, seen, [shown] + send);
    RunStep(s, Unpause, [seen] + ([shown] + send));
    run := [Unpause] + ([seen] + ([shown] + send));
  }

  lemma {:induction false} Joined(s: State, first: seq<Event>, second: seq<Event>)
    requires Possible(s, first) && Possible(After(s, first), second)
    ensures Possible(s, first + second) && After(s, first + second) == After(After(s, first), second)
    decreases |first|
  {
    if first == [] {
      assert first + second == second;
    } else {
      Joined(Next(s, first[0]), first[1..], second);
      assert (first + second)[1..] == first[1..] + second;
    }
  }

  lemma CanStartAgain(s: State, id: string) returns (run: seq<Event>)
    requires OneJob(s) && (id in s.stored || Handles(s, Sending, id))
    ensures Possible(s, run) && StartsMessage(s, run, id)
  {
    if Handles(s, Sending, id) {
      RunStep(s, SendReply(TurnStarted), []);
      run := [SendReply(TurnStarted)] + [];
      assert After(s, run).log[|s.log|].Started?;
    } else {
      var free := Freed(s);
      var again := StoredCanStart(After(s, free), id);
      Joined(s, free, again);
      run := free + again;
    }
  }

  /**
   * A started message can be started again exactly when it is still in the store
   * and its take failed or is outstanding, or when it is being sent again already.
   */
  lemma StartsAgainExactly(run: seq<Event>, i: nat)
    requires Possible(INITIAL, run) && i < |After(INITIAL, run).log| && After(INITIAL, run).log[i].Started?
    ensures
      var s := After(INITIAL, run);
      var id := s.log[i].job.id;
      (exists more :: Possible(s, more) && StartsMessage(s, more, id)) <==>
      || (id in s.stored && (TakeFailedSince(s.log, i, id) || Handles(s, Taking, id)))
      || Handles(s, Sending, id)
    ensures
      var s := After(INITIAL, run);
      Handles(s, Sending, s.log[i].job.id) ==> TakeFailedSince(s.log, i, s.log[i].job.id)
  {
    var s := After(INITIAL, run);
    var id := s.log[i].job.id;
    EveryRunKeepsInv(INITIAL, run);
    assert StartIsFollowed(s, i) && StartIsTaken(s, i);
    if id in s.stored || Handles(s, Sending, id) {
      var more := CanStartAgain(s, id);
    } else {
      forall more | Possible(s, more)
        ensures !StartsMessage(s, more, id)
      {
        GoneIsNotStarted(s, more, id);
      }
    }
  }

  // ---- two runs that a reader might not expect ---------------------------------------

  const MESSAGE := Message("m", 0, Waiting)
  const SHOWN := Rendered([MESSAGE], None, 0, false)
  const JOB := Job("m", None, 0, 0)

  lemma ShownIsChosen()
    ensures Chosen(SHOWN.queue) == Some(MESSAGE)
  {
    ChosenIsLowest(SHOWN.queue);
    assert MESSAGE in SHOWN.queue;
  }

  /** Pausing between the effect run and its timer does not stop the message. */
  lemma StartsThoughPaused() returns (run: seq<Event>)
    ensures Possible(INITIAL, run)
    ensures var s := After(INITIAL, run); s.refs.paused && s.log == [Ran(SHOWN), Paused, Started(JOB)]
  {
    ShownIsChosen();
    var stored := Next(INITIAL, Enqueue("m"));
    var armed := Next(stored, Effect(true, SHOWN));
    assert armed.log == [Ran(SHOWN)] && armed.timer == Some(JOB);
    var paused := Next(armed, Pause);
    assert paused.log == [Ran(SHOWN), Paused];
    Dispatched(paused, JOB);
    var tail := [Fire] + ([MarkReply(true)] + ([SendReply(TurnStarted)] + []));
    assert [Ran(SHOWN), Paused] + [Started(JOB)] == [Ran(SHOWN), Paused, Started(JOB)];
    RunStep(armed, Pause, tail);
    RunStep(stored, Effect(true, SHOWN), [Pause] + tail);
    RunStep(INITIAL, Enqueue("m"), [Effect(true, SHOWN)] + ([Pause] + tail));
    run := [Enqueue("m")] + ([Effect(true, SHOWN)] + ([Pause] + tail));
  }

  const RUNNING := Rendered([MESSAGE], Some(Turn("t", InProgress)), 1, false)
  const ENDED := Rendered([MESSAGE], Some(Turn("t", Completed)), 2, false)
  const AGAIN := Job("m", Some("t"), 2, 4)

  /** A failed take puts a message back whose turn was already sent, and it is sent again. */
  lemma FailedTakeStartsAgain() returns (run: seq<Event>)
    ensures Possible(INITIAL, run)
    ensures After(INITIAL, run).log ==
            [Ran(SHOWN), Started(JOB), TakeFailed("m"), Ran(RUNNING), Ran(ENDED), Started(AGAIN)]
  {
    var first := SentOnce();
    var second := SentAgain();
    Joined(INITIAL, first, second);
    run := first + second;
  }

  const SENT := State(Refs(Some(None), None, false, Some("m")), None, Some(Flight(JOB, Taking)), {"m"}, {"m"},
                      [Ran(SHOWN), Started(JOB)])

  lemma SentOnce() returns (run: seq<Event>)
    ensures Possible(INITIAL, run) && After(INITIAL, run) == SENT
  {
    ShownIsChosen();
    var send := [Fire] + ([MarkReply(true)] + ([SendReply(TurnStarted)] + []));
    var s1 := Next(INITIAL, Enqueue("m"));
    assert s1.stored == {"m"} && s1.known == {"m"};
    var s2 := Next(s1, Effect(true, SHOWN));
    assert s2.log == [Ran(SHOWN)] && s2.timer == Some(JOB);
    Dispatched(s2, JOB);
    assert [Ran(SHOWN)] + [Started(JOB)] == [Ran(SHOWN), Started(JOB)];
    RunStep(s1, Effect(true, SHOWN), send);
    RunStep(INITIAL, Enqueue("m"), [Effect(true, SHOWN)] + send);
    run := [Enqueue("m")] + ([Effect(true, SHOWN)] + send);
  }

  lemma SentAgain() returns (run: seq<Event>)
    ensures Possible(SENT, run)
    ensures After(SENT, run).log ==
            [Ran(SHOWN), Started(JOB), TakeFailed("m"), Ran(RUNNING), Ran(ENDED), Started(AGAIN)]
  {
    ShownIsChosen();
    var send := [Fire] + ([MarkReply(true)] + ([SendReply(TurnStarted)] + []));
    var s1 := Next(SENT, TakeReply(false));
    assert s1.log == [Ran(SHOWN), Started(JOB), TakeFailed("m")];
    var s2 := Next(s1, RevertReply);
    var s3 := Next(s2, Effect(true, RUNNING));
    assert s3.log == [Ran(SHOWN), Started(JOB), TakeFailed("m"), Ran(RUNNING)];
    var s4 := Next(s3, Effect(true, ENDED));
    assert s4.log == [Ran(SHOWN), Started(JOB), TakeFailed("m"), Ran(RUNNING), Ran(ENDED)];
    assert s4.timer == Some(AGAIN);
    Dispatched(s4, AGAIN);
    RunStep(s3, Effect(true, ENDED), send);
    RunStep(s2, Effect(true, RUNNING), [Effect(true, ENDED)] + send);
    RunStep(s1, RevertReply, [Effect(true, RUNNING)] + ([Effect(true, ENDED)] + send));
    RunStep(SENT, TakeReply(false), [RevertReply] + ([Effect(true, RUNNING)] + ([Effect(true, ENDED)] + send)));
    run := [TakeReply(false)] + ([RevertReply] + ([Effect(true, RUNNING)] + ([Effect(true, ENDED)] + send)));
  }
}
