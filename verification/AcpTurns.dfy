/**
 * The per-task queue of ACP operations (apps/desktop/src/bridge.ts:3617-3634)
 * and the bounded recovery of a turn (apps/desktop/src/acpRecovery.ts:14-51).
 */
module AcpTurns {
  import opened Common

  // ---- the queue ------------------------------------------------------------

  /** An operation's promise, then the tail promise that later operations wait on. */
  datatype Phase = Waiting | Running | Settled(ok: bool) | TailDone

  /** `after` is the tail the operation was chained to, if the map held one. */
  datatype Operation = Operation(after: Option<nat>, phase: Phase, cleaned: bool)

  /** One task: its operations in call order, its map entry, and the order in which they started. */
  datatype Queue = Queue(operations: seq<Operation>, entry: Option<nat>, started: seq<nat>)

  datatype Event = Call | Start(op: nat) | Settle(op: nat, ok: bool) | SettleTail(op: nat) | Clean(op: nat)

  const NO_CALLS := Queue([], None, [])

  predicate Enabled(q: Queue, e: Event) {
    match e
    case Call => true
    case Start(i) =>
      && i < |q.operations| && q.operations[i].phase.Waiting?
      && (var after := q.operations[i].after;
          after.Some? ==> after.value < |q.operations| && q.operations[after.value].phase.TailDone?)
    case Settle(i, _) => i < |q.operations| && q.operations[i].phase.Running?
    case SettleTail(i) => i < |q.operations| && q.operations[i].phase.Settled?
    case Clean(i) => i < |q.operations| && q.operations[i].phase.TailDone? && !q.operations[i].cleaned
  }

  function Next(q: Queue, e: Event): Queue
    requires Enabled(q, e)
  {
    match e
    case Call =>
      q.(operations := q.operations + [Operation(q.entry, Waiting, false)], entry := Some(|q.operations|))
    case Start(i) =>
      q.(operations := q.operations[i := q.operations[i].(phase := Running)], started := q.started + [i])
    case Settle(i, ok) => q.(operations := q.operations[i := q.operations[i].(phase := Settled(ok))])
    case SettleTail(i) => q.(operations := q.operations[i := q.operations[i].(phase := TailDone)])
    case Clean(i) =>
      q.(operations := q.operations[i := q.operations[i].(cleaned := true)],
         entry := if q.entry == Some(i) then None else q.entry)
  }

  predicate Possible(q: Queue, run: seq<Event>)
    decreases |run|
  {
    run == [] || (Enabled(q, run[0]) && Possible(Next(q, run[0]), run[1..]))
  }

  function After(q: Queue, run: seq<Event>): Queue
    requires Possible(q, run)
    decreases |run|
  {
    if run == [] then q else After(Next(q, run[0]), run[1..])
  }

  /** Every operation called before `i` has run to its end. */
  predicate AllDoneBefore(q: Queue, i: nat)
    requires i <= |q.operations|
  {
    forall j :: 0 <= j < i ==> q.operations[j].phase.TailDone?
  }

  ghost predicate OperationOk(q: Queue, i: nat)
    requires i < |q.operations|
  {
    && (q.operations[i].after.Some? ==> i > 0 && q.operations[i].after.value == i - 1)
    && (q.operations[i].after.None? ==> AllDoneBefore(q, i))
    && (!q.operations[i].phase.Waiting? ==> AllDoneBefore(q, i))
    && (q.operations[i].cleaned ==> q.operations[i].phase.TailDone?)
  }

  ghost predicate Inv(q: Queue) {
    && (forall i :: 0 <= i < |q.operations| ==> OperationOk(q, i))
    && (q.entry.Some? ==>
          q.operations != [] && q.entry.value == |q.operations| - 1 && !q.operations[|q.operations| - 1].cleaned)
    && (q.entry.None? && q.operations != [] ==> q.operations[|q.operations| - 1].cleaned)
    && (q.entry.None? ==> AllDoneBefore(q, |q.operations|))
    && |q.started| <= |q.operations|
    && (forall k :: 0 <= k < |q.started| ==> q.started[k] == k)
    && (forall i :: 0 <= i < |q.operations| ==> (q.operations[i].phase.Waiting? <==> i >= |q.started|))
  }

  lemma InvNext(q: Queue, e: Event)
    requires Inv(q) && Enabled(q, e)
    ensures Inv(Next(q, e))
  {
    var n := Next(q, e);
    if e.Start? {
      StartsInOrder(q, e.op);
    } else if e.Clean? {
      assert OperationOk(q, e.op);
    }
    forall i | 0 <= i < |n.operations|
      ensures OperationOk(n, i)
    {
      if i < |q.operations| {
        assert OperationOk(q, i);
      }
    }
  }

  /** An operation that may start is the first one still waiting. */
  lemma StartsInOrder(q: Queue, i: nat)
    requires Inv(q) && Enabled(q, Start(i))
    ensures AllDoneBefore(q, i) && i == |q.started|
  {
    assert OperationOk(q, i);
    if q.operations[i].after.Some? {
      assert OperationOk(q, i - 1);
    }
    assert i > 0 ==> q.operations[i - 1].phase.TailDone?;
  }

  lemma {:induction false} EveryRunKeepsInv(q: Queue, run: seq<Event>)
    requires Inv(q) && Possible(q, run)
    ensures Inv(After(q, run))
    decreases |run|
  {
    if run != [] {
      InvNext(q, run[0]);
      EveryRunKeepsInv(Next(q, run[0]), run[1..]);
    }
  }

  /**
   * Operations of one task run one at a time and in call order, whatever fails:
   * a running operation's predecessors have all settled and its successors are
   * all waiting.
   */
  lemma OneAtATimeInCallOrder(run: seq<Event>, i: nat)
    requires Possible(NO_CALLS, run) && i < |After(NO_CALLS, run).operations|
    requires After(NO_CALLS, run).operations[i].phase.Running?
    ensures
      var q := After(NO_CALLS, run);
      && (forall j :: 0 <= j < i ==> q.operations[j].phase.TailDone?)
      && (forall j :: i < j < |q.operations| ==> q.operations[j].phase.Waiting?)
      && q.started == seq(i + 1, k requires 0 <= k < i + 1 => k)
  {
    EveryRunKeepsInv(NO_CALLS, run);
    var q := After(NO_CALLS, run);
    assert OperationOk(q, i);
    forall j | i < j < |q.operations|
      ensures q.operations[j].phase.Waiting?
    {
      assert OperationOk(q, j);
    }
    assert |q.started| == i + 1 by {
      assert i + 1 < |q.operations| ==> q.operations[i + 1].phase.Waiting?;
    }
  }

  /** The map entry may be dropped safely: without one, everything called has settled. */
  lemma NoEntryMeansNothingPending(run: seq<Event>)
    requires Possible(NO_CALLS, run) && After(NO_CALLS, run).entry.None?
    ensures forall op :: op in After(NO_CALLS, run).operations ==> op.phase.TailDone?
  {
    EveryRunKeepsInv(NO_CALLS, run);
    var q := After(NO_CALLS, run);
    assert AllDoneBefore(q, |q.operations|);
  }

  /** The map holds an entry exactly while the last operation called has not been cleaned up: none is left behind. */
  lemma EntryExactly(run: seq<Event>)
    requires Possible(NO_CALLS, run)
    ensures
      var q := After(NO_CALLS, run);
      q.entry == if q.operations == [] || q.operations[|q.operations| - 1].cleaned then None else Some(|q.operations| - 1)
  {
    EveryRunKeepsInv(NO_CALLS, run);
  }

  /** The steps an operation has before it. */
  function StepsLeft(op: Operation): nat {
    match op.phase
    case Waiting => 4
    case Running => 3
    case Settled(_) => 2
    case TailDone => if op.cleaned then 0 else 1
  }

  function AllStepsLeft(operations: seq<Operation>): nat {
    if operations == [] then 0
    else AllStepsLeft(operations[..|operations| - 1]) + StepsLeft(operations[|operations| - 1])
  }

  lemma {:induction false} OneStepLess(operations: seq<Operation>, i: nat, op: Operation)
    requires i < |operations| && StepsLeft(op) < StepsLeft(operations[i])
    ensures AllStepsLeft(operations[i := op]) == AllStepsLeft(operations) - StepsLeft(operations[i]) + StepsLeft(op)
    ensures AllStepsLeft(operations) >= StepsLeft(operations[i])
  {
    var last := |operations| - 1;
    var after := operations[i := op];
    if i == last {
      assert after[..last] == operations[..last];
    } else {
      assert after[..last] == operations[..last][i := op];
      OneStepLess(operations[..last], i, op);
    }
  }

  /**
   * A call waits behind the operation called before it and is the entry; every
   * other step takes exactly its own operation one phase on and touches no other.
   */
  lemma StepsExactly(run: seq<Event>, e: Event)
    requires Possible(NO_CALLS, run) && Enabled(After(NO_CALLS, run), e)
    ensures
      var q, n := After(NO_CALLS, run), Next(After(NO_CALLS, run), e);
      match e
      case Call =>
        && n.operations == q.operations + [Operation(q.entry, Waiting, false)]
        && n.entry == Some(|q.operations|) && n.started == q.started
      case Start(i) => n.operations == q.operations[i := Operation(q.operations[i].after, Running, false)] && n.entry == q.entry
      case Settle(i, ok) => n.operations == q.operations[i := Operation(q.operations[i].after, Settled(ok), false)] && n.entry == q.entry
      case SettleTail(i) => n.operations == q.operations[i := Operation(q.operations[i].after, TailDone, false)] && n.entry == q.entry
      case Clean(i) => n.operations == q.operations[i := Operation(q.operations[i].after, TailDone, true)]
  {
    EveryRunKeepsInv(NO_CALLS, run);
    var q := After(NO_CALLS, run);
    assert e != Call ==> OperationOk(q, e.op);
  }

  /** Without new calls a queue has finitely many steps left, each of which takes one away. */
  lemma QueueEnds(q: Queue, e: Event)
    requires Enabled(q, e) && e != Call && (e.Settle? || e.Start? || e.SettleTail? ==> !q.operations[e.op].cleaned)
    ensures AllStepsLeft(Next(q, e).operations) < AllStepsLeft(q.operations)
  {
    OneStepLess(q.operations, e.op, Next(q, e).operations[e.op]);
  }

  /** A waiting queue never stops: some operation can start, settle or release its successor. */
  lemma QueueMoves(run: seq<Event>)
    requires Possible(NO_CALLS, run)
    requires exists op :: op in After(NO_CALLS, run).operations && !op.phase.TailDone?
    ensures exists e :: e != Call && !e.Clean? && Enabled(After(NO_CALLS, run), e)
  {
    EveryRunKeepsInv(NO_CALLS, run);
    var q := After(NO_CALLS, run);
    var op :| op in q.operations && !op.phase.TailDone?;
    var k :| 0 <= k < |q.operations| && q.operations[k] == op;
    var i := FirstUnfinished(q, k);
    assert OperationOk(q, i);
    match q.operations[i].phase
    case Waiting => assert Enabled(q, Start(i));
    case Running => assert Enabled(q, Settle(i, true));
    case Settled(_) => assert Enabled(q, SettleTail(i));
    case TailDone =>
  }

  lemma {:induction false} FirstUnfinished(q: Queue, k: nat) returns (i: nat)
    requires k < |q.operations| && !q.operations[k].phase.TailDone?
    ensures i <= k && !q.operations[i].phase.TailDone? && AllDoneBefore(q, i)
  {
    if AllDoneBefore(q, k) {
      i := k;
    } else {
      var j :| 0 <= j < k && !q.operations[j].phase.TailDone?;
      i := FirstUnfinished(q, j);
    }
  }

  /** The module's map of tails; tails are numbered as they are made. */
  class AcpTaskQueues {
    var tails: map<string, nat>
    var made: nat

    constructor ()
      ensures tails == map[] && made == 0
    {
      tails, made := map[], 0;
    }

    /** `queueAcpTaskTransition` up to its return: the operation is chained to `previous`. */
    method Chain(task: string) returns (previous: Option<nat>, tail: nat)
      modifies this
      ensures previous == Get(old(tails), task) && tail == old(made) && made == old(made) + 1
      ensures tails == old(tails)[task := tail]
    {
      previous := Get(tails, task);
      tail := made;
      made := made + 1;
      tails := tails[task := tail];
    }

    /** The clean-up after a tail settles. */
    method CleanUp(task: string, tail: nat)
      modifies this
      ensures tails == if Get(old(tails), task) == Some(tail) then old(tails) - {task} else old(tails)
    {
      if Get(tails, task) == Some(tail) {
        tails := tails - {task};
      }
    }
  }

  // ---- recovery of a turn ---------------------------------------------------

  /** An error with the verdicts of the two classifiers. */
  datatype Error = Error(connection: bool, preSubmitDisconnect: bool)

  /** What one attempt meets; `delivered` says whether the provider got the prompt although the call failed. */
  datatype Attempt =
    | SetupFails(error: Error)
    | SubmitFails(error: Error, delivered: bool)
    | Works

  datatype Effect = Setup | Submit(delivered: bool) | Reset

  /** The effects of one attempt. */
  function EffectsOf(a: Attempt): seq<Effect> {
    match a
    case SetupFails(_) => [Setup]
    case SubmitFails(_, delivered) => [Setup, Submit(delivered)]
    case Works => [Setup, Submit(true)]
  }

  function FailureOf(a: Attempt): Option<Error> {
    if a.Works? then None else Some(a.error)
  }

  predicate MayRetry(a: Attempt) {
    match a
    case SetupFails(error) => error.connection
    case SubmitFails(error, _) => error.preSubmitDisconnect
    case Works => false
  }

  /** The effects of a turn, given what its first and second attempts would meet. */
  function TurnEffects(first: Attempt, second: Attempt): seq<Effect> {
    if first.Works? then EffectsOf(first)
    else if !MayRetry(first) then EffectsOf(first) + [Reset]
    else if second.Works? then EffectsOf(first) + [Reset] + EffectsOf(second)
    else EffectsOf(first) + [Reset] + EffectsOf(second) + [Reset]
  }

  function TurnError(first: Attempt, second: Attempt): Option<Error> {
    if first.Works? then None
    else if !MayRetry(first) then FailureOf(first)
    else FailureOf(second)
  }

  /** The callbacks of a turn, with the attempts the environment has in store and a log of effects. */
  class TurnOptions {
    const attempts: seq<Attempt>
    var made: nat
    var log: seq<Effect>

    constructor (first: Attempt, second: Attempt)
      ensures attempts == [first, second] && made == 0 && log == []
    {
      attempts, made, log := [first, second], 0, [];
    }

    /** The attempt under way; a third one would find the provider working. */
    function Current(): Attempt
      reads this
    {
      if made < |attempts| then attempts[made] else Works
    }

    method Setup() returns (error: Option<Error>)
      modifies this`log
      ensures log == old(log) + [Effect.Setup]
      ensures error == if Current().SetupFails? then Some(Current().error) else None
    {
      log := log + [Effect.Setup];
      error := if Current().SetupFails? then Some(Current().error) else None;
    }

    method Submit() returns (error: Option<Error>)
      modifies this`log
      ensures log == old(log) + [Effect.Submit(Current().Works? || (Current().SubmitFails? && Current().delivered))]
      ensures error == if Current().SubmitFails? then Some(Current().error) else None
    {
      log := log + [Effect.Submit(Current().Works? || (Current().SubmitFails? && Current().delivered))];
      error := if Current().SubmitFails? then Some(Current().error) else None;
    }

    method Reset()
      modifies this`log
      ensures log == old(log) + [Effect.Reset]
    {
      log := log + [Effect.Reset];
    }
  }

  datatype Failure = InSetup(error: Error) | InSubmit(error: Error)

  method AttemptAcpTurn(options: TurnOptions) returns (failure: Option<Failure>)
    modifies options
    ensures options.made == old(options.made) + 1
    ensures options.log == old(options.log) + EffectsOf(old(options.Current()))
    ensures
      failure ==
        match old(options.Current())
        case SetupFails(error) => Some(InSetup(error))
        case SubmitFails(error, _) => Some(InSubmit(error))
        case Works => None
  {
    var setupError := options.Setup();
    if setupError.Some? {
      options.made := options.made + 1;
      return Some(InSetup(setupError.value));
    }
    var submitError := options.Submit();
    options.made := options.made + 1;
    if submitError.Some? {
      return Some(InSubmit(submitError.value));
    }
    return None;
  }

  /** `runAcpTurnWithRecovery`; `thrown` is None when it resolves. */
  method RunAcpTurnWithRecovery(options: TurnOptions) returns (thrown: Option<Error>)
    requires options.made == 0 && |options.attempts| == 2 && options.log == []
    modifies options
    ensures options.log == TurnEffects(options.attempts[0], options.attempts[1])
    ensures thrown == TurnError(options.attempts[0], options.attempts[1])
  {
    var firstFailure := AttemptAcpTurn(options);
    if firstFailure.None? {
      return None;
    }
    options.Reset();
    var error := firstFailure.value.error;
    var canRetry := if firstFailure.value.InSetup? then error.connection else error.preSubmitDisconnect;
    if !canRetry {
      return Some(error);
    }
    var retryFailure := AttemptAcpTurn(options);
    if retryFailure.None? {
      return None;
    }
    options.Reset();
    return Some(retryFailure.value.error);
  }

  function CountOf(log: seq<Effect>, wanted: Effect): nat {
    if log == [] then 0 else (if log[0] == wanted then 1 else 0) + CountOf(log[1..], wanted)
  }

  lemma {:induction false} CountConcat(a: seq<Effect>, b: seq<Effect>, wanted: Effect)
    ensures CountOf(a + b, wanted) == CountOf(a, wanted) + CountOf(b, wanted)
  {
    if a == [] {
      assert a + b == b;
    } else {
      CountConcat(a[1..], b, wanted);
      assert (a + b)[1..] == a[1..] + b;
    }
  }

  /** The counts of a whole turn, part by part. */
  lemma CountTurn(first: Attempt, second: Attempt, wanted: Effect)
    ensures
      CountOf(TurnEffects(first, second), wanted) ==
        CountOf(EffectsOf(first), wanted)
        + (if first.Works? then 0 else CountOf([Reset], wanted))
        + (if first.Works? || !MayRetry(first) then 0
           else CountOf(EffectsOf(second), wanted) + (if second.Works? then 0 else CountOf([Reset], wanted)))
  {
    CountConcat(EffectsOf(first), [Reset], wanted);
    CountConcat(EffectsOf(first) + [Reset], EffectsOf(second), wanted);
    CountConcat(EffectsOf(first) + [Reset] + EffectsOf(second), [Reset], wanted);
  }

  lemma CountEffects(a: Attempt, wanted: Effect)
    ensures CountOf(EffectsOf(a), Setup) == 1 && CountOf(EffectsOf(a), Reset) == 0
    ensures CountOf(EffectsOf(a), Submit(true)) == if a.Works? || (a.SubmitFails? && a.delivered) then 1 else 0
    ensures CountOf([Reset], Setup) == 0 && CountOf([Reset], Reset) == 1 && CountOf([Reset], Submit(true)) == 0
  {
    assert [Setup][1..] == [] && [Reset][1..] == [];
    match a
    case SetupFails(_) =>
    case SubmitFails(_, delivered) => assert [Setup, Submit(delivered)][1..] == [Submit(delivered)];
    case Works => assert [Setup, Submit(true)][1..] == [Submit(true)];
  }

  /** How many attempts a turn makes, and how many of them fail. */
  function AttemptsMade(first: Attempt, second: Attempt): nat {
    CountOf(TurnEffects(first, second), Setup)
  }

  function FailuresMet(first: Attempt, second: Attempt): nat {
    (if first.Works? then 0 else 1)
    + (if !first.Works? && MayRetry(first) && !second.Works? then 1 else 0)
  }

  /** An attempt sets up, and submits if that succeeded. */
  function Calls(a: Attempt): seq<Effect> {
    [Setup] + (if a.SetupFails? then [] else [Submit(a.Works? || a.delivered)])
  }

  /**
   * A failed attempt is reset, and made a second time exactly when a setup lost its
   * connection or a submit was cut off before it; the second one's error counts.
   */
  lemma TurnExactly(first: Attempt, second: Attempt)
    ensures
      var again := (first.SetupFails? && first.error.connection) || (first.SubmitFails? && first.error.preSubmitDisconnect);
      var last := if again then second else first;
      && TurnEffects(first, second)
         == Calls(first) + (if first.Works? then [] else [Reset])
            + (if again then Calls(second) + (if second.Works? then [] else [Reset]) else [])
      && TurnError(first, second) == if last.Works? then None else Some(last.error)
  {
    assert EffectsOf(first) == Calls(first) && EffectsOf(second) == Calls(second);
    assert forall a: seq<Effect> :: a + [] == a;
    Grouped(Calls(first), [Reset], Calls(second), [Reset]);
  }

  lemma Grouped<T>(a: seq<T>, b: seq<T>, c: seq<T>, d: seq<T>)
    ensures a + b + c + d == a + b + (c + d)
  {
  }

  /** A turn makes at most two attempts, resets once per failure, and throws exactly when its last attempt failed. */
  lemma RecoveryIsBounded(first: Attempt, second: Attempt)
    ensures 1 <= AttemptsMade(first, second) <= 2
    ensures AttemptsMade(first, second) == 2 <==>
            (first.SetupFails? && first.error.connection) || (first.SubmitFails? && first.error.preSubmitDisconnect)
    ensures CountOf(TurnEffects(first, second), Reset) == FailuresMet(first, second)
    ensures TurnError(first, second).Some? <==> FailuresMet(first, second) == AttemptsMade(first, second)
    ensures TurnError(first, second).Some? ==> TurnEffects(first, second)[|TurnEffects(first, second)| - 1] == Reset
  {
    CountTurn(first, second, Setup);
    CountTurn(first, second, Reset);
    CountEffects(first, Setup);
    CountEffects(second, Setup);
  }

  predicate Delivers(a: Attempt) {
    a.Works? || (a.SubmitFails? && a.delivered)
  }

  /**
   * The prompt reaches the provider at most once exactly when the first submit
   * did not deliver it while failing with the error that is retried, or the
   * retry does not deliver.
   */
  lemma DeliveredAtMostOnceExactly(first: Attempt, second: Attempt)
    ensures CountOf(TurnEffects(first, second), Submit(true)) <= 1 <==>
            !(first.SubmitFails? && first.error.preSubmitDisconnect && first.delivered && Delivers(second))
  {
    CountTurn(first, second, Submit(true));
    CountEffects(first, Submit(true));
    CountEffects(second, Submit(true));
  }

  /** If a `provider-disconnected` submit means undelivered, no turn delivers its prompt twice. */
  lemma NeverDeliveredTwice(first: Attempt, second: Attempt)
    requires first.SubmitFails? && first.error.preSubmitDisconnect ==> !first.delivered
    ensures CountOf(TurnEffects(first, second), Submit(true)) <= 1
  {
    DeliveredAtMostOnceExactly(first, second);
  }
}
