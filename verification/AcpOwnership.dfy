/**
 * Which ACP provider owns a task, and its session binding
 * (apps/desktop/src/bridge.ts:3580-3615, 3639-3709, 3796-3978).
 */
module AcpOwnership {
  // The machine follows one task. Its setups run one at a time (see AcpTurns) and
  // suspend at every native call; per-task and global resets of the renderer's
  // records may happen at any suspension, and a saved session of any provider and
  // mode may be restored or forgotten there.

  import opened Common

  datatype Provider = Cursor | Grok | Kimi

  /** The model, effort and Fast values remembered for a session. */
  datatype Selection = Selection(model: Option<string>, effort: Option<string>, fast: Option<bool>)

  /** One provider's sets and maps, as they concern one task. */
  datatype Slot = Slot(connected: bool, session: bool, delegation: Option<string>, selection: Option<Selection>)

  const EMPTY := Slot(false, false, None, None)

  /** What the renderer's sets and maps say about one task. */
  datatype Records = Records(cursor: Slot, grok: Slot, kimi: Slot, active: Option<Provider>) {
    function Of(p: Provider): Slot {
      match p
      case Cursor => cursor
      case Grok => grok
      case Kimi => kimi
    }

    function With(p: Provider, slot: Slot): Records {
      match p
      case Cursor => this.(cursor := slot)
      case Grok => this.(grok := slot)
      case Kimi => this.(kimi := slot)
    }
  }

  const NO_RECORDS := Records(EMPTY, EMPTY, EMPTY, None)

  /** `resetCursorConnectionState` and `resetStandardAcpConnectionState`, as they concern one task. */
  function Reset(v: Records, p: Provider): Records {
    v.With(p, EMPTY).(active := if v.active == Some(p) then None else v.active)
  }

  /** After a successful connect: the other providers are reset and the new one owns the task. */
  function Adopted(v: Records, p: Provider, launch: Selection): Records {
    match p
    case Cursor =>
      Reset(Reset(v, Grok), Kimi).With(p, Slot(true, false, None, None)).(active := Some(p))
    case Grok =>
      Reset(Reset(v, Cursor), Kimi).With(p, Slot(true, false, v.grok.delegation, Some(launch))).(active := Some(p))
    case Kimi =>
      Reset(Reset(v, Cursor), Grok).With(p, v.kimi.(connected := true, session := false)).(active := Some(p))
  }

  /** After a session was started or resumed; only Grok takes its selection from the launch. */
  function Bound(v: Records, p: Provider, mode: string, launch: Selection): Records {
    v.With(p, Slot(v.Of(p).connected, true, Some(mode), if p.Grok? then Some(launch) else None))
  }

  /** Whether a setup must bind a session. */
  predicate NeedsSession(v: Records, p: Provider, mode: string) {
    !v.Of(p).session || v.Of(p).delegation != Some(mode)
  }

  predicate Owns(v: Records, p: Provider) {
    v.Of(p).connected && v.active == Some(p)
  }

  /** Grok fixes its model and effort at launch, so another selection needs another connection. */
  predicate RoutingChanged(v: Records, p: Provider, launch: Selection) {
    p.Grok? && v.grok.connected
    && (var known := v.grok.selection.GetOr(Selection(None, None, None));
        known.model != launch.model || known.effort != launch.effort)
  }

  // ---- one task's setups ----------------------------------------------------

  /** What a setup was asked for; no mode means the catalog probe, which only connects. */
  datatype Goal = Goal(provider: Provider, mode: Option<string>, launch: Selection)

  /** Where the running setup is suspended. */
  datatype Stage =
    | Idle
    | CheckingLive(goal: Goal)
    | Connecting(goal: Goal)
    | Certifying(goal: Goal)
    | Connected(goal: Goal)
    | Resuming(goal: Goal, savedMode: string)
    | Starting(goal: Goal)
    | Refreshing(goal: Goal)
    | Done(goal: Goal)
    | Failed

  /** A session of the native process, with the connect it belongs to. */
  datatype Session = Session(connect: nat, mode: string)

  /**
   * History of the native side: successful connects of the task, the last one's
   * provider and what it was launched with, and its session.
   */
  datatype Native = Native(connects: nat, provider: Option<Provider>, session: Option<Session>, launch: Selection)

  /** A persisted session that may be resumed. */
  datatype Saved = Saved(provider: Provider, mode: string)

  datatype State = State(v: Records, stage: Stage, saved: Option<Saved>, native: Native)

  datatype Liveness = Live | Dead | Unknown

  datatype Resumption = Resumed | Stale | ResumeError

  datatype Event =
    | Begin(goal: Goal)
    | LiveReply(liveness: Liveness, mayResume: bool)
    | ConnectReply(ok: bool)
    | CertifyReply(mayResume: bool)
    | Continue(mayResume: bool)
    | ResumeReply(resumption: Resumption, named: bool)
    | StartReply(ok: bool, named: bool)
    | RefreshReply
    | Finish
    | ResetRecords(provider: Provider)
    | ForgetSaved
    | RestoreSaved(saved: Saved)

  const INITIAL := State(NO_RECORDS, Idle, None, Native(0, None, None, Selection(None, None, None)))

  /** Whether a saved session matches the setup; `mayResume` stands for the workspace and route checks. */
  predicate Resumable(saved: Option<Saved>, goal: Goal, mayResume: bool) {
    mayResume && goal.mode.Some? && saved == Some(Saved(goal.provider, goal.mode.value))
  }

  /** The session part of a setup, up to its native call. */
  function ToSession(s: State, goal: Goal, mayResume: bool): State {
    if goal.mode.None? || !NeedsSession(s.v, goal.provider, goal.mode.value) then s.(stage := Done(goal))
    else if Resumable(s.saved, goal, mayResume) then s.(stage := Resuming(goal, s.saved.value.mode))
    else s.(stage := Starting(goal))
  }

  /** The standard providers' decision to connect, made after any liveness check. */
  function ToConnection(s: State, goal: Goal, routingChanged: bool, mayResume: bool): State {
    if !Owns(s.v, goal.provider) || routingChanged then s.(stage := Connecting(goal))
    else ToSession(s, goal, mayResume)
  }

  /** A thrown setup: Cursor's own `catch` resets its records. */
  function Thrown(s: State, goal: Goal): State {
    s.(stage := Failed, v := if goal.provider.Cursor? then Reset(s.v, Cursor) else s.v)
  }

  /** A session call succeeded: the native side is bound, then the records are. */
  function ToBound(s: State, goal: Goal, mode: string, named: bool): State
    requires goal.mode.Some?
  {
    s.(v := Bound(s.v, goal.provider, goal.mode.value, goal.launch),
       native := s.native.(session := Some(Session(s.native.connects, mode))),
       saved := if named then Some(Saved(goal.provider, goal.mode.value)) else s.saved,
       stage := if goal.provider.Cursor? then Refreshing(goal) else Done(goal))
  }

  predicate Enabled(s: State, e: Event) {
    match e
    case Begin(goal) => s.stage.Idle? && (goal.mode.None? ==> goal.provider.Cursor?)
    case LiveReply(_, _) => s.stage.CheckingLive?
    case ConnectReply(_) => s.stage.Connecting?
    case CertifyReply(_) => s.stage.Certifying?
    case Continue(_) => s.stage.Connected?
    case ResumeReply(_, _) => s.stage.Resuming? && s.stage.goal.mode.Some?
    case StartReply(_, _) => s.stage.Starting? && s.stage.goal.mode.Some?
    case RefreshReply => s.stage.Refreshing?
    case Finish => s.stage.Done? || s.stage.Failed?
    case ResetRecords(_) => true
    case ForgetSaved => true
    case RestoreSaved(_) => true
  }

  function Next(s: State, e: Event): State
    requires Enabled(s, e)
  {
    match e
    case Begin(goal) =>
      var changed := RoutingChanged(s.v, goal.provider, goal.launch);
      if Owns(s.v, goal.provider) && !changed then s.(stage := CheckingLive(goal))
      else if goal.provider.Cursor? then s.(stage := Connecting(goal))
      else ToConnection(s, goal, changed, false)
    case LiveReply(liveness, mayResume) =>
      var goal := s.stage.goal;
      (match liveness
       case Unknown => Thrown(s, goal)
       case Dead =>
         var t := s.(v := Reset(s.v, goal.provider));
         if goal.provider.Cursor? then t.(stage := Connecting(goal)) else ToConnection(t, goal, false, mayResume)
       case Live =>
         if goal.provider.Cursor? then s.(stage := Connected(goal)) else ToConnection(s, goal, false, mayResume))
    case ConnectReply(ok) =>
      var goal := s.stage.goal;
      if ok then s.(stage := Certifying(goal), native := Native(s.native.connects + 1, Some(goal.provider), None, goal.launch))
      else Thrown(s, goal)
    case CertifyReply(mayResume) =>
      var goal := s.stage.goal;
      var t := s.(v := Adopted(s.v, goal.provider, goal.launch));
      if goal.provider.Cursor? then t.(stage := Connected(goal)) else ToSession(t, goal, mayResume)
    case Continue(mayResume) => ToSession(s, s.stage.goal, mayResume)
    case ResumeReply(resumption, named) =>
      var goal := s.stage.goal;
      (match resumption
       case Resumed => ToBound(s, goal, s.stage.savedMode, named)
       case Stale => s.(saved := None, stage := Starting(goal))
       case ResumeError => Thrown(s, goal))
    case StartReply(ok, named) =>
      var goal := s.stage.goal;
      if ok then ToBound(s, goal, goal.mode.value, named) else Thrown(s, goal)
    case RefreshReply => s.(stage := Done(s.stage.goal))
    case Finish => s.(stage := Idle)
    case ResetRecords(p) => s.(v := Reset(s.v, p))
    case ForgetSaved => s.(saved := None)
    case RestoreSaved(saved) => s.(saved := Some(saved))
  }

  predicate Possible(s: State, run: seq<Event>)
    decreases |run|
  {
    run == [] || (Enabled(s, run[0]) && Possible(Next(s, run[0]), run[1..]))
  }

  function After(s: State, run: seq<Event>): State
    requires Possible(s, run)
    decreases |run|
  {
    if run == [] then s else After(Next(s, run[0]), run[1..])
  }

  // ---- invariant ------------------------------------------------------------

  /** A provider has the task in its connection set exactly when the active map names it. */
  predicate Exclusive(v: Records) {
    forall p: Provider :: v.Of(p).connected <==> v.active == Some(p)
  }

  /** The native process holds a session of its latest connect, by this provider and in this mode. */
  predicate Holds(n: Native, p: Provider, mode: string) {
    n.provider == Some(p) && n.session == Some(Session(n.connects, mode))
  }

  /** The latest connect was launched with the model and effort of a Grok setup's goal. */
  predicate LaunchedFor(n: Native, goal: Goal) {
    goal.provider.Grok? ==> n.launch.model == goal.launch.model && n.launch.effort == goal.launch.effort
  }

  /**
   * Between a native connect and the bookkeeping after it the records lag behind;
   * otherwise a recorded connection or session is the native one.
   */
  predicate RecordsTrue(s: State) {
    !s.stage.Certifying? ==>
      && (forall p: Provider :: s.v.Of(p).connected ==> s.native.provider == Some(p))
      && (forall p: Provider :: s.v.Of(p).session ==>
            s.v.Of(p).delegation.Some? && Holds(s.native, p, s.v.Of(p).delegation.value))
      && (s.v.grok.connected ==>
            && s.v.grok.selection.Some?
            && s.v.grok.selection.value.model == s.native.launch.model
            && s.v.grok.selection.value.effort == s.native.launch.effort)
  }

  predicate StageOk(s: State) {
    match s.stage
    case CheckingLive(goal) => s.native.provider == Some(goal.provider) && LaunchedFor(s.native, goal)
    case Certifying(goal) => s.native.provider == Some(goal.provider) && LaunchedFor(s.native, goal)
    case Connected(goal) => s.native.provider == Some(goal.provider) && LaunchedFor(s.native, goal)
    case Resuming(goal, mode) =>
      s.native.provider == Some(goal.provider) && LaunchedFor(s.native, goal) && goal.mode == Some(mode)
    case Starting(goal) => s.native.provider == Some(goal.provider) && LaunchedFor(s.native, goal)
    case Refreshing(goal) => goal.mode.Some? && Holds(s.native, goal.provider, goal.mode.value) && LaunchedFor(s.native, goal)
    case Done(goal) => LaunchedFor(s.native, goal) && (goal.mode.Some? ==> Holds(s.native, goal.provider, goal.mode.value))
    case _ => true
  }

  predicate Inv(s: State) {
    Exclusive(s.v) && RecordsTrue(s) && StageOk(s)
  }

  /** Adopting leaves the task in the adopted provider's set alone, with no session anywhere. */
  lemma AdoptedOwnsAlone(v: Records, p: Provider, launch: Selection)
    ensures
      var w := Adopted(v, p, launch);
      && w.active == Some(p)
      && forall q: Provider :: (w.Of(q).connected <==> q == p) && !w.Of(q).session
  {
  }

  /** Resetting every provider leaves no record. */
  lemma ResetsLeaveNothing(v: Records)
    ensures Reset(Reset(Reset(v, Cursor), Grok), Kimi) == NO_RECORDS
  {
    match v.active
    case None =>
    case Some(p) => assert p == Cursor || p == Grok || p == Kimi;
  }

  lemma InvReset(s: State, p: Provider)
    requires Inv(s)
    ensures Inv(s.(v := Reset(s.v, p)))
  {
  }

  lemma InvThrown(s: State, goal: Goal)
    requires Inv(s) && !s.stage.Certifying?
    ensures Inv(Thrown(s, goal))
  {
  }

  lemma InvToSession(s: State, goal: Goal, mayResume: bool)
    requires Exclusive(s.v) && RecordsTrue(s.(stage := Idle)) && s.native.provider == Some(goal.provider)
    requires LaunchedFor(s.native, goal)
    ensures Inv(ToSession(s, goal, mayResume))
  {
  }

  lemma InvToConnection(s: State, goal: Goal, routingChanged: bool, mayResume: bool)
    requires Exclusive(s.v) && RecordsTrue(s.(stage := Idle))
    requires Owns(s.v, goal.provider) && !routingChanged ==> LaunchedFor(s.native, goal)
    ensures Inv(ToConnection(s, goal, routingChanged, mayResume))
  {
    if Owns(s.v, goal.provider) && !routingChanged {
      InvToSession(s, goal, mayResume);
    }
  }

  lemma InvToBound(s: State, goal: Goal, named: bool)
    requires Inv(s) && !s.stage.Certifying? && goal.mode.Some? && s.native.provider == Some(goal.provider)
    requires LaunchedFor(s.native, goal)
    ensures Inv(ToBound(s, goal, goal.mode.value, named))
  {
    var t := ToBound(s, goal, goal.mode.value, named);
    forall p: Provider
      ensures t.v.Of(p).connected ==> s.v.Of(p).connected
      ensures t.v.Of(p).session ==> p == goal.provider || s.v.Of(p).session
    {
    }
  }

  lemma InvNext(s: State, e: Event)
    requires Inv(s) && Enabled(s, e)
    ensures Inv(Next(s, e))
  {
    match e
    case Begin(goal) =>
      if !Owns(s.v, goal.provider) || RoutingChanged(s.v, goal.provider, goal.launch) {
        InvToConnection(s, goal, RoutingChanged(s.v, goal.provider, goal.launch), false);
      }
    case LiveReply(liveness, mayResume) =>
      var goal := s.stage.goal;
      InvThrown(s, goal);
      InvReset(s, goal.provider);
      InvToConnection(s.(v := Reset(s.v, goal.provider)), goal, false, mayResume);
      InvToConnection(s, goal, false, mayResume);
    case ConnectReply(_) =>
      InvThrown(s, s.stage.goal);
    case CertifyReply(mayResume) =>
      var goal := s.stage.goal;
      AdoptedOwnsAlone(s.v, goal.provider, goal.launch);
      InvToSession(s.(v := Adopted(s.v, goal.provider, goal.launch)), goal, mayResume);
    case Continue(mayResume) =>
      InvToSession(s, s.stage.goal, mayResume);
    case ResumeReply(_, named) =>
      InvToBound(s, s.stage.goal, named);
      InvThrown(s, s.stage.goal);
    case StartReply(_, named) =>
      InvToBound(s, s.stage.goal, named);
      InvThrown(s, s.stage.goal);
    case RefreshReply =>
    case Finish =>
    case ResetRecords(p) =>
      InvReset(s, p);
    case ForgetSaved =>
    case RestoreSaved(_) =>
  }

  lemma {:induction false} EveryRunKeepsInv(s: State, run: seq<Event>)
    requires Inv(s) && Possible(s, run)
    ensures Inv(After(s, run))
    decreases |run|
  {
    if run != [] {
      InvNext(s, run[0]);
      EveryRunKeepsInv(Next(s, run[0]), run[1..]);
    }
  }

  /**
   * In every run of setups and resets a task is in a provider's connection set
   * exactly when the active map names that provider, so at most one set holds it.
   */
  lemma OwnershipIsExclusive(run: seq<Event>)
    requires Possible(INITIAL, run)
    ensures
      var v := After(INITIAL, run).v;
      && Exclusive(v)
      && forall p, q :: v.Of(p).connected && v.Of(q).connected ==> p == q
  {
    EveryRunKeepsInv(INITIAL, run);
  }

  /**
   * A setup that completes leaves the native process with a session of its
   * latest successful connect, by the requested provider and in the requested
   * delegation mode, even when resets emptied the records while it ran; and Grok's
   * connect was launched with the requested model and effort.
   */
  lemma CompletedSetupIsBound(run: seq<Event>)
    requires Possible(INITIAL, run) && After(INITIAL, run).stage.Done? && After(INITIAL, run).stage.goal.mode.Some?
    ensures
      var s := After(INITIAL, run);
      var goal := s.stage.goal;
      && Holds(s.native, goal.provider, goal.mode.value)
      && (goal.provider.Grok? ==>
            s.native.launch.model == goal.launch.model && s.native.launch.effort == goal.launch.effort)
  {
    EveryRunKeepsInv(INITIAL, run);
  }

  // ---- what each answer leads to ------------------------------------------------

  /**
   * Where a setup stands once its connection is certain: done if only a connection
   * was asked for or a session in the wanted mode is recorded, resuming if a
   * matching saved session may be, and else starting a session.
   */
  predicate SettlesSession(s: State, goal: Goal, mayResume: bool, stage: Stage) {
    var bound := s.v.Of(goal.provider).session && s.v.Of(goal.provider).delegation == goal.mode;
    if goal.mode.None? || bound then stage == Done(goal)
    else if mayResume && s.saved.Some? && s.saved.value.provider == goal.provider && s.saved.value.mode == goal.mode.value
    then stage == Resuming(goal, goal.mode.value)
    else stage == Starting(goal)
  }

  /** Nothing but the stage changed. */
  predicate OnlyStage(s: State, t: State) {
    t.v == s.v && t.saved == s.saved && t.native == s.native
  }

  /** A setup that fails changes nothing native; only Cursor's records go. */
  predicate FailsAs(s: State, goal: Goal, t: State) {
    && t.stage.Failed? && t.saved == s.saved && t.native == s.native
    && (!goal.provider.Cursor? ==> t.v == s.v)
    && (goal.provider.Cursor? ==>
          && t.v.cursor == Slot(false, false, None, None) && t.v.grok == s.v.grok && t.v.kimi == s.v.kimi
          && t.v.active == if s.v.active == Some(Cursor) then None else s.v.active)
  }

  /** The liveness check and the connect. */
  lemma ConnectionAnswers(s: State, e: Event)
    requires Enabled(s, e)
    ensures
      e.LiveReply? ==>
        var goal, t := s.stage.goal, Next(s, e);
        match e.liveness
        case Unknown => FailsAs(s, goal, t)
        case Dead =>
          && t.stage == Connecting(goal) && t.native == s.native && t.saved == s.saved
          && t.v.Of(goal.provider) == Slot(false, false, None, None) && t.v.active != Some(goal.provider)
        case Live =>
          && OnlyStage(s, t)
          && if goal.provider.Cursor? then t.stage == Connected(goal)
             else if s.v.Of(goal.provider).connected && s.v.active == Some(goal.provider)
             then SettlesSession(s, goal, e.mayResume, t.stage)
             else t.stage == Connecting(goal)
    ensures
      e.ConnectReply? ==>
        var goal, t := s.stage.goal, Next(s, e);
        if e.ok
        then t.stage == Certifying(goal) && t.v == s.v && t.saved == s.saved
             && t.native == Native(s.native.connects + 1, Some(goal.provider), None, goal.launch)
        else FailsAs(s, goal, t)
  {
  }

  /** A certified connection is the task's only one, and the setup goes on to its session. */
  lemma CertifiedConnectionOwns(s: State, e: Event)
    requires Enabled(s, e) && (e.CertifyReply? || e.Continue?)
    ensures
      var goal, t := s.stage.goal, Next(s, e);
      && t.native == s.native && t.saved == s.saved
      && (e.Continue? ==> t.v == s.v && SettlesSession(s, goal, e.mayResume, t.stage))
      && (e.CertifyReply? ==>
            && t.v.active == Some(goal.provider) && t.v.Of(goal.provider).connected && !t.v.Of(goal.provider).session
            && (forall q: Provider :: q != goal.provider ==> t.v.Of(q) == Slot(false, false, None, None))
            && t.v.Of(goal.provider) == (match goal.provider
                                         case Cursor => Slot(true, false, None, None)
                                         case Grok => Slot(true, false, s.v.grok.delegation, Some(goal.launch))
                                         case Kimi => Slot(true, false, s.v.kimi.delegation, s.v.kimi.selection))
            && if goal.provider.Cursor? then t.stage == Connected(goal)
               else SettlesSession(t, goal, e.mayResume, t.stage))
  {
    if e.CertifyReply? {
      AdoptedOwnsAlone(s.v, s.stage.goal.provider, s.stage.goal.launch);
    }
  }

  /** The session call succeeded. */
  predicate BindsAs(s: State, goal: Goal, mode: string, named: bool, t: State) {
    && t.native == s.native.(session := Some(Session(s.native.connects, mode)))
    && t.v.Of(goal.provider) ==
         Slot(s.v.Of(goal.provider).connected, true, goal.mode, if goal.provider.Grok? then Some(goal.launch) else None)
    && (forall q: Provider :: q != goal.provider ==> t.v.Of(q) == s.v.Of(q)) && t.v.active == s.v.active
    && (goal.mode.Some? && named ==> t.saved == Some(Saved(goal.provider, goal.mode.value)))
    && (!named ==> t.saved == s.saved)
    && t.stage == if goal.provider.Cursor? then Refreshing(goal) else Done(goal)
  }

  lemma SessionAnswers(s: State, e: Event)
    requires Enabled(s, e)
    ensures
      e.ResumeReply? ==>
        var goal, t := s.stage.goal, Next(s, e);
        match e.resumption
        case Resumed => BindsAs(s, goal, s.stage.savedMode, e.named, t)
        case Stale => t.stage == Starting(goal) && t.saved.None? && t.v == s.v && t.native == s.native
        case ResumeError => FailsAs(s, goal, t)
    ensures
      e.StartReply? ==>
        var goal, t := s.stage.goal, Next(s, e);
        if e.ok then BindsAs(s, goal, goal.mode.value, e.named, t) else FailsAs(s, goal, t)
    ensures e.RefreshReply? ==> OnlyStage(s, Next(s, e)) && Next(s, e).stage == Done(s.stage.goal)
    ensures e.Finish? ==> OnlyStage(s, Next(s, e)) && Next(s, e).stage.Idle?
  {
  }

  /** Resets and saved sessions change nothing of a running setup. */
  lemma OutsideChanges(s: State, e: Event)
    requires e.ResetRecords? || e.ForgetSaved? || e.RestoreSaved?
    ensures
      var t := Next(s, e);
      && t.stage == s.stage && t.native == s.native
      && (e.ResetRecords? ==>
            && t.saved == s.saved && t.v.Of(e.provider) == Slot(false, false, None, None)
            && t.v.active == (if s.v.active == Some(e.provider) then None else s.v.active)
            && forall q: Provider :: q != e.provider ==> t.v.Of(q) == s.v.Of(q))
      && (!e.ResetRecords? ==> t.v == s.v && t.saved == if e.RestoreSaved? then Some(e.saved) else None)
  {
  }

  /** A setup begins with the liveness check if the task is owned and launched as wanted, and else connects. */
  lemma BeginAsks(s: State, goal: Goal)
    requires Inv(s) && Enabled(s, Begin(goal))
    ensures
      var t := Next(s, Begin(goal));
      && OnlyStage(s, t)
      && t.stage ==
         if s.v.Of(goal.provider).connected && s.v.active == Some(goal.provider)
            && (goal.provider.Grok? ==>
                  s.native.launch.model == goal.launch.model && s.native.launch.effort == goal.launch.effort)
         then CheckingLive(goal) else Connecting(goal)
  {
  }

  /** The answers that carry a setup on. */
  function Good(s: State): Event
    requires !s.stage.Idle?
  {
    match s.stage
    case CheckingLive(_) => LiveReply(Live, false)
    case Connecting(_) => ConnectReply(true)
    case Certifying(_) => CertifyReply(false)
    case Connected(_) => Continue(false)
    case Resuming(_, _) => ResumeReply(Resumed, true)
    case Starting(_) => StartReply(true, true)
    case Refreshing(_) => RefreshReply
    case _ => Finish
  }

  function Ahead(stage: Stage): nat {
    match stage
    case CheckingLive(_) => 7
    case Connecting(_) => 6
    case Certifying(_) => 5
    case Connected(_) => 4
    case Resuming(_, _) => 3
    case Starting(_) => 3
    case Refreshing(_) => 2
    case Done(_) => 1
    case Failed => 1
    case Idle => 0
  }

  /** Good answers bring every setup closer to its end, and never fail it. */
  lemma GoodAnswersComplete(s: State)
    requires Inv(s) && !s.stage.Idle? && (s.stage.Starting? ==> s.stage.goal.mode.Some?)
    ensures Enabled(s, Good(s))
    ensures
      var t := Next(s, Good(s));
      Inv(t) && Ahead(t.stage) < Ahead(s.stage) && !t.stage.Failed? && (t.stage.Starting? ==> t.stage.goal.mode.Some?)
  {
    InvNext(s, Good(s));
  }

  // ---- when a setup connects ----------------------------------------------------

  /** One setup: whatever happens after its beginning until another one begins. */
  predicate OneSetup(run: seq<Event>) {
    forall e :: e in run ==> !e.Begin?
  }

  /** The connection is past its decision: no further connect before the next setup. */
  predicate PastConnecting(stage: Stage) {
    !stage.CheckingLive? && !stage.Connecting?
  }

  lemma {:induction false} NoFurtherConnect(s: State, run: seq<Event>)
    requires Possible(s, run) && OneSetup(run) && PastConnecting(s.stage)
    ensures PastConnecting(After(s, run).stage) && After(s, run).native.connects == s.native.connects
    decreases |run|
  {
    if run != [] {
      assert run[0] in run && forall e :: e in run[1..] ==> e in run;
      NoFurtherConnect(Next(s, run[0]), run[1..]);
    }
  }

  lemma {:induction false} ConnectingConnectsOnce(s: State, run: seq<Event>)
    requires Possible(s, run) && OneSetup(run) && s.stage.Connecting? && After(s, run).stage.Done?
    ensures After(s, run).native.connects == s.native.connects + 1
    decreases |run|
  {
    assert run[0] in run && forall e :: e in run[1..] ==> e in run;
    var t := Next(s, run[0]);
    if t.stage.Connecting? {
      ConnectingConnectsOnce(t, run[1..]);
    } else {
      NoFurtherConnect(t, run[1..]);
      if t.stage.Failed? {
        FailedStays(t, run[1..]);
      }
    }
  }

  lemma {:induction false} FailedStays(s: State, run: seq<Event>)
    requires Possible(s, run) && OneSetup(run) && (s.stage.Failed? || s.stage.Idle?)
    ensures !After(s, run).stage.Done?
    decreases |run|
  {
    if run != [] {
      assert run[0] in run && forall e :: e in run[1..] ==> e in run;
      FailedStays(Next(s, run[0]), run[1..]);
    }
  }

  /** The answer to the liveness check, the task still owned where the source looks again. */
  ghost predicate FoundLive(s: State, run: seq<Event>)
    requires Possible(s, run)
    decreases |run|
  {
    run != [] &&
    if run[0].LiveReply? then
      s.stage.CheckingLive? && run[0].liveness.Live?
      && (s.stage.goal.provider.Cursor?
          || (s.v.Of(s.stage.goal.provider).connected && s.v.active == Some(s.stage.goal.provider)))
    else FoundLive(Next(s, run[0]), run[1..])
  }

  lemma {:induction false} CheckingConnectsExactly(s: State, run: seq<Event>)
    requires Possible(s, run) && OneSetup(run) && s.stage.CheckingLive? && After(s, run).stage.Done?
    ensures After(s, run).native.connects == s.native.connects + (if FoundLive(s, run) then 0 else 1)
    decreases |run|
  {
    assert run[0] in run && forall e :: e in run[1..] ==> e in run;
    var t := Next(s, run[0]);
    if run[0].LiveReply? {
      if t.stage.Connecting? {
        ConnectingConnectsOnce(t, run[1..]);
      } else {
        NoFurtherConnect(t, run[1..]);
        if t.stage.Failed? {
          FailedStays(t, run[1..]);
        }
      }
    } else {
      CheckingConnectsExactly(t, run[1..]);
    }
  }

  /**
   * A setup that completes has connected again, and once, exactly when at its
   * beginning the task was not owned by its provider or was a Grok task launched
   * with another model or effort, or when the native process was not found live.
   */
  lemma SetupConnectsExactly(run: seq<Event>, goal: Goal, rest: seq<Event>)
    requires Possible(INITIAL, run) && Enabled(After(INITIAL, run), Begin(goal))
    requires
      var s := Next(After(INITIAL, run), Begin(goal));
      Possible(s, rest) && OneSetup(rest) && After(s, rest).stage.Done?
    ensures
      var s := After(INITIAL, run);
      var owned := s.v.Of(goal.provider).connected && s.v.active == Some(goal.provider);
      var launched := s.native.launch;
      var kept :=
        && owned
        && (goal.provider.Grok? ==> launched.model == goal.launch.model && launched.effort == goal.launch.effort)
        && FoundLive(Next(s, Begin(goal)), rest);
      After(Next(s, Begin(goal)), rest).native.connects == s.native.connects + (if kept then 0 else 1)
  {
    EveryRunKeepsInv(INITIAL, run);
    var s := Next(After(INITIAL, run), Begin(goal));
    if s.stage.CheckingLive? {
      CheckingConnectsExactly(s, rest);
    } else {
      ConnectingConnectsOnce(s, rest);
    }
  }

  // ---- the module's sets and maps -------------------------------------------

  class StandardAcpState {
    var sessions: set<string>
    var delegations: map<string, string>
    var selections: map<string, Selection>
    var connections: set<string>

    constructor ()
      ensures sessions == {} && delegations == map[] && selections == map[] && connections == {}
    {
      sessions, delegations, selections, connections := {}, map[], map[], {};
    }

    method Forget(task: string)
      modifies this
      ensures connections == old(connections) - {task} && sessions == old(sessions) - {task}
      ensures delegations == old(delegations) - {task} && selections == old(selections) - {task}
    {
      connections := connections - {task};
      sessions := sessions - {task};
      delegations := delegations - {task};
      selections := selections - {task};
    }

    method Clear()
      modifies this
      ensures connections == {} && sessions == {} && delegations == map[] && selections == map[]
    {
      connections, sessions, delegations, selections := {}, {}, map[], map[];
    }
  }

  class AcpRegistry {
    var cursorConnected: set<string>
    var cursorSessions: set<string>
    var cursorDelegations: map<string, string>
    var cursorSelections: map<string, Selection>
    const grok: StandardAcpState
    const kimi: StandardAcpState
    var active: map<string, Provider>

    constructor ()
      ensures Valid() && fresh(grok) && fresh(kimi)
      ensures forall task :: View(task) == NO_RECORDS
    {
      cursorConnected, cursorSessions, cursorDelegations, cursorSelections := {}, {}, map[], map[];
      active := map[];
      grok := new StandardAcpState();
      kimi := new StandardAcpState();
    }

    ghost predicate Valid() {
      grok != kimi
    }

    function StateOf(p: Provider): StandardAcpState
      requires !p.Cursor?
    {
      if p.Grok? then grok else kimi
    }

    function StandardSlot(p: Provider, task: string): Slot
      requires !p.Cursor?
      reads StateOf(p)
    {
      var state := StateOf(p);
      Slot(task in state.connections, task in state.sessions,
           Get(state.delegations, task), Get(state.selections, task))
    }

    /** The records of one task. */
    function View(task: string): Records
      reads this, grok, kimi
    {
      Records(
        Slot(task in cursorConnected, task in cursorSessions,
             Get(cursorDelegations, task), Get(cursorSelections, task)),
        StandardSlot(Grok, task), StandardSlot(Kimi, task), Get(active, task))
    }

    /** `resetCursorConnectionState(taskId)`. */
    method ResetCursor(task: string)
      requires Valid()
      modifies this
      ensures View(task) == Reset(old(View(task)), Cursor)
      ensures forall other :: other != task ==> View(other) == old(View(other))
    {
      cursorConnected := cursorConnected - {task};
      if task in active && active[task] == Cursor {
        active := active - {task};
      }
      cursorSessions := cursorSessions - {task};
      cursorDelegations := cursorDelegations - {task};
      cursorSelections := cursorSelections - {task};
    }

    /** `resetStandardAcpConnectionState(runtime, taskId)`. */
    method ResetStandard(p: Provider, task: string)
      requires Valid() && !p.Cursor?
      modifies this`active, StateOf(p)
      ensures View(task) == Reset(old(View(task)), p)
      ensures forall other :: other != task ==> View(other) == old(View(other))
    {
      StateOf(p).Forget(task);
      if task in active && active[task] == p {
        active := active - {task};
      }
    }

    /** The reset of every task of one provider. */
    method ResetAll(p: Provider)
      requires Valid()
      modifies this, grok, kimi
      ensures forall task :: View(task) == Reset(old(View(task)), p)
    {
      if p.Cursor? {
        cursorConnected, cursorSessions, cursorDelegations, cursorSelections := {}, {}, map[], map[];
      } else {
        StateOf(p).Clear();
      }
      active := map task | task in active && active[task] != p :: active[task];
    }

    /** `invalidateMcpSessionCaches`, on the ownership records. */
    method InvalidateMcpSessions()
      requires Valid()
      modifies this, grok, kimi
      ensures forall task :: View(task) == NO_RECORDS
    {
      ResetAll(Cursor);
      ResetAll(Grok);
      ResetAll(Kimi);
      forall task
        ensures View(task) == NO_RECORDS
      {
        ResetsLeaveNothing(old(View(task)));
      }
    }

    /** The end of `ensureCursorConnectionUnlocked`. */
    method AdoptCursor(task: string, launch: Selection)
      requires Valid()
      modifies this, grok, kimi
      ensures View(task) == Adopted(old(View(task)), Cursor, launch)
      ensures forall other :: other != task ==> View(other) == old(View(other))
    {
      ResetStandard(Grok, task);
      ResetStandard(Kimi, task);
      cursorConnected := cursorConnected + {task};
      active := active[task := Cursor];
      cursorSessions := cursorSessions - {task};
      cursorDelegations := cursorDelegations - {task};
      cursorSelections := cursorSelections - {task};
    }

    /** The end of the connect branch of `ensureStandardAcpSessionUnlocked`. */
    method AdoptStandard(p: Provider, task: string, launch: Selection)
      requires Valid() && !p.Cursor?
      modifies this, grok, kimi
      ensures View(task) == Adopted(old(View(task)), p, launch)
      ensures forall other :: other != task ==> View(other) == old(View(other))
    {
      ResetCursor(task);
      if p.Grok? {
        ResetStandard(Kimi, task);
      } else {
        ResetStandard(Grok, task);
      }
      var state := StateOf(p);
      state.connections := state.connections + {task};
      active := active[task := p];
      state.sessions := state.sessions - {task};
      if p.Grok? {
        state.selections := state.selections[task := launch];
      }
    }

    /** The bookkeeping after a session was started or resumed. */
    method BindSession(p: Provider, task: string, mode: string, launch: Selection)
      requires Valid()
      modifies this, grok, kimi
      ensures View(task) == Bound(old(View(task)), p, mode, launch)
      ensures forall other :: other != task ==> View(other) == old(View(other))
    {
      if p.Cursor? {
        cursorSessions := cursorSessions + {task};
        cursorDelegations := cursorDelegations[task := mode];
        cursorSelections := cursorSelections - {task};
        return;
      }
      var state := StateOf(p);
      state.sessions := state.sessions + {task};
      state.delegations := state.delegations[task := mode];
      if p.Grok? {
        state.selections := state.selections[task := launch];
      } else {
        state.selections := state.selections - {task};
      }
    }
  }
}
