/**
 * Applying the composer's model, effort and Fast choice to an ACP session
 * (apps/desktop/src/bridge.ts:4008-4103).
 */
module AcpSelection {
  // The remembered selection, which spares redundant calls, is one object, read
  // from the map, changed in place after every successful call and stored again
  // at the end; a failed turn may leave it changed half way. A reset can drop the
  // map entry at any await.

  import opened Common

  /** Remembered values; None is the source's `undefined`. */
  datatype Selection = Selection(model: Option<string>, effort: Option<string>, fast: Option<bool>)

  /** The values the provider session really has. */
  datatype Real = Real(model: string, effort: string, fast: bool)

  /** What a turn asks for: a forwardable model, a nonempty effort, a Fast choice. */
  datatype Input = Input(model: Option<string>, effort: Option<string>, fast: Option<bool>)

  /** Which parameters the session's provider advertises for the requested model; Kimi has no Fast. */
  datatype Options = Options(effort: bool, fast: bool)

  const NOTHING := Selection(None, None, None)

  /** What is remembered is true of the session. */
  predicate TrueOf(remembered: Selection, actual: Real) {
    && (remembered.model.Some? ==> remembered.model.value == actual.model)
    && (remembered.effort.Some? ==> remembered.effort.value == actual.effort)
    && (remembered.fast.Some? ==> remembered.fast.value == actual.fast)
  }

  /** The session has everything requested that it lets one configure. */
  predicate Meets(actual: Real, input: Input, options: Options) {
    && (input.model.Some? ==> actual.model == input.model.value)
    && (input.model.Some? && options.effort && input.effort.Some? ==> actual.effort == input.effort.value)
    && (input.model.Some? && options.fast && input.fast.Some? ==> actual.fast == input.fast.value)
  }

  predicate WantsModel(known: Selection, input: Input) {
    input.model.Some? && known.model != input.model
  }

  predicate WantsEffort(known: Selection, input: Input, options: Options) {
    input.model.Some? && options.effort && input.effort.Some? && known.effort != input.effort
  }

  predicate WantsFast(known: Selection, input: Input, options: Options) {
    input.model.Some? && options.fast && input.fast.Some? && known.fast != input.fast
  }

  // ---- runs with interleaved resets -----------------------------------------

  /** Where an application is suspended; `known` is its object, `shared` whether the map still holds it. */
  datatype Stage =
    | Idle
    | SettingModel(input: Input, known: Selection, shared: bool)
    | SettingEffort(input: Input, options: Options, known: Selection, shared: bool)
    | SettingFast(input: Input, options: Options, known: Selection, shared: bool)
    | Applied(input: Input, options: Options)

  /** `calls` counts the provider calls made. */
  datatype State = State(remembered: Option<Selection>, actual: Real, stage: Stage, calls: nat)

  // Which parameters the session advertises is read after the model call and, for
  // Fast, once more after the effort call.
  datatype Event =
    | Begin(input: Input, selectable: bool, options: Options)
    | ModelReply(ok: bool, effort: string, fast: bool, options: Options)
    | EffortReply(ok: bool, fast: bool)
    | FastReply(ok: bool)
    | Finish
    | Drop
    | NewSession(actual: Real)

  /** The map entry after the application's object changed. */
  function Stored(s: State, known: Selection, shared: bool): State {
    if shared then s.(remembered := Some(known)) else s
  }

  function ToFast(s: State, input: Input, options: Options, known: Selection, shared: bool): State {
    if WantsFast(known, input, options)
    then s.(stage := SettingFast(input, options, known, shared), calls := s.calls + 1)
    else s.(stage := Applied(input, options), remembered := Some(known))
  }

  function ToEffort(s: State, input: Input, options: Options, known: Selection, shared: bool): State {
    if WantsEffort(known, input, options)
    then s.(stage := SettingEffort(input, options, known, shared), calls := s.calls + 1)
    else ToFast(s, input, options, known, shared)
  }

  predicate Enabled(s: State, e: Event) {
    match e
    case Begin(_, _, _) => s.stage.Idle?
    case ModelReply(_, _, _, _) => s.stage.SettingModel? && s.stage.input.model.Some?
    case EffortReply(_, _) => s.stage.SettingEffort? && s.stage.input.effort.Some?
    case FastReply(_) => s.stage.SettingFast? && s.stage.input.fast.Some?
    case Finish => s.stage.Applied?
    case Drop => true
    case NewSession(_) => s.stage.Idle?
  }

  function Next(s: State, e: Event): State
    requires Enabled(s, e)
  {
    match e
    case Begin(input, selectable, options) =>
      var known := s.remembered.GetOr(NOTHING);
      if WantsModel(known, input) then
        if selectable
        then s.(stage := SettingModel(input, known, s.remembered.Some?), calls := s.calls + 1)
        else s
      else ToEffort(s, input, options, known, s.remembered.Some?)
    case ModelReply(ok, effort, fast, options) =>
      var input, shared := s.stage.input, s.stage.shared;
      if !ok then s.(stage := Idle)
      else
        var known := Selection(input.model, None, None);
        ToEffort(Stored(s.(actual := Real(input.model.value, effort, fast)), known, shared), input, options, known, shared)
    case EffortReply(ok, fast) =>
      var input, shared := s.stage.input, s.stage.shared;
      var options := s.stage.options.(fast := fast);
      if !ok then s.(stage := Idle)
      else
        var known := s.stage.known.(effort := input.effort);
        ToFast(Stored(s.(actual := s.actual.(effort := input.effort.value)), known, shared), input, options, known, shared)
    case FastReply(ok) =>
      var input := s.stage.input;
      if !ok then s.(stage := Idle)
      else
        var known := s.stage.known.(fast := input.fast);
        s.(actual := s.actual.(fast := input.fast.value), remembered := Some(known), stage := Applied(input, s.stage.options))
    case Finish => s.(stage := Idle)
    case Drop =>
      s.(remembered := None,
         stage :=
           match s.stage
           case SettingModel(input, known, _) => SettingModel(input, known, false)
           case SettingEffort(input, options, known, _) => SettingEffort(input, options, known, false)
           case SettingFast(input, options, known, _) => SettingFast(input, options, known, false)
           case other => other)
    case NewSession(actual) => s.(actual := actual, remembered := None)
  }

  predicate Possible(s: State, run: seq<Event>)
    decreases |run|
  {
    run == [] || (Enabled(s, run[0]) && Possible(Next(s, run[0]), run[1..]))
  }

  function After(s: State, run: seq<Event>): State
    requires Possible(s, run)
    decreases |run|
  {
    if run == [] then s else After(Next(s, run[0]), run[1..])
  }

  /** Where an application goes once model and effort are as asked: to the Fast call, or to its end. */
  predicate GoesToFast(t: State, input: Input, options: Options, known: Selection, shared: bool, calls: nat) {
    if input.model.Some? && options.fast && input.fast.Some? && known.fast != input.fast
    then t.stage == SettingFast(input, options, known, shared) && t.calls == calls + 1
    else t.stage == Applied(input, options) && t.remembered == Some(known) && t.calls == calls
  }

  predicate GoesToEffort(t: State, input: Input, options: Options, known: Selection, shared: bool, calls: nat) {
    if input.model.Some? && options.effort && input.effort.Some? && known.effort != input.effort
    then t.stage == SettingEffort(input, options, known, shared) && t.calls == calls + 1
    else GoesToFast(t, input, options, known, shared, calls)
  }

  /** A failed call ends the application and changes nothing more. */
  predicate EndsAt(s: State, t: State) {
    t.stage.Idle? && t.remembered == s.remembered && t.actual == s.actual && t.calls == s.calls
  }

  /** An application asks for the model if it is not the remembered one, and otherwise goes on. */
  lemma BeginAsks(s: State, input: Input, selectable: bool, options: Options)
    requires s.stage.Idle?
    ensures
      var t, known := Next(s, Begin(input, selectable, options)), s.remembered.GetOr(Selection(None, None, None));
      && t.actual == s.actual
      && if input.model.Some? && known.model != input.model
         then
           if selectable
           then t.stage == SettingModel(input, known, s.remembered.Some?) && t.calls == s.calls + 1 && t.remembered == s.remembered
           else t == s
         else GoesToEffort(t, input, options, known, s.remembered.Some?, s.calls)
  {
  }

  /** What each answer of the session leads to; the options count as they are read after the answer. */
  lemma AnswersGoOn(s: State, e: Event)
    requires Enabled(s, e)
    ensures
      e.ModelReply? ==>
        var t, input, shared := Next(s, e), s.stage.input, s.stage.shared;
        if e.ok
        then t.actual == Real(input.model.value, e.effort, e.fast)
             && GoesToEffort(t, input, e.options, Selection(input.model, None, None), shared, s.calls)
        else EndsAt(s, t)
    ensures
      e.EffortReply? ==>
        var t, input, shared := Next(s, e), s.stage.input, s.stage.shared;
        if e.ok
        then t.actual == Real(s.actual.model, input.effort.value, s.actual.fast)
             && GoesToFast(t, input, Options(s.stage.options.effort, e.fast),
                           Selection(s.stage.known.model, input.effort, s.stage.known.fast), shared, s.calls)
        else EndsAt(s, t)
    ensures
      e.FastReply? ==>
        var t, input := Next(s, e), s.stage.input;
        if e.ok
        then t.actual == Real(s.actual.model, s.actual.effort, input.fast.value) && t.calls == s.calls
             && t.remembered == Some(Selection(s.stage.known.model, s.stage.known.effort, input.fast))
             && t.stage == Applied(input, s.stage.options)
        else EndsAt(s, t)
    ensures e.Finish? ==> EndsAt(s, Next(s, e))
    ensures e.NewSession? ==>
              Next(s, e).actual == e.actual && Next(s, e).remembered.None? && Next(s, e).stage.Idle? && Next(s, e).calls == s.calls
    ensures e.Drop? ==> Next(s, e).remembered.None? && Next(s, e).actual == s.actual && Next(s, e).calls == s.calls
  {
  }

  predicate StageOk(s: State) {
    match s.stage
    case SettingModel(input, known, shared) =>
      TrueOf(known, s.actual) && s.remembered == (if shared then Some(known) else None) && input.model.Some?
    case SettingEffort(input, options, known, shared) =>
      && TrueOf(known, s.actual) && s.remembered == (if shared then Some(known) else None)
      && WantsEffort(known, input, options) && !WantsModel(known, input)
    case SettingFast(input, options, known, shared) =>
      && TrueOf(known, s.actual) && s.remembered == (if shared then Some(known) else None)
      && WantsFast(known, input, options) && !WantsEffort(known, input, options) && !WantsModel(known, input)
    case Applied(input, options) => Meets(s.actual, input, options)
    case Idle => true
  }

  predicate Inv(s: State) {
    StageOk(s) && (s.remembered.Some? ==> TrueOf(s.remembered.value, s.actual))
  }

  lemma InvNext(s: State, e: Event)
    requires Inv(s) && Enabled(s, e)
    ensures Inv(Next(s, e))
  {
  }

  lemma {:induction false} EveryRunKeepsInv(s: State, run: seq<Event>)
    requires Inv(s) && Possible(s, run)
    ensures Inv(After(s, run))
    decreases |run|
  {
    if run != [] {
      InvNext(s, run[0]);
      EveryRunKeepsInv(Next(s, run[0]), run[1..]);
    }
  }

  /** A session about which nothing is remembered yet. */
  predicate Unknown(s: State) {
    s.remembered.None? && s.stage.Idle?
  }

  /** Over every run, failures and resets included, what is remembered is true of the session. */
  lemma RememberedIsTrue(s: State, run: seq<Event>)
    requires Unknown(s) && Possible(s, run)
    ensures
      var t := After(s, run);
      t.remembered.Some? ==> TrueOf(t.remembered.value, t.actual)
  {
    EveryRunKeepsInv(s, run);
  }

  /** A successful application leaves the session with the requested configurable values. */
  lemma AppliedMeetsTheRequest(s: State, run: seq<Event>)
    requires Unknown(s) && Possible(s, run) && After(s, run).stage.Applied?
    ensures
      var t := After(s, run);
      Meets(t.actual, t.stage.input, t.stage.options)
  {
    EveryRunKeepsInv(s, run);
  }

  /** What an application has just stored leaves nothing to ask for. */
  predicate Covered(s: State) {
    s.stage.Applied? && s.remembered.Some? ==>
      && !WantsModel(s.remembered.value, s.stage.input)
      && !WantsEffort(s.remembered.value, s.stage.input, s.stage.options)
      && !WantsFast(s.remembered.value, s.stage.input, s.stage.options)
  }

  lemma {:induction false} EveryRunKeepsCovered(s: State, run: seq<Event>)
    requires Inv(s) && Covered(s) && Possible(s, run)
    ensures Covered(After(s, run))
    decreases |run|
  {
    if run != [] {
      InvNext(s, run[0]);
      EveryRunKeepsCovered(Next(s, run[0]), run[1..]);
    }
  }

  /** Nothing but further applications of the same request. */
  predicate Repeats(run: seq<Event>, input: Input, options: Options) {
    forall e :: e in run ==>
      match e
      case Begin(i, _, o) => i == input && o == options
      case Drop => false
      case NewSession(_) => false
      case _ => true
  }

  /** The request has been applied, and is remembered in full. */
  predicate Served(s: State, input: Input, options: Options) {
    && (s.stage == Idle || s.stage == Applied(input, options))
    && s.remembered.Some?
    && !WantsModel(s.remembered.value, input)
    && !WantsEffort(s.remembered.value, input, options)
    && !WantsFast(s.remembered.value, input, options)
  }

  lemma {:induction false} ServedStays(s: State, run: seq<Event>, input: Input, options: Options)
    requires Served(s, input, options) && Possible(s, run) && Repeats(run, input, options)
    ensures
      var t := After(s, run);
      Served(t, input, options) && t.calls == s.calls && t.actual == s.actual && t.remembered == s.remembered
    decreases |run|
  {
    if run != [] {
      assert run[0] in run && forall e :: e in run[1..] ==> e in run;
      ServedStays(Next(s, run[0]), run[1..], input, options);
    }
  }

  /**
   * However often an applied request is applied again, it makes no provider call
   * and finds the session as it left it, until the memory is dropped.
   */
  lemma RepeatingMakesNoCalls(s: State, run: seq<Event>, more: seq<Event>)
    requires Unknown(s) && Possible(s, run) && After(s, run).stage.Applied? && After(s, run).remembered.Some?
    requires
      var t := After(s, run);
      Possible(t, more) && Repeats(more, t.stage.input, t.stage.options)
    ensures
      var t := After(s, run);
      var u := After(t, more);
      u.calls == t.calls && u.actual == t.actual && (u.stage == Idle || u.stage == t.stage) && Meets(u.actual, t.stage.input, t.stage.options)
  {
    EveryRunKeepsCovered(s, run);
    EveryRunKeepsInv(s, run);
    var t := After(s, run);
    ServedStays(t, more, t.stage.input, t.stage.options);
  }

  // ---- one application, undisturbed -------------------------------------------

  /** An application under way: its object, its session, the answers to come, and whether it has thrown. */
  datatype Application = Application(known: Selection, actual: Real, replies: seq<bool>, calls: nat, thrown: bool)

  predicate Succeeds(replies: seq<bool>) {
    |replies| == 0 || replies[0]
  }

  function Later(replies: seq<bool>): seq<bool> {
    if |replies| == 0 then [] else replies[1..]
  }

  function Called(a: Application): Application {
    a.(replies := Later(a.replies), calls := a.calls + 1)
  }

  /** A model switch resets the other parameters to values of the provider's own, here "" and false. */
  function ModelPart(a: Application, input: Input, selectable: bool): Application {
    if !WantsModel(a.known, input) then a
    else if !selectable then a.(thrown := true)
    else if !Succeeds(a.replies) then Called(a).(thrown := true)
    else Called(a).(known := Selection(input.model, None, None), actual := Real(input.model.value, "", false))
  }

  function EffortPart(a: Application, input: Input, options: Options): Application {
    if a.thrown || !WantsEffort(a.known, input, options) then a
    else if !Succeeds(a.replies) then Called(a).(thrown := true)
    else Called(a).(known := a.known.(effort := input.effort), actual := a.actual.(effort := input.effort.value))
  }

  function FastPart(a: Application, input: Input, options: Options): Application {
    if a.thrown || !WantsFast(a.known, input, options) then a
    else if !Succeeds(a.replies) then Called(a).(thrown := true)
    else Called(a).(known := a.known.(fast := input.fast), actual := a.actual.(fast := input.fast.value))
  }

  function Applying(a: Application, input: Input, selectable: bool, options: Options): Application {
    FastPart(EffortPart(ModelPart(a, input, selectable), input, options), input, options)
  }

  /** A throw may leave the object changed, but never untrue; without one the request is met and nothing is left to ask. */
  lemma ApplyingIsTrue(a: Application, input: Input, selectable: bool, options: Options)
    requires TrueOf(a.known, a.actual) && !a.thrown
    ensures
      var b := Applying(a, input, selectable, options);
      && TrueOf(b.known, b.actual)
      && (!b.thrown ==>
        && Meets(b.actual, input, options) && !WantsModel(b.known, input)
        && !WantsEffort(b.known, input, options) && !WantsFast(b.known, input, options))
      && (!WantsModel(a.known, input) && !WantsEffort(a.known, input, options) && !WantsFast(a.known, input, options) ==> b == a)
  {
  }

  /** Whether the model call switched the model. */
  predicate Switches(a: Application, input: Input) {
    input.model.Some? && a.known.model != input.model
  }

  /** A value asked for, of a parameter the model offers, that is not known to be set already. */
  predicate AsksFor<T(==)>(input: Input, offered: bool, wanted: Option<T>, known: Option<T>, switches: bool) {
    input.model.Some? && offered && wanted.Some? && (switches || known != wanted)
  }

  /**
   * An application that does not throw makes one call for a model that is not
   * the known one, one for the effort and one for Fast, each only if asked for,
   * offered and not known to be set; and leaves the session with what it set and
   * otherwise as it was, or as the model switch left it.
   */
  lemma ApplicationExactly(a: Application, input: Input, selectable: bool, options: Options)
    requires !a.thrown && !Applying(a, input, selectable, options).thrown
    ensures
      var b := Applying(a, input, selectable, options);
      var switches := Switches(a, input);
      var sets := AsksFor(input, options.effort, input.effort, a.known.effort, switches);
      var toggles := AsksFor(input, options.fast, input.fast, a.known.fast, switches);
      && b.calls == a.calls + (if switches then 1 else 0) + (if sets then 1 else 0) + (if toggles then 1 else 0)
      && b.actual == Real(
          if switches then input.model.value else a.actual.model,
          if sets then input.effort.value else if switches then "" else a.actual.effort,
          if toggles then input.fast.value else if switches then false else a.actual.fast)
      && b.known == Selection(
          if switches then input.model else a.known.model,
          if sets then input.effort else if switches then None else a.known.effort,
          if toggles then input.fast else if switches then None else a.known.fast)
  {
  }

  /** It throws exactly when the session has no model selector for a needed switch or a call fails; the calls before it stand. */
  lemma ThrowsExactly(a: Application, input: Input, selectable: bool, options: Options)
    requires !a.thrown
    ensures
      var switches := Switches(a, input);
      var sets := AsksFor(input, options.effort, input.effort, a.known.effort, switches);
      var toggles := AsksFor(input, options.fast, input.fast, a.known.fast, switches);
      var afterModel := if switches then Later(a.replies) else a.replies;
      var afterEffort := if sets then Later(afterModel) else afterModel;
      Applying(a, input, selectable, options).thrown <==>
      || (switches && (!selectable || !Succeeds(a.replies)))
      || (sets && !Succeeds(afterModel))
      || (toggles && !Succeeds(afterEffort))
  {
  }

  function FastRun(a: Application, input: Input, options: Options): seq<Event> {
    if a.thrown || !WantsFast(a.known, input, options) then [] else [FastReply(Succeeds(a.replies))]
  }

  function EffortRun(a: Application, input: Input, options: Options): seq<Event> {
    (if a.thrown || !WantsEffort(a.known, input, options) then [] else [EffortReply(Succeeds(a.replies), options.fast)])
    + FastRun(EffortPart(a, input, options), input, options)
  }

  function ModelRun(a: Application, input: Input, selectable: bool, options: Options): seq<Event> {
    (if !WantsModel(a.known, input) || !selectable then [] else [ModelReply(Succeeds(a.replies), "", false, options)])
    + EffortRun(ModelPart(a, input, selectable), input, options)
  }

  /** The state in which an application leaves the machine: a throw stores nothing new, but a shared object has changed. */
  function Left(a: Application, input: Input, options: Options, shared: bool): State {
    State(if a.thrown && !shared then None else Some(a.known), a.actual,
          if a.thrown then Idle else Applied(input, options), a.calls)
  }

  /** The state of the machine while an application runs. */
  predicate Amid(s: State, a: Application, shared: bool) {
    s.remembered == (if shared then Some(a.known) else None) && s.actual == a.actual && s.calls == a.calls && !a.thrown
  }

  lemma OneStep(s: State, e: Event, rest: seq<Event>)
    requires Enabled(s, e) && Possible(Next(s, e), rest)
    ensures Possible(s, [e] + rest) && After(s, [e] + rest) == After(Next(s, e), rest)
  {
    assert ([e] + rest)[1..] == rest;
  }

  lemma FastPartIsRun(s: State, a: Application, input: Input, options: Options, shared: bool)
    requires Amid(s, a, shared)
    ensures
      var t, run := ToFast(s, input, options, a.known, shared), FastRun(a, input, options);
      Possible(t, run) && After(t, run) == Left(FastPart(a, input, options), input, options, shared)
  {
    if WantsFast(a.known, input, options) {
      var t := ToFast(s, input, options, a.known, shared);
      assert FastRun(a, input, options)[1..] == [];
      assert Enabled(t, FastReply(Succeeds(a.replies)));
    }
  }

  lemma EffortPartIsRun(s: State, a: Application, input: Input, options: Options, shared: bool)
    requires Amid(s, a, shared)
    ensures
      var t, run := ToEffort(s, input, options, a.known, shared), EffortRun(a, input, options);
      Possible(t, run) && After(t, run) == Left(FastPart(EffortPart(a, input, options), input, options), input, options, shared)
  {
    var b := EffortPart(a, input, options);
    var rest := FastRun(b, input, options);
    if WantsEffort(a.known, input, options) {
      var t, e := ToEffort(s, input, options, a.known, shared), EffortReply(Succeeds(a.replies), options.fast);
      assert EffortRun(a, input, options) == [e] + rest && ([e] + rest)[1..] == rest;
      assert options.(fast := options.fast) == options;
      if !b.thrown {
        var u := Stored(t.(actual := b.actual), b.known, shared);
        assert Next(t, e) == ToFast(u, input, options, b.known, shared);
        FastPartIsRun(u, b, input, options, shared);
        assert ToFast(u, input, options, b.known, shared) == Next(t, e);
      }
    } else {
      assert EffortRun(a, input, options) == rest;
      FastPartIsRun(s, a, input, options, shared);
    }
  }

  lemma ModelPartIsRun(s: State, a: Application, input: Input, options: Options, shared: bool)
    requires Amid(s, a, shared) && WantsModel(a.known, input)
    ensures
      var t, run := s.(stage := SettingModel(input, a.known, shared), calls := s.calls + 1), ModelRun(a, input, true, options);
      Possible(t, run) && After(t, run) == Left(Applying(a, input, true, options), input, options, shared)
  {
    var b, e := ModelPart(a, input, true), ModelReply(Succeeds(a.replies), "", false, options);
    var t := s.(stage := SettingModel(input, a.known, shared), calls := s.calls + 1);
    if b.thrown {
      assert EffortRun(b, input, options) == [];
      OneStep(t, e, []);
    } else {
      var u := Stored(t.(actual := b.actual), b.known, shared);
      EffortPartIsRun(u, b, input, options, shared);
      OneStep(t, e, EffortRun(b, input, options));
    }
  }

  function Fresh(s: State, replies: seq<bool>): Application {
    Application(s.remembered.GetOr(NOTHING), s.actual, replies, s.calls, false)
  }

  /** From t on, the run `more` carries the application out. */
  ghost predicate CarriedOut(t: State, more: seq<Event>, a: Application, input: Input, selectable: bool, options: Options, shared: bool) {
    Possible(t, more) && After(t, more) == Left(Applying(a, input, selectable, options), input, options, shared)
  }

  lemma UnselectableEnds(s: State, a: Application, input: Input, options: Options)
    requires s.stage.Idle? && a == Fresh(s, a.replies) && WantsModel(a.known, input)
    ensures CarriedOut(Next(s, Begin(input, false, options)), ModelRun(a, input, false, options), a, input, false, options, s.remembered.Some?)
  {
  }

  lemma OtherModelIsSet(s: State, a: Application, input: Input, options: Options)
    requires s.stage.Idle? && a == Fresh(s, a.replies) && WantsModel(a.known, input)
    ensures CarriedOut(Next(s, Begin(input, true, options)), ModelRun(a, input, true, options), a, input, true, options, s.remembered.Some?)
  {
    ModelPartIsRun(s, a, input, options, s.remembered.Some?);
  }

  lemma SameModelGoesOn(s: State, a: Application, input: Input, selectable: bool, options: Options)
    requires s.stage.Idle? && a == Fresh(s, a.replies) && !WantsModel(a.known, input)
    ensures CarriedOut(Next(s, Begin(input, selectable, options)), ModelRun(a, input, selectable, options), a, input, selectable, options, s.remembered.Some?)
  {
    EffortPartIsRun(s, a, input, options, s.remembered.Some?);
    assert ModelRun(a, input, selectable, options) == EffortRun(a, input, options);
  }

  /** The undisturbed application is one of the machine's runs, its calls in the same order and with the same end. */
  lemma ApplyingIsARun(s: State, replies: seq<bool>, input: Input, selectable: bool, options: Options)
    requires s.stage.Idle?
    ensures
      var a := Fresh(s, replies);
      CarriedOut(s, [Begin(input, selectable, options)] + ModelRun(a, input, selectable, options), a, input, selectable, options, s.remembered.Some?)
  {
    var a := Fresh(s, replies);
    if !WantsModel(a.known, input) {
      SameModelGoesOn(s, a, input, selectable, options);
    } else if selectable {
      OtherModelIsSet(s, a, input, options);
    } else {
      UnselectableEnds(s, a, input, options);
    }
    OneStep(s, Begin(input, selectable, options), ModelRun(a, input, selectable, options));
  }

  // ---- the shared object ----------------------------------------------------

  /** The object held in the map. */
  class AppliedSelection {
    var model: Option<string>
    var effort: Option<string>
    var fast: Option<bool>

    constructor ()
      ensures View() == NOTHING
    {
      model, effort, fast := None, None, None;
    }

    function View(): Selection
      reads this
    {
      Selection(model, effort, fast)
    }
  }

  /** A provider session, answering the calls of one application from `replies`. */
  class ProviderSession {
    var actual: Real
    var replies: seq<bool>
    var calls: nat

    constructor (actual: Real, replies: seq<bool>)
      ensures this.actual == actual && this.replies == replies && calls == 0
    {
      this.actual, this.replies, calls := actual, replies, 0;
    }

    /** Whether the next call succeeds. */
    method Answer() returns (ok: bool)
      modifies this
      ensures calls == old(calls) + 1 && actual == old(actual)
      ensures ok == Succeeds(old(replies)) && replies == Later(old(replies))
    {
      ok := |replies| == 0 || replies[0];
      replies := if |replies| == 0 then [] else replies[1..];
      calls := calls + 1;
    }

    /** A model switch resets the other parameters to values of the provider's own. */
    method SetModel(model: string) returns (ok: bool)
      modifies this
      ensures calls == old(calls) + 1
      ensures ok == Succeeds(old(replies)) && replies == Later(old(replies))
      ensures actual == if ok then Real(model, "", false) else old(actual)
    {
      ok := Answer();
      if ok {
        actual := Real(model, "", false);
      }
    }

    method SetEffort(effort: string) returns (ok: bool)
      modifies this
      ensures calls == old(calls) + 1
      ensures ok == Succeeds(old(replies)) && replies == Later(old(replies))
      ensures actual == if ok then old(actual).(effort := effort) else old(actual)
    {
      ok := Answer();
      if ok {
        actual := actual.(effort := effort);
      }
    }

    method SetFast(fast: bool) returns (ok: bool)
      modifies this
      ensures calls == old(calls) + 1
      ensures ok == Succeeds(old(replies)) && replies == Later(old(replies))
      ensures actual == if ok then old(actual).(fast := fast) else old(actual)
    {
      ok := Answer();
      if ok {
        actual := actual.(fast := fast);
      }
    }
  }

  class SelectionCache {
    var entries: map<string, AppliedSelection>

    constructor ()
      ensures entries == map[]
    {
      entries := map[];
    }

    /** What the cache remembers for a task is true of its session. */
    ghost predicate Remembers(task: string, session: ProviderSession)
      reads this, entries.Values, session
    {
      task in entries ==> TrueOf(entries[task].View(), session.actual)
    }

    ghost predicate NothingToAsk(task: string, input: Input, options: Options)
      reads this, entries.Values
    {
      && task in entries
      && !WantsModel(entries[task].View(), input)
      && !WantsEffort(entries[task].View(), input, options)
      && !WantsFast(entries[task].View(), input, options)
    }

    /** One object per task. */
    ghost predicate Valid()
      reads this
    {
      forall t, u :: t in entries && u in entries && t != u ==> entries[t] != entries[u]
    }

    ghost function Now(applied: AppliedSelection, session: ProviderSession, thrown: bool): Application
      reads applied, session
    {
      Application(applied.View(), session.actual, session.replies, session.calls, thrown)
    }

    /** An application about to start on what the map holds for the task. */
    ghost function Begun(task: string, session: ProviderSession): Application
      reads this, entries.Values, session
    {
      var known := if task in entries then entries[task].View() else NOTHING;
      Application(known, session.actual, session.replies, session.calls, false)
    }

    /** The model part of an application. */
    method ApplyModel(applied: AppliedSelection, input: Input, selectable: bool, session: ProviderSession)
      returns (thrown: bool)
      modifies applied, session
      ensures Now(applied, session, thrown) == ModelPart(old(Now(applied, session, false)), input, selectable)
    {
      thrown := false;
      if input.model.Some? && applied.model != input.model {
        if !selectable {
          return true;
        }
        var ok := session.SetModel(input.model.value);
        if !ok {
          return true;
        }
        applied.model := input.model;
        applied.effort := None;
        applied.fast := None;
      }
    }

    /** The effort and Fast parts. */
    method ApplyParameters(applied: AppliedSelection, input: Input, options: Options, session: ProviderSession)
      returns (thrown: bool)
      modifies applied, session
      ensures Now(applied, session, thrown)
              == FastPart(EffortPart(old(Now(applied, session, false)), input, options), input, options)
    {
      thrown := false;
      if input.model.Some? && options.effort && input.effort.Some? && applied.effort != input.effort {
        var ok := session.SetEffort(input.effort.value);
        if !ok {
          return true;
        }
        applied.effort := input.effort;
      }
      if input.model.Some? && options.fast && input.fast.Some? && applied.fast != input.fast {
        var ok := session.SetFast(input.fast.value);
        if !ok {
          return true;
        }
        applied.fast := input.fast;
      }
    }

    /**
     * `applyCursorSelection`, and `applyKimiSelection` when `options.fast` is
     * false. A throw may leave the shared object changed, but never untrue.
     */
    method Apply(task: string, input: Input, selectable: bool, options: Options, session: ProviderSession)
      returns (thrown: bool)
      requires Valid() && Remembers(task, session)
      modifies this, entries.Values, session
      ensures Valid() && Remembers(task, session)
      ensures
        var a := Applying(old(Begun(task, session)), input, selectable, options);
        && thrown == a.thrown && session.actual == a.actual && session.calls == a.calls && session.replies == a.replies
        && (task in entries <==> !thrown || task in old(entries))
        && (task in entries ==> entries[task].View() == a.known)
        && (task in old(entries) ==> entries[task] == old(entries[task]))
      ensures !thrown ==> Meets(session.actual, input, options) && NothingToAsk(task, input, options)
      ensures old(NothingToAsk(task, input, options)) ==>
        !thrown && session.calls == old(session.calls) && session.actual == old(session.actual)
      ensures forall other :: other != task && other in old(entries) ==>
        other in entries && entries[other] == old(entries[other]) && entries[other].View() == old(entries[other].View())
    {
      ApplyingIsTrue(old(Begun(task, session)), input, selectable, options);
      var applied: AppliedSelection;
      if task in entries {
        applied := entries[task];
      } else {
        applied := new AppliedSelection();
      }
      thrown := ApplyModel(applied, input, selectable, session);
      if thrown {
        return;
      }
      thrown := ApplyParameters(applied, input, options, session);
      if thrown {
        return;
      }
      entries := entries[task := applied];
    }
  }
}
