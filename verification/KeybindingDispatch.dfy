/**
 * From stored overrides to the command of a keydown
 * (apps/desktop/src/keybindings.ts:373-485), for any registry of commands.
 */
module KeybindingDispatch {
  import opened Common
  import opened Keybindings

  datatype Command = Command(id: string, default: Option<string>)

  type Overrides = map<string, Option<string>>

  /** A stored settings value. */
  datatype Stored = Null | Text(text: string) | Other

  predicate Known(commands: seq<Command>, id: string) {
    exists i :: 0 <= i < |commands| && commands[i].id == id
  }

  predicate UniqueIds(commands: seq<Command>) {
    forall i, j :: 0 <= i < j < |commands| ==> commands[i].id != commands[j].id
  }

  // ---- reading overrides ---------------------------------------------------------------

  /** What one stored entry overrides its command with, if it is understood. */
  function Understood(k: Keyboard, commands: seq<Command>, id: string, stored: Stored): Option<Option<string>> {
    if !Known(commands, id) || stored.Other? then None
    else if stored.Null? then Some(None)
    else
      match Normalize(k, stored.text)
      case None => None
      case Some(text) => if text == "" then None else Some(Some(text))
  }

  /** The last understood entry of each id is what the overrides hold. */
  ghost predicate Holds(k: Keyboard, commands: seq<Command>, entries: seq<(string, Stored)>, overrides: Overrides) {
    && (forall id :: id in overrides ==> exists i :: 0 <= i < |entries| && LastUnderstood(k, commands, entries, id, i)
                                                     && Understood(k, commands, id, entries[i].1) == Some(overrides[id]))
    && (forall i :: 0 <= i < |entries| && Understood(k, commands, entries[i].0, entries[i].1).Some? ==> entries[i].0 in overrides)
  }

  ghost predicate LastUnderstood(k: Keyboard, commands: seq<Command>, entries: seq<(string, Stored)>, id: string, i: nat)
    requires i < |entries|
  {
    && entries[i].0 == id
    && forall j :: i < j < |entries| && entries[j].0 == id ==> Understood(k, commands, id, entries[j].1).None?
  }

  /** Every text that overrides a command is in normal form. */
  predicate Canonical(k: Keyboard, overrides: Overrides) {
    forall id :: id in overrides && overrides[id].Some? ==> Normalize(k, overrides[id].value) == overrides[id]
  }

  method ReadOverrides(k: Keyboard, commands: seq<Command>, entries: Option<seq<(string, Stored)>>) returns (overrides: Overrides)
    requires Good(k)
    ensures entries.None? ==> overrides == map[]
    ensures entries.Some? ==> Holds(k, commands, entries.value, overrides)
    ensures Canonical(k, overrides)
  {
    overrides := map[];
    if entries.None? {
      return;
    }
    var i := 0;
    while i < |entries.value|
      invariant 0 <= i <= |entries.value|
      invariant Holds(k, commands, entries.value[..i], overrides)
      invariant Canonical(k, overrides)
    {
      var (id, stored) := entries.value[i];
      ghost var before := overrides;
      if Known(commands, id) {
        match stored {
          case Null =>
            overrides := overrides[id := None];
          case Text(text) =>
            var normalized := Normalize(k, text);
            if normalized.Some? && normalized.value != "" {
              NormalizeIsIdempotent(k, text);
              overrides := overrides[id := normalized];
            }
          case Other =>
        }
      }
      HoldsOneMore(k, commands, entries.value[..i], before, id, stored);
      assert entries.value[..i + 1] == entries.value[..i] + [(id, stored)];
      i := i + 1;
    }
    assert entries.value[..i] == entries.value;
  }

  lemma HoldsOneMore(k: Keyboard, commands: seq<Command>, entries: seq<(string, Stored)>, overrides: Overrides, id: string, stored: Stored)
    requires Holds(k, commands, entries, overrides)
    ensures
      var u := Understood(k, commands, id, stored);
      Holds(k, commands, entries + [(id, stored)], if u.Some? then overrides[id := u.value] else overrides)
  {
    var u := Understood(k, commands, id, stored);
    var all := entries + [(id, stored)];
    var after := if u.Some? then overrides[id := u.value] else overrides;
    forall other | other in after
      ensures exists i :: 0 <= i < |all| && LastUnderstood(k, commands, all, other, i)
                          && Understood(k, commands, other, all[i].1) == Some(after[other])
    {
      if u.Some? && other == id {
        assert LastUnderstood(k, commands, all, other, |entries|);
      } else {
        var i :| 0 <= i < |entries| && LastUnderstood(k, commands, entries, other, i)
                 && Understood(k, commands, other, entries[i].1) == Some(overrides[other]);
        assert LastUnderstood(k, commands, all, other, i);
      }
    }
  }

  // ---- resolving ---------------------------------------------------------------------------

  function BindingOf(c: Command, overrides: Overrides): Option<string> {
    if c.id in overrides then overrides[c.id] else c.default
  }

  /** `if (binding)`: neither null nor empty. */
  predicate Bound(binding: Option<string>) {
    binding.Some? && binding.value != ""
  }

  /** The ids of the commands with a binding, in registry order. */
  function Owners(commands: seq<Command>, overrides: Overrides, binding: string): seq<string> {
    if commands == [] then []
    else
      var last := commands[|commands| - 1];
      Owners(commands[..|commands| - 1], overrides, binding)
      + (if binding != "" && BindingOf(last, overrides) == Some(binding) then [last.id] else [])
  }

  function Without(ids: seq<string>, id: string): seq<string> {
    if ids == [] then [] else (if ids[0] != id then [ids[0]] else []) + Without(ids[1..], id)
  }

  datatype ResolvedKeybinding = ResolvedKeybinding(command: Command, binding: Option<string>, customized: bool, conflictsWith: seq<string>)

  function Entry(commands: seq<Command>, overrides: Overrides, c: Command): ResolvedKeybinding {
    var binding := BindingOf(c, overrides);
    ResolvedKeybinding(c, binding, binding != c.default,
                       if Bound(binding) then Without(Owners(commands, overrides, binding.value), c.id) else [])
  }

  ghost predicate OwnersAre(owners: map<string, seq<string>>, commands: seq<Command>, overrides: Overrides) {
    forall b :: Get(owners, b).GetOr([]) == Owners(commands, overrides, b)
  }

  function WithOwner(owners: map<string, seq<string>>, binding: string, id: string): map<string, seq<string>> {
    owners[binding := Get(owners, binding).GetOr([]) + [id]]
  }

  lemma OwnersStep(owners: map<string, seq<string>>, commands: seq<Command>, overrides: Overrides, i: nat)
    requires i < |commands| && OwnersAre(owners, commands[..i], overrides)
    ensures
      var binding := BindingOf(commands[i], overrides);
      OwnersAre(if Bound(binding) then WithOwner(owners, binding.value, commands[i].id) else owners, commands[..i + 1], overrides)
  {
    var binding := BindingOf(commands[i], overrides);
    assert commands[..i + 1][..i] == commands[..i];
    var after := if Bound(binding) then WithOwner(owners, binding.value, commands[i].id) else owners;
    forall b: string
      ensures Get(after, b).GetOr([]) == Owners(commands[..i + 1], overrides, b)
    {
      assert Get(owners, b).GetOr([]) == Owners(commands[..i], overrides, b);
    }
  }

  function Unchecked(c: Command, overrides: Overrides): ResolvedKeybinding {
    ResolvedKeybinding(c, BindingOf(c, overrides), BindingOf(c, overrides) != c.default, [])
  }

  function Checked(owners: map<string, seq<string>>, entry: ResolvedKeybinding): ResolvedKeybinding {
    if !Bound(entry.binding) then entry
    else entry.(conflictsWith := Without(Get(owners, entry.binding.value).GetOr([]), entry.command.id))
  }

  lemma EntryIsChecked(owners: map<string, seq<string>>, commands: seq<Command>, overrides: Overrides, c: Command)
    requires OwnersAre(owners, commands, overrides)
    ensures Checked(owners, Unchecked(c, overrides)) == Entry(commands, overrides, c)
  {
    if Bound(BindingOf(c, overrides)) {
      assert Get(owners, BindingOf(c, overrides).value).GetOr([]) == Owners(commands, overrides, BindingOf(c, overrides).value);
    }
  }

  method ResolveKeybindings(commands: seq<Command>, overrides: Overrides) returns (resolved: seq<ResolvedKeybinding>)
    ensures |resolved| == |commands|
    ensures forall i :: 0 <= i < |commands| ==> resolved[i] == Entry(commands, overrides, commands[i])
  {
    var owners: map<string, seq<string>> := map[];
    resolved := [];
    var i := 0;
    while i < |commands|
      invariant 0 <= i <= |commands| && |resolved| == i
      invariant OwnersAre(owners, commands[..i], overrides)
      invariant forall j :: 0 <= j < i ==> resolved[j] == Unchecked(commands[j], overrides)
    {
      var command := commands[i];
      var binding := BindingOf(command, overrides);
      OwnersStep(owners, commands, overrides, i);
      if Bound(binding) {
        if binding.value in owners {
          owners := owners[binding.value := owners[binding.value] + [command.id]];
        } else {
          owners := owners[binding.value := [command.id]];
        }
      }
      resolved := resolved + [ResolvedKeybinding(command, binding, binding != command.default, [])];
      i := i + 1;
    }
    assert commands[..i] == commands;
    i := 0;
    while i < |resolved|
      invariant 0 <= i <= |resolved| == |commands|
      invariant forall j :: 0 <= j < i ==> resolved[j] == Checked(owners, Unchecked(commands[j], overrides))
      invariant forall j :: i <= j < |resolved| ==> resolved[j] == Unchecked(commands[j], overrides)
    {
      var entry := resolved[i];
      if Bound(entry.binding) {
        var ids := Get(owners, entry.binding.value).GetOr([]);
        resolved := resolved[i := entry.(conflictsWith := Without(ids, entry.command.id))];
      }
      i := i + 1;
    }
    forall j | 0 <= j < |commands|
      ensures resolved[j] == Entry(commands, overrides, commands[j])
    {
      EntryIsChecked(owners, commands, overrides, commands[j]);
    }
  }

  predicate SharesBinding(commands: seq<Command>, overrides: Overrides, i: nat, j: nat)
    requires i < |commands| && j < |commands|
  {
    Bound(BindingOf(commands[i], overrides)) && BindingOf(commands[i], overrides) == BindingOf(commands[j], overrides)
  }

  lemma {:induction false} OwnersExactly(commands: seq<Command>, overrides: Overrides, binding: string, id: string)
    requires binding != ""
    ensures id in Owners(commands, overrides, binding) <==>
            exists i :: 0 <= i < |commands| && commands[i].id == id && BindingOf(commands[i], overrides) == Some(binding)
  {
    if commands != [] {
      var before := commands[..|commands| - 1];
      OwnersExactly(before, overrides, binding, id);
      if id in Owners(before, overrides, binding) {
        var i :| 0 <= i < |before| && before[i].id == id && BindingOf(before[i], overrides) == Some(binding);
        assert commands[i] == before[i];
      }
      if exists i :: 0 <= i < |commands| && commands[i].id == id && BindingOf(commands[i], overrides) == Some(binding) {
        var i :| 0 <= i < |commands| && commands[i].id == id && BindingOf(commands[i], overrides) == Some(binding);
        assert i < |before| ==> before[i] == commands[i];
      }
    }
  }

  lemma {:induction false} WithoutExactly(ids: seq<string>, gone: string, id: string)
    ensures id in Without(ids, gone) <==> id in ids && id != gone
  {
    if ids != [] {
      WithoutExactly(ids[1..], gone, id);
      assert ids == [ids[0]] + ids[1..];
    }
  }

  /**
   * A command is bound as its override says, be it to nothing, and by default only
   * without one; it counts as customized exactly when that differs from its default.
   */
  lemma ResolvedExactly(commands: seq<Command>, overrides: Overrides, i: nat)
    requires i < |commands|
    ensures
      var entry, c := Entry(commands, overrides, commands[i]), commands[i];
      && entry.command == c
      && (c.id in overrides ==> entry.binding == overrides[c.id])
      && (c.id !in overrides ==> entry.binding == c.default)
      && (entry.customized <==> c.id in overrides && overrides[c.id] != c.default)
      && (entry.binding.None? || entry.binding.value == "" ==> entry.conflictsWith == [])
  {
  }

  /**
   * A stored entry unbinds its command if it is null, and binds it to a text's normal
   * form if the text is read as a binding; entries of unknown commands and of other
   * values are not understood.
   */
  lemma UnderstoodExactly(k: Keyboard, commands: seq<Command>, id: string, stored: Stored, override: Option<string>)
    ensures
      Understood(k, commands, id, stored) == Some(override) <==>
      && (exists i :: 0 <= i < |commands| && commands[i].id == id)
      && match stored
         case Null => override.None?
         case Text(text) => override.Some? && override.value != "" && exists b :: Parse(k, text) == Some(b) && override.value == Serialize(b)
         case Other => false
  {
  }

  /** The conflict list of a command names exactly the other commands with its binding; so conflicts are mutual. */
  lemma ConflictsExactly(commands: seq<Command>, overrides: Overrides, i: nat, j: nat)
    requires UniqueIds(commands) && i < |commands| && j < |commands|
    ensures commands[j].id in Entry(commands, overrides, commands[i]).conflictsWith <==>
            i != j && SharesBinding(commands, overrides, i, j)
    ensures commands[j].id in Entry(commands, overrides, commands[i]).conflictsWith <==>
            commands[i].id in Entry(commands, overrides, commands[j]).conflictsWith
  {
    ConflictsOneWay(commands, overrides, i, j);
    ConflictsOneWay(commands, overrides, j, i);
  }

  lemma ConflictsOneWay(commands: seq<Command>, overrides: Overrides, i: nat, j: nat)
    requires UniqueIds(commands) && i < |commands| && j < |commands|
    ensures commands[j].id in Entry(commands, overrides, commands[i]).conflictsWith <==>
            i != j && SharesBinding(commands, overrides, i, j)
  {
    var binding := BindingOf(commands[i], overrides);
    if Bound(binding) {
      WithoutExactly(Owners(commands, overrides, binding.value), commands[i].id, commands[j].id);
      OwnersExactly(commands, overrides, binding.value, commands[j].id);
    }
  }

  /** A conflict list names nothing but commands of the registry. */
  lemma ConflictsAreCommands(commands: seq<Command>, overrides: Overrides, i: nat, id: string)
    requires i < |commands| && id in Entry(commands, overrides, commands[i]).conflictsWith
    ensures Known(commands, id)
  {
    var binding := BindingOf(commands[i], overrides).value;
    WithoutExactly(Owners(commands, overrides, binding), commands[i].id, id);
    OwnersExactly(commands, overrides, binding, id);
  }

  // ---- dispatching -----------------------------------------------------------------------------

  /** The first command of the registry whose resolved binding is this text. */
  predicate Wins(commands: seq<Command>, overrides: Overrides, binding: string, i: nat) {
    && i < |commands| && binding != "" && BindingOf(commands[i], overrides) == Some(binding)
    && forall j :: 0 <= j < i ==> BindingOf(commands[j], overrides) != Some(binding)
  }

  ghost predicate IsLookup(lookup: map<string, string>, commands: seq<Command>, overrides: Overrides) {
    && (forall b :: b in lookup ==> exists i: nat :: Wins(commands, overrides, b, i))
    && (forall b, i: nat :: Wins(commands, overrides, b, i) ==> b in lookup && lookup[b] == commands[i].id)
  }

  method KeybindingLookup(commands: seq<Command>, overrides: Overrides) returns (lookup: map<string, string>)
    ensures IsLookup(lookup, commands, overrides)
  {
    var resolved := ResolveKeybindings(commands, overrides);
    lookup := map[];
    var i := 0;
    while i < |resolved|
      invariant 0 <= i <= |resolved|
      invariant forall b :: b in lookup ==> exists j: nat :: j < i && Wins(commands, overrides, b, j)
      invariant forall b, j: nat :: j < i && Wins(commands, overrides, b, j) ==> b in lookup && lookup[b] == commands[j].id
    {
      var entry := resolved[i];
      if Bound(entry.binding) && entry.binding.value !in lookup {
        EarlierWinner(commands, overrides, entry.binding.value, i);
        lookup := lookup[entry.binding.value := entry.command.id];
      }
      i := i + 1;
    }
  }

  /** A bound text is won by some command no later than any that has it. */
  lemma {:induction false} EarlierWinner(commands: seq<Command>, overrides: Overrides, binding: string, i: nat)
    requires i < |commands| && binding != "" && BindingOf(commands[i], overrides) == Some(binding)
    ensures exists j: nat :: j <= i && Wins(commands, overrides, binding, j)
    decreases i
  {
    if j :| 0 <= j < i && BindingOf(commands[j], overrides) == Some(binding) {
      EarlierWinner(commands, overrides, binding, j);
    } else {
      assert Wins(commands, overrides, binding, i);
    }
  }

  /** The command's binding, by its override or else by default, is this text. */
  predicate HasText(c: Command, overrides: Overrides, text: string) {
    if c.id in overrides then overrides[c.id] == Some(text) else c.default == Some(text)
  }

  /** The lookup holds exactly the nonempty texts that commands are bound to, each for the first such command. */
  lemma LookupExactly(commands: seq<Command>, overrides: Overrides, lookup: map<string, string>, text: string)
    requires IsLookup(lookup, commands, overrides)
    ensures text in lookup <==> text != "" && exists i :: 0 <= i < |commands| && HasText(commands[i], overrides, text)
    ensures text in lookup ==>
              exists i :: 0 <= i < |commands| && HasText(commands[i], overrides, text) && lookup[text] == commands[i].id
                          && forall j :: 0 <= j < i ==> !HasText(commands[j], overrides, text)
  {
    assert forall c: Command :: HasText(c, overrides, text) <==> BindingOf(c, overrides) == Some(text);
    if i :| 0 <= i < |commands| && HasText(commands[i], overrides, text) && text != "" {
      EarlierWinner(commands, overrides, text, i);
    }
    if text in lookup {
      var i: nat :| Wins(commands, overrides, text, i);
      assert HasText(commands[i], overrides, text);
    }
  }

  /** `matchKeybinding`; `editable` says whether the keydown is inside a text field. */
  function Match(k: Keyboard, e: KeyEvent, isMac: bool, editable: bool, lookup: map<string, string>): Option<string> {
    match BindingFromEvent(k, e, isMac)
    case None => None
    case Some(b) =>
      var id := Get(lookup, Serialize(b)).GetOr("");
      if id == "" then None
      else if !(b.mod || b.ctrl || b.alt) && editable then None
      else Some(id)
  }

  /** Whether a command's resolved binding, read by the grammar, is these keys. */
  predicate IsFor(k: Keyboard, c: Command, overrides: Overrides, b: Binding) {
    Bound(BindingOf(c, overrides)) && Parse(k, BindingOf(c, overrides).value) == Some(b)
  }

  predicate FirstFor(k: Keyboard, commands: seq<Command>, overrides: Overrides, b: Binding, i: nat) {
    && i < |commands| && IsFor(k, commands[i], overrides, b)
    && forall j :: 0 <= j < i ==> !IsFor(k, commands[j], overrides, b)
  }

  /** The registry's own bindings are in normal form and its ids are not empty. */
  predicate WellFormed(k: Keyboard, commands: seq<Command>) {
    forall c :: c in commands ==> c.id != "" && (c.default.Some? ==> Normalize(k, c.default.value) == c.default)
  }

  lemma CanonicalMeans(k: Keyboard, commands: seq<Command>, overrides: Overrides, i: nat, b: Binding)
    requires Good(k) && WellFormed(k, commands) && Canonical(k, overrides)
    requires i < |commands| && InTable(k.table, b.token)
    ensures IsFor(k, commands[i], overrides, b) <==> BindingOf(commands[i], overrides) == Some(Serialize(b))
  {
    assert commands[i] in commands;
    var text := BindingOf(commands[i], overrides);
    ParseInvertsSerialize(k, b);
    PartsOfSerialized(b);
    if Serialize(b) == "" {
      EmptyTextIsUnparsed(k);
    }
  }

  lemma EmptyTextIsUnparsed(k: Keyboard)
    ensures Parse(k, "").None?
  {
    assert Parts("")[0] == "";
  }

  /**
   * Over canonical overrides a keydown runs a command exactly when that command is
   * the first in the registry whose resolved binding means the pressed keys, and
   * the keys carry a modifier or the focus is outside a text field.
   */
  lemma DispatchIsFirstMatch(k: Keyboard, commands: seq<Command>, overrides: Overrides, lookup: map<string, string>,
                             e: KeyEvent, isMac: bool, editable: bool, i: nat)
    requires Good(k) && WellFormed(k, commands) && Canonical(k, overrides) && UniqueIds(commands)
    requires IsLookup(lookup, commands, overrides) && i < |commands|
    ensures
      Match(k, e, isMac, editable, lookup) == Some(commands[i].id) <==>
      && BindingFromEvent(k, e, isMac).Some?
      && var b := BindingFromEvent(k, e, isMac).value;
         FirstFor(k, commands, overrides, b, i) && (b.mod || b.ctrl || b.alt || !editable)
  {
    if BindingFromEvent(k, e, isMac).Some? {
      var b := BindingFromEvent(k, e, isMac).value;
      EventBindingsAreCanonical(k, e, isMac);
      FirstForIsWins(k, commands, overrides, b, i);
      LookupFindsWinner(k, commands, overrides, lookup, Serialize(b), i);
    }
  }

  lemma LookupFindsWinner(k: Keyboard, commands: seq<Command>, overrides: Overrides, lookup: map<string, string>, text: string, i: nat)
    requires WellFormed(k, commands) && UniqueIds(commands) && IsLookup(lookup, commands, overrides) && i < |commands|
    ensures commands[i].id != ""
    ensures Get(lookup, text).GetOr("") == commands[i].id <==> Wins(commands, overrides, text, i)
  {
    assert commands[i] in commands;
    if text in lookup {
      var j: nat :| Wins(commands, overrides, text, j);
      assert lookup[text] == commands[j].id;
    }
  }

  lemma FirstForIsWins(k: Keyboard, commands: seq<Command>, overrides: Overrides, b: Binding, i: nat)
    requires Good(k) && WellFormed(k, commands) && Canonical(k, overrides) && InTable(k.table, b.token)
    requires i < |commands|
    ensures FirstFor(k, commands, overrides, b, i) <==> Wins(commands, overrides, Serialize(b), i)
  {
    forall j | 0 <= j <= i
      ensures IsFor(k, commands[j], overrides, b) <==> BindingOf(commands[j], overrides) == Some(Serialize(b))
    {
      CanonicalMeans(k, commands, overrides, j, b);
    }
    ParseInvertsSerialize(k, b);
    if Serialize(b) == "" {
      EmptyTextIsUnparsed(k);
    }
  }
}
