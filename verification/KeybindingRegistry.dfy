/**
 * The shipped registry of commands (apps/desktop/src/keybindings.ts:70-218): its
 * ids and defaults are sound.
 *
 * Labels, hints and groups only matter for display. Every default is the
 * canonical text of some keys of the shipped table, and no two are of the same
 * keys.
 */
module KeybindingRegistry {
  import opened Common
  import opened Whitespace
  import opened Keybindings
  import opened KeyTable
  import opened KeybindingDispatch

  const IDS: seq<string> := [
    "panes.focusSidebar", "panes.focusTranscript", "panes.focusComposer", "panes.focusWorkPane",
    "navigation.newChat", "navigation.nextChat", "navigation.previousChat", "navigation.toggleSidebar",
    "navigation.searchChats", "navigation.openScheduled", "navigation.openSettings",
    "chat.stopTurn", "chat.copyConversation",
    "workPane.toggle", "workPane.review", "workPane.files", "workPane.agents", "workPane.browser",
    "workPane.terminal", "workPane.closeFile", "application.openKeybindings"
  ]

  const DEFAULTS: seq<string> := [
    "Mod+1", "Mod+2", "Mod+3", "Mod+4",
    "Mod+N", "Alt+ArrowDown", "Alt+ArrowUp", "Mod+B",
    "Mod+K", "Mod+Shift+A", "Mod+,",
    "Mod+.", "Mod+Shift+C",
    "Mod+I", "Mod+Shift+G", "Mod+Shift+E", "Mod+Shift+D", "Mod+Shift+B",
    "Mod+`", "Mod+W", "Mod+Shift+K"
  ]

  /** `KEYBINDING_COMMANDS`, without labels and groups. */
  function Commands(): seq<Command> {
    seq(21, i requires 0 <= i < 21 => Command(IDS[i], Some(DEFAULTS[i])))
  }

  // ---- ids ------------------------------------------------------------------------------

  /** The command that an id can only be of. */
  function SlotOfId(id: string): int {
    match |id|
    case 13 => 11
    case 14 => 15
    case 15 => if id[9] == 't' then 13 else if id[9] == 'r' then 14 else 16
    case 16 => 17
    case 17 => 18
    case 18 => if id[0] == 'p' then 0 else if id[0] == 'n' then 4 else 19
    case 19 => if id[0] == 'n' then 5 else if id[11] == 'C' then 2 else 3
    case 21 => if id[0] == 'p' then 1 else 12
    case 22 => 8
    case 23 => if id[11] == 'p' then 6 else 10
    case 24 => if id[11] == 't' then 7 else 9
    case _ => 20
  }

  lemma IdSlots0(i: nat)
    requires i < 7
    ensures SlotOfId(IDS[i]) == i
  {
  }

  lemma IdSlots1(i: nat)
    requires 7 <= i < 14
    ensures SlotOfId(IDS[i]) == i
  {
  }

  lemma IdSlots2(i: nat)
    requires 14 <= i < 21
    ensures SlotOfId(IDS[i]) == i
  {
  }

  lemma IdsAreUnique()
    ensures UniqueIds(Commands())
  {
    forall i | 0 <= i < 21
      ensures SlotOfId(Commands()[i].id) == i
    {
      if i < 7 { IdSlots0(i); } else if i < 14 { IdSlots1(i); } else { IdSlots2(i); }
    }
  }

  // ---- defaults ----------------------------------------------------------------------------

  /** The table entry of each default's key. */
  const KEY_SLOTS: seq<nat> := [53, 55, 57, 59, 38, 11, 10, 26, 35, 25, 22, 23, 27, 33, 31, 29, 28, 26, 14, 47, 35]

  predicate IsAlt(i: nat) {
    i == 5 || i == 6
  }

  predicate IsShifted(i: nat) {
    i == 9 || i == 12 || 14 <= i <= 17 || i == 20
  }

  function DefaultKeys(i: nat): Binding
    requires i < 21
  {
    Binding(!IsAlt(i), false, IsAlt(i), IsShifted(i), EntryAt(KEY_SLOTS[i]).1)
  }

  lemma Written(b: Binding)
    requires !b.ctrl && b.mod != b.alt && (b.alt ==> !b.shift)
    ensures Serialize(b) == if b.alt then "Alt+" + b.token else if b.shift then "Mod+Shift+" + b.token else "Mod+" + b.token
  {
    if b.alt {
      OneWord("Alt", b.token);
      assert ModifierParts(b) + [b.token] == ["Alt", b.token];
    } else if b.shift {
      assert ModifierParts(b) + [b.token] == ["Mod"] + ["Shift", b.token];
      OneWord("Shift", b.token);
      assert (["Mod"] + ["Shift", b.token])[1..] == ["Shift", b.token];
      assert "Mod" + "+" + ("Shift" + "+" + b.token) == "Mod+Shift+" + b.token;
    } else {
      OneWord("Mod", b.token);
      assert ModifierParts(b) + [b.token] == ["Mod", b.token];
    }
  }

  lemma OneWord(word: string, token: string)
    ensures JoinPlus([word, token]) == word + "+" + token
  {
    assert [word, token][1..] == [token];
    assert JoinPlus([token]) == token;
  }

  lemma DefaultText0(i: nat)
    requires i < 7
    ensures Serialize(DefaultKeys(i)) == DEFAULTS[i]
  {
    Written(DefaultKeys(i));
  }

  lemma DefaultText1(i: nat)
    requires 7 <= i < 14
    ensures Serialize(DefaultKeys(i)) == DEFAULTS[i]
  {
    Written(DefaultKeys(i));
  }

  lemma DefaultText2(i: nat)
    requires 14 <= i < 21
    ensures Serialize(DefaultKeys(i)) == DEFAULTS[i]
  {
    Written(DefaultKeys(i));
  }

  lemma DefaultsAreWritten(i: nat)
    requires i < 21
    ensures Serialize(DefaultKeys(i)) == DEFAULTS[i] && InTable(CodeTokens(), DefaultKeys(i).token)
  {
    if i < 7 { DefaultText0(i); } else if i < 14 { DefaultText1(i); } else { DefaultText2(i); }
    assert CodeTokens()[KEY_SLOTS[i]].1 == DefaultKeys(i).token;
  }

  lemma DefaultKeysDiffer(i: nat, j: nat)
    requires i < j < 21
    ensures DefaultKeys(i) != DefaultKeys(j)
  {
    EntriesFit(KEY_SLOTS[i]);
    EntriesFit(KEY_SLOTS[j]);
  }

  ghost predicate LowersAscii(lower: string -> string) {
    forall s :: IsAscii(s) ==> lower(s) == AsciiLower(s)
  }

  function Shipped(lower: string -> string): Keyboard {
    Keyboard(CodeTokens(), lower)
  }

  /** Every shipped default is in normal form. */
  lemma DefaultsAreCanonical(lower: string -> string)
    requires LowersAscii(lower)
    ensures WellFormed(Shipped(lower), Commands())
  {
    var k := Shipped(lower);
    ShippedTableIsGood(lower);
    forall i | 0 <= i < 21
      ensures IDS[i] != "" && Normalize(k, DEFAULTS[i]) == Some(DEFAULTS[i])
    {
      DefaultsAreWritten(i);
      ParseInvertsSerialize(k, DefaultKeys(i));
    }
  }

  /** No shipped default conflicts with another. */
  lemma DefaultsDoNotConflict(i: nat)
    requires i < 21
    ensures Entry(Commands(), map[], Commands()[i]).conflictsWith == []
  {
    var conflicts := Entry(Commands(), map[], Commands()[i]).conflictsWith;
    if conflicts != [] {
      var id := conflicts[0];
      ConflictsAreCommands(Commands(), map[], i, id);
      var j :| 0 <= j < 21 && Commands()[j].id == id;
      IdsAreUnique();
      ConflictsExactly(Commands(), map[], i, j);
      DefaultTextsDiffer(i, j);
    }
  }

  lemma DefaultTextsDiffer(i: nat, j: nat)
    requires i < 21 && j < 21 && i != j
    ensures DEFAULTS[i] != DEFAULTS[j]
  {
    var k := Keyboard(CodeTokens(), AsciiLower);
    ShippedTableIsGood(AsciiLower);
    DefaultsAreWritten(i);
    DefaultsAreWritten(j);
    SerializeIsInjective(k, DefaultKeys(i), DefaultKeys(j));
    if i < j { DefaultKeysDiffer(i, j); } else { DefaultKeysDiffer(j, i); }
  }

  /**
   * With the shipped keys and commands, and whatever overrides were read from
   * settings, a keydown runs a command exactly when it is the first whose resolved
   * binding means the pressed keys (and they carry a modifier, or no field has focus).
   */
  lemma ShippedDispatch(lower: string -> string, overrides: Overrides, lookup: map<string, string>,
                        e: KeyEvent, isMac: bool, editable: bool, i: nat)
    requires LowersAscii(lower) && Canonical(Shipped(lower), overrides)
    requires IsLookup(lookup, Commands(), overrides) && i < 21
    ensures
      var k := Shipped(lower);
      Match(k, e, isMac, editable, lookup) == Some(IDS[i]) <==>
      && BindingFromEvent(k, e, isMac).Some?
      && var b := BindingFromEvent(k, e, isMac).value;
         FirstFor(k, Commands(), overrides, b, i) && (b.mod || b.ctrl || b.alt || !editable)
  {
    ShippedTableIsGood(lower);
    DefaultsAreCanonical(lower);
    IdsAreUnique();
    DispatchIsFirstMatch(Shipped(lower), Commands(), overrides, lookup, e, isMac, editable, i);
  }
}
