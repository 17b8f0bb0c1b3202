/**
 * The keyboard-shortcut grammar and dispatch table
 * (apps/desktop/src/keybindings.ts:285-485), for any key table and registry.
 */
module Keybindings {
  import opened Common
  import opened Whitespace

  // ---- the key table -------------------------------------------------------------

  /**
   * `table` lists `CODE_TOKENS` in insertion order, and `lower` is
   * `String.prototype.toLowerCase`.
   */
  datatype Keyboard = Keyboard(table: seq<(string, string)>, lower: string -> string)

  predicate IsAscii(s: string) {
    forall i :: 0 <= i < |s| ==> s[i] < '\U{0080}'
  }

  function LowerChar(c: char): char {
    if 'A' <= c <= 'Z' then c - 'A' + 'a' else c
  }

  function AsciiLower(s: string): string {
    seq(|s|, i requires 0 <= i < |s| => LowerChar(s[i]))
  }

  /** `CODE_TOKENS.get`. */
  function TokenOf(table: seq<(string, string)>, code: string): Option<string> {
    if table == [] then None
    else if table[|table| - 1].0 == code then Some(table[|table| - 1].1)
    else TokenOf(table[..|table| - 1], code)
  }

  /** `TOKEN_CODES.get`: the codes by lower-case token. */
  function CodeOf(table: seq<(string, string)>, lower: string -> string, token: string): Option<string> {
    if table == [] then None
    else if lower(table[|table| - 1].1) == token then Some(table[|table| - 1].0)
    else CodeOf(table[..|table| - 1], lower, token)
  }

  /** A token that a part of a binding can spell: whole, unreserved, and without a separator. */
  predicate IsToken(token: string) {
    token != "" && IsAscii(token) && '+' !in token && Trimmed(token) && token != "Escape"
  }

  /** The table spells no two keys alike, in any case, and lower-casing leaves ASCII to the usual rule. */
  ghost predicate Good(k: Keyboard) {
    && (forall s :: IsAscii(s) ==> k.lower(s) == AsciiLower(s))
    && (forall i :: 0 <= i < |k.table| ==> k.table[i].0 != "" && IsToken(k.table[i].1))
    && (forall i, j :: 0 <= i < j < |k.table| ==> k.table[i].0 != k.table[j].0)
    && (forall i, j :: 0 <= i < j < |k.table| ==> AsciiLower(k.table[i].1) != AsciiLower(k.table[j].1))
  }

  ghost predicate InTable(table: seq<(string, string)>, token: string) {
    exists i :: 0 <= i < |table| && table[i].1 == token
  }

  /** What a user spells, in any case, to the token stored for it. */
  function Spelled(k: Keyboard, word: string): Option<string> {
    var code := CodeOf(k.table, k.lower, k.lower(word));
    if code.None? || code.value == "" then None else TokenOf(k.table, code.value)
  }

  lemma {:induction false} TokenOfEntry(table: seq<(string, string)>, i: nat)
    requires i < |table|
    requires forall a, b :: 0 <= a < b < |table| ==> table[a].0 != table[b].0
    ensures TokenOf(table, table[i].0) == Some(table[i].1)
  {
    if i < |table| - 1 {
      TokenOfEntry(table[..|table| - 1], i);
    }
  }

  lemma {:induction false} TokenIsListed(table: seq<(string, string)>, code: string)
    requires TokenOf(table, code).Some?
    ensures InTable(table, TokenOf(table, code).value)
  {
    var shorter := table[..|table| - 1];
    if table[|table| - 1].0 != code {
      TokenIsListed(shorter, code);
      var i :| 0 <= i < |shorter| && shorter[i].1 == TokenOf(table, code).value;
      assert table[i] == shorter[i];
    }
  }

  lemma {:induction false} CodeOfEntry(table: seq<(string, string)>, lower: string -> string, i: nat)
    requires i < |table|
    requires forall a, b :: 0 <= a < b < |table| ==> lower(table[a].1) != lower(table[b].1)
    ensures CodeOf(table, lower, lower(table[i].1)) == Some(table[i].0)
  {
    if i < |table| - 1 {
      CodeOfEntry(table[..|table| - 1], lower, i);
    }
  }

  /** Every token of a good table is read back as itself. */
  lemma TokensAreSpelled(k: Keyboard, token: string)
    requires Good(k) && InTable(k.table, token)
    ensures Spelled(k, token) == Some(token)
  {
    var i :| 0 <= i < |k.table| && k.table[i].1 == token;
    forall a, b | 0 <= a < b < |k.table|
      ensures k.lower(k.table[a].1) != k.lower(k.table[b].1)
    {
      assert IsToken(k.table[a].1) && IsToken(k.table[b].1);
    }
    CodeOfEntry(k.table, k.lower, i);
    TokenOfEntry(k.table, i);
  }

  // ---- the grammar -----------------------------------------------------------------

  datatype Binding = Binding(mod: bool, ctrl: bool, alt: bool, shift: bool, token: string)

  const UNBOUND := Binding(false, false, false, false, "")

  function ModifierParts(b: Binding): seq<string> {
    (if b.mod then ["Mod"] else []) + (if b.ctrl then ["Ctrl"] else [])
    + (if b.alt then ["Alt"] else []) + (if b.shift then ["Shift"] else [])
  }

  function JoinPlus(parts: seq<string>): string {
    if |parts| == 0 then ""
    else if |parts| == 1 then parts[0]
    else parts[0] + "+" + JoinPlus(parts[1..])
  }

  function Serialize(b: Binding): string {
    JoinPlus(ModifierParts(b) + [b.token])
  }

  function NextPlus(s: string): (k: nat)
    ensures k <= |s|
  {
    if s == "" || s[0] == '+' then 0 else 1 + NextPlus(s[1..])
  }

  /** `text.split("+")`. */
  function SplitPlus(s: string): seq<string>
    decreases |s|
  {
    var k := NextPlus(s);
    if k == |s| then [s] else [s[..k]] + SplitPlus(s[k + 1..])
  }

  function TrimAll(parts: seq<string>): seq<string> {
    if parts == [] then [] else [Trim(parts[0])] + TrimAll(parts[1..])
  }

  function Parts(text: string): seq<string> {
    TrimAll(SplitPlus(Trim(text)))
  }

  /** One modifier word, already in lower case, added to a binding. */
  function WithModifier(b: Binding, word: string): Option<Binding> {
    if word in {"mod", "cmd", "command", "meta", "super"} then Some(b.(mod := true))
    else if word in {"ctrl", "control"} then Some(b.(ctrl := true))
    else if word in {"alt", "option"} then Some(b.(alt := true))
    else if word == "shift" then Some(b.(shift := true))
    else None
  }

  function WithModifiers(b: Binding, words: seq<string>, lower: string -> string): Option<Binding>
    decreases |words|
  {
    if words == [] then Some(b)
    else
      match WithModifier(b, lower(words[0]))
      case None => None
      case Some(next) => WithModifiers(next, words[1..], lower)
  }

  function ParsedParts(k: Keyboard, parts: seq<string>): Option<Binding> {
    if parts == [] || "" in parts then None
    else
      match WithModifiers(UNBOUND, parts[..|parts| - 1], k.lower)
      case None => None
      case Some(b) =>
        match Spelled(k, parts[|parts| - 1])
        case None => None
        case Some(token) => if token == "" || token in {"Escape"} then None else Some(b.(token := token))
  }

  function Parse(k: Keyboard, text: string): Option<Binding> {
    ParsedParts(k, Parts(text))
  }

  method ParseBinding(k: Keyboard, text: string) returns (parsed: Option<Binding>)
    ensures parsed == Parse(k, text)
  {
    var parts := Parts(text);
    if |parts| == 0 || "" in parts {
      return None;
    }
    var binding := UNBOUND;
    var words := parts[..|parts| - 1];
    var i := 0;
    while i < |words|
      invariant 0 <= i <= |words|
      invariant WithModifiers(UNBOUND, words, k.lower) == WithModifiers(binding, words[i..], k.lower)
    {
      assert words[i..][0] == words[i] && words[i..][1..] == words[i + 1..];
      var next := WithModifier(binding, k.lower(words[i]));
      if next.None? {
        return None;
      }
      binding := next.value;
      i := i + 1;
    }
    assert words[i..] == [];
    var token := Spelled(k, parts[|parts| - 1]);
    if token.None? || token.value == "" || token.value in {"Escape"} {
      return None;
    }
    parsed := Some(binding.(token := token.value));
  }

  function Normalize(k: Keyboard, text: string): Option<string> {
    match Parse(k, text)
    case None => None
    case Some(b) => Some(Serialize(b))
  }

  // ---- round trips ------------------------------------------------------------------

  predicate IsPart(part: string) {
    part != "" && '+' !in part && Trimmed(part)
  }

  lemma {:induction false} PlusIsNext(part: string, rest: string)
    requires '+' !in part
    ensures NextPlus(part + "+" + rest) == |part| && NextPlus(part) == |part|
  {
    if part == "" {
      assert part + "+" + rest == "+" + rest;
    } else {
      assert (part + "+" + rest)[1..] == part[1..] + "+" + rest;
      PlusIsNext(part[1..], rest);
    }
  }

  lemma {:induction false} JoinedAreSplit(parts: seq<string>)
    requires parts != [] && forall p :: p in parts ==> IsPart(p)
    ensures SplitPlus(JoinPlus(parts)) == parts && TrimAll(parts) == parts && Trimmed(JoinPlus(parts)) && JoinPlus(parts) != ""
  {
    var first, more := parts[0], parts[1..];
    assert first in parts;
    PlusIsNext(first, JoinPlus(more));
    TrimTrims(first);
    if more == [] {
      assert parts == [first];
    } else {
      JoinedAreSplit(more);
      var all := first + "+" + JoinPlus(more);
      assert all[..|first|] == first && all[|first| + 1..] == JoinPlus(more);
      assert all[0] == first[0] && all[|all| - 1] == JoinPlus(more)[|JoinPlus(more)| - 1];
    }
  }

  lemma {:induction false} ModifiersConcat(b: Binding, first: seq<string>, second: seq<string>, lower: string -> string)
    ensures
      WithModifiers(b, first + second, lower)
      == match WithModifiers(b, first, lower)
         case None => None
         case Some(next) => WithModifiers(next, second, lower)
    decreases |first|
  {
    if first == [] {
      assert first + second == second;
    } else {
      assert (first + second)[1..] == first[1..] + second;
      match WithModifier(b, lower(first[0]))
      case None =>
      case Some(next) => ModifiersConcat(next, first[1..], second, lower);
    }
  }

  lemma WordsAreLowered(k: Keyboard)
    requires Good(k)
    ensures k.lower("Mod") == "mod" && k.lower("Ctrl") == "ctrl" && k.lower("Alt") == "alt" && k.lower("Shift") == "shift"
  {
    assert AsciiLower("Mod") == "mod" && AsciiLower("Ctrl") == "ctrl";
    assert AsciiLower("Alt") == "alt" && AsciiLower("Shift") == "shift";
  }

  lemma OneModifier(b: Binding, word: string, lower: string -> string, next: Binding)
    requires WithModifier(b, lower(word)) == Some(next)
    ensures WithModifiers(b, [word], lower) == Some(next)
  {
    assert |[word][1..]| == 0;
  }

  lemma ModifiersAreRead(k: Keyboard, b: Binding)
    requires Good(k)
    ensures WithModifiers(UNBOUND, ModifierParts(b), k.lower) == Some(b.(token := ""))
  {
    WordsAreLowered(k);
    var mods := if b.mod then ["Mod"] else [];
    var ctrls := if b.ctrl then ["Ctrl"] else [];
    var alts := if b.alt then ["Alt"] else [];
    var shifts := if b.shift then ["Shift"] else [];
    var b1 := UNBOUND.(mod := b.mod);
    var b2 := b1.(ctrl := b.ctrl);
    var b3 := b2.(alt := b.alt);
    if b.mod { OneModifier(UNBOUND, "Mod", k.lower, b1); }
    if b.ctrl { OneModifier(b1, "Ctrl", k.lower, b2); }
    if b.alt { OneModifier(b2, "Alt", k.lower, b3); }
    if b.shift { OneModifier(b3, "Shift", k.lower, b.(token := "")); }
    ModifiersConcat(UNBOUND, mods, ctrls, k.lower);
    ModifiersConcat(UNBOUND, mods + ctrls, alts, k.lower);
    ModifiersConcat(UNBOUND, mods + ctrls + alts, shifts, k.lower);
  }

  lemma ModifiersAreParts(b: Binding)
    ensures forall p :: p in ModifierParts(b) ==> IsPart(p)
  {
    assert IsPart("Mod") && IsPart("Ctrl") && IsPart("Alt") && IsPart("Shift");
  }

  lemma PartsOfSerialized(b: Binding)
    requires IsToken(b.token)
    ensures Parts(Serialize(b)) == ModifierParts(b) + [b.token] && "" !in ModifierParts(b) + [b.token]
  {
    var parts := ModifierParts(b) + [b.token];
    ModifiersAreParts(b);
    assert forall p :: p in parts ==> IsPart(p);
    JoinedAreSplit(parts);
    TrimTrims(JoinPlus(parts));
  }

  /** Every binding on a key of the table is parsed back from its canonical text. */
  lemma ParseInvertsSerialize(k: Keyboard, b: Binding)
    requires Good(k) && InTable(k.table, b.token)
    ensures Parse(k, Serialize(b)) == Some(b)
  {
    assert IsToken(b.token);
    PartsOfSerialized(b);
    PartsAreRead(k, b);
  }

  lemma PartsAreRead(k: Keyboard, b: Binding)
    requires Good(k) && InTable(k.table, b.token) && IsToken(b.token) && "" !in ModifierParts(b) + [b.token]
    ensures ParsedParts(k, ModifierParts(b) + [b.token]) == Some(b)
  {
    var parts := ModifierParts(b) + [b.token];
    assert parts[..|parts| - 1] == ModifierParts(b) && parts[|parts| - 1] == b.token;
    ModifiersAreRead(k, b);
    TokensAreSpelled(k, b.token);
  }

  /** What is parsed is a binding on a key of the table. */
  lemma ParsedIsInTable(k: Keyboard, text: string)
    requires Parse(k, text).Some?
    ensures InTable(k.table, Parse(k, text).value.token)
  {
    var parts := Parts(text);
    var code := CodeOf(k.table, k.lower, k.lower(parts[|parts| - 1]));
    TokenIsListed(k.table, code.value);
  }

  datatype Modifier = Mod | Ctrl | Alt | Shift

  /** The spellings of a modifier. */
  function Spellings(m: Modifier): set<string> {
    match m
    case Mod => {"mod", "cmd", "command", "meta", "super"}
    case Ctrl => {"ctrl", "control"}
    case Alt => {"alt", "option"}
    case Shift => {"shift"}
  }

  function Has(b: Binding, m: Modifier): bool {
    match m
    case Mod => b.mod
    case Ctrl => b.ctrl
    case Alt => b.alt
    case Shift => b.shift
  }

  /** Some of the words spells the modifier. */
  predicate Spells(words: seq<string>, lower: string -> string, m: Modifier) {
    exists i :: 0 <= i < |words| && lower(words[i]) in Spellings(m)
  }

  predicate IsModifier(word: string) {
    exists m :: word in Spellings(m)
  }

  lemma OneWordExactly(b: Binding, word: string)
    ensures WithModifier(b, word).Some? <==> IsModifier(word)
    ensures WithModifier(b, word).Some? ==>
      var next := WithModifier(b, word).value;
      next.token == b.token && forall m :: Has(next, m) <==> Has(b, m) || word in Spellings(m)
  {
    assert word in Spellings(Mod) || word in Spellings(Ctrl) || word in Spellings(Alt) || word in Spellings(Shift)
           <==> IsModifier(word);
  }

  /**
   * Modifier words are accepted exactly when each is a spelling of some modifier,
   * and set exactly the modifiers spelled: order, repetition and case do not matter.
   */
  lemma {:induction false} ModifiersExactly(b: Binding, words: seq<string>, lower: string -> string)
    ensures WithModifiers(b, words, lower).Some? <==> forall i :: 0 <= i < |words| ==> IsModifier(lower(words[i]))
    ensures WithModifiers(b, words, lower).Some? ==>
      var result := WithModifiers(b, words, lower).value;
      result.token == b.token && forall m :: Has(result, m) <==> Has(b, m) || Spells(words, lower, m)
    decreases |words|
  {
    if words != [] {
      var rest := words[1..];
      OneWordExactly(b, lower(words[0]));
      assert forall i :: 0 <= i < |rest| ==> rest[i] == words[i + 1];
      if WithModifier(b, lower(words[0])).Some? {
        var next := WithModifier(b, lower(words[0])).value;
        ModifiersExactly(next, rest, lower);
        forall m
          ensures Spells(words, lower, m) <==> lower(words[0]) in Spellings(m) || Spells(rest, lower, m)
        {
          SpellsCons(words, lower, m);
        }
        assert (forall i :: 0 <= i < |words| ==> IsModifier(lower(words[i])))
               <==> forall i :: 0 <= i < |rest| ==> IsModifier(lower(rest[i])) by {
          assert forall i :: 0 < i < |words| ==> words[i] == rest[i - 1];
        }
      }
    }
  }

  lemma SpellsCons(words: seq<string>, lower: string -> string, m: Modifier)
    requires words != []
    ensures Spells(words, lower, m) <==> lower(words[0]) in Spellings(m) || Spells(words[1..], lower, m)
  {
    var rest := words[1..];
    if Spells(words, lower, m) {
      var i :| 0 <= i < |words| && lower(words[i]) in Spellings(m);
      assert i > 0 ==> rest[i - 1] == words[i];
    }
    if Spells(rest, lower, m) {
      var i :| 0 <= i < |rest| && lower(rest[i]) in Spellings(m);
      assert words[i + 1] == rest[i];
    }
  }

  lemma {:induction false} CodeIsListed(table: seq<(string, string)>, lower: string -> string, token: string) returns (i: nat)
    requires CodeOf(table, lower, token).Some?
    ensures i < |table| && table[i].0 == CodeOf(table, lower, token).value && lower(table[i].1) == token
  {
    i := |table| - 1;
    if lower(table[i].1) != token {
      i := CodeIsListed(table[..|table| - 1], lower, token);
    }
  }

  /** A word spells exactly the key of the table that it equals up to case. */
  lemma SpelledExactly(k: Keyboard, word: string, token: string)
    requires Good(k)
    ensures Spelled(k, word) == Some(token) <==> InTable(k.table, token) && k.lower(word) == k.lower(token)
  {
    if CodeOf(k.table, k.lower, k.lower(word)).Some? {
      var i := CodeIsListed(k.table, k.lower, k.lower(word));
      TokenOfEntry(k.table, i);
      assert InTable(k.table, k.table[i].1);
      TokensAreSpelled(k, k.table[i].1);
    }
    if InTable(k.table, token) && k.lower(word) == k.lower(token) {
      TokensAreSpelled(k, token);
    }
  }

  /**
   * A text is read as a binding exactly when its parts, between plus signs and
   * without blanks around them, are all there, all but the last spell modifiers,
   * and the last spells the binding's key; its modifiers are those spelled.
   */
  lemma ParseExactly(k: Keyboard, text: string, b: Binding)
    requires Good(k)
    ensures
      Parse(k, text) == Some(b) <==>
      var parts := Parts(text);
      && parts != [] && "" !in parts
      && var words := parts[..|parts| - 1];
        && (forall i :: 0 <= i < |words| ==> IsModifier(k.lower(words[i])))
        && (forall m :: Has(b, m) <==> Spells(words, k.lower, m))
        && InTable(k.table, b.token) && k.lower(parts[|parts| - 1]) == k.lower(b.token)
  {
    var parts := Parts(text);
    if parts != [] && "" !in parts {
      var words := parts[..|parts| - 1];
      ModifiersExactly(UNBOUND, words, k.lower);
      SpelledExactly(k, parts[|parts| - 1], b.token);
      assert InTable(k.table, b.token) ==> IsToken(b.token);
      if WithModifiers(UNBOUND, words, k.lower).Some? {
        SameModifiers(WithModifiers(UNBOUND, words, k.lower).value.(token := b.token), b, words, k.lower);
        if Parse(k, text).Some? {
          SpelledExactly(k, parts[|parts| - 1], Parse(k, text).value.token);
        }
      }
    }
  }

  lemma SameModifiers(a: Binding, b: Binding, words: seq<string>, lower: string -> string)
    requires a.token == b.token && forall m :: Has(a, m) <==> Spells(words, lower, m)
    ensures a == b <==> forall m :: Has(b, m) <==> Spells(words, lower, m)
  {
    if forall m :: Has(b, m) <==> Spells(words, lower, m) {
      assert forall m :: Has(a, m) <==> Has(b, m);
      assert (Has(a, Mod) <==> Has(b, Mod)) && (Has(a, Ctrl) <==> Has(b, Ctrl))
             && (Has(a, Alt) <==> Has(b, Alt)) && (Has(a, Shift) <==> Has(b, Shift));
    }
  }

  /** Normalizing twice is normalizing once, and keeps the binding. */
  lemma NormalizeIsIdempotent(k: Keyboard, text: string)
    requires Good(k) && Normalize(k, text).Some?
    ensures Normalize(k, Normalize(k, text).value) == Normalize(k, text)
    ensures Parse(k, Normalize(k, text).value) == Parse(k, text)
  {
    ParsedIsInTable(k, text);
    ParseInvertsSerialize(k, Parse(k, text).value);
  }

  /** Two bindings on keys of the table have the same canonical text exactly when they are equal. */
  lemma SerializeIsInjective(k: Keyboard, a: Binding, b: Binding)
    requires Good(k) && InTable(k.table, a.token) && InTable(k.table, b.token)
    ensures Serialize(a) == Serialize(b) <==> a == b
  {
    ParseInvertsSerialize(k, a);
    ParseInvertsSerialize(k, b);
  }

  // ---- reading a keydown ------------------------------------------------------------------

  datatype KeyEvent = KeyEvent(code: string, key: string, meta: bool, ctrl: bool, alt: bool, shift: bool)

  function EventToken(k: Keyboard, e: KeyEvent): Option<string> {
    var fromCode := TokenOf(k.table, e.code);
    if fromCode.Some? && fromCode.value != "" then fromCode
    else if e.key == "" then None
    else Spelled(k, e.key)
  }

  function BindingFromEvent(k: Keyboard, e: KeyEvent, isMac: bool): Option<Binding> {
    var token := EventToken(k, e);
    if token.None? || token.value == "" || token.value in {"Escape"} then None
    else if !isMac && e.meta then None
    else Some(Binding(if isMac then e.meta else e.ctrl, isMac && e.ctrl, e.alt, e.shift, token.value))
  }

  /** A binding read from a keydown is canonical: its text is its own normal form and parses back to it. */
  lemma EventBindingsAreCanonical(k: Keyboard, e: KeyEvent, isMac: bool)
    requires Good(k) && BindingFromEvent(k, e, isMac).Some?
    ensures
      var b := BindingFromEvent(k, e, isMac).value;
      InTable(k.table, b.token) && Parse(k, Serialize(b)) == Some(b) && Normalize(k, Serialize(b)) == Some(Serialize(b))
  {
    var fromCode := TokenOf(k.table, e.code);
    if fromCode.Some? && fromCode.value != "" {
      TokenIsListed(k.table, e.code);
    } else {
      TokenIsListed(k.table, CodeOf(k.table, k.lower, k.lower(e.key)).value);
    }
    ParseInvertsSerialize(k, BindingFromEvent(k, e, isMac).value);
  }

  /** `Mod` is Command on macOS and Control elsewhere: with physical Control up, both give the same binding. */
  lemma ModIsThePlatformKey(k: Keyboard, e: KeyEvent)
    requires !e.ctrl
    ensures BindingFromEvent(k, e, true) == BindingFromEvent(k, e.(ctrl := e.meta, meta := false), false)
  {
  }

  /** Keydowns that give one binding hold the same modifiers, and off macOS none holds the Meta key. */
  lemma ModifiersAreDistinguished(k: Keyboard, e: KeyEvent, f: KeyEvent, isMac: bool)
    requires BindingFromEvent(k, e, isMac).Some? && BindingFromEvent(k, e, isMac) == BindingFromEvent(k, f, isMac)
    ensures e.meta == f.meta && e.ctrl == f.ctrl && e.alt == f.alt && e.shift == f.shift
    ensures !isMac ==> !e.meta
  {
  }
}
