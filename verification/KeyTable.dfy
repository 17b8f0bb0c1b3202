/**
 * The shipped key table (apps/desktop/src/keybindings.ts:231-271) spells every
 * key apart.
 *
 * Each entry is recovered from its code, and from its lower-case token, by a
 * function that looks at the length and a few characters. So no two entries can
 * share either, in any case.
 */
module KeyTable {
  import opened Common
  import opened Whitespace
  import opened Keybindings

  const NAMED: seq<(string, string)> := [
    ("Space", "Space"), ("Enter", "Enter"), ("Tab", "Tab"), ("Backspace", "Backspace"), ("Delete", "Delete"),
    ("Insert", "Insert"), ("Home", "Home"), ("End", "End"), ("PageUp", "PageUp"), ("PageDown", "PageDown"),
    ("ArrowUp", "ArrowUp"), ("ArrowDown", "ArrowDown"), ("ArrowLeft", "ArrowLeft"), ("ArrowRight", "ArrowRight"),
    ("Backquote", "`"), ("Minus", "-"), ("Equal", "="), ("BracketLeft", "["), ("BracketRight", "]"),
    ("Backslash", "\\"), ("Semicolon", ";"), ("Quote", "'"), ("Comma", ","), ("Period", "."), ("Slash", "/")
  ]

  function Letter(i: nat): char
    requires i < 26
  {
    'A' + i as char
  }

  function DigitChar(i: nat): char
    requires i < 10
  {
    '0' + i as char
  }

  function FunctionNumber(i: nat): string
    requires 1 <= i <= 12
  {
    if i < 10 then [DigitChar(i)] else ['1', DigitChar(i - 10)]
  }

  function LetterEntry(i: nat): (string, string)
    requires i < 26
  {
    ("Key" + [Letter(i)], [Letter(i)])
  }

  /** The digit row and the number pad, which the source adds in turn. */
  function DigitEntry(i: nat): (string, string)
    requires i < 20
  {
    var d := [DigitChar(i / 2)];
    if i % 2 == 0 then ("Digit" + d, d) else ("Numpad" + d, "Numpad" + d)
  }

  function FunctionEntry(i: nat): (string, string)
    requires i < 12
  {
    ("F" + FunctionNumber(i + 1), "F" + FunctionNumber(i + 1))
  }

  function EntryAt(i: nat): (string, string)
    requires i < 83
  {
    if i < 25 then NAMED[i]
    else if i < 51 then LetterEntry(i - 25)
    else if i < 71 then DigitEntry(i - 51)
    else FunctionEntry(i - 71)
  }

  /** `CODE_TOKENS`. */
  function CodeTokens(): seq<(string, string)> {
    seq(83, i requires 0 <= i < 83 => EntryAt(i))
  }

  /** The entry that a lower-case token can only come from. */
  function SlotOfToken(t: string): int {
    if |t| == 1 then
      var c := t[0];
      if 'a' <= c <= 'z' then 25 + (c as int - 'a' as int)
      else if '0' <= c <= '9' then 51 + 2 * (c as int - '0' as int)
      else if c == '`' then 14 else if c == '-' then 15 else if c == '=' then 16 else if c == '[' then 17
      else if c == ']' then 18 else if c == '\\' then 19 else if c == ';' then 20 else if c == '\'' then 21
      else if c == ',' then 22 else if c == '.' then 23 else if c == '/' then 24 else -1
    else if |t| == 2 then
      70 + (t[1] as int - '0' as int)
    else if |t| == 3 then
      if t[0] == 't' then 2 else if t[0] == 'e' then 7 else 80 + (t[2] as int - '0' as int)
    else if |t| == 4 then 6
    else if |t| == 5 then (if t[0] == 's' then 0 else 1)
    else if |t| == 6 then (if t[0] == 'd' then 4 else if t[0] == 'i' then 5 else 8)
    else if |t| == 7 then (if t[0] == 'a' then 10 else 52 + 2 * (t[6] as int - '0' as int))
    else if |t| == 8 then 9
    else if |t| == 9 then (if t[0] == 'b' then 3 else if t[5] == 'd' then 11 else 12)
    else 13
  }

  /** The entry that a key code can only come from. */
  function SlotOfCode(c: string): int {
    if |c| < 3 then (if |c| == 2 then 70 + (c[1] as int - '0' as int) else -1)
    else if |c| == 3 then
      (if c[0] == 'T' then 2 else if c[0] == 'E' then 7 else 80 + (c[2] as int - '0' as int))
    else if |c| == 4 then (if c[0] == 'H' then 6 else 25 + (c[3] as int - 'A' as int))
    else if |c| == 5 then
      (if c[1] == 'p' then 0 else if c[1] == 'n' then 1 else if c[1] == 'i' then 15 else if c[1] == 'q' then 16
       else if c[1] == 'u' then 21 else if c[1] == 'o' then 22 else 24)
    else if |c| == 6 then
      (if c[0] == 'I' then 5 else if c[1] == 'a' then 8 else if c[0] == 'P' then 23
       else if c[1] == 'e' then 4 else 51 + 2 * (c[5] as int - '0' as int))
    else if |c| == 7 then (if c[0] == 'A' then 10 else 52 + 2 * (c[6] as int - '0' as int))
    else if |c| == 8 then 9
    else if |c| == 9 then
      (if c[0] == 'S' then 20 else if c[0] == 'A' then (if c[5] == 'D' then 11 else 12)
       else if c[4] == 'q' then 14 else if c[5] == 'p' then 3 else 19)
    else if |c| == 10 then 13
    else if |c| == 11 then 17
    else 18
  }

  /** What an entry must be for the table to be good. */
  predicate Fits(entry: (string, string), i: nat) {
    entry.0 != "" && IsToken(entry.1) && SlotOfCode(entry.0) == i && SlotOfToken(AsciiLower(entry.1)) == i
  }

  lemma NamedFit0(i: nat)
    requires i < 5
    ensures Fits(NAMED[i], i)
  {
  }

  lemma NamedFit1(i: nat)
    requires 5 <= i < 10
    ensures Fits(NAMED[i], i)
  {
  }

  lemma NamedFit2(i: nat)
    requires 10 <= i < 14
    ensures Fits(NAMED[i], i)
  {
  }

  lemma NamedFit3(i: nat)
    requires 14 <= i < 25
    ensures Fits(NAMED[i], i)
  {
  }

  lemma LettersFit(i: nat)
    requires i < 26
    ensures Fits(LetterEntry(i), 25 + i)
  {
  }

  lemma DigitsFit(i: nat)
    requires i < 20
    ensures Fits(DigitEntry(i), 51 + i)
  {
  }

  lemma FunctionsFit(i: nat)
    requires i < 12
    ensures Fits(FunctionEntry(i), 71 + i)
  {
  }

  lemma EntriesFit(i: nat)
    requires i < 83
    ensures Fits(EntryAt(i), i)
  {
    if i < 5 { NamedFit0(i); }
    else if i < 10 { NamedFit1(i); }
    else if i < 14 { NamedFit2(i); }
    else if i < 25 { NamedFit3(i); }
    else if i < 51 { LettersFit(i - 25); }
    else if i < 71 { DigitsFit(i - 51); }
    else { FunctionsFit(i - 71); }
  }

  /** No two keys of the shipped table share a code or a spelling, so the grammar's round trips hold for it. */
  lemma ShippedTableIsGood(lower: string -> string)
    requires forall s :: IsAscii(s) ==> lower(s) == AsciiLower(s)
    ensures Good(Keyboard(CodeTokens(), lower))
  {
    forall i | 0 <= i < 83
      ensures Fits(CodeTokens()[i], i)
    {
      EntriesFit(i);
    }
  }
}
