/**
 * White space, `String.prototype.trim` and trailing runs of a character class.
 *
 * Strings are sequences of code units. The white space of `trim` and of `\s` is
 * the same set of characters, and `.` excludes the four line terminators; these
 * are the classes that the fork-title and keybinding grammars are made of.
 */
module Whitespace {
  import opened Decimals

  predicate IsLineTerminator(c: char) {
    c == '\n' || c == '\r' || c == '\U{2028}' || c == '\U{2029}'
  }

  /** What `\s` matches and `trim` removes. */
  predicate IsSpace(c: char) {
    || c == ' ' || c == '\t' || c == '\U{000B}' || c == '\U{000C}' || IsLineTerminator(c)
    || c == '\U{00A0}' || c == '\U{1680}' || '\U{2000}' <= c <= '\U{200A}'
    || c == '\U{202F}' || c == '\U{205F}' || c == '\U{3000}' || c == '\U{FEFF}'
  }

  /** The character classes of the expression: `\s`, `\d` and `.`. */
  datatype Class = Space | Digit | InLine

  predicate Is(c: char, cls: Class) {
    match cls
    case Space => IsSpace(c)
    case Digit => IsDigit(c)
    case InLine => !IsLineTerminator(c)
  }

  predicate All(s: string, cls: Class) {
    forall i :: 0 <= i < |s| ==> Is(s[i], cls)
  }

  /** How many trailing characters are of the class. */
  function Trailing(s: string, cls: Class): (k: nat)
    ensures k <= |s|
  {
    if s == "" || !Is(s[|s| - 1], cls) then 0 else 1 + Trailing(s[..|s| - 1], cls)
  }

  function DropTrailing(s: string, cls: Class): string {
    s[..|s| - Trailing(s, cls)]
  }

  lemma {:induction false} TrailingExactly(a: string, b: string, cls: Class)
    requires All(b, cls) && (a != "" ==> !Is(a[|a| - 1], cls))
    ensures Trailing(a + b, cls) == |b| && DropTrailing(a + b, cls) == a
  {
    if b == "" {
      assert a + b == a;
    } else {
      assert (a + b)[..|a + b| - 1] == a + b[..|b| - 1];
      TrailingExactly(a, b[..|b| - 1], cls);
    }
  }

  /** The trailing part is of the class, and what stands before it does not end in it. */
  lemma {:induction false} DroppedAndTrailing(s: string, cls: Class)
    ensures s == DropTrailing(s, cls) + s[|s| - Trailing(s, cls)..]
    ensures All(s[|s| - Trailing(s, cls)..], cls)
    ensures var kept := DropTrailing(s, cls); kept != "" ==> !Is(kept[|kept| - 1], cls)
  {
    var k := Trailing(s, cls);
    forall i | |s| - k <= i < |s|
      ensures Is(s[i], cls)
    {
      TrailingIsOfClass(s, cls, i);
    }
    TrailingStops(s, cls);
  }

  lemma {:induction false} TrailingIsOfClass(s: string, cls: Class, i: nat)
    requires |s| - Trailing(s, cls) <= i < |s|
    ensures Is(s[i], cls)
  {
    if i < |s| - 1 {
      TrailingIsOfClass(s[..|s| - 1], cls, i);
    }
  }

  lemma {:induction false} TrailingStops(s: string, cls: Class)
    ensures Trailing(s, cls) < |s| ==> !Is(s[|s| - Trailing(s, cls) - 1], cls)
  {
    if s != "" && Is(s[|s| - 1], cls) {
      TrailingStops(s[..|s| - 1], cls);
    }
  }

  function TrimStart(s: string): string {
    if s != "" && IsSpace(s[0]) then TrimStart(s[1..]) else s
  }

  function TrimEnd(s: string): string {
    DropTrailing(s, Space)
  }

  function Trim(s: string): string {
    TrimEnd(TrimStart(s))
  }

  predicate Trimmed(s: string) {
    s != "" ==> !IsSpace(s[0]) && !IsSpace(s[|s| - 1])
  }

  lemma {:induction false} TrimStartTrims(s: string)
    ensures TrimStart(s) != "" ==> !IsSpace(TrimStart(s)[0])
  {
    if s != "" && IsSpace(s[0]) {
      TrimStartTrims(s[1..]);
    }
  }

  lemma TrimTrims(s: string)
    ensures Trimmed(Trim(s))
    ensures Trimmed(s) ==> Trim(s) == s
  {
    TrimStartTrims(s);
    DroppedAndTrailing(TrimStart(s), Space);
  }
}
