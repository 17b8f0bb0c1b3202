/**
 * Unified-diff line parsing: `parseDiffLines`
 * (apps/desktop/src/bridge.ts:4578-4620), against a printer of unified diffs
 * (POSIX `diff` utility, "Diff -u or -U Output Format") with git's file headers.
 */
module DiffLines {
  import opened Common
  import opened Decimals

  datatype Kind = Hunk | Add | Delete | Context

  /** A parsed line; a missing number is the source's `undefined`. */
  datatype DiffLine = DiffLine(kind: Kind, oldNumber: Option<nat>, newNumber: Option<nat>, content: string)

  // ---- leading digits -----------------------------------------------------------

  /** How many leading digits a string has: the greedy `\d+`. */
  function DigitsAhead(s: string): (k: nat)
    ensures k <= |s| && AllDigits(s[..k]) && (k < |s| ==> !IsDigit(s[k]))
  {
    if s == "" || !IsDigit(s[0]) then 0 else 1 + DigitsAhead(s[1..])
  }

  lemma {:induction false} DigitsAheadExactly(digits: string, rest: string)
    requires AllDigits(digits) && (rest != "" ==> !IsDigit(rest[0]))
    ensures DigitsAhead(digits + rest) == |digits|
  {
    if digits == "" {
      assert digits + rest == rest;
    } else {
      assert (digits + rest)[1..] == digits[1..] + rest;
      DigitsAheadExactly(digits[1..], rest);
    }
  }

  // ---- the hunk header --------------------------------------------------------------

  /** The optional `(?:,\d+)?`. */
  function PastCount(s: string): string {
    if s != "" && s[0] == ',' && DigitsAhead(s[1..]) > 0 then s[1 + DigitsAhead(s[1..])..] else s
  }

  /** A number, an optional count, and then `next`: the number and what follows. */
  function ReadRange(s: string, next: string): Option<(nat, string)> {
    var k := DigitsAhead(s);
    var rest := PastCount(s[k..]);
    if k > 0 && next <= rest then Some((Value(s[..k]), rest[|next|..])) else None
  }

  /** `line.match(/^@@ -(\d+)(?:,\d+)? \+(\d+)(?:,\d+)? @@/)`: the two line numbers. */
  function HunkHeader(line: string): Option<(nat, nat)> {
    if !("@@ -" <= line) then None
    else
      match ReadRange(line[4..], " +")
      case None => None
      case Some((oldStart, rest)) =>
        match ReadRange(rest, " @@")
        case None => None
        case Some((newStart, _)) => Some((oldStart, newStart))
  }

  predicate IsCount(s: string) {
    s == "" || (|s| > 1 && s[0] == ',' && AllDigits(s[1..]))
  }

  /** A string of the shape that one range of the regular expression describes. */
  ghost predicate IsRange(s: string, next: string, number: nat, rest: string) {
    exists digits, count ::
      IsRangeOf(s, next, number, rest, digits, count)
  }

  predicate IsRangeOf(s: string, next: string, number: nat, rest: string, digits: string, count: string) {
    digits != "" && AllDigits(digits) && IsCount(count) && number == Value(digits) && s == digits + count + next + rest
  }

  lemma CountIsPassed(count: string, rest: string)
    requires IsCount(count) && rest != "" && rest[0] == ' '
    ensures PastCount(count + rest) == rest
  {
    if count == "" {
      assert count + rest == rest;
    } else {
      var all := count + rest;
      assert all[1..] == count[1..] + rest;
      DigitsAheadExactly(count[1..], rest);
    }
  }

  lemma CountIsSplit(tail: string) returns (count: string)
    ensures IsCount(count) && tail == count + PastCount(tail)
  {
    var past := PastCount(tail);
    count := tail[..|tail| - |past|];
    if past != tail {
      assert count[1..] == tail[1..][..DigitsAhead(tail[1..])];
    }
  }

  lemma PrefixAndRest(s: string, prefix: string)
    requires prefix <= s
    ensures s == prefix + s[|prefix|..]
  {
  }

  lemma Regrouped(s: string, k: nat, count: string, next: string, rest: string)
    requires k <= |s| && s[k..] == count + (next + rest)
    ensures s == s[..k] + count + next + rest
  {
    assert s == s[..k] + s[k..];
  }

  lemma RangeIsMatched(s: string, next: string)
    requires ReadRange(s, next).Some?
    ensures IsRange(s, next, ReadRange(s, next).value.0, ReadRange(s, next).value.1)
  {
    var k := DigitsAhead(s);
    var rest := ReadRange(s, next).value.1;
    var count := CountIsSplit(s[k..]);
    PrefixAndRest(PastCount(s[k..]), next);
    Regrouped(s, k, count, next, rest);
    assert IsRangeOf(s, next, Value(s[..k]), rest, s[..k], count);
  }

  lemma MatchIsRead(s: string, next: string, number: nat, rest: string)
    requires next != "" && next[0] == ' ' && IsRange(s, next, number, rest)
    ensures ReadRange(s, next) == Some((number, rest))
  {
    var digits, count :| IsRangeOf(s, next, number, rest, digits, count);
    var tail := count + (next + rest);
    assert s == digits + tail;
    assert tail[0] == if count == "" then ' ' else ',';
    DigitsAheadExactly(digits, tail);
    assert s[|digits|..] == tail && s[..|digits|] == digits;
    CountIsPassed(count, next + rest);
  }

  /** Reading a range finds exactly the numbers that the expression matches. */
  lemma ReadRangeExactly(s: string, next: string, number: nat, rest: string)
    requires next != "" && next[0] == ' '
    ensures ReadRange(s, next) == Some((number, rest)) <==> IsRange(s, next, number, rest)
  {
    if ReadRange(s, next) == Some((number, rest)) {
      RangeIsMatched(s, next);
    }
    if IsRange(s, next, number, rest) {
      MatchIsRead(s, next, number, rest);
    }
  }

  /** The header parser accepts exactly the lines the regular expression describes, with their numbers. */
  lemma HunkHeaderExactly(line: string, oldStart: nat, newStart: nat)
    ensures HunkHeader(line) == Some((oldStart, newStart)) <==>
            exists middle, rest ::
              "@@ -" <= line && IsRange(line[4..], " +", oldStart, middle) && IsRange(middle, " @@", newStart, rest)
  {
    if HunkHeader(line) == Some((oldStart, newStart)) {
      var middle := ReadRange(line[4..], " +").value.1;
      var rest := ReadRange(middle, " @@").value.1;
      ReadRangeExactly(line[4..], " +", oldStart, middle);
      ReadRangeExactly(middle, " @@", newStart, rest);
    }
    if exists middle, rest ::
         "@@ -" <= line && IsRange(line[4..], " +", oldStart, middle) && IsRange(middle, " @@", newStart, rest) {
      var middle, rest :|
        "@@ -" <= line && IsRange(line[4..], " +", oldStart, middle) && IsRange(middle, " @@", newStart, rest);
      ReadRangeExactly(line[4..], " +", oldStart, middle);
      ReadRangeExactly(middle, " @@", newStart, rest);
    }
  }

  // ---- lines ---------------------------------------------------------------------------

  function Chomp(line: string): string {
    if line != "" && line[|line| - 1] == '\r' then line[..|line| - 1] else line
  }

  function NextNewline(s: string): (k: nat)
    ensures k <= |s| && '\n' !in s[..k] && (k < |s| ==> s[k] == '\n')
  {
    if s == "" || s[0] == '\n' then 0 else 1 + NextNewline(s[1..])
  }

  /** `patch.split(/\r?\n/)`. */
  function Lines(patch: string): seq<string>
    decreases |patch|
  {
    var k := NextNewline(patch);
    if k == |patch| then [patch] else [Chomp(patch[..k])] + Lines(patch[k + 1..])
  }

  predicate Skipped(line: string) {
    || line == "" || "diff --git" <= line || "index " <= line
    || "+++ " <= line || "--- " <= line || "\\ No newline" <= line
  }

  function Shown(number: nat): Option<nat> {
    if number == 0 then None else Some(number)
  }

  function Advance(number: nat): nat {
    if number == 0 then 0 else number + 1
  }

  /** What one line adds, and the two counters after it. */
  function Read(line: string, oldNumber: nat, newNumber: nat): (seq<DiffLine>, nat, nat) {
    if Skipped(line) then ([], oldNumber, newNumber)
    else if "@@" <= line then
      var (o, n) := HunkHeader(line).GetOr((0, 0));
      ([DiffLine(Hunk, None, None, line)], o, n)
    else if line[0] == '+' then
      ([DiffLine(Add, None, Shown(newNumber), line[1..])], oldNumber, Advance(newNumber))
    else if line[0] == '-' then
      ([DiffLine(Delete, Shown(oldNumber), None, line[1..])], Advance(oldNumber), newNumber)
    else
      ([DiffLine(Context, Shown(oldNumber), Shown(newNumber), if line[0] == ' ' then line[1..] else line)],
       Advance(oldNumber), Advance(newNumber))
  }

  function Parsed(lines: seq<string>, oldNumber: nat, newNumber: nat): seq<DiffLine> {
    if lines == [] then []
    else
      var (added, o, n) := Read(lines[0], oldNumber, newNumber);
      added + Parsed(lines[1..], o, n)
  }

  method ParseDiffLines(patch: string) returns (lines: seq<DiffLine>)
    ensures lines == Parsed(Lines(patch), 0, 0)
  {
    var oldNumber: nat, newNumber: nat := 0, 0;
    lines := [];
    var split := Lines(patch);
    var i := 0;
    while i < |split|
      invariant 0 <= i <= |split|
      invariant lines + Parsed(split[i..], oldNumber, newNumber) == Parsed(split, 0, 0)
    {
      var line := split[i];
      ghost var added := Read(line, oldNumber, newNumber);
      ghost var before := lines;
      ParsedStep(split, i, lines, oldNumber, newNumber);
      if Skipped(line) {
      } else if "@@" <= line {
        var hunk := HunkHeader(line);
        oldNumber := if hunk.Some? then hunk.value.0 else 0;
        newNumber := if hunk.Some? then hunk.value.1 else 0;
        lines := lines + [DiffLine(Hunk, None, None, line)];
      } else if line[0] == '+' {
        lines := lines + [DiffLine(Add, None, Shown(newNumber), line[1..])];
        if newNumber != 0 { newNumber := newNumber + 1; }
      } else if line[0] == '-' {
        lines := lines + [DiffLine(Delete, Shown(oldNumber), None, line[1..])];
        if oldNumber != 0 { oldNumber := oldNumber + 1; }
      } else {
        lines := lines + [DiffLine(Context, Shown(oldNumber), Shown(newNumber), if line[0] == ' ' then line[1..] else line)];
        if oldNumber != 0 { oldNumber := oldNumber + 1; }
        if newNumber != 0 { newNumber := newNumber + 1; }
      }
      assert oldNumber == added.1 && newNumber == added.2;
      assert lines == before + added.0;
      i := i + 1;
    }
  }

  lemma ParsedStep(split: seq<string>, i: nat, lines: seq<DiffLine>, oldNumber: nat, newNumber: nat)
    requires i < |split|
    ensures
      var added := Read(split[i], oldNumber, newNumber);
      lines + Parsed(split[i..], oldNumber, newNumber) == (lines + added.0) + Parsed(split[i + 1..], added.1, added.2)
  {
    var added := Read(split[i], oldNumber, newNumber);
    assert split[i..][0] == split[i] && split[i..][1..] == split[i + 1..];
    assert Parsed(split[i..], oldNumber, newNumber) == added.0 + Parsed(split[i + 1..], added.1, added.2);
  }

  // ---- the printer ------------------------------------------------------------------------

  datatype Change = Added | Deleted | Kept

  /** A line of a hunk; `unterminated` when the file ends in it without a newline. */
  datatype Line = Line(change: Change, content: string, unterminated: bool)

  datatype HunkPatch = HunkPatch(oldStart: nat, newStart: nat, heading: string, lines: seq<Line>)

  /** The lines before a file's hunks, whatever they are, and the hunks. */
  datatype FilePatch = FilePatch(header: seq<string>, hunks: seq<HunkPatch>)

  /** One printed line, with what it stands for. */
  datatype Item =
    | Meta(text: string)
    | Head(oldStart: nat, oldCount: nat, newStart: nat, newCount: nat, heading: string)
    | Body(change: Change, content: string)

  function Range(start: nat, count: nat): string {
    Decimal(start) + (if count == 1 then "" else "," + Decimal(count))
  }

  function Mark(change: Change): char {
    match change
    case Added => '+'
    case Deleted => '-'
    case Kept => ' '
  }

  function Text(item: Item): string {
    match item
    case Meta(text) => text
    case Head(oldStart, oldCount, newStart, newCount, heading) =>
      "@@ -" + Range(oldStart, oldCount) + " +" + Range(newStart, newCount) + " @@" + heading
    case Body(change, content) => [Mark(change)] + content
  }

  predicate OnOld(line: Line) {
    line.change != Added
  }

  predicate OnNew(line: Line) {
    line.change != Deleted
  }

  function Count(lines: seq<Line>, side: Line -> bool): nat {
    if lines == [] then 0 else (if side(lines[0]) then 1 else 0) + Count(lines[1..], side)
  }

  const NO_NEWLINE := "\\ No newline"

  function BodyOf(line: Line): Item {
    Body(line.change, line.content)
  }

  function Note(): Item {
    Meta(NO_NEWLINE + " at end of file")
  }

  function LineItems(lines: seq<Line>): seq<Item> {
    if lines == [] then []
    else [BodyOf(lines[0])] + (if lines[0].unterminated then [Note()] else []) + LineItems(lines[1..])
  }

  function HeadOf(h: HunkPatch): Item {
    Head(h.oldStart, Count(h.lines, OnOld), h.newStart, Count(h.lines, OnNew), h.heading)
  }

  function HunkItems(hunks: seq<HunkPatch>): seq<Item> {
    if hunks == [] then [] else [HeadOf(hunks[0])] + LineItems(hunks[0].lines) + HunkItems(hunks[1..])
  }

  function HeaderItems(header: seq<string>): seq<Item> {
    if header == [] then [] else [Meta(header[0])] + HeaderItems(header[1..])
  }

  function Items(files: seq<FilePatch>): seq<Item> {
    if files == [] then [] else HeaderItems(files[0].header) + HunkItems(files[0].hunks) + Items(files[1..])
  }

  function Joined(items: seq<Item>): string {
    if items == [] then "" else Text(items[0]) + "\n" + Joined(items[1..])
  }

  function Print(files: seq<FilePatch>): string {
    Joined(Items(files))
  }

  /** What a reader of the patch should see: every hunk line numbered on the sides it is on. */
  function Numbered(lines: seq<Line>, oldNumber: nat, newNumber: nat): seq<DiffLine> {
    if lines == [] then []
    else
      var content := lines[0].content;
      match lines[0].change
      case Added => [DiffLine(Add, None, Some(newNumber), content)] + Numbered(lines[1..], oldNumber, newNumber + 1)
      case Deleted => [DiffLine(Delete, Some(oldNumber), None, content)] + Numbered(lines[1..], oldNumber + 1, newNumber)
      case Kept => [DiffLine(Context, Some(oldNumber), Some(newNumber), content)]
                   + Numbered(lines[1..], oldNumber + 1, newNumber + 1)
  }

  function HunkLines(hunks: seq<HunkPatch>): seq<DiffLine> {
    if hunks == [] then []
    else
      [DiffLine(Hunk, None, None, Text(HeadOf(hunks[0])))]
      + Numbered(hunks[0].lines, hunks[0].oldStart, hunks[0].newStart)
      + HunkLines(hunks[1..])
  }

  function Meaning(files: seq<FilePatch>): seq<DiffLine> {
    if files == [] then [] else HunkLines(files[0].hunks) + Meaning(files[1..])
  }

  // ---- which patches survive -----------------------------------------------------------------

  /** Text that the line splitter leaves whole. */
  predicate PlainText(s: string) {
    '\n' !in s && Chomp(s) == s
  }

  /** A changed line whose printed form looks like a file header is skipped. */
  predicate LooksLikeHeader(change: Change, content: string) {
    (change == Added && "++ " <= content) || (change == Deleted && "-- " <= content)
  }

  predicate LineSurvives(line: Line) {
    PlainText(line.content) && !LooksLikeHeader(line.change, line.content)
  }

  /** Plain text throughout, no line like a file header, and no line on a side that starts at 0. */
  predicate HunkSurvives(h: HunkPatch) {
    && PlainText(h.heading)
    && (forall l :: l in h.lines ==> LineSurvives(l))
    && (forall l :: l in h.lines && OnOld(l) ==> h.oldStart > 0)
    && (forall l :: l in h.lines && OnNew(l) ==> h.newStart > 0)
  }

  predicate HunksSurvive(hunks: seq<HunkPatch>) {
    forall h :: h in hunks ==> HunkSurvives(h)
  }

  /** A header line that the parser passes over. */
  predicate PassedOver(line: string) {
    Skipped(Chomp(line))
  }

  predicate HeaderIsSkipped(header: seq<string>) {
    forall line :: line in header ==> PassedOver(line)
  }

  predicate FilesSurvive(files: seq<FilePatch>) {
    forall f :: f in files ==> HeaderIsSkipped(f.header) && HunksSurvive(f.hunks)
  }

  // ---- the same for single printed lines ---------------------------------------------------------

  predicate ItemSurvives(item: Item, oldNumber: nat, newNumber: nat) {
    match item
    case Meta(text) => PassedOver(text)
    case Head(_, _, _, _, heading) => PlainText(heading)
    case Body(change, content) =>
      && PlainText(content) && !LooksLikeHeader(change, content)
      && (change != Added ==> oldNumber > 0) && (change != Deleted ==> newNumber > 0)
  }

  function ItemMeaning(item: Item, oldNumber: nat, newNumber: nat): seq<DiffLine> {
    match item
    case Meta(_) => []
    case Head(_, _, _, _, _) => [DiffLine(Hunk, None, None, Text(item))]
    case Body(Added, content) => [DiffLine(Add, None, Some(newNumber), content)]
    case Body(Deleted, content) => [DiffLine(Delete, Some(oldNumber), None, content)]
    case Body(Kept, content) => [DiffLine(Context, Some(oldNumber), Some(newNumber), content)]
  }

  function Shift(item: Item, oldNumber: nat, newNumber: nat): (nat, nat) {
    match item
    case Meta(_) => (oldNumber, newNumber)
    case Head(oldStart, _, newStart, _, _) => (oldStart, newStart)
    case Body(Added, _) => (oldNumber, newNumber + 1)
    case Body(Deleted, _) => (oldNumber + 1, newNumber)
    case Body(Kept, _) => (oldNumber + 1, newNumber + 1)
  }

  function ItemsMeaning(items: seq<Item>, oldNumber: nat, newNumber: nat): seq<DiffLine> {
    if items == [] then []
    else
      var (o, n) := Shift(items[0], oldNumber, newNumber);
      ItemMeaning(items[0], oldNumber, newNumber) + ItemsMeaning(items[1..], o, n)
  }

  predicate ItemsSurvive(items: seq<Item>, oldNumber: nat, newNumber: nat) {
    items == []
    || (ItemSurvives(items[0], oldNumber, newNumber)
        && var (o, n) := Shift(items[0], oldNumber, newNumber); ItemsSurvive(items[1..], o, n))
  }

  /** A header line or note: it is one line, and does not open a hunk. */
  predicate IsHeaderLine(line: string) {
    '\n' !in line && !("@@" <= line)
  }

  lemma RangeIsRead(start: nat, count: nat, next: string, rest: string)
    requires next != "" && next[0] == ' '
    ensures ReadRange(Range(start, count) + next + rest, next) == Some((start, rest))
  {
    DecimalIsRead(start);
    DecimalIsRead(count);
    var tail := if count == 1 then "" else "," + Decimal(count);
    assert tail != "" ==> tail[1..] == Decimal(count);
    assert IsRangeOf(Range(start, count) + next + rest, next, start, rest, Decimal(start), tail);
    MatchIsRead(Range(start, count) + next + rest, next, start, rest);
  }

  lemma RangeIsPlain(start: nat, count: nat)
    ensures '\n' !in Range(start, count)
  {
    DecimalIsDigits(start);
    DecimalIsDigits(count);
  }

  lemma Regroup(a: string, b: string, c: string, d: string, e: string, f: string)
    ensures a + b + c + d + e + f == a + (b + c + (d + e + f))
  {
  }

  lemma AfterPrefix(prefix: string, tail: string)
    ensures prefix <= prefix + tail && (prefix + tail)[|prefix|..] == tail
  {
  }

  lemma HeadIsParsed(head: Item)
    requires head.Head?
    ensures HunkHeader(Text(head)) == Some((head.oldStart, head.newStart))
  {
    var first := Range(head.oldStart, head.oldCount);
    var second := Range(head.newStart, head.newCount);
    RangeIsRead(head.oldStart, head.oldCount, " +", second + " @@" + head.heading);
    RangeIsRead(head.newStart, head.newCount, " @@", head.heading);
    Regroup("@@ -", first, " +", second, " @@", head.heading);
    AfterPrefix("@@ -", first + " +" + (second + " @@" + head.heading));
  }

  function Numbers(head: Item): string
    requires head.Head?
  {
    "@@ -" + Range(head.oldStart, head.oldCount) + " +" + Range(head.newStart, head.newCount) + " @@"
  }

  lemma NumbersArePlain(head: Item)
    requires head.Head?
    ensures '\n' !in Numbers(head) && |Numbers(head)| > 3 && Numbers(head)[|Numbers(head)| - 1] == '@'
    ensures Numbers(head)[..3] == "@@ " && Text(head) == Numbers(head) + head.heading
  {
    RangeIsPlain(head.oldStart, head.oldCount);
    RangeIsPlain(head.newStart, head.newCount);
  }

  lemma PlainThenHeading(numbers: string, heading: string)
    requires '\n' !in numbers && |numbers| > 3 && numbers[|numbers| - 1] == '@'
    ensures
      var text := numbers + heading;
      && ('\n' in text <==> '\n' in heading)
      && (Chomp(text) == text <==> Chomp(heading) == heading)
      && |Chomp(text)| >= 3 && Chomp(text)[..3] == numbers[..3]
  {
    var text := numbers + heading;
    assert text[|text| - 1] == if heading == "" then '@' else heading[|heading| - 1];
  }

  lemma HeadIsWhole(head: Item)
    requires head.Head?
    ensures '\n' in Text(head) <==> '\n' in head.heading
    ensures Chomp(Text(head)) == Text(head) <==> Chomp(head.heading) == head.heading
    ensures |Chomp(Text(head))| >= 3 && Chomp(Text(head))[..3] == "@@ "
  {
    NumbersArePlain(head);
    PlainThenHeading(Numbers(head), head.heading);
  }

  lemma HeadLineIsShown(line: string)
    requires |line| >= 3 && line[..3] == "@@ "
    ensures "@@" <= line && !Skipped(line)
  {
    assert line[0] == '@' && line[1] == '@';
  }

  lemma HeadIsRead(head: Item, oldNumber: nat, newNumber: nat)
    requires head.Head? && '\n' !in Text(head)
    ensures
      var r := Read(Chomp(Text(head)), oldNumber, newNumber);
      && |r.0| == 1
      && (r.0 == [DiffLine(Hunk, None, None, Text(head))] <==> PlainText(head.heading))
      && (PlainText(head.heading) ==> (r.1, r.2) == (head.oldStart, head.newStart))
  {
    HeadIsParsed(head);
    HeadIsWhole(head);
    HeadLineIsShown(Chomp(Text(head)));
  }

  /** A marked line is read back exactly when it survives. */
  lemma BodyIsRead(item: Item, oldNumber: nat, newNumber: nat)
    requires item.Body? && '\n' !in item.content
    ensures
      var r := Read(Chomp(Text(item)), oldNumber, newNumber);
      && |r.0| <= 1
      && (r.0 == ItemMeaning(item, oldNumber, newNumber) <==> ItemSurvives(item, oldNumber, newNumber))
      && (ItemSurvives(item, oldNumber, newNumber) ==> (r.1, r.2) == Shift(item, oldNumber, newNumber))
  {
    var mark := Mark(item.change);
    var line := Chomp(Text(item));
    assert line == [mark] + Chomp(item.content);
    MarkedIsShown(mark, Chomp(item.content));
  }

  lemma PrefixParts(prefix: string, s: string)
    requires prefix != "" && s != ""
    ensures prefix <= s <==> prefix[0] == s[0] && prefix[1..] <= s[1..]
  {
    if prefix[0] == s[0] && prefix[1..] <= s[1..] {
      forall i | 0 <= i < |prefix|
        ensures prefix[i] == s[i]
      {
        assert i > 0 ==> prefix[1..][i - 1] == s[1..][i - 1];
      }
    }
  }

  lemma MarkedIsShown(mark: char, content: string)
    requires mark == '+' || mark == '-' || mark == ' '
    ensures
      var line := [mark] + content;
      && !("@@" <= line) && line[0] == mark && line[1..] == content
      && (Skipped(line) <==> (mark == '+' && "++ " <= content) || (mark == '-' && "-- " <= content))
  {
    var line := [mark] + content;
    PrefixParts("@@", line);
    PrefixParts("diff --git", line);
    PrefixParts("index ", line);
    PrefixParts("\\ No newline", line);
    PrefixParts("+++ ", line);
    PrefixParts("--- ", line);
    assert "+++ "[1..] == "++ " && "--- "[1..] == "-- " && line[1..] == content;
  }

  predicate Opens(line: string, text: string) {
    |line| >= |text| && line[..|text|] == text
  }

  /** The lines that show nothing: the empty one, and those that open as the header and note lines do. */
  lemma SkippedExactly(line: string)
    ensures Skipped(line) <==>
            || line == "" || Opens(line, "diff --git") || Opens(line, "index ")
            || Opens(line, "+++ ") || Opens(line, "--- ") || Opens(line, "\\ No newline")
  {
  }

  /** A header line yields no row exactly when the parser's skip prefixes match it, and never a hunk's row. */
  lemma HeaderLineExactly(line: string, oldNumber: nat, newNumber: nat)
    requires IsHeaderLine(line)
    ensures
      var r := Read(Chomp(line), oldNumber, newNumber);
      && (r.0 == [] <==> PassedOver(line))
      && (r.0 == [] ==> (r.1, r.2) == (oldNumber, newNumber))
      && (r.0 != [] ==> |r.0| == 1 && r.0[0].kind != Hunk)
  {
    assert Chomp(line) <= line;
  }

  function Texts(items: seq<Item>): seq<string> {
    if items == [] then [""] else [Chomp(Text(items[0]))] + Texts(items[1..])
  }

  ghost predicate SingleLines(items: seq<Item>) {
    forall item :: item in items ==> '\n' !in Text(item)
  }

  /** Before the next hunk line comes a hunk header. */
  predicate HeadIsNext(items: seq<Item>) {
    items == [] || items[0].Head? || (items[0].Meta? && HeadIsNext(items[1..]))
  }

  /** No meta line opens a hunk, and those that are not skipped stand before a hunk header. */
  predicate Orderly(items: seq<Item>) {
    items == []
    || (Orderly(items[1..])
        && (items[0].Meta? ==> IsHeaderLine(items[0].text) && (PassedOver(items[0].text) || HeadIsNext(items[1..]))))
  }

  lemma {:induction false} NewlineIsNext(line: string, rest: string)
    requires '\n' !in line
    ensures NextNewline(line + "\n" + rest) == |line|
  {
    if line == "" {
      assert line + "\n" + rest == "\n" + rest;
    } else {
      assert (line + "\n" + rest)[1..] == line[1..] + "\n" + rest;
      NewlineIsNext(line[1..], rest);
    }
  }

  lemma {:induction false} LinesOfJoined(items: seq<Item>)
    requires SingleLines(items)
    ensures Lines(Joined(items)) == Texts(items)
  {
    if items != [] {
      var line, rest := Text(items[0]), Joined(items[1..]);
      assert items[0] in items;
      NewlineIsNext(line, rest);
      var all := line + "\n" + rest;
      assert all[..|line|] == line && all[|line| + 1..] == rest;
      LinesOfJoined(items[1..]);
    }
  }

  lemma TextsAreParsed(items: seq<Item>, oldNumber: nat, newNumber: nat)
    ensures
      Parsed(Texts(items), oldNumber, newNumber)
      == if items == [] then []
         else
           var r := Read(Chomp(Text(items[0])), oldNumber, newNumber);
           r.0 + Parsed(Texts(items[1..]), r.1, r.2)
  {
    if items == [] {
      assert Skipped(Texts(items)[0]) && Texts(items)[1..] == [];
    } else {
      assert Texts(items)[1..] == Texts(items[1..]);
    }
  }

  /** A row that the parser never makes, because the line it would come from is skipped. */
  predicate Unparsed(d: DiffLine) {
    (d.kind == Add && "++ " <= d.content) || (d.kind == Delete && "-- " <= d.content)
  }

  lemma LineIsParsable(line: string, oldNumber: nat, newNumber: nat)
    ensures forall d :: d in Read(line, oldNumber, newNumber).0 ==> !Unparsed(d)
  {
    if line != "" {
      PrefixParts("+++ ", line);
      PrefixParts("--- ", line);
      assert "+++ "[1..] == "++ " && "--- "[1..] == "-- ";
    }
  }

  lemma {:induction false} ParsedIsParsable(lines: seq<string>, oldNumber: nat, newNumber: nat)
    ensures forall d :: d in Parsed(lines, oldNumber, newNumber) ==> !Unparsed(d)
  {
    if lines != [] {
      LineIsParsable(lines[0], oldNumber, newNumber);
      var r := Read(lines[0], oldNumber, newNumber);
      ParsedIsParsable(lines[1..], r.1, r.2);
    }
  }

  /** Before a hunk header nothing is meant, so the first row meant is the hunk's. */
  lemma {:induction false} HunkIsMeantNext(items: seq<Item>, oldNumber: nat, newNumber: nat)
    requires HeadIsNext(items)
    ensures
      var meant := ItemsMeaning(items, oldNumber, newNumber);
      meant != [] ==> meant[0].kind == Hunk
  {
    if items != [] && items[0].Meta? {
      HunkIsMeantNext(items[1..], oldNumber, newNumber);
    }
  }

  /** A printed line that survives is read as meant, with the counters that follow it. */
  lemma SurvivorIsRead(item: Item, oldNumber: nat, newNumber: nat)
    requires '\n' !in Text(item) && (item.Meta? ==> IsHeaderLine(item.text)) && ItemSurvives(item, oldNumber, newNumber)
    ensures
      var r := Read(Chomp(Text(item)), oldNumber, newNumber);
      r.0 == ItemMeaning(item, oldNumber, newNumber) && (r.1, r.2) == Shift(item, oldNumber, newNumber)
  {
    match item
    case Meta(text) => HeaderLineExactly(text, oldNumber, newNumber);
    case Head(_, _, _, _, _) => HeadIsRead(item, oldNumber, newNumber);
    case Body(_, _) =>
      assert Text(item)[1..] == item.content;
      BodyIsRead(item, oldNumber, newNumber);
  }

  /** A header line that shows as a row stands where only a hunk's row is meant. */
  lemma ShownHeaderSpoils(items: seq<Item>, oldNumber: nat, newNumber: nat)
    requires items != [] && items[0].Meta? && Orderly(items) && !ItemSurvives(items[0], oldNumber, newNumber)
    ensures Parsed(Texts(items), oldNumber, newNumber) != ItemsMeaning(items, oldNumber, newNumber)
  {
    TextsAreParsed(items, oldNumber, newNumber);
    HeaderLineExactly(items[0].text, oldNumber, newNumber);
    HunkIsMeantNext(items[1..], oldNumber, newNumber);
  }

  lemma OtherHeadSpoils(items: seq<Item>, oldNumber: nat, newNumber: nat)
    requires items != [] && items[0].Head? && '\n' !in Text(items[0]) && !ItemSurvives(items[0], oldNumber, newNumber)
    ensures Parsed(Texts(items), oldNumber, newNumber) != ItemsMeaning(items, oldNumber, newNumber)
  {
    var item, rest := items[0], items[1..];
    var r := Read(Chomp(Text(item)), oldNumber, newNumber);
    TextsAreParsed(items, oldNumber, newNumber);
    HeadIsRead(item, oldNumber, newNumber);
    FirstDiffers(r.0, Parsed(Texts(rest), r.1, r.2),
                 ItemMeaning(item, oldNumber, newNumber), ItemsMeaning(rest, item.oldStart, item.newStart));
  }

  /** A marked line that does not survive is shown as another row, or not at all: then no row equals it. */
  lemma OtherBodySpoils(items: seq<Item>, oldNumber: nat, newNumber: nat)
    requires items != [] && items[0].Body? && '\n' !in Text(items[0]) && !ItemSurvives(items[0], oldNumber, newNumber)
    ensures Parsed(Texts(items), oldNumber, newNumber) != ItemsMeaning(items, oldNumber, newNumber)
  {
    var item, rest := items[0], items[1..];
    var r := Read(Chomp(Text(item)), oldNumber, newNumber);
    var meant, after := ItemMeaning(item, oldNumber, newNumber), Shift(item, oldNumber, newNumber);
    assert Text(item)[1..] == item.content;
    BodyIsRead(item, oldNumber, newNumber);
    if r.0 == [] {
      UnshownIsUnparsed(item, oldNumber, newNumber);
      ParsedIsParsable(Texts(items), oldNumber, newNumber);
      assert meant[0] in ItemsMeaning(items, oldNumber, newNumber);
    } else {
      TextsAreParsed(items, oldNumber, newNumber);
      FirstDiffers(r.0, Parsed(Texts(rest), r.1, r.2), meant, ItemsMeaning(rest, after.0, after.1));
    }
  }

  lemma UnshownIsUnparsed(item: Item, oldNumber: nat, newNumber: nat)
    requires item.Body? && Read(Chomp(Text(item)), oldNumber, newNumber).0 == []
    ensures Unparsed(ItemMeaning(item, oldNumber, newNumber)[0])
  {
    assert Chomp(Text(item)) == [Mark(item.change)] + Chomp(item.content);
    MarkedIsShown(Mark(item.change), Chomp(item.content));
    assert Chomp(item.content) <= item.content;
  }

  /** The first line that does not survive spoils the rows from there on. */
  lemma CasualtySpoils(items: seq<Item>, oldNumber: nat, newNumber: nat)
    requires items != [] && '\n' !in Text(items[0]) && Orderly(items) && !ItemSurvives(items[0], oldNumber, newNumber)
    ensures Parsed(Texts(items), oldNumber, newNumber) != ItemsMeaning(items, oldNumber, newNumber)
  {
    match items[0]
    case Meta(_) => ShownHeaderSpoils(items, oldNumber, newNumber);
    case Head(_, _, _, _, _) => OtherHeadSpoils(items, oldNumber, newNumber);
    case Body(_, _) => OtherBodySpoils(items, oldNumber, newNumber);
  }

  lemma FirstDiffers<T>(a: seq<T>, b: seq<T>, x: seq<T>, y: seq<T>)
    requires |a| == |x| == 1 && a != x
    ensures a + b != x + y
  {
    assert (a + b)[0] == a[0] && (x + y)[0] == x[0];
  }

  /** The parser recovers the printed lines exactly when each of them survives. */
  lemma {:induction false} ItemsRoundTrip(items: seq<Item>, oldNumber: nat, newNumber: nat)
    requires SingleLines(items) && Orderly(items)
    ensures Parsed(Texts(items), oldNumber, newNumber) == ItemsMeaning(items, oldNumber, newNumber)
            <==> ItemsSurvive(items, oldNumber, newNumber)
  {
    TextsAreParsed(items, oldNumber, newNumber);
    if items != [] {
      var item, rest := items[0], items[1..];
      assert item in items;
      if ItemSurvives(item, oldNumber, newNumber) {
        var after := Shift(item, oldNumber, newNumber);
        SurvivorIsRead(item, oldNumber, newNumber);
        ItemsRoundTrip(rest, after.0, after.1);
        SameAfter(ItemMeaning(item, oldNumber, newNumber), Parsed(Texts(rest), after.0, after.1), ItemsMeaning(rest, after.0, after.1));
      } else {
        CasualtySpoils(items, oldNumber, newNumber);
      }
    }
  }

  lemma SameAfter<T>(first: seq<T>, a: seq<T>, b: seq<T>)
    ensures first + a == first + b <==> a == b
  {
    if first + a == first + b {
      assert (first + a)[|first|..] == a && (first + b)[|first|..] == b;
    }
  }

  // ---- notes -----------------------------------------------------------------------------------

  /** A prefix that does not end in a carriage return survives the line splitter. */
  lemma PrefixIsKept(prefix: string, tail: string)
    requires prefix != "" && prefix[|prefix| - 1] != '\r'
    ensures prefix <= Chomp(prefix + tail)
  {
    assert prefix <= prefix + tail;
    assert tail == "" ==> prefix + tail == prefix;
  }

  lemma NoteIsSkipped()
    ensures IsHeaderLine(Note().text) && PassedOver(Note().text)
  {
    PrefixIsKept(NO_NEWLINE, " at end of file");
    assert Note().text[0] == '\\';
  }

  // ---- from printed lines to patches -------------------------------------------------------

  /** What a printed suffix means and whether it survives, whatever the counters before it. */
  ghost predicate StandsFor(items: seq<Item>, meaning: seq<DiffLine>, survives: bool) {
    forall o: nat, n: nat :: ItemsMeaning(items, o, n) == meaning && ItemsSurvive(items, o, n) == survives
  }

  predicate LinesSurvive(lines: seq<Line>, oldNumber: nat, newNumber: nat) {
    && (forall l :: l in lines ==> LineSurvives(l))
    && (forall l :: l in lines && OnOld(l) ==> oldNumber > 0)
    && (forall l :: l in lines && OnNew(l) ==> newNumber > 0)
  }

  lemma ItemsCons(item: Item, rest: seq<Item>, o: nat, n: nat)
    ensures
      var next := Shift(item, o, n);
      && ItemsMeaning([item] + rest, o, n) == ItemMeaning(item, o, n) + ItemsMeaning(rest, next.0, next.1)
      && (ItemsSurvive([item] + rest, o, n) <==> ItemSurvives(item, o, n) && ItemsSurvive(rest, next.0, next.1))
  {
    assert ([item] + rest)[1..] == rest;
  }

  /** One more line in front: it must survive, on the sides it is on. */
  lemma LinesCons(l: Line, rest: seq<Line>, o: nat, n: nat)
    ensures
      var next := Shift(BodyOf(l), o, n);
      LinesSurvive([l] + rest, o, n) <==> ItemSurvives(BodyOf(l), o, n) && LinesSurvive(rest, next.0, next.1)
  {
    var lines := [l] + rest;
    var next := Shift(BodyOf(l), o, n);
    assert l in lines && forall x :: x in rest ==> x in lines;
    if LinesSurvive(lines, o, n) {
      assert LineSurvives(l);
    } else if ItemSurvives(BodyOf(l), o, n) && LinesSurvive(rest, next.0, next.1) {
      assert forall x :: x in lines ==> x == l || x in rest;
      assert LineSurvives(l);
    }
  }

  lemma NumberedCons(lines: seq<Line>, o: nat, n: nat)
    requires lines != []
    ensures
      var next := Shift(BodyOf(lines[0]), o, n);
      Numbered(lines, o, n) == ItemMeaning(BodyOf(lines[0]), o, n) + Numbered(lines[1..], next.0, next.1)
  {
  }

  lemma LineItemsUnfold(lines: seq<Line>, rest: seq<Item>)
    requires lines != []
    ensures
      var tail := LineItems(lines[1..]) + rest;
      LineItems(lines) + rest == [BodyOf(lines[0])] + (if lines[0].unterminated then [Note()] + tail else tail)
  {
    var body, more := [BodyOf(lines[0])], LineItems(lines[1..]);
    if lines[0].unterminated {
      ThreeInFront(body, [Note()], more, rest);
    } else {
      assert body + [] == body;
      Associates(body, more, rest);
    }
  }

  /** The note about a missing final newline means nothing. */
  lemma NoteMeansNothing(unterminated: bool, tail: seq<Item>, o: nat, n: nat)
    ensures
      var items := if unterminated then [Note()] + tail else tail;
      ItemsMeaning(items, o, n) == ItemsMeaning(tail, o, n) && ItemsSurvive(items, o, n) == ItemsSurvive(tail, o, n)
  {
    NoteIsSkipped();
    ItemsCons(Note(), tail, o, n);
  }

  lemma LineInFront(l: Line, more: seq<Line>, tail: seq<Item>, o: nat, n: nat, meaning: seq<DiffLine>, survives: bool)
    requires
      var next := Shift(BodyOf(l), o, n);
      && ItemsMeaning(tail, next.0, next.1) == Numbered(more, next.0, next.1) + meaning
      && (ItemsSurvive(tail, next.0, next.1) <==> LinesSurvive(more, next.0, next.1) && survives)
    ensures
      var items := [BodyOf(l)] + (if l.unterminated then [Note()] + tail else tail);
      && ItemsMeaning(items, o, n) == Numbered([l] + more, o, n) + meaning
      && (ItemsSurvive(items, o, n) <==> LinesSurvive([l] + more, o, n) && survives)
  {
    var next := Shift(BodyOf(l), o, n);
    NoteMeansNothing(l.unterminated, tail, next.0, next.1);
    ItemsCons(BodyOf(l), if l.unterminated then [Note()] + tail else tail, o, n);
    NumberedCons([l] + more, o, n);
    assert ([l] + more)[1..] == more;
    LinesCons(l, more, o, n);
    Associates(ItemMeaning(BodyOf(l), o, n), Numbered(more, next.0, next.1), meaning);
  }

  lemma Associates<T>(a: seq<T>, b: seq<T>, c: seq<T>)
    ensures a + (b + c) == (a + b) + c
  {
  }

  lemma {:induction false} LineItemsStandFor(lines: seq<Line>, o: nat, n: nat, rest: seq<Item>, meaning: seq<DiffLine>, survives: bool)
    requires StandsFor(rest, meaning, survives)
    ensures ItemsMeaning(LineItems(lines) + rest, o, n) == Numbered(lines, o, n) + meaning
    ensures ItemsSurvive(LineItems(lines) + rest, o, n) <==> LinesSurvive(lines, o, n) && survives
  {
    if lines == [] {
      assert LineItems(lines) + rest == rest;
    } else {
      var l, more := lines[0], lines[1..];
      var next := Shift(BodyOf(l), o, n);
      LineItemsStandFor(more, next.0, next.1, rest, meaning, survives);
      LineInFront(l, more, LineItems(more) + rest, o, n, meaning, survives);
      LineItemsUnfold(lines, rest);
      assert lines == [l] + more;
    }
  }

  lemma HunkInFront(h: HunkPatch, body: seq<Item>, o: nat, n: nat, meaning: seq<DiffLine>, survives: bool)
    requires ItemsMeaning(body, h.oldStart, h.newStart) == Numbered(h.lines, h.oldStart, h.newStart) + meaning
    requires ItemsSurvive(body, h.oldStart, h.newStart) <==> LinesSurvive(h.lines, h.oldStart, h.newStart) && survives
    ensures ItemsMeaning([HeadOf(h)] + body, o, n)
            == [DiffLine(Hunk, None, None, Text(HeadOf(h)))] + Numbered(h.lines, h.oldStart, h.newStart) + meaning
    ensures ItemsSurvive([HeadOf(h)] + body, o, n) <==> HunkSurvives(h) && survives
  {
    ItemsCons(HeadOf(h), body, o, n);
  }

  lemma HunkItemsUnfold(hunks: seq<HunkPatch>, rest: seq<Item>, meaning: seq<DiffLine>)
    requires hunks != []
    ensures HunkItems(hunks) + rest == [HeadOf(hunks[0])] + (LineItems(hunks[0].lines) + (HunkItems(hunks[1..]) + rest))
    ensures
      var h := hunks[0];
      HunkLines(hunks) + meaning
      == [DiffLine(Hunk, None, None, Text(HeadOf(h)))] + Numbered(h.lines, h.oldStart, h.newStart)
         + (HunkLines(hunks[1..]) + meaning)
  {
    var h, more := hunks[0], hunks[1..];
    var head := [DiffLine(Hunk, None, None, Text(HeadOf(h)))] + Numbered(h.lines, h.oldStart, h.newStart);
    assert HunkLines(hunks) == head + HunkLines(more);
    Associates(head, HunkLines(more), meaning);
    assert HunkItems(hunks) == [HeadOf(h)] + LineItems(h.lines) + HunkItems(more);
    ThreeInFront([HeadOf(h)], LineItems(h.lines), HunkItems(more), rest);
  }

  lemma ThreeInFront<T>(a: seq<T>, b: seq<T>, c: seq<T>, d: seq<T>)
    ensures a + b + c + d == a + (b + (c + d))
  {
  }

  lemma {:induction false} HunkItemsStandFor(hunks: seq<HunkPatch>, rest: seq<Item>, meaning: seq<DiffLine>, survives: bool)
    requires StandsFor(rest, meaning, survives)
    ensures StandsFor(HunkItems(hunks) + rest, HunkLines(hunks) + meaning, HunksSurvive(hunks) && survives)
  {
    if hunks == [] {
      assert HunkItems(hunks) + rest == rest && HunkLines(hunks) + meaning == meaning;
    } else {
      var h, more := hunks[0], hunks[1..];
      HunkItemsStandFor(more, rest, meaning, survives);
      var tail := HunkItems(more) + rest;
      LineItemsStandFor(h.lines, h.oldStart, h.newStart, tail, HunkLines(more) + meaning, HunksSurvive(more) && survives);
      assert HunksSurvive(hunks) <==> HunkSurvives(h) && HunksSurvive(more);
      HunkItemsUnfold(hunks, rest, meaning);
      forall o: nat, n: nat
        ensures ItemsMeaning(HunkItems(hunks) + rest, o, n) == HunkLines(hunks) + meaning
        ensures ItemsSurvive(HunkItems(hunks) + rest, o, n) == (HunksSurvive(hunks) && survives)
      {
        HunkInFront(h, LineItems(h.lines) + tail, o, n, HunkLines(more) + meaning, HunksSurvive(more) && survives);
      }
    }
  }

  /** A header means nothing, and must be passed over. */
  lemma {:induction false} HeaderStandsForNothing(header: seq<string>, rest: seq<Item>, meaning: seq<DiffLine>, survives: bool)
    requires StandsFor(rest, meaning, survives)
    ensures StandsFor(HeaderItems(header) + rest, meaning, HeaderIsSkipped(header) && survives)
  {
    if header == [] {
      assert HeaderItems(header) + rest == rest;
    } else {
      var line, more := header[0], header[1..];
      HeaderStandsForNothing(more, rest, meaning, survives);
      var tail := HeaderItems(more) + rest;
      assert HeaderItems(header) + rest == [Meta(line)] + tail;
      assert HeaderIsSkipped(header) <==> PassedOver(line) && HeaderIsSkipped(more);
      forall o: nat, n: nat
        ensures ItemsMeaning([Meta(line)] + tail, o, n) == meaning
        ensures ItemsSurvive([Meta(line)] + tail, o, n) == (HeaderIsSkipped(header) && survives)
      {
        ItemsCons(Meta(line), tail, o, n);
      }
    }
  }

  lemma {:induction false} ItemsStandFor(files: seq<FilePatch>)
    ensures StandsFor(Items(files), Meaning(files), FilesSurvive(files))
  {
    if files != [] {
      var f, more := files[0], files[1..];
      ItemsStandFor(more);
      HunkItemsStandFor(f.hunks, Items(more), Meaning(more), FilesSurvive(more));
      assert FilesSurvive(files) <==> HeaderIsSkipped(f.header) && HunksSurvive(f.hunks) && FilesSurvive(more);
      HeaderStandsForNothing(f.header, HunkItems(f.hunks) + Items(more), Meaning(files),
                             HunksSurvive(f.hunks) && FilesSurvive(more));
      Associates(HeaderItems(f.header), HunkItems(f.hunks), Items(more));
    }
  }

  // ---- the order of printed lines -----------------------------------------------------------

  /** Header lines are single lines, as git quotes names, and none opens a hunk. */
  predicate Headed(files: seq<FilePatch>) {
    forall f, line :: f in files && line in f.header ==> IsHeaderLine(line)
  }

  lemma {:induction false} LinesAreOrderly(lines: seq<Line>, rest: seq<Item>)
    requires Orderly(rest)
    ensures Orderly(LineItems(lines) + rest)
  {
    if lines == [] {
      assert LineItems(lines) + rest == rest;
    } else {
      var tail := LineItems(lines[1..]) + rest;
      LinesAreOrderly(lines[1..], rest);
      LineItemsUnfold(lines, rest);
      NoteIsSkipped();
      assert ([Note()] + tail)[1..] == tail;
      var body := if lines[0].unterminated then [Note()] + tail else tail;
      assert ([BodyOf(lines[0])] + body)[1..] == body;
    }
  }

  lemma {:induction false} HunksAreOrderly(hunks: seq<HunkPatch>, rest: seq<Item>)
    requires Orderly(rest) && HeadIsNext(rest)
    ensures Orderly(HunkItems(hunks) + rest) && HeadIsNext(HunkItems(hunks) + rest)
  {
    if hunks == [] {
      assert HunkItems(hunks) + rest == rest;
    } else {
      HunksAreOrderly(hunks[1..], rest);
      LinesAreOrderly(hunks[0].lines, HunkItems(hunks[1..]) + rest);
      HunkItemsUnfold(hunks, rest, []);
      var body := LineItems(hunks[0].lines) + (HunkItems(hunks[1..]) + rest);
      assert ([HeadOf(hunks[0])] + body)[1..] == body;
    }
  }

  lemma {:induction false} HeaderIsOrderly(header: seq<string>, rest: seq<Item>)
    requires Orderly(rest) && HeadIsNext(rest) && forall line :: line in header ==> IsHeaderLine(line)
    ensures Orderly(HeaderItems(header) + rest) && HeadIsNext(HeaderItems(header) + rest)
  {
    if header == [] {
      assert HeaderItems(header) + rest == rest;
    } else {
      var tail := HeaderItems(header[1..]) + rest;
      HeaderIsOrderly(header[1..], rest);
      Associates([Meta(header[0])], HeaderItems(header[1..]), rest);
      assert ([Meta(header[0])] + tail)[1..] == tail && header[0] in header;
    }
  }

  lemma {:induction false} FilesAreOrderly(files: seq<FilePatch>)
    requires Headed(files)
    ensures Orderly(Items(files)) && HeadIsNext(Items(files))
  {
    if files != [] {
      var f, more := files[0], files[1..];
      assert f in files;
      FilesAreOrderly(more);
      HunksAreOrderly(f.hunks, Items(more));
      HeaderIsOrderly(f.header, HunkItems(f.hunks) + Items(more));
      Associates(HeaderItems(f.header), HunkItems(f.hunks), Items(more));
    }
  }

  // ---- newlines inside a printed line ---------------------------------------------------------

  ghost predicate NoNewlines(lines: seq<DiffLine>) {
    forall d :: d in lines ==> '\n' !in d.content
  }

  lemma ChompHoldsNoNewline(line: string)
    requires '\n' !in line
    ensures '\n' !in Chomp(line)
  {
  }

  lemma {:induction false} LinesHoldNoNewline(patch: string)
    ensures forall line :: line in Lines(patch) ==> '\n' !in line
    decreases |patch|
  {
    var k := NextNewline(patch);
    if k == |patch| {
      assert patch[..k] == patch;
    } else {
      ChompHoldsNoNewline(patch[..k]);
      LinesHoldNoNewline(patch[k + 1..]);
      assert Lines(patch) == [Chomp(patch[..k])] + Lines(patch[k + 1..]);
    }
  }

  lemma {:induction false} ParsedHoldNoNewline(lines: seq<string>, o: nat, n: nat)
    requires forall line :: line in lines ==> '\n' !in line
    ensures NoNewlines(Parsed(lines, o, n))
  {
    if lines != [] {
      assert lines[0] in lines;
      var r := Read(lines[0], o, n);
      ParsedHoldNoNewline(lines[1..], r.1, r.2);
    }
  }

  /** A newline inside a printed line is in what that line means, and spoils it. */
  lemma {:induction false} NewlineIsMeant(items: seq<Item>, o: nat, n: nat)
    requires Orderly(items) && !SingleLines(items)
    ensures !NoNewlines(ItemsMeaning(items, o, n)) && !ItemsSurvive(items, o, n)
  {
    var item := items[0];
    var next := Shift(item, o, n);
    assert item in items && items == [item] + items[1..];
    if '\n' in Text(item) {
      NewlineOfItem(item, o, n);
      assert ItemMeaning(item, o, n)[0] in ItemsMeaning(items, o, n);
    } else {
      NewlineIsMeant(items[1..], next.0, next.1);
      var d :| d in ItemsMeaning(items[1..], next.0, next.1) && '\n' in d.content;
      assert d in ItemsMeaning(items, o, n);
    }
  }

  lemma NewlineOfItem(item: Item, o: nat, n: nat)
    requires (item.Meta? ==> IsHeaderLine(item.text)) && '\n' in Text(item)
    ensures |ItemMeaning(item, o, n)| == 1 && '\n' in ItemMeaning(item, o, n)[0].content && !ItemSurvives(item, o, n)
  {
    match item
    case Head(_, _, _, _, _) => HeadIsWhole(item);
    case Body(change, content) =>
      assert Mark(change) != '\n';
    case Meta(_) =>
  }

  /**
   * Printing and parsing recovers every line's kind, content and line numbers, and
   * nothing else, exactly when every header line has one of the prefixes that the
   * parser skips, no heading or content holds a newline or ends in a carriage
   * return, no added content starts with "++ " and no deleted one with "-- ", and no
   * line is on a side that starts at 0.
   */
  lemma RoundTripsExactly(files: seq<FilePatch>)
    requires Headed(files)
    ensures Parsed(Lines(Print(files)), 0, 0) == Meaning(files) <==> FilesSurvive(files)
  {
    var items := Items(files);
    FilesAreOrderly(files);
    ItemsStandFor(files);
    assert ItemsMeaning(items, 0, 0) == Meaning(files) && ItemsSurvive(items, 0, 0) == FilesSurvive(files);
    if SingleLines(items) {
      LinesOfJoined(items);
      ItemsRoundTrip(items, 0, 0);
    } else {
      LinesHoldNoNewline(Print(files));
      ParsedHoldNoNewline(Lines(Print(files)), 0, 0);
      NewlineIsMeant(items, 0, 0);
    }
  }

  // ---- line ends ------------------------------------------------------------------

  /** The lines, each ended by the given text. */
  function Ended(lines: seq<string>, end: string): string {
    if lines == [] then "" else lines[0] + end + Ended(lines[1..], end)
  }

  lemma LineThenRest(line: string, rest: string)
    requires '\n' !in line
    ensures Lines(line + "\n" + rest) == [Chomp(line)] + Lines(rest)
  {
    NewlineIsNext(line, rest);
    var all := line + "\n" + rest;
    assert all[..|line|] == line && all[|line| + 1..] == rest;
  }

  lemma ReturnThenFeed(line: string, rest: string)
    ensures line + "\r\n" + rest == (line + "\r") + "\n" + rest
    ensures Chomp(line + "\r") == line
  {
    assert line + "\r\n" == line + "\r" + "\n";
    assert (line + "\r")[..|line|] == line;
  }

  lemma EndedCons(lines: seq<string>, end: string)
    requires lines != []
    ensures Ended(lines, end) == lines[0] + end + Ended(lines[1..], end)
    ensures lines + [""] == [lines[0]] + (lines[1..] + [""])
  {
  }

  /** A patch reads the same with line feeds and with carriage returns before them. */
  lemma {:induction false} LineEndsDoNotMatter(lines: seq<string>)
    requires forall line :: line in lines ==> '\n' !in line && (line != "" ==> line[|line| - 1] != '\r')
    ensures Lines(Ended(lines, "\n")) == lines + [""] && Lines(Ended(lines, "\r\n")) == lines + [""]
  {
    if lines != [] {
      assert lines[0] in lines && forall line :: line in lines[1..] ==> line in lines;
      LineEndsDoNotMatter(lines[1..]);
      EndedCons(lines, "\n");
      LineThenRest(lines[0], Ended(lines[1..], "\n"));
      EndedCons(lines, "\r\n");
      ReturnThenFeed(lines[0], Ended(lines[1..], "\r\n"));
      LineThenRest(lines[0] + "\r", Ended(lines[1..], "\r\n"));
    }
  }

  // ---- git's headers --------------------------------------------------------------------------

  /** The extended header lines of git's diff format. */
  datatype Extended =
    | OldMode | NewMode | DeletedFileMode | NewFileMode | CopyFrom | CopyTo
    | RenameFrom | RenameTo | Similarity | Dissimilarity | Index

  function Opening(kind: Extended): string {
    match kind
    case OldMode => "old mode "
    case NewMode => "new mode "
    case DeletedFileMode => "deleted file mode "
    case NewFileMode => "new file mode "
    case CopyFrom => "copy from "
    case CopyTo => "copy to "
    case RenameFrom => "rename from "
    case RenameTo => "rename to "
    case Similarity => "similarity index "
    case Dissimilarity => "dissimilarity index "
    case Index => "index "
  }

  lemma OpeningStays(kind: Extended, text: string)
    ensures
      var line := Chomp(Opening(kind) + text);
      |line| >= 3 && line[0] == Opening(kind)[0] && line[1] == Opening(kind)[1] && line[2] == Opening(kind)[2]
  {
    PrefixIsKept(Opening(kind), text);
  }

  lemma LetterIsText(line: string, oldNumber: nat, newNumber: nat)
    requires !Skipped(line) && line != "" && line[0] != '@' && line[0] != '+' && line[0] != '-'
    ensures Read(line, oldNumber, newNumber).0
            == [DiffLine(Context, Shown(oldNumber), Shown(newNumber), if line[0] == ' ' then line[1..] else line)]
  {
  }

  lemma OnlyIndexIsSkipped(line: string)
    requires |line| >= 3 && line[0] != '\\' && line[0] != '+' && line[0] != '-'
    requires line[0] == 'd' ==> line[1] == 'e' || line[2] == 's'
    ensures Skipped(line) <==> "index " <= line
  {
    assert "diff --git"[1] == 'i' && "diff --git"[2] == 'f';
  }

  /** Of git's extended headers only the index line is passed over; every other one is shown as unchanged text. */
  lemma ExtendedHeaderExactly(kind: Extended, text: string, oldNumber: nat, newNumber: nat)
    ensures PassedOver(Opening(kind) + text) <==> kind == Index
    ensures kind != Index ==>
              Read(Chomp(Opening(kind) + text), oldNumber, newNumber).0
              == [DiffLine(Context, Shown(oldNumber), Shown(newNumber), Chomp(Opening(kind) + text))]
  {
    var line := Chomp(Opening(kind) + text);
    OpeningStays(kind, text);
    OnlyIndexIsSkipped(line);
    if kind == Index {
      PrefixIsKept("index ", text);
    } else {
      LetterIsText(line, oldNumber, newNumber);
    }
  }

  /** The header lines git prints for a file, with its extended ones. */
  function GitHeader(name: string, blobs: string, extended: seq<string>): seq<string> {
    ["diff --git" + (" a/" + name + " b/" + name)] + extended
    + ["index " + blobs, "--- " + ("a/" + name), "+++ " + ("b/" + name)]
  }

  lemma SkippedAround(first: string, middle: seq<string>, last: seq<string>)
    requires PassedOver(first) && HeaderIsSkipped(last)
    ensures HeaderIsSkipped([first] + middle + last) <==> HeaderIsSkipped(middle)
  {
    var header := [first] + middle + last;
    assert forall line :: line in header <==> line == first || line in middle || line in last;
  }

  lemma FileLinesAreSkipped(name: string, blobs: string)
    ensures PassedOver("diff --git" + (" a/" + name + " b/" + name))
    ensures HeaderIsSkipped(["index " + blobs, "--- " + ("a/" + name), "+++ " + ("b/" + name)])
  {
    PrefixIsKept("diff --git", " a/" + name + " b/" + name);
    PrefixIsKept("index ", blobs);
    PrefixIsKept("--- ", "a/" + name);
    PrefixIsKept("+++ ", "b/" + name);
  }

  /** So a file of git's survives exactly when its extended headers are all passed over, apart from its hunks. */
  lemma GitHeaderExactly(name: string, blobs: string, extended: seq<string>)
    ensures HeaderIsSkipped(GitHeader(name, blobs, extended)) <==> HeaderIsSkipped(extended)
  {
    FileLinesAreSkipped(name, blobs);
    SkippedAround("diff --git" + (" a/" + name + " b/" + name), extended,
                  ["index " + blobs, "--- " + ("a/" + name), "+++ " + ("b/" + name)]);
  }
}
