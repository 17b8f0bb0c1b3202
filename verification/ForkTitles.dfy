/**
 * Naming copied and branched chats (apps/desktop/src/forkTitle.ts:14-67): a fork's
 * title is the base of its source with a numbered marker, which is read back to
 * number the next fork and cut to the length a title may have.
 */
module ForkTitles {
  import opened Common
  import opened Decimals
  import opened Whitespace

  datatype ForkKind = Copy | Branch

  datatype ForkTitle = ForkTitle(base: string, kind: ForkKind, index: nat)

  const TITLE_MAX_CHARS := 240

  /** `Number.MAX_SAFE_INTEGER`. */
  const MAX_SAFE_INTEGER := 9007199254740991

  // ---- parsing -------------------------------------------------------------------------

  function Word(kind: ForkKind): string {
    if kind == Copy then "Copy" else "Branch"
  }

  /** The kind that ends `s`, with what stands before it. */
  function EndingKind(s: string): Option<(string, ForkKind)> {
    if |s| >= 4 && s[|s| - 4..] == "Copy" then Some((s[..|s| - 4], Copy))
    else if |s| >= 6 && s[|s| - 6..] == "Branch" then Some((s[..|s| - 6], Branch))
    else None
  }

  predicate IsBase(s: string) {
    s != "" && !IsSpace(s[|s| - 1]) && All(s, InLine)
  }

  /** `\s+(\d+)$`: what stands before the gap, and the digits. */
  function SplitNumber(title: string): Option<(string, string)> {
    var beforeDigits := DropTrailing(title, Digit);
    var beforeGap := DropTrailing(beforeDigits, Space);
    if |beforeDigits| == |title| || |beforeGap| == |beforeDigits| then None
    else Some((beforeGap, title[|beforeDigits|..]))
  }

  /** `^(.*\S)\s*:\s*$`: the base before a colon. */
  function SplitBase(s: string): Option<string> {
    var toColon := DropTrailing(s, Space);
    if toColon == "" || toColon[|toColon| - 1] != ':' then None
    else
      var base := DropTrailing(toColon[..|toColon| - 1], Space);
      if IsBase(base) then Some(base) else None
  }

  /** `FORK_TITLE.exec`, read from the end: /^(.*\S)\s*:\s*(Copy|Branch)\s+(\d+)$/. */
  function Split(title: string): Option<(string, ForkKind, string)> {
    match SplitNumber(title)
    case None => None
    case Some((marked, digits)) =>
      match EndingKind(marked)
      case None => None
      case Some((beforeKind, kind)) =>
        match SplitBase(beforeKind)
        case None => None
        case Some(base) => Some((base, kind, digits))
  }

  function ParseForkTitle(title: string): Option<ForkTitle> {
    match Split(Trim(title))
    case None => None
    case Some((base, kind, digits)) =>
      if !AllDigits(digits) then None
      else
        var index := Value(digits);
        if index > MAX_SAFE_INTEGER || index < 1 then None else Some(ForkTitle(base, kind, index))
  }

  function ForkTitleBase(title: string): string {
    match ParseForkTitle(title)
    case Some(parsed) => parsed.base
    case None => Trim(title)
  }

  /** The parts of a title that the regular expression names, and the spaces between them. */
  predicate IsSplit(title: string, base: string, kind: ForkKind, digits: string, spaces: (string, string, string)) {
    && IsBase(base) && digits != "" && AllDigits(digits)
    && All(spaces.0, Space) && All(spaces.1, Space) && All(spaces.2, Space) && spaces.2 != ""
    && title == base + spaces.0 + ":" + spaces.1 + Word(kind) + spaces.2 + digits
  }

  lemma DigitsAreNotSpaces()
    ensures forall c :: IsDigit(c) ==> !IsSpace(c)
  {
  }

  lemma WordEnds(before: string, kind: ForkKind)
    ensures EndingKind(before + Word(kind)) == Some((before, kind))
  {
    var s := before + Word(kind);
    assert s[|before|..] == Word(kind) && s[..|before|] == before;
    assert kind == Branch ==> s[|s| - 4..] == "anch";
  }

  lemma EndingKindSplits(s: string)
    requires EndingKind(s).Some?
    ensures s == EndingKind(s).value.0 + Word(EndingKind(s).value.1)
  {
  }

  lemma NumberIsSplit(marked: string, gap: string, digits: string)
    requires marked != "" && !IsSpace(marked[|marked| - 1])
    requires All(gap, Space) && gap != "" && AllDigits(digits) && digits != ""
    ensures SplitNumber(marked + gap + digits) == Some((marked, digits))
  {
    var before := marked + gap;
    assert before[|before| - 1] == gap[|gap| - 1];
    assert IsSpace(before[|before| - 1]);
    TrailingExactly(before, digits, Digit);
    TrailingExactly(marked, gap, Space);
    assert (before + digits)[|before|..] == digits;
  }

  lemma NumberWasSplit(title: string) returns (gap: string)
    requires SplitNumber(title).Some?
    ensures
      var (marked, digits) := SplitNumber(title).value;
      title == marked + gap + digits && All(gap, Space) && gap != "" && AllDigits(digits) && digits != ""
  {
    var before := DropTrailing(title, Digit);
    DroppedAndTrailing(title, Digit);
    DroppedAndTrailing(before, Space);
    gap := before[|DropTrailing(before, Space)|..];
  }

  lemma BaseIsSplit(base: string, gap: string, afterColon: string)
    requires (base != "" ==> !IsSpace(base[|base| - 1])) && All(gap, Space) && All(afterColon, Space)
    ensures SplitBase(base + gap + ":" + afterColon) == if IsBase(base) then Some(base) else None
  {
    var toColon := base + gap + ":";
    TrailingExactly(toColon, afterColon, Space);
    assert toColon[..|toColon| - 1] == base + gap;
    TrailingExactly(base, gap, Space);
  }

  lemma BaseWasSplit(s: string) returns (gap: string, afterColon: string)
    requires SplitBase(s).Some?
    ensures IsBase(SplitBase(s).value) && All(gap, Space) && All(afterColon, Space)
    ensures s == SplitBase(s).value + gap + ":" + afterColon
  {
    var toColon := DropTrailing(s, Space);
    DroppedAndTrailing(s, Space);
    var before := toColon[..|toColon| - 1];
    DroppedAndTrailing(before, Space);
    assert toColon == before + ":";
    gap, afterColon := before[|DropTrailing(before, Space)|..], s[|toColon|..];
  }

  lemma WordIsMarked(before: string, kind: ForkKind)
    ensures var marked := before + Word(kind); marked != "" && !IsSpace(marked[|marked| - 1])
  {
    var marked := before + Word(kind);
    assert marked[|marked| - 1] == if kind == Copy then 'y' else 'h';
  }

  /** A title of the expression's shape is split into just those parts. */
  lemma SplitFinds(title: string, base: string, kind: ForkKind, digits: string, spaces: (string, string, string))
    requires IsSplit(title, base, kind, digits, spaces)
    ensures Split(title) == Some((base, kind, digits))
  {
    var beforeKind := base + spaces.0 + ":" + spaces.1;
    WordIsMarked(beforeKind, kind);
    NumberIsSplit(beforeKind + Word(kind), spaces.2, digits);
    WordEnds(beforeKind, kind);
    BaseIsSplit(base, spaces.0, spaces.1);
  }

  /** And what is split off has that shape. */
  lemma SplitIsFound(title: string) returns (spaces: (string, string, string))
    requires Split(title).Some?
    ensures IsSplit(title, Split(title).value.0, Split(title).value.1, Split(title).value.2, spaces)
  {
    var gap := NumberWasSplit(title);
    var marked := SplitNumber(title).value.0;
    EndingKindSplits(marked);
    var beforeColon, afterColon := BaseWasSplit(EndingKind(marked).value.0);
    spaces := (beforeColon, afterColon, gap);
  }

  /** Parsing finds a fork title exactly when the trimmed title has the expression's shape and a safe positive number. */
  lemma ParseExactly(title: string, parsed: ForkTitle)
    ensures ParseForkTitle(title) == Some(parsed) <==>
            1 <= parsed.index <= MAX_SAFE_INTEGER
            && exists digits, spaces ::
                 IsSplit(Trim(title), parsed.base, parsed.kind, digits, spaces) && Value(digits) == parsed.index
  {
    var trimmed := Trim(title);
    if ParseForkTitle(title) == Some(parsed) {
      var spaces := SplitIsFound(trimmed);
      assert IsSplit(trimmed, parsed.base, parsed.kind, Split(trimmed).value.2, spaces);
    }
    if exists digits, spaces :: IsSplit(trimmed, parsed.base, parsed.kind, digits, spaces) && Value(digits) == parsed.index {
      var digits, spaces :| IsSplit(trimmed, parsed.base, parsed.kind, digits, spaces) && Value(digits) == parsed.index;
      SplitFinds(trimmed, parsed.base, parsed.kind, digits, spaces);
    }
  }

  // ---- the next title ----------------------------------------------------------------------

  function Max(a: nat, b: nat): nat {
    if a < b then b else a
  }

  /** Whether a parsed title is a fork of `base`. */
  predicate IsForkOf(parsed: Option<ForkTitle>, base: string, kind: ForkKind) {
    parsed.Some? && parsed.value.kind == kind && parsed.value.base == base
  }

  predicate Numbers(title: string, base: string, kind: ForkKind) {
    IsForkOf(ParseForkTitle(title), base, kind)
  }

  function Counted(highest: nat, parsed: Option<ForkTitle>, base: string, kind: ForkKind): nat {
    if IsForkOf(parsed, base, kind) then Max(highest, parsed.value.index) else highest
  }

  /** The highest index of the existing forks of `base`. */
  function Highest(existing: seq<string>, base: string, kind: ForkKind): nat {
    if existing == [] then 0
    else Counted(Highest(existing[..|existing| - 1], base, kind), ParseForkTitle(existing[|existing| - 1]), base, kind)
  }

  lemma HighestStep(existing: seq<string>, i: nat, base: string, kind: ForkKind)
    requires i < |existing|
    ensures Highest(existing[..i + 1], base, kind)
            == Counted(Highest(existing[..i], base, kind), ParseForkTitle(existing[i]), base, kind)
  {
    assert existing[..i + 1][..i] == existing[..i];
  }

  function Suffix(kind: ForkKind, index: nat): string {
    ": " + Word(kind) + " " + Decimal(index)
  }

  /** `base.slice(0, Math.max(1, room))`. */
  function Slice(base: string, room: int): string {
    var end := if room < 1 then 1 else room;
    if |base| <= end then base else base[..end]
  }

  function ClampToTitleLimit(base: string, suffix: string): string {
    if |base + suffix| <= TITLE_MAX_CHARS then base + suffix
    else TrimEnd(Slice(base, TITLE_MAX_CHARS - |suffix|)) + suffix
  }

  function Next(source: string, kind: ForkKind, existing: seq<string>): string {
    var base := ForkTitleBase(source);
    ClampToTitleLimit(base, Suffix(kind, Highest(existing, base, kind) + 1))
  }

  method NextForkTitle(source: string, kind: ForkKind, existing: seq<string>) returns (title: string)
    ensures title == Next(source, kind, existing)
  {
    var base := ForkTitleBase(source);
    var highest: nat := 0;
    var i := 0;
    while i < |existing|
      invariant 0 <= i <= |existing|
      invariant highest == Highest(existing[..i], base, kind)
    {
      HighestStep(existing, i, base, kind);
      var parsed := ParseForkTitle(existing[i]);
      if parsed.Some? && parsed.value.kind == kind && parsed.value.base == base {
        highest := Max(highest, parsed.value.index);
      }
      i := i + 1;
    }
    assert existing[..i] == existing;
    title := ClampToTitleLimit(base, Suffix(kind, highest + 1));
  }

  lemma {:induction false} HighestCovers(existing: seq<string>, base: string, kind: ForkKind, title: string)
    requires title in existing && Numbers(title, base, kind)
    ensures ParseForkTitle(title).value.index <= Highest(existing, base, kind)
  {
    if title != existing[|existing| - 1] {
      HighestCovers(existing[..|existing| - 1], base, kind, title);
    }
  }

  // ---- fresh and flat -----------------------------------------------------------------------

  /** The next title of `base` fits the limit, its base is one line, and its number is still a safe integer. */
  predicate Names(base: string, kind: ForkKind, index: nat) {
    && base != "" && All(base, InLine)
    && |base + Suffix(kind, index)| <= TITLE_MAX_CHARS && 1 <= index <= MAX_SAFE_INTEGER
  }

  /** The title is this very fork of the base. */
  ghost predicate Forks(title: string, base: string, kind: ForkKind, index: nat) {
    ParseForkTitle(title) == Some(ForkTitle(base, kind, index))
  }

  /** The highest number of a fork of the same base and the same kind, and 0 if there is none: other kinds do not count. */
  lemma {:induction false} HighestExactly(existing: seq<string>, base: string, kind: ForkKind)
    ensures forall title, index: nat :: title in existing && Forks(title, base, kind, index) ==> index <= Highest(existing, base, kind)
    ensures Highest(existing, base, kind) > 0 ==> exists title :: title in existing && Forks(title, base, kind, Highest(existing, base, kind))
  {
    if existing != [] {
      var before, last := existing[..|existing| - 1], existing[|existing| - 1];
      HighestExactly(before, base, kind);
      assert existing == before + [last];
      var h := Highest(before, base, kind);
      if Highest(existing, base, kind) > h {
        assert last in existing && Forks(last, base, kind, Highest(existing, base, kind));
      } else if h > 0 {
        var title :| title in before && Forks(title, base, kind, h);
        assert title in existing;
      }
    }
  }

  lemma {:induction false} HighestIsSafe(existing: seq<string>, base: string, kind: ForkKind)
    ensures Highest(existing, base, kind) <= MAX_SAFE_INTEGER
  {
    if existing != [] {
      HighestIsSafe(existing[..|existing| - 1], base, kind);
    }
  }

  lemma BaseIsTrimmed(source: string)
    ensures Trimmed(ForkTitleBase(source))
  {
    TrimTrims(source);
    if ParseForkTitle(source).Some? {
      var spaces := SplitIsFound(Trim(source));
      assert ForkTitleBase(source)[0] == Trim(source)[0];
    }
  }

  lemma MarkedIsTrimmed(base: string, kind: ForkKind, index: nat)
    requires Trimmed(base)
    ensures Trim(base + Suffix(kind, index)) == base + Suffix(kind, index)
  {
    var title := base + Suffix(kind, index);
    DecimalIsRead(index);
    DigitsAreNotSpaces();
    assert title[0] == if base == "" then ':' else base[0];
    assert title[|title| - 1] == Decimal(index)[|Decimal(index)| - 1];
    TrimTrims(title);
  }

  lemma MarkedParts(base: string, kind: ForkKind, index: nat)
    ensures base + Suffix(kind, index) == (base + "" + ":" + " " + Word(kind)) + " " + Decimal(index)
  {
    assert base + "" == base;
    Shuffle(base, ":", " ", Word(kind), Decimal(index));
  }

  lemma Shuffle(base: string, colon: string, space: string, word: string, digits: string)
    ensures base + (colon + space + word + space + digits) == base + colon + space + word + space + digits
  {
  }

  lemma SplitMarked(before: string, kind: ForkKind, digits: string)
    requires AllDigits(digits) && digits != ""
    ensures
      Split(before + Word(kind) + " " + digits)
      == if SplitBase(before).Some? then Some((SplitBase(before).value, kind, digits)) else None
  {
    WordIsMarked(before, kind);
    NumberIsSplit(before + Word(kind), " ", digits);
    WordEnds(before, kind);
  }

  lemma MarkedIsSplit(base: string, kind: ForkKind, index: nat)
    requires Trimmed(base)
    ensures Split(base + Suffix(kind, index)) == if IsBase(base) then Some((base, kind, Decimal(index))) else None
  {
    MarkedParts(base, kind, index);
    DecimalIsRead(index);
    SplitMarked(base + "" + ":" + " ", kind, Decimal(index));
    BaseIsSplit(base, "", " ");
  }

  /** A marked base is parsed back when it is one line and the number is safe; otherwise it is no fork title. */
  lemma MarkedIsParsed(base: string, kind: ForkKind, index: nat)
    requires Trimmed(base)
    ensures ParseForkTitle(base + Suffix(kind, index))
            == if IsBase(base) && 1 <= index <= MAX_SAFE_INTEGER then Some(ForkTitle(base, kind, index)) else None
  {
    MarkedIsTrimmed(base, kind, index);
    MarkedIsSplit(base, kind, index);
    DecimalIsRead(index);
  }

  // ---- lengths -----------------------------------------------------------------------------------

  function Power10(k: nat): nat {
    if k == 0 then 1 else 10 * Power10(k - 1)
  }

  lemma {:induction false} DecimalLength(n: nat, k: nat)
    requires k > 0 && n < Power10(k)
    ensures |Decimal(n)| <= k
  {
    assert Power10(1) == 10;
    if n >= 10 {
      DecimalLength(n / 10, k - 1);
    }
  }

  lemma SuffixIsShort(kind: ForkKind, index: nat)
    requires index <= MAX_SAFE_INTEGER + 1
    ensures |Suffix(kind, index)| <= 25
  {
    assert Power10(16) == 10000000000000000 by {
      assert Power10(4) == 10000;
      assert Power10(8) == 100000000;
      assert Power10(12) == 1000000000000;
    }
    DecimalLength(index, 16);
  }

  /** Clamping keeps a trimmed base trimmed, and shortens it when the title does not fit. */
  lemma ClampedIsShorter(base: string, suffix: string)
    requires Trimmed(base) && |suffix| <= 25 && |base + suffix| > TITLE_MAX_CHARS
    ensures var short := TrimEnd(Slice(base, TITLE_MAX_CHARS - |suffix|)); Trimmed(short) && |short| < |base|
  {
    var slice := Slice(base, TITLE_MAX_CHARS - |suffix|);
    DroppedAndTrailing(slice, Space);
  }

  // ---- the main results -----------------------------------------------------------------------------

  function NextIndex(source: string, kind: ForkKind, existing: seq<string>): nat {
    Highest(existing, ForkTitleBase(source), kind) + 1
  }

  /** Clamping keeps the suffix: after the whole base when that fits, else after a shorter one. */
  lemma ClampKeeps(base: string, suffix: string) returns (kept: string)
    requires Trimmed(base) && |suffix| <= 25
    ensures ClampToTitleLimit(base, suffix) == kept + suffix && Trimmed(kept)
    ensures |base + suffix| <= TITLE_MAX_CHARS ==> kept == base
    ensures |base + suffix| > TITLE_MAX_CHARS ==> |kept| < |base|
    ensures kept <= base && |kept + suffix| <= TITLE_MAX_CHARS
  {
    kept := base;
    if |base + suffix| > TITLE_MAX_CHARS {
      ClampedIsShorter(base, suffix);
      kept := TrimEnd(Slice(base, TITLE_MAX_CHARS - |suffix|));
    }
  }

  lemma NextIsMarked(source: string, kind: ForkKind, existing: seq<string>, index: nat) returns (kept: string)
    requires index == NextIndex(source, kind, existing)
    ensures Next(source, kind, existing) == kept + Suffix(kind, index) && Trimmed(kept)
    ensures
      var base := ForkTitleBase(source);
      && (|base + Suffix(kind, index)| <= TITLE_MAX_CHARS ==> kept == base)
      && (|base + Suffix(kind, index)| > TITLE_MAX_CHARS ==> |kept| < |base|)
      && kept <= base && |kept + Suffix(kind, index)| <= TITLE_MAX_CHARS
  {
    var base := ForkTitleBase(source);
    BaseIsTrimmed(source);
    HighestIsSafe(existing, base, kind);
    SuffixIsShort(kind, index);
    kept := ClampKeeps(base, Suffix(kind, index));
  }

  /** All of the base if the marker fits behind it, else what fits without the blanks that would end in. */
  ghost predicate KeepsWhatFits(base: string, suffix: string, title: string) {
    && |suffix| < TITLE_MAX_CHARS
    && if |base| + |suffix| <= TITLE_MAX_CHARS then title == base + suffix
       else exists kept :: title == kept + suffix && KeepsAllBut(kept, base[..TITLE_MAX_CHARS - |suffix|])
  }

  lemma ClampKeepsWhatFits(base: string, suffix: string)
    requires |suffix| < TITLE_MAX_CHARS
    ensures KeepsWhatFits(base, suffix, ClampToTitleLimit(base, suffix))
  {
    if |base| + |suffix| > TITLE_MAX_CHARS {
      TrimEndKeeps(base[..TITLE_MAX_CHARS - |suffix|]);
      ClampCuts(base, suffix);
    }
  }

  /** The marker is never cut, and of the base no more than is needed. */
  lemma NextKeepsWhatFits(source: string, kind: ForkKind, existing: seq<string>)
    ensures KeepsWhatFits(ForkTitleBase(source), Suffix(kind, NextIndex(source, kind, existing)), Next(source, kind, existing))
  {
    var base, suffix := ForkTitleBase(source), Suffix(kind, NextIndex(source, kind, existing));
    HighestIsSafe(existing, base, kind);
    SuffixIsShort(kind, NextIndex(source, kind, existing));
    ClampKeepsWhatFits(base, suffix);
  }

  lemma ClampCuts(base: string, suffix: string)
    requires |suffix| < TITLE_MAX_CHARS < |base| + |suffix|
    ensures ClampToTitleLimit(base, suffix) == TrimEnd(base[..TITLE_MAX_CHARS - |suffix|]) + suffix
  {
  }

  lemma TrimEndKeeps(text: string)
    ensures KeepsAllBut(TrimEnd(text), text)
  {
    DroppedAndTrailing(text, Space);
    var k := |text| - Trailing(text, Space);
    forall i | k <= i < |text|
      ensures IsSpace(text[i])
    {
      assert text[k..][i - k] == text[i];
    }
  }

  /** The text without the blanks it ends in. */
  ghost predicate KeepsAllBut(kept: string, text: string) {
    && kept <= text && (kept != "" ==> !IsSpace(kept[|kept| - 1]))
    && forall i :: |kept| <= i < |text| ==> IsSpace(text[i])
  }

  /** Every next title is within the limit: a beginning of the base with the whole marker after it. */
  lemma NextFits(source: string, kind: ForkKind, existing: seq<string>)
    ensures |Next(source, kind, existing)| <= TITLE_MAX_CHARS
    ensures exists kept :: kept <= ForkTitleBase(source)
                           && Next(source, kind, existing) == kept + Suffix(kind, NextIndex(source, kind, existing))
  {
    var kept := NextIsMarked(source, kind, existing, NextIndex(source, kind, existing));
  }

  /**
   * The next title is read back as a fork of the same base, one above every
   * existing one, exactly when that title fits the limit, its base is a nonempty
   * single line and its number is still a safe integer.
   */
  lemma NextParsesExactly(source: string, kind: ForkKind, existing: seq<string>)
    ensures
      var base, index := ForkTitleBase(source), NextIndex(source, kind, existing);
      ParseForkTitle(Next(source, kind, existing)) == Some(ForkTitle(base, kind, index)) <==> Names(base, kind, index)
  {
    var index := NextIndex(source, kind, existing);
    var kept := NextIsMarked(source, kind, existing, index);
    MarkedIsParsed(kept, kind, index);
  }

  /** Such a title is new, numbered above every existing fork, and stays one level deep. */
  lemma NextIsFreshAndFlat(source: string, kind: ForkKind, existing: seq<string>)
    requires Names(ForkTitleBase(source), kind, NextIndex(source, kind, existing))
    ensures Next(source, kind, existing) !in existing
    ensures ForkTitleBase(Next(source, kind, existing)) == ForkTitleBase(source)
    ensures forall title :: title in existing && Numbers(title, ForkTitleBase(source), kind) ==>
              ParseForkTitle(title).value.index < NextIndex(source, kind, existing)
  {
    var base := ForkTitleBase(source);
    NextParsesExactly(source, kind, existing);
    forall title | title in existing && Numbers(title, base, kind)
      ensures ParseForkTitle(title).value.index < NextIndex(source, kind, existing)
    {
      HighestCovers(existing, base, kind, title);
    }
    assert Next(source, kind, existing) in existing ==> Numbers(Next(source, kind, existing), base, kind);
  }

  /** One fork in a run: of the title at `from`, while `others` also exist. */
  datatype Fork = Fork(from: nat, kind: ForkKind, others: seq<string>)

  /** The source and the titles forked from it, directly or from forks of it. */
  function Titles(source: string, forks: seq<Fork>): (titles: seq<string>)
    ensures |titles| == |forks| + 1
  {
    if forks == [] then [source]
    else
      var before, f := Titles(source, forks[..|forks| - 1]), forks[|forks| - 1];
      before + [Next(before[f.from % |before|], f.kind, f.others + before)]
  }

  /** Every fork of the run can be named within the limit. */
  predicate AllNamed(source: string, forks: seq<Fork>) {
    forks == []
    || var before, f := Titles(source, forks[..|forks| - 1]), forks[|forks| - 1];
       var from := before[f.from % |before|];
       AllNamed(source, forks[..|forks| - 1])
       && Names(ForkTitleBase(from), f.kind, NextIndex(from, f.kind, f.others + before))
  }

  predicate Distinct(titles: seq<string>) {
    forall i, j :: 0 <= i < j < |titles| ==> titles[i] != titles[j]
  }

  ghost predicate Flat(titles: seq<string>, base: string) {
    forall i :: 0 <= i < |titles| ==> HasBase(titles[i], base)
  }

  predicate HasBase(title: string, base: string) {
    ForkTitleBase(title) == base
  }

  lemma Extended(titles: seq<string>, next: string, base: string)
    requires Distinct(titles) && Flat(titles, base) && next !in titles && HasBase(next, base)
    ensures Distinct(titles + [next]) && Flat(titles + [next], base)
  {
    var all := titles + [next];
    forall i | 0 <= i < |all|
      ensures HasBase(all[i], base)
    {
      assert i < |titles| ==> all[i] == titles[i] && HasBase(titles[i], base);
    }
  }

  /** However often forks are forked, no two titles collide and every title keeps the source's base. */
  lemma {:induction false} ForksNeverCollideOrNest(source: string, forks: seq<Fork>)
    requires AllNamed(source, forks)
    ensures Distinct(Titles(source, forks)) && Flat(Titles(source, forks), ForkTitleBase(source))
  {
    if forks != [] {
      var f := forks[|forks| - 1];
      var before := Titles(source, forks[..|forks| - 1]);
      ForksNeverCollideOrNest(source, forks[..|forks| - 1]);
      ForkExtends(before, before[f.from % |before|], f.kind, f.others, ForkTitleBase(source));
    }
  }

  lemma ForkExtends(before: seq<string>, from: string, kind: ForkKind, others: seq<string>, base: string)
    requires Distinct(before) && Flat(before, base) && from in before
    requires Names(ForkTitleBase(from), kind, NextIndex(from, kind, others + before))
    ensures var all := before + [Next(from, kind, others + before)]; Distinct(all) && Flat(all, base)
  {
    assert HasBase(from, base);
    NextIsFreshAndFlat(from, kind, others + before);
    Extended(before, Next(from, kind, others + before), base);
  }

  /** The next title counts as a fork of its base exactly when it can be named. */
  lemma NextIsCountedExactly(source: string, kind: ForkKind, existing: seq<string>)
    ensures
      var base, index := ForkTitleBase(source), NextIndex(source, kind, existing);
      && (Numbers(Next(source, kind, existing), base, kind) <==> Names(base, kind, index))
      && (Names(base, kind, index) ==> ParseForkTitle(Next(source, kind, existing)).value.index == index)
  {
    var index := NextIndex(source, kind, existing);
    var kept := NextIsMarked(source, kind, existing, index);
    MarkedIsParsed(kept, kind, index);
  }

  lemma HighestAfter(existing: seq<string>, title: string, base: string, kind: ForkKind)
    ensures Highest(existing + [title], base, kind) == Counted(Highest(existing, base, kind), ParseForkTitle(title), base, kind)
  {
    HighestStep(existing + [title], |existing|, base, kind);
    assert (existing + [title])[..|existing|] == existing && (existing + [title])[..|existing| + 1] == existing + [title];
  }

  lemma NextFollowsHighest(source: string, kind: ForkKind, a: seq<string>, b: seq<string>)
    requires Highest(a, ForkTitleBase(source), kind) == Highest(b, ForkTitleBase(source), kind)
    ensures Next(source, kind, a) == Next(source, kind, b)
  {
  }

  /** Two next titles of one source with different numbers differ when one of them is read back. */
  lemma OtherNumberDiffers(source: string, kind: ForkKind, a: seq<string>, b: seq<string>)
    requires Names(ForkTitleBase(source), kind, NextIndex(source, kind, a))
    requires NextIndex(source, kind, a) != NextIndex(source, kind, b)
    ensures Next(source, kind, a) != Next(source, kind, b)
  {
    NextIsCountedExactly(source, kind, a);
    var kept := NextIsMarked(source, kind, b, NextIndex(source, kind, b));
    MarkedIsParsed(kept, kind, NextIndex(source, kind, b));
  }

  /**
   * Forking again after the next title came into existence gives that very title
   * exactly when it cannot be named: its marker does not fit, its base is empty or
   * not one line, or its number is no safe integer.
   */
  lemma NextRepeatsExactly(source: string, kind: ForkKind, existing: seq<string>)
    ensures
      var next := Next(source, kind, existing);
      Next(source, kind, existing + [next]) == next <==>
      !Names(ForkTitleBase(source), kind, NextIndex(source, kind, existing))
  {
    var base := ForkTitleBase(source);
    var next := Next(source, kind, existing);
    NextIsCountedExactly(source, kind, existing);
    HighestAfter(existing, next, base, kind);
    if Names(base, kind, NextIndex(source, kind, existing)) {
      OtherNumberDiffers(source, kind, existing, existing + [next]);
    } else {
      NextFollowsHighest(source, kind, existing, existing + [next]);
    }
  }

  /** A base that leaves no room for its marker is cut, so its forks repeat one title. */
  lemma ClampedTitlesRepeat(source: string, kind: ForkKind, existing: seq<string>)
    requires |ForkTitleBase(source) + Suffix(kind, NextIndex(source, kind, existing))| > TITLE_MAX_CHARS
    ensures var next := Next(source, kind, existing); Next(source, kind, existing + [next]) == next
  {
    NextRepeatsExactly(source, kind, existing);
  }

  /** Past the largest safe integer the next title is not read back as a fork, so asking again repeats it. */
  lemma UnsafeNumbersRepeat(source: string, kind: ForkKind, existing: seq<string>)
    requires Highest(existing, ForkTitleBase(source), kind) == MAX_SAFE_INTEGER
    ensures
      var next := Next(source, kind, existing);
      ParseForkTitle(next).None? && Next(source, kind, existing + [next]) == next
  {
    var kept := NextIsMarked(source, kind, existing, MAX_SAFE_INTEGER + 1);
    MarkedIsParsed(kept, kind, MAX_SAFE_INTEGER + 1);
    NextRepeatsExactly(source, kind, existing);
  }
}
