/**
 * The room-specification parser of `scripts/extract_room_data.py`
 * (`parse_room_spec`). Every regular expression the script applies is modelled
 * by a scanner that returns exactly what Python's backtracking matcher returns:
 * the leftmost match, with greedy and lazy quantifiers resolved as the `re`
 * module resolves them. The comment on each scanner says why the backtracking
 * collapses to the simple scan written here.
 *
 * `\s` and `str.strip()` use Python's `str.isspace` set (`Text.IsSpace`); `.`
 * matches anything except `'\n'` unless the pattern is compiled with DOTALL.
 */
module Extractor {
  import opened Text
  import opened Json

  // ---------------------------------------------------------------------
  // Scanning helpers
  // ---------------------------------------------------------------------

  /** Index of the `'\n'` that ends the line containing `i`, or `|s|`. */
  function LineEnd(s: string, i: nat): (k: nat)
    requires i <= |s|
    ensures i <= k <= |s|
    ensures forall j :: i <= j < k ==> s[j] != '\n'
    ensures k < |s| ==> s[k] == '\n'
    decreases |s| - i
  {
    if i == |s| || s[i] == '\n' then i else LineEnd(s, i + 1)
  }

  lemma {:induction false} LineEndTo(s: string, i: nat, k: nat)
    requires i <= k <= |s| && (forall j :: i <= j < k ==> s[j] != '\n') && (k == |s| || s[k] == '\n')
    ensures LineEnd(s, i) == k
    decreases k - i
  {
    if i < k { LineEndTo(s, i + 1, k); }
  }

  /** End of the run of ASCII digits starting at `i` (`\d*`, greedy). */
  function DigitsEnd(s: string, i: nat): (k: nat)
    requires i <= |s|
    ensures i <= k <= |s|
    ensures forall j :: i <= j < k ==> IsDigit(s[j])
    ensures k < |s| ==> !IsDigit(s[k])
    decreases |s| - i
  {
    if i == |s| || !IsDigit(s[i]) then i else DigitsEnd(s, i + 1)
  }

  lemma {:induction false} DigitsEndTo(s: string, i: nat, k: nat)
    requires i <= k <= |s| && (forall j :: i <= j < k ==> IsDigit(s[j])) && (k == |s| || !IsDigit(s[k]))
    ensures DigitsEnd(s, i) == k
    decreases k - i
  {
    if i < k { DigitsEndTo(s, i + 1, k); }
  }

  /** The character class `[:\s]`. */
  predicate IsColonOrSpace(c: char) {
    c == ':' || IsSpace(c)
  }

  /** End of the run of `[:\s]` starting at `i`. */
  function ColonSpaceEnd(s: string, i: nat): (k: nat)
    requires i <= |s|
    ensures i <= k <= |s|
    ensures forall j :: i <= j < k ==> IsColonOrSpace(s[j])
    ensures k < |s| ==> !IsColonOrSpace(s[k])
    decreases |s| - i
  {
    if i == |s| || !IsColonOrSpace(s[i]) then i else ColonSpaceEnd(s, i + 1)
  }

  lemma {:induction false} ColonSpaceEndTo(s: string, i: nat, k: nat)
    requires i <= k <= |s| && (forall j :: i <= j < k ==> IsColonOrSpace(s[j])) && (k == |s| || !IsColonOrSpace(s[k]))
    ensures ColonSpaceEnd(s, i) == k
    decreases k - i
  {
    if i < k { ColonSpaceEndTo(s, i + 1, k); }
  }

  /** Largest `p` in `[lo, hi)` whose character is not a newline. */
  function LastNonNewline(s: string, lo: nat, hi: nat): (r: Option<nat>)
    requires lo <= hi <= |s|
    ensures r.Some? ==> lo <= r.value < hi && s[r.value] != '\n'
    ensures r.Some? ==> forall j :: r.value < j < hi ==> s[j] == '\n'
    ensures r.None? ==> forall j :: lo <= j < hi ==> s[j] == '\n'
    decreases hi - lo
  {
    if hi == lo then None
    else if s[hi - 1] != '\n' then Some(hi - 1)
    else LastNonNewline(s, lo, hi - 1)
  }

  /**
   * Where the group of `X*(.+)` starts when matched at `i`, with `X` the class
   * `\s` (or `[:\s]` when `colon` holds). `X*` first takes its whole run; when
   * the run stops before the end of the text the next character is neither
   * whitespace nor a newline, so the group starts there. When the run reaches
   * the end, `X*` gives characters back one by one until the group can start
   * on a character that is not a newline. The match fails only when nothing
   * but newlines follows `i`.
   */
  function RestStart(s: string, i: nat, colon: bool): (r: Option<nat>)
    requires i <= |s|
    ensures r.None? <==> forall j :: i <= j < |s| ==> s[j] == '\n'
    ensures r.Some? ==> i <= r.value < |s| && s[r.value] != '\n'
    ensures r.Some? && !colon ==> forall j :: i <= j < r.value ==> IsSpace(s[j])
    ensures r.Some? && r.value < SkipSpaces(s, i) ==> SkipSpaces(s, i) == |s|
  {
    var w := if colon then ColonSpaceEnd(s, i) else SkipSpaces(s, i);
    if w < |s| then Some(w) else LastNonNewline(s, i, |s|)
  }

  // ---------------------------------------------------------------------
  // `\*\*Label:\*\*\s*(.+)` (archetype, input and output logic, liturgy
  // entry and exit, trap leak and result)
  // ---------------------------------------------------------------------

  predicate LineFieldAt(s: string, tag: string, i: int) {
    IsAt(s, tag, i) && RestStart(s, i + |tag|, false).Some?
  }

  /** Position of the leftmost match of `tag\s*(.+)` at or after `from`. */
  function FirstLineField(s: string, tag: string, from: nat): (r: Option<nat>)
    ensures r.Some? ==> from <= r.value && LineFieldAt(s, tag, r.value)
    ensures r.Some? ==> forall j :: from <= j < r.value ==> !LineFieldAt(s, tag, j)
    ensures r.None? ==> forall j :: from <= j ==> !LineFieldAt(s, tag, j)
    decreases |s| - from
  {
    match FindFrom(s, tag, from)
    case None => None
    case Some(i) =>
      if RestStart(s, i + |tag|, false).Some? then Some(i)
      else FirstLineField(s, tag, i + 1)
  }

  /** `re.search(tag + r'\s*(.+)', s).group(1).strip()`, or None without a match. */
  function LineField(s: string, tag: string): (r: Option<string>)
    ensures r.Some? <==> exists i :: 0 <= i <= |s| && LineFieldAt(s, tag, i)
    ensures r.Some? ==> IsStripped(r.value) && '\n' !in r.value
  {
    match GroupStart(s, tag)
    case None => None
    case Some(p) => Some(RestOfLine(s, p))
  }

  /** Where the group `(.+)` of the leftmost match starts. */
  function GroupStart(s: string, tag: string): (r: Option<nat>)
    ensures r.Some? <==> FirstLineField(s, tag, 0).Some?
    ensures r.Some? ==> r.value < |s|
  {
    match FirstLineField(s, tag, 0)
    case None => None
    case Some(i) => RestStart(s, i + |tag|, false)
  }

  /** The group `(.+)` starting at `p`, which runs to the end of its line, stripped. */
  function RestOfLine(s: string, p: nat): (r: string)
    requires p <= |s|
    ensures IsStripped(r) && '\n' !in r
  {
    var g := s[p..LineEnd(s, p)];
    StripNoChar(g, '\n');
    Strip(g)
  }

  lemma LineEndWithin(s: string, i: nat, w: nat)
    requires i <= |s| && i <= w <= LineEnd(s, i)
    ensures LineEnd(s, w) == LineEnd(s, i)
    decreases w - i
  {
    if w > i {
      LineEndWithin(s, i + 1, w);
    }
  }

  /**
   * When the tag's own line carries text, the field is the rest of that
   * line after the tag, stripped.
   */
  lemma {:induction false} LineFieldIsRestOfLine(s: string, tag: string, j: nat)
    requires FirstLineField(s, tag, 0).Some?
    requires var start := FirstLineField(s, tag, 0).value + |tag|;
      start <= j < LineEnd(s, start) && !IsSpace(s[j])
    ensures var start := FirstLineField(s, tag, 0).value + |tag|;
      LineField(s, tag) == Some(Strip(s[start..LineEnd(s, start)]))
  {
    var start := FirstLineField(s, tag, 0).value + |tag|;
    var w := SkipSpaces(s, start);
    assert w <= j;
    assert RestStart(s, start, false) == Some(w);
    GroupStartOfMatch(s, tag, w);
    LineFieldOfMatch(s, tag, w);
    RestOfLineAfterSpace(s, start, w);
  }

  /** Whitespace skipped on the line before the group does not change the field. */
  lemma RestOfLineAfterSpace(s: string, start: nat, w: nat)
    requires start <= w < |s| && w <= LineEnd(s, start)
    requires forall k :: start <= k < w ==> IsSpace(s[k])
    ensures RestOfLine(s, w) == Strip(s[start..LineEnd(s, start)])
  {
    LineEndWithin(s, start, w);
    LeadingSpaceStripped(s, start, w, LineEnd(s, start));
  }

  /** The group of the leftmost match starts where `\s*` after its tag ends. */
  lemma GroupStartOfMatch(s: string, tag: string, w: nat)
    requires FirstLineField(s, tag, 0).Some?
    requires RestStart(s, FirstLineField(s, tag, 0).value + |tag|, false) == Some(w)
    ensures GroupStart(s, tag) == Some(w)
  {
  }

  /** The field runs from where its group starts to the end of that line. */
  lemma LineFieldOfMatch(s: string, tag: string, w: nat)
    requires GroupStart(s, tag) == Some(w)
    ensures LineField(s, tag) == Some(RestOfLine(s, w))
  {
  }

  lemma {:induction false} LeadingSpaceStripped(s: string, start: nat, w: nat, e: nat)
    requires start <= w <= e <= |s|
    requires forall k :: start <= k < w ==> IsSpace(s[k])
    ensures Strip(s[w..e]) == Strip(s[start..e])
  {
    var t := s[start..e];
    var d := w - start;
    forall k | 0 <= k < d
      ensures IsSpace(t[k])
    {
      assert t[k] == s[start + k];
    }
    StripSkipsLeadingSpace(t, d);
    assert t[d..] == s[w..e];
  }

  // ---------------------------------------------------------------------
  // Section bodies: `heading.*?\n\n(.+?)(?=stop)` with DOTALL
  // ---------------------------------------------------------------------

  /** Which lookahead closes a section. */
  datatype Stop =
    | NextHeading            // (?=\n##)
    | NextHeadingOrEnd       // (?=\n##|\Z)
    | NextHeadingEquationOrEnd // (?=\n##|\n\*\*Equation|\Z), case-insensitive

  predicate StopsAt(s: string, b: int, stop: Stop) {
    IsAt(s, "\n##", b) ||
    (stop == NextHeadingEquationOrEnd && IsAt(ToLower(s), "\n**equation", b)) ||
    (stop != NextHeading && b == |s|)
  }

  /** Smallest `b >= from` where the section's lookahead succeeds. */
  function FirstStop(s: string, from: nat, stop: Stop): (r: Option<nat>)
    ensures r.Some? ==> from <= r.value <= |s| && StopsAt(s, r.value, stop)
    ensures r.Some? ==> forall b :: from <= b < r.value ==> !StopsAt(s, b, stop)
    ensures r.None? ==> forall b :: from <= b <= |s| ==> !StopsAt(s, b, stop)
    decreases |s| + 1 - from
  {
    if from > |s| then None
    else if StopsAt(s, from, stop) then Some(from)
    else FirstStop(s, from + 1, stop)
  }

  /**
   * Where the body of the section titled `heading` begins: just after the
   * first blank line (`"\n\n"`) that follows the first occurrence of the
   * heading (case-insensitively when `ignoreCase`). The lazy `.*?` stops at
   * that first blank line; a later heading occurrence or blank line would
   * only offer a later start, from which every stop position is also
   * reachable from this one, so the first ones decide the match.
   */
  function SectionStart(s: string, heading: string, ignoreCase: bool): (r: Option<nat>)
    ensures r.Some? ==> 2 <= r.value <= |s| && IsAt(s, "\n\n", r.value - 2)
    ensures !Contains(Folded(s, ignoreCase), Folded(heading, ignoreCase)) ==> r.None?
    ensures forall e, a :: HeadingEndsAt(s, heading, ignoreCase, e) && FirstAt(s, "\n\n", e, a) ==>
      r == Some(a + 2)
    ensures forall e :: HeadingEndsAt(s, heading, ignoreCase, e) && (forall a :: e <= a ==> !IsAt(s, "\n\n", a)) ==>
      r.None?
  {
    match SectionHeadingEnd(s, heading, ignoreCase)
    case None => None
    case Some(e) => BodyStart(s, e)
  }

  /** Just after the first occurrence of the heading (case-insensitively when `ignoreCase`). */
  function SectionHeadingEnd(s: string, heading: string, ignoreCase: bool): (r: Option<nat>)
    ensures r.None? <==> !Contains(Folded(s, ignoreCase), Folded(heading, ignoreCase))
    ensures forall e :: HeadingEndsAt(s, heading, ignoreCase, e) <==> r == Some(e)
  {
    var t, pat := Folded(s, ignoreCase), Folded(heading, ignoreCase);
    FindFromIsFirst(t, pat, 0);
    match FindFrom(t, pat, 0)
    case None => None
    case Some(h) =>
      assert Contains(t, pat);
      Some(h + |heading|)
  }

  /** Just after the first blank line at or after `e`. */
  function BodyStart(s: string, e: nat): (r: Option<nat>)
    ensures r.Some? ==> 2 <= r.value <= |s| && IsAt(s, "\n\n", r.value - 2)
    ensures forall a :: FirstAt(s, "\n\n", e, a) ==> r == Some(a + 2)
    ensures (forall a :: e <= a ==> !IsAt(s, "\n\n", a)) ==> r.None?
  {
    FindFromIsFirst(s, "\n\n", e);
    match FindFrom(s, "\n\n", e)
    case None => None
    case Some(a) => Some(a + 2)
  }

  /** The text and the heading, lower-cased when the match ignores case. */
  function Folded(s: string, ignoreCase: bool): (r: string)
    ensures |r| == |s|
  {
    if ignoreCase then ToLower(s) else s
  }

  /** The first occurrence of the heading ends at `e` (case-insensitively when `ignoreCase`). */
  predicate HeadingEndsAt(s: string, heading: string, ignoreCase: bool, e: int) {
    |heading| <= e <= |s| && FirstAt(Folded(s, ignoreCase), Folded(heading, ignoreCase), 0, e - |heading|)
  }

  /** `b` is the first position from `from` on where the lookahead succeeds. */
  predicate FirstStopAt(s: string, from: int, stop: Stop, b: int) {
    from <= b <= |s| && StopsAt(s, b, stop) && forall c :: from <= c < b ==> !StopsAt(s, c, stop)
  }

  /** The search finds exactly the first stop. */
  lemma FirstStopIsFirst(s: string, from: nat, stop: Stop)
    ensures forall b :: FirstStopAt(s, from, stop, b) <==> FirstStop(s, from, stop) == Some(b)
  {
  }

  /** The group `(.+?)` of a section pattern: from the body start to the first stop. */
  function Section(s: string, heading: string, ignoreCase: bool, stop: Stop): (r: Option<string>)
    ensures r.Some? ==> |r.value| >= 1
    ensures SectionStart(s, heading, ignoreCase).None? ==> r.None?
    ensures SectionStart(s, heading, ignoreCase).Some? ==>
      var a := SectionStart(s, heading, ignoreCase).value;
      (forall b :: FirstStopAt(s, a + 1, stop, b) ==> r == Some(s[a..b])) &&
      ((forall b :: a + 1 <= b <= |s| ==> !StopsAt(s, b, stop)) ==> r.None?)
  {
    match SectionStart(s, heading, ignoreCase)
    case None => None
    case Some(a) => SectionFrom(s, a, stop)
  }

  /** The group `(.+?)` once the body start `a` is known. */
  function SectionFrom(s: string, a: nat, stop: Stop): (r: Option<string>)
    requires a <= |s|
    ensures r.Some? ==> |r.value| >= 1
    ensures forall b :: FirstStopAt(s, a + 1, stop, b) ==> r == Some(s[a..b])
    ensures (forall b :: a + 1 <= b <= |s| ==> !StopsAt(s, b, stop)) ==> r.None?
  {
    FirstStopIsFirst(s, a + 1, stop);
    match FirstStop(s, a + 1, stop)
    case None => None
    case Some(b) => Some(s[a..b])
  }

  /**
   * The Trap section may run to the end of the file, while a section closed
   * by `(?=\n##)` alone needs a following heading: with no `"\n##"` after the
   * body start, the trap body is the rest of the text and the other sections
   * have no match.
   */
  lemma {:induction false} TrapRunsToEnd(s: string, a: nat)
    requires 2 <= a < |s|
    requires forall b :: a + 1 <= b <= |s| ==> !IsAt(s, "\n##", b)
    ensures FirstStop(s, a + 1, NextHeadingOrEnd) == Some(|s|)
    ensures FirstStop(s, a + 1, NextHeading) == None
  {
    var r := FirstStop(s, a + 1, NextHeadingOrEnd);
    assert StopsAt(s, |s|, NextHeadingOrEnd);
    assert forall b :: a + 1 <= b < |s| ==> !StopsAt(s, b, NextHeadingOrEnd);
  }

  // ---------------------------------------------------------------------
  // The physics description and the equation
  // ---------------------------------------------------------------------

  const PhysicsHeading := "## 2. The Physics"

  /**
   * `extract_section` on the physics pattern (IGNORECASE | DOTALL), then the
   * script's own clean-up: newlines become spaces and the text is stripped
   * again. An empty result counts as absent (`if physics_section:`).
   */
  function Physics(s: string): (r: Option<string>)
    ensures r.Some? ==> r.value != "" && IsStripped(r.value) && '\n' !in r.value
  {
    match Section(s, PhysicsHeading, true, NextHeadingEquationOrEnd)
    case None => None
    case Some(g) =>
      var body := Strip(g);
      if body == "" then None
      else
        var v := Strip(ReplaceNewlines(body));
        StripNoChar(ReplaceNewlines(body), '\n');
        assert v != "" by {
          assert !IsSpace(body[0]) && body[0] != '\n';
          assert ReplaceNewlines(body)[0] == body[0];
          assert StripsTo(ReplaceNewlines(body), v, SkipSpaces(ReplaceNewlines(body), 0));
        }
        Some(v)
  }

  const EquationLabel := "**Equation:**"

  /**
   * The tail `(.+?)`?\n` with the group starting at `g`: the lazy group grows
   * until a newline follows, optionally after one backtick. As `.` stops at
   * newlines, the only candidates are the end of the line, which needs a
   * newline there, and one character before it when that character is a
   * backtick; the backtick candidate comes first.
   */
  function EquationGroupAt(s: string, g: nat): (r: Option<string>)
    requires g <= |s|
    ensures r.Some? ==> |r.value| >= 1 && '\n' !in r.value
  {
    var e := LineEnd(s, g);
    if g < e < |s| then
      Some(if e - 1 > g && s[e - 1] == '`' then s[g..e - 1] else s[g..e])
    else None
  }

  /** ``?`` then the group: with a backtick at `p` the group first tries to start after it. */
  function EquationAt(s: string, p: nat): (r: Option<string>)
    requires p <= |s|
    ensures r.Some? ==> |r.value| >= 1 && '\n' !in r.value
  {
    var ticked := if p < |s| && s[p] == '`' then EquationGroupAt(s, p + 1) else None;
    if ticked.Some? then ticked else EquationGroupAt(s, p)
  }

  /** `\s*` gives back whitespace from the end of its run `p` down to its start `lo`. */
  function EquationScan(s: string, lo: nat, p: nat): (r: Option<string>)
    requires lo <= p <= |s|
    ensures r.Some? ==> |r.value| >= 1 && '\n' !in r.value
    decreases p
  {
    var r := EquationAt(s, p);
    if r.Some? || p == lo then r else EquationScan(s, lo, p - 1)
  }

  /** The equation group of the leftmost tag occurrence at or after `from` that matches. */
  function EquationFrom(s: string, from: nat): (r: Option<string>)
    ensures r.Some? ==> |r.value| >= 1 && '\n' !in r.value
    decreases |s| - from
  {
    match FindFrom(s, EquationLabel, from)
    case None => None
    case Some(i) =>
      var start := i + |EquationLabel|;
      var r := EquationScan(s, start, SkipSpaces(s, start));
      if r.Some? then r else EquationFrom(s, i + 1)
  }

  /** The `equation` field: the group, stripped. */
  function Equation(s: string): (r: Option<string>)
    ensures r.Some? ==> IsStripped(r.value) && '\n' !in r.value
  {
    match EquationFrom(s, 0)
    case None => None
    case Some(g) => StripNoChar(g, '\n'); Some(Strip(g))
  }

  /**
   * The usual layout ``**Equation:** `E`\n`` yields `E` without its
   * backticks: when the first tag is followed (after whitespace) by a
   * backtick, and its line ends with a backtick right before a newline, the
   * equation is what lies between the two backticks.
   */
  lemma {:induction false} EquationDropsBackticks(s: string, i: nat, e: nat)
    requires FindFrom(s, EquationLabel, 0) == Some(i)
    requires var w := SkipSpaces(s, i + |EquationLabel|);
      w < |s| && s[w] == '`' && e == LineEnd(s, w + 1) && w + 2 < e < |s| && s[e - 1] == '`'
    ensures Equation(s) == Some(Strip(s[SkipSpaces(s, i + |EquationLabel|) + 1..e - 1]))
  {
    var start := i + |EquationLabel|;
    var w := SkipSpaces(s, start);
    EquationAtTicked(s, w, e);
    assert EquationScan(s, start, w) == Some(s[w + 1..e - 1]);
    assert EquationFrom(s, 0) == Some(s[w + 1..e - 1]);
  }

  lemma EquationAtTicked(s: string, w: nat, e: nat)
    requires w < |s| && s[w] == '`' && e == LineEnd(s, w + 1) && w + 2 < e < |s| && s[e - 1] == '`'
    ensures EquationAt(s, w) == Some(s[w + 1..e - 1])
  {
    assert EquationGroupAt(s, w + 1) == Some(s[w + 1..e - 1]);
  }

  // ---------------------------------------------------------------------
  // The evocative quote and description
  // ---------------------------------------------------------------------

  const WhyHeading := "## 3. The Evocative Why"

  /**
   * `\n\n>\s*"(.+?)"` searched from `from`: at each `"\n\n>"` in turn, the
   * whitespace run must end on an opening quote, and the lazy group ends at
   * the next quote at least one character further on. Characters `\s*` could
   * give back are whitespace, never a quote, so only the end of the run counts.
   */
  function QuoteFrom(s: string, from: nat): (r: Option<string>)
    decreases |s| - from
  {
    match FindFrom(s, "\n\n>", from)
    case None => None
    case Some(a) =>
      match QuoteAt(s, a)
      case Some(g) => Some(g)
      case None => QuoteFrom(s, a + 1)
  }

  /** `>\s*"(.+?)"` with `'>'` at `a + 2`: the run must end on a quote, the group at the next quote one character on. */
  function QuoteAt(s: string, a: nat): (r: Option<string>)
    requires a + 3 <= |s|
  {
    var w := SkipSpaces(s, a + 3);
    if w < |s| && s[w] == '"' then QuoteGroup(s, w) else None
  }

  /** `"(.+?)"` with the opening quote at `w`: the group ends at the next quote one character on. */
  function QuoteGroup(s: string, w: nat): (r: Option<string>)
    requires w < |s|
  {
    match FindFrom(s, "\"", w + 2)
    case None => None
    case Some(c) => Some(s[w + 1..c])
  }

  /** A captured group as the script stores it: stripped, then each newline turned into a space. */
  function OneLine(g: string): (r: string)
    ensures IsStripped(r) && '\n' !in r
  {
    ReplaceNewlinesStripped(Strip(g));
    ReplaceNewlines(Strip(g))
  }

  /** `OneLine` applied to a match's group, when there is a match. */
  function Tidied(m: Option<string>): (r: Option<string>)
    ensures r.Some? <==> m.Some?
    ensures r.Some? ==> IsStripped(r.value) && '\n' !in r.value
  {
    match m
    case None => None
    case Some(g) => Some(OneLine(g))
  }

  /** The `evocative_quote` field: the quoted text, stripped, newlines turned into spaces. */
  function Quote(s: string): (r: Option<string>)
    ensures r.Some? ==> IsStripped(r.value) && '\n' !in r.value
  {
    match HeadingEnd(s, WhyHeading)
    case None => None
    case Some(a) => Tidied(QuoteFrom(s, a))
  }

  /** Where the first occurrence of `heading` ends. */
  function HeadingEnd(s: string, heading: string): (r: Option<nat>)
    ensures r.Some? ==> |heading| <= r.value <= |s| && IsAt(s, heading, r.value - |heading|)
    ensures r.None? <==> !Contains(s, heading)
  {
    match FindFrom(s, heading, 0)
    case None => None
    case Some(h) => Some(h + |heading|)
  }

  /**
   * The usual layout: right after the heading come a blank line, `'>'`,
   * optional whitespace and a quoted text free of quotes. The quote is that
   * text, stripped, its newlines turned into spaces.
   */
  lemma QuoteAfterHeading(s: string, h: nat, sp: string, q: string, rest: string)
    requires FindFrom(s, WhyHeading, 0) == Some(h)
    requires s[h + |WhyHeading|..] == "\n\n>" + sp + "\"" + q + "\"" + rest
    requires AllSpace(sp) && |q| >= 1 && '"' !in q
    ensures Quote(s) == Some(ReplaceNewlines(Strip(q)))
  {
    var a := h + |WhyHeading|;
    QuoteAtLayout(s, a, sp, q, rest);
    QuoteFromMatch(s, a, q);
    QuoteOfHeading(s, a);
  }

  lemma QuoteAtLayout(s: string, a: nat, sp: string, q: string, rest: string)
    requires a <= |s| && s[a..] == "\n\n>" + sp + "\"" + q + "\"" + rest
    requires AllSpace(sp) && |q| >= 1 && '"' !in q
    ensures a + 3 <= |s| && FindFrom(s, "\n\n>", a) == Some(a) && QuoteAt(s, a) == Some(q)
  {
    QuoteLayout(s, a, sp, q, rest);
    assert IsAt(s, "\n\n>", a);
    QuoteAtSpan(s, a, a + 3 + |sp|, q);
  }

  /** Whitespace from `a + 3` to `w`, then a quote, `q` and a quote: the group is `q`. */
  lemma QuoteAtSpan(s: string, a: nat, w: nat, q: string)
    requires a + 3 <= w && w + |q| + 2 <= |s| && |q| >= 1 && '"' !in q
    requires (forall j :: a + 3 <= j < w ==> IsSpace(s[j])) && s[w] == '"'
    requires s[w + 1..w + 1 + |q|] == q && s[w + 1 + |q|] == '"'
    ensures QuoteAt(s, a) == Some(q)
  {
    SkipSpacesTo(s, a + 3, w);
    QuoteGroupSpan(s, w, q);
  }

  lemma QuoteGroupSpan(s: string, w: nat, q: string)
    requires w + |q| + 2 <= |s| && |q| >= 1 && '"' !in q
    requires s[w + 1..w + 1 + |q|] == q && s[w + 1 + |q|] == '"'
    ensures QuoteGroup(s, w) == Some(q)
  {
    var c := w + 1 + |q|;
    forall j | w + 2 <= j < c ensures s[j] != "\""[0] {
      assert s[j] == q[j - w - 1];
    }
    assert IsAt(s, "\"", c) by { assert s[c..c + 1] == [s[c]]; }
    FindFromFirstChar(s, "\"", w + 2, c);
  }

  lemma QuoteFromMatch(s: string, a: nat, g: string)
    requires FindFrom(s, "\n\n>", a) == Some(a) && a + 3 <= |s| && QuoteAt(s, a) == Some(g)
    ensures QuoteFrom(s, a) == Some(g)
  {
  }

  lemma QuoteOfHeading(s: string, a: nat)
    requires HeadingEnd(s, WhyHeading) == Some(a)
    ensures Quote(s) == Tidied(QuoteFrom(s, a))
  {
  }

  lemma QuoteLayout(s: string, a: nat, sp: string, q: string, rest: string)
    requires a <= |s| && s[a..] == "\n\n>" + sp + "\"" + q + "\"" + rest
    requires AllSpace(sp)
    ensures var w := a + 3 + |sp|;
      w + |q| + 2 <= |s| && s[a..a + 3] == "\n\n>" &&
      (forall j :: a + 3 <= j < w ==> IsSpace(s[j])) && s[w] == '"' &&
      s[w + 1..w + 1 + |q|] == q && s[w + 1 + |q|] == '"'
  {
    var t := s[a..];
    var w := 3 + |sp|;
    assert t[..3] == "\n\n>";
    assert forall j :: 3 <= j < w ==> t[j] == sp[j - 3];
    assert t[w] == '"';
    assert t[w + 1..w + 1 + |q|] == q;
    assert t[w + 1 + |q|] == '"';
  }

  /**
   * `>\s*".+?"\n\n(.+?)(?=\n##)` searched from `from`: at each `'>'` the
   * whitespace run must end on a quote; the quoted text ends at the first
   * `"\"\n\n"` after it, and the paragraph at the first `"\n##"` at least one
   * character later. A later closing quote only offers a later paragraph
   * start, so when the first one has no heading after it no later one has.
   */
  function DescriptionFrom(s: string, from: nat): (r: Option<string>)
    decreases |s| - from
  {
    match FindFrom(s, ">", from)
    case None => None
    case Some(k) =>
      match DescriptionAt(s, k)
      case Some(g) => Some(g)
      case None => DescriptionFrom(s, k + 1)
  }

  /** The description pattern with its `'>'` at `k`. */
  function DescriptionAt(s: string, k: nat): (r: Option<string>)
    requires k < |s|
  {
    var w := SkipSpaces(s, k + 1);
    if w < |s| && s[w] == '"' then ParagraphAfterQuote(s, w) else None
  }

  /** `".+?"\n\n(.+?)(?=\n##)` with the opening quote at `w`. */
  function ParagraphAfterQuote(s: string, w: nat): (r: Option<string>)
  {
    match FindFrom(s, "\"\n\n", w + 2)
    case None => None
    case Some(c) => Paragraph(s, c)
  }

  /** `(.+?)(?=\n##)` after the closing quote and blank line at `c`. */
  function Paragraph(s: string, c: nat): (r: Option<string>)
    requires c + 3 <= |s|
  {
    match FindFrom(s, "\n##", c + 4)
    case None => None
    case Some(b) => Some(s[c + 3..b])
  }

  /** The `evocative_description` field. */
  function Description(s: string): (r: Option<string>)
    ensures r.Some? ==> IsStripped(r.value) && '\n' !in r.value
  {
    match HeadingEnd(s, WhyHeading)
    case None => None
    case Some(a) => Tidied(DescriptionFrom(s, a))
  }

  /**
   * The usual layout: after the heading, text free of `'>'`, then `'>'`,
   * optional whitespace and an opening quote; after it a quoted text free of
   * quotes followed by a blank line, and a paragraph of at least one character
   * holding no `"\n##"` before the next heading. The description is that
   * paragraph, stripped, its newlines turned into spaces.
   */
  lemma DescriptionAfterHeading(s: string, h: nat, mid: string, sp: string, tail: string,
                                q: string, d: string, rest: string)
    requires FindFrom(s, WhyHeading, 0) == Some(h)
    requires s[h + |WhyHeading|..] == mid + ">" + sp + "\"" + tail
    requires tail == q + "\"\n\n" + d + "\n##" + rest
    requires '>' !in mid && AllSpace(sp) && |q| >= 1 && '"' !in q && |d| >= 1 && !Contains(d, "\n##")
    ensures Description(s) == Some(ReplaceNewlines(Strip(d)))
  {
    var a := h + |WhyHeading|;
    DescriptionFromLayout(s, a, mid, sp, tail, q, d, rest);
    DescriptionOfHeading(s, a);
  }

  lemma DescriptionFromLayout(s: string, a: nat, mid: string, sp: string, tail: string,
                              q: string, d: string, rest: string)
    requires a <= |s| && s[a..] == mid + ">" + sp + "\"" + tail
    requires tail == q + "\"\n\n" + d + "\n##" + rest
    requires '>' !in mid && AllSpace(sp) && |q| >= 1 && '"' !in q && |d| >= 1 && !Contains(d, "\n##")
    ensures DescriptionFrom(s, a) == Some(d)
  {
    var k := a + |mid|;
    var w := k + 1 + |sp|;
    OpeningLayout(s, a, mid, sp, tail);
    FirstAngle(s, a, mid);
    ParagraphLayout(s, w, tail, q, d, rest);
    DescriptionFromSpan(s, a, k, w, q, d);
  }

  /** `'>'` at `k`, then whitespace up to a quote at `w`. */
  predicate SpacedQuote(s: string, k: nat, w: nat) {
    k + 1 <= w < |s| && (forall j :: k + 1 <= j < w ==> IsSpace(s[j])) && s[w] == '"'
  }

  /** After the quote at `w`: `q`, a quote, a blank line, then `d` and `"\n##"`. */
  predicate QuotedThenParagraph(s: string, w: nat, q: string, d: string) {
    var c := w + 1 + |q|;
    c + 3 + |d| + 3 <= |s| && s[w + 1..c] == q && s[c..c + 3] == "\"\n\n" &&
    s[c + 3..c + 3 + |d| + 3] == d + "\n##" && s[c + 3..c + 3 + |d|] == d
  }

  /** Where `mid`, `'>'`, the whitespace `sp` and the opening quote fall. */
  lemma OpeningLayout(s: string, a: nat, mid: string, sp: string, tail: string)
    requires a <= |s| && s[a..] == mid + ">" + sp + "\"" + tail && AllSpace(sp)
    ensures var k := a + |mid|; var w := k + 1 + |sp|;
      k < |s| && s[a..k] == mid && s[k] == '>' && SpacedQuote(s, k, w) && s[w + 1..] == tail
  {
    var t := s[a..];
    var k := |mid|;
    var w := k + 1 + |sp|;
    assert t[..k] == mid;
    assert t[k] == '>';
    assert forall j :: k + 1 <= j < w ==> t[j] == sp[j - k - 1];
    assert t[w] == '"';
    assert t[w + 1..] == tail;
  }

  /** Where the quoted text, the blank line, the paragraph and the next heading mark fall. */
  lemma ParagraphLayout(s: string, w: nat, tail: string, q: string, d: string, rest: string)
    requires w < |s| && s[w + 1..] == tail && tail == q + "\"\n\n" + d + "\n##" + rest
    ensures QuotedThenParagraph(s, w, q, d)
  {
    var t := s[w + 1..];
    var c := |q|;
    assert t[..c] == q;
    assert t[c..c + 3] == "\"\n\n";
    assert t[c + 3..c + 3 + |d| + 3] == d + "\n##";
    assert t[c + 3..c + 3 + |d|] == d;
  }

  /** The description layout by positions: `'>'` at `k`, the opening quote at `w`. */
  lemma DescriptionFromSpan(s: string, a: nat, k: nat, w: nat, q: string, d: string)
    requires FindFrom(s, ">", a) == Some(k) && SpacedQuote(s, k, w) && QuotedThenParagraph(s, w, q, d)
    requires |q| >= 1 && '"' !in q && |d| >= 1 && !Contains(d, "\n##")
    ensures DescriptionFrom(s, a) == Some(d)
  {
    QuoteThenParagraph(s, w, q, d);
    DescriptionAtSpan(s, k, w, d);
    DescriptionFromMatch(s, a, k, d);
  }

  /** Text free of `'>'` and then `'>'`: the search stops at that `'>'`. */
  lemma FirstAngle(s: string, a: nat, mid: string)
    requires a + |mid| < |s| && s[a..a + |mid|] == mid && '>' !in mid && s[a + |mid|] == '>'
    ensures FindFrom(s, ">", a) == Some(a + |mid|)
  {
    var k := a + |mid|;
    forall j | a <= j < k ensures s[j] != ">"[0] {
      assert s[j] == mid[j - a];
    }
    assert IsAt(s, ">", k) by { assert s[k..k + 1] == [s[k]]; }
    FindFromFirstChar(s, ">", a, k);
  }

  lemma DescriptionOfHeading(s: string, a: nat)
    requires HeadingEnd(s, WhyHeading) == Some(a)
    ensures Description(s) == Tidied(DescriptionFrom(s, a))
  {
  }

  lemma DescriptionFromMatch(s: string, from: nat, k: nat, g: string)
    requires FindFrom(s, ">", from) == Some(k) && k < |s| && DescriptionAt(s, k) == Some(g)
    ensures DescriptionFrom(s, from) == Some(g)
  {
  }

  lemma DescriptionAtSpan(s: string, k: nat, w: nat, g: string)
    requires k < |s| && SpacedQuote(s, k, w) && ParagraphAfterQuote(s, w) == Some(g)
    ensures DescriptionAt(s, k) == Some(g)
  {
    SkipSpacesTo(s, k + 1, w);
  }

  /** A quoted text free of quotes, a blank line, then `d` and `"\n##"`: the paragraph is `d`. */
  lemma QuoteThenParagraph(s: string, w: nat, q: string, d: string)
    requires |q| >= 1 && '"' !in q && |d| >= 1 && !Contains(d, "\n##") && QuotedThenParagraph(s, w, q, d)
    ensures ParagraphAfterQuote(s, w) == Some(d)
  {
    var c := w + 1 + |q|;
    ClosingQuote(s, w, c, q);
    ParagraphSpan(s, c, d);
  }

  /** A quoted text free of quotes, then a blank line: the search from one past its start stops at its closing quote. */
  lemma ClosingQuote(s: string, w: nat, c: nat, q: string)
    requires |q| >= 1 && '"' !in q && c == w + 1 + |q| && c + 3 <= |s|
    requires s[w + 1..c] == q && s[c..c + 3] == "\"\n\n"
    ensures FindFrom(s, "\"\n\n", w + 2) == Some(c)
  {
    forall j | w + 2 <= j < c ensures s[j] != "\"\n\n"[0] {
      assert s[j] == q[j - w - 1];
    }
    FindFromFirstChar(s, "\"\n\n", w + 2, c);
  }

  /** `d` of at least one character and no `"\n##"`, then `"\n##"`: the paragraph is `d`. */
  lemma ParagraphSpan(s: string, c: nat, d: string)
    requires |d| >= 1 && !Contains(d, "\n##")
    requires c + 3 + |d| + 3 <= |s| && s[c + 3..c + 3 + |d| + 3] == d + "\n##"
    requires s[c + 3..c + 3 + |d|] == d
    ensures Paragraph(s, c) == Some(d)
  {
    var o := c + 3;
    if Contains(d[1..], "\n##") { ContainsOfTail(d, "\n##"); }
    assert s[o + 1..o + 1 + |d[1..]| + 3] == d[1..] + "\n##" by {
      assert s[o + 1..o + |d| + 3] == s[o..o + |d| + 3][1..];
    }
    FirstAfter(s, "\n##", o + 1, d[1..]);
  }

  // ---------------------------------------------------------------------
  // Bullet lists: `-\s*\*\*(.+?)\*\*[:\s]*(.+)` with `finditer`
  // ---------------------------------------------------------------------

  datatype Item = Item(name: string, description: string)

  datatype BulletMatch = BulletMatch(name: string, description: string, end: nat)

  /**
   * The bullet pattern matched at `i`. After `'-'` and the whitespace run the
   * name must open with `"**"`; the lazy name ends at the first `"**"` at
   * least one character on, which must lie on the same line. The description
   * starts as `RestStart` over `[:\s]` says and runs to the end of its line.
   * A later closing `"**"` could only help if the description failed, and it
   * fails only when nothing but newlines follows, where no `"**"` is left.
   */
  function BulletAt(s: string, i: nat): (r: Option<BulletMatch>)
    requires i <= |s|
    ensures r.Some? ==> i < r.value.end <= |s|
    ensures r.Some? ==> '\n' !in r.value.name && '\n' !in r.value.description
  {
    if i < |s| && s[i] == '-' then BulletNameAt(s, SkipSpaces(s, i + 1)) else None
  }

  /** The rest of the bullet pattern with the opening `"**"` expected at `w`. */
  function BulletNameAt(s: string, w: nat): (r: Option<BulletMatch>)
    requires w <= |s|
    ensures r.Some? ==> w < r.value.end <= |s|
    ensures r.Some? ==> '\n' !in r.value.name && '\n' !in r.value.description
  {
    if IsAt(s, "**", w) then
      match FindFrom(s, "**", w + 3)
      case None => None
      case Some(n) => if n <= LineEnd(s, w + 2) then BulletDescriptionAt(s, w, n) else None
    else None
  }

  /** The bullet's description, with the name between the `"**"` at `w` and the one at `n`. */
  function BulletDescriptionAt(s: string, w: nat, n: nat): (r: Option<BulletMatch>)
    requires w + 2 <= n && n + 2 <= |s| && n <= LineEnd(s, w + 2)
    ensures r.Some? ==> w < r.value.end <= |s|
    ensures r.Some? ==> '\n' !in r.value.name && '\n' !in r.value.description
  {
    match RestStart(s, n + 2, true)
    case None => None
    case Some(d) =>
      var e := LineEnd(s, d);
      Some(BulletMatch(s[w + 2..n], s[d..e], e))
  }

  /** The item a bullet match contributes: both groups stripped. */
  function BulletItem(m: BulletMatch): (r: Item)
    requires '\n' !in m.name && '\n' !in m.description
    ensures IsStripped(r.name) && IsStripped(r.description)
    ensures '\n' !in r.name && '\n' !in r.description
  {
    StripNoChar(m.name, '\n');
    StripNoChar(m.description, '\n');
    Item(Strip(m.name), Strip(m.description))
  }

  /** `re.finditer` from `i`: each match is followed by a search from its end. */
  function Bullets(s: string, i: nat): (r: seq<Item>)
    requires i <= |s|
    ensures forall k :: 0 <= k < |r| ==>
      IsStripped(r[k].name) && IsStripped(r[k].description) &&
      '\n' !in r[k].name && '\n' !in r[k].description
    decreases |s| - i
  {
    if i == |s| then []
    else
      match BulletAt(s, i)
      case Some(m) => [BulletItem(m)] + Bullets(s, m.end)
      case None => Bullets(s, i + 1)
  }

  /** No bullet match starts in `[i, f)`. */
  predicate NoBulletIn(s: string, i: nat, f: nat)
    requires i <= f <= |s|
    decreases f - i
  {
    i == f || (BulletAt(s, i).None? && NoBulletIn(s, i + 1, f))
  }

  /**
   * `re.finditer` takes the leftmost match: with the first match at `f` the
   * list is that match's item followed by the list from where it ends, and
   * with no match before the end of the text the list is empty.
   */
  lemma BulletsFromFirst(s: string, i: nat, f: nat)
    requires i <= f <= |s| && NoBulletIn(s, i, f)
    ensures f == |s| ==> Bullets(s, i) == []
    ensures BulletAt(s, f).Some? ==>
      Bullets(s, i) == [BulletItem(BulletAt(s, f).value)] + Bullets(s, BulletAt(s, f).value.end)
  {
    BulletsSkipTo(s, i, f);
    if f < |s| && BulletAt(s, f).Some? {
      BulletTake(s, f);
    }
  }

  /** When no match starts in `[i, f)`, the list from `i` is the list from `f`. */
  lemma {:induction false} BulletsSkipTo(s: string, i: nat, f: nat)
    requires i <= f <= |s| && NoBulletIn(s, i, f)
    ensures Bullets(s, i) == Bullets(s, f)
    decreases f - i
  {
    if i < f {
      BulletSkip(s, i, f);
      BulletsSkipTo(s, i + 1, f);
    }
  }

  /** With a match at `i`, the list starts with its item. */
  lemma BulletTake(s: string, i: nat)
    requires i < |s| && BulletAt(s, i).Some?
    ensures Bullets(s, i) == [BulletItem(BulletAt(s, i).value)] + Bullets(s, BulletAt(s, i).value.end)
  {
  }

  /** Without a match at `i`, the list starts over at `i + 1`. */
  lemma BulletSkip(s: string, i: nat, f: nat)
    requires i < f <= |s| && NoBulletIn(s, i, f)
    ensures NoBulletIn(s, i + 1, f) && Bullets(s, i) == Bullets(s, i + 1)
  {
  }


  /** A bullet as the room files write it: `- **name**: description`. */
  function BulletLine(item: Item): string {
    "- **" + item.name + "**: " + item.description
  }

  /** Bullet lines, one per item, separated by newlines. */
  function BulletLines(items: seq<Item>): string
    decreases |items|
  {
    if items == [] then ""
    else if |items| == 1 then BulletLine(items[0])
    else BulletLine(items[0]) + "\n" + BulletLines(items[1..])
  }

  /**
   * An item that survives the round trip through its line: a stripped
   * one-line name without `'*'`, and a stripped one-line description that
   * does not start with `':'` (which `[:\s]*` would take).
   */
  predicate PlainItem(item: Item) {
    |item.name| >= 1 && IsStripped(item.name) && '*' !in item.name && '\n' !in item.name &&
    |item.description| >= 1 && IsStripped(item.description) && '\n' !in item.description &&
    item.description[0] != ':'
  }

  /** Lines of plain items give back exactly those items, in order. */
  lemma {:induction false} BulletsOfLines(s: string, i: nat, items: seq<Item>)
    requires i <= |s| && s[i..] == BulletLines(items)
    requires forall k :: 0 <= k < |items| ==> PlainItem(items[k])
    ensures Bullets(s, i) == items
    decreases |items|
  {
    if items == [] {
      assert i == |s|;
    } else if |items| == 1 {
      assert PlainItem(items[0]);
      assert s[i..] == BulletLine(items[0]) + "";
      var e := BulletsOfLine(s, i, items[0], "");
      assert e == |s|;
    } else {
      assert PlainItem(items[0]);
      var more := BulletLines(items[1..]);
      var e := BulletsOfLine(s, i, items[0], "\n" + more);
      BulletsAfterNewline(s, e, more);
      BulletsOfLines(s, e + 1, items[1..]);
      assert items == [items[0]] + items[1..];
    }
  }

  lemma BulletsAfterNewline(s: string, e: nat, more: string)
    requires e <= |s| && s[e..] == "\n" + more
    ensures e < |s| && s[e + 1..] == more
    ensures Bullets(s, e) == Bullets(s, e + 1)
  {
    assert s[e] == s[e..][0];
    assert BulletAt(s, e).None?;
  }

  /** A plain item's line, followed by `rest`, contributes that item and hands over to `rest`. */
  lemma BulletsOfLine(s: string, i: nat, item: Item, rest: string) returns (e: nat)
    requires i <= |s| && s[i..] == BulletLine(item) + rest && PlainItem(item)
    requires rest == "" || rest[0] == '\n'
    ensures e <= |s| && s[e..] == rest
    ensures Bullets(s, i) == [item] + Bullets(s, e)
  {
    e := BulletLineLayout(s, i, item, rest);
    assert e == |s| || s[e] == '\n' by { if e < |s| { assert s[e] == s[e..][0]; } }
    BulletAtLine(s, i, item, e);
  }

  /** Where the parts of a bullet line fall; `e` is where it ends. */
  predicate BulletShape(s: string, i: nat, item: Item, e: nat) {
    var w := i + 2;
    var n := w + 2 + |item.name|;
    var p := n + 4;
    e == p + |item.description| && e <= |s| &&
    s[i] == '-' && s[i + 1] == ' ' && s[w] == '*' && s[w + 1] == '*' &&
    s[w + 2..n] == item.name && s[n] == '*' && s[n + 1] == '*' && s[n + 2] == ':' && s[n + 3] == ' ' &&
    s[p..e] == item.description
  }

  lemma BulletLineLayout(s: string, i: nat, item: Item, rest: string) returns (e: nat)
    requires i <= |s| && s[i..] == BulletLine(item) + rest
    ensures BulletShape(s, i, item, e) && s[e..] == rest
  {
    var t := s[i..];
    var n := 4 + |item.name|;
    var p := n + 4;
    e := i + p + |item.description|;
    assert t[..4] == "- **";
    assert t[4..n] == item.name;
    assert t[n..p] == "**: ";
    assert t[p..p + |item.description|] == item.description;
    assert t[p + |item.description|..] == rest;
  }

  /** A bullet line of a plain item matches as that item and ends where the line does. */
  lemma BulletAtLine(s: string, i: nat, item: Item, e: nat)
    requires BulletShape(s, i, item, e) && PlainItem(item) && (e == |s| || s[e] == '\n')
    ensures Bullets(s, i) == [item] + Bullets(s, e)
  {
    var w := i + 2;
    var n := w + 2 + |item.name|;
    SkipSpacesTo(s, i + 1, w);
    BulletNameMatch(s, w, n, n + 4, e, item);
    StripStripped(item.name);
    StripStripped(item.description);
    assert BulletAt(s, i) == Some(BulletMatch(item.name, item.description, e));
  }

  lemma BulletNameMatch(s: string, w: nat, n: nat, p: nat, e: nat, item: Item)
    requires n == w + 2 + |item.name| && p == n + 4 && e == p + |item.description| && e <= |s|
    requires s[w] == '*' && s[w + 1] == '*' && s[w + 2..n] == item.name && s[n] == '*' && s[n + 1] == '*'
    requires s[n + 2] == ':' && s[n + 3] == ' ' && s[p..e] == item.description && (e == |s| || s[e] == '\n')
    requires PlainItem(item)
    ensures BulletNameAt(s, w) == Some(BulletMatch(item.name, item.description, e))
  {
    assert IsAt(s, "**", w) by { assert s[w..w + 2] == [s[w], s[w + 1]]; }
    ClosingStars(s, w + 2, n, item.name);
    BulletLineEnd(s, w + 2, n, p, e, item);
    BulletDescriptionMatch(s, w, n, p, e, item);
  }

  /** The `"**"` after a name without `'*'` is the first one searched for. */
  lemma ClosingStars(s: string, v: nat, n: nat, name: string)
    requires n == v + |name| && n + 2 <= |s| && |name| >= 1 && s[v..n] == name && '*' !in name
    requires s[n] == '*' && s[n + 1] == '*'
    ensures FindFrom(s, "**", v + 1) == Some(n)
  {
    assert IsAt(s, "**", n) by { assert s[n..n + 2] == [s[n], s[n + 1]]; }
    forall j | v + 1 <= j < n ensures s[j] != "**"[0] {
      assert s[j] == name[j - v];
    }
    FindFromFirstChar(s, "**", v + 1, n);
  }

  lemma BulletLineEnd(s: string, v: nat, n: nat, p: nat, e: nat, item: Item)
    requires n == v + |item.name| && p == n + 4 && e == p + |item.description| && e <= |s|
    requires s[v..n] == item.name && s[n] == '*' && s[n + 1] == '*' && s[n + 2] == ':' && s[n + 3] == ' '
    requires s[p..e] == item.description && (e == |s| || s[e] == '\n') && PlainItem(item)
    ensures LineEnd(s, v) == e
  {
    forall j | v <= j < e ensures s[j] != '\n' {
      if j < n { assert s[j] == item.name[j - v]; }
      else if p <= j { assert s[j] == item.description[j - p]; }
    }
    LineEndTo(s, v, e);
  }

  lemma BulletDescriptionMatch(s: string, w: nat, n: nat, p: nat, e: nat, item: Item)
    requires n == w + 2 + |item.name| && p == n + 4 && e == p + |item.description| && e <= |s|
    requires w + 2 <= n && n <= LineEnd(s, w + 2) && s[w + 2..n] == item.name
    requires s[n + 2] == ':' && s[n + 3] == ' ' && s[p..e] == item.description && (e == |s| || s[e] == '\n')
    requires PlainItem(item)
    ensures BulletDescriptionAt(s, w, n) == Some(BulletMatch(item.name, item.description, e))
  {
    assert s[p] == item.description[0];
    ColonSpaceEndTo(s, n + 2, p);
    forall j | p <= j < e ensures s[j] != '\n' {
      assert s[j] == item.description[j - p];
    }
    LineEndTo(s, p, e);
  }

  function ItemValue(item: Item): Value {
    Obj(map["name" := Str(item.name), "description" := Str(item.description)])
  }

  /** The `constraints` or `altar` field: the list of bullets, absent when the section has none. */
  function ItemList(s: string, heading: string): (r: Option<Value>)
    ensures r.None? <==>
      Section(s, heading, false, NextHeading).None? ||
      Bullets(Section(s, heading, false, NextHeading).value, 0) == []
    ensures r.Some? ==>
      var items := Bullets(Section(s, heading, false, NextHeading).value, 0);
      r.value.Arr? && |r.value.items| == |items| >= 1 &&
      forall k :: 0 <= k < |items| ==> r.value.items[k] == ItemValue(items[k])
  {
    match Section(s, heading, false, NextHeading)
    case None => None
    case Some(body) => ItemsValue(Bullets(body, 0))
  }

  /** The items as an array of objects, absent when there are none. */
  function ItemsValue(items: seq<Item>): (r: Option<Value>)
    ensures r.None? <==> items == []
    ensures r.Some? ==> r.value.Arr? && |r.value.items| == |items|
    ensures r.Some? ==> forall k :: 0 <= k < |items| ==> r.value.items[k] == ItemValue(items[k])
  {
    if items == [] then None
    else Some(Arr(seq(|items|, k requires 0 <= k < |items| => ItemValue(items[k]))))
  }

  /** A section made of plain bullet lines gives those items, in order, as objects. */
  lemma ItemListOfLines(s: string, heading: string, items: seq<Item>)
    requires Section(s, heading, false, NextHeading) == Some(BulletLines(items))
    requires |items| >= 1 && forall k :: 0 <= k < |items| ==> PlainItem(items[k])
    ensures ItemList(s, heading).Some?
    ensures |ItemList(s, heading).value.items| == |items|
    ensures forall k :: 0 <= k < |items| ==> ItemList(s, heading).value.items[k] == ItemValue(items[k])
  {
    var body := BulletLines(items);
    assert body[0..] == body;
    BulletsOfLines(body, 0, items);
  }

  // ---------------------------------------------------------------------
  // Liturgy steps: `\*\*Step\s*\d*[:\s]*\*\*\s*(.+)` with `finditer`
  // ---------------------------------------------------------------------

  datatype StepMatch = StepMatch(text: string, end: nat)

  /**
   * The step pattern matched at `i`. The three runs `\s*`, `\d*` and `[:\s]*`
   * are each taken whole: a shorter whitespace run leaves characters that
   * `[:\s]*` takes anyway, and a shorter digit or class run leaves a digit,
   * colon or space where `"**"` must be.
   */
  function StepAt(s: string, i: nat): (r: Option<StepMatch>)
    requires i <= |s|
    ensures r.Some? ==> i < r.value.end <= |s| && '\n' !in r.value.text
  {
    if IsAt(s, "**Step", i) then StepTextAt(s, ColonSpaceEnd(s, DigitsEnd(s, SkipSpaces(s, i + 6))))
    else None
  }

  /** The rest of the step pattern, with the closing `"**"` expected at `r`. */
  function StepTextAt(s: string, r: nat): (m: Option<StepMatch>)
    requires r <= |s|
    ensures m.Some? ==> r < m.value.end <= |s| && '\n' !in m.value.text
  {
    if IsAt(s, "**", r) then
      match RestStart(s, r + 2, false)
      case None => None
      case Some(p) =>
        var e := LineEnd(s, p);
        Some(StepMatch(s[p..e], e))
    else None
  }

  /** The step texts in order of appearance, each stripped. */
  function Steps(s: string, i: nat): (r: seq<string>)
    requires i <= |s|
    ensures forall k :: 0 <= k < |r| ==> IsStripped(r[k]) && '\n' !in r[k]
    decreases |s| - i
  {
    if i == |s| then []
    else
      match StepAt(s, i)
      case Some(m) => [StepText(m)] + Steps(s, m.end)
      case None => Steps(s, i + 1)
  }

  /** The text a step match contributes: its group, stripped. */
  function StepText(m: StepMatch): (r: string)
    requires '\n' !in m.text
    ensures IsStripped(r) && '\n' !in r
  {
    StripNoChar(m.text, '\n');
    Strip(m.text)
  }

  /** No step match starts in `[i, f)`. */
  predicate NoStepIn(s: string, i: nat, f: nat)
    requires i <= f <= |s|
    decreases f - i
  {
    i == f || (StepAt(s, i).None? && NoStepIn(s, i + 1, f))
  }

  /**
   * `re.finditer` takes the leftmost match: with the first match at `f` the
   * list is that match's text followed by the list from where it ends, and
   * with no match before the end of the text the list is empty.
   */
  lemma StepsFromFirst(s: string, i: nat, f: nat)
    requires i <= f <= |s| && NoStepIn(s, i, f)
    ensures f == |s| ==> Steps(s, i) == []
    ensures StepAt(s, f).Some? ==>
      Steps(s, i) == [StepText(StepAt(s, f).value)] + Steps(s, StepAt(s, f).value.end)
  {
    StepsSkipTo(s, i, f);
    if f < |s| && StepAt(s, f).Some? {
      StepTake(s, f);
    }
  }

  /** When no match starts in `[i, f)`, the list from `i` is the list from `f`. */
  lemma {:induction false} StepsSkipTo(s: string, i: nat, f: nat)
    requires i <= f <= |s| && NoStepIn(s, i, f)
    ensures Steps(s, i) == Steps(s, f)
    decreases f - i
  {
    if i < f {
      StepSkip(s, i, f);
      StepsSkipTo(s, i + 1, f);
    }
  }

  /** With a match at `i`, the list starts with its text. */
  lemma StepTake(s: string, i: nat)
    requires i < |s| && StepAt(s, i).Some?
    ensures Steps(s, i) == [StepText(StepAt(s, i).value)] + Steps(s, StepAt(s, i).value.end)
  {
  }

  /** Without a match at `i`, the list starts over at `i + 1`. */
  lemma StepSkip(s: string, i: nat, f: nat)
    requires i < f <= |s| && NoStepIn(s, i, f)
    ensures NoStepIn(s, i + 1, f) && Steps(s, i) == Steps(s, i + 1)
  {
  }


  /** A liturgy step as the room files write it: `**Step <number>:** <text>`. */
  datatype StepLine = StepLine(number: string, text: string)

  function StepLineText(step: StepLine): string {
    "**Step " + step.number + ":** " + step.text
  }

  /** Step lines separated by newlines. */
  function StepLines(steps: seq<StepLine>): string
    decreases |steps|
  {
    if steps == [] then ""
    else if |steps| == 1 then StepLineText(steps[0])
    else StepLineText(steps[0]) + "\n" + StepLines(steps[1..])
  }

  function StepTexts(steps: seq<StepLine>): (r: seq<string>)
    ensures |r| == |steps| && forall k :: 0 <= k < |steps| ==> r[k] == steps[k].text
  {
    seq(|steps|, k requires 0 <= k < |steps| => steps[k].text)
  }

  /** A step whose number is digits only (any number, or none) and whose text is one stripped line. */
  predicate PlainStep(step: StepLine) {
    (forall j :: 0 <= j < |step.number| ==> IsDigit(step.number[j])) &&
    |step.text| >= 1 && IsStripped(step.text) && '\n' !in step.text
  }

  /** Lines of plain steps give back exactly their texts, in order, whatever their numbers. */
  lemma {:induction false} StepsOfLines(s: string, i: nat, steps: seq<StepLine>)
    requires i <= |s| && s[i..] == StepLines(steps)
    requires forall k :: 0 <= k < |steps| ==> PlainStep(steps[k])
    ensures Steps(s, i) == StepTexts(steps)
    decreases |steps|
  {
    if steps == [] {
      assert i == |s|;
    } else if |steps| == 1 {
      StepsOfLastLine(s, i, steps[0]);
    } else {
      var e := StepsOfFirstLine(s, i, steps);
      StepsOfLines(s, e + 1, steps[1..]);
      StepTextsCons(steps);
    }
  }

  lemma StepTextsCons(steps: seq<StepLine>)
    requires |steps| >= 1
    ensures StepTexts(steps) == [steps[0].text] + StepTexts(steps[1..])
  {
    assert StepTexts(steps) == [steps[0].text] + StepTexts(steps[1..]);
  }

  lemma StepsOfLastLine(s: string, i: nat, step: StepLine)
    requires i <= |s| && s[i..] == StepLineText(step) && PlainStep(step)
    ensures Steps(s, i) == [step.text]
  {
    assert s[i..] == StepLineText(step) + "";
    var e := StepsOfLine(s, i, step, "");
    assert e == |s|;
  }

  lemma StepsOfFirstLine(s: string, i: nat, steps: seq<StepLine>) returns (e: nat)
    requires |steps| >= 2 && i <= |s| && s[i..] == StepLines(steps)
    requires forall k :: 0 <= k < |steps| ==> PlainStep(steps[k])
    ensures e < |s| && s[e + 1..] == StepLines(steps[1..])
    ensures forall k :: 0 <= k < |steps[1..]| ==> PlainStep(steps[1..][k])
    ensures Steps(s, i) == [steps[0].text] + Steps(s, e + 1)
  {
    assert PlainStep(steps[0]);
    var more := StepLines(steps[1..]);
    e := StepsOfLine(s, i, steps[0], "\n" + more);
    StepsAfterNewline(s, e, more);
  }

  lemma StepsAfterNewline(s: string, e: nat, more: string)
    requires e <= |s| && s[e..] == "\n" + more
    ensures e < |s| && s[e + 1..] == more
    ensures Steps(s, e) == Steps(s, e + 1)
  {
    assert s[e] == s[e..][0];
    assert StepAt(s, e).None?;
  }

  /** A plain step's line, followed by `rest`, contributes its text and hands over to `rest`. */
  lemma StepsOfLine(s: string, i: nat, step: StepLine, rest: string) returns (e: nat)
    requires i <= |s| && s[i..] == StepLineText(step) + rest && PlainStep(step)
    requires rest == "" || rest[0] == '\n'
    ensures e <= |s| && s[e..] == rest
    ensures Steps(s, i) == [step.text] + Steps(s, e)
  {
    e := StepLineLayout(s, i, step, rest);
    assert e == |s| || s[e] == '\n' by { if e < |s| { assert s[e] == s[e..][0]; } }
    StepAtLine(s, i, step, e);
  }

  /** Where the parts of a step line fall; `e` is where it ends. */
  predicate StepShape(s: string, i: nat, step: StepLine, e: nat) {
    var d := i + 7;
    var r := d + |step.number| + 1;
    var p := r + 3;
    e == p + |step.text| && e <= |s| &&
    IsAt(s, "**Step", i) && s[i + 6] == ' ' && s[d..r - 1] == step.number && s[r - 1] == ':' &&
    s[r] == '*' && s[r + 1] == '*' && s[r + 2] == ' ' && s[p..e] == step.text
  }

  lemma StepLineLayout(s: string, i: nat, step: StepLine, rest: string) returns (e: nat)
    requires i <= |s| && s[i..] == StepLineText(step) + rest
    ensures StepShape(s, i, step, e) && s[e..] == rest
  {
    var t := s[i..];
    var r := 7 + |step.number| + 1;
    var p := r + 3;
    e := i + p + |step.text|;
    assert t[..7] == "**Step ";
    assert s[i..i + 6] == t[..6] == "**Step";
    assert t[7..r - 1] == step.number;
    assert t[r - 1..p] == ":** ";
    assert t[p..p + |step.text|] == step.text;
    assert t[p + |step.text|..] == rest;
  }

  /** A step line of a plain step matches with its text and ends where the line does. */
  lemma StepAtLine(s: string, i: nat, step: StepLine, e: nat)
    requires StepShape(s, i, step, e) && PlainStep(step) && (e == |s| || s[e] == '\n')
    ensures Steps(s, i) == [step.text] + Steps(s, e)
  {
    var d := i + 7;
    var r := d + |step.number| + 1;
    StepPrefixEnd(s, i, step, r);
    StepTextMatch(s, r, step, e);
    StripStripped(step.text);
    assert StepAt(s, i) == Some(StepMatch(step.text, e));
  }

  /** `\s*\d*[:\s]*` after `"**Step"` ends at the closing `"**"`. */
  lemma StepPrefixEnd(s: string, i: nat, step: StepLine, r: nat)
    requires r == i + 7 + |step.number| + 1 && r + 2 <= |s| && PlainStep(step)
    requires s[i + 6] == ' ' && s[i + 7..r - 1] == step.number && s[r - 1] == ':' && s[r] == '*'
    ensures ColonSpaceEnd(s, DigitsEnd(s, SkipSpaces(s, i + 6))) == r
  {
    var d := i + 7;
    assert s[d] == ':' || IsDigit(s[d]) by {
      if |step.number| > 0 { assert s[d] == step.number[0]; }
    }
    SkipSpacesTo(s, i + 6, d);
    forall j | d <= j < r - 1 ensures IsDigit(s[j]) {
      assert s[j] == step.number[j - d];
    }
    DigitsEndTo(s, d, r - 1);
    ColonSpaceEndTo(s, r - 1, r);
  }

  lemma StepTextMatch(s: string, r: nat, step: StepLine, e: nat)
    requires e == r + 3 + |step.text| && e <= |s| && PlainStep(step)
    requires s[r] == '*' && s[r + 1] == '*' && s[r + 2] == ' ' && s[r + 3..e] == step.text
    requires e == |s| || s[e] == '\n'
    ensures StepTextAt(s, r) == Some(StepMatch(step.text, e))
  {
    var p := r + 3;
    assert IsAt(s, "**", r) by { assert s[r..r + 2] == [s[r], s[r + 1]]; }
    assert s[p] == step.text[0];
    SkipSpacesTo(s, r + 2, p);
    forall j | p <= j < e ensures s[j] != '\n' {
      assert s[j] == step.text[j - p];
    }
    LineEndTo(s, p, e);
  }

  /** Adds `step_k`, `step_{k+1}`, ... for the given step texts. */
  function PutSteps(m: Record, steps: seq<string>, k: nat): (r: Record)
    ensures forall key :: key in m ==> key in r
    ensures forall i :: k <= i < k + |steps| ==> StepKey(i) in r && r[StepKey(i)] == Str(steps[i - k])
    ensures forall key :: key in r && key !in m ==> exists i :: k <= i < k + |steps| && key == StepKey(i)
    ensures forall key :: key in m && (forall i :: k <= i < k + |steps| ==> key != StepKey(i)) ==> r[key] == m[key]
    decreases |steps|
  {
    if steps == [] then m
    else
      StepKeysDiffer(k, |steps|);
      PutSteps(m[StepKey(k) := Str(steps[0])], steps[1..], k + 1)
  }

  lemma StepKeysDiffer(k: nat, n: nat)
    ensures forall i :: k + 1 <= i < k + n ==> StepKey(i) != StepKey(k)
  {
    forall i | k + 1 <= i < k + n ensures StepKey(i) != StepKey(k) {
      if StepKey(i) == StepKey(k) { StepKeyInjective(i, k); }
    }
  }

  function PutText(m: Record, key: string, v: Option<string>): Record {
    if v.Some? then m[key := Str(v.value)] else m
  }

  /** The liturgy dictionary: `entry`, `exit` when found, then `step_1`, `step_2`, ... */
  function LiturgyDict(entry: Option<string>, exit: Option<string>, steps: seq<string>): Record {
    PutSteps(PutText(PutText(map[], "entry", entry), "exit", exit), steps, 1)
  }

  /** The liturgy dictionary built from the section body. */
  function LiturgyRecord(body: string): Record {
    LiturgyDict(LineField(body, "**Entry:**"), LineField(body, "**Exit:**"), Steps(body, 0))
  }

  /** Adding the steps after `entry` and `exit` leaves those two keys as they were. */
  lemma PutStepsKeepsNamed(base: Record, steps: seq<string>)
    requires forall key :: key in base ==> key == "entry" || key == "exit"
    ensures var m := PutSteps(base, steps, 1);
      ("entry" in m <==> "entry" in base) && ("entry" in base ==> m["entry"] == base["entry"]) &&
      ("exit" in m <==> "exit" in base) && ("exit" in base ==> m["exit"] == base["exit"]) &&
      (forall key :: key in m ==> key == "entry" || key == "exit" || exists i :: 1 <= i <= |steps| && key == StepKey(i))
  {
    forall i | 1 <= i < 1 + |steps| ensures StepKey(i) != "entry" && StepKey(i) != "exit" {
      StepKeyNotNamed(i);
    }
  }

  /**
   * The liturgy dictionary holds exactly: `entry` when an entry line was
   * found, `exit` when an exit line was found, and `step_i` holding the i-th
   * step match in order of appearance, numbered from 1.
   */
  lemma LiturgyDictContents(entry: Option<string>, exit: Option<string>, steps: seq<string>)
    ensures var m := LiturgyDict(entry, exit, steps);
      ("entry" in m <==> entry.Some?) && (entry.Some? ==> m["entry"] == Str(entry.value)) &&
      ("exit" in m <==> exit.Some?) && (exit.Some? ==> m["exit"] == Str(exit.value)) &&
      (forall i :: 1 <= i <= |steps| ==> StepKey(i) in m && m[StepKey(i)] == Str(steps[i - 1])) &&
      (forall key :: key in m ==> key == "entry" || key == "exit" || exists i :: 1 <= i <= |steps| && key == StepKey(i))
  {
    PutStepsKeepsNamed(PutText(PutText(map[], "entry", entry), "exit", exit), steps);
  }

  /** The `liturgy` field: present when the dictionary is not empty. */
  function Liturgy(s: string): (r: Option<Value>)
    ensures r.Some? ==> r.value.Obj? && |r.value.fields| >= 1
  {
    match Section(s, "## 6. The Liturgy", false, NextHeading)
    case None => None
    case Some(body) =>
      var m := LiturgyRecord(body);
      if m == map[] then None else Some(Obj(m))
  }

  /** The trap dictionary: `leak`, then `result`, each when found. */
  function TrapDict(leak: Option<string>, result: Option<string>): Record {
    PutText(PutText(map[], "leak", leak), "result", result)
  }

  /** The trap dictionary holds exactly the lines found, and is empty exactly when neither was. */
  lemma TrapDictContents(leak: Option<string>, result: Option<string>)
    ensures var m := TrapDict(leak, result);
      (m == map[] <==> leak.None? && result.None?) &&
      ("leak" in m <==> leak.Some?) && (leak.Some? ==> m["leak"] == Str(leak.value)) &&
      ("result" in m <==> result.Some?) && (result.Some? ==> m["result"] == Str(result.value)) &&
      (forall key :: key in m ==> key == "leak" || key == "result")
  {
    var m := TrapDict(leak, result);
    if leak.Some? {
      assert "leak" in m;
    }
    if result.Some? {
      assert "result" in m;
    }
  }

  /** The `trap` field: leak and result lines, the section may end at the end of the file. */
  function Trap(s: string): (r: Option<Value>)
    ensures r.Some? ==> r.value.Obj? && |r.value.fields| >= 1
  {
    match Section(s, "## 7. The Trap", false, NextHeadingOrEnd)
    case None => None
    case Some(body) =>
      var m := TrapDict(LineField(body, "**The Leak:**"), LineField(body, "**The Result:**"));
      if m == map[] then None else Some(Obj(m))
  }

  /**
   * The trap section's dictionary holds exactly `leak` when a
   * `**The Leak:**` line is found in the section and `result` when a
   * `**The Result:**` line is, each holding its stripped field; the field is
   * absent when the section is missing or has neither line.
   */
  lemma TrapContents(s: string)
    ensures Section(s, "## 7. The Trap", false, NextHeadingOrEnd).None? ==> Trap(s).None?
    ensures var section := Section(s, "## 7. The Trap", false, NextHeadingOrEnd);
      section.Some? ==>
        var leak := LineField(section.value, "**The Leak:**");
        var result := LineField(section.value, "**The Result:**");
        (Trap(s).Some? <==> leak.Some? || result.Some?) &&
        (Trap(s).Some? ==> var m := Trap(s).value.fields;
          ("leak" in m <==> leak.Some?) && (leak.Some? ==> m["leak"] == Str(leak.value)) &&
          ("result" in m <==> result.Some?) && (result.Some? ==> m["result"] == Str(result.value)) &&
          (forall key :: key in m ==> key == "leak" || key == "result"))
  {
    match Section(s, "## 7. The Trap", false, NextHeadingOrEnd)
    case None =>
    case Some(body) =>
      TrapDictContents(LineField(body, "**The Leak:**"), LineField(body, "**The Result:**"));
  }

  // ---------------------------------------------------------------------
  // The room number from the file name: `room_(\d+)_`
  // ---------------------------------------------------------------------

  /** `room_(\d+)_` matches at `i`: `\d+` takes its whole run, as a shorter one leaves a digit where `_` must be. */
  predicate NumberAt(name: string, i: int) {
    IsAt(name, "room_", i) && DigitsEnd(name, i + 5) > i + 5 && IsAt(name, "_", DigitsEnd(name, i + 5))
  }

  function FirstNumberFrom(name: string, i: nat): (r: Option<nat>)
    ensures r.Some? ==> i <= r.value && NumberAt(name, r.value)
    ensures r.Some? ==> forall j :: i <= j < r.value ==> !NumberAt(name, j)
    ensures r.None? ==> forall j :: i <= j ==> !NumberAt(name, j)
    decreases |name| - i
  {
    if i + 5 > |name| then None
    else if NumberAt(name, i) then Some(i)
    else FirstNumberFrom(name, i + 1)
  }

  /** `i` is where the leftmost `room_<digits>_` starts. */
  predicate LeftmostNumberAt(name: string, i: int) {
    0 <= i <= |name| && NumberAt(name, i) && forall j :: 0 <= j < i ==> !NumberAt(name, j)
  }

  /** The digits of the `room_<digits>_` starting at `i`. */
  function NumberDigits(name: string, i: nat): (d: string)
    requires NumberAt(name, i)
    ensures |d| >= 1 && AllDigits(d) && i <= |name| && IsAt(name, "room_" + d + "_", i)
  {
    var d := name[i + 5..DigitsEnd(name, i + 5)];
    assert IsAt(name, "room_" + d + "_", i) by {
      assert name[i..i + 5] == "room_";
    }
    d
  }

  /** No position other than the one found is the leftmost number. */
  lemma FirstNumberIsFirst(name: string, i: nat)
    requires FirstNumberFrom(name, 0) == Some(i)
    ensures forall k :: LeftmostNumberAt(name, k) ==> k == i
  {
  }

  /** The digits between the leftmost `room_` and the `_` after them. */
  function RoomNumber(name: string): (r: Option<string>)
    ensures r.Some? <==> exists i :: 0 <= i <= |name| && NumberAt(name, i)
    ensures r.Some? ==> |r.value| >= 1 && AllDigits(r.value) && Contains(name, "room_" + r.value + "_")
    ensures forall i :: LeftmostNumberAt(name, i) ==> r == Some(NumberDigits(name, i))
  {
    match FirstNumberFrom(name, 0)
    case None => None
    case Some(i) =>
      FirstNumberIsFirst(name, i);
      Some(NumberDigits(name, i))
  }

  // ---------------------------------------------------------------------
  // parse_room_spec
  // ---------------------------------------------------------------------

  /** The keys `parse_room_spec` can set, in the order it sets them. */
  const SpecKeys: seq<string> := [
    "number", "archetype", "physics_description", "equation", "input_logic", "output_logic",
    "evocative_quote", "evocative_description", "constraints", "altar", "liturgy", "trap"
  ]

  function TextValue(v: Option<string>): Option<Value> {
    if v.Some? then Some(Str(v.value)) else None
  }

  /** What each extractor found, in the order of `SpecKeys`. */
  function FieldValues(name: string, s: string): (r: seq<Option<Value>>)
    ensures |r| == |SpecKeys|
  {
    [ TextValue(RoomNumber(name)),
      TextValue(LineField(s, "**Archetype:**")),
      TextValue(Physics(s)),
      TextValue(Equation(s)),
      TextValue(LineField(s, "**Input Logic:**")),
      TextValue(LineField(s, "**Output Logic:**")),
      TextValue(Quote(s)),
      TextValue(Description(s)),
      ItemList(s, "## 4. The Architecture"),
      ItemList(s, "## 5. The Altar"),
      Liturgy(s),
      Trap(s) ]
  }

  /** Each key with its value, or None where the script leaves the key out. */
  function Fields(name: string, s: string): (r: seq<(string, Option<Value>)>)
    ensures |r| == |SpecKeys| && forall k :: 0 <= k < |r| ==> r[k].0 == SpecKeys[k]
  {
    var values := FieldValues(name, s);
    seq(|SpecKeys|, k requires 0 <= k < |SpecKeys| => (SpecKeys[k], values[k]))
  }

  /** No key is set twice. */
  lemma SpecKeysDistinct()
    ensures forall i, j :: 0 <= i < j < |SpecKeys| ==> SpecKeys[i] != SpecKeys[j]
  {
    forall i, j | 0 <= i < j < |SpecKeys|
      ensures SpecKeys[i] != SpecKeys[j]
    {
      assert SpecKeys[i][0] != SpecKeys[j][0] || |SpecKeys[i]| != |SpecKeys[j]|;
    }
  }

  /** The dictionary holding the present fields of a list of distinct keys. */
  function Collect(fields: seq<(string, Option<Value>)>): (r: Record)
    ensures forall key :: key in r ==> exists k :: 0 <= k < |fields| && fields[k].0 == key
  {
    if fields == [] then map[]
    else
      var m := Collect(fields[..|fields| - 1]);
      var last := fields[|fields| - 1];
      if last.1.Some? then m[last.0 := last.1.value] else m
  }

  predicate DistinctKeys(fields: seq<(string, Option<Value>)>) {
    forall i, j :: 0 <= i < j < |fields| ==> fields[i].0 != fields[j].0
  }

  lemma {:induction false} CollectField(fields: seq<(string, Option<Value>)>, k: nat)
    requires DistinctKeys(fields) && k < |fields|
    ensures fields[k].0 in Collect(fields) <==> fields[k].1.Some?
    ensures fields[k].1.Some? ==> Collect(fields)[fields[k].0] == fields[k].1.value
    decreases |fields|
  {
    var front := fields[..|fields| - 1];
    if k < |fields| - 1 {
      CollectField(front, k);
      assert fields[k].0 != fields[|fields| - 1].0;
    }
  }

  /** `parse_room_spec(path)` for a file named `name` with text `s`. */
  function ParseRoomSpec(name: string, s: string): (r: Record)
    ensures forall key :: key in r ==> key in SpecKeys
  {
    var fs := Fields(name, s);
    var r := Collect(fs);
    forall key | key in r ensures key in SpecKeys {
      var k :| 0 <= k < |fs| && fs[k].0 == key;
      assert SpecKeys[k] == key;
    }
    r
  }

  /** Every key is present exactly when its extractor found something, with that value. */
  lemma ParseRoomSpecField(name: string, s: string, k: nat)
    requires k < |SpecKeys|
    ensures var r := ParseRoomSpec(name, s); var f := Fields(name, s)[k];
      (SpecKeys[k] in r <==> f.1.Some?) && (f.1.Some? ==> r[SpecKeys[k]] == f.1.value)
  {
    var fs := Fields(name, s);
    SpecKeysDistinct();
    assert DistinctKeys(fs);
    CollectField(fs, k);
  }

  /** A file whose name has no `room_<digits>_` yields a dictionary without `number`. */
  lemma NumberKeyFromName(name: string, s: string)
    ensures "number" in ParseRoomSpec(name, s) <==> RoomNumber(name).Some?
    ensures "number" in ParseRoomSpec(name, s) ==> ParseRoomSpec(name, s)["number"] == Str(RoomNumber(name).value)
  {
    ParseRoomSpecField(name, s, 0);
  }
}
