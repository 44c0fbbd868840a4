/**
 * Text and number helpers shared by the whole model: an Option type, the
 * whitespace classes of Python and Swift, Python's `str.strip`, Swift's
 * `trimmingCharacters(in: .whitespaces)`, decimal rendering as Swift's and
 * JavaScript's string interpolation produce it, truncating integer division
 * (Swift `/` and `%`), substring search, ASCII lower-casing, join and split.
 */
module Text {

  datatype Option<T> = None | Some(value: T) {
    function GetOr(default: T): T {
      match this
      case Some(v) => v
      case None => default
    }
  }

  datatype Result<T, E> = Ok(value: T) | Err(error: E)

  // ---------------------------------------------------------------------
  // Character classes
  // ---------------------------------------------------------------------

  /** Python's `str.isspace`, which is what `\s` and `strip()` use on `str`. */
  predicate IsSpace(c: char) {
    ('\t' <= c <= '\r') || ('\U{1C}' <= c <= '\U{1F}') || c == ' ' || c == '\U{85}' ||
    c == '\U{A0}' || c == '\U{1680}' || ('\U{2000}' <= c <= '\U{200A}') || c == '\U{2028}' ||
    c == '\U{2029}' || c == '\U{202F}' || c == '\U{205F}' || c == '\U{3000}'
  }

  /** Swift's `CharacterSet.whitespaces`: horizontal tab and the space separators. */
  predicate IsBlank(c: char) {
    c == '\t' || c == ' ' || c == '\U{A0}' || c == '\U{1680}' || ('\U{2000}' <= c <= '\U{200A}') ||
    c == '\U{202F}' || c == '\U{205F}' || c == '\U{3000}'
  }

  predicate IsDigit(c: char) {
    '0' <= c <= '9'
  }

  predicate AllSpace(s: string) {
    forall k :: 0 <= k < |s| ==> IsSpace(s[k])
  }

  // ---------------------------------------------------------------------
  // Python str.strip()
  // ---------------------------------------------------------------------

  /** First index at or after `i` that does not hold whitespace. */
  function SkipSpaces(s: string, i: nat): (k: nat)
    requires i <= |s|
    ensures i <= k <= |s|
    ensures forall j :: i <= j < k ==> IsSpace(s[j])
    ensures k < |s| ==> !IsSpace(s[k])
    decreases |s| - i
  {
    if i == |s| || !IsSpace(s[i]) then i else SkipSpaces(s, i + 1)
  }

  /** Largest `k <= j` such that everything in `s[k..j]` is whitespace. */
  function TrailEnd(s: string, j: nat): (k: nat)
    requires j <= |s|
    ensures k <= j
    ensures forall m :: k <= m < j ==> IsSpace(s[m])
    ensures k > 0 ==> !IsSpace(s[k - 1])
  {
    if j == 0 || !IsSpace(s[j - 1]) then j else TrailEnd(s, j - 1)
  }

  /** `SkipSpaces` stops at the first character after a whitespace run that is not whitespace. */
  lemma {:induction false} SkipSpacesTo(s: string, i: nat, k: nat)
    requires i <= k <= |s|
    requires forall j :: i <= j < k ==> IsSpace(s[j])
    requires k == |s| || !IsSpace(s[k])
    ensures SkipSpaces(s, i) == k
    decreases k - i
  {
    if i < k {
      SkipSpacesTo(s, i + 1, k);
    }
  }

  predicate IsStripped(r: string) {
    |r| > 0 ==> !IsSpace(r[0]) && !IsSpace(r[|r| - 1])
  }

  /** `r` is `s` with a whitespace-only prefix of length `i` and a whitespace-only suffix removed. */
  predicate StripsTo(s: string, r: string, i: nat) {
    i + |r| <= |s| && s[i..i + |r|] == r &&
    (forall k :: 0 <= k < i ==> IsSpace(s[k])) &&
    (forall k :: i + |r| <= k < |s| ==> IsSpace(s[k]))
  }

  /** Python's `s.strip()`. */
  function Strip(s: string): (r: string)
    ensures IsStripped(r)
    ensures StripsTo(s, r, SkipSpaces(s, 0))
  {
    var a := SkipSpaces(s, 0);
    var b := TrailEnd(s, |s|);
    if a <= b then s[a..b] else []
  }

  lemma StripNoChar(s: string, c: char)
    requires c !in s
    ensures c !in Strip(s)
  {
  }

  /** Python's `s.replace('\n', ' ')`. */
  function ReplaceNewlines(s: string): (r: string)
    ensures |r| == |s| && '\n' !in r
    ensures forall k :: 0 <= k < |s| && s[k] != '\n' ==> r[k] == s[k]
  {
    seq(|s|, k requires 0 <= k < |s| => if s[k] == '\n' then ' ' else s[k])
  }

  /** Replacing the newlines of a stripped string keeps it stripped: its ends are not newlines. */
  lemma ReplaceNewlinesStripped(s: string)
    requires IsStripped(s)
    ensures IsStripped(ReplaceNewlines(s))
  {
    if |s| > 0 {
      assert s[0] != '\n' && s[|s| - 1] != '\n';
    }
  }

  /** Stripping a string that is already stripped changes nothing. */
  lemma StripStripped(s: string)
    requires IsStripped(s)
    ensures Strip(s) == s
  {
    if |s| > 0 {
      assert SkipSpaces(s, 0) == 0;
      assert TrailEnd(s, |s|) == |s|;
    }
  }

  /** `strip()` is the only stripped string that `s` reduces to by dropping whitespace at both ends. */
  lemma StripCharacterised(s: string, r: string, i: nat)
    requires StripsTo(s, r, i) && IsStripped(r)
    ensures Strip(s) == r
  {
    var a := SkipSpaces(s, 0);
    var b := TrailEnd(s, |s|);
    if r == [] {
      assert forall k :: 0 <= k < |s| ==> IsSpace(s[k]) by {
        forall k | 0 <= k < |s| ensures IsSpace(s[k]) {
          if k >= i { assert i + |r| <= k; }
        }
      }
      assert a == |s|;
    } else {
      assert s[i] == r[0];
      assert s[i + |r| - 1] == r[|r| - 1];
      assert a == i;
      assert b == i + |r|;
    }
  }

  /** Whitespace in front of a string does not change what `strip()` returns. */
  lemma StripSkipsLeadingSpace(s: string, i: nat)
    requires i <= |s|
    requires forall k :: 0 <= k < i ==> IsSpace(s[k])
    ensures Strip(s[i..]) == Strip(s)
  {
    var r := Strip(s);
    var a := SkipSpaces(s, 0);
    if r == [] {
      assert StripsTo(s[i..], r, 0);
    } else {
      assert a >= i;
      assert s[i..][a - i..a - i + |r|] == s[a..a + |r|];
      assert StripsTo(s[i..], r, a - i);
    }
    StripCharacterised(s[i..], r, if r == [] then 0 else a - i);
  }

  // ---------------------------------------------------------------------
  // Swift trimmingCharacters(in: .whitespaces)
  // ---------------------------------------------------------------------

  function SkipBlanks(s: string, i: nat): (k: nat)
    requires i <= |s|
    ensures i <= k <= |s|
    ensures forall j :: i <= j < k ==> IsBlank(s[j])
    ensures k < |s| ==> !IsBlank(s[k])
    decreases |s| - i
  {
    if i == |s| || !IsBlank(s[i]) then i else SkipBlanks(s, i + 1)
  }

  function TrailBlankEnd(s: string, j: nat): (k: nat)
    requires j <= |s|
    ensures k <= j
    ensures forall m :: k <= m < j ==> IsBlank(s[m])
    ensures k > 0 ==> !IsBlank(s[k - 1])
  {
    if j == 0 || !IsBlank(s[j - 1]) then j else TrailBlankEnd(s, j - 1)
  }

  predicate IsTrimmed(r: string) {
    |r| > 0 ==> !IsBlank(r[0]) && !IsBlank(r[|r| - 1])
  }

  /** Swift's `s.trimmingCharacters(in: .whitespaces)`. */
  function Trim(s: string): (r: string)
    ensures IsTrimmed(r)
    ensures |r| <= |s|
    ensures IsTrimmed(s) ==> r == s
    ensures (forall k :: 0 <= k < |s| ==> IsBlank(s[k])) ==> r == []
  {
    var a := SkipBlanks(s, 0);
    var b := TrailBlankEnd(s, |s|);
    if a <= b then s[a..b] else []
  }

  // ---------------------------------------------------------------------
  // Decimal rendering
  // ---------------------------------------------------------------------

  function DigitChar(d: nat): (c: char)
    requires d < 10
    ensures IsDigit(c) && c as int - '0' as int == d
  {
    ('0' as int + d) as char
  }

  function DigitValue(c: char): (d: nat)
    requires IsDigit(c)
    ensures d < 10 && DigitChar(d) == c
  {
    c as int - '0' as int
  }

  predicate AllDigits(s: string) {
    forall k :: 0 <= k < |s| ==> IsDigit(s[k])
  }

  /** Decimal rendering of a natural number, as `"\(n)"` and `n.toString()` give it. */
  function NatToString(n: nat): (r: string)
    ensures |r| >= 1 && AllDigits(r)
    ensures n >= 10 ==> |r| >= 2
    decreases n
  {
    if n < 10 then [DigitChar(n)] else NatToString(n / 10) + [DigitChar(n % 10)]
  }

  /** Reads a run of decimal digits back into the number it denotes. */
  function ParseDigits(s: string): (n: nat)
    requires AllDigits(s)
  {
    if s == [] then 0 else ParseDigits(s[..|s| - 1]) * 10 + DigitValue(s[|s| - 1])
  }

  /** Rendering then reading a natural number gives it back. */
  lemma {:induction false} ParseNatToString(n: nat)
    ensures ParseDigits(NatToString(n)) == n
    decreases n
  {
    var r := NatToString(n);
    if n >= 10 {
      var front := NatToString(n / 10);
      assert r[..|r| - 1] == front;
      ParseNatToString(n / 10);
    }
  }

  /** Distinct numbers render to distinct strings. */
  lemma NatToStringInjective(a: nat, b: nat)
    requires NatToString(a) == NatToString(b)
    ensures a == b
  {
    ParseNatToString(a);
    ParseNatToString(b);
  }

  /** Decimal rendering of an integer with a leading minus sign when negative. */
  function IntToString(i: int): (r: string)
    ensures |r| >= 1
    ensures i >= 0 ==> r == NatToString(i)
    ensures i < 0 ==> r == "-" + NatToString(-i)
  {
    if i < 0 then "-" + NatToString(-i) else NatToString(i)
  }

  /** `String(format: "%02d", n)`: at least two characters, zero-padded when non-negative. */
  function Pad2(n: int): string
  {
    if 0 <= n < 10 then ['0', DigitChar(n)] else IntToString(n)
  }

  lemma Pad2Value(n: int)
    requires 0 <= n < 100
    ensures |Pad2(n)| == 2 && AllDigits(Pad2(n)) && ParseDigits(Pad2(n)) == n
  {
    if n >= 10 {
      ParseNatToString(n);
      assert NatToString(n) == NatToString(n / 10) + [DigitChar(n % 10)];
    } else {
      var r := Pad2(n);
      assert r[..1] == "0";
      assert ParseDigits("0") == 0 by { assert "0"[..0] == []; }
    }
  }

  // ---------------------------------------------------------------------
  // Truncating integer division (Swift, C, JavaScript `Math.trunc`)
  // ---------------------------------------------------------------------

  function TruncDiv(a: int, b: int): (q: int)
    requires b > 0
    ensures a >= 0 ==> q == a / b
    ensures a < 0 ==> q == -((-a) / b)
  {
    if a >= 0 then a / b else -((-a) / b)
  }

  function TruncMod(a: int, b: int): (r: int)
    requires b > 0
    ensures a >= 0 ==> r == a % b
    ensures a < 0 ==> r == -((-a) % b)
    ensures -b < r < b
  {
    if a >= 0 then a % b else -((-a) % b)
  }

  // ---------------------------------------------------------------------
  // Substrings
  // ---------------------------------------------------------------------

  predicate IsAt(s: string, pat: string, i: int) {
    0 <= i && i + |pat| <= |s| && s[i..i + |pat|] == pat
  }

  predicate Contains(s: string, pat: string) {
    exists i :: 0 <= i <= |s| && IsAt(s, pat, i)
  }

  predicate IsPrefix(pat: string, s: string) {
    IsAt(s, pat, 0)
  }

  predicate IsSuffix(pat: string, s: string) {
    IsAt(s, pat, |s| - |pat|)
  }

  lemma TakeOneMore<T>(s: seq<T>, i: nat)
    requires i < |s|
    ensures s[..i + 1] == s[..i] + [s[i]]
  {
  }

  /** A text made of three parts starts with the first, ends with the last and holds the middle between them. */
  lemma ThreeParts(a: string, b: string, c: string)
    ensures IsPrefix(a, a + b + c) && IsSuffix(c, a + b + c)
    ensures (a + b + c)[|a|..|a + b + c| - |c|] == b
  {
    var t := a + b + c;
    assert t[..|a|] == a;
    assert t[|a| + |b|..] == c;
    assert t[|a|..|t| - |c|] == b;
  }

  lemma PrefixOfPrefix(a: string, b: string, s: string)
    requires IsPrefix(a + b, s)
    ensures IsPrefix(a, s)
  {
    assert s[..|a|] == s[..|a + b|][..|a|];
    assert (a + b)[..|a|] == a;
  }

  lemma SuffixOfConcat(a: string, b: string)
    ensures IsSuffix(b, a + b)
  {
    assert (a + b)[|a|..] == b;
  }

  /** First occurrence of `pat` in `s` at or after `from`. */
  function FindFrom(s: string, pat: string, from: nat): (r: Option<nat>)
    ensures r.Some? ==> from <= r.value && IsAt(s, pat, r.value)
    ensures r.Some? ==> forall j :: from <= j < r.value ==> !IsAt(s, pat, j)
    ensures r.None? ==> forall j :: from <= j ==> !IsAt(s, pat, j)
    decreases |s| - from
  {
    if from + |pat| > |s| then None
    else if s[from..from + |pat|] == pat then Some(from)
    else FindFrom(s, pat, from + 1)
  }

  /** A pattern whose first character does not recur in it is not found in `head + pat + tail` before `pat` itself. */
  lemma NoMatchBefore(head: string, pat: string, tail: string)
    requires |pat| > 0 && !Contains(head, pat) && forall d :: 0 < d < |pat| ==> pat[d] != pat[0]
    ensures forall j :: 0 <= j < |head| ==> !IsAt(head + pat + tail, pat, j)
  {
    var title := head + pat + tail;
    var at := |head|;
    assert title[at] == pat[0];
    forall j | 0 <= j < at
      ensures !IsAt(title, pat, j)
    {
      if j + |pat| <= at {
        assert head[j..j + |pat|] == title[j..j + |pat|];
        assert !IsAt(head, pat, j);
      } else if IsAt(title, pat, j) {
        IsAtChar(title, pat, j, at - j);
      }
    }
  }

  /** Nothing after `pat` in `head + pat + tail` is `pat` when `tail` does not contain it. */
  lemma NoMatchAfter(head: string, pat: string, tail: string)
    requires !Contains(tail, pat)
    ensures forall j :: |head| + |pat| <= j ==> !IsAt(head + pat + tail, pat, j)
  {
    var title := head + pat + tail;
    var start := |head| + |pat|;
    forall j | start <= j
      ensures !IsAt(title, pat, j)
    {
      if IsAt(title, pat, j) {
        assert tail[j - start..j - start + |pat|] == title[j..j + |pat|];
        assert IsAt(tail, pat, j - start);
      }
    }
  }

  lemma IsAtChar(s: string, pat: string, i: nat, d: nat)
    requires IsAt(s, pat, i) && d < |pat|
    ensures s[i + d] == pat[d]
  {
    assert s[i..i + |pat|][d] == s[i + d];
  }

  /** `i` is the first occurrence of `pat` at or after `from`. */
  predicate FirstAt(s: string, pat: string, from: int, i: int) {
    from <= i && IsAt(s, pat, i) && forall j :: from <= j < i ==> !IsAt(s, pat, j)
  }

  lemma FindFromFirst(s: string, pat: string, from: nat, at: nat)
    requires from <= at && IsAt(s, pat, at)
    requires forall j :: from <= j < at ==> !IsAt(s, pat, j)
    ensures FindFrom(s, pat, from) == Some(at)
    decreases at - from
  {
    if from < at {
      FindFromFirst(s, pat, from + 1, at);
    }
  }

  /** The search finds exactly the first occurrence. */
  lemma FindFromIsFirst(s: string, pat: string, from: nat)
    ensures forall i :: FirstAt(s, pat, from, i) <==> FindFrom(s, pat, from) == Some(i)
  {
    forall i | FirstAt(s, pat, from, i) ensures FindFrom(s, pat, from) == Some(i) {
      FindFromFirst(s, pat, from, i);
    }
  }

  /** A pattern is found where it occurs when its first character does not occur earlier. */
  lemma FindFromFirstChar(s: string, pat: string, from: nat, at: nat)
    requires |pat| >= 1 && from <= at && IsAt(s, pat, at)
    requires forall j :: from <= j < at ==> s[j] != pat[0]
    ensures FindFrom(s, pat, from) == Some(at)
  {
    forall j | from <= j < at ensures !IsAt(s, pat, j) {
      if IsAt(s, pat, j) { IsAtChar(s, pat, j, 0); }
    }
    FindFromFirst(s, pat, from, at);
  }

  lemma FindFromNone(s: string, pat: string, from: nat)
    requires forall j :: from <= j ==> !IsAt(s, pat, j)
    ensures FindFrom(s, pat, from).None?
    decreases |s| - from
  {
    if from + |pat| <= |s| {
      assert !IsAt(s, pat, from);
      FindFromNone(s, pat, from + 1);
    }
  }

  lemma FindFromContains(s: string, pat: string)
    ensures FindFrom(s, pat, 0).Some? <==> Contains(s, pat)
  {
    if Contains(s, pat) {
      var i :| 0 <= i <= |s| && IsAt(s, pat, i);
    }
  }

  /** A text that never has the pattern's first character does not contain the pattern. */
  lemma MissingFirstChar(s: string, pat: string)
    requires |pat| > 0 && forall k :: 0 <= k < |s| ==> s[k] != pat[0]
    ensures !Contains(s, pat)
  {
    forall i | 0 <= i <= |s|
      ensures !IsAt(s, pat, i)
    {
      if i + |pat| <= |s| {
        assert s[i..i + |pat|][0] == s[i];
      }
    }
  }

  /** A pattern that starts on a character not found elsewhere in it is first found right after a text free of it. */
  lemma FirstAfter(s: string, pat: string, o: nat, head: string)
    requires |pat| > 0 && forall d :: 0 < d < |pat| ==> pat[d] != pat[0]
    requires o + |head| + |pat| <= |s| && s[o..o + |head| + |pat|] == head + pat
    requires !Contains(head, pat)
    ensures FindFrom(s, pat, o) == Some(o + |head|)
  {
    var at := o + |head|;
    var t := head + pat;
    assert s[at..at + |pat|] == t[|head|..];
    assert s[at] == pat[0] by { assert s[at] == t[|head|]; }
    assert s[o..at] == t[..|head|] == head;
    forall j | o <= j < at
      ensures !IsAt(s, pat, j)
    {
      if j + |pat| <= at {
        var u := s[o..at];
        var v, w := s[j..j + |pat|], u[j - o..j - o + |pat|];
        forall k | 0 <= k < |pat| ensures v[k] == w[k] {
          assert u[j - o + k] == s[j + k];
        }
        assert v == w;
        assert !IsAt(head, pat, j - o);
      } else if IsAt(s, pat, j) {
        IsAtChar(s, pat, j, at - j);
      }
    }
    FindFromFirst(s, pat, o, at);
  }

  /** What the tail of a text contains, the text contains. */
  lemma ContainsOfTail(s: string, pat: string)
    requires |s| > 0 && Contains(s[1..], pat)
    ensures Contains(s, pat)
  {
    var i :| 0 <= i <= |s[1..]| && IsAt(s[1..], pat, i);
    assert s[i + 1..i + 1 + |pat|] == s[1..][i..i + |pat|];
    assert IsAt(s, pat, i + 1);
  }

  /** ASCII lower-casing (the model's stand-in for Swift's Unicode `lowercased()`). */
  function ToLower(s: string): (r: string)
    ensures |r| == |s|
    ensures forall k :: 0 <= k < |s| && !('A' <= s[k] <= 'Z') ==> r[k] == s[k]
  {
    seq(|s|, k requires 0 <= k < |s| => if 'A' <= s[k] <= 'Z' then (s[k] as int + 32) as char else s[k])
  }

  /** ASCII case-insensitive containment (`localizedCaseInsensitiveContains`). */
  predicate ContainsIgnoringCase(s: string, pat: string) {
    Contains(ToLower(s), ToLower(pat))
  }

  // ---------------------------------------------------------------------
  // Sequences of strings
  // ---------------------------------------------------------------------

  /** `parts.joined(separator: sep)` / `parts.join(sep)`. */
  function Join(parts: seq<string>, sep: string): (r: string)
    ensures |parts| == 1 ==> r == parts[0]
    ensures |parts| == 0 ==> r == ""
  {
    if |parts| == 0 then ""
    else if |parts| == 1 then parts[0]
    else parts[0] + sep + Join(parts[1..], sep)
  }

  /** The last `n` elements (Swift `suffix(n)`). */
  function Suffix<T(==)>(s: seq<T>, n: nat): (r: seq<T>)
    ensures |r| == if |s| <= n then |s| else n
    ensures IsSuffixOf(r, s)
  {
    if |s| <= n then s else s[|s| - n..]
  }

  predicate IsSuffixOf<T(==)>(r: seq<T>, s: seq<T>) {
    |r| <= |s| && s[|s| - |r|..] == r
  }

  /** The first `n` elements (Swift `prefix(n)`). */
  function Prefix<T>(s: seq<T>, n: nat): (r: seq<T>)
    ensures |r| == if |s| <= n then |s| else n
    ensures r == s[..|r|]
  {
    if |s| <= n then s else s[..n]
  }

  /** `""` becomes `nil`, anything else is kept: the views' `x.isEmpty ? nil : x`. */
  function NonEmptyOrNone(s: string): (r: Option<string>)
    ensures r.None? <==> s == ""
    ensures r.Some? ==> r.value == s
  {
    if s == "" then None else Some(s)
  }
}
