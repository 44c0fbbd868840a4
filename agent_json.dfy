/**
 * `extractJSON(from:)`, which `EngineerService.swift`,
 * `StrategistService.swift` and `RoomGuideService.swift` each declare with
 * the same body: the text from the first '{' to the last '}', both
 * included.
 *
 * When the last '}' comes before the first '{' the Swift range
 * `start...end` is malformed and the app traps; callers must rule that out,
 * so it is a precondition here.
 */
module AgentJson {
  import opened Text

  /** `firstIndex(of:)`. */
  function FirstIndex(s: string, c: char): (r: Option<nat>)
    ensures r.None? <==> c !in s
    ensures r.Some? ==> r.value < |s| && s[r.value] == c && c !in s[..r.value]
  {
    if |s| == 0 then None
    else if s[0] == c then Some(0)
    else match FirstIndex(s[1..], c)
      case Some(i) => assert s[..i + 1] == [s[0]] + s[1..][..i]; Some(i + 1)
      case None => None
  }

  /** `lastIndex(of:)`. */
  function LastIndex(s: string, c: char): (r: Option<nat>)
    ensures r.None? <==> c !in s
    ensures r.Some? ==> r.value < |s| && s[r.value] == c && c !in s[r.value + 1..]
  {
    if |s| == 0 then None
    else if s[|s| - 1] == c then Some(|s| - 1)
    else match LastIndex(s[..|s| - 1], c)
      case Some(i) => assert s[i + 1..] == s[..|s| - 1][i + 1..] + [s[|s| - 1]]; Some(i)
      case None => None
  }

  /** `part` occurs in `text` starting at index `i`. */
  predicate SliceAt(text: string, part: string, i: int) {
    0 <= i <= |text| - |part| && text[i..i + |part|] == part
  }

  /** The text does not make `text[start...end]` trap. */
  predicate Extractable(text: string) {
    FirstIndex(text, '{').Some? && LastIndex(text, '}').Some? ==>
      FirstIndex(text, '{').value <= LastIndex(text, '}').value
  }

  /**
   * `extractJSON`: nil when either brace is missing; otherwise the slice
   * that starts at the first '{' and ends at the last '}'.
   */
  function ExtractJson(text: string): (r: Option<string>)
    requires Extractable(text)
    ensures r.None? <==> '{' !in text || '}' !in text
    ensures r.Some? ==> |r.value| > 0 && r.value[0] == '{' && r.value[|r.value| - 1] == '}'
    ensures r.Some? ==> exists i :: SliceAt(text, r.value, i) && '{' !in text[..i] && '}' !in text[i + |r.value|..]
  {
    match (FirstIndex(text, '{'), LastIndex(text, '}'))
    case (Some(start), Some(end)) => Some(text[start..end + 1])
    case _ => None
  }

  /**
   * Wrapping a JSON object in prose free of braces and extracting it gives
   * the object back.
   */
  lemma ExtractFromProse(before: string, json: string, after: string)
    requires '{' !in before && '}' !in before && '{' !in after && '}' !in after
    requires |json| > 0 && json[0] == '{' && json[|json| - 1] == '}'
    ensures Extractable(before + json + after)
    ensures ExtractJson(before + json + after) == Some(json)
  {
    var text := before + json + after;
    var start := |before|;
    var end := |before| + |json| - 1;
    assert text[start] == '{';
    assert text[..start] == before;
    FirstIndexIs(text, '{', start);
    assert text[end] == '}';
    assert text[end + 1..] == after;
    LastIndexIs(text, '}', end);
    assert text[start..end + 1] == json;
  }

  lemma FirstIndexIs(s: string, c: char, i: nat)
    requires i < |s| && s[i] == c && c !in s[..i]
    ensures FirstIndex(s, c) == Some(i)
  {
  }

  lemma LastIndexIs(s: string, c: char, i: nat)
    requires i < |s| && s[i] == c && c !in s[i + 1..]
    ensures LastIndex(s, c) == Some(i)
  {
  }
}
