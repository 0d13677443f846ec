/** Severity classification of chains/triage_chain.py: the resilient JSON extraction
    (_extract_json) and the required-key fill of classify_severity. */
module TriageChain {
  import opened Values
  import opened Text

  /** The five keys every verdict carries once classify_severity returns. */
  const VerdictKeys: seq<string> := ["severity_level", "rationale", "recommended_action", "red_flags_triggered", "care_instructions"]

  const FallbackRationale := "Could not parse LLM JSON response."

  /** s starts with "```json", the letters matched without regard to case. */
  predicate StartsWithJsonFence(s: string) {
    && |s| >= 7 && s[0] == s[1] == s[2] == '`'
    && LowerChar(s[3]) == 'j' && LowerChar(s[4]) == 's' && LowerChar(s[5]) == 'o' && LowerChar(s[6]) == 'n'
  }

  predicate StartsWithFence(s: string) {
    |s| >= 3 && s[0] == s[1] == s[2] == '`'
  }

  /** re.sub(r"```json|```", "", s, flags=re.IGNORECASE): scanning left to right,
      drop every "```json" (tried first) and every "```". */
  function RemoveFences(s: string): (r: string)
    ensures |r| <= |s|
    decreases |s|
  {
    if StartsWithJsonFence(s) then RemoveFences(s[7..])
    else if StartsWithFence(s) then RemoveFences(s[3..])
    else if s == [] then []
    else [s[0]] + RemoveFences(s[1..])
  }

  /** The text _extract_json searches: stripped, then without code fences. */
  function Cleaned(text: string): (r: string)
    ensures |r| <= |text|
    ensures !Contains(r, "```")
  {
    NoFenceLeft(Strip(text));
    RemoveFences(Strip(text))
  }

  /** Right after a backtick that RemoveFences keeps, no two backticks follow in its
      output. */
  lemma AfterKeptBacktick(s: string)
    requires |s| > 0 && s[0] == '`' && !StartsWithFence(s)
    ensures var rest := RemoveFences(s[1..]); !(|rest| >= 2 && rest[0] == '`' && rest[1] == '`')
  {
    var t := s[1..];
    if t != [] && t[0] == '`' {
      assert |t| < 2 || t[1] != '`';
      assert !StartsWithFence(t) && !StartsWithJsonFence(t);
      assert RemoveFences(t) == [t[0]] + RemoveFences(t[1..]);
      if |t| >= 2 {
        assert !StartsWithFence(t[1..]) && !StartsWithJsonFence(t[1..]);
        assert RemoveFences(t[1..]) == [t[1]] + RemoveFences(t[2..]);
      }
    } else if t != [] {
      assert !StartsWithFence(t) && !StartsWithJsonFence(t);
      assert RemoveFences(t) == [t[0]] + RemoveFences(t[1..]);
    }
  }

  /** Cleaning leaves no "```" behind: every fence is removed, including any that a
      removal could have put together. */
  lemma {:induction false} NoFenceLeft(s: string)
    ensures !Contains(RemoveFences(s), "```")
    decreases |s|
  {
    if StartsWithJsonFence(s) {
      NoFenceLeft(s[7..]);
    } else if StartsWithFence(s) {
      NoFenceLeft(s[3..]);
    } else if s != [] {
      var rest := RemoveFences(s[1..]);
      var r := [s[0]] + rest;
      assert RemoveFences(s) == r;
      NoFenceLeft(s[1..]);
      if s[0] == '`' {
        AfterKeptBacktick(s);
      }
      forall i | 0 <= i <= |r| ensures !("```" <= r[i..]) {
        if i > 0 {
          assert r[i..] == rest[i - 1..];
        } else if |r| >= 3 {
          assert r[i..] == r && r[0] == s[0] && r[1] == rest[0] && r[2] == rest[1];
        }
      }
    }
  }

  /** Text without backticks passes through cleaning unchanged. */
  lemma {:induction false} RemoveFencesPlain(x: string, y: string)
    requires '`' !in x
    ensures RemoveFences(x + y) == x + RemoveFences(y)
    decreases |x|
  {
    if x != [] {
      assert (x + y)[0] == x[0] && (x + y)[1..] == x[1..] + y;
      RemoveFencesPlain(x[1..], y);
      assert x == [x[0]] + x[1..];
    } else {
      assert x + y == y;
    }
  }

  /** Every character of the cleaned text comes from the input. */
  lemma {:induction false} RemoveFencesChars(s: string, c: char)
    requires c !in s
    ensures c !in RemoveFences(s)
    decreases |s|
  {
    if StartsWithJsonFence(s) {
      RemoveFencesChars(s[7..], c);
    } else if StartsWithFence(s) {
      RemoveFencesChars(s[3..], c);
    } else if s != [] {
      RemoveFencesChars(s[1..], c);
    }
  }

  /** The first index of c in s, if any. */
  function FirstIndex(s: string, c: char): (r: Option<nat>)
    ensures r.None? ==> forall k | 0 <= k < |s| :: s[k] != c
    ensures r.Some? ==> r.value < |s| && s[r.value] == c && forall k | 0 <= k < r.value :: s[k] != c
    decreases |s|
  {
    if s == [] then None
    else if s[0] == c then Some(0)
    else match FirstIndex(s[1..], c)
      case Some(i) => Some(i + 1)
      case None => None
  }

  /** The last index of c in s, if any. */
  function LastIndex(s: string, c: char): (r: Option<nat>)
    ensures r.None? ==> forall k | 0 <= k < |s| :: s[k] != c
    ensures r.Some? ==> r.value < |s| && s[r.value] == c && forall k | r.value < k < |s| :: s[k] != c
    decreases |s|
  {
    if s == [] then None
    else if s[|s| - 1] == c then Some(|s| - 1)
    else LastIndex(s[..|s| - 1], c)
  }

  /** Where re.search(r"\{[\s\S]*\}", s) matches: from the first "{" to the last "}",
      when some "}" follows some "{". */
  function SpanBounds(s: string): (r: Option<(nat, nat)>)
    ensures r.None? <==> forall i, j | 0 <= i < j < |s| && s[i] == '{' :: s[j] != '}'
    ensures r.Some? ==>
      var (i, j) := r.value;
      && i < j < |s| && s[i] == '{' && s[j] == '}'
      && (forall k | 0 <= k < i :: s[k] != '{')
      && (forall k | j < k < |s| :: s[k] != '}')
  {
    match (FirstIndex(s, '{'), LastIndex(s, '}'))
    case (Some(i), Some(j)) => if i < j then Some((i, j)) else None
    case _ => None
  }

  /** The matched text, if the search matched. */
  function BraceSpan(s: string): (r: Option<string>)
    ensures r.None? <==> SpanBounds(s).None?
    ensures r.Some? ==> |r.value| >= 2 && r.value[0] == '{' && r.value[|r.value| - 1] == '}'
  {
    match SpanBounds(s)
    case Some((i, j)) => Some(s[i..j + 1])
    case None => None
  }

  /** A brace-delimited object, with no "{" before it and no "}" after it, is the
      span the search finds. */
  lemma BraceSpanOf(pre: string, obj: string, post: string)
    requires |obj| >= 2 && obj[0] == '{' && obj[|obj| - 1] == '}'
    requires '{' !in pre && '}' !in post
    ensures BraceSpan(pre + obj + post) == Some(obj)
  {
    var s := pre + obj + post;
    var i, j := |pre|, |pre| + |obj| - 1;
    assert s[i] == '{' && s[j] == '}';
    assert forall k | 0 <= k < i :: s[k] == pre[k];
    assert forall k | j < k < |s| :: s[k] == post[k - j - 1];
    assert FirstIndex(s, '{') == Some(i);
    assert LastIndex(s, '}') == Some(j);
    assert s[i..j + 1] == obj;
  }

  /** The object _extract_json falls back to; `stripped` is the stripped raw text. */
  function FallbackVerdict(stripped: string): (v: Record)
    ensures forall k | k in VerdictKeys :: k in v
    ensures v["severity_level"] == Str("UNKNOWN")
    ensures v["recommended_action"] == Str("manual review") != Str("self-care")
    ensures v["care_instructions"] == Arr([Str(stripped)])
    ensures v["rationale"] == Str(FallbackRationale)
    ensures v["red_flags_triggered"] == Arr([])
    ensures v.Keys == set k | k in VerdictKeys
  {
    map[
      "severity_level" := Str("UNKNOWN"),
      "rationale" := Str(FallbackRationale),
      "recommended_action" := Str("manual review"),
      "red_flags_triggered" := Arr([]),
      "care_instructions" := Arr([Str(stripped)])
    ]
  }

  /** _extract_json(text): the parse of the brace span of the cleaned text, or the
      fallback when there is no span or it does not parse. json.loads is `parse`:
      a JSON text that starts with "{" is an object, so a successful parse is a
      record. Nothing is raised. */
  function ExtractJson(text: string, parse: string -> Option<Record>): (r: Record)
    ensures r != FallbackVerdict(Strip(text)) ==>
      BraceSpan(Cleaned(text)).Some? && parse(BraceSpan(Cleaned(text)).value) == Some(r)
  {
    match BraceSpan(Cleaned(text))
    case Some(span) =>
      (match parse(span)
       case Some(obj) => obj
       case None => FallbackVerdict(Strip(text)))
    case None => FallbackVerdict(Strip(text))
  }

  /** A reply that is a fenced JSON object extracts to exactly what that object
      parses to: no key is added, checked or dropped. */
  lemma ExtractFencedObject(obj: string, parse: string -> Option<Record>, m: Record)
    requires |obj| >= 2 && obj[0] == '{' && obj[|obj| - 1] == '}' && '`' !in obj
    requires parse(obj) == Some(m)
    ensures ExtractJson("```json\n" + obj + "\n```", parse) == m
  {
    FencedSpan(obj);
    ExtractFromSpan("```json\n" + obj + "\n```", obj, parse, m);
  }

  /** The span of a cleaned fenced object is the object. */
  lemma FencedSpan(obj: string)
    requires |obj| >= 2 && obj[0] == '{' && obj[|obj| - 1] == '}' && '`' !in obj
    ensures BraceSpan(Cleaned("```json\n" + obj + "\n```")) == Some(obj)
  {
    CleanedFenced(obj);
    BraceSpanBetweenNewlines(obj);
  }

  /** An object between two line breaks is the span found. */
  lemma BraceSpanBetweenNewlines(obj: string)
    requires |obj| >= 2 && obj[0] == '{' && obj[|obj| - 1] == '}'
    ensures BraceSpan("\n" + obj + "\n") == Some(obj)
  {
    BraceSpanOf("\n", obj, "\n");
  }

  /** Cleaning a fenced object leaves the object between two line breaks. */
  lemma CleanedFenced(obj: string)
    requires '`' !in obj
    ensures Cleaned("```json\n" + obj + "\n```") == "\n" + obj + "\n"
  {
    FencedUnstripped(obj);
    FencesOfFenced(obj);
  }

  /** A fenced text starts and ends with a backtick, so strip leaves it alone. */
  lemma FencedUnstripped(obj: string)
    ensures Cleaned("```json\n" + obj + "\n```") == RemoveFences("```json\n" + obj + "\n```")
  {
    var text := "```json\n" + obj + "\n```";
    assert text[0] == '`' && text[|text| - 1] == '`';
    StripTrimmed(text);
  }

  /** Removing the fences around an object without backticks leaves its two line breaks. */
  lemma FencesOfFenced(obj: string)
    requires '`' !in obj
    ensures RemoveFences("```json\n" + obj + "\n```") == "\n" + obj + "\n"
  {
    var body := "\n" + obj + "\n";
    var text := "```json\n" + obj + "\n```";
    assert text == "```json" + (body + "```");
    assert StartsWithJsonFence(text) && text[7..] == body + "```";
    JsonFenceDropped(text, body + "```");
    TrailingFenceDropped(body);
  }

  /** A leading "```json", in any letter case, is dropped. */
  lemma JsonFenceDropped(text: string, rest: string)
    requires StartsWithJsonFence(text) && rest == text[7..]
    ensures RemoveFences(text) == RemoveFences(rest)
  {
  }

  /** A closing "```" after text without backticks is dropped. */
  lemma TrailingFenceDropped(body: string)
    requires '`' !in body
    ensures RemoveFences(body + "```") == body
  {
    RemoveFencesPlain(body, "```");
    assert RemoveFences("```") == RemoveFences("");
  }

  /** Text without backticks passes through fence removal unchanged. */
  lemma RemoveFencesNone(s: string)
    requires '`' !in s
    ensures RemoveFences(s) == s
  {
    RemoveFencesPlain(s, "");
    assert s + "" == s;
  }

  /** A bare JSON object, as the prompt asks for, extracts to its parse. */
  lemma ExtractBareObject(obj: string, parse: string -> Option<Record>, m: Record)
    requires |obj| >= 2 && obj[0] == '{' && obj[|obj| - 1] == '}' && '`' !in obj
    requires parse(obj) == Some(m)
    ensures ExtractJson(obj, parse) == m
  {
    StripTrimmed(obj);
    RemoveFencesNone(obj);
    BraceSpanWhole(obj);
    ExtractFromSpan(obj, obj, parse, m);
  }

  /** A brace-delimited string is its own span. */
  lemma BraceSpanWhole(obj: string)
    requires |obj| >= 2 && obj[0] == '{' && obj[|obj| - 1] == '}'
    ensures BraceSpan(obj) == Some(obj)
  {
    assert FirstIndex(obj, '{') == Some(0);
    assert LastIndex(obj, '}') == Some(|obj| - 1);
    assert obj[0..|obj|] == obj;
  }

  /** When the cleaned text's span parses, that parse is the result. */
  lemma ExtractFromSpan(text: string, span: string, parse: string -> Option<Record>, m: Record)
    requires BraceSpan(Cleaned(text)) == Some(span)
    requires parse(span) == Some(m)
    ensures ExtractJson(text, parse) == m
  {
  }

  /** A reply without any "{" yields the fallback, keeping the stripped reply as the
      single care instruction. */
  lemma ExtractWithoutBrace(text: string, parse: string -> Option<Record>)
    requires '{' !in text
    ensures ExtractJson(text, parse) == FallbackVerdict(Strip(text))
  {
    var t := TrimStart(text);
    assert '{' !in t;
    assert '{' !in TrimEnd(t);
    RemoveFencesChars(Strip(text), '{');
  }

  /** A span that does not parse yields the fallback too. */
  lemma ExtractUnparsable(text: string, parse: string -> Option<Record>)
    requires BraceSpan(Cleaned(text)).Some? ==> parse(BraceSpan(Cleaned(text)).value).None?
    ensures ExtractJson(text, parse) == FallbackVerdict(Strip(text))
  {
  }

  /** The default classify_severity gives a missing key. */
  function KeyDefault(key: string): (d: Json)
    ensures d.Arr? <==> key == "red_flags_triggered" || key == "care_instructions"
    ensures d.Arr? ==> d == Arr([])
    ensures !d.Arr? ==> d == Str("UNKNOWN")
  {
    if key == "red_flags_triggered" || key == "care_instructions" then Arr([]) else Str("UNKNOWN")
  }

  /** filled is data with every missing verdict key added at its default, and nothing
      else changed. */
  ghost predicate FillsDefaults(data: Record, filled: Record) {
    && (forall k | k in VerdictKeys :: k in filled)
    && (forall k | k in data :: k in filled && filled[k] == data[k])
    && (forall k | k in filled :: k in data || k in VerdictKeys)
    && (forall k | k in VerdictKeys && k !in data :: filled[k] == KeyDefault(k))
  }

  /** The completed verdict: data with each missing verdict key at its default. */
  function Filled(data: Record): (filled: Record)
    ensures FillsDefaults(data, filled)
  {
    data + map k | k in VerdictKeys && k !in data :: KeyDefault(k)
  }

  /** The loop at the end of classify_severity, which adds the missing keys to the
      extracted dict in place. */
  method FillRequiredKeys(data: Record) returns (filled: Record)
    ensures FillsDefaults(data, filled)
    ensures filled == Filled(data)
  {
    filled := data;
    for n := 0 to |VerdictKeys|
      invariant forall k | k in VerdictKeys[..n] :: k in filled
      invariant forall k | k in data :: k in filled && filled[k] == data[k]
      invariant forall k | k in filled :: k in data || k in VerdictKeys[..n]
      invariant forall k | k in VerdictKeys[..n] && k !in data :: filled[k] == KeyDefault(k)
    {
      var key := VerdictKeys[n];
      assert VerdictKeys[..n + 1] == VerdictKeys[..n] + [key];
      if key !in filled {
        filled := filled[key := KeyDefault(key)];
      }
    }
    assert VerdictKeys[..|VerdictKeys|] == VerdictKeys;
    FillsDefaultsUnique(data, filled, Filled(data));
  }

  /** The fill is determined by its input. */
  lemma FillsDefaultsUnique(data: Record, f1: Record, f2: Record)
    requires FillsDefaults(data, f1) && FillsDefaults(data, f2)
    ensures f1 == f2
  {
    assert f1.Keys == f2.Keys;
    forall k | k in f1 ensures f1[k] == f2[k] {
      if k !in data {
        assert k in VerdictKeys;
      }
    }
  }

  /** A record that already has every verdict key is left as it is. */
  lemma FillComplete(data: Record, filled: Record)
    requires forall k | k in VerdictKeys :: k in data
    requires FillsDefaults(data, filled)
    ensures filled == data
  {
    assert FillsDefaults(data, data);
    FillsDefaultsUnique(data, filled, data);
  }

  /** Each missing key gets its own default: the two lists become empty, and every
      other key, recommended_action included, becomes "UNKNOWN" rather than
      "manual review". */
  lemma MissingKeyDefaults(data: Record, filled: Record)
    requires FillsDefaults(data, filled)
    ensures "severity_level" !in data ==> "severity_level" in filled && filled["severity_level"] == Str("UNKNOWN")
    ensures "rationale" !in data ==> "rationale" in filled && filled["rationale"] == Str("UNKNOWN")
    ensures "recommended_action" !in data ==> "recommended_action" in filled && filled["recommended_action"] == Str("UNKNOWN")
    ensures "red_flags_triggered" !in data ==> "red_flags_triggered" in filled && filled["red_flags_triggered"] == Arr([])
    ensures "care_instructions" !in data ==> "care_instructions" in filled && filled["care_instructions"] == Arr([])
  {
    assert VerdictKeys[0] == "severity_level" && VerdictKeys[1] == "rationale" && VerdictKeys[2] == "recommended_action";
    assert VerdictKeys[3] == "red_flags_triggered" && VerdictKeys[4] == "care_instructions";
  }

  /** classify_severity: ask the model (the prompt built from the symptoms and the
      user text), extract its stripped reply, and fill the missing keys. A model
      that cannot be reached raises. */
  method ClassifySeverity(symptoms: Record, userInput: string,
                          model: (Record, string) -> Reply, parse: string -> Option<Record>)
    returns (r: Result<Record>)
    ensures r.Err? <==> model(symptoms, userInput).Unavailable?
    ensures r.Err? ==> r.error == ServiceUnavailable
    ensures r.Ok? ==> FillsDefaults(ExtractJson(Strip(model(symptoms, userInput).content), parse), r.value)
    ensures r.Ok? ==>
      var raw := Strip(model(symptoms, userInput).content);
      BraceSpan(Cleaned(raw)).None? || parse(BraceSpan(Cleaned(raw)).value).None? ==>
      r.value == FallbackVerdict(raw)
  {
    var reply := model(symptoms, userInput);
    if reply.Unavailable? {
      return Err(ServiceUnavailable);
    }
    var raw := Strip(reply.content);
    var data := ExtractJson(raw, parse);
    var filled := FillRequiredKeys(data);
    if BraceSpan(Cleaned(raw)).None? || parse(BraceSpan(Cleaned(raw)).value).None? {
      StripIdempotent(reply.content);
      FillComplete(data, filled);
    }
    return Ok(filled);
  }
}
