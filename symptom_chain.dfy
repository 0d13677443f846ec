/** Symptom extraction of chains/symptom_chain.py: the SymptomFrame defaults, the
    line-wise fence cleanup and the validate-or-fallback return. */
module SymptomChain {
  import opened Values
  import opened Text

  /** SymptomFrame as model_dump() returns it; None stands for Python's None. */
  datatype SymptomFrame = SymptomFrame(
    chiefComplaint: string,
    durationDays: Option<real>,
    severitySelf: Option<string>,
    associatedSymptoms: seq<string>,
    riskFactors: seq<string>,
    ageBand: Option<string>,
    medications: seq<string>,
    allergies: seq<string>)

  /** What a JSON text that validates supplies for each field: None for a field it
      does not mention (for the nullable fields, also for one it sets to null). */
  datatype SuppliedFields = SuppliedFields(
    chiefComplaint: Option<string>,
    durationDays: Option<real>,
    severitySelf: Option<string>,
    associatedSymptoms: Option<seq<string>>,
    riskFactors: Option<seq<string>>,
    ageBand: Option<string>,
    medications: Option<seq<string>>,
    allergies: Option<seq<string>>)

  /** The eight keys of a dumped frame. */
  const FrameKeys: set<string> := {"chief_complaint", "duration_days", "severity_self", "associated_symptoms",
                                   "risk_factors", "age_band", "medications", "allergies"}

  /** The frame validated from supplied fields: every field not supplied takes its
      declared default. */
  function WithDefaults(f: SuppliedFields): (frame: SymptomFrame)
    ensures frame.chiefComplaint == (if f.chiefComplaint.Some? then f.chiefComplaint.value else "")
    ensures frame.durationDays == f.durationDays && frame.severitySelf == f.severitySelf && frame.ageBand == f.ageBand
    ensures f.associatedSymptoms.None? ==> frame.associatedSymptoms == []
    ensures f.riskFactors.None? ==> frame.riskFactors == []
    ensures f.medications.None? ==> frame.medications == []
    ensures f.allergies.None? ==> frame.allergies == []
  {
    SymptomFrame(
      f.chiefComplaint.GetOr(""),
      f.durationDays,
      f.severitySelf,
      f.associatedSymptoms.GetOr([]),
      f.riskFactors.GetOr([]),
      f.ageBand,
      f.medications.GetOr([]),
      f.allergies.GetOr([]))
  }

  function OptionalStr(o: Option<string>): Json {
    if o.Some? then Str(o.value) else Null
  }

  function OptionalReal(o: Option<real>): Json {
    if o.Some? then Float(o.value) else Null
  }

  /** model_dump(): the frame as a dict. */
  function FrameRecord(f: SymptomFrame): (r: Record)
    ensures "chief_complaint" in r && r["chief_complaint"] == Str(f.chiefComplaint)
    ensures "associated_symptoms" in r && r["associated_symptoms"] == StrList(f.associatedSymptoms)
    ensures "duration_days" in r && (r["duration_days"].Null? <==> f.durationDays.None?)
    ensures r.Keys == FrameKeys
  {
    map[
      "chief_complaint" := Str(f.chiefComplaint),
      "duration_days" := OptionalReal(f.durationDays),
      "severity_self" := OptionalStr(f.severitySelf),
      "associated_symptoms" := StrList(f.associatedSymptoms),
      "risk_factors" := StrList(f.riskFactors),
      "age_band" := OptionalStr(f.ageBand),
      "medications" := StrList(f.medications),
      "allergies" := StrList(f.allergies)
    ]
  }

  /** s starts with "```json" (letter case matters here). */
  predicate StartsWithJsonFence(s: string) {
    |s| >= 7 && s[0] == s[1] == s[2] == '`' && s[3] == 'j' && s[4] == 's' && s[5] == 'o' && s[6] == 'n'
  }

  /** s starts with "```" that ends its line. */
  predicate StartsWithClosingFence(s: string) {
    |s| >= 3 && s[0] == s[1] == s[2] == '`' && (|s| == 3 || s[3] == '\n')
  }

  /** re.sub(r"^```json|```$", "", s, flags=re.MULTILINE), scanning left to right:
      "```json" is dropped where a line starts, "```" where a line ends. atLineStart
      says whether the character before s in the original text was a line break (or
      there was none); a removal leaves the scan in mid-line. */
  function StripLineFences(s: string, atLineStart: bool): (r: string)
    ensures |r| <= |s|
    decreases |s|
  {
    if atLineStart && StartsWithJsonFence(s) then StripLineFences(s[7..], false)
    else if StartsWithClosingFence(s) then StripLineFences(s[3..], false)
    else if s == [] then []
    else [s[0]] + StripLineFences(s[1..], s[0] == '\n')
  }

  /** The text extract_symptoms validates: the reply stripped, de-fenced and stripped
      again. */
  function CleanModelOutput(content: string): (r: string)
    ensures |r| <= |content|
    ensures r == [] || (!IsSpace(r[0]) && !IsSpace(r[|r| - 1]))
  {
    Strip(StripLineFences(Strip(content), true))
  }

  /** The two-key result when validation fails. */
  function FallbackFrame(userInput: string, text: string): (r: Record)
    ensures r.Keys == {"chief_complaint", "raw_output"}
    ensures r["chief_complaint"] == Str(userInput) && r["raw_output"] == Str(text)
  {
    map["chief_complaint" := Str(userInput), "raw_output" := Str(text)]
  }

  /** extract_symptoms(user_input): ask the model, clean its reply, validate it
      against SymptomFrame (`validate`, None standing for ValidationError), and dump
      the frame, or fall back to the user's own text. A model that cannot be reached
      raises. */
  function ExtractSymptoms(userInput: string, model: string -> Reply,
                           validate: string -> Option<SuppliedFields>): (r: Result<Record>)
    ensures r.Err? <==> model(userInput).Unavailable?
    ensures r.Err? ==> r.error == ServiceUnavailable
    ensures r.Ok? ==>
      var text := CleanModelOutput(model(userInput).content);
      && (validate(text).Some? ==> r.value == FrameRecord(WithDefaults(validate(text).value)))
      && (validate(text).None? ==> r.value == FallbackFrame(userInput, text))
  {
    match model(userInput)
    case Unavailable => Err(ServiceUnavailable)
    case Text(content) =>
      var text := CleanModelOutput(content);
      match validate(text)
      case Some(fields) => Ok(FrameRecord(WithDefaults(fields)))
      case None => Ok(FallbackFrame(userInput, text))
  }

  /** A reply always yields one of the two result shapes, and the user's complaint is
      never lost: on the fallback path it is the user's text, on the validated path
      it is a string. */
  lemma ExtractShape(userInput: string, model: string -> Reply, validate: string -> Option<SuppliedFields>)
    requires model(userInput).Text?
    ensures var r := ExtractSymptoms(userInput, model, validate);
      && r.Ok?
      && (r.value.Keys == FrameKeys || r.value.Keys == {"chief_complaint", "raw_output"})
      && "chief_complaint" in r.value && r.value["chief_complaint"].Str?
      && ("raw_output" in r.value <==> validate(CleanModelOutput(model(userInput).content)).None?)
      && ("raw_output" in r.value ==> r.value["chief_complaint"] == Str(userInput))
  {
    assert "raw_output" !in FrameKeys;
  }

  /** The frame validated from a JSON text that supplies nothing. */
  lemma DefaultFrame()
    ensures FrameRecord(WithDefaults(SuppliedFields(None, None, None, None, None, None, None, None))) ==
      map["chief_complaint" := Str(""), "duration_days" := Null, "severity_self" := Null,
          "associated_symptoms" := Arr([]), "risk_factors" := Arr([]), "age_band" := Null,
          "medications" := Arr([]), "allergies" := Arr([])]
  {
    assert StrList([]) == Arr([]);
  }

  /** Text without backticks passes through the fence cleanup unchanged; the scan
      carries on with the line state the text leaves. */
  lemma {:induction false} StripLineFencesPlain(x: string, y: string, atLineStart: bool)
    requires '`' !in x
    ensures StripLineFences(x + y, atLineStart) ==
      x + StripLineFences(y, if x == [] then atLineStart else x[|x| - 1] == '\n')
    decreases |x|
  {
    if x != [] {
      assert (x + y)[0] == x[0] && (x + y)[1..] == x[1..] + y;
      StripLineFencesPlain(x[1..], y, x[0] == '\n');
      assert x == [x[0]] + x[1..];
      if x[1..] != [] {
        assert x[1..][|x[1..]| - 1] == x[|x| - 1];
      }
    } else {
      assert x + y == y;
    }
  }

  /** A reply without backticks is only stripped. */
  lemma CleanPlainReply(content: string)
    requires '`' !in content
    ensures CleanModelOutput(content) == Strip(content)
  {
    var s := Strip(content);
    assert '`' !in TrimStart(content);
    assert '`' !in s;
    StripLineFencesPlain(s, "", true);
    assert s + "" == s;
    assert StripLineFences("", if s == [] then true else s[|s| - 1] == '\n') == "";
    StripIdempotent(content);
  }

  /** A reply that is a fenced block around a body without backticks cleans to the
      stripped body, whatever whitespace the body has at its ends. */
  lemma CleanFencedReply(body: string)
    requires '`' !in body
    ensures CleanModelOutput("```json\n" + body + "\n```") == Strip(body)
  {
    FencedReplyUnstripped(body);
    FencedReplyDefenced(body);
    StripBetweenNewlines(body);
  }

  lemma StripBetweenNewlines(body: string)
    ensures Strip("\n" + body + "\n") == Strip(body)
  {
    assert IsSpace('\n');
    StripAround("\n", body, "\n");
  }

  lemma FencedReplyUnstripped(body: string)
    ensures CleanModelOutput("```json\n" + body + "\n```") == Strip(StripLineFences("```json\n" + body + "\n```", true))
  {
    var text := "```json\n" + body + "\n```";
    assert text[0] == '`' && text[|text| - 1] == '`';
    StripTrimmed(text);
  }

  lemma FencedReplyDefenced(body: string)
    requires '`' !in body
    ensures StripLineFences("```json\n" + body + "\n```", true) == "\n" + body + "\n"
  {
    var text := "```json\n" + body + "\n```";
    var inner := "\n" + body + "\n";
    assert text == "```json" + (inner + "```");
    assert StartsWithJsonFence(text) && text[7..] == inner + "```";
    assert '`' !in inner;
    StripLineFencesPlain(inner, "```", false);
    assert StripLineFences("```", true) == StripLineFences("", false);
  }

  /** A "```" with text on its line both before and after it is kept: only a
      fence that starts its line as "```json", or ends its line, is removed. */
  lemma MidLineFenceKept(x: string, y: string, atLineStart: bool)
    requires '`' !in x && '`' !in y
    requires x != [] && x[|x| - 1] != '\n'
    requires y != [] && y[0] != '\n'
    ensures StripLineFences(x + "```" + y, atLineStart) == x + "```" + y
  {
    assert x + "```" + y == x + ("```" + y);
    StripLineFencesPlain(x, "```" + y, atLineStart);
    MidLineFenceTail(y);
  }

  /** A "```" met in mid-line and followed by more of its line is kept. */
  lemma MidLineFenceTail(y: string)
    requires '`' !in y && y != [] && y[0] != '\n'
    ensures StripLineFences("```" + y, false) == "```" + y
  {
    StripLineFencesPlain(y, "", false);
    assert y + "" == y;
    assert ("`" + y)[1..] == y;
    assert StripLineFences("`" + y, false) == "`" + y;
    assert ("``" + y)[1..] == "`" + y;
    assert StripLineFences("``" + y, false) == "``" + y;
    assert ("```" + y)[1..] == "``" + y;
  }
}
