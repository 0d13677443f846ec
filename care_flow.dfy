/** The workflow of graph/care_flow.py: its node functions as load-modify-save steps
    over the case store, the state they thread, and the linear node order. */
module CareFlow {
  import opened Values
  import opened Text
  import opened JsonStore
  import SymptomChain
  import TriageChain
  import ActionChain
  import SummaryChain

  /** The "user_input" entry of the state: absent, None, or a string. */
  datatype Utterance = Missing | NullInput | Said(text: string)

  /** CareState. For the record-valued entries and the case id, None stands for an
      absent key. */
  datatype CareState = CareState(
    caseId: Option<string>,
    userInput: Utterance,
    symptoms: Option<Record>,
    triage: Option<Record>,
    action: Option<Record>,
    summary: Option<Record>)

  /** The outside world the nodes call into: the three language-model calls,
      json.loads and SymptomFrame validation. */
  datatype Collaborators = Collaborators(
    symptomModel: string -> Reply,
    validateFrame: string -> Option<SymptomChain.SuppliedFields>,
    triageModel: (Record, string) -> Reply,
    parseJson: string -> Option<Record>,
    summaryModel: (Record, Record) -> Reply)

  /** state.get("user_input", "") or "" */
  function InputText(u: Utterance): (t: string)
    ensures u.Said? ==> t == u.text
    ensures !u.Said? ==> t == ""
  {
    if u.Said? then u.text else ""
  }

  /** state.get("user_input", ""), as generate_node reads it: None stays None. */
  function ReportedInput(u: Utterance): (j: Json)
    ensures u.Said? ==> j == Str(u.text)
    ensures u.Missing? ==> j == Str("")
    ensures u.NullInput? ==> j == Null
  {
    match u
    case Said(t) => Str(t)
    case Missing => Str("")
    case NullInput => Null
  }

  /** `if case_id:` -- present and not empty. */
  predicate HasId(caseId: Option<string>) {
    caseId.Some? && caseId.value != ""
  }

  /** The text classify_node sends: the user's text, the context heading, and the
      reference texts joined by blank lines. */
  function ClassificationText(input: string, references: seq<string>): (t: string)
    ensures input <= t
    ensures t[|input|..] == "\n\nRelevant context:\n" + Join("\n\n", references)
  {
    input + "\n\nRelevant context:\n" + Join("\n\n", references)
  }

  /** The state never carries references, so the context after the heading is empty. */
  lemma NoReferencesContext(input: string)
    ensures ClassificationText(input, []) == input + "\n\nRelevant context:\n"
  {
  }

  /** case_data["conversation"].append(user_input), on a record loaded from the
      store: it fails unless the conversation is a list. */
  function AppendUtterance(rec: Record, text: string): (r: Result<Record>)
    ensures r.Ok? <==> "conversation" in rec && rec["conversation"].Arr?
    ensures r.Err? ==> r.error == MalformedRecord
    ensures r.Ok? ==> r.value.Keys == rec.Keys
  {
    if "conversation" in rec && rec["conversation"].Arr? then
      Ok(rec["conversation" := Arr(rec["conversation"].items + [Str(text)])])
    else Err(MalformedRecord)
  }

  /** The conversation only grows: the earlier entries are kept in order, the new
      utterance comes last, and no other field changes. */
  lemma ConversationAppendOnly(rec: Record, text: string)
    requires AppendUtterance(rec, text).Ok?
    ensures var before := rec["conversation"].items;
      var after := AppendUtterance(rec, text).value;
      && after["conversation"].Arr?
      && |after["conversation"].items| == |before| + 1
      && after["conversation"].items[..|before|] == before
      && after["conversation"].items[|before|] == Str(text)
      && (forall f | f in rec && f != "conversation" :: after[f] == rec[f])
  {
    var before := rec["conversation"].items;
    assert (before + [Str(text)])[..|before|] == before;
  }

  /** The store after a node persists one field of the state's case: unchanged
      without a case id, NotFound when the case file is missing, otherwise the
      case's record with that field set. */
  function Persist(m: StoreMap, caseId: Option<string>, field: string, v: Json): (r: Result<StoreMap>)
    ensures !HasId(caseId) ==> r == Ok(m)
    ensures HasId(caseId) ==> (r.Err? <==> CaseKey(Cases, caseId.value) !in m)
    ensures r.Err? ==> r.error == NotFound
    ensures r.Ok? ==> r.value.Keys == m.Keys
    ensures r.Ok? && HasId(caseId) ==>
      var key := CaseKey(Cases, caseId.value);
      r.value == Save(m, key, m[key][field := v])
  {
    if !HasId(caseId) then Ok(m)
    else
      var key := CaseKey(Cases, caseId.value);
      match Load(m, key)
      case Err(e) => Err(e)
      case Ok(rec) => Ok(Save(m, key, rec[field := v]))
  }

  /** A node's write sets only its own field of the case record: every other field
      and every other file keeps its value. */
  lemma PersistOnlyOwnField(m: StoreMap, caseId: Option<string>, field: string, v: Json)
    requires HasId(caseId) && Persist(m, caseId, field, v).Ok?
    ensures var key := CaseKey(Cases, caseId.value);
      var m' := Persist(m, caseId, field, v).value;
      && m'[key].Keys == m[key].Keys + {field}
      && m'[key][field] == v
      && (forall f | f in m[key] && f != field :: m'[key][f] == m[key][f])
      && (forall k | k in m && k != key :: m'[k] == m[k])
  {
  }

  /** The load-modify-save of one field, as classify_node, execute_node and
      generate_node do it. */
  method SaveField(store: CaseStore, caseId: Option<string>, field: string, v: Json) returns (ok: bool)
    modifies store
    ensures ok <==> Persist(old(store.records), caseId, field, v).Ok?
    ensures ok ==> store.records == Persist(old(store.records), caseId, field, v).value
    ensures !ok ==> store.records == old(store.records)
  {
    if !HasId(caseId) {
      return true;
    }
    var id := caseId.value;
    var rec := store.LoadCase(id, Cases);
    if rec.Err? {
      return false;
    }
    store.UpdateCase(id, rec.value[field := v], Cases);
    return true;
  }

  /** What extract_symptoms yields for the state's input. */
  function SymptomsOf(state: CareState, env: Collaborators): Result<Record> {
    SymptomChain.ExtractSymptoms(InputText(state.userInput), env.symptomModel, env.validateFrame)
  }

  /** The case can be opened: without a case id always, with one only when its file
      exists and holds a conversation list. */
  predicate CanOpen(m: StoreMap, caseId: Option<string>, text: string) {
    HasId(caseId) ==>
      CaseKey(Cases, caseId.value) in m && AppendUtterance(m[CaseKey(Cases, caseId.value)], text).Ok?
  }

  /** The case record once the utterance is in: the stored record with the utterance
      appended, or the initial record of the new case `id`. */
  function OpenedRecord(m: StoreMap, caseId: Option<string>, id: string, text: string, now: int): (rec: Record)
    requires CanOpen(m, caseId, text)
    ensures "conversation" in rec && rec["conversation"].Arr?
    ensures HasId(caseId) ==>
      var stored := m[CaseKey(Cases, caseId.value)];
      && rec["conversation"].items == stored["conversation"].items + [Str(text)]
      && (forall f | f in stored && f != "conversation" :: f in rec && rec[f] == stored[f])
    ensures !HasId(caseId) ==> rec == InitialRecord(id, text, now)
  {
    if HasId(caseId) then AppendUtterance(m[CaseKey(Cases, caseId.value)], text).value
    else InitialRecord(id, text, now)
  }

  /** The first half of collect_symptoms: create the case for the input, or append
      the input to the stored conversation. */
  method OpenCase(store: CaseStore, caseId: Option<string>, text: string, now: int) returns (r: Result<string>)
    modifies store
    ensures r.Ok? <==> CanOpen(old(store.records), caseId, text)
    ensures r.Err? ==> store.records == old(store.records)
    ensures r.Ok? ==>
      && r.value != ""
      && (HasId(caseId) ==> r.value == caseId.value)
      && (!HasId(caseId) ==> CaseKey(Cases, r.value) !in old(store.records))
      && store.records == Save(old(store.records), CaseKey(Cases, r.value),
                               OpenedRecord(old(store.records), caseId, r.value, text, now))
  {
    if !HasId(caseId) {
      var id := store.CreateCase(text, now);
      return Ok(id);
    }
    var id := caseId.value;
    var rec := store.LoadCase(id, Cases);
    if rec.Err? {
      return Err(rec.error);
    }
    var appended := AppendUtterance(rec.value, text);
    if appended.Err? {
      return Err(appended.error);
    }
    store.UpdateCase(id, appended.value, Cases);
    return Ok(id);
  }

  /** The second write of collect_symptoms: the case as just stored, with the
      symptoms under "last_symptoms". */
  method StoreSymptoms(store: CaseStore, id: string, symptoms: Record)
    modifies store
    requires CaseKey(Cases, id) in store.records
    ensures store.records == Save(old(store.records), CaseKey(Cases, id),
                                  old(store.records)[CaseKey(Cases, id)]["last_symptoms" := Obj(symptoms)])
  {
    var current := store.LoadCase(id, Cases);
    store.UpdateCase(id, current.value["last_symptoms" := Obj(symptoms)], Cases);
  }

  /** collect_symptoms: open the case, extract the symptoms and store them under
      "last_symptoms". A failed extraction raises after the conversation step has
      been written; no other file is touched either way. */
  method CollectSymptoms(store: CaseStore, state: CareState, env: Collaborators, now: int)
    returns (r: Result<CareState>)
    modifies store
    ensures r.Ok? <==> CanOpen(old(store.records), state.caseId, InputText(state.userInput)) && SymptomsOf(state, env).Ok?
    ensures !CanOpen(old(store.records), state.caseId, InputText(state.userInput)) ==> store.records == old(store.records)
    ensures r.Err? ==>
      forall k | k in old(store.records) && (!HasId(state.caseId) || k != CaseKey(Cases, state.caseId.value)) ::
        k in store.records && store.records[k] == old(store.records)[k]
    ensures r.Ok? ==>
      && r.value.caseId.Some? && HasId(r.value.caseId)
      && r.value == state.(caseId := r.value.caseId, symptoms := Some(SymptomsOf(state, env).value))
      && (HasId(state.caseId) ==> r.value.caseId == state.caseId)
      && (!HasId(state.caseId) ==> CaseKey(Cases, r.value.caseId.value) !in old(store.records))
      && store.records == Save(old(store.records), CaseKey(Cases, r.value.caseId.value),
           OpenedRecord(old(store.records), state.caseId, r.value.caseId.value, InputText(state.userInput), now)
             ["last_symptoms" := Obj(SymptomsOf(state, env).value)])
  {
    var text := InputText(state.userInput);
    var open := OpenCase(store, state.caseId, text, now);
    if open.Err? {
      return Err(open.error);
    }
    var id := open.value;
    ghost var rec := OpenedRecord(old(store.records), state.caseId, id, text, now);
    var symptoms := SymptomChain.ExtractSymptoms(text, env.symptomModel, env.validateFrame);
    if symptoms.Err? {
      return Err(symptoms.error);
    }
    StoreSymptoms(store, id, symptoms.value);
    SaveReplaces(old(store.records), CaseKey(Cases, id), rec, rec["last_symptoms" := Obj(symptoms.value)]);
    return Ok(state.(caseId := Some(id), symptoms := Some(symptoms.value)));
  }

  /** classify_node: classify the input with the (empty) reference context, store the
      verdict under "triage" when there is a case, and put it in the state. */
  method ClassifyNode(store: CaseStore, state: CareState, env: Collaborators) returns (r: Result<CareState>)
    modifies store
    ensures var reply := env.triageModel(state.symptoms.GetOr(map[]), ClassificationText(InputText(state.userInput), []));
      r.Ok? <==> reply.Text? && Persist(old(store.records), state.caseId, "triage", Null).Ok?
    ensures r.Err? ==> store.records == old(store.records)
    ensures r.Ok? ==>
      var reply := env.triageModel(state.symptoms.GetOr(map[]), ClassificationText(InputText(state.userInput), []));
      && r.value.triage.Some?
      && r.value == state.(triage := r.value.triage)
      && TriageChain.FillsDefaults(TriageChain.ExtractJson(Strip(reply.content), env.parseJson), r.value.triage.value)
      && store.records == Persist(old(store.records), state.caseId, "triage", Obj(r.value.triage.value)).value
  {
    var text := ClassificationText(InputText(state.userInput), []);
    var triage := TriageChain.ClassifySeverity(state.symptoms.GetOr(map[]), text, env.triageModel, env.parseJson);
    if triage.Err? {
      return Err(triage.error);
    }
    var ok := SaveField(store, state.caseId, "triage", Obj(triage.value));
    if !ok {
      return Err(NotFound);
    }
    return Ok(state.(triage := Some(triage.value)));
  }

  /** execute_node: plan from the state's verdict (or {}), store the plan under
      "action", and put it in the state. The planner's append to the verdict's own
      instruction list shows in the state's verdict, not in the stored one. */
  method ExecuteNode(store: CaseStore, state: CareState, now: int) returns (r: Result<CareState>)
    modifies store
    ensures var outcome := ActionChain.ExecuteActionPlan(state.triage.GetOr(map[]), now);
      r.Ok? <==> outcome.Ok? && Persist(old(store.records), state.caseId, "action", Null).Ok?
    ensures r.Err? ==> store.records == old(store.records)
    ensures r.Ok? ==>
      var outcome := ActionChain.ExecuteActionPlan(state.triage.GetOr(map[]), now).value;
      && r.value == state.(action := Some(outcome.plan),
                           triage := if state.triage.Some? then Some(outcome.triageAfter) else None)
      && store.records == Persist(old(store.records), state.caseId, "action", Obj(outcome.plan)).value
  {
    var outcome := ActionChain.ExecuteActionPlan(state.triage.GetOr(map[]), now);
    if outcome.Err? {
      return Err(outcome.error);
    }
    var ok := SaveField(store, state.caseId, "action", Obj(outcome.value.plan));
    if !ok {
      return Err(NotFound);
    }
    var triage := if state.triage.Some? then Some(outcome.value.triageAfter) else None;
    return Ok(state.(action := Some(outcome.value.plan), triage := triage));
  }

  /** follow_up passes the state along unchanged. */
  function FollowUp(state: CareState): (next: CareState)
    ensures next == state
  {
    state
  }

  /** What generate_summaries yields for the state. */
  function SummaryOf(state: CareState, env: Collaborators): Record {
    var triage := state.triage.GetOr(map[]);
    var action := state.action.GetOr(map[]);
    SummaryChain.GenerateSummaries(ReportedInput(state.userInput), state.symptoms.GetOr(map[]), triage, action,
                                   env.summaryModel(triage, action))
  }

  /** generate_node: summarise the state, store the summary under "summary", and
      return it with the symptoms, verdict and plan it was made from. */
  method GenerateNode(store: CaseStore, state: CareState, env: Collaborators) returns (r: Result<CareState>)
    modifies store
    ensures r.Ok? <==> Persist(old(store.records), state.caseId, "summary", Null).Ok?
    ensures r.Err? ==> store.records == old(store.records)
    ensures r.Ok? ==>
      && r.value == state.(summary := Some(SummaryOf(state, env)), symptoms := Some(state.symptoms.GetOr(map[])),
                           triage := Some(state.triage.GetOr(map[])), action := Some(state.action.GetOr(map[])))
      && store.records == Persist(old(store.records), state.caseId, "summary", Obj(SummaryOf(state, env))).value
  {
    var summary := SummaryOf(state, env);
    var ok := SaveField(store, state.caseId, "summary", Obj(summary));
    if !ok {
      return Err(NotFound);
    }
    return Ok(state.(summary := Some(summary), symptoms := Some(state.symptoms.GetOr(map[])),
                     triage := Some(state.triage.GetOr(map[])), action := Some(state.action.GetOr(map[]))));
  }

  /** The fields a case record holds after a complete run. */
  const RunFields: set<string> := {"conversation", "last_symptoms", "triage", "action", "summary"}

  /** The four writes after the conversation step set the four node fields and leave
      the conversation as it was. */
  lemma RunRecordFields(base: Record, symptoms: Json, triage: Json, action: Json, summary: Json)
    requires "conversation" in base
    ensures var final := base["last_symptoms" := symptoms]["triage" := triage]["action" := action]["summary" := summary];
      && RunFields <= final.Keys
      && final["conversation"] == base["conversation"]
      && final["last_symptoms"] == symptoms && final["triage"] == triage
      && final["action"] == action && final["summary"] == summary
  {
  }

  /** The triage model's reply to the symptoms and the state's text, with the empty
      reference context. */
  function TriageReplyOf(symptoms: Record, state: CareState, env: Collaborators): Reply {
    env.triageModel(symptoms, ClassificationText(InputText(state.userInput), []))
  }

  /** The verdict classify_severity returns for a reply. */
  function VerdictOf(reply: Reply, env: Collaborators): Record
    requires reply.Text?
  {
    TriageChain.Filled(TriageChain.ExtractJson(Strip(reply.content), env.parseJson))
  }

  /** A run gets through every node: the case opens, both model calls answer, and
      the planner accepts the verdict. */
  predicate Completes(m: StoreMap, state: CareState, env: Collaborators, plannedAt: int) {
    && CanOpen(m, state.caseId, InputText(state.userInput))
    && SymptomsOf(state, env).Ok?
    && TriageReplyOf(SymptomsOf(state, env).value, state, env).Text?
    && ActionChain.ExecuteActionPlan(VerdictOf(TriageReplyOf(SymptomsOf(state, env).value, state, env), env),
                                     plannedAt).Ok?
  }

  /** A triage reply in prose, without any "{", still lets the run get through: the
      verdict is the fallback with the stripped reply as its one instruction, and
      the plan is a manual review due twelve hours later whose tasks are that
      instruction, followed by the disclaimer unless the reply already carries the
      marker. */
  lemma ProseReplyCompletes(m: StoreMap, state: CareState, env: Collaborators, plannedAt: int)
    requires CanOpen(m, state.caseId, InputText(state.userInput)) && SymptomsOf(state, env).Ok?
    requires var reply := TriageReplyOf(SymptomsOf(state, env).value, state, env);
      reply.Text? && '{' !in reply.content
    ensures var reply := TriageReplyOf(SymptomsOf(state, env).value, state, env);
      && VerdictOf(reply, env) == TriageChain.FallbackVerdict(Strip(reply.content))
      && Completes(m, state, env, plannedAt)
      && var plan := ActionChain.ExecuteActionPlan(VerdictOf(reply, env), plannedAt).value.plan;
      && plan["action_type"] == Str("manual review")
      && plan["follow_up_due"] == Int(plannedAt + 12 * ActionChain.Hour)
      && plan["tasks"] == StrList(ActionChain.WithDisclaimer([Strip(reply.content)]))
  {
    var content := TriageReplyOf(SymptomsOf(state, env).value, state, env).content;
    ProseVerdict(content, env.parseJson);
    FallbackVerdictPlan(Strip(content), plannedAt);
  }

  /** A reply without "{" classifies to the fallback verdict, already complete. */
  lemma ProseVerdict(content: string, parse: string -> Option<Record>)
    requires '{' !in content
    ensures TriageChain.Filled(TriageChain.ExtractJson(Strip(content), parse)) == TriageChain.FallbackVerdict(Strip(content))
  {
    StripChars(content, '{');
    TriageChain.ExtractWithoutBrace(Strip(content), parse);
    StripIdempotent(content);
    var verdict := TriageChain.FallbackVerdict(Strip(content));
    TriageChain.FillComplete(verdict, TriageChain.Filled(verdict));
  }

  /** The plan for the fallback verdict: a manual review due in twelve hours, whose
      tasks are the single instruction and, unless it has the marker, the
      disclaimer. */
  lemma FallbackVerdictPlan(raw: string, now: int)
    ensures var r := ActionChain.ExecuteActionPlan(TriageChain.FallbackVerdict(raw), now);
      && r.Ok?
      && r.value.plan["action_type"] == Str("manual review")
      && r.value.plan["follow_up_due"] == Int(now + 12 * ActionChain.Hour)
      && r.value.plan["tasks"] == StrList(ActionChain.WithDisclaimer([raw]))
  {
    var verdict := TriageChain.FallbackVerdict(raw);
    assert ActionChain.StartingInstructions(verdict) == [Str(raw)];
    assert Strings([Str(raw)]) == [raw];
  }

  /** A self-care verdict without usable instructions, as the last two nodes see it:
      the clinician view shows the verdict's level, the three fallback tasks and a
      follow-up due a day after planning. */
  lemma SelfCareSummary(userInput: Json, symptoms: Record, verdict: Record, now: int, enhancement: Reply)
    requires "recommended_action" in verdict && verdict["recommended_action"] == Str("self-care")
    requires !ActionChain.Usable(GetOr(verdict, "care_instructions", Arr([])))
    ensures var o := ActionChain.ExecuteActionPlan(verdict, now);
      && o.Ok?
      && var c := SummaryChain.ClinicianView(SummaryChain.GenerateSummaries(userInput, symptoms, o.value.triageAfter,
                                                                           o.value.plan, enhancement));
      && c["triage_level"] == Get(verdict, "severity_level")
      && c["follow_up_due"] == Int(now + 24 * ActionChain.Hour)
      && c["tasks"] == Arr([Str("Rest and hydrate."), Str("If symptoms worsen, seek medical help promptly."),
                            Str(ActionChain.Disclaimer)])
  {
    ActionChain.FallbackPlan(verdict, now);
  }

  /** One pass through the graph: collect_symptoms, classify_severity,
      execute_action, follow_up, generate_summaries. `createdAt` and `plannedAt` are
      the clock readings of create_case and execute_action_plan. After a complete
      run the case record holds all five node fields, its conversation has grown by
      exactly the input, and no other file has changed. */
  method Run(store: CaseStore, state: CareState, env: Collaborators, createdAt: int, plannedAt: int)
    returns (r: Result<CareState>)
    modifies store
    ensures r.Ok? <==> Completes(old(store.records), state, env, plannedAt)
    ensures r.Ok? ==>
      && r.value.caseId.Some? && HasId(r.value.caseId)
      && r.value.summary.Some?
      && var key := CaseKey(Cases, r.value.caseId.value);
      && store.records.Keys == old(store.records).Keys + {key}
      && (forall k | k in old(store.records) && k != key :: store.records[k] == old(store.records)[k])
      && RunFields <= store.records[key].Keys
      && store.records[key]["summary"] == Obj(r.value.summary.value)
      && store.records[key]["conversation"].Arr?
      && if HasId(state.caseId) then
           && r.value.caseId == state.caseId
           && key in old(store.records)
           && "conversation" in old(store.records)[key] && old(store.records)[key]["conversation"].Arr?
           && store.records[key]["conversation"].items ==
                old(store.records)[key]["conversation"].items + [Str(InputText(state.userInput))]
         else
           && key !in old(store.records)
           && store.records[key]["conversation"].items == [Str(InputText(state.userInput))]
    ensures r.Ok? ==>
      var symptoms := SymptomsOf(state, env).value;
      var verdict := VerdictOf(TriageReplyOf(symptoms, state, env), env);
      var outcome := ActionChain.ExecuteActionPlan(verdict, plannedAt).value;
      var summary := SummaryChain.GenerateSummaries(ReportedInput(state.userInput), symptoms, outcome.triageAfter,
                                                    outcome.plan, env.summaryModel(outcome.triageAfter, outcome.plan));
      && r.value == state.(caseId := r.value.caseId, symptoms := Some(symptoms), triage := Some(outcome.triageAfter),
                           action := Some(outcome.plan), summary := Some(summary))
      && store.records == Save(old(store.records), CaseKey(Cases, r.value.caseId.value),
           OpenedRecord(old(store.records), state.caseId, r.value.caseId.value, InputText(state.userInput), createdAt)
             ["last_symptoms" := Obj(symptoms)]["triage" := Obj(verdict)]["action" := Obj(outcome.plan)]
             ["summary" := Obj(summary)])
  {
    var collected := CollectSymptoms(store, state, env, createdAt);
    if collected.Err? {
      return collected;
    }
    ghost var key := CaseKey(Cases, collected.value.caseId.value);
    ghost var base := OpenedRecord(old(store.records), state.caseId, collected.value.caseId.value,
                                     InputText(state.userInput), createdAt);
    ghost var rec1 := base["last_symptoms" := Obj(collected.value.symptoms.value)];
    var classified := ClassifyNode(store, collected.value, env);
    if classified.Err? {
      return classified;
    }
    ghost var reply := TriageReplyOf(collected.value.symptoms.value, state, env);
    TriageChain.FillsDefaultsUnique(TriageChain.ExtractJson(Strip(reply.content), env.parseJson),
                                    classified.value.triage.value, VerdictOf(reply, env));
    ghost var rec2 := rec1["triage" := Obj(classified.value.triage.value)];
    SaveReplaces(old(store.records), key, rec1, rec2);
    var executed := ExecuteNode(store, classified.value, plannedAt);
    if executed.Err? {
      return executed;
    }
    ghost var rec3 := rec2["action" := Obj(executed.value.action.value)];
    SaveReplaces(old(store.records), key, rec2, rec3);
    var followed := FollowUp(executed.value);
    r := GenerateNode(store, followed, env);
    if r.Err? {
      return r;
    }
    ghost var rec4 := rec3["summary" := Obj(r.value.summary.value)];
    SaveReplaces(old(store.records), key, rec3, rec4);
    assert store.records == Save(old(store.records), key, rec4);
    RunRecordFields(base, Obj(collected.value.symptoms.value), Obj(classified.value.triage.value),
                    Obj(executed.value.action.value), Obj(r.value.summary.value));
  }
}
