/** The two summary views of chains/summary_chain.py and the optional enhancement
    whose failure is swallowed. */
module SummaryChain {
  import opened Values
  import opened Text

  const SummaryNote := "This information is for triage support and not a medical diagnosis."

  const UserKeys: set<string> := {"what_you_reported", "triage_level", "reasoning", "what_to_do_now",
                                  "next_steps", "follow_up_due", "note"}

  const ClinicianKeys: set<string> := {"chief_complaint", "duration_days", "associated_symptoms", "severity_self",
                                       "triage_level", "rationale", "red_flags", "recommended_action",
                                       "tasks", "follow_up_due"}

  /** The patient view. userInput is whatever the caller passed, None included. */
  function UserSummary(userInput: Json, triage: Record, plan: Record): (u: Record)
    ensures "what_you_reported" in u && u["what_you_reported"] == userInput
    ensures "note" in u && u["note"] == Str(SummaryNote)
    ensures "triage_level" in u && u["triage_level"] == Get(triage, "severity_level")
    ensures "reasoning" in u && u["reasoning"] == Get(triage, "rationale")
    ensures "what_to_do_now" in u && u["what_to_do_now"] == Get(triage, "recommended_action")
    ensures "next_steps" in u && u["next_steps"] == (if "tasks" in plan then plan["tasks"] else Arr([]))
    ensures "follow_up_due" in u && u["follow_up_due"] == Get(plan, "follow_up_due")
    ensures u.Keys == UserKeys
  {
    map[
      "what_you_reported" := userInput,
      "triage_level" := Get(triage, "severity_level"),
      "reasoning" := Get(triage, "rationale"),
      "what_to_do_now" := Get(triage, "recommended_action"),
      "next_steps" := GetOr(plan, "tasks", Arr([])),
      "follow_up_due" := Get(plan, "follow_up_due"),
      "note" := Str(SummaryNote)
    ]
  }

  /** The clinician view. */
  function ClinicianSummary(symptoms: Record, triage: Record, plan: Record): (c: Record)
    ensures "chief_complaint" in c && c["chief_complaint"] == Get(symptoms, "chief_complaint")
    ensures "duration_days" in c && c["duration_days"] == Get(symptoms, "duration_days")
    ensures "associated_symptoms" in c && c["associated_symptoms"] == Get(symptoms, "associated_symptoms")
    ensures "severity_self" in c && c["severity_self"] == Get(symptoms, "severity_self")
    ensures "triage_level" in c && c["triage_level"] == Get(triage, "severity_level")
    ensures "rationale" in c && c["rationale"] == Get(triage, "rationale")
    ensures "red_flags" in c && c["red_flags"] == Get(triage, "red_flags_triggered")
    ensures "recommended_action" in c && c["recommended_action"] == Get(triage, "recommended_action")
    ensures "tasks" in c && c["tasks"] == (if "tasks" in plan then plan["tasks"] else Arr([]))
    ensures "follow_up_due" in c && c["follow_up_due"] == Get(plan, "follow_up_due")
    ensures c.Keys == ClinicianKeys
  {
    ClinicianDisplayKeys(Get(symptoms, "chief_complaint"), Get(symptoms, "duration_days"),
      Get(symptoms, "associated_symptoms"), Get(symptoms, "severity_self"), Get(triage, "severity_level"),
      Get(triage, "rationale"), Get(triage, "red_flags_triggered"), Get(triage, "recommended_action"),
      GetOr(plan, "tasks", Arr([])), Get(plan, "follow_up_due"));
    map[
      "chief_complaint" := Get(symptoms, "chief_complaint"),
      "duration_days" := Get(symptoms, "duration_days"),
      "associated_symptoms" := Get(symptoms, "associated_symptoms"),
      "severity_self" := Get(symptoms, "severity_self"),
      "triage_level" := Get(triage, "severity_level"),
      "rationale" := Get(triage, "rationale"),
      "red_flags" := Get(triage, "red_flags_triggered"),
      "recommended_action" := Get(triage, "recommended_action"),
      "tasks" := GetOr(plan, "tasks", Arr([])),
      "follow_up_due" := Get(plan, "follow_up_due")
    ]
  }

  /** The clinician display has the ten clinician keys, whatever the values. */
  lemma ClinicianDisplayKeys(v0: Json, v1: Json, v2: Json, v3: Json, v4: Json, v5: Json, v6: Json, v7: Json,
                             v8: Json, v9: Json)
    ensures map["chief_complaint" := v0, "duration_days" := v1, "associated_symptoms" := v2,
                "severity_self" := v3, "triage_level" := v4, "rationale" := v5, "red_flags" := v6,
                "recommended_action" := v7, "tasks" := v8, "follow_up_due" := v9].Keys == ClinicianKeys
  {
  }

  /** generate_summaries. `enhancement` is what the summarising model yields: its
      reply, or Unavailable when the chat library is missing or anything in the
      enhancement raises, which the code swallows. */
  function GenerateSummaries(userInput: Json, symptoms: Record, triage: Record, plan: Record,
                             enhancement: Reply): (r: Record)
    ensures "clinician" in r && r["clinician"] == Obj(ClinicianSummary(symptoms, triage, plan))
    ensures "user" in r && r["user"].Obj?
    ensures enhancement.Unavailable? ==> r["user"] == Obj(UserSummary(userInput, triage, plan))
    ensures enhancement.Text? ==>
      r["user"] == Obj(UserSummary(userInput, triage, plan)["llm_summary" := Str(Strip(enhancement.content))])
    ensures r.Keys == {"user", "clinician"}
  {
    var user := UserSummary(userInput, triage, plan);
    var user' := if enhancement.Text? then user["llm_summary" := Str(Strip(enhancement.content))] else user;
    map["user" := Obj(user'), "clinician" := Obj(ClinicianSummary(symptoms, triage, plan))]
  }

  /** The user view of a result. */
  function UserView(r: Record): Record {
    if "user" in r && r["user"].Obj? then r["user"].fields else map[]
  }

  /** The clinician view of a result. */
  function ClinicianView(r: Record): Record {
    if "clinician" in r && r["clinician"].Obj? then r["clinician"].fields else map[]
  }

  /** Both views report the same triage level, task list and follow-up deadline,
      whatever the enhancement did. */
  lemma ViewsAgree(userInput: Json, symptoms: Record, triage: Record, plan: Record, enhancement: Reply)
    ensures var r := GenerateSummaries(userInput, symptoms, triage, plan, enhancement);
      var u, c := UserView(r), ClinicianView(r);
      && "triage_level" in u && "triage_level" in c && u["triage_level"] == c["triage_level"]
      && "next_steps" in u && "tasks" in c && u["next_steps"] == c["tasks"]
      && "follow_up_due" in u && "follow_up_due" in c && u["follow_up_due"] == c["follow_up_due"]
  {
    var r := GenerateSummaries(userInput, symptoms, triage, plan, enhancement);
    var base := UserSummary(userInput, triage, plan);
    assert ClinicianView(r) == ClinicianSummary(symptoms, triage, plan);
    if enhancement.Text? {
      var u := base["llm_summary" := Str(Strip(enhancement.content))];
      assert UserView(r) == u;
      assert u["triage_level"] == base["triage_level"];
      assert u["next_steps"] == base["next_steps"];
      assert u["follow_up_due"] == base["follow_up_due"];
    } else {
      assert UserView(r) == base;
    }
  }

  /** The enhancement can only add "llm_summary" to the user view: without it the
      user view is the base view, whether or not the enhancement succeeded. */
  lemma EnhancementOnlyAdds(userInput: Json, symptoms: Record, triage: Record, plan: Record, enhancement: Reply)
    ensures var u := UserView(GenerateSummaries(userInput, symptoms, triage, plan, enhancement));
      && u - {"llm_summary"} == UserSummary(userInput, triage, plan)
      && ("llm_summary" in u <==> enhancement.Text?)
  {
    var base := UserSummary(userInput, triage, plan);
    assert "llm_summary" !in UserKeys;
    if enhancement.Text? {
      AddThenRemove(base, "llm_summary", Str(Strip(enhancement.content)));
    } else {
      RemoveAbsent(base, "llm_summary");
    }
  }

  lemma AddThenRemove(m: Record, k: string, v: Json)
    requires k !in m
    ensures m[k := v] - {k} == m
  {
  }

  lemma RemoveAbsent(m: Record, k: string)
    requires k !in m
    ensures m - {k} == m
  {
  }

  /** The start of the user message of the enhancement prompt. */
  const PromptHead := "Summarize this triage result in plain English:\n"

  /** The user message as written: the reprs of the verdict and the plan are pasted
      into the template text itself. */
  function PromptText(triageRepr: string, planRepr: string): string {
    PromptHead + triageRepr + "\n" + planRepr
  }

  /** An f-string template has a replacement field: a "{" that is not part of an
      escaped "{{". */
  predicate HasReplacementField(t: string) {
    exists i | 0 <= i < |t| :: t[i] == '{' && (i + 1 == |t| || t[i + 1] != '{') && (i == 0 || t[i - 1] != '{')
  }

  /** Python's repr of a dict: "{" followed by a quoted key or by the closing "}". */
  predicate DictRepr(r: string) {
    |r| >= 2 && r[0] == '{' && r[1] != '{'
  }

  /** The enhancement as written: format_messages() is called with no arguments, so
      a template with a replacement field raises, and the handler swallows that as
      no enhancement; otherwise the model's reply. */
  function AsWrittenEnhancement(triageRepr: string, planRepr: string, reply: Reply): Reply {
    if HasReplacementField(PromptText(triageRepr, planRepr)) then Unavailable else reply
  }

  /** As written, the verdict's repr always opens a replacement field, so the
      enhancement never happens and the user view never has llm_summary, whatever
      the model would reply. */
  lemma AsWrittenNeverEnhances(userInput: Json, symptoms: Record, triage: Record, plan: Record,
                               triageRepr: string, planRepr: string, reply: Reply)
    requires DictRepr(triageRepr)
    ensures AsWrittenEnhancement(triageRepr, planRepr, reply) == Unavailable
    ensures "llm_summary" !in UserView(GenerateSummaries(userInput, symptoms, triage, plan,
                                                         AsWrittenEnhancement(triageRepr, planRepr, reply)))
  {
    var t := PromptText(triageRepr, planRepr);
    var k := |PromptHead|;
    assert PromptHead[k - 1] == '\n';
    assert t[k - 1] == '\n' && t[k] == '{' && t[k + 1] == triageRepr[1];
    assert HasReplacementField(t);
    assert "llm_summary" !in UserKeys;
  }

  /** Absent fields read as None in both views, and a plan without tasks shows an
      empty task list. */
  lemma AbsentFieldsAreNone(userInput: Json, symptoms: Record, triage: Record, plan: Record, enhancement: Reply)
    requires "severity_level" !in triage && "tasks" !in plan && "chief_complaint" !in symptoms
    ensures var r := GenerateSummaries(userInput, symptoms, triage, plan, enhancement);
      && UserView(r)["triage_level"] == Null && ClinicianView(r)["triage_level"] == Null
      && UserView(r)["next_steps"] == Arr([]) && ClinicianView(r)["tasks"] == Arr([])
      && ClinicianView(r)["chief_complaint"] == Null
  {
    assert "llm_summary" !in UserKeys;
  }
}
