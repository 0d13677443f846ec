# Care-triage pipeline: a Dafny model of its deterministic core

This project models the deterministic logic of a care-triage assistant (MBSE-Model). The hard parts are done by a local language model. A user describes symptoms, and the pipeline then runs five steps:

1. It opens or extends a case file.
2. It extracts a symptom frame.
3. It classifies severity into a five-key verdict.
4. It builds an action plan with a follow-up deadline and a universal disclaimer.
5. It writes a patient view and a clinician view.

The model covers everything around the model calls:

- the code-fence cleanup and brace-span extraction that make the model's replies usable;
- the safe fallback objects;
- the required-key fill;
- the instruction fallback and disclaimer rule;
- the follow-up table;
- the red-flag keyword scan;
- the summary projections;
- the case store;
- the load-modify-save steps of the workflow nodes, in their linear order.

Modules, one per source file:

| module | file | source |
|---|---|---|
| `Values` | `values.dfy` | JSON values, records, replies, errors (shared) |
| `Text` | `text.dfy` | Python `strip`, `lower`, `in`, `join` (shared) |
| `SafetyRules` | `safety_rules.dfy` | `utils/safety_rules.py` |
| `TriageChain` | `triage_chain.dfy` | `chains/triage_chain.py` |
| `ActionChain` | `action_chain.dfy` | `chains/action_chain.py` |
| `SymptomChain` | `symptom_chain.dfy` | `chains/symptom_chain.py` |
| `SummaryChain` | `summary_chain.dfy` | `chains/summary_chain.py` |
| `JsonStore` | `json_store.dfy` | `utils/json_store.py` |
| `CareFlow` | `care_flow.dfy` | `graph/care_flow.py` |

How the outside world is represented:

- **Language-model calls** are function-typed parameters that return a `Reply`: either `Text(content)` or `Unavailable`. `Unavailable` stands for a reply that never arrives.
- **`json.loads`** is an abstract partial parser, `string -> Option<Record>`.
- **Pydantic validation of `SymptomFrame`** is an abstract validator. It says which fields a JSON text supplies, and the model applies the declared defaults.
- **The clock** is an integer parameter in seconds.
- **`uuid4`** is `CaseStore.NewCaseId`, which returns an id no stored file uses.
- **The filesystem** is a map from (folder, case id) to the record last written there.

Where the code does less than its comments and docstrings suggest, the model follows the code:

- **Language-model failures.** The triage module calls its extraction "resilient" (chains/triage_chain.py:2, 15-16), but that covers odd replies, not a failing call. Nothing catches a failing `chat.invoke` in `extract_symptoms` (chains/symptom_chain.py:52) or `classify_severity` (chains/triage_chain.py:70), so the failure escapes. `ExtractSymptoms` and `ClassifySeverity` therefore return `Err(ServiceUnavailable)` for an `Unavailable` reply, and the workflow stops there. Only the summary enhancement swallows failures.
- **Disclaimer count.** The comment at chains/action_chain.py:43 says the universal disclaimer is always added. The code appends it only when the joined instructions lack the marker sentence, and it never removes copies. So it guarantees "at least once, and never added twice" (`DisclaimerIdempotent`), not "exactly once" (`DisclaimerNotDeduplicated`).
- **Malformed instructions.** The docstring at chains/action_chain.py:10-13 says the plan falls back when the model supplies no instructions. A non-empty list with a non-string item, such as `[1]`, is used as given, and the join at chains/action_chain.py:44 then raises. So a malformed verdict stops the run (`NonStringInstructionFails`) instead of falling back.
- **Case writes.** `update_case` (utils/json_store.py:26-30) overwrites the file in place. The model claims nothing about atomicity.

## Model

| member | source | states |
|---|---|---|
| `Text.Strip` | chains/triage_chain.py:71 | the stripped text is no longer than the input and neither starts nor ends with whitespace |
| `Text.StripAround` | chains/symptom_chain.py:54 | whitespace added at either end of a text does not change its strip |
| `Text.StripChars` | chains/triage_chain.py:71 | a character absent from the text is absent from its strip |
| `Text.Lower` | utils/safety_rules.py:25 | the lowered text has the same length, each ASCII capital becomes its lower-case letter (code point + 32), no upper-case ASCII letter is left, and every other character is unchanged |
| `Text.Contains` | utils/safety_rules.py:25 | definition: `pat in text` holds iff pat starts at some position of text (no contract of its own) |
| `Text.Join` | chains/action_chain.py:44 | definition: the items with the separator between each two (no contract of its own; see `JoinContainsEach`, `JoinSnoc`) |
| `Text.JoinContainsEach` | chains/action_chain.py:44 | every item occurs in the joined text |
| `SafetyRules.CheckRedFlags` | utils/safety_rules.py:23-26 | the result lists red flags in RED_FLAGS order (a subsequence); a flag is in it iff it occurs in the lower-cased input; no duplicates; at most 13 entries |
| `SafetyRules.Matching` | utils/safety_rules.py:25 | the list-comprehension filter keeps exactly the keywords occurring in the text, in list order |
| `SafetyRules.CaseInsensitive` | utils/safety_rules.py:25 | inputs that differ only in letter case give the same flags |
| `SafetyRules.EmptyInputNoFlags` | utils/safety_rules.py:25 | the empty input raises no flag |
| `SafetyRules.MonotoneUnderAppend` | utils/safety_rules.py:25 | appending text to the input never removes a detected flag |
| `TriageChain.RemoveFences` | chains/triage_chain.py:20 | removing fences never lengthens the text |
| `TriageChain.Cleaned` | chains/triage_chain.py:19-20 | the cleaned text is no longer than the reply and contains no "```" |
| `TriageChain.NoFenceLeft` | chains/triage_chain.py:19-20 | after cleaning, the text contains no "```" at all, not even one that two removals could have joined together |
| `TriageChain.JsonFenceDropped` | chains/triage_chain.py:20 | a leading "```json" in any letter case ("```JSON", "```Json", ...) is removed whole, and fence removal goes on with the rest |
| `TriageChain.RemoveFencesPlain` | chains/triage_chain.py:20 | text without backticks passes through the fence removal unchanged |
| `TriageChain.SpanBounds` | chains/triage_chain.py:22 | the span exists iff some "{" is followed later by "}"; it runs from the first "{" to the last "}" |
| `TriageChain.BraceSpan` | chains/triage_chain.py:22-23 | there is a match iff the bounds exist; a match starts with "{", ends with "}" and has at least two characters |
| `TriageChain.BraceSpanOf` | chains/triage_chain.py:22 | an object with no "{" before it and no "}" after it is exactly the span found |
| `TriageChain.FallbackVerdict` | chains/triage_chain.py:29-35 | the fallback has exactly the five verdict keys: "UNKNOWN" severity, the fixed rationale "Could not parse LLM JSON response.", "manual review" (never "self-care"), no red flags, and the stripped original text as its single instruction |
| `TriageChain.ExtractJson` | chains/triage_chain.py:13-35 | any result other than the fallback is the parse of the brace span of the cleaned text, returned as-is |
| `TriageChain.ExtractFencedObject` | chains/triage_chain.py:19-25 | a reply that is a ```json-fenced object extracts to exactly that object's parse |
| `TriageChain.ExtractBareObject` | chains/triage_chain.py:22-25 | a bare object extracts to exactly its parse |
| `TriageChain.ExtractWithoutBrace` | chains/triage_chain.py:28-35 | a reply without "{" gives the fallback with the stripped reply as its instruction |
| `TriageChain.ExtractUnparsable` | chains/triage_chain.py:23-35 | a span that does not parse gives the fallback; nothing is raised |
| `TriageChain.FillRequiredKeys` | chains/triage_chain.py:77-79 | the loop adds every missing verdict key at its default and keeps every existing key, value and extra key; the result is `Filled(data)` |
| `TriageChain.Filled` | chains/triage_chain.py:77-79 | the completed verdict has all five keys, keeps every given key and value, adds no other key, and gives each missing key its default |
| `TriageChain.KeyDefault` | chains/triage_chain.py:79 | the two list keys default to [], every other key to "UNKNOWN" |
| `TriageChain.FillComplete` | chains/triage_chain.py:77-79 | a record that already has all five keys is left unchanged |
| `TriageChain.MissingKeyDefaults` | chains/triage_chain.py:77-79 | missing list keys become [], and every other missing key (recommended_action included) becomes "UNKNOWN" |
| `TriageChain.ClassifySeverity` | chains/triage_chain.py:38-81 | an unreachable model raises ServiceUnavailable; otherwise the verdict is the filled extraction of the stripped reply, and the fallback itself when no span parses |
| `ActionChain.RecommendedAction` | chains/action_chain.py:15 | the verdict's recommended_action when present (whatever its type), "manual review" otherwise |
| `ActionChain.Usable` | chains/action_chain.py:19 | definition: instructions are usable iff they are a non-empty list (no contract of its own) |
| `ActionChain.StartingInstructions` | chains/action_chain.py:16-23 | a missing, empty or non-list instruction value is replaced by the two fallback sentences; otherwise the given list is used |
| `ActionChain.FollowUpDue` | chains/action_chain.py:26-34 | self-care gives now+24h, referral now+36h, emergency none, anything else now+12h |
| `ActionChain.WithDisclaimer` | chains/action_chain.py:44-47 | the disclaimer is appended iff the space-joined instructions lack the marker sentence; afterwards the joined tasks always contain it |
| `ActionChain.ExecuteActionPlan` | chains/action_chain.py:9-49 | fails iff the chosen instructions are not all strings; the plan has exactly action_type (recommended_action, default "manual review"), tasks and follow_up_due; a usable list is extended in place, so the caller's verdict sees the same tasks |
| `ActionChain.FallbackPlan` | chains/action_chain.py:19-23 | without usable instructions the tasks are "Rest and hydrate.", "If symptoms worsen, seek medical help promptly." and the disclaimer, in that order, and the caller's verdict is untouched |
| `ActionChain.FallbackLacksMarker` | chains/action_chain.py:20-23 | the two fallback sentences do not contain the marker, so the fallback plan always gets the disclaimer |
| `ActionChain.GivenInstructionsKept` | chains/action_chain.py:16-45 | usable instructions are kept unchanged and in order at the head of the tasks; the length is n or n+1; the caller's care_instructions become the tasks |
| `ActionChain.DisclaimerAppendedIff` | chains/action_chain.py:44-47 | the task count is n+1 iff the joined instructions lack the marker, and n iff they contain it |
| `ActionChain.DisclaimerIdempotent` | chains/action_chain.py:44-47 | feeding the tasks back in as care_instructions gives the same tasks: no second disclaimer |
| `ActionChain.DisclaimerNotDeduplicated` | chains/action_chain.py:44-47 | instructions that already repeat the disclaimer keep both copies, so "exactly once" does not hold |
| `ActionChain.NonStringInstructionFails` | chains/action_chain.py:16-44 | a one-item instruction list whose item is not a string makes the plan fail with NonStringInstruction |
| `SymptomChain.WithDefaults` | chains/symptom_chain.py:15-23 | an unsupplied chief_complaint is "", the nullable fields are None unless supplied, and unsupplied lists are [] |
| `SymptomChain.DefaultFrame` | chains/symptom_chain.py:15-23 | a text that supplies nothing validates to the all-defaults frame |
| `SymptomChain.FrameRecord` | chains/symptom_chain.py:57 | the dumped frame has exactly the eight SymptomFrame keys |
| `SymptomChain.StripLineFences` | chains/symptom_chain.py:54 | the line-wise fence removal never lengthens the text |
| `SymptomChain.CleanModelOutput` | chains/symptom_chain.py:53-54 | the cleaned reply is no longer than the reply and neither starts nor ends with whitespace |
| `SymptomChain.StripLineFencesPlain` | chains/symptom_chain.py:54 | text without backticks passes through the line-wise fence removal unchanged |
| `SymptomChain.CleanPlainReply` | chains/symptom_chain.py:53-54 | a reply without backticks is only stripped |
| `SymptomChain.CleanFencedReply` | chains/symptom_chain.py:53-54 | a ```json-fenced block around any body without backticks cleans to the stripped body, whatever whitespace the body has at its ends |
| `SymptomChain.StripBetweenNewlines` | chains/symptom_chain.py:54 | the line breaks the fence removal leaves around the body are removed by the final strip |
| `SymptomChain.MidLineFenceKept` | chains/symptom_chain.py:54 | a "```" with text before it and after it on the same line (and no other backtick) is kept, whatever the line state; a fence that starts a line as "```json" or ends a line is not covered, since those are removed |
| `SymptomChain.MidLineFenceTail` | chains/symptom_chain.py:54 | in mid-line, "```" followed by more of its line and no other backtick is kept |
| `SymptomChain.FallbackFrame` | chains/symptom_chain.py:59-60 | the fallback has exactly chief_complaint (the user's text) and raw_output (the cleaned reply) |
| `SymptomChain.ExtractSymptoms` | chains/symptom_chain.py:26-60 | an unreachable model raises; otherwise validation success gives the dumped frame and failure gives the fallback, never an error |
| `SymptomChain.ExtractShape` | chains/symptom_chain.py:56-60 | a reply always gives one of the two key sets; raw_output is present iff validation failed, and then chief_complaint is the user's text |
| `SummaryChain.UserSummary` | chains/summary_chain.py:27-35 | the patient view has exactly seven keys: the input as given, verdict fields read with .get (None when absent), tasks defaulting to [], and the fixed note |
| `SummaryChain.ClinicianSummary` | chains/summary_chain.py:37-48 | the clinician view has exactly ten keys copied from the symptoms, verdict and plan, None when absent, with tasks defaulting to [] |
| `SummaryChain.GenerateSummaries` | chains/summary_chain.py:50-65 | the result has exactly "user" and "clinician"; the enhancement only adds the stripped llm_summary to the user view, and its failure changes nothing |
| `SummaryChain.ViewsAgree` | chains/summary_chain.py:27-48 | both views report the same triage level, task list and follow-up deadline |
| `SummaryChain.EnhancementOnlyAdds` | chains/summary_chain.py:50-65 | apart from llm_summary the user view is the base view, and llm_summary is present iff the enhancement produced a reply |
| `SummaryChain.AsWrittenEnhancement` | chains/summary_chain.py:55-63 | definition: the enhancement as written, Unavailable when the prompt text has a replacement field (no contract of its own) |
| `SummaryChain.AsWrittenNeverEnhances` | chains/summary_chain.py:55-63 | with the verdict's dict repr pasted into the template, formatting raises, so the enhancement is Unavailable and the user view has no llm_summary |
| `SummaryChain.AbsentFieldsAreNone` | chains/summary_chain.py:29-46 | absent verdict and symptom fields read as None, and missing tasks show as [] |
| `JsonStore.Load` | utils/json_store.py:32-36 | loading succeeds iff the file was written, and returns what is stored; otherwise NotFound |
| `JsonStore.Save` | utils/json_store.py:26-30 | a write installs the record under its key and leaves every other key as it was |
| `JsonStore.LoadAfterSave` | utils/json_store.py:26-36 | load after update returns the record written |
| `JsonStore.SaveLeavesOthers` | utils/json_store.py:26-36 | an update of one (folder, id) leaves every other file's load unchanged |
| `JsonStore.SaveReplaces` | utils/json_store.py:26-30 | an update replaces the whole record; nothing of an earlier write survives |
| `JsonStore.InitialRecord` | utils/json_store.py:15-20 | a new case holds case_id, created_at, status "active" and a one-entry conversation |
| `JsonStore.CaseStore.NewCaseId` | utils/json_store.py:14 | the new id is non-empty and used by no stored file |
| `JsonStore.CaseStore.CreateCase` | utils/json_store.py:12-24 | the id was not in the store; the store gains exactly the initial record under it |
| `JsonStore.CaseStore.UpdateCase` | utils/json_store.py:26-30 | the store is the old one with the record overwritten |
| `JsonStore.CaseStore.LoadCase` | utils/json_store.py:32-36 | returns what Load gives for the store's current content |
| `CareFlow.InputText` | graph/care_flow.py:34 | an absent or None user_input is read as "" |
| `CareFlow.ReportedInput` | graph/care_flow.py:108 | generate_node reads an absent user_input as "" but passes None on as None |
| `CareFlow.ClassificationText` | graph/care_flow.py:69-75 | the classification text starts with the user's text, followed by the context heading and the joined references |
| `CareFlow.NoReferencesContext` | graph/care_flow.py:71-75 | with no references the context after the heading is empty |
| `CareFlow.AppendUtterance` | graph/care_flow.py:41-42 | appending fails unless the stored conversation is a list; otherwise no key is added or removed |
| `CareFlow.ConversationAppendOnly` | graph/care_flow.py:41-43 | the conversation grows by exactly the new utterance at its end; earlier entries and all other fields are kept |
| `CareFlow.HasId` | graph/care_flow.py:82 | definition: a case id counts iff it is present and non-empty, as each `if case_id:` reads it (no contract of its own) |
| `CareFlow.Persist` | graph/care_flow.py:81-85 | without a case id nothing is written; with one a missing file is NotFound; otherwise only that case's record changes |
| `CareFlow.PersistOnlyOwnField` | graph/care_flow.py:83-85 | a node's write sets its own field and keeps every other field of the record and every other file |
| `CareFlow.SaveField` | graph/care_flow.py:124-128 | the load-modify-save leaves the store as Persist says, and unchanged when it fails |
| `CareFlow.OpenedRecord` | graph/care_flow.py:37-43 | the opened record is the stored one with the utterance appended (other fields kept), or the initial record of a new case |
| `CareFlow.OpenCase` | graph/care_flow.py:37-43 | without a case id a fresh case is created; with one, the utterance is appended to the existing case, which must exist; nothing else changes |
| `CareFlow.StoreSymptoms` | graph/care_flow.py:50 | the case record, as just stored, gains last_symptoms |
| `CareFlow.CollectSymptoms` | graph/care_flow.py:33-52 | succeeds iff the case can be opened and extraction succeeds; then the state carries the (new) case id and symptoms, and the case record is the opened record plus last_symptoms |
| `CareFlow.ClassifyNode` | graph/care_flow.py:68-88 | the verdict is the filled extraction of the model's reply; only the case's triage field is written; a failure writes nothing |
| `CareFlow.ExecuteNode` | graph/care_flow.py:90-101 | the plan is ExecuteActionPlan of the state's verdict; only the case's action field is written; the state's verdict shows the in-place append |
| `CareFlow.FollowUp` | graph/care_flow.py:103-105 | follow_up is the identity |
| `CareFlow.GenerateNode` | graph/care_flow.py:107-136 | the summary is generate_summaries of the state; only the case's summary field is written; the state gets the summary and the inputs it was made from |
| `CareFlow.ProseVerdict` | chains/triage_chain.py:28-79 | a triage reply without "{" classifies to the fallback verdict with the stripped reply as its instruction, which the fill leaves unchanged |
| `CareFlow.FallbackVerdictPlan` | chains/action_chain.py:14-47 | the fallback verdict plans a manual review due twelve hours later, whose tasks are its one instruction plus the disclaimer unless it has the marker |
| `CareFlow.ProseReplyCompletes` | graph/care_flow.py:33-101 | a prose triage reply (no "{") still lets the run complete, with the fallback verdict and its manual-review plan |
| `CareFlow.SelfCareSummary` | chains/action_chain.py:19-28 | a self-care verdict without usable instructions gives a clinician view with the verdict's level, the three fallback tasks and a follow-up a day later |
| `CareFlow.RunRecordFields` | graph/care_flow.py:50-128 | after the four field writes the record holds all five node fields and its conversation is untouched |
| `CareFlow.Run` | graph/care_flow.py:33-162 | the run succeeds iff the case can be opened, symptom extraction succeeds, the triage model answers and the planner accepts the verdict (`Completes`); then the state carries exactly the extracted symptoms, the planner's view of the verdict, the plan and the summary made from them; the case record is the opened record plus last_symptoms, the filled verdict, the plan and that summary; the conversation has grown by exactly the input (or is the one-entry conversation of a new case); no other file changes |

## Left out

- The prompts, model selection, temperature and the chat library are not modelled. Each model call is an oracle parameter.
- The LangGraph runtime is not modelled (the state graph and channel merging). Only the linear node order is modelled. The edge at graph/care_flow.py:158 runs `emergency_exit` after every classification, beside `execute_action`; it returns the state unchanged (graph/care_flow.py:140), so the model leaves it out.
- `json.loads`, `json.load`/`json.dump` and pydantic coercion rules are abstract parsers and validators, not a JSON grammar.
- The filesystem is left out: paths, open/write errors, and the non-atomic in-place overwrite. The store is a map.
- `uuid4` randomness is replaced by `CaseStore.NewCaseId`, which returns a run of zeros longer than any stored id.
- The ISO-8601 formatting of `utcnow()` is left out. Times are integer seconds.
- Unicode letter case is left out. `lower()` in `check_red_flags` and the `IGNORECASE` fence match fold only the ASCII letters A–Z; every other character keeps its case.
- Dict key order and JSON float formatting are not modelled.
- The references the classification text could carry are not modelled. They never reach the state.
- CareState entries other than `user_input` are not modelled as present-with-None. For them, None means absent.
- The unused `level` and `triage_stub` variables, `main.py`, and the commented-out retrieval node are left out.
- ActionChain.ExecuteActionPlan: the in-place append is modelled on values (the returned `triageAfter`). CareFlow.ExecuteNode threads it into the state's verdict, assuming the graph hands the same dict from node to node.
- CareFlow.CollectSymptoms: when extraction fails, it states only that no file other than the state's case changed. It does not spell out the conversation write that already happened.
- Text.Strip: its own contract states only that the result is no longer than the input and has no whitespace at either end. `StripAround`, `StripPadded` and `StripChars` state which characters are removed.
- The summary enhancement is modelled as intended: `CareFlow.SummaryOf` passes the summarising model's reply in as it is. The code as written never enhances (see "## Findings" and `AsWrittenEnhancement`).

## Findings

| source | as written | input that shows it | evidently intended | confidence | as-written member | corrected member |
|---|---|---|---|---|---|---|
| chains/summary_chain.py:57-59 | the verdict and plan reprs are pasted into an f-string template, then `format_messages()` is called with no arguments; a "{" from a dict repr opens a replacement field with no value, so formatting raises and line 62 swallows it | any verdict, e.g. `{'severity_level': 'GREEN'}`: the prompt text contains `{'severity_level'` | the records reach the model (passed as template variables, as chains/triage_chain.py:64-69 does with escaped braces), and a reply adds llm_summary | not executed | `SummaryChain.AsWrittenNeverEnhances` | `SummaryChain.EnhancementOnlyAdds` |
