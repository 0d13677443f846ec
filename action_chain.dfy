/** The action planner of chains/action_chain.py: instruction fallback, follow-up
    deadline table and the universal disclaimer. */
module ActionChain {
  import opened Values
  import opened Text

  /** The sentence whose presence suppresses the disclaimer. */
  const DisclaimerMarker := "This information is not medical advice."
  /** The disclaimer appended to the task list: the marker sentence and one more. */
  const Disclaimer := DisclaimerMarker + " Seek professional help if uncertain."
  /** The two-item plan used when the verdict has no usable instructions. */
  const FallbackInstructions: seq<string> := ["Rest and hydrate.", "If symptoms worsen, seek medical help promptly."]

  /** Seconds in an hour; clock readings are whole seconds. */
  const Hour := 3600

  /** The value the planner reads under "recommended_action". */
  function RecommendedAction(triage: Record): (a: Json)
    ensures "recommended_action" in triage ==> a == triage["recommended_action"]
    ensures "recommended_action" !in triage ==> a == Str("manual review")
  {
    GetOr(triage, "recommended_action", Str("manual review"))
  }

  /** The care instructions are usable: a non-empty list. */
  predicate Usable(instructions: Json) {
    instructions.Arr? && instructions.items != []
  }

  /** The instruction list the plan starts from: the verdict's own list when it is
      usable, the two-item fallback otherwise. */
  function StartingInstructions(triage: Record): (start: seq<Json>)
    ensures var given := GetOr(triage, "care_instructions", Arr([]));
            if Usable(given) then start == given.items
            else start == [Str(FallbackInstructions[0]), Str(FallbackInstructions[1])]
  {
    var given := GetOr(triage, "care_instructions", Arr([]));
    if Usable(given) then given.items else StrList(FallbackInstructions).items
  }

  /** The follow-up deadline for an action, `now` being the current clock reading. */
  function FollowUpDue(action: Json, now: int): (due: Json)
    ensures action == Str("emergency") <==> due == Null
    ensures action == Str("self-care") ==> due == Int(now + 24 * Hour)
    ensures action == Str("referral") ==> due == Int(now + 36 * Hour)
    ensures action !in {Str("self-care"), Str("referral"), Str("emergency")} ==> due == Int(now + 12 * Hour)
  {
    if action == Str("self-care") then Int(now + 24 * Hour)
    else if action == Str("referral") then Int(now + 36 * Hour)
    else if action == Str("emergency") then Null
    else Int(now + 12 * Hour)
  }

  /** The task list: the instructions, with the disclaimer appended unless their
      space-joined text already contains the marker. */
  function WithDisclaimer(instructions: seq<string>): (tasks: seq<string>)
    ensures Contains(Join(" ", instructions), DisclaimerMarker) ==> tasks == instructions
    ensures !Contains(Join(" ", instructions), DisclaimerMarker) ==> tasks == instructions + [Disclaimer]
    ensures Contains(Join(" ", tasks), DisclaimerMarker)
  {
    if Contains(Join(" ", instructions), DisclaimerMarker) then instructions
    else
      AppendedDisclaimerFound(instructions);
      instructions + [Disclaimer]
  }

  /** The joined text of a list ending in the disclaimer contains the marker. */
  lemma AppendedDisclaimerFound(xs: seq<string>)
    ensures Contains(Join(" ", xs + [Disclaimer]), DisclaimerMarker)
  {
    JoinSnoc(" ", xs, Disclaimer);
    var prefix := if xs == [] then "" else Join(" ", xs) + " ";
    assert Join(" ", xs + [Disclaimer]) == prefix + Disclaimer;
    assert (prefix + Disclaimer)[|prefix|..] == Disclaimer;
    assert DisclaimerMarker <= Disclaimer;
    ContainsAt(prefix + Disclaimer, |prefix|, DisclaimerMarker);
  }

  /** What execute_action_plan returns, and the caller's verdict as the call leaves it. */
  datatype PlanOutcome = PlanOutcome(plan: Record, triageAfter: Record)

  /** execute_action_plan(triage_result), with the clock reading as `now`.

      When the verdict's list is usable, the plan's task list IS that list and the
      disclaimer is appended to it in place, so the caller's verdict changes too;
      triageAfter is the verdict as the caller then sees it. A usable list with a
      non-string element makes the join raise. */
  function ExecuteActionPlan(triage: Record, now: int): (r: Result<PlanOutcome>)
    ensures r.Err? <==> !AllStrings(StartingInstructions(triage))
    ensures r.Ok? ==>
      var start := Strings(StartingInstructions(triage));
      && r.value.plan.Keys == {"action_type", "tasks", "follow_up_due"}
      && r.value.plan["action_type"] == RecommendedAction(triage)
      && r.value.plan["follow_up_due"] == FollowUpDue(RecommendedAction(triage), now)
      && r.value.plan["tasks"] == StrList(WithDisclaimer(start))
      && r.value.triageAfter ==
           if Usable(GetOr(triage, "care_instructions", Arr([]))) then triage["care_instructions" := r.value.plan["tasks"]]
           else triage
  {
    var start := StartingInstructions(triage);
    if !AllStrings(start) then Err(NonStringInstruction)
    else
      var action := RecommendedAction(triage);
      var tasks := StrList(WithDisclaimer(Strings(start)));
      var plan := map["action_type" := action, "tasks" := tasks, "follow_up_due" := FollowUpDue(action, now)];
      var after := if Usable(GetOr(triage, "care_instructions", Arr([]))) then triage["care_instructions" := tasks] else triage;
      Ok(PlanOutcome(plan, after))
  }

  /** The task list of a successful plan, as strings. */
  function Tasks(o: PlanOutcome): seq<Json> {
    if "tasks" in o.plan && o.plan["tasks"].Arr? then o.plan["tasks"].items else []
  }

  /** Without usable instructions, the plan starts with the two fallback sentences,
      in order, followed by the disclaimer. */
  lemma FallbackPlan(triage: Record, now: int)
    requires !Usable(GetOr(triage, "care_instructions", Arr([])))
    ensures var r := ExecuteActionPlan(triage, now);
      && r.Ok?
      && Tasks(r.value) == [Str("Rest and hydrate."), Str("If symptoms worsen, seek medical help promptly."), Str(Disclaimer)]
      && r.value.triageAfter == triage
  {
    FallbackLacksMarker();
    assert Strings(StartingInstructions(triage)) == FallbackInstructions;
  }

  /** The two fallback sentences do not contain the marker. */
  lemma FallbackLacksMarker()
    ensures !Contains(Join(" ", FallbackInstructions), DisclaimerMarker)
  {
    var fallback := FallbackInstructions;
    JoinPair(" ", fallback[0], fallback[1]);
    assert fallback == [fallback[0], fallback[1]];
    FallbackHasNoCapitalT();
    assert 'T' !in fallback[0] + " " + fallback[1];
    MarkerNeedsCapitalT(fallback[0] + " " + fallback[1]);
  }

  lemma JoinPair(sep: string, a: string, b: string)
    ensures Join(sep, [a, b]) == a + sep + b
  {
    assert [a, b][1..] == [b];
  }

  /* The fallback sentences contain no capital T. The solver checks a short string
     literal for a character quickly but a long one slowly, so each sentence is
     checked in short pieces, one small lemma per piece. */
  lemma FallbackHasNoCapitalT()
    ensures 'T' !in FallbackInstructions[0] && 'T' !in FallbackInstructions[1]
  {
    var a, b := "Rest and", " hydrate.";
    assert 'T' !in a;
    assert 'T' !in b;
    assert FallbackInstructions[0] == a + b;
    WorsenHasNoCapitalT();
  }

  lemma WorsenHasNoCapitalT()
    ensures 'T' !in FallbackInstructions[1]
  {
    IfSymptomsHasNoCapitalT();
    SeekHelpHasNoCapitalT();
    WorsenSplit();
  }

  /** The second sentence in two pieces. */
  lemma WorsenSplit()
    ensures FallbackInstructions[1] == "If symptoms worsen, " + "seek medical help promptly."
  {
  }

  lemma IfSymptomsHasNoCapitalT()
    ensures 'T' !in "If symptoms worsen, "
  {
    var a, b := "If symptoms", " worsen, ";
    assert 'T' !in a;
    assert 'T' !in b;
    assert "If symptoms worsen, " == a + b;
  }

  lemma SeekHelpHasNoCapitalT()
    ensures 'T' !in "seek medical help promptly."
  {
    var a, b := "seek medical", " help promptly.";
    assert 'T' !in a;
    assert 'T' !in b;
    assert "seek medical help promptly." == a + b;
  }

  /** The marker starts with a capital T, so text without one cannot contain it. */
  lemma MarkerNeedsCapitalT(text: string)
    requires 'T' !in text
    ensures !Contains(text, DisclaimerMarker)
  {
    assert DisclaimerMarker[0] == 'T';
    forall i | 0 <= i <= |text| ensures !(DisclaimerMarker <= text[i..]) {
      assert i < |text| ==> text[i..][0] == text[i];
    }
  }

  /** A usable list whose item is not a string, such as [1], makes the join raise:
      the plan fails, and with it the run. */
  lemma NonStringInstructionFails(triage: Record, x: Json, now: int)
    requires "care_instructions" in triage && triage["care_instructions"] == Arr([x]) && !x.Str?
    ensures ExecuteActionPlan(triage, now) == Err(NonStringInstruction)
  {
    assert GetOr(triage, "care_instructions", Arr([])) == Arr([x]);
    assert StartingInstructions(triage) == [x];
    assert [x][0] == x && !AllStrings([x]);
  }

  /** With usable string instructions, the tasks are those instructions, unchanged
      and in order, plus at most the disclaimer; the caller's verdict now holds the
      same task list under "care_instructions". */
  lemma GivenInstructionsKept(triage: Record, now: int)
    requires Usable(GetOr(triage, "care_instructions", Arr([])))
    requires AllStrings(triage["care_instructions"].items)
    ensures var r := ExecuteActionPlan(triage, now);
      var given := triage["care_instructions"].items;
      && r.Ok?
      && |given| <= |Tasks(r.value)| <= |given| + 1
      && Tasks(r.value)[..|given|] == given
      && r.value.triageAfter == triage["care_instructions" := Arr(Tasks(r.value))]
  {
    var given := triage["care_instructions"].items;
    var tasks := WithDisclaimer(Strings(given));
    assert StrList(tasks).items[..|given|] == given;
  }

  /** The disclaimer is appended exactly when the joined instructions lack the marker. */
  lemma DisclaimerAppendedIff(triage: Record, now: int)
    requires AllStrings(StartingInstructions(triage))
    ensures var r := ExecuteActionPlan(triage, now);
      var start := StartingInstructions(triage);
      && r.Ok?
      && (|Tasks(r.value)| == |start| + 1 <==> !Contains(Join(" ", Strings(start)), DisclaimerMarker))
      && (|Tasks(r.value)| == |start| <==> Contains(Join(" ", Strings(start)), DisclaimerMarker))
  {
  }

  /** Feeding a plan's tasks back in as the care instructions gives the same tasks:
      the disclaimer is never added twice. */
  lemma DisclaimerIdempotent(triage: Record, now: int, later: int)
    requires ExecuteActionPlan(triage, now).Ok?
    ensures var first := ExecuteActionPlan(triage, now).value;
      var again := ExecuteActionPlan(triage["care_instructions" := Arr(Tasks(first))], later);
      again.Ok? && Tasks(again.value) == Tasks(first)
  {
    var first := ExecuteActionPlan(triage, now).value;
    var tasks := WithDisclaimer(Strings(StartingInstructions(triage)));
    assert Tasks(first) == StrList(tasks).items;
    var triage2 := triage["care_instructions" := Arr(Tasks(first))];
    assert Usable(GetOr(triage2, "care_instructions", Arr([])));
    assert Strings(StartingInstructions(triage2)) == tasks;
  }

  /** The disclaimer is added at most once but never removed: instructions that
      already repeat it keep every copy. */
  lemma DisclaimerNotDeduplicated(now: int)
    ensures var triage := map["care_instructions" := StrList([Disclaimer, Disclaimer])];
      var r := ExecuteActionPlan(triage, now);
      r.Ok? && Tasks(r.value) == [Str(Disclaimer), Str(Disclaimer)]
  {
    var triage := map["care_instructions" := StrList([Disclaimer, Disclaimer])];
    JoinPair(" ", Disclaimer, Disclaimer);
    assert DisclaimerMarker <= (Disclaimer + " " + Disclaimer)[0..];
    ContainsAt(Disclaimer + " " + Disclaimer, 0, DisclaimerMarker);
    assert Strings(StartingInstructions(triage)) == [Disclaimer, Disclaimer];
  }
}
