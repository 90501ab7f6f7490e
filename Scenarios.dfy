/**
 * Concrete cases: the sample student and drives shipped with the frontend,
 * and small worked examples of each engine.
 */
module Scenarios {
  import opened Values
  import opened RuleEngine
  import opened ScoringEngine
  import ScreeningEngine
  import opened Workflow

  /** The sample student profile */
  function MockStudent(): Profile {
    map[
      "id" := Str("S101"),
      "name" := Str("Alice Smith"),
      "email" := Str("alice@example.com"),
      "cgpa" := Num(8.5),
      "branch" := Str("CSE"),
      "graduation_year" := Num(2025.0),
      "backlog_count" := Num(0.0),
      "skills" := List([Str("React"), Str("TypeScript"), Str("Node.js")]),
      "resume_url" := Str("http://example.com/alice_cv.pdf")]
  }

  function D001Rules(): seq<EligibilityRule> {
    [EligibilityRule("R1", "cgpa", Gte, Num(8.0), Some("Min CGPA")),
     EligibilityRule("R2", "backlog_count", Eq, Num(0.0), Some("Zero Backlogs"))]
  }

  function D002Rules(): seq<EligibilityRule> {
    [EligibilityRule("R3", "cgpa", Gte, Num(8.5), Some("Min CGPA")),
     EligibilityRule("R4", "skills", ContainsAny, List([Str("Python"), Str("PyTorch")]), Some("AI Skills"))]
  }

  /** The sample drives carry no version and are not frozen; 0 and false stand in */
  function MockDrives(): seq<PlacementDrive> {
    [PlacementDrive("D001", "TECH_CORP", D001Rules(),
                    [SelectionRound("RD1", "Aptitude Test", 1), SelectionRound("RD2", "Technical Interview", 2)],
                    Open, 0, false),
     PlacementDrive("D002", "NEBULA_AI", D002Rules(),
                    [SelectionRound("RD3", "Math Quiz", 1), SelectionRound("RD4", "Research Discussion", 2)],
                    Open, 0, false)]
  }

  /** Two rules that do not throw: the verdicts are the two comparisons, and eligibility their conjunction */
  lemma TwoRuleVerdicts(student: Profile, rules: seq<EligibilityRule>, first: bool, second: bool)
    requires |rules| == 2 && !RuleThrows(student, rules[0]) && !RuleThrows(student, rules[1])
    requires Compare(Get(student, rules[0].field), rules[0].operator, rules[0].value) == first
    requires Compare(Get(student, rules[1].field), rules[1].operator, rules[1].value) == second
    ensures Evaluate(student, rules).Success?
    ensures var e := Evaluate(student, rules).value;
      e.evaluations[0].passed == first && e.evaluations[1].passed == second && (e.isEligible <==> first && second)
  {
  }

  /** The sample student meets both rules of D001 */
  lemma MockStudentEligibleForD001()
    ensures Evaluate(MockStudent(), D001Rules()).Success?
    ensures var e := Evaluate(MockStudent(), D001Rules()).value;
      e.isEligible && e.evaluations[0].passed && e.evaluations[1].passed
  {
    TwoRuleVerdicts(MockStudent(), D001Rules(), true, true);
  }

  /** The sample student meets the CGPA rule of D002 but has neither Python nor PyTorch */
  lemma MockStudentNotEligibleForD002()
    ensures Evaluate(MockStudent(), D002Rules()).Success?
    ensures var e := Evaluate(MockStudent(), D002Rules()).value;
      !e.isEligible && e.evaluations[0].passed && !e.evaluations[1].passed
  {
    var skills := [Str("React"), Str("TypeScript"), Str("Node.js")];
    assert !Includes(skills, Str("Python")) && !Includes(skills, Str("PyTorch"));
    TwoRuleVerdicts(MockStudent(), D002Rules(), true, false);
  }

  /** A CGPA of 7 against a minimum of 8 is not eligible, with the explanation computed from both numbers */
  lemma LowCgpaRejected()
    ensures var rule := EligibilityRule("R1", "cgpa", Gte, Num(8.0), None);
      var r := Evaluate(map["cgpa" := Num(7.0)], [rule]);
      && r.Success? && !r.value.isEligible
      && r.value.evaluations[0].explanation == Explanation(rule, Num(7.0), false)
  {
    var rule := EligibilityRule("R1", "cgpa", Gte, Num(8.0), None);
    assert !Compare(Num(7.0), Gte, Num(8.0));
  }

  /** ... and that explanation reads "cgpa is 7, but the requirement is gte 8" */
  lemma LowCgpaExplanation()
    ensures Explanation(EligibilityRule("R1", "cgpa", Gte, Num(8.0), None), Num(7.0), false)
      == ("cgpa" + " is " + "7") + ", " + ("but the requirement is " + ("gte" + " " + "8"))
  {
    assert ValText(Num(7.0)) == "7";
    assert ValText(Num(8.0)) == "8";
  }

  /** Weights 0.6 on cgpa and 0.4 on skills: a CGPA of 8.0 and five skills give 48 + 40 = 88 */
  lemma WeightedCompositeExample(student: Profile, skills: seq<Val>)
    requires Get(student, "cgpa") == Num(8.0) && Get(student, "skills") == List(skills) && |skills| == 5
    ensures var cgpa := Entry(student, WeightConfig("cgpa", 0.6));
      var skills := Entry(student, WeightConfig("skills", 0.4));
      && cgpa.score == 80.0 && cgpa.weightedScore == 48.0
      && skills.score == 100.0 && skills.weightedScore == 40.0
      && Total([cgpa, skills]) == 88.0
  {
    var cgpa := Entry(student, WeightConfig("cgpa", 0.6));
    var skills := Entry(student, WeightConfig("skills", 0.4));
    assert cgpa.weightedScore == 48.0;
    assert skills.weightedScore == 40.0;
    TotalAppend([cgpa], [skills]);
    assert [cgpa][..0] == [] && [skills][..0] == [];
    assert Total([cgpa]) == 48.0 && Total([skills]) == 40.0;
    assert [cgpa] + [skills] == [cgpa, skills];
  }

  /** The composite is not clamped: a weight above 1 passes 100, a negative weight goes below 0 */
  lemma CompositeNotClamped(student: Profile)
    requires Get(student, "cgpa") == Num(10.0)
    ensures Total([Entry(student, WeightConfig("cgpa", 2.0))]) == 200.0
    ensures Total([Entry(student, WeightConfig("cgpa", -1.0))]) == -100.0
  {
    assert [Entry(student, WeightConfig("cgpa", 2.0))][..0] == [];
    assert [Entry(student, WeightConfig("cgpa", -1.0))][..0] == [];
  }

  /** A question expecting "Yes" that got no answer fails, and says it got "undefined" */
  lemma MissingScreeningAnswer()
    ensures var q := ScreeningEngine.PreScreeningQuestion("Q1", "Relocate?", ScreeningEngine.BoolQuestion, None, Str("Yes"));
      && !ScreeningEngine.Matches(q, map[])
      && ScreeningEngine.QuestionExplanation(q, Undefined, false)
         == "Failed on question \"" + "Relocate?" + "\". Expected \"" + "Yes" + "\" but got \"" + "undefined" + "\"."
  {
  }

  /** The sample student's application to D001 is ELIGIBLE with both rounds pending */
  lemma MockStudentAppliesToD001(token: string)
    ensures var applied := ApplyToDrive(MockDrives(), MockStudent(), "D001", token);
      && applied.Success?
      && applied.value.id == "APP_" + token
      && applied.value.currentStatus == Eligible
      && applied.value.roundProgress == [RoundStatus("RD1", Pending, ""), RoundStatus("RD2", Pending, "")]
  {
    MockStudentEligibleForD001();
    assert FindDrive(MockDrives(), "D001") == Some(MockDrives()[0]);
  }

  /** Passing RD1 keeps the application ELIGIBLE; passing RD2 as well makes it SELECTED */
  lemma TwoRoundsToSelection(app: Application)
    requires app.currentStatus == Eligible
    requires app.roundProgress == [RoundStatus("RD1", Pending, ""), RoundStatus("RD2", Pending, "")]
    ensures var afterRd1 := UpdateRoundStatus([app], app.id, "RD1", Passed, "good");
      && afterRd1.Success?
      && afterRd1.value[0].currentStatus == Eligible
      && var afterRd2 := UpdateRoundStatus(afterRd1.value, app.id, "RD2", Passed, "hired");
      && afterRd2.Success?
      && afterRd2.value[0].currentStatus == Selected
  {
    var afterRd1 := UpdateRoundStatus([app], app.id, "RD1", Passed, "good");
    assert afterRd1.value[0].roundProgress[1].status == Pending;
    var afterRd2 := UpdateRoundStatus(afterRd1.value, app.id, "RD2", Passed, "hired");
    assert afterRd2.value[0].roundProgress[0].status == Passed;
    assert afterRd2.value[0].roundProgress[1].status == Passed;
  }
}
