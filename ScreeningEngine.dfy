/**
 * Pre-screening (`ScreeningEngine`): each question's answer must equal the
 * question's expected value exactly; every question gets an explanation,
 * in question order.
 */
module ScreeningEngine {
  import opened Values

  datatype QuestionType = Mcq | BoolQuestion | Numeric

  datatype PreScreeningQuestion = PreScreeningQuestion(
    id: string,
    text: string,
    questionType: QuestionType,
    options: Option<seq<string>>,
    expectedValue: Val)

  datatype ScreeningResult = ScreeningResult(passed: bool, explanations: seq<string>)

  /** `responses[q.id] === q.expectedValue` */
  predicate Matches(q: PreScreeningQuestion, responses: Profile) {
    StrictEquals(Get(responses, q.id), q.expectedValue)
  }

  /** The explanation of one question, given the answer received */
  function QuestionExplanation(q: PreScreeningQuestion, answer: Val, isMatch: bool): string {
    if isMatch then
      "Met requirements for \"" + q.text + "\"."
    else
      "Failed on question \"" + q.text + "\". Expected \"" + ValText(q.expectedValue)
      + "\" but got \"" + ValText(answer) + "\"."
  }

  /**
   * `ScreeningEngine.evaluate`: the candidate passes exactly when every
   * answer matches; explanation i is question i's.
   */
  method Evaluate(questions: seq<PreScreeningQuestion>, responses: Profile) returns (r: ScreeningResult)
    ensures r.passed <==> forall i :: 0 <= i < |questions| ==> Matches(questions[i], responses)
    ensures |r.explanations| == |questions|
    ensures forall i :: 0 <= i < |questions| ==>
      r.explanations[i] == QuestionExplanation(questions[i], Get(responses, questions[i].id), Matches(questions[i], responses))
  {
    var passed := true;
    var explanations: seq<string> := [];
    var k := 0;
    while k < |questions|
      invariant 0 <= k <= |questions|
      invariant passed <==> forall i :: 0 <= i < k ==> Matches(questions[i], responses)
      invariant |explanations| == k
      invariant forall i :: 0 <= i < k ==>
        explanations[i] == QuestionExplanation(questions[i], Get(responses, questions[i].id), Matches(questions[i], responses))
    {
      var q := questions[k];
      var answer := Get(responses, q.id);
      var isMatch := StrictEquals(answer, q.expectedValue);
      if !isMatch {
        passed := false;
      }
      explanations := explanations + [QuestionExplanation(q, answer, isMatch)];
      k := k + 1;
    }
    r := ScreeningResult(passed, explanations);
  }

  /** The first character of an explanation tells the outcome: 'M'et or 'F'ailed */
  lemma ExplanationTellsOutcome(q: PreScreeningQuestion, answer: Val, isMatch: bool)
    ensures QuestionExplanation(q, answer, isMatch)[0] == (if isMatch then 'M' else 'F')
  {
  }

  /** A passing explanation is the fixed opening, the quoted question text and a full stop */
  lemma SuccessQuotesQuestion(q: PreScreeningQuestion, answer: Val)
    ensures var s := QuestionExplanation(q, answer, true);
      var i := |"Met requirements for \""|;
      && s[..i] == "Met requirements for \""
      && s[i..i + |q.text|] == q.text
      && s[i + |q.text|..] == "\"."
  {
    SliceAfter("Met requirements for \"", q.text, "\".");
  }

  /** A failing explanation quotes the question, the expected value and the answer, in that order */
  lemma FailureQuotesAnswer(q: PreScreeningQuestion, answer: Val)
    ensures var s := QuestionExplanation(q, answer, false);
      var i := |"Failed on question \""|;
      var j := i + |q.text| + |"\". Expected \""|;
      var k := j + |ValText(q.expectedValue)| + |"\" but got \""|;
      && s[i..i + |q.text|] == q.text
      && s[j..j + |ValText(q.expectedValue)|] == ValText(q.expectedValue)
      && s[k..k + |ValText(answer)|] == ValText(answer)
  {
    var p1 := "Failed on question \"";
    var p2 := p1 + q.text + "\". Expected \"";
    var p3 := p2 + ValText(q.expectedValue) + "\" but got \"";
    var s := QuestionExplanation(q, answer, false);
    assert s == p3 + (ValText(answer) + "\".");
    QuotedPieces(p1, q.text, "\". Expected \"", ValText(q.expectedValue), "\" but got \"", ValText(answer) + "\".");
    SliceAfter(p3, ValText(answer), "\".");
  }

  /** In `p1 + x + m1 + y + rest`, `x` sits after `p1` and `y` after `p1 + x + m1` */
  lemma QuotedPieces(p1: string, x: string, m1: string, y: string, m2: string, rest: string)
    ensures var s := p1 + x + m1 + y + m2 + rest;
      && s[|p1|..|p1| + |x|] == x
      && s[|p1 + x + m1|..|p1 + x + m1| + |y|] == y
  {
    var p2 := p1 + x + m1;
    SliceAfter(p1, x, m1);
    SliceWithin(p2, y + m2 + rest, |p1|, |p1| + |x|);
    assert p2 + y + m2 + rest == p2 + (y + m2 + rest);
    SliceAfter(p2, y, m2 + rest);
    assert p2 + y + m2 + rest == p2 + y + (m2 + rest);
  }

  /** A question whose expected value is defined fails when no answer was given */
  lemma MissingAnswerFails(q: PreScreeningQuestion, responses: Profile)
    requires q.id !in responses && q.expectedValue != Undefined
    ensures !Matches(q, responses)
  {
  }
}
