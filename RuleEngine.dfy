/**
 * The eligibility rule interpreter (`RuleEvaluator`): each rule compares one
 * profile attribute against a configured value with a fixed operator, and
 * the profile is eligible when every rule passes. Every rule yields a
 * result record with a human-readable explanation.
 */
module RuleEngine {
  import opened Values

  /** An operator name outside the fixed set */
  type UnknownName = name: string | name !in {"gte", "lte", "eq", "neq", "in", "contains_all", "contains_any"}
    witness ""

  /** The operator names; anything else falls to the `default` branch */
  datatype Operator = Gte | Lte | Eq | Neq | In | ContainsAll | ContainsAny | Other(name: UnknownName)

  /** `${rule.operator}` */
  function OperatorText(op: Operator): string {
    match op
    case Gte => "gte"
    case Lte => "lte"
    case Eq => "eq"
    case Neq => "neq"
    case In => "in"
    case ContainsAll => "contains_all"
    case ContainsAny => "contains_any"
    case Other(name) => name
  }

  /** Each operator is written under its own name */
  lemma OperatorTextNamesOperator(a: Operator, b: Operator)
    ensures OperatorText(a) == OperatorText(b) ==> a == b
  {
  }

  datatype EligibilityRule = EligibilityRule(
    id: string,
    field: string,
    operator: Operator,
    value: Val,
    ruleLabel: Option<string>)  // `label` in the source (a reserved word here)

  datatype RuleEvaluationResult = RuleEvaluationResult(
    ruleId: string,
    field: string,
    operator: Operator,
    expectedValue: Val,
    actualValue: Val,
    passed: bool,
    explanation: string)

  datatype EligibilityResult = EligibilityResult(isEligible: bool, evaluations: seq<RuleEvaluationResult>)

  /**
   * `contains_all` and `contains_any` call `expected.every` / `expected.some`
   * once `actual` is an array; only an array `expected` has those methods.
   */
  predicate Throws(actual: Val, op: Operator, expected: Val) {
    (op == ContainsAll || op == ContainsAny) && actual.List? && !expected.List?
  }

  /** `expected.every(val => actual.includes(val))` */
  function EveryIncluded(expected: seq<Val>, actual: seq<Val>): (b: bool)
    ensures b <==> forall i :: 0 <= i < |expected| ==> Includes(actual, expected[i])
  {
    if expected == [] then true
    else
      assert forall i :: 1 <= i < |expected| ==> expected[i] == expected[1..][i - 1];
      Includes(actual, expected[0]) && EveryIncluded(expected[1..], actual)
  }

  /** `expected.some(val => actual.includes(val))` */
  function SomeIncluded(expected: seq<Val>, actual: seq<Val>): (b: bool)
    ensures b <==> exists i :: 0 <= i < |expected| && Includes(actual, expected[i])
  {
    if expected == [] then false
    else if Includes(actual, expected[0]) then true
    else
      var rest := SomeIncluded(expected[1..], actual);
      assert rest ==> exists i :: 0 <= i < |expected[1..]| && Includes(actual, expected[1..][i]);
      assert forall i :: 1 <= i < |expected| ==> expected[i] == expected[1..][i - 1];
      rest
  }

  /** The `switch` over the operator */
  function Compare(actual: Val, op: Operator, expected: Val): (b: bool)
    requires !Throws(actual, op, expected)
    ensures op.Other? ==> !b
    ensures op == In && b ==> expected.List?
    ensures (op == ContainsAll || op == ContainsAny) && b ==> actual.List?
    ensures op == Neq && actual.List? ==> b
    ensures (op == Gte || op == Lte) && b ==> actual != Undefined && expected != Undefined
  {
    match op
    case Gte => LooseGreaterEq(actual, expected)
    case Lte => LooseLessEq(actual, expected)
    case Eq => StrictEquals(actual, expected)
    case Neq => !StrictEquals(actual, expected)
    case In => expected.List? && Includes(expected.items, actual)
    case ContainsAll => actual.List? && EveryIncluded(expected.items, actual.items)
    case ContainsAny => actual.List? && SomeIncluded(expected.items, actual.items)
    case Other(_) => false
  }

  /** `rule.label || rule.field` */
  function Label(rule: EligibilityRule): (l: string)
    ensures rule.ruleLabel.Some? && rule.ruleLabel.value != "" ==> l == rule.ruleLabel.value
    ensures rule.ruleLabel.None? || rule.ruleLabel.value == "" ==> l == rule.field
  {
    match rule.ruleLabel
    case Some(text) => if text != "" then text else rule.field
    case None => rule.field
  }

  /** "<subject>, which meets the requirement (<requirement>)" or "<subject>, but the requirement is <requirement>" */
  function Sentence(subject: string, requirement: string, passed: bool): string {
    subject + ", "
    + if passed then "which meets the requirement (" + requirement + ")" else "but the requirement is " + requirement
  }

  /** The sentence shown for one rule: what the value is, and whether it meets the requirement */
  function Explanation(rule: EligibilityRule, actual: Val, passed: bool): (r: string)
    ensures Label(rule) + " is " + ValText(actual) + ", " <= r
  {
    SentenceShape(Label(rule) + " is " + ValText(actual), OperatorText(rule.operator) + " " + ValText(rule.value), passed);
    Sentence(Label(rule) + " is " + ValText(actual), OperatorText(rule.operator) + " " + ValText(rule.value), passed)
  }

  /** Both sentences open with the subject */
  lemma SentenceShape(subject: string, requirement: string, passed: bool)
    ensures subject + ", " <= Sentence(subject, requirement, passed)
  {
    var tail := if passed then "which meets the requirement (" + requirement + ")" else "but the requirement is " + requirement;
    PrefixOfConcat(subject + ", ", tail);
  }

  /**
   * The passing sentence ends with the requirement in parentheses; the
   * failing one ends with the bare requirement
   */
  lemma SentenceEnding(subject: string, requirement: string)
    ensures var s := Sentence(subject, requirement, true); s[|s| - 1] == ')'
    ensures var s := Sentence(subject, requirement, true);
      |s| >= |requirement| + 2 && s[|s| - |requirement| - 2..] == "(" + requirement + ")"
    ensures var s := Sentence(subject, requirement, false);
      s[|s| - |requirement|..] == requirement
  {
    var t := Sentence(subject, requirement, true);
    assert t == (subject + ", " + "which meets the requirement ") + ("(" + requirement + ")");
    var s := Sentence(subject, requirement, false);
    assert s == (subject + ", " + "but the requirement is ") + requirement;
  }

  /** A passing and a failing explanation for the same rule and value always differ */
  lemma ExplanationTellsVerdict(rule: EligibilityRule, actual: Val)
    ensures Explanation(rule, actual, true) != Explanation(rule, actual, false)
    ensures Label(rule) + " is " + ValText(actual) + ", " <= Explanation(rule, actual, true)
    ensures Label(rule) + " is " + ValText(actual) + ", " <= Explanation(rule, actual, false)
  {
    var subject := Label(rule) + " is " + ValText(actual);
    var requirement := OperatorText(rule.operator) + " " + ValText(rule.value);
    SentenceDiffers(subject, requirement);
    SentenceShape(subject, requirement, true);
    SentenceShape(subject, requirement, false);
  }

  lemma SentenceDiffers(subject: string, requirement: string)
    ensures Sentence(subject, requirement, true) != Sentence(subject, requirement, false)
  {
    var yesHead := subject + ", which meets the requirement (";
    var noHead := subject + ", but the requirement is ";
    assert yesHead[|subject| + 2] == 'w';
    assert noHead[|subject| + 2] == 'b';
    assert Sentence(subject, requirement, true)[|subject| + 2] == 'w';
    assert Sentence(subject, requirement, false)[|subject| + 2] == 'b';
  }

  // ---------------------------------------------------------------------
  // Evaluating a rule list

  predicate RuleThrows(profile: Profile, rule: EligibilityRule) {
    Throws(Get(profile, rule.field), rule.operator, rule.value)
  }

  /** The result record for one rule (the body of the `rules.map` callback) */
  function EvaluateRule(profile: Profile, rule: EligibilityRule): RuleEvaluationResult
    requires !RuleThrows(profile, rule)
  {
    var actual := Get(profile, rule.field);
    var passed := Compare(actual, rule.operator, rule.value);
    RuleEvaluationResult(rule.id, rule.field, rule.operator, rule.value, actual, passed,
                         Explanation(rule, actual, passed))
  }

  /** `rules.map(...)`: one result per rule, in rule order; a throwing rule aborts the map */
  function Evaluations(profile: Profile, rules: seq<EligibilityRule>): (r: Result<seq<RuleEvaluationResult>>)
    ensures r.Success? <==> forall i :: 0 <= i < |rules| ==> !RuleThrows(profile, rules[i])
    ensures r.Failure? ==> r.error == TypeError
    ensures r.Success? ==> |r.value| == |rules|
    ensures r.Success? ==> forall i :: 0 <= i < |rules| ==> r.value[i] == EvaluateRule(profile, rules[i])
  {
    if rules == [] then Success([])
    else if RuleThrows(profile, rules[0]) then Failure(TypeError)
    else
      assert forall i :: 1 <= i < |rules| ==> rules[i] == rules[1..][i - 1];
      match Evaluations(profile, rules[1..])
      case Failure(e) => Failure(e)
      case Success(rest) => Success([EvaluateRule(profile, rules[0])] + rest)
  }

  /**
   * `RuleEvaluator.evaluate`: result i describes rule i (its id, field,
   * operator and value, the profile's value for the field, the verdict and
   * the explanation), and the profile is eligible exactly when every rule
   * passed. It throws the TypeError of a `contains_*` rule on a non-list value.
   */
  function Evaluate(profile: Profile, rules: seq<EligibilityRule>): (r: Result<EligibilityResult>)
    ensures r.Success? <==> forall i :: 0 <= i < |rules| ==> !RuleThrows(profile, rules[i])
    ensures r.Failure? ==> r.error == TypeError
    ensures r.Success? ==> |r.value.evaluations| == |rules|
    ensures r.Success? ==> forall i :: 0 <= i < |rules| ==>
      var e := r.value.evaluations[i];
      && e.ruleId == rules[i].id
      && e.field == rules[i].field
      && e.operator == rules[i].operator
      && e.expectedValue == rules[i].value
      && e.actualValue == Get(profile, rules[i].field)
      && e.passed == Compare(e.actualValue, rules[i].operator, rules[i].value)
      && e.explanation == Explanation(rules[i], e.actualValue, e.passed)
    ensures r.Success? ==> (r.value.isEligible <==> forall i :: 0 <= i < |rules| ==> r.value.evaluations[i].passed)
  {
    match Evaluations(profile, rules)
    case Failure(e) => Failure(e)
    case Success(evaluations) => Success(EligibilityResult(Every(evaluations, (e: RuleEvaluationResult) => e.passed), evaluations))
  }

  /** With no rules, every profile is eligible and there is nothing to explain */
  lemma EmptyRulesEligible(profile: Profile)
    ensures Evaluate(profile, []) == Success(EligibilityResult(true, []))
  {
  }

  /** The verdict does not depend on the rule order: eligibility is the conjunction */
  lemma {:induction false} EligibleIffEveryRulePasses(profile: Profile, rules: seq<EligibilityRule>)
    requires forall i :: 0 <= i < |rules| ==> !RuleThrows(profile, rules[i])
    ensures Evaluate(profile, rules).Success?
    ensures Evaluate(profile, rules).value.isEligible <==>
      forall i :: 0 <= i < |rules| ==> Compare(Get(profile, rules[i].field), rules[i].operator, rules[i].value)
  {
  }

  // ---------------------------------------------------------------------
  // Operator semantics

  /** On numbers, `gte` and `lte` are the numeric orderings */
  lemma CompareNumbers(x: real, y: real)
    ensures Compare(Num(x), Gte, Num(y)) <==> x >= y
    ensures Compare(Num(x), Lte, Num(y)) <==> x <= y
  {
  }

  /** `eq` is strict equality: equal values, and never an array; `neq` is the opposite */
  lemma CompareEq(actual: Val, expected: Val)
    ensures Compare(actual, Eq, expected) <==> !actual.List? && actual == expected
    ensures Compare(actual, Neq, expected) <==> actual.List? || actual != expected
  {
  }

  /** `neq` is exactly the negation of `eq` */
  lemma NeqNegatesEq(actual: Val, expected: Val)
    ensures Compare(actual, Neq, expected) == !Compare(actual, Eq, expected)
  {
  }

  /** `in`: the expected value is a list holding the actual value */
  lemma CompareIn(actual: Val, expected: Val)
    ensures Compare(actual, In, expected) <==>
      expected.List? && exists i :: 0 <= i < |expected.items| && StrictEquals(expected.items[i], actual)
  {
  }

  /** `contains_all`: the actual value is a list holding every expected element */
  lemma CompareContainsAll(actual: Val, expected: Val)
    requires !Throws(actual, ContainsAll, expected)
    ensures Compare(actual, ContainsAll, expected) <==>
      actual.List? && forall i :: 0 <= i < |expected.items| ==>
        exists j :: 0 <= j < |actual.items| && StrictEquals(actual.items[j], expected.items[i])
  {
    if actual.List? {
      assert Compare(actual, ContainsAll, expected) == EveryIncluded(expected.items, actual.items);
    }
  }

  /** `contains_any`: the actual value is a list holding some expected element */
  lemma CompareContainsAny(actual: Val, expected: Val)
    requires !Throws(actual, ContainsAny, expected)
    ensures Compare(actual, ContainsAny, expected) <==>
      actual.List? &&
      exists i :: 0 <= i < |expected.items| &&
        exists j :: 0 <= j < |actual.items| && StrictEquals(actual.items[j], expected.items[i])
  {
    if actual.List? {
      assert Compare(actual, ContainsAny, expected) == SomeIncluded(expected.items, actual.items);
    }
  }

  /** A non-list actual value never satisfies `contains_all` or `contains_any` */
  lemma ContainsNeedsList(actual: Val, expected: Val)
    requires !actual.List?
    ensures !Throws(actual, ContainsAll, expected) && !Compare(actual, ContainsAll, expected)
    ensures !Throws(actual, ContainsAny, expected) && !Compare(actual, ContainsAny, expected)
  {
  }

  /** An empty expected list is contained by every list, and meets none of it */
  lemma ContainsEmptyExpected(actual: seq<Val>)
    ensures Compare(List(actual), ContainsAll, List([]))
    ensures !Compare(List(actual), ContainsAny, List([]))
  {
  }

  /** `[A,B]` against `[A,B,C]`: not all of the expected values, but some */
  lemma ContainsAsymmetry(a: string, b: string, c: string)
    requires c != a && c != b
    ensures !Compare(List([Str(a), Str(b)]), ContainsAll, List([Str(a), Str(b), Str(c)]))
    ensures Compare(List([Str(a), Str(b)]), ContainsAny, List([Str(a), Str(b), Str(c)]))
  {
    var expected := [Str(a), Str(b), Str(c)];
    assert !Includes([Str(a), Str(b)], expected[2]);
    assert Includes([Str(a), Str(b)], expected[0]);
  }

  /** An operator outside the fixed set fails closed */
  lemma UnknownOperatorFails(actual: Val, name: UnknownName, expected: Val)
    ensures !Throws(actual, Other(name), expected)
    ensures !Compare(actual, Other(name), expected)
  {
  }
}
