/**
 * Weighted scoring (`ScoringEngine`): every configured attribute is turned
 * into a normalised score, multiplied by its weight and added to a composite
 * score; a breakdown records each contribution in configuration order.
 */
module ScoringEngine {
  import opened Values

  datatype WeightConfig = WeightConfig(attribute: string, weight: real)

  datatype ScoreBreakdown = ScoreBreakdown(
    attribute: string,
    score: real,
    weight: real,
    weightedScore: real,
    explanation: string)

  datatype ScoringResult = ScoringResult(compositeScore: real, breakdown: seq<ScoreBreakdown>)

  function Min(x: real, y: real): real { if x <= y then x else y }
  function Max(x: real, y: real): real { if x >= y then x else y }

  /**
   * `getRawValue`: `skills` is reduced to its `.length` (reading it off
   * `undefined` throws; a number or boolean has no length, giving
   * `undefined`); any other attribute is `val || 0`.
   */
  function RawValue(student: Profile, attribute: string): (r: Result<Val>)
    ensures r.Failure? <==> attribute == "skills" && Get(student, attribute) == Undefined
    ensures r.Failure? ==> r.error == TypeError
    ensures attribute == "skills" && Get(student, attribute).List? ==>
      r == Success(Num(|Get(student, attribute).items| as real))
    ensures attribute != "skills" && !Falsy(Get(student, attribute)) ==>
      r == Success(Get(student, attribute))
  {
    var v := Get(student, attribute);
    if attribute == "skills" then
      match v
      case List(xs) => Success(Num(|xs| as real))
      case Str(s) => Success(Num(|s| as real))
      case Undefined => Failure(TypeError)
      case _ => Success(Undefined)
    else Success(OrElse(v, Num(0.0)))
  }

  /** The three named formulas need a number; the default branch accepts anything */
  predicate Normalizable(attribute: string, value: Val) {
    attribute in {"cgpa", "skills", "backlog_count"} ==> NumberValue(value).Some?
  }

  /** `normalize`: the per-attribute formula, or the number itself for other attributes */
  function Normalize(attribute: string, value: Val): (r: real)
    requires Normalizable(attribute, value)
    ensures attribute == "skills" ==> r <= 100.0
    ensures attribute == "skills" && NumberValue(value).value >= 0.0 ==> r >= 0.0
    ensures attribute == "backlog_count" ==> r >= 0.0
    ensures attribute == "backlog_count" && NumberValue(value).value >= 0.0 ==> r <= 100.0
    ensures attribute !in {"cgpa", "skills", "backlog_count"} && !value.Num? ==> r == 0.0
  {
    if attribute == "cgpa" then NumberValue(value).value / 10.0 * 100.0
    else if attribute == "skills" then Min(NumberValue(value).value / 5.0 * 100.0, 100.0)
    else if attribute == "backlog_count" then Max(100.0 - NumberValue(value).value * 25.0, 0.0)
    else if value.Num? then value.n
    else 0.0
  }

  /**
   * The attribute can be scored without producing NaN: the raw value throws
   * or is acceptable to its formula. Holds of every attribute of a profile
   * with the StudentProfile field types (see `StudentTypesScorable`).
   */
  predicate Scorable(student: Profile, attribute: string) {
    var raw := RawValue(student, attribute);
    raw.Failure? || Normalizable(attribute, raw.value)
  }

  /** `normalizedScore * config.weight` */
  function Weighted(score: real, weight: real): real {
    score * weight
  }

  /** The breakdown's explanation sentence */
  function ContributionText(raw: Val, attribute: string, weighted: real): string {
    "Value \"" + ValText(raw) + "\" for " + attribute + " contributed " + ToFixed2(weighted) + " to the total."
  }

  /** The breakdown entry of one weight configuration */
  function Entry(student: Profile, config: WeightConfig): ScoreBreakdown
    requires Scorable(student, config.attribute) && RawValue(student, config.attribute).Success?
  {
    var raw := RawValue(student, config.attribute).value;
    var score := Normalize(config.attribute, raw);
    var weighted := Weighted(score, config.weight);
    ScoreBreakdown(config.attribute, score, config.weight, weighted, ContributionText(raw, config.attribute, weighted))
  }

  /** The sum of the weighted scores, accumulated from the first entry on */
  function Total(breakdown: seq<ScoreBreakdown>): real {
    if breakdown == [] then 0.0
    else Total(breakdown[..|breakdown| - 1]) + breakdown[|breakdown| - 1].weightedScore
  }

  /**
   * `ScoringEngine.calculate`: one breakdown entry per weight configuration,
   * in order, and a composite score that is the sum of their weighted scores.
   * It throws when a `skills` weight meets a profile without skills.
   */
  method Calculate(student: Profile, weights: seq<WeightConfig>) returns (r: Result<ScoringResult>)
    requires forall i :: 0 <= i < |weights| ==> Scorable(student, weights[i].attribute)
    ensures r.Success? <==> forall i :: 0 <= i < |weights| ==> RawValue(student, weights[i].attribute).Success?
    ensures r.Failure? ==> r.error == TypeError
    ensures r.Success? ==> |r.value.breakdown| == |weights|
    ensures r.Success? ==> forall i :: 0 <= i < |weights| ==> r.value.breakdown[i] == Entry(student, weights[i])
    ensures r.Success? ==> r.value.compositeScore == Total(r.value.breakdown)
  {
    var totalWeightedScore := 0.0;
    var breakdown: seq<ScoreBreakdown> := [];
    var i := 0;
    while i < |weights|
      invariant ScoredPrefix(student, weights, i, breakdown, totalWeightedScore)
    {
      var config := weights[i];
      var rawValue := RawValue(student, config.attribute);
      if rawValue.Failure? {
        return Failure(rawValue.error);
      }
      var normalizedScore := Normalize(config.attribute, rawValue.value);
      var weightedScore := Weighted(normalizedScore, config.weight);
      totalWeightedScore := totalWeightedScore + weightedScore;
      var entry := ScoreBreakdown(config.attribute, normalizedScore, config.weight, weightedScore,
                                  ContributionText(rawValue.value, config.attribute, weightedScore));
      ScoredStep(student, weights, i, breakdown, totalWeightedScore - weightedScore);
      breakdown := breakdown + [entry];
      i := i + 1;
    }
    r := Success(ScoringResult(totalWeightedScore, breakdown));
  }

  /** The loop state after the first `i` configurations */
  ghost predicate ScoredPrefix(student: Profile, weights: seq<WeightConfig>, i: int, breakdown: seq<ScoreBreakdown>, total: real)
  {
    && 0 <= i <= |weights|
    && (forall j :: 0 <= j < i ==> RawValue(student, weights[j].attribute).Success?)
    && |breakdown| == i
    && (forall j :: 0 <= j < i ==> Scorable(student, weights[j].attribute) && breakdown[j] == Entry(student, weights[j]))
    && total == Total(breakdown)
  }

  /** One more configuration, when it does not throw, extends the loop state by its entry */
  lemma ScoredStep(student: Profile, weights: seq<WeightConfig>, i: int, breakdown: seq<ScoreBreakdown>, total: real)
    requires ScoredPrefix(student, weights, i, breakdown, total)
    requires i < |weights| && Scorable(student, weights[i].attribute) && RawValue(student, weights[i].attribute).Success?
    ensures var raw := RawValue(student, weights[i].attribute).value;
      var score := Normalize(weights[i].attribute, raw);
      var weighted := Weighted(score, weights[i].weight);
      ScoredPrefix(student, weights, i + 1,
        breakdown + [ScoreBreakdown(weights[i].attribute, score, weights[i].weight, weighted,
                                    ContributionText(raw, weights[i].attribute, weighted))],
        total + weighted)
  {
    var entry := Entry(student, weights[i]);
    TotalStep(breakdown, entry);
    assert forall j :: 0 <= j < i ==> (breakdown + [entry])[j] == breakdown[j];
  }

  // ---------------------------------------------------------------------
  // Properties of `Entry` and `Total`

  /** Each entry echoes its configuration, and its weighted score is score times weight */
  lemma EntryEchoesConfig(student: Profile, config: WeightConfig)
    requires Scorable(student, config.attribute) && RawValue(student, config.attribute).Success?
    ensures Entry(student, config).attribute == config.attribute
    ensures Entry(student, config).weight == config.weight
    ensures Entry(student, config).weightedScore == Weighted(Entry(student, config).score, config.weight)
  {
  }

  /** The breakdown's sentence names the attribute, right after the quoted raw value */
  lemma ContributionNamesAttribute(raw: Val, attribute: string, weighted: real)
    ensures var s := ContributionText(raw, attribute, weighted);
      var i := |"Value \""| + |ValText(raw)| + |"\" for "|;
      s[i..i + |attribute|] == attribute
  {
    var p := "Value \"" + ValText(raw) + "\" for ";
    var rest := " contributed " + ToFixed2(weighted) + " to the total.";
    assert ContributionText(raw, attribute, weighted) == p + attribute + rest;
    SliceAfter(p, attribute, rest);
  }

  /** The composite is additive over any split of the breakdown */
  lemma {:induction false} TotalAppend(a: seq<ScoreBreakdown>, b: seq<ScoreBreakdown>)
    ensures Total(a + b) == Total(a) + Total(b)
    decreases |b|
  {
    if b == [] {
      assert a + b == a;
    } else {
      var b' := b[..|b| - 1];
      assert (a + b)[..|a + b| - 1] == a + b';
      assert (a + b)[|a + b| - 1] == b[|b| - 1];
      TotalAppend(a, b');
    }
  }

  /** Appending one entry adds its weighted score */
  lemma TotalStep(breakdown: seq<ScoreBreakdown>, entry: ScoreBreakdown)
    ensures Total(breakdown + [entry]) == Total(breakdown) + entry.weightedScore
  {
    assert (breakdown + [entry])[..|breakdown|] == breakdown;
  }

  /** An empty configuration scores 0 */
  lemma TotalEmpty()
    ensures Total([]) == 0.0
  {
  }

  /** `cgpa` is scaled from a 0-10 scale to 0-100 */
  lemma CgpaScore(x: real)
    ensures Normalize("cgpa", Num(x)) == 10.0 * x
    ensures Normalize("cgpa", Num(8.0)) == 80.0
  {
  }

  /** `skills` scores 20 points per skill, saturating at 100 from five skills on */
  lemma SkillsScore(student: Profile, skills: seq<Val>)
    requires Get(student, "skills") == List(skills)
    ensures RawValue(student, "skills") == Success(Num(|skills| as real))
    ensures 0.0 <= Normalize("skills", Num(|skills| as real)) <= 100.0
    ensures |skills| >= 5 ==> Normalize("skills", Num(|skills| as real)) == 100.0
    ensures |skills| < 5 ==> Normalize("skills", Num(|skills| as real)) == 20.0 * |skills| as real
  {
  }

  /** A profile without skills makes a `skills` weight throw */
  lemma MissingSkillsThrows(student: Profile)
    requires "skills" !in student
    ensures RawValue(student, "skills") == Failure(TypeError)
    ensures Scorable(student, "skills")
  {
  }

  /** `backlog_count` loses 25 points per backlog and never goes below 0 */
  lemma BacklogScore(n: real)
    ensures n <= 4.0 ==> Normalize("backlog_count", Num(n)) == 100.0 - 25.0 * n
    ensures Normalize("backlog_count", Num(n)) >= 0.0
    ensures n >= 0.0 ==> Normalize("backlog_count", Num(n)) <= 100.0
    ensures Normalize("backlog_count", Num(0.0)) == 100.0
    ensures n >= 4.0 ==> Normalize("backlog_count", Num(n)) == 0.0
  {
  }

  /** For attributes other than `skills`, a falsy value scores as the number 0 */
  lemma FalsyIsZero(student: Profile, attribute: string)
    requires attribute != "skills" && Falsy(Get(student, attribute))
    ensures RawValue(student, attribute) == Success(Num(0.0))
  {
  }

  /** An unknown attribute passes a number through unchanged and scores anything else as 0 */
  lemma UnknownAttributePassesThrough(attribute: string, value: Val)
    requires attribute !in {"cgpa", "skills", "backlog_count"}
    ensures Normalizable(attribute, value)
    ensures value.Num? ==> Normalize(attribute, value) == value.n
    ensures !value.Num? ==> Normalize(attribute, value) == 0.0
  {
  }

  /** A profile with the StudentProfile field types can be scored on any attribute */
  lemma StudentTypesScorable(student: Profile, attribute: string)
    requires Get(student, "cgpa").Num? && Get(student, "backlog_count").Num?
    requires Get(student, "skills").List?
    ensures Scorable(student, attribute)
    ensures RawValue(student, attribute).Success?
  {
  }
}
