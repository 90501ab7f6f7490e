# Campus placement core, modelled in Dafny

This project models the decision core of a campus placement system. The system is written in TypeScript. The model covers:

- **Eligibility rule interpreter** (`RuleEvaluator`). A drive's rules are applied to a student profile. Each rule compares one profile attribute with a configured value using a fixed operator set (`gte`, `lte`, `eq`, `neq`, `in`, `contains_all`, `contains_any`). An unknown operator fails. Each rule yields a result record with an explanation sentence, and the student is eligible when every rule passes.
- **Weighted scoring** (`ScoringEngine`). Each configured attribute is normalised (`cgpa`, `skills`, `backlog_count`, or passed through), multiplied by its weight and summed into a composite score. A breakdown is built in configuration order.
- **Pre-screening** (`ScreeningEngine`). Each answer must strictly equal the expected value. One explanation is produced per question.
- **Application tracking** (both `PlacementService` classes: the browser one and the storage-free one). The state is a list of drives and a list of applications. Applying creates an application whose status comes only from the eligibility rules. Its rounds all start as pending. Shortlisting changes statuses in place. Recording a round verdict rejects the application on a failure and selects it once every round has passed.
- **Analytics** (`AnalyticsEngine`). The funnel counts applications per status. The bias check counts applications and rejections per student group and flags any group with more than five applications and a rejection rate above 0.8.
- **Governance** (`GovernanceService`). An append-only audit log that can be read back per target, plus the two drive checks `canModify` and `getBindingVersion`.

Files:

| file | contents |
|---|---|
| `Values.dfy` | JavaScript values (`Val`), strict equality, `includes`, truthiness, `>=`/`<=`, template-string rendering, and `find`/`findIndex`/`every`/`filter` |
| `RuleEngine.dfy` | rules, `compare`, explanations, `evaluate` |
| `ScoringEngine.dfy` | `getRawValue`, `normalize`, `calculate` (a loop method) |
| `ScreeningEngine.dfy` | `evaluate` (a loop method) |
| `Workflow.dfy` | the application-tracking operations as functions on the two lists, the shortlisting loop, and a consistency invariant with preservation lemmas |
| `FrontendPlacement.dfy`, `CorePlacement.dfy` | the two `PlacementService` classes, with `seq` fields updated by their methods |
| `AnalyticsEngine.dfy` | `getFunnel` and `detectBias` (loop methods over maps) |
| `Governance.dfy` | `GovernanceService` (a class with a `logs` field) and the drive checks |
| `Scenarios.dfy` | the sample student and drives shipped with the frontend, and worked examples |

Modelling decisions:

- A profile or response record is a `map<string, Val>`. A missing key reads as `Undefined`.
- A thrown exception is a `Failure` of a `Result`, or a `Fail` of an `Outcome` for operations that return nothing.
- In JavaScript, `contains_all`/`contains_any` on an array-valued attribute with a non-array `value` throws a `TypeError`, because `expected.every` does not exist. This is modelled as a `Failure(TypeError)` that propagates through `Evaluate` and `ApplyToDrive`. It is not a precondition.
- Arrays compare by reference in JavaScript. Two arrays that reach a comparison from a profile and from a rule are different objects. So a `List` is never strictly equal to anything, both in `===` and in `includes`.
- Generated identifiers and clocks are parameters:
  - `token` stands for the random suffix of `APP_…`;
  - `now` and `timestamp` stand for `Date.now()` and the ISO time string.
- A score breakdown entry holds the attribute, score, weight, weighted score and explanation, and no raw value, as `calculate` builds it (frontend/src/engines/scoring-engine/evaluator.ts:19-25).
- `contains_all`/`contains_any` are not total: they throw in the case above (frontend/src/engines/rule-engine/evaluator.ts:36,38), and so does the model.
- An unknown operator is `Other(name)` with a name outside the seven known ones, so every operator is written under its own name.

## Model

| member | source | states |
|---|---|---|
| Values.Includes | frontend/src/engines/rule-engine/evaluator.ts:34-38 | `xs.includes(v)` holds exactly when some element is strictly equal to `v` |
| Values.FirstIndex | frontend/src/services/placement.service.ts:75-78 | `findIndex`: none exactly when no element matches; otherwise the index of a match with no match before it |
| Values.FirstIndexAppend | frontend/src/services/placement.service.ts:36 | appending elements after a match does not change which element `find` returns |
| Values.Find | frontend/src/services/placement.service.ts:96-98 | `find`: undefined exactly when nothing matches; otherwise the first matching element |
| Values.Every | frontend/src/engines/rule-engine/evaluator.ts:20 | `every` holds exactly when the predicate holds at every index |
| Values.Filter | frontend/src/services/placement.service.ts:59-63 | `filter` keeps only matching elements and keeps every matching element |
| Values.FilterAppend | frontend/src/services/placement.service.ts:59-63 | filtering distributes over concatenation, so the stored order is kept |
| Values.OrElse | frontend/src/engines/scoring-engine/evaluator.ts:37 | `v \|\| fallback`: the fallback for a falsy value (`undefined`, `0`, `false`, `""`), the value itself otherwise |
| Values.StrictEqualsMeaning | frontend/src/engines/rule-engine/evaluator.ts:32-33 | `===` (`StrictEquals`) is symmetric, implies equality, holds of every non-array value with itself and never of an array |
| Values.StrLessIrreflexive | frontend/src/engines/rule-engine/evaluator.ts:30-31 | no string precedes itself in the character order `>=`/`<=` use on strings |
| Values.LooseOrderMeaning | frontend/src/engines/rule-engine/evaluator.ts:30-31 | `a >= b` (`LooseGreaterEq`) is `b <= a` (`LooseLessEq`); a string or a number compares with itself; `undefined` compares with nothing |
| Values.NatText | frontend/src/services/governance.service.ts:8 | a number's decimal text is a non-empty digit string with no leading zero |
| Values.NatTextValue | frontend/src/services/governance.service.ts:8 | the digits `NatText` writes denote the number again, so it is the decimal rendering |
| Values.ValTextRendering | frontend/src/engines/rule-engine/evaluator.ts:46-48 | `${v}` (`ValText`) writes a string as itself, a whole number as its decimal digits, booleans and `undefined` by name, and an empty array as "" |
| Values.Hundredths | frontend/src/engines/scoring-engine/evaluator.ts:24 | the count of hundredths `toFixed(2)` writes is within half a hundredth of the number |
| Values.CentsValue | frontend/src/engines/scoring-engine/evaluator.ts:24 | the text written for a count of hundredths is decimal digits with a '.' before the last two and no leading zero in the whole part, and it denotes that count |
| Values.ToFixed2Rounds | frontend/src/engines/scoring-engine/evaluator.ts:24 | `toFixed(2)` (`ToFixed2`) of a non-negative number is a numeral with two decimals (decimal digits only, no leading zero in the whole part) whose value is within 0.005 of the number |
| Values.ToFixed2Whole | frontend/src/engines/scoring-engine/evaluator.ts:24 | a whole number is written with ".00" |
| RuleEngine.OperatorTextNamesOperator | frontend/src/engines/rule-engine/types.ts:1-24 | different operators are written under different names |
| RuleEngine.Compare | frontend/src/engines/rule-engine/evaluator.ts:28-41 | `compare`: an unknown operator never passes; `in` passes only with an array `value`; `contains_*` pass only on an array attribute; `neq` always passes on an array attribute; `gte`/`lte` never pass with `undefined` on either side; each operator's exact meaning is stated by the `Compare…` lemmas below (`eq` and `neq` by `CompareEq`) |
| RuleEngine.Explanation | frontend/src/engines/rule-engine/evaluator.ts:43-49 | `generateExplanation` opens with "<label> is <actual>, " whatever the verdict; `ExplanationTellsVerdict`, `SentenceEnding` and `SentenceDiffers` give the rest |
| RuleEngine.EveryIncluded | frontend/src/engines/rule-engine/evaluator.ts:36 | true exactly when every expected element occurs in the actual list |
| RuleEngine.SomeIncluded | frontend/src/engines/rule-engine/evaluator.ts:38 | true exactly when some expected element occurs in the actual list |
| RuleEngine.Label | frontend/src/engines/rule-engine/evaluator.ts:44 | the rule's label when it is present and non-empty, otherwise its field |
| RuleEngine.SentenceShape | frontend/src/engines/rule-engine/evaluator.ts:45-49 | both explanation forms open with "<label> is <actual>, " |
| RuleEngine.SentenceEnding | frontend/src/engines/rule-engine/evaluator.ts:45-49 | the passing form ends with the requirement "<op> <value>" in parentheses; the failing form ends with the bare requirement |
| RuleEngine.SentenceDiffers | frontend/src/engines/rule-engine/evaluator.ts:45-49 | the passing and the failing sentence for the same subject and requirement differ |
| RuleEngine.ExplanationTellsVerdict | frontend/src/engines/rule-engine/evaluator.ts:43-49 | the explanation depends on the verdict, and both forms start with the label and the actual value |
| RuleEngine.Evaluations | frontend/src/engines/rule-engine/evaluator.ts:5-18 | one result per rule in rule order, each the per-rule record; a throwing rule makes the whole map throw a TypeError |
| RuleEngine.Evaluate | frontend/src/engines/rule-engine/evaluator.ts:4-26 | result i copies rule i's id, field, operator and value, holds `profile[field]`, the comparison's verdict and the explanation; eligible exactly when every result passed; TypeError exactly when some rule throws |
| RuleEngine.EmptyRulesEligible | frontend/src/engines/rule-engine/evaluator.ts:20-25 | no rules: eligible, with no evaluations |
| RuleEngine.EligibleIffEveryRulePasses | frontend/src/engines/rule-engine/evaluator.ts:20 | when no rule throws, eligible exactly when every rule's comparison holds |
| RuleEngine.CompareNumbers | frontend/src/engines/rule-engine/evaluator.ts:30-31 | on numbers `gte` is `>=` and `lte` is `<=` |
| RuleEngine.CompareEq | frontend/src/engines/rule-engine/evaluator.ts:32-33 | `eq` holds exactly when the two values are equal and the attribute is not an array (strict equality compares arrays by reference); `neq` holds exactly otherwise |
| RuleEngine.NeqNegatesEq | frontend/src/engines/rule-engine/evaluator.ts:32-33 | `neq` is exactly the negation of `eq`, whose meaning `CompareEq` states |
| RuleEngine.CompareIn | frontend/src/engines/rule-engine/evaluator.ts:34 | `in` holds exactly when the expected value is a list with an element strictly equal to the actual value |
| RuleEngine.CompareContainsAll | frontend/src/engines/rule-engine/evaluator.ts:35-36 | `contains_all` holds exactly when the actual value is a list holding every expected element |
| RuleEngine.CompareContainsAny | frontend/src/engines/rule-engine/evaluator.ts:37-38 | `contains_any` holds exactly when the actual value is a list holding some expected element |
| RuleEngine.ContainsNeedsList | frontend/src/engines/rule-engine/evaluator.ts:35-38 | a non-list actual value never throws under `contains_*` and never passes |
| RuleEngine.ContainsEmptyExpected | frontend/src/engines/rule-engine/evaluator.ts:35-38 | an empty expected list passes `contains_all` and fails `contains_any` |
| RuleEngine.ContainsAsymmetry | frontend/src/engines/rule-engine/evaluator.ts:35-38 | actual `[A,B]` against expected `[A,B,C]`: `contains_all` fails, `contains_any` passes |
| RuleEngine.UnknownOperatorFails | frontend/src/engines/rule-engine/evaluator.ts:39 | an operator outside the fixed set never throws and always fails |
| ScoringEngine.RawValue | frontend/src/engines/scoring-engine/evaluator.ts:34-38 | throws (TypeError) exactly for `skills` on a profile without skills; a `skills` list gives its length; any other attribute with a truthy value gives that value unchanged |
| ScoringEngine.Calculate | frontend/src/engines/scoring-engine/evaluator.ts:8-32 | one breakdown entry per weight configuration in order, each the normalised and weighted entry; composite is their sum; TypeError exactly when some raw value throws |
| ScoringEngine.EntryEchoesConfig | frontend/src/engines/scoring-engine/evaluator.ts:19-23 | an entry carries its configuration's attribute and weight, and its weighted score is score times weight |
| ScoringEngine.ContributionNamesAttribute | frontend/src/engines/scoring-engine/evaluator.ts:24 | a breakdown entry's sentence names the attribute right after the quoted raw value |
| ScoringEngine.TotalAppend | frontend/src/engines/scoring-engine/evaluator.ts:17 | the composite adds up over any split of the breakdown |
| ScoringEngine.TotalEmpty | frontend/src/engines/scoring-engine/evaluator.ts:9 | no weights give a composite of 0 |
| ScoringEngine.Normalize | frontend/src/engines/scoring-engine/evaluator.ts:40-47 | `normalize`: `skills` is capped at 100 and is non-negative for a non-negative count; `backlog_count` is floored at 0 and at most 100 for a non-negative count; an unknown attribute whose value is not a number scores 0; the per-attribute values are the lemmas below |
| ScoringEngine.CgpaScore | frontend/src/engines/scoring-engine/evaluator.ts:43 | `cgpa` scores ten times its value; 8.0 scores 80 |
| ScoringEngine.SkillsScore | frontend/src/engines/scoring-engine/evaluator.ts:36-44 | `skills` scores 20 per skill, stays within [0,100], and is 100 from five skills on |
| ScoringEngine.MissingSkillsThrows | frontend/src/engines/scoring-engine/evaluator.ts:36 | a profile without skills makes a `skills` weight throw |
| ScoringEngine.BacklogScore | frontend/src/engines/scoring-engine/evaluator.ts:45 | `backlog_count` is never negative, is at most 100 for non-negative counts, is exactly 100 − 25·n for n up to four, and 0 from four on |
| ScoringEngine.FalsyIsZero | frontend/src/engines/scoring-engine/evaluator.ts:37 | a falsy value of any attribute but `skills` becomes 0 |
| ScoringEngine.UnknownAttributePassesThrough | frontend/src/engines/scoring-engine/evaluator.ts:46 | an unknown attribute passes a number through unchanged and scores anything else as 0 |
| ScoringEngine.StudentTypesScorable | frontend/src/domain/models.ts:6-16 | a profile with the declared field types can be scored on any attribute without throwing |
| ScreeningEngine.Evaluate | frontend/src/engines/screening-engine/evaluator.ts:12-29 | passed exactly when every answer strictly equals its expected value; explanation i is question i's, in order |
| ScreeningEngine.ExplanationTellsOutcome | frontend/src/engines/screening-engine/evaluator.ts:19-25 | the explanation of a question (`QuestionExplanation`) starts with the 'M' of "Met" when the answer matched and the 'F' of "Failed" otherwise |
| ScreeningEngine.SuccessQuotesQuestion | frontend/src/engines/screening-engine/evaluator.ts:24 | a passing explanation is exactly "Met requirements for \"", the question text, and "\"." |
| ScreeningEngine.FailureQuotesAnswer | frontend/src/engines/screening-engine/evaluator.ts:22 | a failing explanation quotes the question text, the expected value and the answer, at fixed positions and in that order |
| ScreeningEngine.MissingAnswerFails | frontend/src/engines/screening-engine/evaluator.ts:17-18 | an unanswered question with a defined expected value fails |
| Workflow.InitialRounds | frontend/src/services/placement.service.ts:47-51 | one PENDING round with empty feedback per selection round, in order |
| Workflow.ApplyToDrive | frontend/src/services/placement.service.ts:35-52 | unknown drive: "Drive not found"; a throwing rule: TypeError; it succeeds exactly when the drive is found and no rule throws, with an application `APP_<token>` for the student and drive, ELIGIBLE exactly when the rules pass and NOT_ELIGIBLE otherwise, with the rule results and pending rounds |
| Workflow.FindDriveAppend | frontend/src/services/placement.service.ts:36 | creating a drive does not change which drive an existing id finds |
| Workflow.EligibleFor | frontend/src/services/placement.service.ts:59-63 | exactly the applications to the drive with status ELIGIBLE |
| Workflow.EligibleForAppend | frontend/src/services/placement.service.ts:59-63 | a new application joins the end of the eligible list exactly when it is eligible for the drive |
| Workflow.ShortlistAll | frontend/src/services/placement.service.ts:65-70 | matching applications become SHORTLISTED and nothing else about them changes; every other application is unchanged |
| Workflow.AllRoundsPassed | frontend/src/services/placement.service.ts:88 | true exactly when every round's status is PASSED |
| Workflow.UpdateRoundStatus | frontend/src/services/placement.service.ts:74-94 | missing application or round: the matching "not found" error; it succeeds exactly when both are found, and then only the first matching round of the first matching application gets the status and feedback, FAILED rejects, PASSED selects when all rounds have passed and leaves the status alone otherwise; other applications and rounds are unchanged |
| Workflow.FailedRoundRejects | frontend/src/services/placement.service.ts:84-85 | after a FAILED verdict the application is REJECTED and not all of its rounds have passed |
| Workflow.PassedRoundSelectsIffAllPassed | frontend/src/services/placement.service.ts:86-92 | after a PASSED verdict a not yet selected application is SELECTED exactly when all its rounds are PASSED |
| Workflow.UpdateRoundStatusFailsWhole | frontend/src/services/placement.service.ts:75-79 | when no application with the id has the round, the call throws |
| Workflow.CreateDriveKeepsConsistent | frontend/src/services/placement.service.ts:29-33 | creating a drive keeps every application consistent with the drives |
| Workflow.ApplyKeepsConsistent | frontend/src/services/placement.service.ts:35-57 | a new application is consistent: its drive exists, its rounds are the drive's rounds, none has failed |
| Workflow.ShortlistKeepsConsistent | frontend/src/services/placement.service.ts:65-72 | shortlisting keeps an application consistent |
| Workflow.UpdateKeepsConsistent | frontend/src/services/placement.service.ts:74-94 | recording a verdict keeps the applications consistent: SELECTED implies every round passed, a failed round implies REJECTED or SHORTLISTED |
| FrontendPlacement.PlacementService.constructor | frontend/src/services/placement.service.ts:13-27 | each list is the stored value when one was stored, otherwise empty; an empty start is consistent |
| FrontendPlacement.PlacementService.CreateDrive | frontend/src/services/placement.service.ts:29-33 | the drive is appended and returned; applications are unchanged; consistency is kept |
| FrontendPlacement.PlacementService.ApplyToDrive | frontend/src/services/placement.service.ts:35-57 | the result is `Workflow.ApplyToDrive`'s; on success exactly that application is appended, on failure nothing changes; drives are unchanged; consistency is kept |
| FrontendPlacement.PlacementService.GetEligibleStudents | frontend/src/services/placement.service.ts:59-63 | exactly the stored applications to the drive with status ELIGIBLE, as the list `Workflow.EligibleFor` gives, whose stored order `Workflow.EligibleForAppend` states |
| FrontendPlacement.PlacementService.ShortlistCandidates | frontend/src/services/placement.service.ts:65-72 | each stored application becomes its shortlisted form; the count and the drives are unchanged; consistency is kept |
| FrontendPlacement.PlacementService.UpdateRoundStatus | frontend/src/services/placement.service.ts:74-94 | the applications become `Workflow.UpdateRoundStatus`'s result, or stay unchanged with its error; drives are unchanged; consistency is kept |
| FrontendPlacement.PlacementService.GetDrive | frontend/src/services/placement.service.ts:96-98 | none exactly when no drive has the id, otherwise the first stored drive with that id |
| FrontendPlacement.PlacementService.GetApplicationById | frontend/src/services/placement.service.ts:100-102 | none exactly when no application has the id, otherwise the first stored application with that id |
| CorePlacement.PlacementService.constructor | src/services/placement.service.ts:8-10 | both lists start empty, which is consistent |
| CorePlacement.PlacementService.CreateDrive | src/services/placement.service.ts:12-15 | the drive is appended and returned; applications are unchanged; consistency is kept |
| CorePlacement.PlacementService.ApplyToDrive | src/services/placement.service.ts:17-38 | on success exactly one application is appended, the one `Workflow.ApplyToDrive` describes; on an unknown drive nothing is added |
| CorePlacement.PlacementService.GetEligibleStudents | src/services/placement.service.ts:40-44 | exactly the stored applications to the drive with status ELIGIBLE, as the list `Workflow.EligibleFor` gives, whose stored order `Workflow.EligibleForAppend` states |
| CorePlacement.PlacementService.ShortlistCandidates | src/services/placement.service.ts:46-52 | only matching applications change, and only to SHORTLISTED |
| CorePlacement.PlacementService.UpdateRoundStatus | src/services/placement.service.ts:54-73 | the applications become `Workflow.UpdateRoundStatus`'s result, or stay unchanged with its error |
| CorePlacement.PlacementService.GetDrive | src/services/placement.service.ts:75-77 | none exactly when no drive has the id, otherwise the first stored drive with that id |
| AnalyticsEngine.GetFunnel | frontend/src/engines/analytics-engine/evaluator.ts:14-20 | a status is a key exactly when some application has it, and maps to the number of applications with it |
| AnalyticsEngine.FunnelTotal | frontend/src/engines/analytics-engine/evaluator.ts:16-18 | the counts over all statuses add up to the number of applications |
| AnalyticsEngine.FunnelAppend | frontend/src/engines/analytics-engine/evaluator.ts:16-18 | one more application adds one to its own status only |
| AnalyticsEngine.Tally | frontend/src/engines/analytics-engine/evaluator.ts:34 | `m[k] = (m[k] \|\| 0) + 1` adds the key, increments it from 0 when new, and leaves other keys alone |
| AnalyticsEngine.CountApplication | frontend/src/engines/analytics-engine/evaluator.ts:30-38 | tallying the next application keeps both dictionaries equal to the group counts so far |
| AnalyticsEngine.CountGroups | frontend/src/engines/analytics-engine/evaluator.ts:29-39 | `distribution` holds every group's application count and `rejectionCounts` every group's rejection count, under exactly the keys that occur |
| AnalyticsEngine.AnyHighRate | frontend/src/engines/analytics-engine/evaluator.ts:42-46 | true exactly when some key of `rejectionCounts` has a rate above 0.8 and more than five applications |
| AnalyticsEngine.DetectBias | frontend/src/engines/analytics-engine/evaluator.ts:25-56 | the distribution counts each group's applications, skipping unknown students; disproportionate exactly when some group is; the attribute echoes the input; the recommendation matches the flag |
| AnalyticsEngine.Recommendation | frontend/src/engines/analytics-engine/evaluator.ts:52-54 | a flagged report's advice opens "High rejection rate detected for <attribute>", an unflagged one's "Distribution for <attribute>" |
| AnalyticsEngine.RejectionsWithinGroup | frontend/src/engines/analytics-engine/evaluator.ts:36-38 | a group never has more rejections than applications |
| AnalyticsEngine.GroupWithinApplications | frontend/src/engines/analytics-engine/evaluator.ts:29-34 | no group has more applications than there are applications |
| AnalyticsEngine.SmallPoolIsFair | frontend/src/engines/analytics-engine/evaluator.ts:45 | five or fewer applications are never reported as disproportionate |
| AnalyticsEngine.NoRejectionsIsFair | frontend/src/engines/analytics-engine/evaluator.ts:36-46 | without rejections no group is flagged |
| Governance.LogsFor | frontend/src/services/governance.service.ts:20 | exactly the logs whose target is the given one |
| Governance.LogsForAppend | frontend/src/services/governance.service.ts:19-20 | a new log joins the end of its own target's trail and of no other |
| Governance.GovernanceService.constructor | frontend/src/services/governance.service.ts:4 | the log starts empty |
| Governance.GovernanceService.LogAction | frontend/src/services/governance.service.ts:6-17 | exactly one entry `LOG_<now>` with the given actor, action, target and metadata is appended; every trail read back afterwards is the old one plus that entry where it concerns the target |
| Governance.GovernanceService.GetAuditLogs | frontend/src/services/governance.service.ts:19-21 | all logs for no or an empty target, otherwise that target's logs |
| Governance.FreezeControlsModification | frontend/src/services/governance.service.ts:26-35 | `canModify` (`CanModify`) is false for a frozen drive and true for an unfrozen one; freezing or unfreezing does not change `getBindingVersion` (`GetBindingVersion`) |
| Scenarios.TwoRuleVerdicts | frontend/src/engines/rule-engine/evaluator.ts:4-26 | with two rules that do not throw, the verdicts are the two comparisons and eligibility is their conjunction |
| Scenarios.MockStudentEligibleForD001 | frontend/src/mockData.ts:4-31 | the sample student passes both rules of D001 |
| Scenarios.MockStudentNotEligibleForD002 | frontend/src/mockData.ts:32-46 | the sample student passes D002's CGPA rule and fails its `contains_any ['Python','PyTorch']` rule |
| Scenarios.LowCgpaRejected | frontend/src/engines/rule-engine/evaluator.ts:28-30 | CGPA 7 against `gte 8` is not eligible |
| Scenarios.LowCgpaExplanation | frontend/src/engines/rule-engine/evaluator.ts:43-49 | that explanation reads "cgpa is 7, but the requirement is gte 8" |
| Scenarios.WeightedCompositeExample | frontend/src/engines/scoring-engine/evaluator.ts:8-32 | weights 0.6/0.4 on cgpa 8.0 and five skills give 48 + 40 = 88 |
| Scenarios.CompositeNotClamped | frontend/src/engines/scoring-engine/evaluator.ts:15-17 | a weight of 2 gives 200 and a weight of -1 gives -100: the composite is not clamped |
| Scenarios.MissingScreeningAnswer | frontend/src/engines/screening-engine/evaluator.ts:17-22 | an unanswered question fails and reports that it got "undefined" |
| Scenarios.MockStudentAppliesToD001 | frontend/src/services/placement.service.ts:35-57 | the sample student's application to D001 is ELIGIBLE with rounds RD1 and RD2 pending |
| Scenarios.TwoRoundsToSelection | frontend/src/services/placement.service.ts:74-94 | passing RD1 keeps the application ELIGIBLE, and then passing RD2 makes it SELECTED |

## Left out

- Browser storage and JSON: `saveToStorage`, `loadFromStorage`'s reading and parsing, and the `auth.service`. The frontend constructor takes the already parsed lists as optional parameters.
- `Math.random`, `Date.now`, `new Date().toISOString()` and `console.log`. The random suffix, the clock and the time string are parameters; logging is not modelled.
- Aliasing: the TypeScript services hand out the stored objects, and a caller could mutate them. The model returns values.
- IEEE floating point: numbers are `real`, so rounding, `NaN` and infinities are not modelled. The `rate > 0.8` test is the exact `5 * rejected > 4 * total`. For a rate within about 1e-16 of 0.8, a float division could round the other way.
- ScoringEngine.Calculate: requires every attribute to be `Scorable`, which means that for `cgpa`, `skills` and `backlog_count` the raw value is a number or a boolean. JavaScript's `/`, `*` and `-` in `normalize` would also accept other values through ToNumber: a numeric string (`"8.5"` gives 85 for `cgpa`) or a one-number array (`[8]`). Only values that convert to `NaN` would give `NaN`: a non-numeric string, an array whose joined text is not a numeral (such as `[1,2]`), or the `undefined` length of a number or boolean `skills`. The model does not implement ToNumber on strings and arrays. `StudentTypesScorable` shows that every profile with the declared field types meets the requirement.
- JavaScript coercions in `>=`/`<=`:
  - A string compared with a number or a boolean converts the string to a number (`"1" >= true` holds). This is modelled as false.
  - A list compared with anything is converted to a string first. This is modelled as false.
  - String order compares characters, not UTF-16 code units, and the length of a string `skills` counts characters, not UTF-16 code units.
  - `null` is not a modelled value.
- Number rendering in template strings:
  - Integers and terminating decimals are rendered exactly, up to 20 fractional digits.
  - Exponent notation and JavaScript's shortest-round-trip digits are not modelled.
  - `toFixed(2)` rounds the exact real half away from zero.
- Property keys in `detectBias` and `getFunnel`: keys are `String(value)`. Inherited `Object.prototype` names (such as `constructor`) are not modelled, and neither is the key order of the returned records.
- Drive fields that no core operation reads are not in the `PlacementDrive` datatype: `companyName`, `roleTitle`, `description`, `requiredSkills`, `scoringWeights` and `screeningQuestions`. The same goes for the optional application fields (`scoringExplanation`, `screeningResponses`, `compositeScore`) and for round slots.
- `versionAppliedTo` is not modelled. `applyToDrive` never sets it, although the `Application` type declares it. The sample drives lack `version` and `isFrozen`; `Scenarios.MockDrives` uses 0 and false.
- The storage-free service's drive type has no `version`/`isFrozen`. Both services share one `PlacementDrive` datatype that has them. `CorePlacement` models the `RuleEvaluator` imported at src/services/placement.service.ts:6 by the frontend `RuleEvaluator`; that file's own source is not part of this model.
- `applyToDrive` ignores the drive's `status` and `isFrozen`, and so does the model. Neither service consults `canModify`.
- FrontendPlacement.PlacementService: a state loaded from storage need not be consistent. So its methods promise only that they keep consistency (`old(Valid()) ==> Valid()`), not that they establish it.
- The resume and recommendation engines, and the React components, are not part of this model.
