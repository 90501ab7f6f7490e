/**
 * Placement analytics (`AnalyticsEngine`): the funnel counts applications per
 * status, and the bias check groups applications by a student attribute and
 * flags any large group in which more than 80% were turned away.
 */
module AnalyticsEngine {
  import opened Values
  import opened Workflow

  // ---------------------------------------------------------------------
  // getFunnel

  /** The number of applications with the status */
  function StatusCount(apps: seq<Application>, status: ApplicationStatus): nat {
    if apps == [] then 0
    else StatusCount(apps[..|apps| - 1], status) + (if apps[|apps| - 1].currentStatus == status then 1 else 0)
  }

  /**
   * `getFunnel`: a status is a key exactly when some application has it, and
   * its value is the number of applications that have it.
   */
  method GetFunnel(applications: seq<Application>) returns (stats: map<ApplicationStatus, nat>)
    ensures forall s :: s in stats <==> StatusCount(applications, s) > 0
    ensures forall s :: s in stats ==> stats[s] == StatusCount(applications, s)
  {
    stats := map[];
    var k := 0;
    while k < |applications|
      invariant 0 <= k <= |applications|
      invariant forall s :: s in stats <==> StatusCount(applications[..k], s) > 0
      invariant forall s :: s in stats ==> stats[s] == StatusCount(applications[..k], s)
    {
      assert applications[..k + 1][..k] == applications[..k];
      var status := applications[k].currentStatus;
      stats := stats[status := (if status in stats then stats[status] else 0) + 1];
      k := k + 1;
    }
    assert applications[..k] == applications;
  }

  /** Every application is counted under exactly one status, so the funnel adds up to the number of applications */
  lemma {:induction false} FunnelTotal(apps: seq<Application>)
    ensures StatusCount(apps, Applied) + StatusCount(apps, Eligible) + StatusCount(apps, NotEligible)
          + StatusCount(apps, Shortlisted) + StatusCount(apps, Rejected) + StatusCount(apps, Selected) == |apps|
  {
    if apps != [] {
      FunnelTotal(apps[..|apps| - 1]);
    }
  }

  /** Adding an application adds one to its status and leaves the other counts alone */
  lemma FunnelAppend(apps: seq<Application>, app: Application, status: ApplicationStatus)
    ensures StatusCount(apps + [app], status) == StatusCount(apps, status) + (if app.currentStatus == status then 1 else 0)
  {
    assert (apps + [app])[..|apps|] == apps;
  }

  // ---------------------------------------------------------------------
  // detectBias

  /** The two attributes bias can be checked on */
  datatype BiasAttribute = Branch | GraduationYear

  function AttributeName(attribute: BiasAttribute): string {
    match attribute
    case Branch => "branch"
    case GraduationYear => "graduation_year"
  }

  datatype BiasReport = BiasReport(
    attribute: string,
    distribution: map<string, nat>,
    isDisproportionate: bool,
    recommendation: string)

  /** `students.find(s => s.id === app.studentId)` */
  function FindStudent(students: seq<Profile>, studentId: string): Option<Profile> {
    Find(students, (s: Profile) => Get(s, "id") == Str(studentId))
  }

  /** The property key the attribute's value is counted under (`String(value)`) */
  function GroupKey(student: Profile, attribute: BiasAttribute): string {
    ValText(Get(student, AttributeName(attribute)))
  }

  /** The application's student is known and falls in the group */
  predicate InGroup(app: Application, students: seq<Profile>, attribute: BiasAttribute, key: string) {
    var student := FindStudent(students, app.studentId);
    student.Some? && GroupKey(student.value, attribute) == key
  }

  /** REJECTED and NOT_ELIGIBLE count as rejections */
  predicate IsRejection(app: Application) {
    app.currentStatus == Rejected || app.currentStatus == NotEligible
  }

  /** The number of applications in the group */
  function GroupCount(apps: seq<Application>, students: seq<Profile>, attribute: BiasAttribute, key: string): nat {
    if apps == [] then 0
    else GroupCount(apps[..|apps| - 1], students, attribute, key)
         + (if InGroup(apps[|apps| - 1], students, attribute, key) then 1 else 0)
  }

  /** The number of rejected applications in the group */
  function RejectionCount(apps: seq<Application>, students: seq<Profile>, attribute: BiasAttribute, key: string): nat {
    if apps == [] then 0
    else RejectionCount(apps[..|apps| - 1], students, attribute, key)
         + (if InGroup(apps[|apps| - 1], students, attribute, key) && IsRejection(apps[|apps| - 1]) then 1 else 0)
  }

  /** `rejected / total > 0.8 && total > 5`, in exact arithmetic */
  predicate HighRate(rejected: nat, total: nat) {
    5 * rejected > 4 * total && total > 5
  }

  /** The group has a rejection, more than five applications and a rejection rate above 0.8 */
  predicate Disproportionate(apps: seq<Application>, students: seq<Profile>, attribute: BiasAttribute, key: string) {
    var rejected := RejectionCount(apps, students, attribute, key);
    rejected > 0 && HighRate(rejected, GroupCount(apps, students, attribute, key))
  }

  /** The advice attached to a bias report; it names the attribute either way */
  function Recommendation(attribute: BiasAttribute, isDisproportionate: bool): (r: string)
    ensures isDisproportionate ==> "High rejection rate detected for " + AttributeName(attribute) <= r
    ensures !isDisproportionate ==> "Distribution for " + AttributeName(attribute) <= r
  {
    if isDisproportionate then
      "High rejection rate detected for " + AttributeName(attribute) + ". Review eligibility rules for hidden biases."
    else
      "Distribution for " + AttributeName(attribute) + " appears fair."
  }

  /** `m` holds every group's application count, under exactly the keys of non-empty groups */
  ghost predicate TracksGroups(m: map<string, nat>, apps: seq<Application>, students: seq<Profile>, attribute: BiasAttribute) {
    forall key ::
      && (key in m <==> GroupCount(apps, students, attribute, key) > 0)
      && (key in m ==> m[key] == GroupCount(apps, students, attribute, key))
  }

  /** `m` holds every group's rejection count, under exactly the keys of groups with a rejection */
  ghost predicate TracksRejections(m: map<string, nat>, apps: seq<Application>, students: seq<Profile>, attribute: BiasAttribute) {
    forall key ::
      && (key in m <==> RejectionCount(apps, students, attribute, key) > 0)
      && (key in m ==> m[key] == RejectionCount(apps, students, attribute, key))
  }

  /** `m[key] = (m[key] || 0) + 1` */
  function Tally(m: map<string, nat>, key: string): (r: map<string, nat>)
    ensures r.Keys == m.Keys + {key}
    ensures r[key] == (if key in m then m[key] else 0) + 1
    ensures forall k :: k in m && k != key ==> r[k] == m[k]
  {
    m[key := (if key in m then m[key] else 0) + 1]
  }

  /** The `forEach` of `detectBias`: per group key, its applications and its rejections */
  method CountGroups(applications: seq<Application>, students: seq<Profile>, attribute: BiasAttribute)
    returns (distribution: map<string, nat>, rejectionCounts: map<string, nat>)
    ensures TracksGroups(distribution, applications, students, attribute)
    ensures TracksRejections(rejectionCounts, applications, students, attribute)
  {
    distribution := map[];
    rejectionCounts := map[];
    var k := 0;
    while k < |applications|
      invariant 0 <= k <= |applications|
      invariant TracksGroups(distribution, applications[..k], students, attribute)
      invariant TracksRejections(rejectionCounts, applications[..k], students, attribute)
    {
      distribution, rejectionCounts := CountApplication(distribution, rejectionCounts, applications, k, students, attribute);
      k := k + 1;
    }
    assert applications[..k] == applications;
  }

  /** The `forEach` callback: application `k` is tallied in its student's group, unless the student is unknown */
  method CountApplication(distribution: map<string, nat>, rejectionCounts: map<string, nat>,
                          applications: seq<Application>, k: nat, students: seq<Profile>, attribute: BiasAttribute)
    returns (distribution': map<string, nat>, rejectionCounts': map<string, nat>)
    requires k < |applications|
    requires TracksGroups(distribution, applications[..k], students, attribute)
    requires TracksRejections(rejectionCounts, applications[..k], students, attribute)
    ensures TracksGroups(distribution', applications[..k + 1], students, attribute)
    ensures TracksRejections(rejectionCounts', applications[..k + 1], students, attribute)
  {
    distribution', rejectionCounts' := distribution, rejectionCounts;
    var app := applications[k];
    var student := FindStudent(students, app.studentId);
    if student.Some? {
      var attrValue := GroupKey(student.value, attribute);
      distribution' := Tally(distribution', attrValue);
      if app.currentStatus == Rejected || app.currentStatus == NotEligible {
        rejectionCounts' := Tally(rejectionCounts', attrValue);
      }
    }
    TallyGroupsStep(distribution, distribution', applications, k, students, attribute);
    TallyRejectionsStep(rejectionCounts, rejectionCounts', applications, k, students, attribute);
  }

  lemma TallyGroupsStep(m: map<string, nat>, m': map<string, nat>, apps: seq<Application>, k: nat,
                        students: seq<Profile>, attribute: BiasAttribute)
    requires k < |apps| && TracksGroups(m, apps[..k], students, attribute)
    requires var s := FindStudent(students, apps[k].studentId);
      m' == if s.Some? then Tally(m, GroupKey(s.value, attribute)) else m
    ensures TracksGroups(m', apps[..k + 1], students, attribute)
  {
    GroupStep(apps, k, students, attribute);
  }

  lemma TallyRejectionsStep(m: map<string, nat>, m': map<string, nat>, apps: seq<Application>, k: nat,
                            students: seq<Profile>, attribute: BiasAttribute)
    requires k < |apps| && TracksRejections(m, apps[..k], students, attribute)
    requires var s := FindStudent(students, apps[k].studentId);
      m' == if s.Some? && IsRejection(apps[k]) then Tally(m, GroupKey(s.value, attribute)) else m
    ensures TracksRejections(m', apps[..k + 1], students, attribute)
  {
    GroupStep(apps, k, students, attribute);
  }

  /** The check over `Object.keys(rejectionCounts)`: some key has a high rate */
  method AnyHighRate(rejectionCounts: map<string, nat>, distribution: map<string, nat>) returns (b: bool)
    requires rejectionCounts.Keys <= distribution.Keys
    ensures b <==> exists key :: key in rejectionCounts && HighRate(rejectionCounts[key], distribution[key])
  {
    b := false;
    var keys := rejectionCounts.Keys;
    while keys != {}
      invariant keys <= rejectionCounts.Keys
      invariant b <==> exists key :: key in rejectionCounts.Keys - keys && HighRate(rejectionCounts[key], distribution[key])
      decreases |keys|
    {
      var key :| key in keys;
      if 5 * rejectionCounts[key] > 4 * distribution[key] && distribution[key] > 5 {
        b := true;
      }
      assert rejectionCounts.Keys - (keys - {key}) == (rejectionCounts.Keys - keys) + {key};
      keys := keys - {key};
    }
  }

  /**
   * `detectBias`: the distribution counts each group's applications (an
   * application whose student is unknown is skipped), and the report is
   * disproportionate exactly when some group is.
   */
  method DetectBias(applications: seq<Application>, students: seq<Profile>, attribute: BiasAttribute) returns (r: BiasReport)
    ensures r.attribute == AttributeName(attribute)
    ensures forall key :: key in r.distribution <==> GroupCount(applications, students, attribute, key) > 0
    ensures forall key :: key in r.distribution ==> r.distribution[key] == GroupCount(applications, students, attribute, key)
    ensures r.isDisproportionate <==> exists key :: Disproportionate(applications, students, attribute, key)
    ensures r.recommendation == Recommendation(attribute, r.isDisproportionate)
  {
    var distribution, rejectionCounts := CountGroups(applications, students, attribute);
    forall key | key in rejectionCounts
      ensures key in distribution
    {
      RejectionsWithinGroup(applications, students, attribute, key);
    }
    var isDisproportionate := AnyHighRate(rejectionCounts, distribution);
    if isDisproportionate {
      var key :| key in rejectionCounts && HighRate(rejectionCounts[key], distribution[key]);
      assert Disproportionate(applications, students, attribute, key);
    }
    r := BiasReport(AttributeName(attribute), distribution, isDisproportionate, Recommendation(attribute, isDisproportionate));
  }

  /** How one more application changes every group's counts */
  lemma GroupStep(apps: seq<Application>, k: nat, students: seq<Profile>, attribute: BiasAttribute)
    requires k < |apps|
    ensures forall key ::
      GroupCount(apps[..k + 1], students, attribute, key) ==
      GroupCount(apps[..k], students, attribute, key) + (if InGroup(apps[k], students, attribute, key) then 1 else 0)
    ensures forall key ::
      RejectionCount(apps[..k + 1], students, attribute, key) ==
      RejectionCount(apps[..k], students, attribute, key)
      + (if InGroup(apps[k], students, attribute, key) && IsRejection(apps[k]) then 1 else 0)
  {
    assert apps[..k + 1][..k] == apps[..k];
  }

  /** A group never has more rejections than applications, so its rate is at most 1 */
  lemma {:induction false} RejectionsWithinGroup(apps: seq<Application>, students: seq<Profile>, attribute: BiasAttribute, key: string)
    ensures RejectionCount(apps, students, attribute, key) <= GroupCount(apps, students, attribute, key)
  {
    if apps != [] {
      RejectionsWithinGroup(apps[..|apps| - 1], students, attribute, key);
    }
  }

  /** No group has more applications than there are applications */
  lemma {:induction false} GroupWithinApplications(apps: seq<Application>, students: seq<Profile>, attribute: BiasAttribute, key: string)
    ensures GroupCount(apps, students, attribute, key) <= |apps|
  {
    if apps != [] {
      GroupWithinApplications(apps[..|apps| - 1], students, attribute, key);
    }
  }

  /** Five or fewer applications can never be reported as disproportionate */
  lemma SmallPoolIsFair(apps: seq<Application>, students: seq<Profile>, attribute: BiasAttribute)
    requires |apps| <= 5
    ensures forall key :: !Disproportionate(apps, students, attribute, key)
  {
    forall key
      ensures !Disproportionate(apps, students, attribute, key)
    {
      GroupWithinApplications(apps, students, attribute, key);
    }
  }

  /** Without any rejection no group is flagged */
  lemma {:induction false} NoRejectionsIsFair(apps: seq<Application>, students: seq<Profile>, attribute: BiasAttribute, key: string)
    requires forall i :: 0 <= i < |apps| ==> !IsRejection(apps[i])
    ensures RejectionCount(apps, students, attribute, key) == 0
    ensures !Disproportionate(apps, students, attribute, key)
  {
    if apps != [] {
      NoRejectionsIsFair(apps[..|apps| - 1], students, attribute, key);
    }
  }
}
