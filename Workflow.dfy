/**
 * The application-tracking state shared by both `PlacementService` classes:
 * drives, applications and their round progress, and the operations the
 * services perform on them, stated on values. The classes in
 * FrontendPlacement.dfy and CorePlacement.dfy hold the state and apply these.
 */
module Workflow {
  import opened Values
  import RuleEngine

  datatype ApplicationStatus = Applied | Eligible | NotEligible | Shortlisted | Rejected | Selected

  datatype DriveStatus = Open | Closed

  datatype RoundState = Pending | Passed | Failed

  /** The statuses a round can be set to: 'PASSED' | 'FAILED' */
  type Verdict = s: RoundState | s != Pending witness Passed

  datatype SelectionRound = SelectionRound(id: string, name: string, order: int)

  datatype PlacementDrive = PlacementDrive(
    id: string,
    companyId: string,
    eligibilityRules: seq<RuleEngine.EligibilityRule>,
    selectionRounds: seq<SelectionRound>,
    status: DriveStatus,
    version: int,
    isFrozen: bool)

  datatype RoundStatus = RoundStatus(roundId: string, status: RoundState, feedback: string)

  datatype Application = Application(
    id: string,
    studentId: string,
    driveId: string,
    currentStatus: ApplicationStatus,
    eligibilityExplanation: seq<RuleEngine.RuleEvaluationResult>,
    roundProgress: seq<RoundStatus>)

  /** `student.id` is a string, as StudentProfile declares */
  predicate HasStudentId(student: Profile) {
    Get(student, "id").Str?
  }

  /** `drives.find(d => d.id === driveId)` */
  function FindDrive(drives: seq<PlacementDrive>, driveId: string): Option<PlacementDrive> {
    Find(drives, (d: PlacementDrive) => d.id == driveId)
  }

  /** `applications.find(app => app.id === id)` */
  function FindApplication(apps: seq<Application>, id: string): Option<Application> {
    Find(apps, (a: Application) => a.id == id)
  }

  /** Appending a drive does not change which drive an existing id finds */
  lemma FindDriveAppend(drives: seq<PlacementDrive>, d: PlacementDrive, driveId: string)
    requires FindDrive(drives, driveId).Some?
    ensures FindDrive(drives + [d], driveId) == FindDrive(drives, driveId)
  {
    FirstIndexAppend(drives, [d], (x: PlacementDrive) => x.id == driveId);
  }

  // ---------------------------------------------------------------------
  // applyToDrive

  /** `roundProgress`: one PENDING entry with empty feedback per selection round */
  function InitialRounds(rounds: seq<SelectionRound>): (r: seq<RoundStatus>)
    ensures |r| == |rounds|
    ensures forall i :: 0 <= i < |rounds| ==> r[i] == RoundStatus(rounds[i].id, Pending, "")
  {
    seq(|rounds|, i requires 0 <= i < |rounds| => RoundStatus(rounds[i].id, Pending, ""))
  }

  /**
   * The application `applyToDrive` creates, given the random part of its id.
   * Its status comes from the drive's eligibility rules alone.
   */
  function ApplyToDrive(drives: seq<PlacementDrive>, student: Profile, driveId: string, token: string): (r: Result<Application>)
    requires HasStudentId(student)
    ensures FindDrive(drives, driveId).None? ==> r == Failure(NotFound("Drive not found"))
    ensures FindDrive(drives, driveId).Some? &&
            RuleEngine.Evaluate(student, FindDrive(drives, driveId).value.eligibilityRules).Failure? ==>
            r == Failure(TypeError)
    ensures r.Success? <==>
      FindDrive(drives, driveId).Some? &&
      RuleEngine.Evaluate(student, FindDrive(drives, driveId).value.eligibilityRules).Success?
    ensures r.Success? ==>
      var d := FindDrive(drives, driveId).value;
      var e := RuleEngine.Evaluate(student, d.eligibilityRules);
      && FindDrive(drives, driveId).Some? && d.id == driveId
      && e.Success?
      && r.value.id == "APP_" + token
      && r.value.studentId == Get(student, "id").s
      && r.value.driveId == driveId
      && (r.value.currentStatus == Eligible <==> e.value.isEligible)
      && (r.value.currentStatus == NotEligible <==> !e.value.isEligible)
      && r.value.eligibilityExplanation == e.value.evaluations
      && |r.value.roundProgress| == |d.selectionRounds|
      && forall i :: 0 <= i < |d.selectionRounds| ==>
           r.value.roundProgress[i] == RoundStatus(d.selectionRounds[i].id, Pending, "")
  {
    match FindDrive(drives, driveId)
    case None => Failure(NotFound("Drive not found"))
    case Some(drive) =>
      match RuleEngine.Evaluate(student, drive.eligibilityRules)
      case Failure(e) => Failure(e)
      case Success(evaluation) =>
        Success(Application(
          "APP_" + token,
          Get(student, "id").s,
          driveId,
          if evaluation.isEligible then Eligible else NotEligible,
          evaluation.evaluations,
          InitialRounds(drive.selectionRounds)))
  }

  // ---------------------------------------------------------------------
  // getEligibleStudents

  predicate IsEligibleFor(app: Application, driveId: string) {
    app.driveId == driveId && app.currentStatus == Eligible
  }

  /** The applications to `driveId` whose status is ELIGIBLE, in stored order */
  function EligibleFor(apps: seq<Application>, driveId: string): (r: seq<Application>)
    ensures |r| <= |apps|
    ensures forall i :: 0 <= i < |r| ==> r[i] in apps && IsEligibleFor(r[i], driveId)
    ensures forall i :: 0 <= i < |apps| && IsEligibleFor(apps[i], driveId) ==> apps[i] in r
  {
    Filter(apps, (a: Application) => IsEligibleFor(a, driveId))
  }

  /** A new application joins the end of the eligible list exactly when it is eligible for the drive */
  lemma EligibleForAppend(apps: seq<Application>, app: Application, driveId: string)
    ensures EligibleFor(apps + [app], driveId) ==
      EligibleFor(apps, driveId) + (if IsEligibleFor(app, driveId) then [app] else [])
  {
    var p := (a: Application) => IsEligibleFor(a, driveId);
    FilterAppend(apps, [app], p);
    FilterSingleton(app, p);
  }

  // ---------------------------------------------------------------------
  // shortlistCandidates

  predicate ShortlistMatch(app: Application, driveId: string, studentIds: seq<string>) {
    app.driveId == driveId && app.studentId in studentIds
  }

  /** One application after `shortlistCandidates` */
  function ShortlistOne(app: Application, driveId: string, studentIds: seq<string>): Application {
    if ShortlistMatch(app, driveId, studentIds) then app.(currentStatus := Shortlisted) else app
  }

  /**
   * The `forEach` of `shortlistCandidates`: each application of the drive
   * whose student is listed becomes SHORTLISTED, in place; nothing else changes.
   */
  method ShortlistAll(apps: seq<Application>, driveId: string, studentIds: seq<string>) returns (r: seq<Application>)
    ensures |r| == |apps|
    ensures forall i :: 0 <= i < |apps| && ShortlistMatch(apps[i], driveId, studentIds) ==>
      r[i].currentStatus == Shortlisted && r[i] == apps[i].(currentStatus := Shortlisted)
    ensures forall i :: 0 <= i < |apps| && !ShortlistMatch(apps[i], driveId, studentIds) ==> r[i] == apps[i]
  {
    r := apps;
    var i := 0;
    while i < |r|
      invariant 0 <= i <= |r| == |apps|
      invariant forall j :: 0 <= j < i ==> r[j] == ShortlistOne(apps[j], driveId, studentIds)
      invariant forall j :: i <= j < |r| ==> r[j] == apps[j]
    {
      var app := r[i];
      if app.driveId == driveId && app.studentId in studentIds {
        r := r[i := app.(currentStatus := Shortlisted)];
      }
      i := i + 1;
    }
  }

  // ---------------------------------------------------------------------
  // updateRoundStatus

  function ApplicationIndex(apps: seq<Application>, applicationId: string): Option<nat> {
    FirstIndex(apps, (a: Application) => a.id == applicationId)
  }

  function RoundIndex(rounds: seq<RoundStatus>, roundId: string): Option<nat> {
    FirstIndex(rounds, (r: RoundStatus) => r.roundId == roundId)
  }

  /** `roundProgress.every(r => r.status === 'PASSED')` */
  function AllRoundsPassed(rounds: seq<RoundStatus>): (b: bool)
    ensures b <==> forall i :: 0 <= i < |rounds| ==> rounds[i].status == Passed
  {
    Every(rounds, (r: RoundStatus) => r.status == Passed)
  }

  /**
   * `updateRoundStatus` on the application list. The first application with
   * the id and its first round with the round id must exist; that round takes
   * the status and feedback; FAILED rejects the application, and PASSED
   * selects it once every round has passed, leaving the status alone otherwise.
   */
  function UpdateRoundStatus(apps: seq<Application>, applicationId: string, roundId: string,
                             status: Verdict, feedback: string): (r: Result<seq<Application>>)
    ensures ApplicationIndex(apps, applicationId).None? ==> r == Failure(NotFound("Application not found"))
    ensures ApplicationIndex(apps, applicationId).Some? &&
            RoundIndex(apps[ApplicationIndex(apps, applicationId).value].roundProgress, roundId).None? ==>
            r == Failure(NotFound("Round not found in application"))
    ensures r.Success? <==>
      ApplicationIndex(apps, applicationId).Some? &&
      RoundIndex(apps[ApplicationIndex(apps, applicationId).value].roundProgress, roundId).Some?
    ensures r.Success? ==>
      && ApplicationIndex(apps, applicationId).Some?
      && var k := ApplicationIndex(apps, applicationId).value;
      && RoundIndex(apps[k].roundProgress, roundId).Some?
      && var j := RoundIndex(apps[k].roundProgress, roundId).value;
      && |r.value| == |apps|
      && var old_ := apps[k];
      && var new_ := r.value[k];
      && (forall i :: 0 <= i < |apps| && i != k ==> r.value[i] == apps[i])
      && new_.id == applicationId
      && new_ == old_.(roundProgress := new_.roundProgress, currentStatus := new_.currentStatus)
      && |new_.roundProgress| == |old_.roundProgress|
      && new_.roundProgress[j] == RoundStatus(roundId, status, feedback)
      && (forall i :: 0 <= i < |old_.roundProgress| && i != j ==> new_.roundProgress[i] == old_.roundProgress[i])
      && (status == Failed ==> new_.currentStatus == Rejected)
      && (status == Passed && AllRoundsPassed(new_.roundProgress) ==> new_.currentStatus == Selected)
      && (status == Passed && !AllRoundsPassed(new_.roundProgress) ==> new_.currentStatus == old_.currentStatus)
  {
    match ApplicationIndex(apps, applicationId)
    case None => Failure(NotFound("Application not found"))
    case Some(k) =>
      var application := apps[k];
      match RoundIndex(application.roundProgress, roundId)
      case None => Failure(NotFound("Round not found in application"))
      case Some(j) =>
        var rounds := application.roundProgress[j := application.roundProgress[j].(status := status, feedback := feedback)];
        var newStatus :=
          if status == Failed then Rejected
          else if AllRoundsPassed(rounds) then Selected
          else application.currentStatus;
        Success(apps[k := application.(roundProgress := rounds, currentStatus := newStatus)])
  }

  /** A failed round always rejects, whatever the application's status was */
  lemma FailedRoundRejects(apps: seq<Application>, applicationId: string, roundId: string, feedback: string)
    requires UpdateRoundStatus(apps, applicationId, roundId, Failed, feedback).Success?
    ensures var r := UpdateRoundStatus(apps, applicationId, roundId, Failed, feedback).value;
      var k := ApplicationIndex(apps, applicationId).value;
      r[k].currentStatus == Rejected && !AllRoundsPassed(r[k].roundProgress)
  {
    var r := UpdateRoundStatus(apps, applicationId, roundId, Failed, feedback).value;
    var k := ApplicationIndex(apps, applicationId).value;
    var j := RoundIndex(apps[k].roundProgress, roundId).value;
    assert r[k].roundProgress[j].status == Failed;
  }

  /** Passing a round selects an application that was not yet selected exactly when every round has then passed */
  lemma PassedRoundSelectsIffAllPassed(apps: seq<Application>, applicationId: string, roundId: string, feedback: string)
    requires UpdateRoundStatus(apps, applicationId, roundId, Passed, feedback).Success?
    requires apps[ApplicationIndex(apps, applicationId).value].currentStatus != Selected
    ensures var r := UpdateRoundStatus(apps, applicationId, roundId, Passed, feedback).value;
      var k := ApplicationIndex(apps, applicationId).value;
      r[k].currentStatus == Selected <==> forall i :: 0 <= i < |r[k].roundProgress| ==> r[k].roundProgress[i].status == Passed
  {
  }

  /** A missing application or round leaves nothing changed: the call throws */
  lemma UpdateRoundStatusFailsWhole(apps: seq<Application>, applicationId: string, roundId: string,
                                    status: Verdict, feedback: string)
    requires forall i :: 0 <= i < |apps| ==> apps[i].id != applicationId || RoundIndex(apps[i].roundProgress, roundId).None?
    ensures UpdateRoundStatus(apps, applicationId, roundId, status, feedback).Failure?
  {
  }

  // ---------------------------------------------------------------------
  // The state invariant the operations keep

  /**
   * An application in a reachable state: its drive exists, its rounds are
   * that drive's rounds in order, a SELECTED application has passed every
   * round, and one with a failed round is REJECTED (or was shortlisted since).
   */
  predicate ApplicationConsistent(drives: seq<PlacementDrive>, app: Application) {
    && FindDrive(drives, app.driveId).Some?
    && var rounds := FindDrive(drives, app.driveId).value.selectionRounds;
    && |app.roundProgress| == |rounds|
    && (forall i :: 0 <= i < |rounds| ==> app.roundProgress[i].roundId == rounds[i].id)
    && (app.currentStatus == Selected ==> AllRoundsPassed(app.roundProgress))
    && ((exists i :: 0 <= i < |app.roundProgress| && app.roundProgress[i].status == Failed) ==>
          app.currentStatus == Rejected || app.currentStatus == Shortlisted)
  }

  predicate Consistent(drives: seq<PlacementDrive>, apps: seq<Application>) {
    forall i :: 0 <= i < |apps| ==> ApplicationConsistent(drives, apps[i])
  }

  lemma CreateDriveKeepsConsistent(drives: seq<PlacementDrive>, apps: seq<Application>, drive: PlacementDrive)
    requires Consistent(drives, apps)
    ensures Consistent(drives + [drive], apps)
  {
    forall i | 0 <= i < |apps|
      ensures ApplicationConsistent(drives + [drive], apps[i])
    {
      FindDriveAppend(drives, drive, apps[i].driveId);
    }
  }

  lemma ApplyKeepsConsistent(drives: seq<PlacementDrive>, apps: seq<Application>, student: Profile, driveId: string, token: string)
    requires HasStudentId(student)
    requires Consistent(drives, apps)
    requires ApplyToDrive(drives, student, driveId, token).Success?
    ensures Consistent(drives, apps + [ApplyToDrive(drives, student, driveId, token).value])
  {
    var app := ApplyToDrive(drives, student, driveId, token).value;
    assert forall i :: 0 <= i < |app.roundProgress| ==> app.roundProgress[i].status == Pending;
    assert ApplicationConsistent(drives, app);
    var all := apps + [app];
    assert forall i :: 0 <= i < |apps| ==> all[i] == apps[i];
  }

  lemma ShortlistKeepsConsistent(drives: seq<PlacementDrive>, app: Application, driveId: string, studentIds: seq<string>)
    requires ApplicationConsistent(drives, app)
    ensures ApplicationConsistent(drives, ShortlistOne(app, driveId, studentIds))
  {
  }

  lemma UpdateKeepsConsistent(drives: seq<PlacementDrive>, apps: seq<Application>, applicationId: string,
                              roundId: string, status: Verdict, feedback: string)
    requires Consistent(drives, apps)
    requires UpdateRoundStatus(apps, applicationId, roundId, status, feedback).Success?
    ensures Consistent(drives, UpdateRoundStatus(apps, applicationId, roundId, status, feedback).value)
  {
    var r := UpdateRoundStatus(apps, applicationId, roundId, status, feedback).value;
    var k := ApplicationIndex(apps, applicationId).value;
    var j := RoundIndex(apps[k].roundProgress, roundId).value;
    var before := apps[k];
    var after := r[k];
    assert ApplicationConsistent(drives, before);
    assert after.driveId == before.driveId;
    assert ApplicationConsistent(drives, after) by {
      if status == Passed && after.currentStatus != Selected {
        if exists i :: 0 <= i < |after.roundProgress| && after.roundProgress[i].status == Failed {
          var i :| 0 <= i < |after.roundProgress| && after.roundProgress[i].status == Failed;
          assert i != j;
          assert before.roundProgress[i].status == Failed;
        }
      }
    }
  }
}
