/**
 * The storage-free `PlacementService` (src/services/placement.service.ts):
 * an in-memory list of drives and one of applications, changed by pushes and
 * by in-place status updates.
 */
module CorePlacement {
  import opened Values
  import opened Workflow

  class PlacementService {
    var drives: seq<PlacementDrive>
    var applications: seq<Application>

    /** Every stored application is consistent with the stored drives */
    ghost predicate Valid()
      reads this
    {
      Consistent(drives, applications)
    }

    constructor ()
      ensures Valid()
      ensures drives == [] && applications == []
    {
      drives := [];
      applications := [];
    }

    /** `createDrive`: the drive is appended and returned */
    method CreateDrive(drive: PlacementDrive) returns (r: PlacementDrive)
      requires Valid()
      modifies this
      ensures Valid()
      ensures r == drive
      ensures drives == old(drives) + [drive]
      ensures applications == old(applications)
    {
      CreateDriveKeepsConsistent(drives, applications, drive);
      drives := drives + [drive];
      r := drive;
    }

    /**
     * `applyToDrive`, with `token` standing for the random part of the new
     * id: on success exactly one application is appended; on an unknown drive
     * (or a throwing rule) nothing changes.
     */
    method ApplyToDrive(student: Profile, driveId: string, token: string) returns (r: Result<Application>)
      requires Valid() && HasStudentId(student)
      modifies this
      ensures Valid()
      ensures r == Workflow.ApplyToDrive(old(drives), student, driveId, token)
      ensures drives == old(drives)
      ensures r.Success? ==> applications == old(applications) + [r.value]
      ensures r.Failure? ==> applications == old(applications)
    {
      r := Workflow.ApplyToDrive(drives, student, driveId, token);
      if r.Success? {
        ApplyKeepsConsistent(drives, applications, student, driveId, token);
        applications := applications + [r.value];
      }
    }

    /** `getEligibleStudents`: the drive's ELIGIBLE applications, in stored order */
    function GetEligibleStudents(driveId: string): (r: seq<Application>)
      reads this
      ensures forall i :: 0 <= i < |r| ==> r[i] in applications && IsEligibleFor(r[i], driveId)
      ensures forall i :: 0 <= i < |applications| && IsEligibleFor(applications[i], driveId) ==> applications[i] in r
      ensures r == EligibleFor(applications, driveId)
    {
      EligibleFor(applications, driveId)
    }

    /** `shortlistCandidates`: matching applications become SHORTLISTED, nothing else changes */
    method ShortlistCandidates(driveId: string, studentIds: seq<string>)
      requires Valid()
      modifies this
      ensures Valid()
      ensures drives == old(drives)
      ensures |applications| == |old(applications)|
      ensures forall i :: 0 <= i < |applications| ==>
        applications[i] == ShortlistOne(old(applications)[i], driveId, studentIds)
    {
      var updated := ShortlistAll(applications, driveId, studentIds);
      forall i | 0 <= i < |updated|
        ensures ApplicationConsistent(drives, updated[i])
      {
        ShortlistKeepsConsistent(drives, applications[i], driveId, studentIds);
      }
      applications := updated;
    }

    /** `updateRoundStatus`: the state becomes `Workflow.UpdateRoundStatus`'s, or stays as it was when that throws */
    method UpdateRoundStatus(applicationId: string, roundId: string, status: Verdict, feedback: string) returns (r: Outcome)
      requires Valid()
      modifies this
      ensures Valid()
      ensures drives == old(drives)
      ensures var u := Workflow.UpdateRoundStatus(old(applications), applicationId, roundId, status, feedback);
        && (u.Failure? ==> r == Fail(u.error) && applications == old(applications))
        && (u.Success? ==> r == Pass && applications == u.value)
    {
      var u := Workflow.UpdateRoundStatus(applications, applicationId, roundId, status, feedback);
      if u.Failure? {
        r := Fail(u.error);
      } else {
        UpdateKeepsConsistent(drives, applications, applicationId, roundId, status, feedback);
        applications := u.value;
        r := Pass;
      }
    }

    /** `getDrive`: the first drive with the id */
    function GetDrive(driveId: string): (r: Option<PlacementDrive>)
      reads this
      ensures r.None? <==> forall i :: 0 <= i < |drives| ==> drives[i].id != driveId
      ensures r.Some? ==> r.value in drives && r.value.id == driveId
      ensures r.Some? ==>
        exists k :: 0 <= k < |drives| && drives[k] == r.value && forall j :: 0 <= j < k ==> drives[j].id != driveId
    {
      FindDrive(drives, driveId)
    }
  }
}
