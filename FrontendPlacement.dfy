/**
 * The browser-side `PlacementService` (frontend/src/services/placement.service.ts):
 * the same drive and application lists as the storage-free service, loaded
 * once from local storage and saved after every change, plus a lookup of an
 * application by id.
 */
module FrontendPlacement {
  import opened Values
  import opened Workflow

  class PlacementService {
    var drives: seq<PlacementDrive>
    var applications: seq<Application>

    /** Every stored application is consistent with the stored drives */
    ghost predicate Valid()
      reads this
    {
      Consistent(drives, applications)
    }

    /**
     * `loadFromStorage`: each list is the parsed stored value when one was
     * stored, and empty otherwise. A loaded state need not be `Valid`.
     */
    constructor (storedDrives: Option<seq<PlacementDrive>>, storedApplications: Option<seq<Application>>)
      ensures drives == (if storedDrives.Some? then storedDrives.value else [])
      ensures applications == (if storedApplications.Some? then storedApplications.value else [])
      ensures storedDrives.None? && storedApplications.None? ==> Valid()
    {
      drives := if storedDrives.Some? then storedDrives.value else [];
      applications := if storedApplications.Some? then storedApplications.value else [];
    }

    /** `createDrive`: the drive is appended and returned */
    method CreateDrive(drive: PlacementDrive) returns (r: PlacementDrive)
      modifies this
      ensures old(Valid()) ==> Valid()
      ensures r == drive
      ensures drives == old(drives) + [drive]
      ensures applications == old(applications)
    {
      if Valid() {
        CreateDriveKeepsConsistent(drives, applications, drive);
      }
      drives := drives + [drive];
      r := drive;
    }

    /**
     * `applyToDrive`, with `token` standing for the random part of the new
     * id: on success exactly one application is appended; on an unknown drive
     * (or a throwing rule) nothing changes.
     */
    method ApplyToDrive(student: Profile, driveId: string, token: string) returns (r: Result<Application>)
      requires HasStudentId(student)
      modifies this
      ensures old(Valid()) ==> Valid()
      ensures r == Workflow.ApplyToDrive(old(drives), student, driveId, token)
      ensures drives == old(drives)
      ensures r.Success? ==> applications == old(applications) + [r.value]
      ensures r.Failure? ==> applications == old(applications)
    {
      r := Workflow.ApplyToDrive(drives, student, driveId, token);
      if r.Success? {
        if Valid() {
          ApplyKeepsConsistent(drives, applications, student, driveId, token);
        }
        applications := applications + [r.value];
      }
    }

    /** `getEligibleStudents`: the drive's ELIGIBLE applications, in stored order */
    function GetEligibleStudents(driveId: string): (r: seq<Application>)
      reads this
      ensures forall i :: 0 <= i < |r| ==> r[i] in applications && IsEligibleFor(r[i], driveId)
      ensures forall i :: 0 <= i < |applications| && IsEligibleFor(applications[i], driveId) ==> applications[i] in r
      ensures r == EligibleFor(applications, driveId)
    {
      EligibleFor(applications, driveId)
    }

    /** `shortlistCandidates`: matching applications become SHORTLISTED, nothing else changes */
    method ShortlistCandidates(driveId: string, studentIds: seq<string>)
      modifies this
      ensures old(Valid()) ==> Valid()
      ensures drives == old(drives)
      ensures |applications| == |old(applications)|
      ensures forall i :: 0 <= i < |applications| ==>
        applications[i] == ShortlistOne(old(applications)[i], driveId, studentIds)
    {
      var updated := ShortlistAll(applications, driveId, studentIds);
      if Valid() {
        forall i | 0 <= i < |updated|
          ensures ApplicationConsistent(drives, updated[i])
        {
          ShortlistKeepsConsistent(drives, applications[i], driveId, studentIds);
        }
      }
      applications := updated;
    }

    /** `updateRoundStatus`: the state becomes `Workflow.UpdateRoundStatus`'s, or stays as it was when that throws */
    method UpdateRoundStatus(applicationId: string, roundId: string, status: Verdict, feedback: string) returns (r: Outcome)
      modifies this
      ensures old(Valid()) ==> Valid()
      ensures drives == old(drives)
      ensures var u := Workflow.UpdateRoundStatus(old(applications), applicationId, roundId, status, feedback);
        && (u.Failure? ==> r == Fail(u.error) && applications == old(applications))
        && (u.Success? ==> r == Pass && applications == u.value)
    {
      var u := Workflow.UpdateRoundStatus(applications, applicationId, roundId, status, feedback);
      if u.Failure? {
        r := Fail(u.error);
      } else {
        if Valid() {
          UpdateKeepsConsistent(drives, applications, applicationId, roundId, status, feedback);
        }
        applications := u.value;
        r := Pass;
      }
    }

    /** `getDrive`: the first drive with the id */
    function GetDrive(driveId: string): (r: Option<PlacementDrive>)
      reads this
      ensures r.None? <==> forall i :: 0 <= i < |drives| ==> drives[i].id != driveId
      ensures r.Some? ==> r.value in drives && r.value.id == driveId
      ensures r.Some? ==>
        exists k :: 0 <= k < |drives| && drives[k] == r.value && forall j :: 0 <= j < k ==> drives[j].id != driveId
    {
      FindDrive(drives, driveId)
    }

    /** `getApplicationById`: the first application with the id */
    function GetApplicationById(id: string): (r: Option<Application>)
      reads this
      ensures r.None? <==> forall i :: 0 <= i < |applications| ==> applications[i].id != id
      ensures r.Some? ==> r.value in applications && r.value.id == id
      ensures r.Some? ==>
        exists k :: 0 <= k < |applications| && applications[k] == r.value && forall j :: 0 <= j < k ==> applications[j].id != id
    {
      FindApplication(applications, id)
    }
  }
}
