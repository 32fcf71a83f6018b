/**
 * `application.service.ts`: a student applies to an open internship once; the student
 * lists their applications, the internship's creator lists the applications to it and
 * moves them through the status workflow, and every status change notifies the student.
 */
module ApplicationService {
  import opened Wrappers
  import opened Queries
  import opened ObjectIds
  import opened Records
  import opened Database
  import opened InternshipService
  import opened NotificationService

  /** The optional apply body. */
  datatype ApplyInput = ApplyInput(resumeUrl: Option<string>, coverLetter: Option<string>)

  const InvalidInternshipIdMessage: string := "Invalid internship id"
  const InternshipNotFoundMessage: string := "Internship not found"
  const NotOpenMessage: string := "Internship is not open for applications"
  /** What `Application.create` reports when the internship has no creator to copy into `companyId`. */
  const MissingCompanyMessage: string := "Application validation failed: companyId: Path `companyId` is required."
  const NotOwnerMessage: string := "You are not the owner of this internship"
  const InvalidApplicationIdMessage: string := "Invalid application id"
  const ApplicationNotFoundMessage: string := "Application not found"
  const NotAllowedMessage: string := "You are not allowed to modify this application"
  /** What `createdBy.toString()` throws when the internship has no creator (a scraped or seeded one). */
  const NullCreatorMessage: string := "Cannot read properties of null (reading 'toString')"
  const StatusUpdateKind: string := "application_status_update"
  const StatusUpdateTitle: string := "Your application status was updated"

  predicate HasApplied(applications: seq<Application>, studentId: Id, internshipId: Id) {
    exists k :: 0 <= k < |applications| && applications[k].studentId == studentId && applications[k].internshipId == internshipId
  }

  /** The unique index on (studentId, internshipId): no student applies twice to one internship. */
  predicate OnePerPair(applications: seq<Application>) {
    forall j, k :: 0 <= j < k < |applications| ==>
      !(applications[j].studentId == applications[k].studentId && applications[j].internshipId == applications[k].internshipId)
  }

  /**
   * The checks of `applyToInternship`, in order: a well-formed id, an existing internship,
   * an open one; then `create`'s own: a creator to copy, and no earlier application.
   */
  function ApplyTarget(internships: seq<Internship>, applications: seq<Application>, studentId: Id, internshipId: string): (r: Result<Internship>)
    ensures !IsValidObjectId(internshipId) ==> r == Failure(InvalidInternshipIdMessage)
    ensures IsValidObjectId(internshipId) && GetInternshipById(internships, internshipId).None? ==> r == Failure(InternshipNotFoundMessage)
    ensures GetInternshipById(internships, internshipId).Some? && GetInternshipById(internships, internshipId).value.status != Open ==>
              r == Failure(NotOpenMessage)
    ensures r.Success? ==>
      && r.value == GetInternshipById(internships, internshipId).value
      && r.value.status == Open && r.value.createdBy.Some?
      && !HasApplied(applications, studentId, r.value.id)
  {
    if !IsValidObjectId(internshipId) then Failure(InvalidInternshipIdMessage)
    else
      match GetInternshipById(internships, internshipId)
      case None => Failure(InternshipNotFoundMessage)
      case Some(i) =>
        if i.status != Open then Failure(NotOpenMessage)
        else if i.createdBy.None? then Failure(MissingCompanyMessage)
        else if HasApplied(applications, studentId, i.id) then Failure(DuplicateKeyMessage)
        else Success(i)
  }

  /** The document `Application.create(...)` stores. */
  function NewApplication(studentId: Id, internship: Internship, data: ApplyInput, id: Id, now: Time): (a: Application)
    requires internship.createdBy.Some?
    ensures a.status == Applied && a.companyId == internship.createdBy.value
    ensures a.studentId == studentId && a.internshipId == internship.id
    ensures a.resumeUrl == data.resumeUrl && a.coverLetter == data.coverLetter
    ensures a.id == id && a.appliedAt == now
  {
    Application(id, studentId, internship.createdBy.value, internship.id, data.resumeUrl, data.coverLetter, Applied, now)
  }

  /** `applyToInternship(studentUserId, internshipId, data)`. */
  method ApplyToInternship(db: Db, studentId: Id, internshipId: string, data: ApplyInput, now: Time) returns (r: Result<Application>)
    modifies db`applications, db`nextId
    ensures ApplyTarget(db.internships, old(db.applications), studentId, internshipId).Failure? ==>
      && r == Failure(ApplyTarget(db.internships, old(db.applications), studentId, internshipId).error)
      && db.applications == old(db.applications) && db.nextId == old(db.nextId)
    ensures ApplyTarget(db.internships, old(db.applications), studentId, internshipId).Success? ==>
      && r == Success(NewApplication(studentId, ApplyTarget(db.internships, old(db.applications), studentId, internshipId).value, data, old(db.nextId), now))
      && db.applications == old(db.applications) + [r.value]
      && db.nextId == old(db.nextId) + 1
  {
    var target := ApplyTarget(db.internships, db.applications, studentId, internshipId);
    if target.Failure? {
      return Failure(target.error);
    }
    var application := NewApplication(studentId, target.value, data, db.nextId, now);
    db.applications := db.applications + [application];
    db.nextId := db.nextId + 1;
    return Success(application);
  }

  function AppliedAt(a: Application): int {
    a.appliedAt
  }

  function OfStudent(studentId: Id): Application -> bool {
    (a: Application) => a.studentId == studentId
  }

  /** `Application.find({ studentId }).sort({ appliedAt: -1 })`: that student's applications, latest first. */
  function ApplicationsOfStudent(applications: seq<Application>, studentId: Id): seq<Application> {
    SortDesc(Filter(applications, OfStudent(studentId)), AppliedAt)
  }

  function InternshipRef(a: Application): Id {
    a.internshipId
  }

  function StudentRef(a: Application): Id {
    a.studentId
  }

  function InternshipKey(i: Internship): Id {
    i.id
  }

  function UserKey(u: User): Id {
    u.id
  }

  /** `getStudentApplications(studentUserId)`: that student's applications, latest first, each with its internship populated. */
  function GetStudentApplications(internships: seq<Internship>, applications: seq<Application>, studentId: Id)
    : seq<(Application, Option<Internship>)>
  {
    Populate(ApplicationsOfStudent(applications, studentId), internships, InternshipRef, InternshipKey)
  }

  function ToInternship(key: Id): Application -> bool {
    (a: Application) => a.internshipId == key
  }

  /** The ownership test both company operations make: the error, or none when `companyUserId` created the internship. */
  function OwnerError(internship: Internship, companyUserId: Id, denied: string): (r: Option<string>)
    ensures r.None? <==> internship.createdBy == Some(companyUserId)
  {
    match internship.createdBy
    case None => Some(NullCreatorMessage)
    case Some(owner) => if owner != companyUserId then Some(denied) else None
  }

  /** `getCompanyInternshipApplications(companyUserId, internshipId)`: the internship's applications, latest first, each with its student populated, for its creator only. */
  function GetCompanyInternshipApplications(internships: seq<Internship>, applications: seq<Application>, users: seq<User>,
                                            companyUserId: Id, internshipId: string)
    : (r: Result<seq<(Application, Option<User>)>>)
    ensures !IsValidObjectId(internshipId) ==> r == Failure(InvalidInternshipIdMessage)
    ensures IsValidObjectId(internshipId) && GetInternshipById(internships, internshipId).None? ==> r == Failure(InternshipNotFoundMessage)
  {
    if !IsValidObjectId(internshipId) then Failure(InvalidInternshipIdMessage)
    else
      match GetInternshipById(internships, internshipId)
      case None => Failure(InternshipNotFoundMessage)
      case Some(i) =>
        match OwnerError(i, companyUserId, NotOwnerMessage)
        case Some(e) => Failure(e)
        case None => Success(Populate(SortDesc(Filter(applications, ToInternship(i.id)), AppliedAt), users, StudentRef, UserKey))
  }

  function ApplicationWithId(key: Id): Application -> bool {
    (a: Application) => a.id == key
  }

  function InternshipWithId(key: Id): Internship -> bool {
    (i: Internship) => i.id == key
  }

  /** The checks of `updateApplicationStatus`, in order; on success, the position of the application to update. */
  function StatusTarget(internships: seq<Internship>, applications: seq<Application>, companyUserId: Id, applicationId: string): (r: Result<nat>)
    ensures !IsValidObjectId(applicationId) ==> r == Failure(InvalidApplicationIdMessage)
    ensures r.Success? ==>
      && r.value < |applications|
      && applications[r.value].id == ParseObjectId(applicationId).value
      && FindFirst(internships, InternshipWithId(applications[r.value].internshipId)).Some?
      && FindFirst(internships, InternshipWithId(applications[r.value].internshipId)).value.createdBy == Some(companyUserId)
  {
    match ParseObjectId(applicationId)
    case None => Failure(InvalidApplicationIdMessage)
    case Some(key) =>
      var k := FirstIndex(applications, ApplicationWithId(key));
      if k == -1 then Failure(ApplicationNotFoundMessage)
      else
        match FindFirst(internships, InternshipWithId(applications[k].internshipId))
        case None => Failure(InternshipNotFoundMessage)
        case Some(i) =>
          match OwnerError(i, companyUserId, NotAllowedMessage)
          case Some(e) => Failure(e)
          case None => Success(k)
  }

  /** The body of the status notification: the internship's id and the new status. */
  function StatusBody(a: Application, status: ApplicationStatus): string {
    "Your application for internship " + FormatObjectId(a.internshipId) + " is now: " + ApplicationStatusName(status)
  }

  function StatusMetadata(a: Application, status: ApplicationStatus): map<string, string> {
    map["applicationId" := FormatObjectId(a.id), "internshipId" := FormatObjectId(a.internshipId), "status" := ApplicationStatusName(status)]
  }

  /** `updateApplicationStatus(companyUserId, applicationId, status)`: save the new status, then notify the student. */
  method UpdateApplicationStatus(db: Db, companyUserId: Id, applicationId: string, status: ApplicationStatus, now: Time)
    returns (r: Result<Application>)
    modifies db`applications, db`notifications, db`nextId
    ensures StatusTarget(db.internships, old(db.applications), companyUserId, applicationId).Failure? ==>
      && r == Failure(StatusTarget(db.internships, old(db.applications), companyUserId, applicationId).error)
      && db.applications == old(db.applications) && db.notifications == old(db.notifications) && db.nextId == old(db.nextId)
    ensures StatusTarget(db.internships, old(db.applications), companyUserId, applicationId).Success? ==>
      var k := StatusTarget(db.internships, old(db.applications), companyUserId, applicationId).value;
      var a := old(db.applications)[k];
      && r == Success(a.(status := status))
      && db.applications == old(db.applications)[k := a.(status := status)]
      && db.notifications == old(db.notifications) +
           [NewNotification(a.studentId, StatusUpdateKind, StatusUpdateTitle, StatusBody(a, status), Some(StatusMetadata(a, status)), old(db.nextId), now)]
      && db.nextId == old(db.nextId) + 1
  {
    var target := StatusTarget(db.internships, db.applications, companyUserId, applicationId);
    if target.Failure? {
      return Failure(target.error);
    }
    var k := target.value;
    var updated := db.applications[k].(status := status);
    db.applications := db.applications[k := updated];
    var sent := CreateNotification(db, updated.studentId, StatusUpdateKind, StatusUpdateTitle, StatusBody(updated, status),
      Some(StatusMetadata(updated, status)), now);
    return Success(updated);
  }

  // ---- properties ----

  /** A successful apply keeps at most one application per student and internship. */
  lemma ApplyKeepsOnePerPair(internships: seq<Internship>, applications: seq<Application>, studentId: Id, internshipId: string,
                             data: ApplyInput, id: Id, now: Time)
    requires OnePerPair(applications)
    requires ApplyTarget(internships, applications, studentId, internshipId).Success?
    ensures OnePerPair(applications + [NewApplication(studentId, ApplyTarget(internships, applications, studentId, internshipId).value, data, id, now)])
  {
  }

  /** A student's list holds exactly that student's applications, latest first, each paired with the internship it names or null. */
  lemma StudentApplicationsProperties(internships: seq<Internship>, applications: seq<Application>, studentId: Id)
    ensures var r := GetStudentApplications(internships, applications, studentId);
            && (forall a :: a in Documents(r) <==> a in applications && a.studentId == studentId)
            && SortedDesc(Documents(r), AppliedAt)
            && (forall k :: 0 <= k < |r| ==> PopulatedFrom(r[k], internships, InternshipRef, InternshipKey))
  {
    FilterMembers(applications, OfStudent(studentId));
    SortDescMembers(Filter(applications, OfStudent(studentId)), AppliedAt);
  }

  /** Only the internship's creator gets its applications, which are exactly the applications to it, latest first, each paired with its student or null. */
  lemma CompanyApplicationsOwnerOnly(internships: seq<Internship>, applications: seq<Application>, users: seq<User>,
                                     companyUserId: Id, internshipId: string)
    requires GetCompanyInternshipApplications(internships, applications, users, companyUserId, internshipId).Success?
    ensures GetInternshipById(internships, internshipId).Some?
    ensures GetInternshipById(internships, internshipId).value.createdBy == Some(companyUserId)
    ensures var r := GetCompanyInternshipApplications(internships, applications, users, companyUserId, internshipId).value;
            var key := GetInternshipById(internships, internshipId).value.id;
            && (forall a :: a in Documents(r) <==> a in applications && a.internshipId == key)
            && SortedDesc(Documents(r), AppliedAt)
            && (forall k :: 0 <= k < |r| ==> PopulatedFrom(r[k], users, StudentRef, UserKey))
  {
    var key := GetInternshipById(internships, internshipId).value.id;
    FilterMembers(applications, ToInternship(key));
    SortDescMembers(Filter(applications, ToInternship(key)), AppliedAt);
  }

  /** Anyone but the creator is refused, with the message of the ownership check. */
  lemma OthersAreRefused(internships: seq<Internship>, applications: seq<Application>, users: seq<User>, companyUserId: Id, internshipId: string)
    requires GetInternshipById(internships, internshipId).Some?
    requires GetInternshipById(internships, internshipId).value.createdBy != Some(companyUserId)
    ensures GetCompanyInternshipApplications(internships, applications, users, companyUserId, internshipId).Failure?
    ensures GetInternshipById(internships, internshipId).value.createdBy.Some? ==>
              GetCompanyInternshipApplications(internships, applications, users, companyUserId, internshipId) == Failure(NotOwnerMessage)
  {
  }

  /**
   * A status update changes only the status of that one application, and keeps the
   * unique index satisfied.
   */
  lemma StatusUpdateChangesOnlyStatus(applications: seq<Application>, k: nat, status: ApplicationStatus)
    requires k < |applications| && OnePerPair(applications)
    ensures var after := applications[k := applications[k].(status := status)];
            && OnePerPair(after)
            && (forall j :: 0 <= j < |applications| && j != k ==> after[j] == applications[j])
            && after[k].id == applications[k].id && after[k].studentId == applications[k].studentId
            && after[k].internshipId == applications[k].internshipId && after[k].companyId == applications[k].companyId
            && after[k].status == status
  {
  }

  /** The notification a status update sends goes to the application's student, unread, carrying the new status. */
  lemma StatusNotificationShape(a: Application, status: ApplicationStatus, id: Id, now: Time)
    ensures var n := NewNotification(a.studentId, StatusUpdateKind, StatusUpdateTitle, StatusBody(a, status), Some(StatusMetadata(a, status)), id, now);
            && n.userId == a.studentId && !n.isRead && n.kind == "application_status_update"
            && n.metadata.Some? && "status" in n.metadata.value && n.metadata.value["status"] == ApplicationStatusName(status)
            && n.metadata.value["applicationId"] == FormatObjectId(a.id)
  {
  }
}
