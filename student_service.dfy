/**
 * `student.service.ts`: each student has at most one profile. Reading it creates an empty
 * one on first use; updating sets only the fields the request carries, creating the
 * profile when it is missing.
 */
module StudentService {
  import opened Wrappers
  import opened Queries
  import opened ObjectIds
  import opened Records
  import opened Database

  /** What `new mongoose.Types.ObjectId(userId)` throws for a string that is not 24 hexadecimal digits. */
  const ObjectIdFormatMessage: string := "input must be a 24 character hex string, 12 byte Uint8Array, or an integer"

  function ForUser(userId: Id): StudentProfile -> bool {
    (p: StudentProfile) => p.userId == userId
  }

  predicate HasProfile(profiles: seq<StudentProfile>, userId: Id) {
    exists k :: 0 <= k < |profiles| && profiles[k].userId == userId
  }

  /** The unique index on `userId`: no user has two profiles. */
  predicate OnePerUser(profiles: seq<StudentProfile>) {
    forall j, k :: 0 <= j < k < |profiles| ==> profiles[j].userId != profiles[k].userId
  }

  // ---- getOrCreateStudentProfile ----

  /** The profile table after `getOrCreateStudentProfile`: unchanged when the user has a profile, else one empty profile appended. */
  function WithProfile(profiles: seq<StudentProfile>, userId: Id, nextId: Id): (r: seq<StudentProfile>)
    ensures HasProfile(r, userId)
    ensures HasProfile(profiles, userId) ==> r == profiles
    ensures !HasProfile(profiles, userId) ==> r == profiles + [StudentProfile(nextId, userId, EmptyProfileFields())]
  {
    if FirstIndex(profiles, ForUser(userId)) != -1 then profiles
    else
      var r := profiles + [StudentProfile(nextId, userId, EmptyProfileFields())];
      assert r[|profiles|].userId == userId;
      r
  }

  /** `getOrCreateStudentProfile(userId)`: the user's profile, created empty when there is none. */
  method GetOrCreateStudentProfile(db: Db, userId: string) returns (r: Result<StudentProfile>)
    modifies db`studentProfiles, db`nextId
    ensures !IsValidObjectId(userId) ==>
      r == Failure(ObjectIdFormatMessage) && db.studentProfiles == old(db.studentProfiles) && db.nextId == old(db.nextId)
    ensures IsValidObjectId(userId) ==>
      var key := ParseObjectId(userId).value;
      && db.studentProfiles == WithProfile(old(db.studentProfiles), key, old(db.nextId))
      && db.nextId == (if HasProfile(old(db.studentProfiles), key) then old(db.nextId) else old(db.nextId) + 1)
      && r == Success(FindFirst(db.studentProfiles, ForUser(key)).value)
  {
    var uid := ParseObjectId(userId);
    if uid.None? {
      return Failure(ObjectIdFormatMessage);
    }
    var key := uid.value;
    var existing := FindFirst(db.studentProfiles, ForUser(key));
    if existing.Some? {
      return Success(existing.value);
    }
    var p := StudentProfile(db.nextId, key, EmptyProfileFields());
    ghost var before := db.studentProfiles;
    db.studentProfiles := db.studentProfiles + [p];
    db.nextId := db.nextId + 1;
    FirstIndexAppend(before, ForUser(key), p);
    return Success(p);
  }

  // ---- updateStudentProfile ----

  /** The request body: each field is either supplied or absent. */
  datatype ProfileUpdate = ProfileUpdate(
    collegeName: Option<string>,
    degree: Option<string>,
    branch: Option<string>,
    graduationYear: Option<int>,
    locationPreference: Option<seq<string>>,
    skills: Option<seq<string>>,
    resumeUrl: Option<string>,
    linkedInUrl: Option<string>,
    githubUrl: Option<string>,
    portfolioUrl: Option<string>,
    about: Option<string>)

  function Pick<T>(supplied: Option<T>, current: Option<T>): Option<T> {
    if supplied.Some? then supplied else current
  }

  function PickList(supplied: Option<seq<string>>, current: seq<string>): seq<string> {
    if supplied.Some? then supplied.value else current
  }

  /** `$set: data`: every supplied field takes the supplied value, every other field keeps its value. */
  function ApplyUpdate(f: ProfileFields, data: ProfileUpdate): (r: ProfileFields)
    ensures r.collegeName == (if data.collegeName.Some? then data.collegeName else f.collegeName)
    ensures r.degree == (if data.degree.Some? then data.degree else f.degree)
    ensures r.branch == (if data.branch.Some? then data.branch else f.branch)
    ensures r.graduationYear == (if data.graduationYear.Some? then data.graduationYear else f.graduationYear)
    ensures r.resumeUrl == (if data.resumeUrl.Some? then data.resumeUrl else f.resumeUrl)
    ensures r.linkedInUrl == (if data.linkedInUrl.Some? then data.linkedInUrl else f.linkedInUrl)
    ensures r.githubUrl == (if data.githubUrl.Some? then data.githubUrl else f.githubUrl)
    ensures r.portfolioUrl == (if data.portfolioUrl.Some? then data.portfolioUrl else f.portfolioUrl)
    ensures r.about == (if data.about.Some? then data.about else f.about)
    ensures r.locationPreference == (if data.locationPreference.Some? then data.locationPreference.value else f.locationPreference)
    ensures r.skills == (if data.skills.Some? then data.skills.value else f.skills)
  {
    ProfileFields(
      Pick(data.collegeName, f.collegeName),
      Pick(data.degree, f.degree),
      Pick(data.branch, f.branch),
      Pick(data.graduationYear, f.graduationYear),
      PickList(data.locationPreference, f.locationPreference),
      PickList(data.skills, f.skills),
      Pick(data.resumeUrl, f.resumeUrl),
      Pick(data.linkedInUrl, f.linkedInUrl),
      Pick(data.githubUrl, f.githubUrl),
      Pick(data.portfolioUrl, f.portfolioUrl),
      Pick(data.about, f.about))
  }

  /** Sending `a` and then `b` is sending one body holding `b`'s fields and `a`'s other fields. */
  function Merge(a: ProfileUpdate, b: ProfileUpdate): ProfileUpdate {
    ProfileUpdate(
      Pick(b.collegeName, a.collegeName), Pick(b.degree, a.degree), Pick(b.branch, a.branch),
      Pick(b.graduationYear, a.graduationYear), Pick(b.locationPreference, a.locationPreference),
      Pick(b.skills, a.skills), Pick(b.resumeUrl, a.resumeUrl), Pick(b.linkedInUrl, a.linkedInUrl),
      Pick(b.githubUrl, a.githubUrl), Pick(b.portfolioUrl, a.portfolioUrl), Pick(b.about, a.about))
  }

  function NoChange(): ProfileUpdate {
    ProfileUpdate(None, None, None, None, None, None, None, None, None, None, None)
  }

  /** The profile table after `findOneAndUpdate({ userId }, { $set: data }, { upsert: true })`. */
  function Upserted(profiles: seq<StudentProfile>, userId: Id, nextId: Id, data: ProfileUpdate): (r: seq<StudentProfile>)
    ensures HasProfile(r, userId)
  {
    var k := FirstIndex(profiles, ForUser(userId));
    if k != -1 then
      var r := profiles[k := profiles[k].(fields := ApplyUpdate(profiles[k].fields, data))];
      assert r[k].userId == userId;
      r
    else
      var r := profiles + [StudentProfile(nextId, userId, ApplyUpdate(EmptyProfileFields(), data))];
      assert r[|profiles|].userId == userId;
      r
  }

  /** `updateStudentProfile(userId, data)`: the profile after the update, created when absent. */
  method UpdateStudentProfile(db: Db, userId: string, data: ProfileUpdate) returns (r: Result<StudentProfile>)
    modifies db`studentProfiles, db`nextId
    ensures !IsValidObjectId(userId) ==>
      r == Failure(ObjectIdFormatMessage) && db.studentProfiles == old(db.studentProfiles) && db.nextId == old(db.nextId)
    ensures IsValidObjectId(userId) ==>
      var key := ParseObjectId(userId).value;
      && db.studentProfiles == Upserted(old(db.studentProfiles), key, old(db.nextId), data)
      && db.nextId == (if HasProfile(old(db.studentProfiles), key) then old(db.nextId) else old(db.nextId) + 1)
      && r == Success(FindFirst(db.studentProfiles, ForUser(key)).value)
    ensures IsValidObjectId(userId) ==>
      var key := ParseObjectId(userId).value;
      var existing := FindFirst(old(db.studentProfiles), ForUser(key));
      && r.Success? && r.value.userId == key && r.value in db.studentProfiles
      && (existing.Some? ==> r.value == existing.value.(fields := ApplyUpdate(existing.value.fields, data)))
      && (existing.None? ==> r.value == StudentProfile(old(db.nextId), key, ApplyUpdate(EmptyProfileFields(), data)))
  {
    var uid := ParseObjectId(userId);
    if uid.None? {
      return Failure(ObjectIdFormatMessage);
    }
    var key := uid.value;
    var k := FirstIndex(db.studentProfiles, ForUser(key));
    ghost var before := db.studentProfiles;
    if k != -1 {
      var updated := db.studentProfiles[k].(fields := ApplyUpdate(db.studentProfiles[k].fields, data));
      db.studentProfiles := db.studentProfiles[k := updated];
      FirstIndexUpdate(before, ForUser(key), k, updated);
      return Success(updated);
    }
    var p := StudentProfile(db.nextId, key, ApplyUpdate(EmptyProfileFields(), data));
    db.studentProfiles := db.studentProfiles + [p];
    db.nextId := db.nextId + 1;
    FirstIndexAppend(before, ForUser(key), p);
    return Success(p);
  }

  // ---- properties ----

  /** A second get-or-create changes nothing: repeated calls leave one profile for the user. */
  lemma GetOrCreateIdempotent(profiles: seq<StudentProfile>, userId: Id, nextId: Id, nextId': Id)
    ensures var once := WithProfile(profiles, userId, nextId);
            WithProfile(once, userId, nextId') == once
  {
  }

  /** Get-or-create keeps the unique index satisfied. */
  lemma GetOrCreateKeepsOnePerUser(profiles: seq<StudentProfile>, userId: Id, nextId: Id)
    requires OnePerUser(profiles)
    ensures OnePerUser(WithProfile(profiles, userId, nextId))
  {
  }

  /** The upsert keeps the unique index satisfied, and touches no other user's profile. */
  lemma UpsertKeepsOnePerUser(profiles: seq<StudentProfile>, userId: Id, nextId: Id, data: ProfileUpdate)
    requires OnePerUser(profiles)
    ensures var r := Upserted(profiles, userId, nextId, data);
            && OnePerUser(r)
            && (forall k :: 0 <= k < |profiles| && profiles[k].userId != userId ==> r[k] == profiles[k])
  {
  }

  /** An update changes only the supplied fields: with nothing supplied the profile stays as it was. */
  lemma EmptyUpdateChangesNothing(f: ProfileFields)
    ensures ApplyUpdate(f, NoChange()) == f
  {
  }

  /** Sending the same body twice is sending it once. */
  lemma UpdateIdempotent(f: ProfileFields, data: ProfileUpdate)
    ensures ApplyUpdate(ApplyUpdate(f, data), data) == ApplyUpdate(f, data)
  {
  }

  /** Two updates in a row are one update with the later values winning. */
  lemma UpdatesCompose(f: ProfileFields, a: ProfileUpdate, b: ProfileUpdate)
    ensures ApplyUpdate(ApplyUpdate(f, a), b) == ApplyUpdate(f, Merge(a, b))
  {
  }

  /** Upserting into a table without the user's profile creates exactly the profile get-or-create would, with the body applied. */
  lemma UpsertOnMissing(profiles: seq<StudentProfile>, userId: Id, nextId: Id, data: ProfileUpdate)
    requires !HasProfile(profiles, userId)
    ensures Upserted(profiles, userId, nextId, data)
         == profiles + [StudentProfile(nextId, userId, ApplyUpdate(EmptyProfileFields(), data))]
    ensures Upserted(profiles, userId, nextId, NoChange()) == WithProfile(profiles, userId, nextId)
  {
  }

  /** Upserting for a user who has a profile rewrites that profile's fields in place and leaves every other row as it was. */
  lemma UpsertOnExisting(profiles: seq<StudentProfile>, userId: Id, nextId: Id, data: ProfileUpdate, k: nat)
    requires OnePerUser(profiles) && k < |profiles| && profiles[k].userId == userId
    ensures Upserted(profiles, userId, nextId, data)
         == profiles[k := profiles[k].(fields := ApplyUpdate(profiles[k].fields, data))]
    ensures Upserted(profiles, userId, nextId, NoChange()) == profiles
  {
    var j := FirstIndex(profiles, ForUser(userId));
    assert ForUser(userId)(profiles[k]);
    assert j == k;
    EmptyUpdateChangesNothing(profiles[k].fields);
  }
}
