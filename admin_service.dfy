/**
 * `admin.service.ts`: the admin dashboard. Six collection counts, a filtered and paged
 * user list, a status switch on one user, a paged list of company users joined with
 * their company profiles, and the verified flag on one company profile.
 */
module AdminService {
  import opened Wrappers
  import opened Queries
  import opened ObjectIds
  import opened Records
  import opened Database
  import opened Paging

  const DefaultPage: int := 1
  const DefaultLimit: int := 20
  const InvalidUserIdMessage: string := "Invalid user id"
  const UserNotFoundMessage: string := "User not found"
  const CompanyProfileNotFoundMessage: string := "Company profile not found"
  /** The role the company queries ask for; the user schema's role enum has no such value. */
  const CompanyRole: string := "company"

  /** `{ role: name }` on the user collection: the stored role's name equals the queried string. */
  function RoleIs(name: string): User -> bool {
    (u: User) => RoleName(u.role) == name
  }

  function OpenInternship(): Internship -> bool {
    (i: Internship) => i.status == Open
  }

  // ---- getDashboardSummary ----

  datatype DashboardSummary = DashboardSummary(
    totalUsers: nat,
    totalStudents: nat,
    totalCompanies: nat,
    totalInternships: nat,
    totalApplications: nat,
    openInternships: nat)

  /** `getDashboardSummary()`: six `countDocuments` calls. */
  function GetDashboardSummary(users: seq<User>, internships: seq<Internship>, applications: seq<Application>): (r: DashboardSummary)
    ensures r.totalUsers == |users| && r.totalInternships == |internships| && r.totalApplications == |applications|
    ensures r.totalStudents <= r.totalUsers && r.openInternships <= r.totalInternships
  {
    DashboardSummary(
      |users|,
      |Filter(users, RoleIs(RoleName(Student)))|,
      |Filter(users, RoleIs(CompanyRole))|,
      |internships|,
      |applications|,
      |Filter(internships, OpenInternship())|)
  }

  /** No stored user has the role "company", so the filter finds no one. */
  lemma NoCompanyUsers(users: seq<User>)
    ensures Filter(users, RoleIs(CompanyRole)) == []
  {
  }

  /** Every summary reports zero companies, and counts each student and each open internship once. */
  lemma SummaryCounts(users: seq<User>, internships: seq<Internship>, applications: seq<Application>)
    ensures var r := GetDashboardSummary(users, internships, applications);
            && r.totalCompanies == 0
            && r.totalStudents == |Filter(users, (u: User) => u.role == Student)|
            && r.openInternships == |Filter(internships, (i: Internship) => i.status == Open)|
  {
    NoCompanyUsers(users);
    FilterSame(users, RoleIs(RoleName(Student)), (u: User) => u.role == Student);
    FilterSame(internships, OpenInternship(), (i: Internship) => i.status == Open);
  }

  /** Two predicates that agree on every element filter alike. */
  lemma {:induction false} FilterSame<T>(s: seq<T>, p: T -> bool, q: T -> bool)
    requires forall x :: p(x) == q(x)
    ensures Filter(s, p) == Filter(s, q)
  {
    if s != [] {
      FilterSame(s[1..], p, q);
    }
  }

  // ---- listUsers ----

  /** The user query: a role and a status condition, each only when given (non-empty). */
  datatype UserQuery = UserQuery(role: Option<string>, status: Option<string>)

  function BuildUserQuery(role: Option<string>, status: Option<string>): UserQuery {
    UserQuery(Truthy(role), Truthy(status))
  }

  predicate MatchesUser(q: UserQuery, u: User) {
    && (q.role.Some? ==> RoleName(u.role) == q.role.value)
    && (q.status.Some? ==> UserStatusName(u.status) == q.status.value)
  }

  function UserMatcher(q: UserQuery): User -> bool {
    (u: User) => MatchesUser(q, u)
  }

  function CreatedAt(u: User): int {
    u.createdAt
  }

  /** `User.find(query).sort({ createdAt: -1 })`. */
  function MatchingUsers(users: seq<User>, q: UserQuery): seq<User> {
    SortDesc(Filter(users, UserMatcher(q)), CreatedAt)
  }

  /** `{ items, total, page, limit, totalPages }`. */
  datatype Page<T> = Page(items: seq<T>, total: nat, page: int, limit: int, totalPages: JsNumber)

  /** `listUsers(role, status, page = 1, limit = 20)`. */
  function ListUsers(users: seq<User>, role: Option<string>, status: Option<string>, page: Option<int>, limit: Option<int>): Result<Page<User>> {
    var p := page.GetOr(DefaultPage);
    var l := limit.GetOr(DefaultLimit);
    var all := MatchingUsers(users, BuildUserQuery(role, status));
    match Window(all, Skip(p, l), l)
    case Failure(e) => Failure(e)
    case Success(items) => Success(Page(items, |all|, p, l, TotalPages(|all|, l)))
  }

  /** A condition is added only for a given role or status: with neither, the query matches every user. */
  lemma UserQueryOnlyWhenGiven(role: Option<string>, status: Option<string>, u: User)
    ensures MatchesUser(BuildUserQuery(role, status), u) <==>
              (Given(role) ==> RoleName(u.role) == role.value) && (Given(status) ==> UserStatusName(u.status) == status.value)
  {
  }

  /**
   * A page holds users of the table matching the given filters, newest first, at most
   * `limit` of them (when positive), from offset (page - 1) * limit of the full list;
   * `total` counts every match and `totalPages` is ceil(total / limit).
   */
  lemma ListUsersProperties(users: seq<User>, role: Option<string>, status: Option<string>, page: Option<int>, limit: Option<int>)
    requires ListUsers(users, role, status, page, limit).Success?
    ensures var r := ListUsers(users, role, status, page, limit).value;
            var q := BuildUserQuery(role, status);
            var all := MatchingUsers(users, q);
            var skip := Skip(page.GetOr(DefaultPage), limit.GetOr(DefaultLimit));
            && (forall u :: u in all <==> u in users && MatchesUser(q, u))
            && (forall k :: 0 <= k < |r.items| ==> r.items[k] in users && MatchesUser(q, r.items[k]))
            && SortedDesc(r.items, CreatedAt)
            && (r.limit > 0 ==> |r.items| <= r.limit)
            && (skip < |all| ==> IsPrefix(r.items, all[skip..]))
            && (skip >= |all| ==> r.items == [])
            && r.total == |Filter(users, UserMatcher(q))|
            && r.totalPages == TotalPages(r.total, r.limit)
  {
    var r := ListUsers(users, role, status, page, limit).value;
    var q := BuildUserQuery(role, status);
    var all := MatchingUsers(users, q);
    var skip := Skip(page.GetOr(DefaultPage), limit.GetOr(DefaultLimit));
    FilterMembers(users, UserMatcher(q));
    SortDescMembers(Filter(users, UserMatcher(q)), CreatedAt);
    SortedWindow(all, CreatedAt, skip, limit.GetOr(DefaultLimit));
  }

  /**
   * The page is exactly the slice of the matching users, newest first, that starts at
   * (page - 1) * limit and holds the limit's worth of them, or all that remain when fewer do.
   */
  lemma ListUsersPage(users: seq<User>, role: Option<string>, status: Option<string>, page: Option<int>, limit: Option<int>)
    requires ListUsers(users, role, status, page, limit).Success?
    ensures var r := ListUsers(users, role, status, page, limit).value;
            var all := MatchingUsers(users, BuildUserQuery(role, status));
            var skip := Skip(page.GetOr(DefaultPage), limit.GetOr(DefaultLimit));
            && (skip < |all| ==> r.items == all[skip..skip + PageSize(|all| - skip, limit.GetOr(DefaultLimit))])
            && (skip >= |all| ==> r.items == [])
  {
    var all := MatchingUsers(users, BuildUserQuery(role, status));
    var skip := Skip(page.GetOr(DefaultPage), limit.GetOr(DefaultLimit));
    if skip < |all| {
      WindowIsSlice(all, skip, limit.GetOr(DefaultLimit));
    }
  }

  // ---- updateUserStatus ----

  function UserWithId(key: Id): User -> bool {
    (u: User) => u.id == key
  }

  /** Which user `findByIdAndUpdate` changes: the one stored with that id, after the id check. */
  function UserTarget(users: seq<User>, userId: string): (r: Result<nat>)
    ensures !IsValidObjectId(userId) ==> r == Failure(InvalidUserIdMessage)
    ensures IsValidObjectId(userId) && (forall k :: 0 <= k < |users| ==> users[k].id != ParseObjectId(userId).value) ==>
              r == Failure(UserNotFoundMessage)
    ensures r.Success? ==> r.value < |users| && users[r.value].id == ParseObjectId(userId).value
  {
    match ParseObjectId(userId)
    case None => Failure(InvalidUserIdMessage)
    case Some(key) =>
      var k := FirstIndex(users, UserWithId(key));
      if k == -1 then Failure(UserNotFoundMessage) else Success(k)
  }

  /** `updateUserStatus(userId, status)`: the updated user. */
  method UpdateUserStatus(db: Db, userId: string, status: UserStatus) returns (r: Result<User>)
    modifies db`users
    ensures UserTarget(old(db.users), userId).Failure? ==>
      r == Failure(UserTarget(old(db.users), userId).error) && db.users == old(db.users)
    ensures UserTarget(old(db.users), userId).Success? ==>
      var k := UserTarget(old(db.users), userId).value;
      && db.users == old(db.users)[k := old(db.users)[k].(status := status)]
      && r == Success(db.users[k])
  {
    var target := UserTarget(db.users, userId);
    if target.Failure? {
      return Failure(target.error);
    }
    var k := target.value;
    db.users := db.users[k := db.users[k].(status := status)];
    return Success(db.users[k]);
  }

  /** A status update changes the status of the one user with that id, and nothing else in the table. */
  lemma StatusUpdateOnlyTarget(users: seq<User>, userId: string, status: UserStatus)
    requires UserTarget(users, userId).Success?
    ensures var k := UserTarget(users, userId).value;
            var after := users[k := users[k].(status := status)];
            && after[k].status == status && after[k].id == ParseObjectId(userId).value
            && after[k] == users[k].(status := status)
            && (forall j :: 0 <= j < |users| && j != k ==> after[j] == users[j])
  {
  }

  // ---- listCompaniesWithProfiles ----

  /** `{ user, profile }`: a company user and its profile, or null. */
  datatype CompanyItem = CompanyItem(user: User, profile: Option<CompanyProfile>)

  /** `new Map(profiles.map(p => [p.userId, p])).get(id)`: a later profile for the same user wins. */
  function ProfileOf(profiles: seq<CompanyProfile>, userId: Id): (r: Option<CompanyProfile>)
    ensures r.None? <==> forall k :: 0 <= k < |profiles| ==> profiles[k].userId != userId
    ensures r.Some? ==> r.value in profiles && r.value.userId == userId
  {
    if profiles == [] then None
    else
      var last := profiles[|profiles| - 1];
      if last.userId == userId then Some(last)
      else
        var r := ProfileOf(profiles[..|profiles| - 1], userId);
        assert forall k :: 0 <= k < |profiles| - 1 ==> profiles[..|profiles| - 1][k] == profiles[k];
        r
  }

  /** `users.map(user => ({ user, profile: profileMap.get(user._id) || null }))`. */
  function AttachProfiles(users: seq<User>, profiles: seq<CompanyProfile>): (r: seq<CompanyItem>)
    ensures |r| == |users|
    ensures forall k :: 0 <= k < |r| ==> r[k] == CompanyItem(users[k], ProfileOf(profiles, users[k].id))
  {
    seq(|users|, k requires 0 <= k < |users| => CompanyItem(users[k], ProfileOf(profiles, users[k].id)))
  }

  /** `listCompaniesWithProfiles(page = 1, limit = 20)`: one page of company users, each with its profile. */
  function ListCompaniesWithProfiles(users: seq<User>, profiles: seq<CompanyProfile>, page: Option<int>, limit: Option<int>): Result<Page<CompanyItem>> {
    var p := page.GetOr(DefaultPage);
    var l := limit.GetOr(DefaultLimit);
    var all := SortDesc(Filter(users, RoleIs(CompanyRole)), CreatedAt);
    match Window(all, Skip(p, l), l)
    case Failure(e) => Failure(e)
    case Success(pageUsers) => Success(Page(AttachProfiles(pageUsers, profiles), |all|, p, l, TotalPages(|all|, l)))
  }

  /**
   * Each item pairs a user with that user's profile, or with null when there is none; and
   * since no stored user has the role "company", every page is empty with a total of 0.
   */
  lemma CompanyListProperties(users: seq<User>, profiles: seq<CompanyProfile>, page: Option<int>, limit: Option<int>)
    requires ListCompaniesWithProfiles(users, profiles, page, limit).Success?
    ensures var r := ListCompaniesWithProfiles(users, profiles, page, limit).value;
            && (forall k :: 0 <= k < |r.items| ==>
                  && (r.items[k].profile.Some? ==> r.items[k].profile.value in profiles && r.items[k].profile.value.userId == r.items[k].user.id)
                  && (r.items[k].profile.None? ==> forall j :: 0 <= j < |profiles| ==> profiles[j].userId != r.items[k].user.id))
            && r.items == [] && r.total == 0
            && r.totalPages == (if limit.GetOr(DefaultLimit) == 0 then NaN else Finite(0))
  {
    NoCompanyUsers(users);
  }

  /** The list fails, as MongoDB does, exactly when the computed offset is negative. */
  lemma CompanyListFailsOnNegativeSkip(users: seq<User>, profiles: seq<CompanyProfile>, page: Option<int>, limit: Option<int>)
    ensures ListCompaniesWithProfiles(users, profiles, page, limit).Failure? <==> Skip(page.GetOr(DefaultPage), limit.GetOr(DefaultLimit)) < 0
  {
  }

  // ---- verifyCompany ----

  function ProfileForUser(key: Id): CompanyProfile -> bool {
    (p: CompanyProfile) => p.userId == key
  }

  /** Which profile `findOneAndUpdate({ userId })` changes: the first one of that user, after the id check. */
  function ProfileTarget(profiles: seq<CompanyProfile>, userId: string): (r: Result<nat>)
    ensures !IsValidObjectId(userId) ==> r == Failure(InvalidUserIdMessage)
    ensures IsValidObjectId(userId) && (forall k :: 0 <= k < |profiles| ==> profiles[k].userId != ParseObjectId(userId).value) ==>
              r == Failure(CompanyProfileNotFoundMessage)
    ensures r.Success? ==> r.value < |profiles| && profiles[r.value].userId == ParseObjectId(userId).value
  {
    match ParseObjectId(userId)
    case None => Failure(InvalidUserIdMessage)
    case Some(key) =>
      var k := FirstIndex(profiles, ProfileForUser(key));
      if k == -1 then Failure(CompanyProfileNotFoundMessage) else Success(k)
  }

  /** `verifyCompany(userId, isVerified)`: the updated profile. */
  method VerifyCompany(db: Db, userId: string, isVerified: bool) returns (r: Result<CompanyProfile>)
    modifies db`companyProfiles
    ensures ProfileTarget(old(db.companyProfiles), userId).Failure? ==>
      r == Failure(ProfileTarget(old(db.companyProfiles), userId).error) && db.companyProfiles == old(db.companyProfiles)
    ensures ProfileTarget(old(db.companyProfiles), userId).Success? ==>
      var k := ProfileTarget(old(db.companyProfiles), userId).value;
      && db.companyProfiles == old(db.companyProfiles)[k := old(db.companyProfiles)[k].(isVerified := isVerified)]
      && r == Success(db.companyProfiles[k])
  {
    var target := ProfileTarget(db.companyProfiles, userId);
    if target.Failure? {
      return Failure(target.error);
    }
    var k := target.value;
    db.companyProfiles := db.companyProfiles[k := db.companyProfiles[k].(isVerified := isVerified)];
    return Success(db.companyProfiles[k]);
  }

  /** Verifying sets the flag on that user's profile only; every other profile and field is unchanged, and a second call changes nothing more. */
  lemma VerifyOnlyTarget(profiles: seq<CompanyProfile>, userId: string, isVerified: bool)
    requires ProfileTarget(profiles, userId).Success?
    ensures var k := ProfileTarget(profiles, userId).value;
            var after := profiles[k := profiles[k].(isVerified := isVerified)];
            && after[k] == profiles[k].(isVerified := isVerified)
            && (forall j :: 0 <= j < |profiles| && j != k ==> after[j] == profiles[j])
            && ProfileTarget(after, userId) == Success(k)
  {
    var k := ProfileTarget(profiles, userId).value;
    var key := ParseObjectId(userId).value;
    FirstIndexUpdate(profiles, ProfileForUser(key), k, profiles[k].(isVerified := isVerified));
  }
}
