# NextStep, modelled in Dafny

NextStep is an internship platform. Students search and apply to internships, companies
post them and review applications, and an admin console manages users, company
verification and external listing sources. This project models the platform's backend
services and three frontend helpers, and proves what they promise.

The centre of the model is the ingestion of external listings:

- `HtmlScraper` (`scrapeSourceHtml`): selector checks, the target URL, per-item
  extraction with its skips and defaults, link resolution and the description text.
- `ApiJobProvider` (`fetchJobsFromApiProvider`): the endpoint check, the bearer header
  from the environment, and the mapping of the `jobs` array.
- `AggregatedInternshipService` (`getAggregatedInternships`): internal rows and the
  live listings of every enabled source merged in a fixed order, then filtered on title
  and location.
- `ScrapingJob` (`runScrapeJob`): the job state machine `queued → running →
  completed | failed`, its append-only log, the bulk insert and `lastRunAt`.
- `ScrapingService` and `ScrapingValidators`: the source registry, job and log queries,
  `triggerScrapeNow`, `livePreviewScrape` and the request schemas.

Around it sit the table services (internships, applications, bookmarks, notifications,
auth, the auth middleware, admin, student profiles), the chatbot's intent classifier and
filter extractor, every Joi request schema, and three frontend pieces: the admin page's
`key=value` selector parser and create payload, the Internships page's mock search,
labels and apply flow, and the 200 generated mock listings.

How the model is built:

- The MongoDB database is one class, `Database.Db`. It has one `seq` field per
  collection, in insertion order, and a counter that new ObjectIds are drawn from.
  Each service method changes only the tables its `modifies` clause names. Its
  `ensures` ties the new tables to a pure function of the old ones, and lemmas prove the
  service's promises about that function.
- ObjectIds are natural numbers. A string id is valid when it is 24 hexadecimal digits.
- Timestamps are a `now` parameter. One call of a service uses one instant.
- Code that works with outside systems is a parameter of the model: the web page or
  HTTP response, bcrypt, JWT signing and verification, and `process.env`.
- Joi schemas are values interpreted over parsed JSON bodies (`Joi.Validate`).
- `toLowerCase` and `trim` work on ASCII letters and JavaScript white space. JavaScript
  truthiness of an optional string is `Wrappers.Given`: present and non-empty.

## Behaviour of the code worth knowing

- One failing external source rejects the whole aggregation. `Promise.all` is used
  without per-source isolation.
- The job runner and the live preview always call the HTML scraper, even for API
  sources. An API source without `item` and `title` selectors therefore always fails.
- The source validators never require the `item`/`title` selectors or an API
  `endpoint`.
- The aggregator's final filter matches `q` against the title only. Internal rows that
  the database query matched on their description alone are dropped.
- The admin dashboard counts companies, and lists company users, by role `"company"`.
  The user schema's role enumeration has only `student` and `admin`. So the company
  count is always 0 and every page of the company list is empty
  (`AdminService.NoCompanyUsers`).

## Model

| member | source | states |
|---|---|---|
| Paging.Window | backend/src/services/internship.service.ts:42-48 | `.skip(skip).limit(limit)`: fails exactly for a negative skip; past the end it is empty; otherwise a prefix of the rest from `skip` whose length is `PageSize`: the whole rest for limit 0, else at most `|limit|`, and the whole rest when no limit cuts it |
| Paging.PageSize | backend/src/services/internship.service.ts:42-48 | the length of a page: all remaining documents for limit 0, otherwise the smaller of the remainder and `|limit|` |
| Paging.WindowIsSlice | backend/src/services/internship.service.ts:42-48 | a successful window is exactly the slice from `skip` of length `PageSize` |
| Paging.TotalPages | backend/src/services/internship.service.ts:57 | `Math.ceil(total / limit)`: NaN or Infinity for limit 0; for a positive limit the least `n` with `total <= n * limit`; for a negative limit the `n` with `n * limit <= total < (n - 1) * limit`; zero exactly when `total` is zero |
| Paging.PagesCoverTotal | backend/src/services/internship.service.ts:42-57 | any page beyond `totalPages` starts at an offset past the last document |
| InternshipService.BuildQueryMeaning | backend/src/services/internship.service.ts:23-40 | the Mongo filter built from the query string holds exactly for open internships passing each truthy filter (`q` on title or description, `location`, `mode`, `type`) |
| InternshipService.MatchingContents | backend/src/services/internship.service.ts:44-46 | `find(query).sort({ postedAt: -1 })` holds exactly the matching internships, as many as match, newest first |
| InternshipService.ListInternshipsItems | backend/src/services/internship.service.ts:42-48 | a page holds only matching internships of the table, newest first, at most `limit` of them, taken in order from offset `(page - 1) * limit` |
| InternshipService.ListInternshipsPage | backend/src/services/internship.service.ts:42-48 | the page's items are exactly the matching internships, newest first, from offset `(page - 1) * limit` for `PageSize` documents, and none past the end |
| InternshipService.ListInternshipsCounts | backend/src/services/internship.service.ts:49-58 | `total` counts all matching internships, `page`/`limit` are echoed with their defaults 1 and 10, `totalPages` is `ceil(total / limit)` |
| InternshipService.NegativeOffsetFails | backend/src/services/internship.service.ts:42-48 | the query fails exactly when `(page - 1) * limit` is negative |
| InternshipService.TotalIndependentOfPage | backend/src/services/internship.service.ts:42-57 | `total` and `totalPages` do not depend on the page asked for |
| InternshipService.GetInternshipById | backend/src/services/internship.service.ts:61-64 | null for a malformed id; otherwise the stored internship with that id, found whenever one exists |
| Joi.Validate | backend/src/validators/scraping.validators.ts:9-20 | `schema.validate(body)` succeeds exactly for an object body every key rule accepts, and then yields the body with defaults filled in |
| Joi.WithDefaults | backend/src/validators/scraping.validators.ts:18 | the validated value keeps every supplied key and adds each absent defaulted key with its default, and nothing else |
| Joi.MakeOptional | backend/src/validators/scraping.validators.ts:22-25 | `fork(names, s => s.optional())` keeps every key and rule and clears `required` exactly on the named keys |
| Joi.MakeOptionalWidens | backend/src/validators/scraping.validators.ts:22-25 | a forked schema accepts everything the original accepts, with the same defaults |
| Joi.EmptyBodyAccepted | backend/src/validators/student.validators.ts:3-15 | a schema whose keys are all optional accepts `{}` |
| AdminValidators.UserStatusBodyRules | backend/src/validators/admin.validators.ts:3-5 | a user-status body is valid iff it is exactly `{ status }` with "active" or "suspended" |
| AdminValidators.VerifyCompanyBodyRules | backend/src/validators/admin.validators.ts:7-9 | a verify-company body is valid iff it is exactly `{ isVerified }` with a boolean |
| ApplicationValidators.ApplyBodyRules | backend/src/validators/application.validators.ts:3-6 | a valid apply body has a URI `resumeUrl` and a `coverLetter` of 1..2000 characters when present; `{}` is valid |
| ApplicationValidators.StatusBodyRules | backend/src/validators/application.validators.ts:8-12 | a status body is valid iff it is exactly `{ status }` with applied, shortlisted, rejected or hired |
| ChatValidators.ChatBodyRules | backend/src/validators/chat.validators.ts:3-6 | a chat body is valid iff it has a message of 1..1000 characters, optionally a non-empty `sessionId` string, and no other key |
| CompanyValidators.CompanyTextRules | backend/src/validators/company.validators.ts:3-10 | a valid company body keeps name, description, size and location within 200, 2000, 100 and 200 characters |
| CompanyValidators.EmptyCompanyBodyValid | backend/src/validators/company.validators.ts:3-10 | every key is optional: `{}` is valid |
| CompanyValidators.CompanyLinkRules | backend/src/validators/company.validators.ts:5-6 | a valid company body's `logoUrl` and `website` are URIs when present |
| InternshipValidators.CreateInternshipRequired | backend/src/validators/internship.validators.ts:3-19 | a valid create body has title 3..200, description of at least 10, location 1..200 characters, mode among remote/onsite/hybrid, type internship/fulltime |
| InternshipValidators.PayRules | backend/src/validators/internship.validators.ts:8-9 | in both schemas stipend and salary are numbers from 0 to `Number.MAX_SAFE_INTEGER` when present (`number()` refuses unsafe values) |
| InternshipValidators.DurationAndStatusRules | backend/src/validators/internship.validators.ts:14-18 | in both schemas `durationInMonths` is a whole number from 0 to `Number.MAX_SAFE_INTEGER` and `status` is open, closed or draft when present |
| InternshipValidators.CurrencyAndUrlRules | backend/src/validators/internship.validators.ts:10-16 | in both schemas the currency has at most 10 characters and `externalApplyUrl` is a URI when present |
| InternshipValidators.UpdateInternshipIsFork | backend/src/validators/internship.validators.ts:21-30 | the update schema has the create schema's keys and rules, with exactly the five forked keys optional, and accepts every valid create body |
| InternshipValidators.StatusBodyRules | backend/src/validators/internship.validators.ts:32-34 | a status body is valid iff it is exactly `{ status }` with open, closed or draft |
| ScrapingValidators.CreateRequiresNameAndBaseUrl | backend/src/validators/scraping.validators.ts:10-11 | a valid create body has a name of 2..100 characters and a URI base URL |
| ScrapingValidators.FrequencyRule | backend/src/validators/scraping.validators.ts:17 | in both schemas `frequencyMinutes` is a whole number from 5 to `Number.MAX_SAFE_INTEGER` when present |
| ScrapingValidators.SelectorsRule | backend/src/validators/scraping.validators.ts:13-15 | in both schemas `selectors` is an object whose values are non-empty strings |
| ScrapingValidators.ProviderTypeRule | backend/src/validators/scraping.validators.ts:18 | the validated `providerType` is "html" or "api", and "html" when the body leaves it out |
| ScrapingValidators.ApiConfigRules | backend/src/validators/scraping.validators.ts:3-7 | a present `apiConfig` is an object with a URI endpoint, a string key variable and an object of extra parameters, each optional |
| ScrapingValidators.UpdateWidensCreate | backend/src/validators/scraping.validators.ts:22-25 | the update schema accepts every valid create body, and also `{}` |
| ScrapingValidators.ApiSourceWithoutEndpointAccepted | backend/src/validators/scraping.validators.ts:3-19 | an `api` source without any `apiConfig` passes the create schema |
| ScrapingValidators.HtmlSourceWithoutSelectorsAccepted | backend/src/validators/scraping.validators.ts:13-15 | a source with an empty selector map (no `item`, no `title`) passes the create schema |
| StudentValidators.GraduationYearRule | backend/src/validators/student.validators.ts:7 | a valid profile body's graduation year is a whole number in [2000, 2100] |
| StudentValidators.ProfileTextRules | backend/src/validators/student.validators.ts:4-14 | a valid profile body keeps college (200), degree and branch (100) and about (1000) within their limits |
| StudentValidators.ProfileLinkRules | backend/src/validators/student.validators.ts:10-13 | a valid profile body's four links are URIs when present |
| StudentValidators.ProfileListRules | backend/src/validators/student.validators.ts:8-9 | a valid profile body's location preferences and skills are lists of strings |
| StudentValidators.EmptyProfileBodyValid | backend/src/validators/student.validators.ts:3-15 | every key is optional: `{}` is valid |
| BookmarkService.AddTarget | backend/src/services/bookmark.service.ts:9-16 | a malformed internship id fails with "Invalid internship id", an unknown one with "Internship not found"; otherwise the stored internship with that id |
| BookmarkService.Added | backend/src/services/bookmark.service.ts:18-25 | after the upsert the pair is stored; the table is unchanged when it already was, else one new bookmark is appended |
| BookmarkService.AddBookmark | backend/src/services/bookmark.service.ts:5-28 | the checks fail without writing; otherwise the table becomes `Added(...)` and the call returns the pair's stored bookmark |
| BookmarkService.Removed | backend/src/services/bookmark.service.ts:38-41 | `findOneAndDelete` on the pair: nothing changes when the pair is absent, one bookmark goes when present |
| BookmarkService.RemoveBookmark | backend/src/services/bookmark.service.ts:30-42 | a malformed id fails and changes nothing; otherwise the table becomes `Removed(...)`, whether or not the internship exists |
| BookmarkService.AddIdempotent | backend/src/services/bookmark.service.ts:18-25 | adding a pair twice is adding it once |
| BookmarkService.AddKeepsOnePerPair | backend/src/services/bookmark.service.ts:18-25 | adding keeps each (student, internship) pair stored at most once |
| BookmarkService.RemoveProperties | backend/src/services/bookmark.service.ts:38-41 | removing keeps pairs unique, leaves the pair absent, and keeps every other bookmark in order |
| BookmarkService.AddThenRemove | backend/src/services/bookmark.service.ts:18-41 | add then remove leaves the pair absent and every other pair's bookmark stored |
| BookmarkService.StudentBookmarksProperties | backend/src/services/bookmark.service.ts:44-52 | a student's list holds exactly that student's bookmarks, newest first, each paired with the internship it references, or null when that internship is gone |
| NotificationService.RequiredError | backend/src/services/notification.service.ts:11-17 | `create` fails validation exactly when type, title or body is empty |
| NotificationService.NewNotification | backend/src/services/notification.service.ts:11-17 | the stored notification is unread, owned by `userId`, and carries the given type, title, body and metadata |
| NotificationService.CreateNotification | backend/src/services/notification.service.ts:4-20 | a missing required field fails without writing; otherwise exactly the new notification is appended and returned |
| NotificationService.UserNotificationsProperties | backend/src/services/notification.service.ts:22-30 | the user's 50 newest notifications: at most 50, each the user's own and from the table, no copy beyond the table's, newest first, and every one of the user's notifications left out is no newer than each returned one; a user with at most 50 gets all of them |
| NotificationService.ReadTarget | backend/src/services/notification.service.ts:33-37 | a malformed id is a cast error; otherwise the first notification with that id owned by that user, or none exactly when there is no such one |
| NotificationService.MarkedRead | backend/src/services/notification.service.ts:33-40 | for the user's notification with that id, only its read flag changes and it becomes true; every other row is unchanged; with a malformed id or no such notification the table is unchanged |
| NotificationService.MarkNotificationRead | backend/src/services/notification.service.ts:32-42 | the table becomes `MarkedRead(...)`; the result is the cast error, null, or the updated notification, which is read, stored, has that id and belongs to that user |
| NotificationService.MarkReadOnlyOwn | backend/src/services/notification.service.ts:33-40 | only the flag of a notification with that id owned by that user can change, everything else is unchanged, and when the user owns one with that id it is read afterwards |
| NotificationService.MarkReadIdempotent | backend/src/services/notification.service.ts:32-42 | marking the same notification read twice is marking it once |
| NotificationService.AllMarkedRead | backend/src/services/notification.service.ts:45-48 | every notification of the user ends up read, and the table keeps its length |
| NotificationService.MarkAllNotificationsRead | backend/src/services/notification.service.ts:44-49 | the table becomes `AllMarkedRead(...)` |
| NotificationService.MarkAllReadScoped | backend/src/services/notification.service.ts:45-48 | after marking all read every notification of the user is read and every other user's is unchanged |
| NotificationService.MarkAllReadIdempotent | backend/src/services/notification.service.ts:45-48 | marking all read twice is marking all read once |
| ApplicationService.ApplyTarget | backend/src/services/application.service.ts:16-37 | in order: a malformed id, an unknown internship and a non-open one fail with their messages; `create` then needs a creator to copy and no earlier application of the student to it |
| ApplicationService.NewApplication | backend/src/services/application.service.ts:29-37 | the stored application is "applied", for that student and internship, with the internship's creator as company and the body's resume link and cover letter |
| ApplicationService.ApplyToInternship | backend/src/services/application.service.ts:11-40 | a failed check writes nothing; otherwise exactly the new application is appended and returned |
| ApplicationService.OwnerError | backend/src/services/application.service.ts:61-63 | the ownership check passes exactly when the internship was created by the calling company |
| ApplicationService.GetCompanyInternshipApplications | backend/src/services/application.service.ts:50-72 | a malformed id and an unknown internship fail with their messages before any ownership check |
| ApplicationService.StatusTarget | backend/src/services/application.service.ts:79-92 | a malformed id fails first; on success the position of the application with that id, whose internship exists and was created by the caller |
| ApplicationService.UpdateApplicationStatus | backend/src/services/application.service.ts:74-112 | a failed check writes nothing; otherwise only that application's status changes and one status notification is appended for its student |
| ApplicationService.ApplyKeepsOnePerPair | backend/src/services/application.service.ts:29-37 | a successful apply keeps at most one application per student and internship |
| ApplicationService.StudentApplicationsProperties | backend/src/services/application.service.ts:42-48 | a student's list holds exactly that student's applications, latest first, each paired with the internship it references, or null when that internship is gone |
| ApplicationService.CompanyApplicationsOwnerOnly | backend/src/services/application.service.ts:58-71 | a successful call is by the internship's creator and returns exactly the applications to it, latest first, each paired with the user its `studentId` references, or null when that user is gone |
| ApplicationService.OthersAreRefused | backend/src/services/application.service.ts:61-63 | anyone but the creator is refused, with "You are not the owner of this internship" when there is a creator |
| ApplicationService.StatusUpdateChangesOnlyStatus | backend/src/services/application.service.ts:94-95 | the update changes only that application's status and keeps the unique index |
| ApplicationService.StatusNotificationShape | backend/src/services/application.service.ts:98-108 | the notification goes to the application's student, unread, of type "application_status_update", with the application id and new status in its metadata |
| StudentService.WithProfile | backend/src/services/student.service.ts:9-12 | after get-or-create the user has a profile: the table is unchanged when it had one, else one empty profile is appended |
| StudentService.GetOrCreateStudentProfile | backend/src/services/student.service.ts:4-14 | a malformed user id throws the ObjectId error and writes nothing; otherwise the table becomes `WithProfile(...)` and the user's profile is returned |
| StudentService.ApplyUpdate | backend/src/services/student.service.ts:36-40 | `$set: data`: each supplied field takes the supplied value, each absent one keeps its value |
| StudentService.Upserted | backend/src/services/student.service.ts:36-40 | after the upsert the user has a profile |
| StudentService.UpdateStudentProfile | backend/src/services/student.service.ts:30-43 | a malformed user id throws and writes nothing; otherwise the table becomes `Upserted(...)` and the returned profile is the user's stored profile: the existing one with the body's fields set, or a new one with the next id and the body applied to the empty profile |
| StudentService.GetOrCreateIdempotent | backend/src/services/student.service.ts:9-12 | a second get-or-create changes nothing |
| StudentService.GetOrCreateKeepsOnePerUser | backend/src/services/student.service.ts:9-12 | get-or-create keeps at most one profile per user |
| StudentService.UpsertKeepsOnePerUser | backend/src/services/student.service.ts:36-40 | the upsert keeps at most one profile per user and touches no other user's profile |
| StudentService.EmptyUpdateChangesNothing | backend/src/services/student.service.ts:36-40 | an update supplying no field leaves the profile as it was |
| StudentService.UpdateIdempotent | backend/src/services/student.service.ts:36-40 | sending the same body twice is sending it once |
| StudentService.UpdatesCompose | backend/src/services/student.service.ts:36-40 | two updates in a row are one update in which the later values win |
| StudentService.UpsertOnMissing | backend/src/services/student.service.ts:36-40 | for a user without a profile the upsert appends the empty profile with the body applied; with an empty body it is get-or-create |
| StudentService.UpsertOnExisting | backend/src/services/student.service.ts:36-40 | when the user has a profile (one per user), the upsert rewrites only that profile's fields, as `ApplyUpdate` of the old ones; with an empty body nothing changes |
| AuthService.IssueTokens | backend/src/services/auth.service.ts:36-37 | an unset or empty access secret fails first, then the refresh secret; otherwise the access and refresh tokens sign `{ sub: id, role, type }` with their own secrets |
| AuthService.WithResult | backend/src/services/auth.service.ts:39 | `{ user, accessToken, refreshToken }`, or the token error |
| AuthService.UserRequiredError | backend/src/services/auth.service.ts:27-32 | `User.create` fails validation exactly when the trimmed name, the email or the password hash is empty |
| AuthService.NewStudent | backend/src/services/auth.service.ts:27-32 | the stored user is an active student with unverified email, trimmed name and lowercased email |
| AuthService.RegisterUser | backend/src/services/auth.service.ts:19-40 | a taken email (compared lowercased) fails and writes nothing; otherwise the user is stored first, then the profile, then the tokens are issued, and a later failure leaves the earlier writes in place |
| AuthService.LoginUser | backend/src/services/auth.service.ts:42-46 | an email no account has gives "Invalid email or password" |
| AuthService.LoginAccount | backend/src/services/auth.service.ts:43 | the account judged is a stored user with that (lowercased) email, present exactly when one exists |
| AuthService.InvalidCredentialsCases | backend/src/services/auth.service.ts:43-55 | "Invalid email or password" comes exactly for an unknown email or an active account with a wrong password |
| AuthService.NotActiveBeforePassword | backend/src/services/auth.service.ts:48-50 | a non-active account is refused with "Account is not active" whatever the password |
| AuthService.LoginSuccess | backend/src/services/auth.service.ts:42-61 | a successful login is for a stored active account whose password matched, with both secrets set and the access token signed for that account |
| AuthService.RegisterThenLogin | backend/src/services/auth.service.ts:19-61 | whoever registers can log in with the same email and password, as the stored student |
| AuthMiddleware.SplitBearer | backend/src/middleware/auth.middleware.ts:29 | a "Bearer " header splits on spaces into "Bearer" followed by the fields of the rest |
| AuthMiddleware.BearerToken | backend/src/middleware/auth.middleware.ts:29 | `split(" ")[1]` holds no space, follows "Bearer " at the head of the header, and is the whole rest when the rest has no space |
| AuthMiddleware.Authenticate | backend/src/middleware/auth.middleware.ts:21-37 | a missing, empty or non-Bearer header is refused before verification; any other failure (bad token, unset secret) is "Invalid or expired token"; success names the token's subject and role |
| AuthMiddleware.Handle | backend/src/middleware/auth.middleware.ts:16-38 | on failure answers 401 with the message and leaves `req.user` alone; on success sets `req.user` and calls `next` |
| AuthMiddleware.BearerRoundTrip | backend/src/middleware/auth.middleware.ts:23-29 | a token without spaces sent as "Bearer <token>" is exactly the token verified |
| AuthMiddleware.SignedTokenAccepted | backend/src/middleware/auth.middleware.ts:29-33 | an access token issued at login and verified back is accepted and names the user it was issued for |
| AdminService.GetDashboardSummary | backend/src/services/admin.service.ts:7-26 | the totals count the whole collections; students never exceed users and open internships never exceed internships |
| AdminService.NoCompanyUsers | backend/src/services/admin.service.ts:12 | `{ role: "company" }` matches no stored user, since the user schema's role enum has no such value |
| AdminService.SummaryCounts | backend/src/services/admin.service.ts:10-15 | the summary reports zero companies and counts each student and each open internship once |
| AdminService.UserQueryOnlyWhenGiven | backend/src/services/admin.service.ts:34-37 | the user query holds exactly when the role and the status match wherever they are given (non-empty) |
| AdminService.ListUsersProperties | backend/src/services/admin.service.ts:39-55 | a page holds matching users newest first, at most `limit`, from offset `(page - 1) * limit`, with defaults 1 and 20; `total` counts every match and `totalPages` is `ceil(total / limit)` |
| AdminService.ListUsersPage | backend/src/services/admin.service.ts:39-55 | the page's users are exactly the matching users, newest first, from offset `(page - 1) * limit` for `PageSize` documents, and none past the end |
| AdminService.UserTarget | backend/src/services/admin.service.ts:62-74 | a malformed id fails with "Invalid user id", an unknown one with "User not found"; otherwise the position of the user with that id |
| AdminService.UpdateUserStatus | backend/src/services/admin.service.ts:58-77 | a failed check writes nothing; otherwise only that user's status changes and the updated user is returned |
| AdminService.StatusUpdateOnlyTarget | backend/src/services/admin.service.ts:66-70 | the update sets the status of the one user with that id and leaves every other user unchanged |
| AdminService.ProfileOf | backend/src/services/admin.service.ts:97-103 | `profileMap.get(id) \|\| null`: a profile of that user when one exists (the later one, as `new Map` keeps the last), null exactly when there is none |
| AdminService.AttachProfiles | backend/src/services/admin.service.ts:101-104 | one item per user, in order, pairing it with its profile |
| AdminService.CompanyListProperties | backend/src/services/admin.service.ts:79-113 | each item pairs a user with its own profile or with null when it has none; and every page is empty with total 0 |
| AdminService.CompanyListFailsOnNegativeSkip | backend/src/services/admin.service.ts:80-87 | the list fails exactly when `(page - 1) * limit` is negative |
| AdminService.ProfileTarget | backend/src/services/admin.service.ts:116-128 | a malformed id fails with "Invalid user id", a user without a profile with "Company profile not found"; otherwise the position of that user's profile |
| AdminService.VerifyCompany | backend/src/services/admin.service.ts:115-131 | a failed check writes nothing; otherwise only that profile's `isVerified` changes and the updated profile is returned |
| AdminService.VerifyOnlyTarget | backend/src/services/admin.service.ts:120-124 | verifying sets the flag on that user's profile only, and a second call targets the same profile |
| ChatbotService.DetectIntent | backend/src/services/chatbot.service.ts:14-40 | on the lowercased text: internships if it mentions internship or job; else applications for its four tests; else platform for its four phrases; else fallback, each exactly under its condition |
| ChatbotService.FirstMatch | backend/src/services/chatbot.service.ts:49 | the leftmost position where `marker([a-zA-Z0-9+ ]+)` matches, none exactly when it matches nowhere |
| ChatbotService.Capture | backend/src/services/chatbot.service.ts:49-50 | `match(...)[1]` is present exactly when the pattern matches, and then holds at least one character, all from the class |
| ChatbotService.ExtractedValues | backend/src/services/chatbot.service.ts:43-61 | an extracted `q` or `location` is present exactly when the pattern matches the lowercased text; it is trimmed and holds only lowercase letters, digits, '+' and spaces |
| ChatbotService.ExtractedAtLeftmostMatch | backend/src/services/chatbot.service.ts:49-57 | the value is the trimmed greedy run after the marker at the leftmost match |
| ChatbotService.CaptureLeftmost | backend/src/services/chatbot.service.ts:49 | the first match found is the leftmost one, and the capture is the greedy run after its marker |
| ChatbotService.IntentIgnoresCase | backend/src/services/chatbot.service.ts:15 | lowercasing a message first does not change its intent |
| ChatbotService.InternshipsBeforeApplications | backend/src/services/chatbot.service.ts:17-28 | a message mentioning "job" and "my applications" asks for internships: the internship test comes first |
| ChatbotService.InternshipLines | backend/src/services/chatbot.service.ts:170-172 | one line per listed internship, numbered from 1 in list order |
| ChatbotService.InternshipReplyProperties | backend/src/services/chatbot.service.ts:142-194 | the internships reply lists at most five internships of the table that match the extracted filters, one line each between the fixed header and footer |
| ChatbotService.ApplicationTitle | backend/src/services/chatbot.service.ts:214-215 | the title of the internship an application is populated with, or "Unknown internship" when that internship is gone or its title is empty |
| ChatbotService.ApplicationLines | backend/src/services/chatbot.service.ts:213-218 | one line per shown populated application, numbered from 1 in order |
| ChatbotService.MoreNote | backend/src/services/chatbot.service.ts:223-225 | the "…and N more." note appears exactly when there are more than five applications, with N the number not shown |
| ChatbotService.ApplicationsReplyProperties | backend/src/services/chatbot.service.ts:196-236 | no applications gives the fixed reply; otherwise `data.applications` holds exactly the student's five latest applications (all when there are at most five), in order, each paired with its populated internship as `.populate("internshipId")` pairs it, and the reply shows one line per shown application then the note on the rest |
| ChatbotService.ApplicationLineFallbacks | backend/src/services/chatbot.service.ts:214-216 | an application whose internship is gone renders as "Unknown internship"; a status always renders as its own name |
| ChatbotService.SessionIndex | backend/src/services/chatbot.service.ts:100-103 | a stored session is used only for a given, well-formed id that is found, and then it is that session (whoever owns it) |
| ChatbotService.OpenChatSession | backend/src/services/chatbot.service.ts:98-108 | the session table gains one new empty session of the caller with the next id exactly when `sessionId` names no stored session, and the returned position is that of the session the turn uses |
| ChatbotService.StoreChatTurn | backend/src/services/chatbot.service.ts:98-137 | the new session table, id counter and answer are those of one chat turn for the given reply, from the old table and counter |
| ChatbotService.HandleStudentChatMessage | backend/src/services/chatbot.service.ts:92-140 | the new session table, id counter and answer are those of one chat turn whose reply is the one the message's intent selects from the stored internships and applications |
| ChatbotService.ChatTurnSession | backend/src/services/chatbot.service.ts:98-108 | a turn reuses the session its id names when found; otherwise exactly one new empty session of the caller with a fresh id is appended; every other session is untouched |
| ChatbotService.ChatTurnAppendsTwo | backend/src/services/chatbot.service.ts:110-139 | for a non-empty message the session keeps its messages and gains exactly two, the user's text then the bot's reply, and the answer is the reply carrying that session's id |
| ChatbotService.EmptyMessageStoresNothing | backend/src/services/chatbot.service.ts:110-133 | an empty message fails the save: no message is stored, though a session created for the turn stays |
| HtmlScraper.TargetUrl | backend/src/utils/htmlScraper.util.ts:16-18 | the page requested is `baseUrl + listPath` for a non-empty list path and `baseUrl` alone otherwise |
| HtmlScraper.ResolveLink | backend/src/utils/htmlScraper.util.ts:57-59 | an href starting with "http" is kept; any other is appended to the base URL with one trailing "/" removed |
| HtmlScraper.LinkOf | backend/src/utils/htmlScraper.util.ts:53-61 | a link is set exactly when a `link` selector is set and the element's href under it is non-empty |
| HtmlScraper.Describe | backend/src/utils/htmlScraper.util.ts:63-65 | the description starts with the title and ends with " - " and the location; between them stands " at " and the company name exactly when a non-empty company name is given, and nothing otherwise |
| HtmlScraper.ExtractItem | backend/src/utils/htmlScraper.util.ts:42-43 | an element is skipped exactly when its trimmed title is empty; a kept listing's title is that non-empty trimmed text |
| HtmlScraper.ExtractEach | backend/src/utils/htmlScraper.util.ts:39-74 | one outcome per matched element, in order |
| HtmlScraper.ScrapeSourceHtml | backend/src/utils/htmlScraper.util.ts:13-77 | the `.each` loop that pushes one listing per titled element returns exactly `Scrape(source, web)` |
| HtmlScraper.MissingSelectorsFailBeforeFetch | backend/src/utils/htmlScraper.util.ts:27-33 | without truthy `item` and `title` selectors the call fails with the missing-selectors error, whatever the web would answer |
| HtmlScraper.ExtractItemFields | backend/src/utils/htmlScraper.util.ts:45-73 | location is the trimmed `location` text when that selector is set (possibly empty), else "Not specified"; company is present exactly when a `company` selector is set; link and description as above |
| HtmlScraper.ExtractAllKeepsOrder | backend/src/utils/htmlScraper.util.ts:39-74 | at most one listing per element, each with a non-empty trimmed title; exactly the titled elements, in element order |
| HtmlScraper.ScrapeSuccess | backend/src/utils/htmlScraper.util.ts:27-76 | a successful scrape had both selectors, fetched the target page, and returns the listings of the elements `item` matches |
| ApiJobProvider.Headers | backend/src/utils/apiJobProvider.util.ts:24-29 | at most an `Authorization` header, present exactly when `apiKeyEnvVar` names a non-empty environment entry, and then "Bearer " + that value |
| ApiJobProvider.Request | backend/src/utils/apiJobProvider.util.ts:15-34 | a request is sent exactly when the config has a non-empty endpoint: to that endpoint, with those headers and the extra parameters (or `{}`) |
| ApiJobProvider.MapJob | backend/src/utils/apiJobProvider.util.ts:39-45 | the title is copied as is; an empty or missing description becomes "", location "Not specified", company and link absent; every non-empty field is kept as given |
| ApiJobProvider.MapJobs | backend/src/utils/apiJobProvider.util.ts:39 | `(data.jobs \|\| []).map(...)`: one listing per job, in order, none without a `jobs` array |
| ApiJobProvider.MissingEndpointFailsBeforeRequest | backend/src/utils/apiJobProvider.util.ts:16-18 | without an endpoint the call fails with "API config missing endpoint", whatever the client would answer |
| ApiJobProvider.FetchJobsSuccess | backend/src/utils/apiJobProvider.util.ts:20-47 | a successful call sent the request, got an answer, and mapped every job of it in order |
| ApiJobProvider.FetchJobsRequestFailure | backend/src/utils/apiJobProvider.util.ts:31-34 | a failed request rejects the call with the client's message |
| AggregatedInternshipService.FromInternship | backend/src/services/aggregatedInternship.service.ts:32-47 | an internal internship keeps title, description and location, has no company and no external link, comes from "nextstep-db" and keeps its id as `internalId` |
| AggregatedInternshipService.FromScraped | backend/src/services/aggregatedInternship.service.ts:64-71 | a scraped listing keeps its fields and its company name and link, takes the source's name, and has no `internalId` |
| AggregatedInternshipService.FromApi | backend/src/services/aggregatedInternship.service.ts:81-88 | an API listing keeps its (possibly missing) title and other fields, takes the source's name, and has no `internalId` |
| AggregatedInternshipService.MapInternal | backend/src/services/aggregatedInternship.service.ts:32 | one mapped item per internal internship, in order |
| AggregatedInternshipService.MapScraped | backend/src/services/aggregatedInternship.service.ts:64 | one mapped item per scraped listing, in order |
| AggregatedInternshipService.MapApi | backend/src/services/aggregatedInternship.service.ts:81 | one mapped item per API listing, in order |
| AggregatedInternshipService.Combine | backend/src/services/aggregatedInternship.service.ts:93-94 | joining batches keeps the first failure, else concatenates in order |
| AggregatedInternshipService.HtmlBatches | backend/src/services/aggregatedInternship.service.ts:60-74 | one batch per enabled HTML source, in table order |
| AggregatedInternshipService.ApiBatches | backend/src/services/aggregatedInternship.service.ts:77-91 | one batch per enabled API source, in table order |
| AggregatedInternshipService.FinalFilter | backend/src/services/aggregatedInternship.service.ts:104-112 | the final filter throws exactly when a `q` is given and some item has no title; otherwise it keeps exactly the items matching the given `q` and `location`, ignoring case, and keeps every item when neither is given |
| AggregatedInternshipService.GetAggregatedInternships | backend/src/services/aggregatedInternship.service.ts:16-120 | the service (internal page, then the two `for` loops over HTML and API sources) returns exactly `Aggregate(...)` |
| AggregatedInternshipService.CollectHtml | backend/src/services/aggregatedInternship.service.ts:60-74 | the first loop returns the joined batches of the enabled HTML sources |
| AggregatedInternshipService.CollectApi | backend/src/services/aggregatedInternship.service.ts:77-91 | the second loop returns the joined batches of the enabled API sources |
| AggregatedInternshipService.AggregateCounts | backend/src/services/aggregatedInternship.service.ts:114-119 | `total` is the number of returned items; page and limit are echoed with defaults 1 and 10 |
| AggregatedInternshipService.AggregateFilterSound | backend/src/services/aggregatedInternship.service.ts:104-112 | every returned item's title contains `q` and its location contains `location`, ignoring case, wherever those are given; every merged item that matches is returned; with neither given, all merged items are returned |
| AggregatedInternshipService.MergedOrder | backend/src/services/aggregatedInternship.service.ts:93-99 | before the final filter the items are the internal page, then the HTML listings, then the API listings |
| AggregatedInternshipService.AggregateOrder | backend/src/services/aggregatedInternship.service.ts:99-116 | the result is an order-preserving selection of the merged items |
| AggregatedInternshipService.JoinAllSucceeds | backend/src/services/aggregatedInternship.service.ts:93 | `Promise.all` succeeds exactly when every batch does |
| AggregatedInternshipService.JoinAllFailure | backend/src/services/aggregatedInternship.service.ts:93 | one failed batch fails the join |
| AggregatedInternshipService.OneFailingSourceRejectsAll | backend/src/services/aggregatedInternship.service.ts:93 | one failing enabled source, HTML or API, rejects every external listing: there is no per-source isolation |
| AggregatedInternshipService.FailingHtmlSource | backend/src/services/aggregatedInternship.service.ts:60-74 | a failing enabled HTML source fails the HTML join |
| AggregatedInternshipService.FailingApiSource | backend/src/services/aggregatedInternship.service.ts:77-91 | a failing enabled API source fails the API join |
| AggregatedInternshipService.ExternalFailureFailsAggregate | backend/src/services/aggregatedInternship.service.ts:93-120 | a failure of the external listings fails the whole call, internal matches or not |
| AggregatedInternshipService.OnlyEnabledSources | backend/src/services/aggregatedInternship.service.ts:52-55 | the HTML and API source lists hold exactly the enabled sources of each provider type |
| AggregatedInternshipService.DescriptionOnlyMatchDropped | backend/src/services/aggregatedInternship.service.ts:104-105 | with a `q` filter an internal internship whose title lacks `q` is never returned, even when the database query matched its description |
| AggregatedInternshipService.UntitledListingWithQueryFails | backend/src/services/aggregatedInternship.service.ts:105 | a listing without a title makes a `q` filter throw, failing the call |
| AggregatedInternshipService.HtmlBatchScrapesItself | backend/src/services/aggregatedInternship.service.ts:63 | with unique ids, re-reading an HTML source by its id in `livePreviewScrape` scrapes that same source |
| ScrapingService.RequiredError | backend/src/models/scrapeSource.model.ts:25-26 | a source is valid exactly when both `name` and `baseUrl` are given |
| ScrapingService.NewSource | backend/src/models/scrapeSource.model.ts:23-41 | a created source takes the given fields and the schema defaults (enabled, 1440 minutes, HTML), a fresh id, and no last run |
| ScrapingService.CreateError | backend/src/services/scraping.service.ts:25-28 | a create is refused exactly when a required field is missing or the name is already stored |
| ScrapingService.CreateScrapeSource | backend/src/services/scraping.service.ts:25-28 | a refused create changes nothing; otherwise exactly the new source is appended and the id counter advances |
| ScrapingService.ListScrapeSources | backend/src/services/scraping.service.ts:30-33 | every source, newest first: a permutation of the table, sorted by descending creation time |
| ScrapingService.GetScrapeSourceById | backend/src/services/scraping.service.ts:53-56 | null for a malformed id; a found source is stored and has the id; an id some source has is always found |
| ScrapingService.UpdateTarget | backend/src/services/scraping.service.ts:35-51 | a successful update targets the stored source with that id |
| ScrapingService.UpdateScrapeSource | backend/src/services/scraping.service.ts:35-51 | a failed update changes nothing; otherwise only the target source is replaced by its updated version, which is returned |
| ScrapingService.FindSource | backend/src/services/scraping.service.ts:84-92 | succeeds exactly when the lookup finds the source; otherwise fails with "Invalid source id" or "Scrape source not found" |
| ScrapingService.TriggerScrapeNow | backend/src/services/scraping.service.ts:84-103 | an unknown source changes nothing; otherwise exactly one "queued" job for that source is appended and returned |
| ScrapingService.CreateDefaults | backend/src/models/scrapeSource.model.ts:29-37 | a source created without the optional fields is enabled, runs every 1440 minutes and is an HTML source |
| ScrapingService.CreateKeepsInvariants | backend/src/models/scrapeSource.model.ts:25 | a successful create keeps names unique and ids below the counter |
| ScrapingService.UpdateOnlySuppliedFields | backend/src/services/scraping.service.ts:40-44 | `$set` replaces exactly the supplied fields with the supplied values; every absent field, the id, creation time and last run stay |
| ScrapingService.EmptyUpdateIsIdentity | backend/src/services/scraping.service.ts:40-44 | an update with no fields leaves the source unchanged |
| ScrapingService.UpdateKeepsInvariants | backend/src/services/scraping.service.ts:35-51 | a successful update keeps names unique and ids below the counter and changes no other source |
| ScrapingService.UpdateFailures | backend/src/services/scraping.service.ts:36-48 | a malformed id fails with "Invalid source id"; an id no source has fails with "Scrape source not found" |
| ScrapingService.ListJobsProperties | backend/src/services/scraping.service.ts:58-70 | the source's 20 newest jobs: at most 20, all of that source and from the table, no copy beyond the table's, newest first, and every job of the source left out is no newer than each returned one |
| ScrapingService.ListJobsComplete | backend/src/services/scraping.service.ts:63-67 | a source with at most 20 jobs gets all of them |
| ScrapingService.LogsProperties | backend/src/services/scraping.service.ts:72-82 | a job's logs are exactly its entries in the log table, oldest first |
| ScrapingService.PreviewUsesHtmlScraper | backend/src/services/scraping.service.ts:106-118 | the preview of a stored source is exactly the HTML scraper's answer, whatever its provider type |
| ScrapingService.PreviewFailures | backend/src/services/scraping.service.ts:107-114 | a preview of a malformed or unknown id fails with the matching message |
| ScrapingJob.AppendLog | backend/src/jobs/scraping.job.ts:30-36 | writing a log entry appends one entry after the existing ones, with the next id, the job's id and the given level, message, meta and time; the counter grows by one and sources, jobs and internships are unchanged |
| ScrapingJob.ToInternships | backend/src/jobs/scraping.job.ts:42-56 | one document per scraped listing, in listing order |
| ScrapingJob.FailJob | backend/src/jobs/scraping.job.ts:83-97 | the catch block keeps the number of jobs and sources |
| ScrapingJob.CompleteJob | backend/src/jobs/scraping.job.ts:58-82 | the end of the try block keeps the number of jobs and sources |
| ScrapingJob.TargetJob | backend/src/jobs/scraping.job.ts:9-18 | -1 exactly when the id is malformed or no job has it; otherwise the index of a job with that id |
| ScrapingJob.JobSource | backend/src/jobs/scraping.job.ts:25-28 | -1 exactly when no source has the job's `sourceId`; otherwise the index of that source |
| ScrapingJob.MarkRunning | backend/src/jobs/scraping.job.ts:21-23 | only the target job changes: it is "running" with its start time set, keeping its id, source, finish time, error and creation time; all other tables and the counter are unchanged |
| ScrapingJob.Proceed | backend/src/jobs/scraping.job.ts:30-82 | from the "Started" entry on, the number of jobs and sources is kept |
| ScrapingJob.RunJob | backend/src/jobs/scraping.job.ts:8-98 | a run keeps the number of jobs and sources |
| ScrapingJob.RunScrapeJob | backend/src/jobs/scraping.job.ts:8-98 | the stored tables after the run are exactly `RunJob` of the tables before it |
| ScrapingJob.AddLog | backend/src/jobs/scraping.job.ts:30-36 | the stored tables gain exactly one log entry |
| ScrapingJob.MarkFailed | backend/src/jobs/scraping.job.ts:83-97 | the stored tables become exactly `FailJob` of the old tables |
| ScrapingJob.InsertAndComplete | backend/src/jobs/scraping.job.ts:58-82 | the stored tables become exactly `CompleteJob` of the old tables |
| ScrapingJob.UnknownJobChangesNothing | backend/src/jobs/scraping.job.ts:9-18 | a malformed job id, or one no job has, changes nothing |
| ScrapingJob.TargetSource | backend/src/jobs/scraping.job.ts:14-28 | a source index is returned only when the job exists and the index is its source's |
| ScrapingJob.FailJobAppendsOnly | backend/src/jobs/scraping.job.ts:83-97 | the catch block only appends to the logs and changes only the target job, keeping its id, source and creation time |
| ScrapingJob.ProceedAppendsOnly | backend/src/jobs/scraping.job.ts:30-97 | from the "Started" entry on, logs and internships are only appended to and only the target job changes |
| ScrapingJob.RunJobAppendsOnly | backend/src/jobs/scraping.job.ts:8-98 | whatever happens, logs and internships are only appended to and no job other than the target changes |
| ScrapingJob.MissingSourceFails | backend/src/jobs/scraping.job.ts:25-28 | a job whose source is gone ends "failed" with "Scrape source not found" and exactly one error entry, nothing inserted |
| ScrapingJob.RunJobProceeds | backend/src/jobs/scraping.job.ts:20-39 | a run on an existing job with an existing source marks it running and proceeds with the HTML scraper's answer |
| ScrapingJob.ProceedFails | backend/src/jobs/scraping.job.ts:30-97 | after a failed scrape the log holds "Started" then "Scrape job failed", and the job carries the message |
| ScrapingJob.ScrapeFailureFails | backend/src/jobs/scraping.job.ts:39-97 | a failing scrape ends the job "failed" with its message, logs "Started" and one error entry, inserts nothing and keeps `lastRunAt` |
| ScrapingJob.ApiSourceWithoutSelectorsFails | backend/src/jobs/scraping.job.ts:39 | an API source without `item` and `title` selectors always ends "failed": the job never uses the API adapter |
| ScrapingJob.ProceedSucceeds | backend/src/jobs/scraping.job.ts:30-82 | after a successful scrape: documents appended, `lastRunAt` set, job "completed", and the three entries logged in order |
| ScrapingJob.ScrapeSuccessCompletes | backend/src/jobs/scraping.job.ts:20-82 | a successful run completes the job, appends one document per listing in order, sets `lastRunAt` and logs "Started", "Inserted n" and "Scrape job completed" |
| ScrapingJob.InsertedDocumentsShape | backend/src/jobs/scraping.job.ts:42-56 | every inserted document is an open, remote, three-month scraped internship with no skills, a non-empty location and the listing's link |
| ScrapingJob.ScrapedListingsInsertable | backend/src/jobs/scraping.job.ts:58-60 | the scraper's listings always have a title and a description, so the insert cannot fail on required paths |
| AdminScrapingPage.LineEntry | frontend/src/pages/AdminScraping.tsx:121-125 | a line without "=" yields nothing; a line yields an entry only from a split at its first "=", and at that position it yields exactly the trimmed key before it and the trimmed value after it when both are non-empty; the key holds no "=" |
| AdminScrapingPage.ParseSelectors | frontend/src/pages/AdminScraping.tsx:114-128 | `parseSelectors()` returns exactly the object the trimmed, non-empty lines of the box build |
| AdminScrapingPage.CollectLines | frontend/src/pages/AdminScraping.tsx:119-127 | the loop over the lines stores one entry after another and returns exactly `Collect(lines)` |
| AdminScrapingPage.CollectKeys | frontend/src/pages/AdminScraping.tsx:119-127 | a key is in the object exactly when some line stores it |
| AdminScrapingPage.LastEntryWins | frontend/src/pages/AdminScraping.tsx:125 | for a repeated key the last line that stores it decides its value |
| AdminScrapingPage.CollectedTrimmed | frontend/src/pages/AdminScraping.tsx:115-126 | every stored key and value is non-empty and trimmed, and no key holds "=" |
| AdminScrapingPage.EntryAtFirstEquals | frontend/src/pages/AdminScraping.tsx:121-124 | the first "=" separates key and value, so a value may itself contain "=" |
| AdminScrapingPage.SplitJoin | frontend/src/pages/AdminScraping.tsx:115-116 | splitting lines joined by newlines gives the lines back when none holds a newline |
| AdminScrapingPage.SelectorRoundTrip | frontend/src/pages/AdminScraping.tsx:114-128 | writing distinct, clean selectors one per line and parsing the text gives each key its value and no other key |
| AdminScrapingPage.DefaultTextIsWritten | frontend/src/pages/AdminScraping.tsx:67-73 | the box's initial text is the five default selectors written one per line |
| AdminScrapingPage.DefaultSelectors | frontend/src/pages/AdminScraping.tsx:67-73 | the initial text parses to exactly item, title, location, company and link with their CSS selectors |
| AdminScrapingPage.CreatePayloadOf | frontend/src/pages/AdminScraping.tsx:147-165 | the posted body copies name, base URL, type, flag and frequency; sends a trimmed list path only when non-empty; sends selectors exactly for HTML and an API config exactly for API, whose endpoint and key variable are the form's values, each left out exactly when empty |
| AdminScrapingPage.Toggled | frontend/src/pages/AdminScraping.tsx:197-201 | the list keeps its length; the clicked source's entries get the flipped flag and every other entry is unchanged |
| AdminScrapingPage.ToggleTwice | frontend/src/pages/AdminScraping.tsx:191-201 | toggling a source and then its updated version restores the list |
| AdminScrapingPage.ToggleScoped | frontend/src/pages/AdminScraping.tsx:191-207 | a failed PUT leaves the list alone; a successful one keeps every source and id, changing at most the enabled flag |
| MockInternships.SalaryAmount | frontend/src/mock/mockInternships.ts:55 | the stipend amount lies between 15000 and 42000 and is a multiple of 3000 above 15000 |
| MockInternships.MockList | frontend/src/mock/mockInternships.ts:72-74 | there are exactly 200 mock listings |
| MockInternships.IdsDistinct | frontend/src/mock/mockInternships.ts:46 | two listings share an id exactly when they are the same listing |
| MockInternships.IdValue | frontend/src/mock/mockInternships.ts:46 | listing `i` has the decimal id `i + 1` |
| MockInternships.CompanyAndLocation | frontend/src/mock/mockInternships.ts:41-50 | company and location come from their tables and repeat every 18 and 7 listings |
| MockInternships.TitleFromRole | frontend/src/mock/mockInternships.ts:42-47 | the title is a role followed by " Intern" and repeats every 15 listings |
| MockInternships.SalaryBounds | frontend/src/mock/mockInternships.ts:55 | every stipend reads "₹<amount>/month" for one of the ten amounts 15000, 18000, …, 42000 |
| MockInternships.SkillsBounds | frontend/src/mock/mockInternships.ts:60 | each listing asks for the first two to six skills of the pool |
| MockInternships.ExperienceRule | frontend/src/mock/mockInternships.ts:58 | even listings ask for "0–1 year", odd ones for freshers |
| MockInternships.GapYearRule | frontend/src/mock/mockInternships.ts:59 | every third listing, from the first, allows a gap year |
| MockInternships.ExternalOnly | frontend/src/mock/mockInternships.ts:52-53 | every listing links to "#" and has no internal id |
| InternshipsPage.FromMock | frontend/src/pages/Internships.tsx:6-15 | the page's listing keeps the mock's title, location, description, link and internal id |
| InternshipsPage.MockListings | frontend/src/mock/mockInternships.ts:72-74 | the page searches 200 listings |
| InternshipsPage.FetchData | frontend/src/pages/Internships.tsx:57-68 | the kept listings are no more than the items, and each matches both the keyword and the location |
| InternshipsPage.FetchMock | frontend/src/pages/Internships.tsx:51-76 | a search over the mock data returns at most 200 listings |
| InternshipsPage.KeptIff | frontend/src/pages/Internships.tsx:57-68 | a listing is kept exactly when it is among the items and matches the keyword (title or description, ignoring case) and the location |
| InternshipsPage.EmptySearchKeepsAll | frontend/src/pages/Internships.tsx:58-65 | an empty query and location keep every listing, in order |
| InternshipsPage.SearchNarrows | frontend/src/pages/Internships.tsx:63-67 | a location filter only removes listings: whatever a search with a location keeps, the keyword alone keeps too |
| InternshipsPage.ApplyLabel | frontend/src/pages/Internships.tsx:300-306 | "Apply on external site" exactly when a link is given; "Apply directly via NextStep" exactly when there is no link but an internal id; otherwise "Application flow coming soon" |
| InternshipsPage.ButtonText | frontend/src/pages/Internships.tsx:327-338 | "Applied" exactly when applied; "Applying..." exactly when not applied and in flight; the call to action exactly when the button is enabled |
| InternshipsPage.AppliedAfter | frontend/src/pages/Internships.tsx:93 | after a settled apply the id is remembered exactly when it was before or the post succeeded; no other id changes; a failure changes nothing |
| InternshipsPage.ApplyErrorText | frontend/src/pages/Internships.tsx:96-98 | no error after success; after a failure the server's message, or "Failed to submit application." when it sent none |
| InternshipsPage.ApplyState.HandleApply | frontend/src/pages/Internships.tsx:87-107 | the settled state: ids as `AppliedAfter`, exactly one notice set, nothing in flight |
| InternshipsPage.ApplyState.ClearNotices | frontend/src/pages/Internships.tsx:102-105 | the timer clears both notices and nothing else |
| InternshipsPage.AppliedAfterSuccess | frontend/src/pages/Internships.tsx:93-94 | after a successful apply the card's button reads "Applied" and is disabled |
| InternshipsPage.RetryAfterFailure | frontend/src/pages/Internships.tsx:95-100 | after a failed apply an unapplied listing's button is enabled again, reading "Apply on NextStep" |
| InternshipsPage.MockListingsExternal | frontend/src/pages/Internships.tsx:300-306 | every mock listing is labelled "Apply on external site" and cannot be applied to internally |
| ObjectIds.ParseFormat | backend/src/services/scraping.service.ts:63-65 | reading back the 24-hex-digit string form of an id gives the id (the id string a client sends round-trips) |
| ObjectIds.FormatInjective | backend/src/jobs/scraping.job.ts:34 | distinct ids have distinct string forms, so `_id.toString()` identifies a document |
| Text.ToLower | backend/src/services/aggregatedInternship.service.ts:105 | lower-casing keeps the length and maps each character on its own |
| Text.ToLowerIdempotent | backend/src/services/aggregatedInternship.service.ts:105 | lower-casing twice is lower-casing once |
| Text.Trim | backend/src/utils/htmlScraper.util.ts:42 | `trim()` returns a trimmed string no longer than the input, empty exactly when the input is all white space, and it is a slice of the input with only white space before and after it |
| Text.TrimOfTrimmed | backend/src/utils/htmlScraper.util.ts:42 | trimming a trimmed string changes nothing |
| Text.IndexOf | frontend/src/pages/AdminScraping.tsx:121 | `indexOf` gives -1 exactly when the character is absent, else its first position |
| Text.Split | frontend/src/pages/AdminScraping.tsx:116 | `split` gives at least one part and no part holds the separator |
| Text.JoinSplit | frontend/src/pages/AdminScraping.tsx:116 | joining the parts of a split with the separator gives the string back |
| Text.DigitsValueOfNatToString | frontend/src/mock/mockInternships.ts:46 | the decimal text of a number denotes that number |
| Text.NatToStringInjective | frontend/src/mock/mockInternships.ts:46 | distinct numbers have distinct decimal texts |
| Text.StripTrailingSlash | backend/src/utils/htmlScraper.util.ts:59 | `replace(/\/$/, "")` drops exactly one trailing slash and otherwise returns the string unchanged |
| Queries.Filter | backend/src/services/scraping.service.ts:63-65 | a query's matches are drawn from the collection, each satisfies the filter, and none is duplicated beyond its copies in the collection |
| Queries.FilterMembers | backend/src/services/scraping.service.ts:63-65 | an element is matched exactly when it is in the collection and satisfies the filter |
| Queries.FilterIsSubsequence | backend/src/services/aggregatedInternship.service.ts:104-112 | filtering keeps the surviving elements in their original order |
| Queries.SortDesc | backend/src/services/scraping.service.ts:31 | `sort({ createdAt: -1 })` returns a permutation of its input in descending key order |
| Queries.Take | backend/src/services/scraping.service.ts:67 | `limit(n)` returns the first `min(|s|, n)` elements: a prefix of its input, all of it when there are no more than `n` |
| Queries.TakeMultiset | backend/src/services/scraping.service.ts:67 | `limit(n)` returns no element more often than its input holds it |
| Queries.TakeKeepsNewest | backend/src/services/scraping.service.ts:66-67 | limiting a descending sort drops only elements no newer than every kept one |
| Queries.Newest | backend/src/services/scraping.service.ts:63-67 | `find(filter).sort({ key: -1 }).limit(n)` returns the `n` newest matches: `min(n, matches)` of them, drawn from the matches, newest first, none left out newer than one kept, and all of them when at most `n` match |
| Queries.TakeSorted | backend/src/services/scraping.service.ts:66-67 | limiting a sorted result keeps it sorted |
| Queries.FindFirst | backend/src/services/scraping.service.ts:89 | `findById`-style lookups find nothing exactly when no element matches, and otherwise a matching stored element |
| Queries.Populate | backend/src/services/application.service.ts:44-46 | `.populate(path)` keeps the documents in order and pairs each with the stored document its reference names, or null exactly when no stored document has that id |

## Left out

- HTTP, the DOM and CSS selector matching: a fetched page is a given value, with the elements each selector matches, and a failed fetch is a `Failure`. axios and cheerio are not part of this model.
- Persistence: Mongoose queries become operations on in-memory tables. Ties in a sort keep insertion order, where MongoDB leaves their order unspecified.
- `mongoose.isValidObjectId` also accepts any 12-character string. The model accepts only the 24-hexadecimal-digit form.
- Concurrency: `Promise.all` over the external sources is a sequential join that reports the first failure in source order. Which rejection wins when several sources fail at once is not modelled.
- The un-awaited `runScrapeJob` in `triggerScrapeNow` is a separate call of `ScrapingJob.RunScrapeJob`. How it interleaves with other requests is not modelled.
- The parallel counts of the admin dashboard are computed one after another.
- Clocks: `new Date()` and `Date.now()` are a `now` parameter. One run of a service sees one instant.
- `InternshipsPage.ApplyState.HandleApply`: states only the state once the post has settled. The `applyingId` shown while the request is in flight is not part of its contract.
- The three-second `setTimeout` delay: `InternshipsPage.ApplyState.ClearNotices` is the timer's callback, and when it fires is not modelled.
- `new RegExp(q, "i")` in the internship list query is a literal, case-insensitive substring match. Regular-expression metacharacters in `q` are not modelled.
- The chatbot's two regular expressions are written out as a scan for the first marker followed by a run of `[a-z0-9+ ]`. Other regular-expression features are not modelled.
- `toLowerCase` maps ASCII letters only. Unicode case mapping is not modelled.
- bcrypt hashing and comparison, and JWT signing and verification, are function parameters. `process.env` is a map parameter.
- `parseExtraParams` depends on `JSON.parse`. Its result is a parameter of `AdminScrapingPage.CreatePayloadOf`.
- Joi's `uri()` is approximated by an RFC 3986 scheme prefix, `scheme ":" rest`.
- The `validate` middleware that applies the Joi schemas to requests is not part of this model. The schemas are checked directly with `Joi.Validate`.
- Controllers, routers, the error middleware and the server's port-retry loop are HTTP glue and are not part of this model.
- UI rendering, navigation, React effects and `localStorage` are not modelled. Only the page logic named above is.
- `MockInternships.MockInternship`: the prose fields (`description`, `aboutCompany`, `fullDescription`) are member functions of the listing rather than stored strings. Their text is the same.
- Mongoose schema validation of stored documents is modelled only where a service depends on it: the required paths of sources, users and profiles, and the unique indexes.
- `ApiJobProvider.MapJobs`: the response body is a typed value, `{ jobs?: [...] }` whose entries are objects with optional string fields. So the model cannot express what the code does with other shapes: a `null` body, a truthy `jobs` that is not an array, a `null` entry (each a `TypeError`), or a field of another type copied through unchanged.
- `Joi.CheckAccepts`: Joi's default `convert: true` is not modelled. A numeric or boolean string is rejected where Joi would convert it to a number or a boolean, and a date string is accepted whenever it is non-empty rather than when `Date` can parse it.
- `Joi.Validate`: the validated value is the body with defaults filled in, never a converted one, because conversion is left out (see `Joi.CheckAccepts`). The error message is one fixed string, not Joi's per-key message.
- `Joi.StrOk`: `min` and `max` on strings count characters as Unicode scalar values, where Joi counts UTF-16 code units (`value.length`). A string with characters outside the Basic Multilingual Plane, such as emoji, can pass a maximum length in the model that Joi rejects. This affects every string length rule of the validators.
- `Paging.Window` and `Paging.TotalPages`: `page` and `limit` are integers. The controllers pass `Number(req.query.page)` and `Number(req.query.limit)`, so `NaN` and fractional values can reach `skip`, `limit` and `Math.ceil`, and those are not modelled.
