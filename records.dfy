/**
 * The documents of the backend's collections (the Mongoose schemas), with their
 * enumerations and defaults. Timestamps are natural numbers read from the clock the
 * caller passes in; document references are ids.
 */
module Records {
  import opened Wrappers
  import opened Json
  import opened ObjectIds

  /** An instant, in milliseconds, as read from the clock. */
  type Time = nat

  // ---- scrape sources, jobs and logs ----

  datatype ProviderType = Html | Api

  function ProviderTypeName(p: ProviderType): string {
    match p
    case Html => "html"
    case Api => "api"
  }

  datatype ApiConfig = ApiConfig(
    endpoint: Option<string>,
    apiKeyEnvVar: Option<string>,
    extraParams: Option<map<string, Json>>)

  datatype ScrapeSource = ScrapeSource(
    id: Id,
    name: string,
    baseUrl: string,
    listPath: Option<string>,
    selectors: Option<map<string, string>>,
    enabled: bool,
    frequencyMinutes: int,
    lastRunAt: Option<Time>,
    providerType: ProviderType,
    apiConfig: Option<ApiConfig>,
    createdAt: Time)

  const DefaultFrequencyMinutes: int := 1440

  datatype JobStatus = Queued | Running | Completed | Failed

  datatype ScrapeJob = ScrapeJob(
    id: Id,
    sourceId: Id,
    status: JobStatus,
    startedAt: Option<Time>,
    finishedAt: Option<Time>,
    errorMessage: Option<string>,
    createdAt: Time)

  datatype LogLevel = Info | Warning | Error

  /** The `meta` object a log entry carries. */
  datatype LogMeta = NoMeta | SourceMeta(sourceId: string) | CountMeta(count: nat) | ErrorMeta(error: string)

  datatype ScrapeLog = ScrapeLog(id: Id, jobId: Id, level: LogLevel, message: string, meta: LogMeta, timestamp: Time)

  // ---- internships ----

  datatype Mode = Remote | Onsite | Hybrid

  function ModeName(m: Mode): string {
    match m
    case Remote => "remote"
    case Onsite => "onsite"
    case Hybrid => "hybrid"
  }

  /** The `type` field: an internship or a full-time position. */
  datatype Kind = InternshipKind | FullTime

  function KindName(k: Kind): string {
    match k
    case InternshipKind => "internship"
    case FullTime => "fulltime"
  }

  datatype InternshipStatus = Open | Closed | Draft

  /** The `source` field: posted by hand or inserted by a scrape job. */
  datatype Origin = Manual | Scraped

  datatype Internship = Internship(
    id: Id,
    title: string,
    description: string,
    location: string,
    mode: Mode,
    kind: Kind,
    durationInMonths: Option<int>,
    skills: seq<string>,
    createdBy: Option<Id>,
    origin: Origin,
    externalApplyUrl: Option<string>,
    postedAt: Time,
    status: InternshipStatus)

  // ---- applications, bookmarks, notifications ----

  datatype ApplicationStatus = Applied | Shortlisted | Rejected | Hired

  function ApplicationStatusName(s: ApplicationStatus): string {
    match s
    case Applied => "applied"
    case Shortlisted => "shortlisted"
    case Rejected => "rejected"
    case Hired => "hired"
  }

  datatype Application = Application(
    id: Id,
    studentId: Id,
    companyId: Id,
    internshipId: Id,
    resumeUrl: Option<string>,
    coverLetter: Option<string>,
    status: ApplicationStatus,
    appliedAt: Time)

  datatype Bookmark = Bookmark(id: Id, studentId: Id, internshipId: Id, createdAt: Time)

  datatype Notification = Notification(
    id: Id,
    userId: Id,
    kind: string,
    title: string,
    body: string,
    isRead: bool,
    metadata: Option<map<string, string>>,
    createdAt: Time)

  // ---- users and profiles ----

  datatype Role = Student | Admin

  function RoleName(r: Role): string {
    match r
    case Student => "student"
    case Admin => "admin"
  }

  datatype UserStatus = Active | Suspended

  function UserStatusName(s: UserStatus): string {
    match s
    case Active => "active"
    case Suspended => "suspended"
  }

  datatype User = User(
    id: Id,
    name: string,
    email: string,
    passwordHash: string,
    role: Role,
    isEmailVerified: bool,
    status: UserStatus,
    createdAt: Time)

  /** The editable fields of a student profile; absent means "not set" (lists default to empty). */
  datatype ProfileFields = ProfileFields(
    collegeName: Option<string>,
    degree: Option<string>,
    branch: Option<string>,
    graduationYear: Option<int>,
    locationPreference: seq<string>,
    skills: seq<string>,
    resumeUrl: Option<string>,
    linkedInUrl: Option<string>,
    githubUrl: Option<string>,
    portfolioUrl: Option<string>,
    about: Option<string>)

  function EmptyProfileFields(): ProfileFields {
    ProfileFields(None, None, None, None, [], [], None, None, None, None, None)
  }

  datatype StudentProfile = StudentProfile(id: Id, userId: Id, fields: ProfileFields)

  datatype CompanyProfile = CompanyProfile(
    id: Id,
    userId: Id,
    companyName: Option<string>,
    logoUrl: Option<string>,
    website: Option<string>,
    description: Option<string>,
    size: Option<string>,
    location: Option<string>,
    isVerified: bool)

  // ---- chat ----

  datatype Sender = UserSender | BotSender

  datatype ChatMessage = ChatMessage(sender: Sender, text: string, createdAt: Time)

  datatype ChatSession = ChatSession(id: Id, userId: Id, messages: seq<ChatMessage>)
}
