/**
 * The MongoDB database: one table per collection, in insertion order, and the counter
 * new ObjectIds are drawn from. Services take the database and change only the tables
 * their `modifies` clauses name.
 */
module Database {
  import opened Wrappers
  import opened ObjectIds
  import opened Records

  /** The start of the driver's error when a write would break a unique index. */
  const DuplicateKeyMessage: string := "E11000 duplicate key error"

  /** Mongoose's `required` validator message for one path. */
  function RequiredPathMessage(path: string): string {
    path + ": Path `" + path + "` is required."
  }

  /** The per-path messages, separated by ", ". */
  function JoinRequired(paths: seq<string>): string {
    if |paths| <= 1 then (if paths == [] then "" else RequiredPathMessage(paths[0]))
    else RequiredPathMessage(paths[0]) + ", " + JoinRequired(paths[1..])
  }

  /** The error saving a `model` document reports when the required `missing` paths are absent, in schema order. */
  function ValidationError(model: string, missing: seq<string>): (r: Option<string>)
    ensures r.None? <==> missing == []
  {
    if missing == [] then None else Some(model + " validation failed: " + JoinRequired(missing))
  }

  class Db {
    var sources: seq<ScrapeSource>
    var jobs: seq<ScrapeJob>
    var logs: seq<ScrapeLog>
    var internships: seq<Internship>
    var applications: seq<Application>
    var bookmarks: seq<Bookmark>
    var notifications: seq<Notification>
    var users: seq<User>
    var studentProfiles: seq<StudentProfile>
    var companyProfiles: seq<CompanyProfile>
    var chatSessions: seq<ChatSession>
    /** Every id handed out so far is below this. */
    var nextId: Id

    constructor ()
      ensures sources == [] && jobs == [] && logs == [] && internships == []
      ensures applications == [] && bookmarks == [] && notifications == []
      ensures users == [] && studentProfiles == [] && companyProfiles == [] && chatSessions == []
      ensures nextId == 0
    {
      sources, jobs, logs, internships := [], [], [], [];
      applications, bookmarks, notifications := [], [], [];
      users, studentProfiles, companyProfiles, chatSessions := [], [], [], [];
      nextId := 0;
    }
  }
}
