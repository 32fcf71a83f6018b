/**
 * `chatbot.service.ts`: the student assistant. A message is classified by keywords into
 * one of four intents, search filters are pulled out of it with two regular expressions,
 * the reply is built from the internship list or the student's applications, and the
 * message and the reply are appended to the chat session.
 */
module ChatbotService {
  import opened Wrappers
  import opened Text
  import opened Queries
  import opened ObjectIds
  import opened Records
  import opened Database
  import opened InternshipService
  import opened ApplicationService

  datatype Intent = InternshipsIntent | ApplicationsIntent | PlatformIntent | FallbackIntent

  // ---- intent detection ----

  predicate AsksInternships(t: string) {
    Contains(t, "internship") || Contains(t, "internships") || Contains(t, "job")
  }

  predicate AsksApplications(t: string) {
    || Contains(t, "application status") || Contains(t, "my applications") || Contains(t, "applied")
    || (Contains(t, "status") && Contains(t, "application"))
  }

  predicate AsksPlatform(t: string) {
    Contains(t, "what is nextstep") || Contains(t, "how to use") || Contains(t, "help") || Contains(t, "features")
  }

  /** `detectIntent(text)`: keyword tests on the lowercased text, first match wins. */
  function DetectIntent(text: string): (r: Intent)
    ensures r == InternshipsIntent <==> AsksInternships(ToLower(text))
    ensures r == ApplicationsIntent <==> !AsksInternships(ToLower(text)) && AsksApplications(ToLower(text))
    ensures r == PlatformIntent <==> !AsksInternships(ToLower(text)) && !AsksApplications(ToLower(text)) && AsksPlatform(ToLower(text))
  {
    var t := ToLower(text);
    if AsksInternships(t) then InternshipsIntent
    else if AsksApplications(t) then ApplicationsIntent
    else if AsksPlatform(t) then PlatformIntent
    else FallbackIntent
  }

  // ---- filter extraction ----

  /** The character class `[a-zA-Z0-9+ ]`. */
  predicate IsCaptureChar(c: char) {
    ('a' <= c <= 'z') || ('A' <= c <= 'Z') || ('0' <= c <= '9') || c == '+' || c == ' '
  }

  /** What a captured value may hold once the text is lowercased. */
  predicate IsQueryChar(c: char) {
    ('a' <= c <= 'z') || ('0' <= c <= '9') || c == '+' || c == ' '
  }

  /** The length of the longest run of class characters at the start of `s` (the greedy `+`). */
  function RunLength(s: string): (n: nat)
    ensures n <= |s|
    ensures forall i :: 0 <= i < n ==> IsCaptureChar(s[i])
    ensures n < |s| ==> !IsCaptureChar(s[n])
  {
    if s == [] || !IsCaptureChar(s[0]) then 0 else 1 + RunLength(s[1..])
  }

  /** The pattern `marker([a-zA-Z0-9+ ]+)` matches at position `i`. */
  predicate MatchAt(s: string, marker: string, i: nat) {
    i + |marker| < |s| && s[i..i + |marker|] == marker && IsCaptureChar(s[i + |marker|])
  }

  /** The leftmost position at or after `from` where the pattern matches. */
  function FirstMatch(s: string, marker: string, from: nat): (r: Option<nat>)
    ensures r.Some? ==> from <= r.value && MatchAt(s, marker, r.value)
    ensures r.Some? ==> forall j :: from <= j < r.value ==> !MatchAt(s, marker, j)
    ensures r.None? ==> forall j :: from <= j ==> !MatchAt(s, marker, j)
    decreases |s| - from
  {
    if from + |marker| >= |s| then None
    else if MatchAt(s, marker, from) then Some(from)
    else FirstMatch(s, marker, from + 1)
  }

  /** The greedy run of class characters starting at `start`. */
  function RunAt(s: string, start: nat): (r: string)
    requires start <= |s|
    ensures forall c :: c in r ==> c in s && IsCaptureChar(c)
  {
    var n := RunLength(s[start..]);
    var r := s[start..start + n];
    assert forall k :: 0 <= k < |r| ==> r[k] == s[start..][k];
    r
  }

  /** `s.match(/marker([a-zA-Z0-9+ ]+)/)[1]`: the capture of the leftmost match, if any. */
  function Capture(s: string, marker: string): (r: Option<string>)
    ensures r.Some? <==> exists i :: MatchAt(s, marker, i)
    ensures r.Some? ==> |r.value| >= 1 && forall c :: c in r.value ==> c in s && IsCaptureChar(c)
  {
    match FirstMatch(s, marker, 0)
    case None => None
    case Some(i) => Some(RunAt(s, i + |marker|))
  }

  datatype QueryFilters = QueryFilters(q: Option<string>, location: Option<string>)

  /** The trimmed capture after `marker` in the lowercased text; present (possibly empty) whenever the pattern matches. */
  function ExtractAfter(text: string, marker: string): Option<string> {
    match Capture(ToLower(text), marker)
    case None => None
    case Some(c) => Some(Trim(c))
  }

  /** `extractQueryFilters(text)`: `q` after the first "for ", `location` after the first "in ". */
  function ExtractQueryFilters(text: string): QueryFilters {
    QueryFilters(ExtractAfter(text, "for "), ExtractAfter(text, "in "))
  }

  // ---- replies ----

  datatype ChatData =
    | NoData
    | InternshipData(items: seq<Internship>, total: nat)
    | ApplicationsData(applications: seq<(Application, Option<Internship>)>)

  /** The `ChatResponse`; `sessionId` is filled in once the session is saved. */
  datatype ChatResponse = ChatResponse(reply: string, suggestions: seq<string>, data: ChatData, sessionId: Option<string>)

  function PlatformHelpReply(): ChatResponse {
    ChatResponse(
      Join(["I'm NextStep Assistant \U{1F44B}", "", "I can help you with:", "\U{2022} Finding internships (e.g., *\"Show me MERN internships in Bangalore\"*)", "\U{2022} Checking your application status (e.g., *\"Show my applications\"*)", "\U{2022} Understanding how NextStep works.", "", "Try asking: *\"Find remote React internships\"* or *\"Show my applications\"*."], '\n'),
      ["Find remote internships", "Show my applications", "How does NextStep work?"],
      NoData, None)
  }

  function FallbackReply(): ChatResponse {
    ChatResponse(
      Join(["I'm not fully sure I understood that \U{1F914}", "", "You can ask me things like:", "\U{2022} *\"Show MERN internships in Bangalore\"*", "\U{2022} *\"Show my applications\"*", "\U{2022} *\"What is NextStep?\"*"], '\n'),
      ["Show internships", "Show my applications", "What is NextStep?"],
      NoData, None)
  }

  const InternshipResultLimit: int := 5

  /** The list query of the internships intent: the extracted filters, page 1, five results. */
  function IntentFilters(text: string): ListFilters {
    var f := ExtractQueryFilters(text);
    ListFilters(f.q, f.location, None, None, Some(1), Some(InternshipResultLimit))
  }

  /** One line of the internship list: "k. **title** – location (mode)". */
  function InternshipLine(position: nat, i: Internship): string {
    NatToString(position) + ". **" + i.title + "** \U{2013} " + i.location + " (" + ModeName(i.mode) + ")"
  }

  function InternshipLines(items: seq<Internship>): (r: seq<string>)
    ensures |r| == |items| && forall k :: 0 <= k < |r| ==> r[k] == InternshipLine(k + 1, items[k])
  {
    seq(|items|, k requires 0 <= k < |items| => InternshipLine(k + 1, items[k]))
  }

  const InternshipsHeader: string := "Here are some internships I found for you:\n\n"
  const InternshipsFooter: string :=
    Join(["", "", "You can refine your search by saying things like:", "\U{2022} *\"Only remote\"*", "\U{2022} *\"In Bangalore\"*", "\U{2022} *\"For MERN stack\"*"], '\n')

  function NoInternshipsReply(): ChatResponse {
    ChatResponse(
      Join(["I couldn't find any internships matching your query right now \U{1F615}", "", "Try changing your keywords or location, for example:", "\U{2022} *\"React internships in Bangalore\"*", "\U{2022} *\"Remote MERN internships\"*"], '\n'),
      ["Show remote internships", "Show internships in Bangalore", "Show MERN internships"],
      NoData, None)
  }

  /** `handleInternshipIntent(userId, text)`: page 1 of the list with the extracted filters, five per page. */
  function InternshipIntentReply(internships: seq<Internship>, text: string): ChatResponse {
    var result := ListInternships(internships, IntentFilters(text));
    assert result.Success?;
    var page := result.value;
    if page.total == 0 then NoInternshipsReply()
    else
      ChatResponse(
        InternshipsHeader + Join(InternshipLines(page.items), '\n') + InternshipsFooter,
        ["Show more internships", "Show only remote internships", "Show internships in my city"],
        InternshipData(page.items, page.total), None)
  }

  const ApplicationsShown: nat := 5
  const UnknownInternshipTitle: string := "Unknown internship"
  const ApplicationsHeader: string := "Here are your recent applications:\n\n"
  const ApplicationsFooter: string := "\n\nYou can apply to more internships or wait for updates from companies."

  /**
   * `internship.title || "Unknown internship"` on the populated `internshipId` of an application
   * (`{}` when the internship is gone).
   */
  function ApplicationTitle(app: (Application, Option<Internship>)): (r: string)
    ensures app.1.None? ==> r == UnknownInternshipTitle
    ensures app.1.Some? ==> r == OrElse(Some(app.1.value.title), UnknownInternshipTitle)
  {
    match app.1
    case None => UnknownInternshipTitle
    case Some(i) => OrElse(Some(i.title), UnknownInternshipTitle)
  }

  /** One line of the applications list: "k. **title** – Status: *status*". */
  function ApplicationLine(position: nat, app: (Application, Option<Internship>)): string {
    NatToString(position) + ". **" + ApplicationTitle(app) + "** \U{2013} Status: *"
      + OrElse(Some(ApplicationStatusName(app.0.status)), "applied") + "*"
  }

  function ApplicationLines(top: seq<(Application, Option<Internship>)>): (r: seq<string>)
    ensures |r| == |top| && forall k :: 0 <= k < |r| ==> r[k] == ApplicationLine(k + 1, top[k])
  {
    seq(|top|, k requires 0 <= k < |top| => ApplicationLine(k + 1, top[k]))
  }

  /** The "…and N more." note, present exactly when more than five applications exist. */
  function MoreNote(count: nat): (r: string)
    ensures r == "" <==> count <= ApplicationsShown
    ensures count > ApplicationsShown ==> r == "\n\n\U{2026}and " + NatToString(count - ApplicationsShown) + " more."
  {
    if count > ApplicationsShown then "\n\n\U{2026}and " + NatToString(count - ApplicationsShown) + " more." else ""
  }

  function NoApplicationsReply(): ChatResponse {
    ChatResponse(
      Join(["You haven't applied to any internships yet.", "", "Start by searching for internships and applying to a few that match your skills \U{1F60A}"], '\n'),
      ["Show internships", "Find remote internships", "Find MERN internships"],
      NoData, None)
  }

  /** The reply listing a non-empty set of populated applications: the first five and a note on the rest. */
  function ApplicationsListReply(apps: seq<(Application, Option<Internship>)>): ChatResponse {
    var top := Take(apps, ApplicationsShown);
    ChatResponse(
      ApplicationsHeader + Join(ApplicationLines(top), '\n') + MoreNote(|apps|) + ApplicationsFooter,
      ["Show more internships", "What internships should I apply to?"],
      ApplicationsData(top), None)
  }

  /**
   * `handleApplicationsIntent(userId)`: the five latest applications, each with its internship
   * populated, and a note on the rest.
   */
  function ApplicationsIntentReply(internships: seq<Internship>, applications: seq<Application>, userId: Id): ChatResponse {
    var apps := GetStudentApplications(internships, applications, userId);
    if |apps| == 0 then NoApplicationsReply() else ApplicationsListReply(apps)
  }

  /** The reply to a message, before the session id is attached. */
  function Reply(internships: seq<Internship>, applications: seq<Application>, userId: Id, message: string): ChatResponse {
    match DetectIntent(message)
    case PlatformIntent => PlatformHelpReply()
    case InternshipsIntent => InternshipIntentReply(internships, message)
    case ApplicationsIntent => ApplicationsIntentReply(internships, applications, userId)
    case FallbackIntent => FallbackReply()
  }

  // ---- the session ----

  function SessionWithId(key: Id): ChatSession -> bool {
    (s: ChatSession) => s.id == key
  }

  /** The stored session a message goes to: the one `sessionId` names, when it is given, well-formed and found; else -1. */
  function SessionIndex(sessions: seq<ChatSession>, sessionId: Option<string>): (r: int)
    ensures -1 <= r < |sessions|
    ensures r >= 0 ==> Given(sessionId) && IsValidObjectId(sessionId.value) && sessions[r].id == ParseObjectId(sessionId.value).value
  {
    if Given(sessionId) && IsValidObjectId(sessionId.value) then FirstIndex(sessions, SessionWithId(ParseObjectId(sessionId.value).value))
    else -1
  }

  /** The validator error of saving a session whose new message at `index` has empty text. */
  function EmptyTextMessage(index: nat): string {
    "ChatSession validation failed: messages." + NatToString(index) + ".text: Path `text` is required."
  }

  /** The sessions, the id counter and the answer after one chat turn. */
  datatype ChatStep = ChatStep(sessions: seq<ChatSession>, nextId: Id, response: Result<ChatResponse>)

  /** The session table with the target session present: the found one, or a new empty one appended. */
  function OpenSessions(sessions: seq<ChatSession>, nextId: Id, userId: Id, sessionId: Option<string>): seq<ChatSession> {
    if SessionIndex(sessions, sessionId) == -1 then sessions + [ChatSession(nextId, userId, [])] else sessions
  }

  /** Where the target session sits in `OpenSessions`. */
  function OpenIndex(sessions: seq<ChatSession>, sessionId: Option<string>): (k: nat)
    ensures k <= |sessions|
  {
    if SessionIndex(sessions, sessionId) == -1 then |sessions| else SessionIndex(sessions, sessionId)
  }

  /** The user's message and the bot's reply, both stamped `now`. */
  function TurnMessages(message: string, reply: string, now: Time): seq<ChatMessage> {
    [ChatMessage(UserSender, message, now), ChatMessage(BotSender, reply, now)]
  }

  /** One turn of `handleStudentChatMessage` on the session table, given the reply the message gets. */
  function ChatTurn(sessions: seq<ChatSession>, nextId: Id, userId: Id, message: string, sessionId: Option<string>,
                    reply: ChatResponse, now: Time): ChatStep
  {
    var withTarget := OpenSessions(sessions, nextId, userId, sessionId);
    var k := OpenIndex(sessions, sessionId);
    var next := if SessionIndex(sessions, sessionId) == -1 then nextId + 1 else nextId;
    var session := withTarget[k];
    if message == "" then ChatStep(withTarget, next, Failure(EmptyTextMessage(|session.messages|)))
    else
      ChatStep(withTarget[k := session.(messages := session.messages + TurnMessages(message, reply.reply, now))], next,
               Success(reply.(sessionId := Some(FormatObjectId(session.id)))))
  }

  /** "Ensure a session exists": the session `sessionId` names, or a new empty one of the caller. */
  method OpenChatSession(db: Db, userId: Id, sessionId: Option<string>) returns (k: nat)
    modifies db`chatSessions, db`nextId
    ensures db.chatSessions == OpenSessions(old(db.chatSessions), old(db.nextId), userId, sessionId)
    ensures db.nextId == if SessionIndex(old(db.chatSessions), sessionId) == -1 then old(db.nextId) + 1 else old(db.nextId)
    ensures k == OpenIndex(old(db.chatSessions), sessionId) && k < |db.chatSessions|
  {
    var found := SessionIndex(db.chatSessions, sessionId);
    if found == -1 {
      k := |db.chatSessions|;
      db.chatSessions := db.chatSessions + [ChatSession(db.nextId, userId, [])];
      db.nextId := db.nextId + 1;
    } else {
      k := found;
    }
  }

  /** Push the user's message and the reply onto the session and save it; an empty message fails the save. */
  method StoreChatTurn(db: Db, userId: Id, message: string, sessionId: Option<string>, reply: ChatResponse, now: Time)
    returns (r: Result<ChatResponse>)
    modifies db`chatSessions, db`nextId
    ensures ChatStep(db.chatSessions, db.nextId, r) == ChatTurn(old(db.chatSessions), old(db.nextId), userId, message, sessionId, reply, now)
  {
    var k := OpenChatSession(db, userId, sessionId);
    var session := db.chatSessions[k];
    if message == "" {
      r := Failure(EmptyTextMessage(|session.messages|));
    } else {
      db.chatSessions := db.chatSessions[k := session.(messages := session.messages + TurnMessages(message, reply.reply, now))];
      r := Success(reply.(sessionId := Some(FormatObjectId(session.id))));
    }
  }

  /** The reply to a message, computed from the stored internships and applications. */
  method ComposeReply(db: Db, userId: Id, message: string) returns (reply: ChatResponse)
    ensures reply == Reply(db.internships, db.applications, userId, message)
  {
    reply := Reply(db.internships, db.applications, userId, message);
  }

  /**
   * `handleStudentChatMessage(userId, message, sessionId)`: find or create the session,
   * append the user's message and the reply, save, and answer with the session's id. The
   * reply reads only internships and applications, which the session steps leave alone, so
   * it is the same whether it is built before or after the session is opened.
   */
  method HandleStudentChatMessage(db: Db, userId: Id, message: string, sessionId: Option<string>, now: Time) returns (r: Result<ChatResponse>)
    modifies db`chatSessions, db`nextId
    ensures ChatStep(db.chatSessions, db.nextId, r) ==
            ChatTurn(old(db.chatSessions), old(db.nextId), userId, message, sessionId,
                     Reply(old(db.internships), old(db.applications), userId, message), now)
  {
    var reply := ComposeReply(db, userId, message);
    r := StoreChatTurn(db, userId, message, sessionId, reply, now);
  }

  // ---- properties ----

  /** Lowercasing the message first does not change its intent. */
  lemma IntentIgnoresCase(text: string)
    ensures DetectIntent(ToLower(text)) == DetectIntent(text)
  {
    ToLowerIdempotent(text);
  }

  /** The internships keywords win: a message with "job" and "my applications" asks for internships. */
  lemma InternshipsBeforeApplications(text: string)
    requires Contains(ToLower(text), "job") && Contains(ToLower(text), "my applications")
    ensures DetectIntent(text) == InternshipsIntent
  {
  }

  /**
   * An extracted value holds only lowercase ASCII letters, digits, '+' and spaces, with no
   * space at either end; it is present exactly when the pattern matches the lowercased text.
   */
  lemma ExtractedValues(text: string, marker: string)
    ensures ExtractAfter(text, marker).Some? <==> exists i :: MatchAt(ToLower(text), marker, i)
    ensures ExtractAfter(text, marker).Some? ==>
              var v := ExtractAfter(text, marker).value;
              IsTrimmed(v) && forall c :: c in v ==> IsQueryChar(c)
  {
    var lower := ToLower(text);
    match Capture(lower, marker) {
      case None =>
      case Some(c) =>
        TrimChars(c);
        forall ch | ch in Trim(c)
          ensures IsQueryChar(ch)
        {
          var i :| 0 <= i < |lower| && lower[i] == ch;
          assert !IsAsciiUpper(LowerChar(text[i]));
        }
    }
  }

  /** The pattern matches at `i` and nowhere before it. */
  predicate LeftmostMatch(s: string, marker: string, i: nat) {
    MatchAt(s, marker, i) && forall j: nat :: j < i ==> !MatchAt(s, marker, j)
  }

  /** The extracted value is the trimmed run after the marker of the leftmost match at `i`. */
  predicate ExtractedAt(text: string, marker: string, i: nat) {
    && LeftmostMatch(ToLower(text), marker, i)
    && i + |marker| <= |text|
    && ExtractAfter(text, marker) == Some(Trim(RunAt(ToLower(text), i + |marker|)))
  }

  /** The value is taken at the leftmost match and runs as far as the class allows. */
  lemma ExtractedAtLeftmostMatch(text: string, marker: string)
    requires ExtractAfter(text, marker).Some?
    ensures exists i: nat :: ExtractedAt(text, marker, i)
  {
    var lower := ToLower(text);
    var i := FirstMatch(lower, marker, 0).value;
    CaptureLeftmost(lower, marker, i);
    assert ExtractedAt(text, marker, i);
  }

  lemma CaptureLeftmost(s: string, marker: string, i: nat)
    requires FirstMatch(s, marker, 0) == Some(i)
    ensures LeftmostMatch(s, marker, i) && Capture(s, marker) == Some(RunAt(s, i + |marker|))
  {
  }

  /** The internships intent asks for page 1 with limit 5, so it lists at most five matching internships, one line each. */
  lemma InternshipReplyProperties(internships: seq<Internship>, text: string)
    ensures var r := InternshipIntentReply(internships, text);
            r.data.InternshipData? ==>
              && |r.data.items| <= 5
              && (forall k :: 0 <= k < |r.data.items| ==>
                    r.data.items[k] in internships && MatchesFilters(IntentFilters(text), r.data.items[k]))
              && r.reply == InternshipsHeader + Join(InternshipLines(r.data.items), '\n') + InternshipsFooter
  {
    ListInternshipsItems(internships, IntentFilters(text));
  }

  /** With no applications the reply is the fixed one that suggests searching. */
  lemma NoApplicationsReplyWhenNone(internships: seq<Internship>, applications: seq<Application>, userId: Id)
    requires ApplicationsOfStudent(applications, userId) == []
    ensures ApplicationsIntentReply(internships, applications, userId) == NoApplicationsReply()
  {
    assert GetStudentApplications(internships, applications, userId) == [] by {
      assert |Documents(GetStudentApplications(internships, applications, userId))| == 0;
    }
  }

  /**
   * The reply to the applications intent: the fixed one without applications; otherwise the
   * student's five latest applications (all of them when there are at most five), each paired
   * with its populated internship, and a note on the rest exactly when there are more than five.
   */
  lemma ApplicationsReplyProperties(internships: seq<Internship>, applications: seq<Application>, userId: Id)
    ensures var own := ApplicationsOfStudent(applications, userId);
            own == [] ==> ApplicationsIntentReply(internships, applications, userId) == NoApplicationsReply()
    ensures var own := ApplicationsOfStudent(applications, userId);
            var shown := Take(GetStudentApplications(internships, applications, userId), ApplicationsShown);
            var n := if |own| <= 5 then |own| else 5;
            own != [] ==>
              && Documents(shown) == own[..n]
              && (forall k :: 0 <= k < |shown| ==> PopulatedFrom(shown[k], internships, InternshipRef, InternshipKey))
              && ApplicationsIntentReply(internships, applications, userId) ==
                   ChatResponse(ApplicationsHeader + Join(ApplicationLines(shown), '\n') + MoreNote(|own|) + ApplicationsFooter,
                                ["Show more internships", "What internships should I apply to?"],
                                ApplicationsData(shown), None)
  {
    var own := ApplicationsOfStudent(applications, userId);
    if own == [] {
      NoApplicationsReplyWhenNone(internships, applications, userId);
    } else {
      assert |Documents(GetStudentApplications(internships, applications, userId))| == |own|;
      TakePopulated(own, internships, InternshipRef, InternshipKey, ApplicationsShown);
    }
  }

  /** A missing internship renders as "Unknown internship", and the status always renders as its own name. */
  lemma ApplicationLineFallbacks(app: (Application, Option<Internship>))
    ensures app.1.None? ==> ApplicationTitle(app) == "Unknown internship"
    ensures OrElse(Some(ApplicationStatusName(app.0.status)), "applied") == ApplicationStatusName(app.0.status)
  {
  }

  /** A turn reuses the session it names when that one is found, and otherwise appends exactly one new empty session of the caller with a fresh id. */
  lemma ChatTurnSession(sessions: seq<ChatSession>, nextId: Id, userId: Id, message: string, sessionId: Option<string>,
                        reply: ChatResponse, now: Time)
    ensures var t := ChatTurn(sessions, nextId, userId, message, sessionId, reply, now);
            var k := SessionIndex(sessions, sessionId);
            && (k >= 0 ==> |t.sessions| == |sessions| && t.nextId == nextId)
            && (k == -1 ==> |t.sessions| == |sessions| + 1 && t.nextId == nextId + 1
                            && t.sessions[|sessions|].id == nextId && t.sessions[|sessions|].userId == userId)
            && forall j :: 0 <= j < |sessions| && j != k ==> t.sessions[j] == sessions[j]
  {
  }

  /**
   * A non-empty message appends exactly two messages to its session, the user's text then
   * the bot's reply, and the answer is the reply tagged with that session's id.
   */
  lemma ChatTurnAppendsTwo(sessions: seq<ChatSession>, nextId: Id, userId: Id, message: string, sessionId: Option<string>,
                           reply: ChatResponse, now: Time)
    requires message != ""
    ensures var t := ChatTurn(sessions, nextId, userId, message, sessionId, reply, now);
            var k := OpenIndex(sessions, sessionId);
            var before := OpenSessions(sessions, nextId, userId, sessionId)[k];
            && k < |t.sessions|
            && t.sessions[k].id == before.id && t.sessions[k].userId == before.userId
            && |t.sessions[k].messages| == |before.messages| + 2
            && t.sessions[k].messages[..|before.messages|] == before.messages
            && t.sessions[k].messages[|before.messages|] == ChatMessage(UserSender, message, now)
            && t.sessions[k].messages[|before.messages| + 1] == ChatMessage(BotSender, reply.reply, now)
            && t.response == Success(reply.(sessionId := Some(FormatObjectId(before.id))))
  {
  }

  /** An empty message fails the save: no message is stored, though a new session may already have been created. */
  lemma EmptyMessageStoresNothing(sessions: seq<ChatSession>, nextId: Id, userId: Id, sessionId: Option<string>,
                                  reply: ChatResponse, now: Time)
    ensures var t := ChatTurn(sessions, nextId, userId, "", sessionId, reply, now);
            && t.response.Failure?
            && t.sessions == OpenSessions(sessions, nextId, userId, sessionId)
            && forall j :: 0 <= j < |sessions| ==> t.sessions[j] == sessions[j]
  {
  }
}
