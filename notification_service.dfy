/**
 * `notification.service.ts`: notifications are created unread for one user, listed
 * newest first (at most 50), and marked read one at a time or all at once, always
 * scoped to the user that owns them.
 */
module NotificationService {
  import opened Wrappers
  import opened Queries
  import opened ObjectIds
  import opened Records
  import opened Database

  /** `getUserNotifications` returns at most this many. */
  const ListLimit: nat := 50

  /** The message of the cast error a malformed `_id` in a filter raises. */
  function CastErrorMessage(id: string): string {
    "Cast to ObjectId failed for value \"" + id + "\" (type string) at path \"_id\" for model \"Notification\""
  }

  /** Mongoose's `required` validator on `type`, `title` and `body` (an empty string counts as missing), in schema order. */
  function RequiredError(kind: string, title: string, body: string): (r: Option<string>)
    ensures r.None? <==> kind != "" && title != "" && body != ""
  {
    ValidationError("Notification", (if kind == "" then ["type"] else []) + (if title == "" then ["title"] else []) + (if body == "" then ["body"] else []))
  }

  /** The document `Notification.create(...)` stores: unread, owned by `userId`. */
  function NewNotification(userId: Id, kind: string, title: string, body: string, metadata: Option<map<string, string>>, id: Id, now: Time): (n: Notification)
    ensures n.userId == userId && !n.isRead
    ensures n.id == id && n.createdAt == now
    ensures n.kind == kind && n.title == title && n.body == body && n.metadata == metadata
  {
    Notification(id, userId, kind, title, body, false, metadata, now)
  }

  /** `createNotification(userId, type, title, body, metadata)`. */
  method CreateNotification(db: Db, userId: Id, kind: string, title: string, body: string, metadata: Option<map<string, string>>, now: Time)
    returns (r: Result<Notification>)
    modifies db`notifications, db`nextId
    ensures RequiredError(kind, title, body).Some? ==>
      r == Failure(RequiredError(kind, title, body).value) && db.notifications == old(db.notifications) && db.nextId == old(db.nextId)
    ensures RequiredError(kind, title, body).None? ==>
      && r == Success(NewNotification(userId, kind, title, body, metadata, old(db.nextId), now))
      && db.notifications == old(db.notifications) + [r.value]
      && db.nextId == old(db.nextId) + 1
  {
    var error := RequiredError(kind, title, body);
    if error.Some? {
      return Failure(error.value);
    }
    var n := NewNotification(userId, kind, title, body, metadata, db.nextId, now);
    db.notifications := db.notifications + [n];
    db.nextId := db.nextId + 1;
    return Success(n);
  }

  function CreatedAt(n: Notification): int {
    n.createdAt
  }

  function OfUser(userId: Id): Notification -> bool {
    (n: Notification) => n.userId == userId
  }

  /** `getUserNotifications(userId)`: that user's notifications, newest first, at most 50. */
  function GetUserNotifications(notifications: seq<Notification>, userId: Id): seq<Notification> {
    Take(SortDesc(Filter(notifications, OfUser(userId)), CreatedAt), ListLimit)
  }

  function OwnedWithId(key: Id, userId: Id): Notification -> bool {
    (n: Notification) => n.id == key && n.userId == userId
  }

  /** Which notification `markNotificationRead` updates: a cast error, none, or the first one with that id owned by that user. */
  function ReadTarget(notifications: seq<Notification>, userId: Id, id: string): (r: Result<Option<nat>>)
    ensures r.Failure? <==> !IsValidObjectId(id)
    ensures r.Success? && r.value.Some? ==>
      var k := r.value.value;
      k < |notifications| && notifications[k].id == ParseObjectId(id).value && notifications[k].userId == userId
    ensures r.Success? && r.value.None? ==>
      forall k :: 0 <= k < |notifications| ==> !(notifications[k].id == ParseObjectId(id).value && notifications[k].userId == userId)
  {
    match ParseObjectId(id)
    case None => Failure(CastErrorMessage(id))
    case Some(key) =>
      var k := FirstIndex(notifications, OwnedWithId(key, userId));
      if k == -1 then Success(None) else Success(Some(k))
  }

  /** The notification table after `markNotificationRead(userId, id)`. */
  function MarkedRead(notifications: seq<Notification>, userId: Id, id: string): (r: seq<Notification>)
    ensures |r| == |notifications|
    ensures ReadTarget(notifications, userId, id).Success? && ReadTarget(notifications, userId, id).value.Some? ==>
      var k := ReadTarget(notifications, userId, id).value.value;
      && r[k].isRead
      && r[k].(isRead := notifications[k].isRead) == notifications[k]
      && (forall j :: 0 <= j < |r| && j != k ==> r[j] == notifications[j])
    ensures ReadTarget(notifications, userId, id).Failure? || ReadTarget(notifications, userId, id).value.None? ==>
      r == notifications
  {
    match ReadTarget(notifications, userId, id)
    case Success(Some(k)) => notifications[k := notifications[k].(isRead := true)]
    case _ => notifications
  }

  /** `markNotificationRead(userId, id)`: the updated notification, null when the user owns none with that id. */
  method MarkNotificationRead(db: Db, userId: Id, id: string) returns (r: Result<Option<Notification>>)
    modifies db`notifications
    ensures db.notifications == MarkedRead(old(db.notifications), userId, id)
    ensures ReadTarget(old(db.notifications), userId, id).Failure? ==> r == Failure(CastErrorMessage(id))
    ensures ReadTarget(old(db.notifications), userId, id) == Success(None) ==> r == Success(None)
    ensures ReadTarget(old(db.notifications), userId, id).Success? && ReadTarget(old(db.notifications), userId, id).value.Some? ==>
      r == Success(Some(db.notifications[ReadTarget(old(db.notifications), userId, id).value.value]))
    ensures r.Success? && r.value.Some? ==>
      && r.value.value.isRead && r.value.value in db.notifications
      && r.value.value.id == ParseObjectId(id).value && r.value.value.userId == userId
  {
    var target := ReadTarget(db.notifications, userId, id);
    match target {
      case Failure(e) =>
        return Failure(e);
      case Success(None) =>
        return Success(None);
      case Success(Some(k)) =>
        var updated := db.notifications[k].(isRead := true);
        db.notifications := db.notifications[k := updated];
        return Success(Some(updated));
    }
  }

  /** The notification table after `markAllNotificationsRead(userId)`. */
  function AllMarkedRead(notifications: seq<Notification>, userId: Id): (r: seq<Notification>)
    ensures |r| == |notifications|
    ensures forall k :: 0 <= k < |r| ==>
      r[k] == if notifications[k].userId == userId then notifications[k].(isRead := true) else notifications[k]
  {
    seq(|notifications|, k requires 0 <= k < |notifications| =>
      if notifications[k].userId == userId then notifications[k].(isRead := true) else notifications[k])
  }

  /** `markAllNotificationsRead(userId)`: `updateMany({ userId, isRead: false }, { $set: { isRead: true } })`. */
  method MarkAllNotificationsRead(db: Db, userId: Id)
    modifies db`notifications
    ensures db.notifications == AllMarkedRead(old(db.notifications), userId)
  {
    db.notifications := AllMarkedRead(db.notifications, userId);
  }

  // ---- properties ----

  /**
   * The user's 50 newest notifications, newest first: as many as the user has, up to 50,
   * each one of the user's own, and none of those left out newer than any shown.
   */
  lemma UserNotificationsProperties(notifications: seq<Notification>, userId: Id)
    ensures var r := GetUserNotifications(notifications, userId);
            var mine := Filter(notifications, OfUser(userId));
            && NewestOf(r, notifications, OfUser(userId), CreatedAt, ListLimit)
            && (forall k :: 0 <= k < |r| ==> r[k].userId == userId)
            && (|mine| <= ListLimit ==> multiset(r) == multiset(mine))
  {
    Newest(notifications, OfUser(userId), CreatedAt, ListLimit);
  }

  /**
   * Marking one notification read sets only that notification's flag, and only when the
   * user owns it: every other notification, and every other field, is unchanged.
   */
  lemma MarkReadOnlyOwn(notifications: seq<Notification>, userId: Id, id: string)
    ensures var after := MarkedRead(notifications, userId, id);
            forall k :: 0 <= k < |notifications| ==>
              (after[k] == notifications[k] || (after[k] == notifications[k].(isRead := true)
                && notifications[k].userId == userId && IsValidObjectId(id) && notifications[k].id == ParseObjectId(id).value))
    ensures var after := MarkedRead(notifications, userId, id);
            IsValidObjectId(id) && (exists k :: 0 <= k < |notifications| && notifications[k].id == ParseObjectId(id).value && notifications[k].userId == userId) ==>
              exists k :: 0 <= k < |after| && after[k].id == ParseObjectId(id).value && after[k].userId == userId && after[k].isRead
  {
    var target := ReadTarget(notifications, userId, id);
    if target.Success? && target.value.Some? {
      var k := target.value.value;
      assert MarkedRead(notifications, userId, id)[k].isRead;
    }
  }

  /** A second `markNotificationRead` with the same arguments leaves the table as the first one did. */
  lemma MarkReadIdempotent(notifications: seq<Notification>, userId: Id, id: string)
    ensures MarkedRead(MarkedRead(notifications, userId, id), userId, id) == MarkedRead(notifications, userId, id)
  {
    var once := MarkedRead(notifications, userId, id);
    if IsValidObjectId(id) {
      var key := ParseObjectId(id).value;
      var k := FirstIndex(notifications, OwnedWithId(key, userId));
      if k != -1 {
        FirstIndexUpdate(notifications, OwnedWithId(key, userId), k, notifications[k].(isRead := true));
        assert once[k].(isRead := true) == once[k];
      }
    }
  }

  /** After marking all read, every notification of that user is read and every other user's is unchanged. */
  lemma MarkAllReadScoped(notifications: seq<Notification>, userId: Id)
    ensures var after := AllMarkedRead(notifications, userId);
            && (forall k :: 0 <= k < |after| && after[k].userId == userId ==> after[k].isRead)
            && (forall k :: 0 <= k < |after| && notifications[k].userId != userId ==> after[k] == notifications[k])
  {
  }

  /** Marking all read twice is marking all read once. */
  lemma MarkAllReadIdempotent(notifications: seq<Notification>, userId: Id)
    ensures AllMarkedRead(AllMarkedRead(notifications, userId), userId) == AllMarkedRead(notifications, userId)
  {
  }
}
