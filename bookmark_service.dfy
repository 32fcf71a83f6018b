/**
 * `bookmark.service.ts`: a student's bookmarks form a set of internships. Adding is an
 * upsert on the (student, internship) pair, removing deletes the pair if it is there,
 * and listing returns the student's bookmarks newest first.
 */
module BookmarkService {
  import opened Wrappers
  import opened Queries
  import opened ObjectIds
  import opened Records
  import opened Database
  import opened InternshipService

  const InvalidInternshipIdMessage: string := "Invalid internship id"
  const InternshipNotFoundMessage: string := "Internship not found"

  function PairOf(studentId: Id, internshipId: Id): Bookmark -> bool {
    (b: Bookmark) => b.studentId == studentId && b.internshipId == internshipId
  }

  predicate HasPair(bookmarks: seq<Bookmark>, studentId: Id, internshipId: Id) {
    exists k :: 0 <= k < |bookmarks| && bookmarks[k].studentId == studentId && bookmarks[k].internshipId == internshipId
  }

  /** The unique index on (studentId, internshipId): no pair is stored twice. */
  predicate OnePerPair(bookmarks: seq<Bookmark>) {
    forall j, k :: 0 <= j < k < |bookmarks| ==>
      !(bookmarks[j].studentId == bookmarks[k].studentId && bookmarks[j].internshipId == bookmarks[k].internshipId)
  }

  /** The checks `addBookmark` makes before writing: a well-formed id of an existing internship. */
  function AddTarget(internships: seq<Internship>, internshipId: string): (r: Result<Internship>)
    ensures !IsValidObjectId(internshipId) ==> r == Failure(InvalidInternshipIdMessage)
    ensures IsValidObjectId(internshipId) && GetInternshipById(internships, internshipId).None? ==> r == Failure(InternshipNotFoundMessage)
    ensures r.Success? ==> r.value in internships && r.value.id == ParseObjectId(internshipId).value
  {
    if !IsValidObjectId(internshipId) then Failure(InvalidInternshipIdMessage)
    else
      match GetInternshipById(internships, internshipId)
      case None => Failure(InternshipNotFoundMessage)
      case Some(i) => Success(i)
  }

  /** The bookmark table after the upsert: unchanged when the pair is already stored, else one new bookmark at the end. */
  function Added(bookmarks: seq<Bookmark>, studentId: Id, internshipId: Id, nextId: Id, now: Time): (r: seq<Bookmark>)
    ensures HasPair(r, studentId, internshipId)
    ensures HasPair(bookmarks, studentId, internshipId) ==> r == bookmarks
    ensures !HasPair(bookmarks, studentId, internshipId) ==> r == bookmarks + [Bookmark(nextId, studentId, internshipId, now)]
  {
    if FirstIndex(bookmarks, PairOf(studentId, internshipId)) != -1 then bookmarks
    else
      var r := bookmarks + [Bookmark(nextId, studentId, internshipId, now)];
      assert r[|bookmarks|].studentId == studentId && r[|bookmarks|].internshipId == internshipId;
      r
  }

  /** `addBookmark(studentUserId, internshipId)`: the stored bookmark for the pair, created if absent. */
  method AddBookmark(db: Db, studentId: Id, internshipId: string, now: Time) returns (r: Result<Bookmark>)
    modifies db`bookmarks, db`nextId
    ensures AddTarget(db.internships, internshipId).Failure? ==>
      && r == Failure(AddTarget(db.internships, internshipId).error)
      && db.bookmarks == old(db.bookmarks) && db.nextId == old(db.nextId)
    ensures AddTarget(db.internships, internshipId).Success? ==>
      var key := AddTarget(db.internships, internshipId).value.id;
      && db.bookmarks == Added(old(db.bookmarks), studentId, key, old(db.nextId), now)
      && db.nextId == (if HasPair(old(db.bookmarks), studentId, key) then old(db.nextId) else old(db.nextId) + 1)
      && r == Success(FindFirst(db.bookmarks, PairOf(studentId, key)).value)
  {
    var target := AddTarget(db.internships, internshipId);
    if target.Failure? {
      return Failure(target.error);
    }
    var key := target.value.id;
    var existing := FindFirst(db.bookmarks, PairOf(studentId, key));
    if existing.Some? {
      return Success(existing.value);
    }
    var b := Bookmark(db.nextId, studentId, key, now);
    ghost var before := db.bookmarks;
    db.bookmarks := db.bookmarks + [b];
    db.nextId := db.nextId + 1;
    assert FirstIndex(before, PairOf(studentId, key)) == -1;
    FirstIndexAppend(before, PairOf(studentId, key), b);
    return Success(b);
  }

  /** The bookmark table after `findOneAndDelete` on the pair: the first stored bookmark of the pair is removed, if any. */
  function Removed(bookmarks: seq<Bookmark>, studentId: Id, internshipId: Id): (r: seq<Bookmark>)
    ensures !HasPair(bookmarks, studentId, internshipId) ==> r == bookmarks
    ensures HasPair(bookmarks, studentId, internshipId) ==> |r| == |bookmarks| - 1
  {
    var k := FirstIndex(bookmarks, PairOf(studentId, internshipId));
    if k == -1 then bookmarks else bookmarks[..k] + bookmarks[k + 1..]
  }

  /** `removeBookmark(studentUserId, internshipId)`: only the id's form is checked, not that the internship exists. */
  method RemoveBookmark(db: Db, studentId: Id, internshipId: string) returns (r: Result<()>)
    modifies db`bookmarks
    ensures !IsValidObjectId(internshipId) ==> r == Failure(InvalidInternshipIdMessage) && db.bookmarks == old(db.bookmarks)
    ensures IsValidObjectId(internshipId) ==>
      r == Success(()) && db.bookmarks == Removed(old(db.bookmarks), studentId, ParseObjectId(internshipId).value)
  {
    match ParseObjectId(internshipId) {
      case None =>
        return Failure(InvalidInternshipIdMessage);
      case Some(key) =>
        db.bookmarks := Removed(db.bookmarks, studentId, key);
        return Success(());
    }
  }

  function CreatedAt(b: Bookmark): int {
    b.createdAt
  }

  function OfStudent(studentId: Id): Bookmark -> bool {
    (b: Bookmark) => b.studentId == studentId
  }

  function InternshipRef(b: Bookmark): Id {
    b.internshipId
  }

  function InternshipKey(i: Internship): Id {
    i.id
  }

  /** `getStudentBookmarks(studentUserId)`: that student's bookmarks, newest first, each with its internship populated. */
  function GetStudentBookmarks(internships: seq<Internship>, bookmarks: seq<Bookmark>, studentId: Id): seq<(Bookmark, Option<Internship>)> {
    Populate(SortDesc(Filter(bookmarks, OfStudent(studentId)), CreatedAt), internships, InternshipRef, InternshipKey)
  }

  // ---- properties ----

  /** Adding a pair that is already stored changes nothing: repeated adds keep exactly one bookmark per pair. */
  lemma AddIdempotent(bookmarks: seq<Bookmark>, studentId: Id, internshipId: Id, nextId: Id, nextId': Id, now: Time, now': Time)
    ensures var once := Added(bookmarks, studentId, internshipId, nextId, now);
            Added(once, studentId, internshipId, nextId', now') == once
  {
  }

  /** Adding keeps the unique index satisfied. */
  lemma AddKeepsOnePerPair(bookmarks: seq<Bookmark>, studentId: Id, internshipId: Id, nextId: Id, now: Time)
    requires OnePerPair(bookmarks)
    ensures OnePerPair(Added(bookmarks, studentId, internshipId, nextId, now))
  {
  }

  /** Removing keeps the unique index satisfied, removes the pair, and keeps every other bookmark, in order. */
  lemma {:induction false} RemoveProperties(bookmarks: seq<Bookmark>, studentId: Id, internshipId: Id)
    requires OnePerPair(bookmarks)
    ensures var r := Removed(bookmarks, studentId, internshipId);
            && OnePerPair(r)
            && !HasPair(r, studentId, internshipId)
            && IsSubsequence(r, bookmarks)
            && (forall b :: b in bookmarks && !(b.studentId == studentId && b.internshipId == internshipId) ==> b in r)
  {
    var k := FirstIndex(bookmarks, PairOf(studentId, internshipId));
    var r := Removed(bookmarks, studentId, internshipId);
    RemovedUnique(bookmarks, studentId, internshipId);
    RemovedLacksPair(bookmarks, studentId, internshipId);
    if k == -1 {
      SubsequenceOfSelf(bookmarks);
    } else {
      assert PairOf(studentId, internshipId)(bookmarks[k]);
      forall b | b in bookmarks && !(b.studentId == studentId && b.internshipId == internshipId)
        ensures b in r
      {
        var i :| 0 <= i < |bookmarks| && bookmarks[i] == b;
        var j := if i < k then i else i - 1;
        DropOneIndex(bookmarks, k, j);
        assert r[j] == b;
      }
      SubsequenceDropOne(bookmarks, k);
    }
  }

  /** Removing from a table with one bookmark per pair keeps it so. */
  lemma RemovedUnique(bookmarks: seq<Bookmark>, studentId: Id, internshipId: Id)
    requires OnePerPair(bookmarks)
    ensures OnePerPair(Removed(bookmarks, studentId, internshipId))
  {
    var k := FirstIndex(bookmarks, PairOf(studentId, internshipId));
    if k != -1 {
      var r := Removed(bookmarks, studentId, internshipId);
      forall i, j | 0 <= i < j < |r|
        ensures !(r[i].studentId == r[j].studentId && r[i].internshipId == r[j].internshipId)
      {
        DropOneIndex(bookmarks, k, i);
        DropOneIndex(bookmarks, k, j);
        DistinctPairs(bookmarks, Skipping(i, k), Skipping(j, k));
      }
    }
  }

  /** Removing from a table with one bookmark per pair leaves the pair absent. */
  lemma RemovedLacksPair(bookmarks: seq<Bookmark>, studentId: Id, internshipId: Id)
    requires OnePerPair(bookmarks)
    ensures !HasPair(Removed(bookmarks, studentId, internshipId), studentId, internshipId)
  {
    var k := FirstIndex(bookmarks, PairOf(studentId, internshipId));
    if k != -1 {
      var r := Removed(bookmarks, studentId, internshipId);
      assert PairOf(studentId, internshipId)(bookmarks[k]);
      forall j | 0 <= j < |r|
        ensures !(r[j].studentId == studentId && r[j].internshipId == internshipId)
      {
        DropOneIndex(bookmarks, k, j);
        DistinctPairs(bookmarks, Skipping(j, k), k);
      }
    }
  }

  /** The bookmarks at two different positions of a table with one bookmark per pair have different pairs. */
  lemma DistinctPairs(bookmarks: seq<Bookmark>, i: nat, j: nat)
    requires OnePerPair(bookmarks) && i < |bookmarks| && j < |bookmarks| && i != j
    ensures !(bookmarks[i].studentId == bookmarks[j].studentId && bookmarks[i].internshipId == bookmarks[j].internshipId)
  {
    if j < i {
      assert !(bookmarks[j].studentId == bookmarks[i].studentId && bookmarks[j].internshipId == bookmarks[i].internshipId);
    }
  }

  /** Once position `k` is dropped, position `j` holds what position `Skipping(j, k)` held. */
  lemma DropOneIndex(s: seq<Bookmark>, k: nat, j: nat)
    requires k < |s| && j < |s| - 1
    ensures (s[..k] + s[k + 1..])[j] == s[Skipping(j, k)]
  {
  }

  /** The position in the old table of position `j` once position `k` is removed. */
  function Skipping(j: nat, k: nat): (i: nat)
    ensures i != k && (j < k ==> i == j) && (j >= k ==> i == j + 1)
  {
    if j < k then j else j + 1
  }

  /** Add then remove leaves the pair absent, and every bookmark of another pair is still stored. */
  lemma AddThenRemove(bookmarks: seq<Bookmark>, studentId: Id, internshipId: Id, nextId: Id, now: Time)
    requires OnePerPair(bookmarks)
    ensures var r := Removed(Added(bookmarks, studentId, internshipId, nextId, now), studentId, internshipId);
            && !HasPair(r, studentId, internshipId)
            && (forall b :: b in bookmarks && !(b.studentId == studentId && b.internshipId == internshipId) ==> b in r)
  {
    var added := Added(bookmarks, studentId, internshipId, nextId, now);
    AddKeepsOnePerPair(bookmarks, studentId, internshipId, nextId, now);
    RemoveProperties(added, studentId, internshipId);
  }

  /** A student's list holds exactly that student's stored bookmarks, newest first, each paired with the internship it names or null. */
  lemma StudentBookmarksProperties(internships: seq<Internship>, bookmarks: seq<Bookmark>, studentId: Id)
    ensures var r := GetStudentBookmarks(internships, bookmarks, studentId);
            && (forall b :: b in Documents(r) <==> b in bookmarks && b.studentId == studentId)
            && SortedDesc(Documents(r), CreatedAt)
            && (forall k :: 0 <= k < |r| ==> PopulatedFrom(r[k], internships, InternshipRef, InternshipKey))
  {
    FilterMembers(bookmarks, OfStudent(studentId));
    SortDescMembers(Filter(bookmarks, OfStudent(studentId)), CreatedAt);
  }
}
