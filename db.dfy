/**
 * The bot's two SQLite tables (app/db.py) as in-memory maps: `quiz_stats`,
 * one row per user, and `notes`, keyed by an AUTOINCREMENT id.
 */
module Db {
  import opened Wrappers

  /**
   * The user id the handlers pass to the tables: the update's author, or 0
   * when the update carries none.
   */
  function UserIdOf(user: Option<int>): int {
    user.GetOr(0)
  }

  /**
   * A Python int that binds as an SQLite INTEGER parameter: a signed 64-bit
   * value. Binding a larger one raises `OverflowError`.
   */
  predicate FitsInteger(n: int) {
    -0x8000_0000_0000_0000 <= n <= 0x7FFF_FFFF_FFFF_FFFF
  }

  // ---------------------------------------------------------------------
  // quiz_stats

  /** A `quiz_stats` row without its key column. */
  datatype StatsRow = StatsRow(quizzesTotal: int, questionsTotal: int, correctTotal: int, lastTopic: Option<string>)

  /** The arguments of one `upsert_quiz_stats` call. */
  datatype StatsDelta = StatsDelta(userId: int, quizzesAdd: int, questionsAdd: int, correctAdd: int, lastTopic: Option<string>)

  /** The row `get_quiz_stats` reports: the stored one, or zeros and no topic. */
  function RowOf(rows: map<int, StatsRow>, userId: int): StatsRow {
    if userId in rows then rows[userId] else StatsRow(0, 0, 0, None)
  }

  /**
   * The table after `upsert_quiz_stats`: the user's counters grow by the
   * deltas, `last_topic` is overwritten, every other row stays.
   */
  function Upserted(rows: map<int, StatsRow>, d: StatsDelta): (r: map<int, StatsRow>)
    ensures d.userId in r
    ensures r[d.userId].quizzesTotal == RowOf(rows, d.userId).quizzesTotal + d.quizzesAdd
    ensures r[d.userId].questionsTotal == RowOf(rows, d.userId).questionsTotal + d.questionsAdd
    ensures r[d.userId].correctTotal == RowOf(rows, d.userId).correctTotal + d.correctAdd
    ensures r[d.userId].lastTopic == d.lastTopic
    ensures r.Keys == rows.Keys + {d.userId}
    ensures forall u :: u in rows && u != d.userId ==> r[u] == rows[u]
  {
    var cur := RowOf(rows, d.userId);
    rows[d.userId := StatsRow(cur.quizzesTotal + d.quizzesAdd, cur.questionsTotal + d.questionsAdd,
                              cur.correctTotal + d.correctAdd, d.lastTopic)]
  }

  /** A sequence of upserts, applied in order. */
  function UpsertAll(rows: map<int, StatsRow>, ds: seq<StatsDelta>): map<int, StatsRow> {
    if ds == [] then rows else Upserted(UpsertAll(rows, ds[..|ds| - 1]), ds[|ds| - 1])
  }

  /** The deltas of `ds` addressed to `userId`, summed counter by counter. */
  function AddedFor(ds: seq<StatsDelta>, userId: int): (int, int, int) {
    if ds == [] then (0, 0, 0)
    else
      var (q, n, c) := AddedFor(ds[..|ds| - 1], userId);
      var d := ds[|ds| - 1];
      if d.userId == userId then (q + d.quizzesAdd, n + d.questionsAdd, c + d.correctAdd) else (q, n, c)
  }

  /**
   * Upserts are additive: after any sequence of them each of a user's
   * totals is its starting value plus the sum of that user's deltas, and a
   * user no upsert names keeps their row (or the lack of one).
   */
  lemma {:induction false} UpsertAllTotals(rows: map<int, StatsRow>, ds: seq<StatsDelta>, userId: int)
    ensures RowOf(UpsertAll(rows, ds), userId).quizzesTotal == RowOf(rows, userId).quizzesTotal + AddedFor(ds, userId).0
    ensures RowOf(UpsertAll(rows, ds), userId).questionsTotal == RowOf(rows, userId).questionsTotal + AddedFor(ds, userId).1
    ensures RowOf(UpsertAll(rows, ds), userId).correctTotal == RowOf(rows, userId).correctTotal + AddedFor(ds, userId).2
    ensures (forall i :: 0 <= i < |ds| ==> ds[i].userId != userId) ==>
              (userId in UpsertAll(rows, ds) <==> userId in rows) && RowOf(UpsertAll(rows, ds), userId) == RowOf(rows, userId)
  {
    if ds != [] {
      UpsertAllTotals(rows, ds[..|ds| - 1], userId);
    }
  }

  /** The `quiz_stats` table. The map's keys play the primary key `user_id`. */
  class StatsTable {
    var rows: map<int, StatsRow>

    constructor()
      ensures rows == map[]
    {
      rows := map[];
    }

    /** `get_quiz_stats(user_id)`. */
    method Get(userId: int) returns (row: StatsRow)
      ensures userId in rows ==> row == rows[userId]
      ensures userId !in rows ==> row == StatsRow(0, 0, 0, None)
    {
      if userId in rows {
        row := rows[userId];
      } else {
        row := StatsRow(0, 0, 0, None);
      }
    }

    /** `upsert_quiz_stats(...)`: read the current row, add, write it back. */
    method Upsert(userId: int, quizzesAdd: int, questionsAdd: int, correctAdd: int, lastTopic: Option<string>)
      modifies this
      ensures rows == Upserted(old(rows), StatsDelta(userId, quizzesAdd, questionsAdd, correctAdd, lastTopic))
    {
      var current := Get(userId);
      rows := rows[userId := StatsRow(current.quizzesTotal + quizzesAdd, current.questionsTotal + questionsAdd,
                                      current.correctTotal + correctAdd, lastTopic)];
    }
  }

  // ---------------------------------------------------------------------
  // notes

  /** A `notes` row without its key column. */
  datatype Note = Note(userId: int, createdAt: string, text: string)

  /** One row of `list_notes`: `id`, `created_at`, `text`. */
  datatype NoteRow = NoteRow(id: int, createdAt: string, text: string)

  /** True when `id` is a note of `userId`. */
  predicate Owns(notes: map<int, Note>, userId: int, id: int) {
    id in notes && notes[id].userId == userId
  }

  /** The ids of `userId`'s notes among `1..hi`, largest first. */
  function UserNoteIds(notes: map<int, Note>, userId: int, hi: int): seq<int>
    decreases hi
  {
    if hi <= 0 then []
    else (if Owns(notes, userId, hi) then [hi] else []) + UserNoteIds(notes, userId, hi - 1)
  }

  /**
   * `UserNoteIds` lists exactly the user's notes in `1..hi`, in strictly
   * descending order.
   */
  lemma {:induction false} UserNoteIdsSpec(notes: map<int, Note>, userId: int, hi: int)
    ensures forall i :: 0 <= i < |UserNoteIds(notes, userId, hi)| ==>
              1 <= UserNoteIds(notes, userId, hi)[i] <= hi && Owns(notes, userId, UserNoteIds(notes, userId, hi)[i])
    ensures forall i, j :: 0 <= i < j < |UserNoteIds(notes, userId, hi)| ==>
              UserNoteIds(notes, userId, hi)[i] > UserNoteIds(notes, userId, hi)[j]
    ensures forall id :: 1 <= id <= hi && Owns(notes, userId, id) ==> id in UserNoteIds(notes, userId, hi)
    decreases hi
  {
    if hi > 0 {
      UserNoteIdsSpec(notes, userId, hi - 1);
    }
  }

  /** The ids of `userId`'s notes. */
  function OwnedIds(notes: map<int, Note>, userId: int): set<int> {
    set id | id in notes && notes[id].userId == userId
  }

  /** Of the user's notes in `1..hi`, as a set. */
  function OwnedUpTo(notes: map<int, Note>, userId: int, hi: int): set<int> {
    set id | id in notes && 1 <= id <= hi && notes[id].userId == userId
  }

  /** The listing has one entry per note of the user in `1..hi`. */
  lemma {:induction false} UserNoteIdsCount(notes: map<int, Note>, userId: int, hi: int)
    ensures |UserNoteIds(notes, userId, hi)| == |OwnedUpTo(notes, userId, hi)|
    decreases hi
  {
    if hi <= 0 {
      assert OwnedUpTo(notes, userId, hi) == {};
    } else {
      UserNoteIdsCount(notes, userId, hi - 1);
      if Owns(notes, userId, hi) {
        assert OwnedUpTo(notes, userId, hi) == OwnedUpTo(notes, userId, hi - 1) + {hi};
      } else {
        assert OwnedUpTo(notes, userId, hi) == OwnedUpTo(notes, userId, hi - 1);
      }
    }
  }

  /** Python's and SQLite's `LIMIT`: a negative limit keeps everything. */
  function Limited<T>(s: seq<T>, limit: int): (r: seq<T>)
    ensures limit >= 0 ==> |r| <= limit
    ensures limit < 0 || |s| <= limit ==> r == s
    ensures r == s[..|r|]
  {
    if limit < 0 || |s| <= limit then s else s[..limit]
  }

  /**
   * The rows `list_notes` returns when every stored id lies in `1..lastId`:
   * the user's notes, largest id first, cut to `limit`.
   */
  function ListedRows(notes: map<int, Note>, lastId: nat, userId: int, limit: int): seq<NoteRow>
    requires forall id :: id in notes ==> 1 <= id <= lastId
  {
    UserNoteIdsSpec(notes, userId, lastId);
    var picked := Limited(UserNoteIds(notes, userId, lastId), limit);
    seq(|picked|, i requires 0 <= i < |picked| => NoteRow(picked[i], notes[picked[i]].createdAt, notes[picked[i]].text))
  }

  /**
   * `list_notes` returns only the user's notes, copied field by field, at
   * most `limit` of them, in strictly descending id order, and below the
   * limit all of them.
   */
  lemma ListedRowsSpec(notes: map<int, Note>, lastId: nat, userId: int, limit: int)
    requires forall id :: id in notes ==> 1 <= id <= lastId
    ensures var rows := ListedRows(notes, lastId, userId, limit);
      && (limit >= 0 ==> |rows| <= limit)
      && (forall i :: 0 <= i < |rows| ==>
            rows[i].id in notes && notes[rows[i].id] == Note(userId, rows[i].createdAt, rows[i].text))
      && (forall i, j :: 0 <= i < j < |rows| ==> rows[i].id > rows[j].id)
      && (limit < 0 || |rows| < limit ==> |rows| == |OwnedIds(notes, userId)|)
  {
    UserNoteIdsSpec(notes, userId, lastId);
    if limit < 0 || |ListedRows(notes, lastId, userId, limit)| < limit {
      ListingMatchesCount(notes, lastId, userId);
    }
  }

  /** A note of the user that `list_notes` leaves out is older than every note it lists. */
  lemma ListedRowsNewestFirst(notes: map<int, Note>, lastId: nat, userId: int, limit: int)
    requires forall id :: id in notes ==> 1 <= id <= lastId
    ensures var rows := ListedRows(notes, lastId, userId, limit);
      forall id :: Owns(notes, userId, id) && (forall i :: 0 <= i < |rows| ==> rows[i].id != id) ==>
        (forall i :: 0 <= i < |rows| ==> rows[i].id > id)
  {
    var rows := ListedRows(notes, lastId, userId, limit);
    var ids := UserNoteIds(notes, userId, lastId);
    UserNoteIdsSpec(notes, userId, lastId);
    forall id | Owns(notes, userId, id) && (forall i :: 0 <= i < |rows| ==> rows[i].id != id)
      ensures forall i :: 0 <= i < |rows| ==> rows[i].id > id
    {
      assert id in ids;
      var j :| 0 <= j < |ids| && ids[j] == id;
      assert forall i :: 0 <= i < |rows| ==> rows[i].id == ids[i];
    }
  }

  /** The `notes` table and the AUTOINCREMENT counter beside it. */
  class NotesTable {
    var notes: map<int, Note>
    /** The largest id ever issued (SQLite's `sqlite_sequence` entry). */
    var lastId: nat

    /** Every stored id was issued by the counter. */
    ghost predicate Valid()
      reads this
    {
      forall id :: id in notes ==> 1 <= id <= lastId
    }

    constructor()
      ensures Valid() && notes == map[] && lastId == 0
    {
      notes := map[];
      lastId := 0;
    }

    /** `add_note(...)`: insert one row and return its fresh id. */
    method AddNote(userId: int, createdAt: string, text: string) returns (id: int)
      requires Valid()
      modifies this
      ensures Valid()
      ensures id == lastId == old(lastId) + 1
      ensures forall k :: k in old(notes) ==> k < id
      ensures notes == old(notes)[id := Note(userId, createdAt, text)]
    {
      lastId := lastId + 1;
      id := lastId;
      notes := notes[id := Note(userId, createdAt, text)];
    }

    /** `list_notes(user_id, limit)`. */
    method ListNotes(userId: int, limit: int) returns (rows: seq<NoteRow>)
      requires Valid()
      ensures rows == ListedRows(notes, lastId, userId, limit)
    {
      rows := ListedRows(notes, lastId, userId, limit);
    }

    /** `delete_note(user_id, note_id)`: delete the note only if the user owns it. */
    method DeleteNote(userId: int, noteId: int) returns (deleted: bool)
      requires Valid()
      modifies this
      ensures Valid()
      ensures deleted <==> Owns(old(notes), userId, noteId)
      ensures notes == if deleted then old(notes) - {noteId} else old(notes)
      ensures lastId == old(lastId)
    {
      deleted := Owns(notes, userId, noteId);
      if deleted {
        notes := notes - {noteId};
      }
    }

    /** `count_notes(user_id)`. */
    method CountNotes(userId: int) returns (c: nat)
      ensures c == |OwnedIds(notes, userId)|
    {
      c := |OwnedIds(notes, userId)|;
    }
  }

  /** A user's listing with no limit has as many rows as `count_notes` reports. */
  lemma ListingMatchesCount(notes: map<int, Note>, lastId: nat, userId: int)
    requires forall id :: id in notes ==> 1 <= id <= lastId
    ensures |UserNoteIds(notes, userId, lastId)| == |OwnedIds(notes, userId)|
  {
    UserNoteIdsCount(notes, userId, lastId);
    assert OwnedUpTo(notes, userId, lastId) == OwnedIds(notes, userId);
  }
}
