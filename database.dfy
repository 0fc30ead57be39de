/**
 * The single-file store: three tables, `profile` (user_id is the primary
 * key), `educational_subjects` (duplicates allowed) and `message_from_users`
 * (an append-only log). Each table is the sequence of its rows in storage
 * order; inserts append, and loads select a user's rows in that order.
 */
module Database {
  import opened Optional
  import opened Strings
  import opened Dates

  type UserId = int

  datatype ProfileRow = ProfileRow(userId: UserId, firstName: string, lastName: string)
  datatype ScoreRow = ScoreRow(userId: UserId, subject: string, points: int)
  datatype MessageRow = MessageRow(userId: UserId, text: string, day: string)

  datatype Tables = Tables(profile: seq<ProfileRow>, subjects: seq<ScoreRow>, messages: seq<MessageRow>)

  function ProfileOwner(r: ProfileRow): UserId { r.userId }
  function ScoreOwner(r: ScoreRow): UserId { r.userId }

  /** SELECT * FROM table WHERE user_id == u: the rows owned by u, in table order. */
  function Select<R(!new)>(rows: seq<R>, owner: R -> UserId, u: UserId): (r: seq<R>)
    ensures forall x :: x in r <==> x in rows && owner(x) == u
  {
    if rows == [] then []
    else
      var last := rows[|rows| - 1];
      Select(rows[..|rows| - 1], owner, u) + (if owner(last) == u then [last] else [])
  }

  /** Selecting from a concatenation keeps the order of the two parts. */
  lemma {:induction false} SelectAppend<R(!new)>(rows: seq<R>, more: seq<R>, owner: R -> UserId, u: UserId)
    ensures Select(rows + more, owner, u) == Select(rows, owner, u) + Select(more, owner, u)
  {
    if more == [] {
      assert rows + more == rows;
    } else {
      var m := more[..|more| - 1];
      assert (rows + more)[..|rows + more| - 1] == rows + m;
      assert (rows + more)[|rows + more| - 1] == more[|more| - 1];
      SelectAppend(rows, m, owner, u);
    }
  }

  /** A user is registered when the profile table holds a row for them. */
  predicate HasProfile(profile: seq<ProfileRow>, u: UserId) {
    exists i :: 0 <= i < |profile| && profile[i].userId == u
  }

  /** The primary key: no two profile rows share a user id. */
  predicate UniqueUsers(profile: seq<ProfileRow>) {
    forall i, j :: 0 <= i < j < |profile| ==> profile[i].userId != profile[j].userId
  }

  /** load_user returns nothing exactly when the user has no profile row. */
  lemma SelectProfileEmpty(profile: seq<ProfileRow>, u: UserId)
    ensures Select(profile, ProfileOwner, u) == [] <==> !HasProfile(profile, u)
  {
    var r := Select(profile, ProfileOwner, u);
    if HasProfile(profile, u) {
      var i :| 0 <= i < |profile| && profile[i].userId == u;
      assert profile[i] in r;
    }
  }

  lemma HasProfileAppend(profile: seq<ProfileRow>, row: ProfileRow, v: UserId)
    ensures HasProfile(profile + [row], v) <==> HasProfile(profile, v) || row.userId == v
  {
    var p := profile + [row];
    if HasProfile(profile, v) {
      var i :| 0 <= i < |profile| && profile[i].userId == v;
      assert p[i] == profile[i];
    }
    if row.userId == v {
      assert p[|profile|] == row;
    }
    if HasProfile(p, v) {
      var i :| 0 <= i < |p| && p[i].userId == v;
      if i < |profile| { assert profile[i] == p[i]; }
    }
  }

  /**
   * INSERT INTO profile: None when a row with the same user id exists (the
   * primary key rejects it), otherwise the table with the row appended.
   */
  function InsertProfile(profile: seq<ProfileRow>, row: ProfileRow): (r: Option<seq<ProfileRow>>)
    ensures r.None? <==> HasProfile(profile, row.userId)
    ensures r.Some? ==> HasProfile(r.value, row.userId) && |r.value| == |profile| + 1
    ensures r.Some? && UniqueUsers(profile) ==> UniqueUsers(r.value)
  {
    if HasProfile(profile, row.userId) then None
    else
      HasProfileAppend(profile, row, row.userId);
      Some(profile + [row])
  }

  /** After creating the profile of an unregistered user, load_user returns exactly that row. */
  lemma LoadAfterCreate(profile: seq<ProfileRow>, u: UserId, first: string, last: string)
    requires !HasProfile(profile, u)
    ensures InsertProfile(profile, ProfileRow(u, first, last)).Some?
    ensures Select(InsertProfile(profile, ProfileRow(u, first, last)).value, ProfileOwner, u)
            == [ProfileRow(u, first, last)]
  {
    SelectProfileEmpty(profile, u);
    SelectAppend(profile, [ProfileRow(u, first, last)], ProfileOwner, u);
    assert Select([ProfileRow(u, first, last)], ProfileOwner, u) == [ProfileRow(u, first, last)] by {
      assert [ProfileRow(u, first, last)][..0] == [];
    }
  }

  /** A second create_profile for the same user fails instead of adding a row. */
  lemma SecondCreateFails(profile: seq<ProfileRow>, row: ProfileRow, first: string, last: string)
    requires InsertProfile(profile, row).Some?
    ensures InsertProfile(InsertProfile(profile, row).value, ProfileRow(row.userId, first, last)).None?
  {
  }

  /** With the primary key in force, load_user returns at most one row. */
  lemma {:induction false} AtMostOneProfile(profile: seq<ProfileRow>, u: UserId)
    requires UniqueUsers(profile)
    ensures |Select(profile, ProfileOwner, u)| <= 1
  {
    if profile != [] {
      var init := profile[..|profile| - 1];
      var last := profile[|profile| - 1];
      assert UniqueUsers(init);
      AtMostOneProfile(init, u);
      if last.userId == u {
        assert !HasProfile(init, u);
        SelectProfileEmpty(init, u);
      }
    }
  }

  /**
   * INSERT INTO educational_subjects never checks for an existing row: the
   * user's scores afterwards are the old ones followed by the new row, even
   * when an equal row is already stored.
   */
  lemma DuplicateScoresKept(subjects: seq<ScoreRow>, row: ScoreRow)
    ensures Select(subjects + [row], ScoreOwner, row.userId) == Select(subjects, ScoreOwner, row.userId) + [row]
  {
    assert (subjects + [row])[..|subjects|] == subjects;
  }

  /** The `for ... loads.append(...)` loop that copies the selected rows into a list. */
  method Collect<R(!new)>(rows: seq<R>, owner: R -> UserId, u: UserId) returns (loads: seq<R>)
    ensures loads == Select(rows, owner, u)
  {
    loads := [];
    for i := 0 to |rows|
      invariant loads == Select(rows[..i], owner, u)
    {
      assert rows[..i + 1][..i] == rows[..i];
      if owner(rows[i]) == u {
        loads := loads + [rows[i]];
      }
    }
    assert rows[..|rows|] == rows;
  }

  /**
   * The open connection and its three tables. `ready` records that db_start
   * has run; every other operation goes through the connection it opens.
   */
  class Store {
    var ready: bool
    var profile: seq<ProfileRow>
    var subjects: seq<ScoreRow>
    var messages: seq<MessageRow>

    /** The database file as found on disk (all tables empty for a new file), not yet opened. */
    constructor (profile0: seq<ProfileRow>, subjects0: seq<ScoreRow>, messages0: seq<MessageRow>)
      ensures !ready
      ensures profile == profile0 && subjects == subjects0 && messages == messages0
    {
      ready := false;
      profile, subjects, messages := profile0, subjects0, messages0;
    }

    function Contents(): Tables
      reads this
    {
      Tables(profile, subjects, messages)
    }

    /**
     * db_start: open the connection and create each table only if it is
     * absent, so running it again leaves every stored row in place.
     */
    method DbStart()
      modifies this`ready
      ensures ready
      ensures Contents() == old(Contents())
    {
      ready := true;
    }

    /** create_profile: fails (no row added) when the user already has a profile row. */
    method CreateProfile(u: UserId, firstName: string, lastName: string) returns (ok: bool)
      requires ready && SqlSafe(firstName) && SqlSafe(lastName)
      modifies this`profile
      ensures ok <==> !HasProfile(old(profile), u)
      ensures profile == if ok then old(profile) + [ProfileRow(u, firstName, lastName)] else old(profile)
      ensures (if ok then Some(profile) else None) == InsertProfile(old(profile), ProfileRow(u, firstName, lastName))
    {
      var r := InsertProfile(profile, ProfileRow(u, firstName, lastName));
      ok := r.Some?;
      if ok {
        profile := profile + [ProfileRow(u, firstName, lastName)];
      }
    }

    /** load_user */
    method LoadUser(u: UserId) returns (loads: seq<ProfileRow>)
      requires ready
      ensures loads == Select(profile, ProfileOwner, u)
    {
      loads := Collect(profile, ProfileOwner, u);
    }

    /** create_educational_subjects: always appends, duplicates included. */
    method CreateEducationalSubjects(u: UserId, subject: string, points: int)
      requires ready && SqlSafe(subject)
      modifies this`subjects
      ensures subjects == old(subjects) + [ScoreRow(u, subject, points)]
    {
      subjects := subjects + [ScoreRow(u, subject, points)];
    }

    /** load_educational_subjects */
    method LoadEducationalSubjects(u: UserId) returns (loads: seq<ScoreRow>)
      requires ready
      ensures loads == Select(subjects, ScoreOwner, u)
    {
      loads := Collect(subjects, ScoreOwner, u);
    }

    /** create_message: logs the text with the day it was received on. */
    method CreateMessage(u: UserId, text: string, today: Date)
      requires ready && SqlSafe(text) && ValidDate(today)
      modifies this`messages
      ensures messages == old(messages) + [MessageRow(u, text, FormatDate(today))]
    {
      messages := messages + [MessageRow(u, text, FormatDate(today))];
    }
  }
}
