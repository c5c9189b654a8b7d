/**
 * The user-options table `(USER_ID INTEGER PRIMARY KEY, LANGUAGE TEXT, WEATHER_PROVIDER TEXT)`
 * and the functions that read and write it. Whether a storage call succeeds is a parameter;
 * the primary key is enforced by refusing to insert an id that is already stored. An
 * `INTEGER PRIMARY KEY` column is SQLite's rowid, so the rows are kept, and scanned, in
 * ascending `USER_ID` order.
 */
module UserOptions {
  import opened Outcomes

  /** What the user-options functions raise. */
  datatype UserOptionsError = RuntimeError | IndexError | NotImplementedError

  /** One row; a `NULL` column is `None`. */
  datatype UserRow = UserRow(userId: int, language: Option<string>, provider: Option<string>)

  /** The options dict a handler passes in: `user_data.get(...)` of its two keys, `None` when absent. */
  datatype UserData = UserData(language: Option<string>, provider: Option<string>)

  /** `'{value}'` inside the `UPDATE` text: `None` is written as the text `None`. */
  function Interpolated(value: Option<string>): (s: string)
    ensures value.Some? ==> s == value.value
    ensures value.None? ==> s == "None"
  {
    if value.Some? then value.value else "None"
  }

  /** At most one row per `USER_ID`: what the primary key guarantees. */
  predicate UniqueIds(rows: seq<UserRow>)
  {
    forall i, j :: 0 <= i < j < |rows| ==> rows[i].userId != rows[j].userId
  }

  /** Ids strictly ascending: the order of a table whose rowid is `USER_ID`. */
  predicate Ordered(rows: seq<UserRow>)
  {
    forall i, j :: 0 <= i < j < |rows| ==> rows[i].userId < rows[j].userId
  }

  /** Two different rows have the id. */
  predicate Duplicated(rows: seq<UserRow>, id: int)
  {
    exists i, j :: 0 <= i < j < |rows| && rows[i].userId == id && rows[j].userId == id
  }

  /** Some row has the id. */
  predicate Stored(rows: seq<UserRow>, id: int)
  {
    exists i :: 0 <= i < |rows| && rows[i].userId == id
  }

  /** `SELECT USER_ID`: the id column, row by row. */
  function Ids(rows: seq<UserRow>): (ids: seq<int>)
    ensures |ids| == |rows|
    ensures forall i :: 0 <= i < |rows| ==> ids[i] == rows[i].userId
  {
    if |rows| == 0 then [] else Ids(rows[..|rows| - 1]) + [rows[|rows| - 1].userId]
  }

  /** Where a row with `id` goes: after every row with a smaller or equal id, before the first larger one. */
  function InsertionPoint(rows: seq<UserRow>, id: int): (k: nat)
    ensures k <= |rows|
    ensures forall i :: 0 <= i < k ==> rows[i].userId <= id
    ensures k < |rows| ==> rows[k].userId > id
    decreases |rows|
  {
    if |rows| == 0 || rows[0].userId > id then 0 else 1 + InsertionPoint(rows[1..], id)
  }

  /** `rows` with `row` placed at position `k`. */
  function InsertAt(rows: seq<UserRow>, k: nat, row: UserRow): (after: seq<UserRow>)
    requires k <= |rows|
    ensures |after| == |rows| + 1 && after[k] == row
    ensures forall i :: 0 <= i < k ==> after[i] == rows[i]
    ensures forall i :: k < i < |after| ==> after[i] == rows[i - 1]
  {
    rows[..k] + [row] + rows[k..]
  }

  /** `SELECT * ... WHERE USER_ID = id`: the rows with the id, in table order. */
  function RowsWithId(rows: seq<UserRow>, id: int): (found: seq<UserRow>)
    ensures forall k :: 0 <= k < |found| ==> found[k].userId == id && found[k] in rows
    ensures |found| == 0 <==> !Stored(rows, id)
    decreases |rows|
  {
    if |rows| == 0 then []
    else
      var rest := RowsWithId(rows[1..], id);
      assert Stored(rows[1..], id) ==> Stored(rows, id) by {
        if Stored(rows[1..], id) {
          var i :| 0 <= i < |rows[1..]| && rows[1..][i].userId == id;
          assert rows[i + 1].userId == id;
        }
      }
      assert Stored(rows, id) && rows[0].userId != id ==> Stored(rows[1..], id) by {
        if Stored(rows, id) && rows[0].userId != id {
          var i :| 0 <= i < |rows| && rows[i].userId == id;
          assert rows[1..][i - 1].userId == id;
        }
      }
      if rows[0].userId == id then [rows[0]] + rest else rest
  }

  /** `UPDATE ... WHERE USER_ID = id`: both option columns of every row with the id set to the interpolated text. */
  function UpdatedRows(rows: seq<UserRow>, id: int, data: UserData): seq<UserRow>
  {
    seq(|rows|, i requires 0 <= i < |rows| =>
      if rows[i].userId == id
      then rows[i].(language := Some(Interpolated(data.language)), provider := Some(Interpolated(data.provider)))
      else rows[i])
  }

  // ---------------------------------------------------------------------------------------
  // The functions as values on the table

  /** `get_all_user_ids`. */
  function AllUserIds(rows: seq<UserRow>, ok: bool): Result<seq<int>, UserOptionsError>
  {
    if !ok then Err(RuntimeError) else Ok(Ids(rows))
  }

  /**
   * `get_user_data`: more than one row is refused inside the `try` and re-raised as
   * `RuntimeError`; no row fails at `result[0]`, outside the `try`, with `IndexError`.
   */
  function UserDataOf(rows: seq<UserRow>, id: int, ok: bool): (r: Result<UserRow, UserOptionsError>)
    ensures !ok ==> r == Err(RuntimeError)
    ensures ok && !Stored(rows, id) ==> r == Err(IndexError)
    ensures ok ==> (r == Err(RuntimeError) <==> Duplicated(rows, id))
    ensures r.Ok? <==> ok && Stored(rows, id) && !Duplicated(rows, id)
    ensures r.Ok? ==> r.value.userId == id && r.value in rows
  {
    if !ok then Err(RuntimeError)
    else
      var found := RowsWithId(rows, id);
      FoundTwiceIff(rows, id);
      if |found| > 1 then Err(RuntimeError)
      else if |found| == 0 then Err(IndexError)
      else Ok(found[0])
  }

  /** `insert_user_data`: the primary key refuses a stored id; a new row takes its id's place in the order. */
  function Insert(rows: seq<UserRow>, id: int, data: UserData, ok: bool): (Result<(), UserOptionsError>, seq<UserRow>)
  {
    if !ok || id in Ids(rows) then (Err(RuntimeError), rows)
    else (Ok(()), InsertAt(rows, InsertionPoint(rows, id), UserRow(id, data.language, data.provider)))
  }

  /** `update_user_data`. */
  function Update(rows: seq<UserRow>, id: int, data: UserData, ok: bool): (Result<(), UserOptionsError>, seq<UserRow>)
  {
    if !ok then (Err(RuntimeError), rows) else (Ok(()), UpdatedRows(rows, id, data))
  }

  /** `write_user_data`: update a stored id, insert a new one. */
  function Write(rows: seq<UserRow>, id: int, data: UserData, readOk: bool, writeOk: bool): (w: (Result<(), UserOptionsError>, seq<UserRow>))
    ensures w.0.Err? ==> w.1 == rows
    ensures !readOk ==> w.0 == Err(RuntimeError)
    ensures |w.1| == |rows| || (w.0.Ok? && id !in Ids(rows) && |w.1| == |rows| + 1)
  {
    match AllUserIds(rows, readOk)
    case Err(e) => (Err(e), rows)
    case Ok(ids) => if id in ids then Update(rows, id, data, writeOk) else Insert(rows, id, data, writeOk)
  }

  // ---------------------------------------------------------------------------------------
  // The table

  class UserOptionsDb {
    var rows: seq<UserRow>

    /** The rows are in rowid order. */
    predicate Valid()
      reads this
    {
      Ordered(rows)
    }

    /** The table as created when it is absent: empty. */
    constructor ()
      ensures Valid() && rows == []
    {
      rows := [];
    }

    /** `get_all_user_ids`: the stored ids, an empty list for an empty table. */
    method GetAllUserIds(ok: bool) returns (r: Result<seq<int>, UserOptionsError>)
      requires Valid()
      ensures !ok <==> r == Err(RuntimeError)
      ensures r.Ok? ==> forall i, j :: 0 <= i < j < |r.value| ==> r.value[i] < r.value[j]
      ensures r.Ok? ==> |r.value| == |rows| && forall i :: 0 <= i < |rows| ==> r.value[i] == rows[i].userId
      ensures r.Ok? ==> (r.value == [] <==> rows == [])
      ensures r == AllUserIds(rows, ok)
    {
      if !ok {
        return Err(RuntimeError);
      }
      r := Ok(Ids(rows));
    }

    /** `get_user_data`. */
    method GetUserData(userId: int, ok: bool) returns (r: Result<UserRow, UserOptionsError>)
      ensures r == UserDataOf(rows, userId, ok)
    {
      if !ok {
        return Err(RuntimeError);
      }
      var result := RowsWithId(rows, userId);
      if |result| > 1 {
        return Err(RuntimeError);
      }
      if |result| == 0 {
        return Err(IndexError);
      }
      r := Ok(result[0]);
    }

    /** `insert_user_data`. */
    method InsertUserData(userId: int, data: UserData, ok: bool) returns (r: Result<(), UserOptionsError>)
      requires Valid()
      modifies this
      ensures Valid()
      ensures (r, rows) == Insert(old(rows), userId, data, ok)
    {
      if !ok || userId in Ids(rows) {
        return Err(RuntimeError);
      }
      InsertKeepsOrdered(rows, userId, data);
      rows := InsertAt(rows, InsertionPoint(rows, userId), UserRow(userId, data.language, data.provider));
      r := Ok(());
    }

    /** `update_user_data`. */
    method UpdateUserData(userId: int, data: UserData, ok: bool) returns (r: Result<(), UserOptionsError>)
      requires Valid()
      modifies this
      ensures Valid()
      ensures (r, rows) == Update(old(rows), userId, data, ok)
    {
      UpdateTouchesOnlyId(rows, userId, data);
      if !ok {
        return Err(RuntimeError);
      }
      rows := UpdatedRows(rows, userId, data);
      r := Ok(());
    }

    /** `write_user_data`: one read of the ids, then one write. */
    method WriteUserData(userId: int, data: UserData, readOk: bool, writeOk: bool) returns (r: Result<(), UserOptionsError>)
      requires Valid()
      modifies this
      ensures Valid()
      ensures (r, rows) == Write(old(rows), userId, data, readOk, writeOk)
    {
      var ids := GetAllUserIds(readOk);
      if ids.Err? {
        return Err(ids.error);
      }
      if userId in ids.value {
        r := UpdateUserData(userId, data, writeOk);
      } else {
        r := InsertUserData(userId, data, writeOk);
      }
    }

    /** `delete_user_data`: not implemented; the table is left as it is. */
    method DeleteUserData(userId: int) returns (r: Result<(), UserOptionsError>)
      ensures r == Err(NotImplementedError)
    {
      r := Err(NotImplementedError);
    }
  }

  // ---------------------------------------------------------------------------------------
  // Properties

  /** The id column holds an id exactly when some row has it. */
  lemma IdsStored(rows: seq<UserRow>, id: int)
    ensures id in Ids(rows) <==> Stored(rows, id)
  {
    if id in Ids(rows) {
      var i :| 0 <= i < |Ids(rows)| && Ids(rows)[i] == id;
      assert rows[i].userId == id;
    }
  }

  /** The lookup returns every row with the id, as often as the table holds it, and no other row. */
  lemma {:induction false} RowsWithIdCounts(rows: seq<UserRow>, id: int)
    ensures forall x :: multiset(RowsWithId(rows, id))[x] == if x.userId == id then multiset(rows)[x] else 0
    decreases |rows|
  {
    if |rows| > 0 {
      RowsWithIdCounts(rows[1..], id);
      assert rows == [rows[0]] + rows[1..];
    }
  }

  /** The lookup finds more than one row exactly when two rows have the id. */
  lemma FoundTwiceIff(rows: seq<UserRow>, id: int)
    ensures |RowsWithId(rows, id)| > 1 <==> Duplicated(rows, id)
  {
    if Duplicated(rows, id) {
      var i, j :| 0 <= i < j < |rows| && rows[i].userId == id && rows[j].userId == id;
      DuplicatedFoundTwice(rows, id, i, j);
    }
    if |RowsWithId(rows, id)| > 1 {
      FoundTwiceDuplicated(rows, id);
    }
  }

  /** Two rows with the id are both found. */
  lemma {:induction false} DuplicatedFoundTwice(rows: seq<UserRow>, id: int, i: nat, j: nat)
    requires i < j < |rows| && rows[i].userId == id && rows[j].userId == id
    ensures |RowsWithId(rows, id)| > 1
    decreases |rows|
  {
    var tail := rows[1..];
    assert tail[j - 1] == rows[j];
    if i == 0 {
      assert Stored(tail, id);
      assert RowsWithId(rows, id) == [rows[0]] + RowsWithId(tail, id);
    } else {
      assert tail[i - 1] == rows[i];
      DuplicatedFoundTwice(tail, id, i - 1, j - 1);
    }
  }

  /** More than one row found means two rows with the id. */
  lemma {:induction false} FoundTwiceDuplicated(rows: seq<UserRow>, id: int)
    requires |RowsWithId(rows, id)| > 1
    ensures Duplicated(rows, id)
    decreases |rows|
  {
    var tail := rows[1..];
    if rows[0].userId == id {
      assert RowsWithId(rows, id) == [rows[0]] + RowsWithId(tail, id);
      var j :| 0 <= j < |tail| && tail[j].userId == id;
      assert rows[j + 1] == tail[j];
      assert 0 < j + 1 < |rows|;
    } else {
      assert RowsWithId(rows, id) == RowsWithId(tail, id);
      FoundTwiceDuplicated(tail, id);
      var i, j :| 0 <= i < j < |tail| && tail[i].userId == id && tail[j].userId == id;
      assert rows[i + 1] == tail[i] && rows[j + 1] == tail[j];
    }
  }

  /** Under the primary key, at most one row has a given id. */
  lemma {:induction false} AtMostOneRow(rows: seq<UserRow>, id: int)
    requires UniqueIds(rows)
    ensures |RowsWithId(rows, id)| <= 1
    ensures Stored(rows, id) ==> exists i :: 0 <= i < |rows| && RowsWithId(rows, id) == [rows[i]]
    decreases |rows|
  {
    if |rows| > 0 {
      assert UniqueIds(rows[1..]) by {
        forall i, j | 0 <= i < j < |rows[1..]| ensures rows[1..][i].userId != rows[1..][j].userId {
          assert rows[1..][i] == rows[i + 1] && rows[1..][j] == rows[j + 1];
        }
      }
      AtMostOneRow(rows[1..], id);
      if rows[0].userId == id {
        assert !Stored(rows[1..], id) by {
          forall i | 0 <= i < |rows[1..]| ensures rows[1..][i].userId != id {
            assert rows[1..][i] == rows[i + 1];
          }
        }
        assert RowsWithId(rows, id) == [rows[0]];
      } else if Stored(rows, id) {
        var i :| 0 <= i < |rows| && rows[i].userId == id;
        assert rows[1..][i - 1].userId == id;
        var j :| 0 <= j < |rows[1..]| && RowsWithId(rows[1..], id) == [rows[1..][j]];
        assert RowsWithId(rows, id) == [rows[j + 1]];
      }
    }
  }

  /**
   * Under the primary key, `get_user_data` answers with the row of a stored id and fails with
   * `IndexError` for an id no row has; the `RuntimeError` for duplicates cannot happen.
   */
  lemma UserDataUnderKey(rows: seq<UserRow>, id: int)
    requires UniqueIds(rows)
    ensures UserDataOf(rows, id, true).Ok? <==> Stored(rows, id)
    ensures UserDataOf(rows, id, true).Err? ==> UserDataOf(rows, id, true) == Err(IndexError)
    ensures UserDataOf(rows, id, true).Ok? ==>
      UserDataOf(rows, id, true).value.userId == id && UserDataOf(rows, id, true).value in rows
  {
    AtMostOneRow(rows, id);
  }

  /** Inserting a stored id violates the primary key: `RuntimeError`, table unchanged. */
  lemma InsertDuplicateFails(rows: seq<UserRow>, id: int, data: UserData, ok: bool)
    requires Stored(rows, id)
    ensures Insert(rows, id, data, ok) == (Err(RuntimeError), rows)
  {
    IdsStored(rows, id);
  }

  /** An update touches only the rows with the id, and only their option columns; an absent id changes nothing. */
  lemma UpdateTouchesOnlyId(rows: seq<UserRow>, id: int, data: UserData)
    ensures var after := UpdatedRows(rows, id, data);
      && |after| == |rows|
      && (forall i :: 0 <= i < |rows| && rows[i].userId != id ==> after[i] == rows[i])
      && (forall i :: 0 <= i < |rows| ==> after[i].userId == rows[i].userId)
      && (!Stored(rows, id) ==> after == rows)
  {
    var after := UpdatedRows(rows, id, data);
    if !Stored(rows, id) {
      assert forall i :: 0 <= i < |rows| ==> after[i] == rows[i];
    }
  }

  /** Every write keeps at most one row per id. */
  lemma WriteKeepsUnique(rows: seq<UserRow>, id: int, data: UserData, readOk: bool, writeOk: bool)
    requires UniqueIds(rows)
    ensures UniqueIds(Write(rows, id, data, readOk, writeOk).1)
  {
    IdsStored(rows, id);
    UpdateTouchesOnlyId(rows, id, data);
    var after := Write(rows, id, data, readOk, writeOk).1;
    if readOk && writeOk && id !in Ids(rows) {
      var k := InsertionPoint(rows, id);
      forall i, j | 0 <= i < j < |after| ensures after[i].userId != after[j].userId {
        if i == k {
          assert rows[j - 1].userId != id;
        } else if j == k {
          assert rows[i].userId != id;
        }
      }
    }
  }

  /** Inserting an id that is not stored at its insertion point keeps the ids ascending. */
  lemma InsertKeepsOrdered(rows: seq<UserRow>, id: int, data: UserData)
    requires Ordered(rows) && id !in Ids(rows)
    ensures Ordered(InsertAt(rows, InsertionPoint(rows, id), UserRow(id, data.language, data.provider)))
  {
    IdsStored(rows, id);
    var k := InsertionPoint(rows, id);
    var after := InsertAt(rows, k, UserRow(id, data.language, data.provider));
    forall i, j | 0 <= i < j < |after| ensures after[i].userId < after[j].userId {
      var lo := if i < k then rows[i].userId else if i == k then id else rows[i - 1].userId;
      var hi := if j < k then rows[j].userId else if j == k then id else rows[j - 1].userId;
      assert after[i].userId == lo && after[j].userId == hi;
      if i < k && j > k {
        assert rows[i].userId < rows[j - 1].userId;
      } else if i == k {
        assert rows[k].userId <= rows[j - 1].userId;
      } else if j == k {
        assert rows[i].userId != id;
      }
    }
  }

  /** Every write keeps the rows in ascending id order, the order `SELECT USER_ID` lists them in. */
  lemma WriteKeepsOrdered(rows: seq<UserRow>, id: int, data: UserData, readOk: bool, writeOk: bool)
    requires Ordered(rows)
    ensures Ordered(Write(rows, id, data, readOk, writeOk).1)
  {
    UpdateTouchesOnlyId(rows, id, data);
    if readOk && writeOk && id !in Ids(rows) {
      InsertKeepsOrdered(rows, id, data);
    }
  }

  /**
   * Upsert: after a successful write, `get_user_data` answers with one row for the id holding
   * the new options, `None` kept as `NULL` by an insert and written as the text `None` by an
   * update.
   */
  lemma WriteThenGet(rows: seq<UserRow>, id: int, data: UserData)
    requires UniqueIds(rows)
    ensures var (r, after) := Write(rows, id, data, true, true);
      && r.Ok?
      && UserDataOf(after, id, true) == Ok(
           if Stored(rows, id)
           then UserRow(id, Some(Interpolated(data.language)), Some(Interpolated(data.provider)))
           else UserRow(id, data.language, data.provider))
  {
    var after := Write(rows, id, data, true, true).1;
    IdsStored(rows, id);
    WriteKeepsUnique(rows, id, data, true, true);
    UserDataUnderKey(after, id);
    UpdateTouchesOnlyId(rows, id, data);
    assert Stored(after, id) by {
      if Stored(rows, id) {
        var i :| 0 <= i < |rows| && rows[i].userId == id;
        assert after[i].userId == id;
      } else {
        assert after[InsertionPoint(rows, id)].userId == id;
      }
    }
    var row := UserDataOf(after, id, true).value;
    var k :| 0 <= k < |after| && after[k] == row;
    if Stored(rows, id) {
      assert k < |rows| && rows[k].userId == id;
    } else {
      var p := InsertionPoint(rows, id);
      assert forall i :: 0 <= i < |after| && i != p ==> after[i].userId != id by {
        forall i | 0 <= i < |after| && i != p ensures after[i].userId != id {
          if i < p {
            assert after[i] == rows[i];
          } else {
            assert after[i] == rows[i - 1];
          }
        }
      }
      assert k == p;
    }
  }

  /** A write, successful or not, leaves the answer of `get_user_data` for every other id as it was. */
  lemma WriteKeepsOthers(rows: seq<UserRow>, id: int, data: UserData, readOk: bool, writeOk: bool, other: int)
    requires other != id
    ensures UserDataOf(Write(rows, id, data, readOk, writeOk).1, other, true) == UserDataOf(rows, other, true)
  {
    RowsWithIdUpdated(rows, id, data, other);
    RowsWithIdInsert(rows, InsertionPoint(rows, id), UserRow(id, data.language, data.provider), other);
  }

  /** Updating one id does not change which rows another id selects. */
  lemma {:induction false} RowsWithIdUpdated(rows: seq<UserRow>, id: int, data: UserData, other: int)
    requires other != id
    ensures RowsWithId(UpdatedRows(rows, id, data), other) == RowsWithId(rows, other)
    decreases |rows|
  {
    if |rows| > 0 {
      var after := UpdatedRows(rows, id, data);
      assert after[1..] == UpdatedRows(rows[1..], id, data);
      RowsWithIdUpdated(rows[1..], id, data, other);
      assert (after[0].userId == other) == (rows[0].userId == other);
      assert after[0].userId == other ==> after[0] == rows[0];
    }
  }

  /** The rows an id selects from two tables laid end to end are those of the first, then those of the second. */
  lemma {:induction false} RowsWithIdConcat(a: seq<UserRow>, b: seq<UserRow>, id: int)
    ensures RowsWithId(a + b, id) == RowsWithId(a, id) + RowsWithId(b, id)
    decreases |a|
  {
    if |a| == 0 {
      assert a + b == b;
    } else {
      assert (a + b)[1..] == a[1..] + b;
      RowsWithIdConcat(a[1..], b, id);
    }
  }

  /** Inserting a row with another id, anywhere, does not change which rows an id selects. */
  lemma RowsWithIdInsert(rows: seq<UserRow>, k: nat, row: UserRow, other: int)
    requires k <= |rows| && row.userId != other
    ensures RowsWithId(InsertAt(rows, k, row), other) == RowsWithId(rows, other)
  {
    assert InsertAt(rows, k, row) == rows[..k] + ([row] + rows[k..]);
    assert rows == rows[..k] + rows[k..];
    RowsWithIdConcat(rows[..k], [row] + rows[k..], other);
    RowsWithIdConcat([row], rows[k..], other);
    RowsWithIdConcat(rows[..k], rows[k..], other);
  }
}
