/** internal/server/domain/record/repository, seen through the RecordRepo
    interface the use case depends on: the `records` table as a list of
    rows, most recently written first, which is the order the user listing
    returns them in when the clock does not run backwards. A database that
    is down answers every statement with DbError. */
module RecordTable {
  import opened Errors
  import opened Wrappers
  import opened Codec
  import opened Datacrypt

  /** record.Record: one row of `records`. */
  datatype Row = Row(
    id: string,
    userID: string,
    info: Blob<Content>,
    dataType: string,
    version: int,
    updatedAt: int,
    meta: string)

  /** The primary key: no two rows share an id. */
  ghost predicate DistinctIds(rows: seq<Row>) {
    forall i, j :: 0 <= i < j < |rows| ==> rows[i].id != rows[j].id
  }

  /** The row with the given id. */
  function Lookup(rows: seq<Row>, id: string): (r: Option<Row>)
    ensures r.Some? ==> r.value in rows && r.value.id == id
    ensures r.None? ==> forall k :: 0 <= k < |rows| ==> rows[k].id != id
  {
    if |rows| == 0 then None
    else if rows[0].id == id then Some(rows[0])
    else Lookup(rows[1..], id)
  }

  /** The table without the row of the given id. */
  function Without(rows: seq<Row>, id: string): (r: seq<Row>)
    ensures forall k :: 0 <= k < |r| ==> r[k].id != id && r[k] in rows
    ensures |r| <= |rows|
  {
    if |rows| == 0 then []
    else if rows[0].id == id then Without(rows[1..], id)
    else [rows[0]] + Without(rows[1..], id)
  }

  /** The rows of one user, in table order. */
  function OwnedBy(rows: seq<Row>, userID: string): (r: seq<Row>)
    ensures forall k :: 0 <= k < |r| ==> r[k].userID == userID && r[k] in rows
  {
    if |rows| == 0 then []
    else if rows[0].userID == userID then [rows[0]] + OwnedBy(rows[1..], userID)
    else OwnedBy(rows[1..], userID)
  }

  /** The table after `UPDATE ... WHERE id`: the row, if present, gets the
      new payload and meta, one more version and the current time, and
      moves to the front; without such a row nothing changes. */
  function Updated(rows: seq<Row>, id: string, info: Blob<Content>, meta: string, now: int): seq<Row> {
    match Lookup(rows, id)
    case None => rows
    case Some(row) => [row.(info := info, meta := meta, version := row.version + 1, updatedAt := now)] + Without(rows, id)
  }

  /** Removing a row only removes: every other row keeps its lookup. */
  lemma {:induction false} LookupWithout(rows: seq<Row>, id: string, other: string)
    ensures Lookup(Without(rows, id), other) == if other == id then None else Lookup(rows, other)
  {
    if |rows| > 0 {
      LookupWithout(rows[1..], id, other);
      if rows[0].id != id {
        assert ([rows[0]] + Without(rows[1..], id))[1..] == Without(rows[1..], id);
      }
    }
  }

  /** Removing a row keeps the ids distinct. */
  lemma {:induction false} WithoutKeepsDistinct(rows: seq<Row>, id: string)
    requires DistinctIds(rows)
    ensures DistinctIds(Without(rows, id))
  {
    if |rows| > 0 {
      assert DistinctIds(rows[1..]) by {
        forall i, j | 0 <= i < j < |rows[1..]| ensures rows[1..][i].id != rows[1..][j].id {
          assert rows[1..][i] == rows[i + 1] && rows[1..][j] == rows[j + 1];
        }
      }
      WithoutKeepsDistinct(rows[1..], id);
      if rows[0].id != id {
        var rest := Without(rows[1..], id);
        forall k | 0 <= k < |rest| ensures rest[k].id != rows[0].id {
          var j :| 0 <= j < |rows[1..]| && rows[1..][j] == rest[k];
          assert rows[j + 1] == rest[k];
        }
      }
    }
  }

  /** An updated table still has distinct ids. */
  lemma UpdatedKeepsDistinct(rows: seq<Row>, id: string, info: Blob<Content>, meta: string, now: int)
    requires DistinctIds(rows)
    ensures DistinctIds(Updated(rows, id, info, meta, now))
  {
    if Lookup(rows, id).Some? {
      WithoutKeepsDistinct(rows, id);
    }
  }

  /** After an update the row carries the new payload, meta and time and
      its version is one higher; every other row is as before. */
  lemma UpdateThenLookup(rows: seq<Row>, id: string, info: Blob<Content>, meta: string, now: int, other: string)
    ensures var after := Lookup(Updated(rows, id, info, meta, now), other);
      if other != id then after == Lookup(rows, other)
      else match Lookup(rows, id)
        case None => after.None?
        case Some(row) => after == Some(row.(info := info, meta := meta, version := row.version + 1, updatedAt := now))
  {
    LookupWithout(rows, id, other);
  }

  /** A user's listing holds exactly that user's rows, in table order. */
  lemma {:induction false} OwnedByExactly(rows: seq<Row>, userID: string, row: Row)
    ensures row in OwnedBy(rows, userID) <==> row in rows && row.userID == userID
  {
    if |rows| > 0 {
      OwnedByExactly(rows[1..], userID, row);
      assert rows == [rows[0]] + rows[1..];
    }
  }

  /** recordRepository. */
  class Table {
    var rows: seq<Row>
    var online: bool

    ghost predicate Valid()
      reads this
    {
      DistinctIds(rows)
    }

    constructor (initial: seq<Row>, up: bool)
      requires DistinctIds(initial)
      ensures Valid() && rows == initial && online == up
    {
      rows, online := initial, up;
    }

    /** GetByID: the row, or RecordNotFound when no row has that id. */
    method GetByID(id: string) returns (r: Result<Row>)
      ensures !online ==> r == Err(DbError)
      ensures online ==> match Lookup(rows, id)
        case None => r == Err(RecordNotFound)
        case Some(row) => r == Ok(row)
    {
      if !online {
        return Err(DbError);
      }
      var found := Lookup(rows, id);
      if found.None? {
        return Err(RecordNotFound);
      }
      return Ok(found.value);
    }

    /** GetByUser: the user's rows, newest first. */
    method GetByUser(userID: string) returns (r: Result<seq<Row>>)
      ensures !online ==> r == Err(DbError)
      ensures online ==> r == Ok(OwnedBy(rows, userID))
    {
      if !online {
        return Err(DbError);
      }
      return Ok(OwnedBy(rows, userID));
    }

    /** Create: insert a row of version 1 under the id the database hands
        out; an id already in use is a unique violation. */
    method Create(userID: string, info: Blob<Content>, dataType: string, meta: string, freshId: string, now: int)
      returns (ok: bool, err: Option<Error>)
      requires Valid()
      modifies this`rows
      ensures Valid()
      ensures ok <==> err.None?
      ensures !online ==> err == Some(DbError) && rows == old(rows)
      ensures online && Lookup(old(rows), freshId).Some? ==> err == Some(AlreadyExist) && rows == old(rows)
      ensures online && Lookup(old(rows), freshId).None? ==>
        err == None && rows == [Row(freshId, userID, info, dataType, 1, now, meta)] + old(rows)
    {
      if !online {
        return false, Some(DbError);
      }
      if Lookup(rows, freshId).Some? {
        return false, Some(AlreadyExist);
      }
      rows := [Row(freshId, userID, info, dataType, 1, now, meta)] + rows;
      return true, None;
    }

    /** Update: `UPDATE ... WHERE id` — no error when no row matches. */
    method Update(id: string, info: Blob<Content>, meta: string, now: int) returns (err: Option<Error>)
      requires Valid()
      modifies this`rows
      ensures Valid()
      ensures !online ==> err == Some(DbError) && rows == old(rows)
      ensures online ==> err == None && rows == Updated(old(rows), id, info, meta, now)
    {
      if !online {
        return Some(DbError);
      }
      UpdatedKeepsDistinct(rows, id, info, meta, now);
      rows := Updated(rows, id, info, meta, now);
      return None;
    }

    /** Delete: `DELETE ... WHERE id` — no error when no row matches. */
    method Delete(id: string) returns (err: Option<Error>)
      requires Valid()
      modifies this`rows
      ensures Valid()
      ensures !online ==> err == Some(DbError) && rows == old(rows)
      ensures online ==> err == None && rows == Without(old(rows), id)
    {
      if !online {
        return Some(DbError);
      }
      WithoutKeepsDistinct(rows, id);
      rows := Without(rows, id);
      return None;
    }
  }
}
