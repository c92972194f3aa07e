/** internal/server/domain/record/usecase: the record operations behind the
    HTTP handlers. Update and Delete check that the caller owns the record
    before touching it; the listing decrypts every record of the user and
    fails as a whole when any one of them does not decrypt. */
module RecordUsecase {
  import opened Errors
  import opened Wrappers
  import opened Codec
  import opened Datacrypt
  import opened RecordTable

  /** dto.ReadRecord: a row with its payload decrypted. */
  datatype ReadRecord = ReadRecord(
    id: string,
    meta: string,
    info: Content,
    version: int,
    updatedAt: int,
    dataType: string)

  function ReadOf(row: Row, info: Content): (r: ReadRecord)
    ensures r.id == row.id && r.meta == row.meta && r.info == info
    ensures r.version == row.version && r.updatedAt == row.updatedAt && r.dataType == row.dataType
  {
    ReadRecord(row.id, row.meta, info, row.version, row.updatedAt, row.dataType)
  }

  /** The listing of `rows`, decrypted front to back; the first row that
      does not decrypt decides the error. */
  function ReadAll(c: Crypter, rows: seq<Row>): Result<seq<ReadRecord>>
    decreases |rows|
  {
    if |rows| == 0 then Ok([])
    else
      match ReadAll(c, rows[..|rows| - 1])
      case Err(e) => Err(e)
      case Ok(prefix) =>
        match Decrypt(c, rows[|rows| - 1].info)
        case Err(e) => Err(e)
        case Ok(info) => Ok(prefix + [ReadOf(rows[|rows| - 1], info)])
  }

  /** The listing succeeds exactly when every row decrypts; it then has one
      entry per row, in order, with the row's fields and decrypted payload. */
  lemma {:induction false} ReadAllOk(c: Crypter, rows: seq<Row>)
    ensures ReadAll(c, rows).Ok? <==> forall k :: 0 <= k < |rows| ==> Decrypt(c, rows[k].info).Ok?
    ensures ReadAll(c, rows).Ok? ==>
      |ReadAll(c, rows).value| == |rows|
      && forall k :: 0 <= k < |rows| ==> ReadAll(c, rows).value[k] == ReadOf(rows[k], Decrypt(c, rows[k].info).value)
    decreases |rows|
  {
    if |rows| > 0 {
      var init := rows[..|rows| - 1];
      ReadAllOk(c, init);
      assert forall k :: 0 <= k < |init| ==> init[k] == rows[k];
    }
  }

  /** A failed listing fails with the decryption error of some row. */
  lemma {:induction false} ReadAllErr(c: Crypter, rows: seq<Row>)
    ensures ReadAll(c, rows).Err? ==>
      exists k :: 0 <= k < |rows| && Decrypt(c, rows[k].info) == Err(ReadAll(c, rows).error)
    decreases |rows|
  {
    if |rows| > 0 {
      var init := rows[..|rows| - 1];
      ReadAllErr(c, init);
      if ReadAll(c, init).Err? {
        var k :| 0 <= k < |init| && Decrypt(c, init[k].info) == Err(ReadAll(c, init).error);
        assert init[k] == rows[k];
      }
    }
  }

  /** Once a prefix fails, the whole listing fails the same way. */
  lemma {:induction false} ReadAllPrefixErr(c: Crypter, rows: seq<Row>, j: nat)
    requires j <= |rows| && ReadAll(c, rows[..j]).Err?
    ensures ReadAll(c, rows) == ReadAll(c, rows[..j])
    decreases |rows| - j
  {
    if j < |rows| {
      assert rows[..j + 1][..j] == rows[..j];
      ReadAllPrefixErr(c, rows, j + 1);
    } else {
      assert rows[..j] == rows;
    }
  }

  /** Every row is sealed under the crypter's secret. */
  ghost predicate Readable(rows: seq<Row>, c: Crypter) {
    forall k :: 0 <= k < |rows| ==> rows[k].info.key == DeriveKey(c.secret)
  }

  /** A table written only through one crypter lists without error. */
  lemma ReadableLists(rows: seq<Row>, c: Crypter, userID: string)
    requires Readable(rows, c)
    ensures ReadAll(c, OwnedBy(rows, userID)).Ok?
  {
    ReadAllOk(c, OwnedBy(rows, userID));
  }

  /** recordlUsecase. */
  class Usecase {
    const table: Table
    const crypt: Crypter

    constructor (t: Table, c: Crypter)
      ensures table == t && crypt == c
    {
      table, crypt := t, c;
    }

    /** Update: replace the payload and meta of a record the caller owns. */
    method Update(userID: string, id: string, m: Model, now: int) returns (err: Option<Error>)
      requires table.Valid()
      modifies table`rows
      ensures table.Valid()
      ensures Readable(old(table.rows), crypt) ==> Readable(table.rows, crypt)
      ensures !table.online ==> err == Some(DbError) && table.rows == old(table.rows)
      ensures table.online ==> match Lookup(old(table.rows), id)
        case None => err == Some(RecordNotFound) && table.rows == old(table.rows)
        case Some(row) =>
          if row.userID != userID then err == Some(AccessDenied) && table.rows == old(table.rows)
          else if m.Unsupported? then err == Some(UndefinedType) && table.rows == old(table.rows)
          else
            err == None
            && table.rows == Updated(old(table.rows), id, Encrypt(crypt, m).value.content, m.meta, now)
    {
      var found := table.GetByID(id);
      if found.Err? {
        return Some(found.error);
      }
      if found.value.userID != userID {
        return Some(AccessDenied);
      }
      var sealed := Encrypt(crypt, m);
      if sealed.Err? {
        return Some(sealed.error);
      }
      err := table.Update(id, sealed.value.content, sealed.value.meta, now);
    }

    /** Create: store a new record for the caller; no ownership check. */
    method Create(userID: string, m: Model, dataType: string, freshId: string, now: int)
      returns (ok: bool, err: Option<Error>)
      requires table.Valid()
      modifies table`rows
      ensures table.Valid()
      ensures Readable(old(table.rows), crypt) ==> Readable(table.rows, crypt)
      ensures ok <==> err.None?
      ensures m.Unsupported? ==> err == Some(UndefinedType) && table.rows == old(table.rows)
      ensures !m.Unsupported? && !table.online ==> err == Some(DbError) && table.rows == old(table.rows)
      ensures !m.Unsupported? && table.online && Lookup(old(table.rows), freshId).Some? ==>
        err == Some(AlreadyExist) && table.rows == old(table.rows)
      ensures !m.Unsupported? && table.online && Lookup(old(table.rows), freshId).None? ==>
        err == None
        && table.rows == [Row(freshId, userID, Encrypt(crypt, m).value.content, dataType, 1, now, m.meta)] + old(table.rows)
    {
      var sealed := Encrypt(crypt, m);
      if sealed.Err? {
        return false, Some(sealed.error);
      }
      ok, err := table.Create(userID, sealed.value.content, dataType, sealed.value.meta, freshId, now);
    }

    /** GetByUser: the caller's records, decrypted, in the table's order. */
    method GetByUser(userID: string) returns (r: Result<seq<ReadRecord>>)
      ensures !table.online ==> r == Err(DbError)
      ensures table.online ==> r == ReadAll(crypt, OwnedBy(table.rows, userID))
    {
      var list := table.GetByUser(userID);
      if list.Err? {
        return Err(list.error);
      }
      var rows := list.value;
      var res: seq<ReadRecord> := [];
      for i := 0 to |rows|
        invariant ReadAll(crypt, rows[..i]) == Ok(res)
      {
        var info := Decrypt(crypt, rows[i].info);
        assert rows[..i + 1][..i] == rows[..i];
        if info.Err? {
          ReadAllPrefixErr(crypt, rows, i + 1);
          return Err(info.error);
        }
        res := res + [ReadOf(rows[i], info.value)];
      }
      assert rows[..|rows|] == rows;
      return Ok(res);
    }

    /** Delete: remove a record the caller owns. */
    method Delete(userID: string, id: string) returns (err: Option<Error>)
      requires table.Valid()
      modifies table`rows
      ensures table.Valid()
      ensures Readable(old(table.rows), crypt) ==> Readable(table.rows, crypt)
      ensures !table.online ==> err == Some(DbError) && table.rows == old(table.rows)
      ensures table.online ==> match Lookup(old(table.rows), id)
        case None => err == Some(RecordNotFound) && table.rows == old(table.rows)
        case Some(row) =>
          if row.userID != userID then err == Some(AccessDenied) && table.rows == old(table.rows)
          else err == None && table.rows == Without(old(table.rows), id)
    {
      var found := table.GetByID(id);
      if found.Err? {
        return Some(found.error);
      }
      if found.value.userID != userID {
        return Some(AccessDenied);
      }
      err := table.Delete(id);
    }
  }
}
