/** The operation history of internal/service/history_service.go. The
    history_records table is a sequence of rows, oldest first; "newest
    first" is the reverse of that order. The outcome of each database call
    and each generated id are supplied by the caller. Ids and Without
    mirror those of ConfigService, over this table's own row type. */
module HistoryService {

  import opened Types
  import opened Errors
  import opened Rows

  const ProduceType: string := "produce"
  const ConsumeType: string := "consume"
  const TestType: string := "test_connection"

  const Table: string := "history_records"

  /** The ids of some rows, in order. */
  function Ids(rows: seq<HistoryRecord>): (ids: seq<string>)
    ensures |ids| == |rows| && forall i :: 0 <= i < |rows| ==> ids[i] == rows[i].id
  {
    if rows == [] then [] else [rows[0].id] + Ids(rows[1..])
  }

  /** No two rows share an id. */
  ghost predicate DistinctIds(rows: seq<HistoryRecord>)
  {
    forall i, j :: 0 <= i < j < |rows| ==> rows[i].id != rows[j].id
  }

  /** The column a query filters on. */
  datatype Column = ConnectionColumn | TypeColumn

  function ColumnValue(r: HistoryRecord, c: Column): string
  {
    match c
    case ConnectionColumn => r.connectionId
    case TypeColumn => r.recordType
  }

  /** `WHERE column = value`: the matching rows, in order. */
  function Where(rows: seq<HistoryRecord>, c: Column, value: string): (r: seq<HistoryRecord>)
    ensures |r| <= |rows|
    ensures forall i :: 0 <= i < |r| ==> ColumnValue(r[i], c) == value
  {
    if rows == [] then []
    else (if ColumnValue(rows[0], c) == value then [rows[0]] else []) + Where(rows[1..], c, value)
  }

  /** A row is selected when, and only when, it is stored and matches. */
  lemma {:induction false} WhereComplete(rows: seq<HistoryRecord>, c: Column, value: string, x: HistoryRecord)
    ensures x in Where(rows, c, value) <==> x in rows && ColumnValue(x, c) == value
  {
    if rows != [] {
      WhereComplete(rows[1..], c, value, x);
      assert rows == [rows[0]] + rows[1..];
    }
  }

  /** Filtering keeps the order: newest first stays newest first. */
  lemma {:induction false} WhereNewest(rows: seq<HistoryRecord>, c: Column, value: string)
    ensures Where(Newest(rows), c, value) == Newest(Where(rows, c, value))
  {
    if rows != [] {
      WhereNewest(rows[1..], c, value);
      var rest := Where(rows[1..], c, value);
      var head: seq<HistoryRecord> := if ColumnValue(rows[0], c) == value then [rows[0]] else [];
      assert Where(rows, c, value) == head + rest;
      calc {
        Where(Newest(rows), c, value);
        Where(Newest(rows[1..]) + [rows[0]], c, value);
        { WhereAppend(Newest(rows[1..]), [rows[0]], c, value);
          assert Where([rows[0]], c, value) == head + Where([], c, value); }
        Newest(rest) + head;
        { if head != [] { assert (head + rest)[1..] == rest; } else { assert head + rest == rest; } }
        Newest(head + rest);
      }
    }
  }

  lemma {:induction false} WhereAppend(a: seq<HistoryRecord>, b: seq<HistoryRecord>, c: Column, value: string)
    ensures Where(a + b, c, value) == Where(a, c, value) + Where(b, c, value)
  {
    if a == [] {
      assert a + b == b;
    } else {
      assert (a + b)[1..] == a[1..] + b;
      WhereAppend(a[1..], b, c, value);
    }
  }

  /** The offset a query skips: only a positive offset counts. */
  function Skip(offset: int, n: nat): (k: nat)
    ensures k <= n
    ensures offset <= 0 ==> k == 0
    ensures 0 < offset <= n ==> k == offset
  {
    if offset <= 0 then 0 else if offset > n then n else offset
  }

  /** `LIMIT limit OFFSET offset`, each applied only when positive: the
      rows from the offset on, at most `limit` of them. */
  function Page(rows: seq<HistoryRecord>, limit: int, offset: int): (r: seq<HistoryRecord>)
    ensures limit <= 0 && offset <= 0 ==> r == rows
    ensures limit > 0 ==> |r| <= limit
    ensures var k := Skip(offset, |rows|);
            k + |r| <= |rows| && r == rows[k..k + |r|]
            && (|r| == |rows| - k || |r| == limit)
  {
    var rest := rows[Skip(offset, |rows|)..];
    if limit > 0 && limit < |rest| then rest[..limit] else rest
  }

  /** Two consecutive pages of one size make the page of twice the size. */
  lemma ConsecutivePages(rows: seq<HistoryRecord>, limit: int, offset: int)
    requires limit > 0 && offset >= 0
    ensures Page(rows, limit, offset) + Page(rows, limit, offset + limit) == Page(rows, 2 * limit, offset)
  {
    var n := |rows|;
    var k := Skip(offset, n);
    var lp := if limit < n - k then limit else n - k;
    assert Page(rows, limit, offset) == rows[k..k + lp];
    var k2 := k + lp;
    assert Skip(offset + limit, n) == k2;
    var lq := if limit < n - k2 then limit else n - k2;
    assert Page(rows, limit, offset + limit) == rows[k2..k2 + lq];
    var lw := if 2 * limit < n - k then 2 * limit else n - k;
    assert Page(rows, 2 * limit, offset) == rows[k..k + lw];
    assert rows[k..k2] + rows[k2..k + lw] == rows[k..k + lw];
  }

  class History {
    var records: seq<HistoryRecord>

    ghost predicate Valid()
      reads this
    {
      DistinctIds(records)
    }

    /** NewHistoryService over an empty table. */
    constructor ()
      ensures Valid() && records == []
    {
      records := [];
    }

    /** AddRecord: a record without an id gets `freshId`; the row is then
        inserted, unless the insert fails or the id is taken. The record
        as it is inserted is returned as `stored`. */
    method AddRecord(record: HistoryRecord, freshId: string, insertErr: Option<Error>)
      returns (err: Option<Error>, stored: HistoryRecord)
      requires Valid()
      modifies this
      ensures Valid()
      ensures stored == record.(id := if record.id == "" then freshId else record.id)
      ensures insertErr.Some? ==> err == insertErr && records == old(records)
      ensures insertErr.None? && stored.id in Ids(old(records)) ==> err == Some(KeyTaken(Table)) && records == old(records)
      ensures insertErr.None? && stored.id !in Ids(old(records)) ==> err == None && records == old(records) + [stored]
    {
      stored := record;
      if record.id == "" {
        stored := record.(id := freshId);
      }
      if insertErr.Some? {
        return insertErr, stored;
      }
      if stored.id in Ids(records) {
        return Some(KeyTaken(Table)), stored;
      }
      records := records + [stored];
      err := None;
    }

    /** The record AddProduceRecord, AddConsumeRecord and AddTestRecord
        insert: a generated id and the given type. */
    static function Tagged(id: string, connectionId: string, recordType: string, topic: string,
                           success: bool, message: string, latency: int): (r: HistoryRecord)
      ensures r.id == id && r.connectionId == connectionId && r.recordType == recordType && r.topic == topic
      ensures r.success == success && r.message == message && r.latency == latency
    {
      HistoryRecord(id, connectionId, recordType, topic, success, message, latency)
    }

    method AddProduceRecord(connectionId: string, topic: string, success: bool, message: string, latency: int,
                            freshId: string, insertErr: Option<Error>) returns (err: Option<Error>)
      requires Valid()
      modifies this
      ensures Valid()
      ensures err.None? ==> records == old(records) + [Tagged(freshId, connectionId, ProduceType, topic, success, message, latency)]
      ensures err.Some? ==> records == old(records)
      ensures err.None? <==> insertErr.None? && freshId !in Ids(old(records))
    {
      var stored;
      err, stored := AddRecord(Tagged(freshId, connectionId, ProduceType, topic, success, message, latency), freshId, insertErr);
    }

    method AddConsumeRecord(connectionId: string, topic: string, success: bool, message: string, latency: int,
                            freshId: string, insertErr: Option<Error>) returns (err: Option<Error>)
      requires Valid()
      modifies this
      ensures Valid()
      ensures err.None? ==> records == old(records) + [Tagged(freshId, connectionId, ConsumeType, topic, success, message, latency)]
      ensures err.Some? ==> records == old(records)
      ensures err.None? <==> insertErr.None? && freshId !in Ids(old(records))
    {
      var stored;
      err, stored := AddRecord(Tagged(freshId, connectionId, ConsumeType, topic, success, message, latency), freshId, insertErr);
    }

    /** A connection test has no topic. */
    method AddTestRecord(connectionId: string, success: bool, message: string, latency: int,
                         freshId: string, insertErr: Option<Error>) returns (err: Option<Error>)
      requires Valid()
      modifies this
      ensures Valid()
      ensures err.None? ==> records == old(records) + [Tagged(freshId, connectionId, TestType, "", success, message, latency)]
      ensures err.Some? ==> records == old(records)
      ensures err.None? <==> insertErr.None? && freshId !in Ids(old(records))
    {
      var stored;
      err, stored := AddRecord(Tagged(freshId, connectionId, TestType, "", success, message, latency), freshId, insertErr);
    }

    /** GetRecords: a page of all records, newest first. */
    function GetRecords(limit: int, offset: int, queryErr: Option<Error>): (r: Result<seq<HistoryRecord>, Error>)
      reads this
      ensures queryErr.Some? ==> r == Err(Wrapped("failed to get records: ", queryErr.value))
      ensures queryErr.None? ==> r == Ok(Page(Newest(records), limit, offset))
    {
      if queryErr.Some? then Err(Wrapped("failed to get records: ", queryErr.value))
      else Ok(Page(Newest(records), limit, offset))
    }

    /** GetRecordsByConnection: a page of that connection's records,
        newest first. */
    function GetRecordsByConnection(connectionId: string, limit: int, offset: int, queryErr: Option<Error>)
      : (r: Result<seq<HistoryRecord>, Error>)
      reads this
      ensures queryErr.Some? ==> r == Err(Wrapped("failed to get records by connection: ", queryErr.value))
      ensures queryErr.None? ==> r.Ok? && forall x :: x in r.value ==> x in records && x.connectionId == connectionId
      ensures queryErr.None? ==> r == Ok(Page(Newest(Where(records, ConnectionColumn, connectionId)), limit, offset))
      ensures queryErr.None? && limit <= 0 && offset <= 0 ==> r == Ok(Newest(Where(records, ConnectionColumn, connectionId)))
    {
      if queryErr.Some? then Err(Wrapped("failed to get records by connection: ", queryErr.value))
      else
        var p := Page(Where(Newest(records), ConnectionColumn, connectionId), limit, offset);
        WhereNewest(records, ConnectionColumn, connectionId);
        PageOfWhere(records, ConnectionColumn, connectionId, limit, offset);
        Ok(p)
    }

    /** GetRecordsByType: a page of the records of that type, newest
        first. */
    function GetRecordsByType(recordType: string, limit: int, offset: int, queryErr: Option<Error>)
      : (r: Result<seq<HistoryRecord>, Error>)
      reads this
      ensures queryErr.Some? ==> r == Err(Wrapped("failed to get records by type: ", queryErr.value))
      ensures queryErr.None? ==> r.Ok? && forall x :: x in r.value ==> x in records && x.recordType == recordType
      ensures queryErr.None? ==> r == Ok(Page(Newest(Where(records, TypeColumn, recordType)), limit, offset))
      ensures queryErr.None? && limit <= 0 && offset <= 0 ==> r == Ok(Newest(Where(records, TypeColumn, recordType)))
    {
      if queryErr.Some? then Err(Wrapped("failed to get records by type: ", queryErr.value))
      else
        var p := Page(Where(Newest(records), TypeColumn, recordType), limit, offset);
        WhereNewest(records, TypeColumn, recordType);
        PageOfWhere(records, TypeColumn, recordType, limit, offset);
        Ok(p)
    }

    /** DeleteRecord: a failing delete is reported, a missing id is "record
        not found", otherwise exactly that row goes. */
    method DeleteRecord(id: string, deleteErr: Option<Error>) returns (err: Option<Error>)
      requires Valid()
      modifies this
      ensures Valid()
      ensures deleteErr.Some? ==> err == Some(Wrapped("failed to delete record: ", deleteErr.value)) && records == old(records)
      ensures deleteErr.None? && id !in Ids(old(records)) ==> err == Some(Foreign("record not found: " + id)) && records == old(records)
      ensures deleteErr.None? && id in Ids(old(records)) ==>
                err == None && records == Without(old(records), id) && id !in Ids(records)
                && forall x :: x in records <==> x in old(records) && x.id != id
    {
      if deleteErr.Some? {
        return Some(Wrapped("failed to delete record: ", deleteErr.value));
      }
      if id !in Ids(records) {
        return Some(Foreign("record not found: " + id));
      }
      WithoutDistinct(records, id);
      records := Without(records, id);
      err := None;
    }

    /** ClearRecords empties the table unless the delete fails. */
    method ClearRecords(clearErr: Option<Error>) returns (err: Option<Error>)
      requires Valid()
      modifies this
      ensures Valid()
      ensures err == clearErr
      ensures clearErr.None? ==> records == []
      ensures clearErr.Some? ==> records == old(records)
    {
      if clearErr.Some? {
        return clearErr;
      }
      records := [];
      err := None;
    }
  }

  /** The rows left by `DELETE ... WHERE id = ?`. */
  function Without(rows: seq<HistoryRecord>, id: string): (r: seq<HistoryRecord>)
    ensures forall x :: x in r <==> x in rows && x.id != id
    ensures id !in Ids(r)
  {
    if rows == [] then []
    else
      var rest := Without(rows[1..], id);
      assert forall x :: x in rows <==> x == rows[0] || x in rows[1..];
      if rows[0].id == id then rest else [rows[0]] + rest
  }

  /** Deleting keeps the ids distinct. */
  lemma {:induction false} WithoutDistinct(rows: seq<HistoryRecord>, id: string)
    requires DistinctIds(rows)
    ensures DistinctIds(Without(rows, id))
  {
    if rows != [] {
      WithoutDistinct(rows[1..], id);
      var rest := Without(rows[1..], id);
      if rows[0].id != id {
        forall j | 0 <= j < |rest|
          ensures rows[0].id != rest[j].id
        {
          assert rest[j] in rows[1..];
          var k :| 0 <= k < |rows[1..]| && rows[1..][k] == rest[j];
          assert rows[k + 1] == rest[j];
        }
        DistinctCons(rows[0], rest);
      }
    }
  }

  lemma DistinctCons(h: HistoryRecord, t: seq<HistoryRecord>)
    requires DistinctIds(t) && forall j :: 0 <= j < |t| ==> h.id != t[j].id
    ensures DistinctIds([h] + t)
  {
    var r := [h] + t;
    forall i, j | 0 <= i < j < |r|
      ensures r[i].id != r[j].id
    {
      assert r[j] == t[j - 1];
      if i > 0 {
        assert r[i] == t[i - 1];
      }
    }
  }

  /** A page holds only stored rows. */
  lemma PageSub(rows: seq<HistoryRecord>, limit: int, offset: int, x: HistoryRecord)
    requires x in Page(rows, limit, offset)
    ensures x in rows
  {
    var p := Page(rows, limit, offset);
    var k := Skip(offset, |rows|);
    var i :| 0 <= i < |p| && p[i] == x;
    assert rows[k + i] == x;
  }

  /** Every row of a page of a filtered query is a stored, matching row. */
  lemma PageOfWhere(rows: seq<HistoryRecord>, c: Column, value: string, limit: int, offset: int)
    ensures Page(Where(Newest(rows), c, value), limit, offset) == Page(Newest(Where(rows, c, value)), limit, offset)
    ensures forall x :: x in Page(Where(Newest(rows), c, value), limit, offset) ==> x in rows && ColumnValue(x, c) == value
  {
    WhereNewest(rows, c, value);
    var w := Where(Newest(rows), c, value);
    forall x | x in Page(w, limit, offset)
      ensures x in rows && ColumnValue(x, c) == value
    {
      PageSub(w, limit, offset, x);
      WhereComplete(Newest(rows), c, value, x);
      NewestSameRows(rows, x);
    }
  }
}
