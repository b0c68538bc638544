/** The stored connection configurations of
    internal/service/config_service.go. The connection_configs table is a
    sequence of rows, oldest first, and the service keeps both the ids and
    the names of its rows unique. The outcome of each database call and
    each generated id are supplied by the caller. Ids and Without are
    defined here over ConnectionConfig rows and again in HistoryService
    over HistoryRecord rows: the two row types share no supertype, and a
    single version taking the key as a function value would carry that
    function into every contract that mentions it. */
module ConfigService {

  import opened Types
  import opened Errors
  import opened Rows

  const Table: string := "connection_configs"

  /** The ids of some rows, in order. */
  function Ids(rows: seq<ConnectionConfig>): (ids: seq<string>)
    ensures |ids| == |rows| && forall i :: 0 <= i < |rows| ==> ids[i] == rows[i].id
  {
    if rows == [] then [] else [rows[0].id] + Ids(rows[1..])
  }

  /** Some row other than the one with id `except` has this name:
      `WHERE name = ? AND id != ?` counts more than zero rows. */
  ghost predicate NameTaken(rows: seq<ConnectionConfig>, name: string, except: Option<string>)
  {
    exists i :: 0 <= i < |rows| && rows[i].name == name && Some(rows[i].id) != except
  }

  /** The name check as the service makes it. */
  function NameCount(rows: seq<ConnectionConfig>, name: string, except: Option<string>): (n: nat)
    ensures n > 0 <==> NameTaken(rows, name, except)
  {
    if rows == [] then 0
    else
      var rest := NameCount(rows[1..], name, except);
      assert NameTaken(rows, name, except) <==>
             (rows[0].name == name && Some(rows[0].id) != except) || NameTaken(rows[1..], name, except) by {
        if NameTaken(rows[1..], name, except) {
          var i :| 0 <= i < |rows[1..]| && rows[1..][i].name == name && Some(rows[1..][i].id) != except;
          assert rows[i + 1] == rows[1..][i];
        }
        if NameTaken(rows, name, except) {
          var i :| 0 <= i < |rows| && rows[i].name == name && Some(rows[i].id) != except;
          if i > 0 {
            assert rows[1..][i - 1] == rows[i];
          }
        }
      }
      (if rows[0].name == name && Some(rows[0].id) != except then 1 else 0) + rest
  }

  /** No two rows share an id or a name. */
  ghost predicate Unique(rows: seq<ConnectionConfig>)
  {
    forall i, j :: 0 <= i < j < |rows| ==> rows[i].id != rows[j].id && rows[i].name != rows[j].name
  }

  /** The position of the row with this id, when there is one. */
  function IndexOf(rows: seq<ConnectionConfig>, id: string): (r: Option<nat>)
    ensures r.None? <==> id !in Ids(rows)
    ensures r.Some? ==> r.value < |rows| && rows[r.value].id == id
    ensures r.Some? ==> forall j :: 0 <= j < r.value ==> rows[j].id != id
  {
    if rows == [] then None
    else if rows[0].id == id then Some(0)
    else
      var r := IndexOf(rows[1..], id);
      assert Ids(rows) == [rows[0].id] + Ids(rows[1..]);
      if r.None? then None else Some(r.value + 1)
  }

  /** The rows of one broker type, in order. */
  function OfType(rows: seq<ConnectionConfig>, mqType: MQType): (r: seq<ConnectionConfig>)
    ensures forall x :: x in r <==> x in rows && x.mqType == mqType
  {
    if rows == [] then []
    else
      assert forall x :: x in rows <==> x == rows[0] || x in rows[1..];
      (if rows[0].mqType == mqType then [rows[0]] else []) + OfType(rows[1..], mqType)
  }

  /** The rows left by `DELETE ... WHERE id = ?`. */
  function Without(rows: seq<ConnectionConfig>, id: string): (r: seq<ConnectionConfig>)
    ensures forall x :: x in r <==> x in rows && x.id != id
    ensures id !in Ids(r)
    ensures |r| <= |rows|
  {
    if rows == [] then []
    else
      var rest := Without(rows[1..], id);
      assert forall x :: x in rows <==> x == rows[0] || x in rows[1..];
      if rows[0].id == id then rest else [rows[0]] + rest
  }

  /** Deleting keeps the remaining rows unique. */
  lemma {:induction false} WithoutUnique(rows: seq<ConnectionConfig>, id: string)
    requires Unique(rows)
    ensures Unique(Without(rows, id))
  {
    if rows != [] {
      WithoutUnique(rows[1..], id);
      var rest := Without(rows[1..], id);
      if rows[0].id != id {
        forall j | 0 <= j < |rest|
          ensures rows[0].id != rest[j].id && rows[0].name != rest[j].name
        {
          assert rest[j] in rows[1..];
          var k :| 0 <= k < |rows[1..]| && rows[1..][k] == rest[j];
          assert rows[k + 1] == rest[j];
        }
        UniqueCons(rows[0], rest);
      }
    }
  }

  lemma UniqueCons(h: ConnectionConfig, t: seq<ConnectionConfig>)
    requires Unique(t) && forall j :: 0 <= j < |t| ==> h.id != t[j].id && h.name != t[j].name
    ensures Unique([h] + t)
  {
    var r := [h] + t;
    forall i, j | 0 <= i < j < |r|
      ensures r[i].id != r[j].id && r[i].name != r[j].name
    {
      assert r[j] == t[j - 1];
      if i > 0 {
        assert r[i] == t[i - 1];
      }
    }
  }

  class Configs {
    var rows: seq<ConnectionConfig>

    ghost predicate Valid()
      reads this
    {
      Unique(rows)
    }

    /** NewConfigService over an empty table. */
    constructor ()
      ensures Valid() && rows == []
    {
      rows := [];
    }

    /** CreateConnection: a configuration without an id gets `freshId`
        (returned as `stored`), a name held by any stored connection is
        refused, and then the row is inserted unless the insert fails or
        the id is taken. */
    method CreateConnection(config: ConnectionConfig, freshId: string, countErr: Option<Error>, insertErr: Option<Error>)
      returns (err: Option<Error>, stored: ConnectionConfig)
      requires Valid()
      modifies this
      ensures Valid()
      ensures stored == config.(id := if config.id == "" then freshId else config.id)
      ensures countErr.Some? ==> err == Some(Wrapped("failed to check connection name: ", countErr.value))
      ensures countErr.None? && NameTaken(old(rows), config.name, None) ==>
                err == Some(Foreign("connection name '" + config.name + "' already exists"))
      ensures countErr.None? && !NameTaken(old(rows), config.name, None) && insertErr.Some? ==> err == insertErr
      ensures countErr.None? && !NameTaken(old(rows), config.name, None) && insertErr.None? && stored.id in Ids(old(rows)) ==>
                err == Some(KeyTaken(Table))
      ensures err.None? <==>
                countErr.None? && !NameTaken(old(rows), config.name, None) && insertErr.None? && stored.id !in Ids(old(rows))
      ensures err.None? ==> rows == old(rows) + [stored]
      ensures err.Some? ==> rows == old(rows)
    {
      stored := config;
      if config.id == "" {
        stored := config.(id := freshId);
      }
      if countErr.Some? {
        return Some(Wrapped("failed to check connection name: ", countErr.value)), stored;
      }
      var count := NameCount(rows, config.name, None);
      if count > 0 {
        return Some(Foreign("connection name '" + config.name + "' already exists")), stored;
      }
      if insertErr.Some? {
        return insertErr, stored;
      }
      if stored.id in Ids(rows) {
        return Some(KeyTaken(Table)), stored;
      }
      InsertKeepsUnique(rows, stored);
      rows := rows + [stored];
      err := None;
    }

    /** UpdateConnection: the row must exist, no other row may hold the
        new name (keeping its own name is allowed), and then the row is
        saved unless the save fails. */
    method UpdateConnection(config: ConnectionConfig, findErr: Option<Error>, countErr: Option<Error>, saveErr: Option<Error>)
      returns (err: Option<Error>)
      requires Valid()
      modifies this
      ensures Valid()
      ensures findErr.Some? ==> err == Some(Wrapped("failed to find connection: ", findErr.value))
      ensures findErr.None? && config.id !in Ids(old(rows)) ==> err == Some(Foreign("connection not found: " + config.id))
      ensures findErr.None? && config.id in Ids(old(rows)) && countErr.Some? ==>
                err == Some(Wrapped("failed to check connection name: ", countErr.value))
      ensures findErr.None? && config.id in Ids(old(rows)) && countErr.None? && NameTaken(old(rows), config.name, Some(config.id)) ==>
                err == Some(Foreign("connection name '" + config.name + "' already exists"))
      ensures err.None? <==>
                findErr.None? && config.id in Ids(old(rows)) && countErr.None?
                && !NameTaken(old(rows), config.name, Some(config.id)) && saveErr.None?
      ensures err.None? ==> var i := IndexOf(old(rows), config.id).value; rows == old(rows)[i := config]
      ensures err.Some? ==> rows == old(rows)
    {
      if findErr.Some? {
        return Some(Wrapped("failed to find connection: ", findErr.value));
      }
      var i := IndexOf(rows, config.id);
      if i.None? {
        return Some(Foreign("connection not found: " + config.id));
      }
      if countErr.Some? {
        return Some(Wrapped("failed to check connection name: ", countErr.value));
      }
      var count := NameCount(rows, config.name, Some(config.id));
      if count > 0 {
        return Some(Foreign("connection name '" + config.name + "' already exists"));
      }
      if saveErr.Some? {
        return saveErr;
      }
      ReplaceKeepsUnique(rows, i.value, config);
      rows := rows[i.value := config];
      err := None;
    }

    /** DeleteConnection: a failing delete is reported, a missing id is not
        found, otherwise exactly that row goes. */
    method DeleteConnection(id: string, deleteErr: Option<Error>) returns (err: Option<Error>)
      requires Valid()
      modifies this
      ensures Valid()
      ensures deleteErr.Some? ==> err == Some(Wrapped("failed to delete connection: ", deleteErr.value)) && rows == old(rows)
      ensures deleteErr.None? && id !in Ids(old(rows)) ==> err == Some(Foreign("connection not found: " + id)) && rows == old(rows)
      ensures deleteErr.None? && id in Ids(old(rows)) ==>
                err == None && rows == Without(old(rows), id) && |rows| == |old(rows)| - 1
    {
      if deleteErr.Some? {
        return Some(Wrapped("failed to delete connection: ", deleteErr.value));
      }
      if id !in Ids(rows) {
        return Some(Foreign("connection not found: " + id));
      }
      WithoutUnique(rows, id);
      WithoutOne(rows, id);
      rows := Without(rows, id);
      err := None;
    }

    /** GetConnection: the stored configuration with this id. */
    function GetConnection(id: string, getErr: Option<Error>): (r: Result<ConnectionConfig, Error>)
      reads this
      ensures getErr.Some? ==> r == Err(Wrapped("failed to get connection: ", getErr.value))
      ensures getErr.None? && id !in Ids(rows) ==> r == Err(Foreign("connection not found: " + id))
      ensures getErr.None? && id in Ids(rows) ==> r.Ok? && r.value in rows && r.value.id == id
      ensures r.Ok? <==> getErr.None? && id in Ids(rows)
    {
      if getErr.Some? then Err(Wrapped("failed to get connection: ", getErr.value))
      else
        var i := IndexOf(rows, id);
        if i.None? then Err(Foreign("connection not found: " + id)) else Ok(rows[i.value])
    }

    /** ListConnections: every stored configuration, newest first. */
    function ListConnections(listErr: Option<Error>): (r: Result<seq<ConnectionConfig>, Error>)
      reads this
      ensures listErr.Some? ==> r == Err(Wrapped("failed to list connections: ", listErr.value))
      ensures listErr.None? ==> r == Ok(Newest(rows))
    {
      if listErr.Some? then Err(Wrapped("failed to list connections: ", listErr.value)) else Ok(Newest(rows))
    }

    /** ListConnectionsByType: exactly the stored configurations of that
        type, newest first. */
    function ListConnectionsByType(mqType: MQType, listErr: Option<Error>): (r: Result<seq<ConnectionConfig>, Error>)
      reads this
      ensures listErr.Some? ==> r == Err(Wrapped("failed to list connections by type: ", listErr.value))
      ensures listErr.None? ==> r == Ok(Newest(OfType(rows, mqType)))
    {
      if listErr.Some? then Err(Wrapped("failed to list connections by type: ", listErr.value))
      else Ok(Newest(OfType(rows, mqType)))
    }

    /** The listing by type holds exactly the stored rows of that type. */
    lemma ListByTypeExact(mqType: MQType, x: ConnectionConfig)
      ensures x in ListConnectionsByType(mqType, None).value <==> x in rows && x.mqType == mqType
    {
      NewestSameRows(OfType(rows, mqType), x);
    }

    /** A stored connection can be found by its id, and it is that row. */
    lemma GetFindsStored(i: nat)
      requires Valid() && i < |rows|
      ensures GetConnection(rows[i].id, None) == Ok(rows[i])
    {
      var k := IndexOf(rows, rows[i].id);
      assert rows[i].id in Ids(rows) by {
        assert Ids(rows)[i] == rows[i].id;
      }
    }
  }

  /** Appending a row with a fresh id and a fresh name keeps the rows
      unique. */
  lemma InsertKeepsUnique(rows: seq<ConnectionConfig>, row: ConnectionConfig)
    requires Unique(rows) && row.id !in Ids(rows) && !NameTaken(rows, row.name, None)
    ensures Unique(rows + [row])
  {
    forall i | 0 <= i < |rows|
      ensures rows[i].id != row.id && rows[i].name != row.name
    {
      assert Ids(rows)[i] == rows[i].id;
    }
  }

  /** Replacing the row with an id by one with the same id, under a name
      no other row holds, keeps the rows unique. */
  lemma ReplaceKeepsUnique(rows: seq<ConnectionConfig>, i: nat, row: ConnectionConfig)
    requires Unique(rows) && i < |rows| && rows[i].id == row.id && !NameTaken(rows, row.name, Some(row.id))
    ensures Unique(rows[i := row])
  {
    forall j | 0 <= j < |rows| && j != i
      ensures rows[j].name != row.name && rows[j].id != row.id
    {
    }
  }

  /** With unique ids, deleting a stored id removes exactly one row. */
  lemma {:induction false} WithoutOne(rows: seq<ConnectionConfig>, id: string)
    requires Unique(rows) && id in Ids(rows)
    ensures |Without(rows, id)| == |rows| - 1
  {
    assert Ids(rows) == [rows[0].id] + Ids(rows[1..]);
    if rows[0].id == id {
      WithoutAbsent(rows[1..], id);
    } else {
      WithoutOne(rows[1..], id);
    }
  }

  lemma {:induction false} WithoutAbsent(rows: seq<ConnectionConfig>, id: string)
    requires forall j :: 0 <= j < |rows| ==> rows[j].id != id
    ensures Without(rows, id) == rows
  {
    if rows != [] {
      WithoutAbsent(rows[1..], id);
    }
  }
}
