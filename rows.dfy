/** The database tables of internal/service as the services see them: a
    sequence of rows in insertion order, queried newest first, with one
    row per primary key. The database itself and its errors are outside
    the model; each call's failure is supplied by the caller. */
module Rows {

  import opened Errors

  /** The rows, newest first: the reverse of insertion order. */
  function Newest<T>(rows: seq<T>): (r: seq<T>)
    ensures |r| == |rows| && forall i :: 0 <= i < |rows| ==> r[i] == rows[|rows| - 1 - i]
  {
    if rows == [] then [] else Newest(rows[1..]) + [rows[0]]
  }

  /** Reading newest first loses no row and adds none. */
  lemma NewestSameRows<T>(rows: seq<T>, x: T)
    ensures x in Newest(rows) <==> x in rows
  {
    if x in rows {
      var i :| 0 <= i < |rows| && rows[i] == x;
      assert Newest(rows)[|rows| - 1 - i] == x;
    }
  }

  /** The database's refusal of a second row with a primary key that is
      already stored in `table`. */
  function KeyTaken(table: string): Error
  {
    Foreign("UNIQUE constraint failed: " + table + ".id")
  }
}
