/**
 * A database table seen from the page scripts: the rows it holds, in insertion
 * order. An INSERT is an append that the database may refuse; the outcome of
 * executing the statement is a parameter.
 */
module Db {

  class Table<T> {
    var rows: seq<T>

    constructor (initial: seq<T>)
      ensures rows == initial
    {
      rows := initial;
    }

    /** `$stmt->execute()` of an INSERT: the row is appended exactly when the statement executes. */
    method Insert(row: T, executes: bool) returns (inserted: bool)
      modifies this
      ensures inserted == executes
      ensures rows == if executes then old(rows) + [row] else old(rows)
    {
      inserted := executes;
      if executes {
        rows := rows + [row];
      }
    }
  }
}
