/** The database connection as the listener uses it. Statements are kept in
    structured form; the SQL dialect, quoting and type conversion belong to
    the platform and are not modelled. */
module Dbal {
  import opened Wrappers
  import opened Orm

  /** A value placeholder: `?`, or the platform's conversion of `?` for a
      named column type (`convertToDatabaseValueSQL('?')`). */
  datatype Placeholder = Plain | Converted(typeName: string)

  /** `INSERT INTO table (columns) VALUES (placeholders)` and
      `UPDATE table SET col = p, ... WHERE revisionColumn = ? AND key = ? ...`. */
  datatype Sql =
    | InsertInto(table: string, columns: seq<string>, placeholders: seq<Placeholder>)
    | UpdateSet(table: string, assignments: seq<(string, Placeholder)>, revisionColumn: string, keyColumns: seq<string>)

  /** A parameter binding type: the PDO constants, a named DBAL type, none
      (null), an association's type bits, or the type of a column as the
      ORM's persister helper would resolve it. */
  datatype BindType =
    | ParamInt
    | ParamStr
    | Named(typeName: string)
    | Untyped
    | AssociationType(bits: bv8)
    | TypeOfColumn(className: string, column: string)

  function BindTypeOf(t: Option<string>): BindType {
    match t
    case Some(n) => Named(n)
    case None => Untyped
  }

  /** What the connection was asked to do. */
  datatype Statement =
    | InsertRevision(table: string, timestamp: int, username: string)   // $conn->insert(revision table, ...)
    | Execute(sql: Sql, params: seq<Value>, types: seq<BindType>)      // executeStatement
    | Query(sql: Sql, params: seq<Value>, types: seq<BindType>)        // executeQuery

  /** A connection: the log of statements it ran and the number of revision
      rows inserted. `lastInsertIdFor(n)` is what `lastInsertId()` yields after
      the n-th revision insert (`None` for `false`). */
  class Connection {
    const lastInsertIdFor: nat -> Option<IdValue>
    var log: seq<Statement>
    var revisionInserts: nat

    constructor (ids: nat -> Option<IdValue>)
      ensures lastInsertIdFor == ids && log == [] && revisionInserts == 0
    {
      lastInsertIdFor := ids;
      log := [];
      revisionInserts := 0;
    }

    method Insert(table: string, timestamp: int, username: string)
      modifies this
      ensures log == old(log) + [InsertRevision(table, timestamp, username)]
      ensures revisionInserts == old(revisionInserts) + 1
    {
      log := log + [InsertRevision(table, timestamp, username)];
      revisionInserts := revisionInserts + 1;
    }

    method LastInsertId() returns (r: Option<IdValue>)
      ensures r == lastInsertIdFor(revisionInserts)
    {
      r := lastInsertIdFor(revisionInserts);
    }

    method ExecuteStatement(sql: Sql, params: seq<Value>, types: seq<BindType>)
      modifies this
      ensures log == old(log) + [Execute(sql, params, types)]
      ensures revisionInserts == old(revisionInserts)
    {
      log := log + [Execute(sql, params, types)];
    }

    method ExecuteQuery(sql: Sql, params: seq<Value>, types: seq<BindType>)
      modifies this
      ensures log == old(log) + [Query(sql, params, types)]
      ensures revisionInserts == old(revisionInserts)
    {
      log := log + [Query(sql, params, types)];
    }
  }
}
