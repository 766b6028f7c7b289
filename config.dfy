/** The audit configuration the listener reads: table naming, revision table
    and column names, the revision id type, globally ignored columns and the
    current user name. */
module Config {
  import opened Mapping

  datatype AuditConfiguration = AuditConfiguration(
    tablePrefix: string,
    tableSuffix: string,
    revisionTableName: string,
    revisionFieldName: string,
    revisionTypeFieldName: string,
    revisionIdFieldType: string,
    globalIgnoreColumns: seq<string>,
    currentUsername: string)
  {
    /** The audit table of a class: prefix, the class's table, suffix. */
    function TableName(meta: ClassMetadata): string {
      tablePrefix + meta.tableName + tableSuffix
    }

    /** The audit table of a many-to-many join table. */
    function JoinTableName(joinTable: string): string {
      tablePrefix + joinTable + tableSuffix
    }
  }
}
