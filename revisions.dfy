/** Vocabulary shared by the revision writer: change types, the exceptions the
    listener throws, and a deferred many-to-many write. */
module Revisions {
  import opened Mapping
  import opened Orm

  /** The change type written into the revision-type column. */
  datatype RevType = Ins | Upd | Del

  function RevTypeValue(t: RevType): Value {
    match t
    case Ins => Str("INS")
    case Upd => Str("UPD")
    case Del => Str("DEL")
  }

  /** The exceptions the listener raises itself, and those of the class
      metadata and the unit of work it lets escape. */
  datatype Error =
    | RevisionIdUnavailable            // lastInsertId() returned false
    | UnresolvedColumnType(column: string)  // extra update: no type for a column
    | NoFieldForColumn(column: string)      // getFieldForColumn: MappingException
    | IdentifierColumnNotFound(field: string) // extra update: no column for an id field
    | UnitOfWorkError(cause: OrmError)  // thrown by the unit of work

  /** `DeferredChangedManyToManyEntityRevisionToPersist`: a join row whose
      related entity had no identifier yet, with everything needed to write
      it later. */
  datatype DeferredWrite = DeferredWrite(
    entity: EntityRef,
    revType: RevType,
    entityData: EntityData,
    assoc: Association,
    sourceClass: ClassMetadata,
    targetClass: ClassMetadata)
}
