# EntityAuditBundle revision listener, modelled in Dafny

EntityAuditBundle keeps a history of Doctrine entities. Its
`LogRevisionsListener` is hooked into the ORM's flush cycle:

- `onFlush` resets the current revision and writes `DEL` audit rows for the
  scheduled deletions, skipping entities with a hash it has already seen. It
  then queues every audited inserted or updated entity for an "extra update".
- `postPersist` writes an `INS` audit row. `postUpdate` writes an `UPD` audit
  row unless every changed field is globally ignored.
- `postFlush` runs one `UPDATE` per queued entity that has update data for
  its own table; an entity without any is skipped (line 118). The update
  brings foreign keys resolved only after the flush into the audit row of
  the current revision.
  It then writes the many-to-many join rows that were deferred because the
  related entity had no identifier yet, and empties that queue.
- `onClear` empties the extra-update queue.

Each audit row is tagged with the revision identifier. The first row written
in a flush allocates it: an insert into the revision table, then the
connection's last insert id.

The model has two layers:

- **Value layer.** Module `RevisionModel` has one function per operation. An
  `...Effect` function maps a `State` (the listener's fields, plus the
  statement log and the revision-insert count of the connection) to an
  `Outcome` and a new `State`. PHP exceptions become `Fail(Error)`. Fields
  changed before a throw are kept, as in PHP, which does not roll them back.
- **Imperative layer.** The class `Listener.LogRevisionsListener` has those
  fields. Its methods run the loops of the PHP methods. Each method's
  postcondition equates its outcome and its new abstract state with the
  matching function. `Dbal.Connection` is the connection: an append-only log
  of statements.

The SQL text builders (`getInsertRevisionSQL`, `getInsertJoinTableRevisionSQL`)
and `prepareUpdateData` are loops over metadata in `Templates` and
`ExtraUpdates`. Each is a method, proved equal to a specification function.
The module `Hashing` holds `getHash` and the deduplication of deletions.

The properties are proved in `Properties` and `Flush`:

- Every hook only appends statements, and a flush allocates at most one
  revision (`Flush.OneRevisionPerFlush`).
- Every data row written after the first is tagged with that revision.
- `postPersist`, `postUpdate` and each audited deletion of `onFlush` end
  with exactly the audit row the metadata describes, in the form its cached
  `INSERT` template expects (`Flush.PostPersistWritesRow`,
  `Flush.PostUpdateWritesRow`, `Flush.DeletionWritesRow`).
- Deferred join rows are written in order, one per deferred write, in
  `postFlush`.
- Deletions are audited once per distinct hash, and the hash can collide.

Where the code and its inline description say different things, the model
follows the code:

- The revision is reset only in `onFlush`, never in `onClear`.
- `onClear` empties `extraUpdates` but keeps the deferred join writes.
- `postFlush` does not empty `extraUpdates`.
- An `UPD` row is skipped when only ignored fields changed. The extra update
  in `postFlush` uses the full change set even so.
- In `postFlush`, the type of a `SET` placeholder is looked up under the
  column name: line 132 turns the field name back into its column name and
  line 133 passes that to `getTypeOfField`. A field whose column name differs
  from its field name therefore gets a plain `?`
  (`src/EventListener/LogRevisionsListener.php:127-139`).
- The type of a key column reached through an association is the
  association's type bits (line 186), as written.
- The extra update allocates its revision (line 177) before the identifier loop
  can throw (line 188).

## Model

| member | source | states |
|---|---|---|
| Dbal.Connection.Insert | src/EventListener/LogRevisionsListener.php:370-380 | inserting the revision row appends one `InsertRevision` statement (table, timestamp, user) and counts one more revision insert |
| Dbal.Connection.LastInsertId | src/EventListener/LogRevisionsListener.php:382-385 | the id the database hands out for the n-th revision insert, or none (PHP `false`) |
| Dbal.Connection.ExecuteStatement | src/EventListener/LogRevisionsListener.php:622 | `executeStatement` appends exactly that statement to the log and allocates no revision |
| Dbal.Connection.ExecuteQuery | src/EventListener/LogRevisionsListener.php:198 | `executeQuery` appends exactly that query to the log and allocates no revision |
| Mapping.KeyColumnsMirror | src/Utils/ORMCompatibilityTrait.php:164-191 | the target-to-source key-column map is the source-to-target map with each pair swapped, in join-column order: its keys are the referenced columns and its values the join columns |
| PhpArray.Get | src/EventListener/LogRevisionsListener.php:534 | `$m[$k] ?? null` finds a value exactly when the key is present |
| PhpArray.PutSpec | src/EventListener/LogRevisionsListener.php:714 | writing a key makes it map to the new value and leaves every other key alone. An existing key keeps the key order; a new one is appended |
| PhpArray.PutUnique | src/EventListener/LogRevisionsListener.php:714 | writing keeps an array free of duplicate keys |
| PhpArray.RemoveKeyWithout | src/EventListener/LogRevisionsListener.php:249-251 | one more `unset` in the ignore loop is filtering by one more key |
| PhpArray.WithoutKeys | src/EventListener/LogRevisionsListener.php:249-251 | after the ignore loop, a field is left exactly when it was changed and is not ignored |
| PhpArray.WithoutAll | src/EventListener/LogRevisionsListener.php:249-257 | if every changed field is ignored, nothing is left (and `postUpdate` returns) |
| PhpArray.RemoveAbsentKey | src/EventListener/LogRevisionsListener.php:250-251 | `unset` of an absent key changes nothing, which is what the `isset` guard relies on |
| Orm.SingleIdentifierValue | src/EventListener/LogRevisionsListener.php:559 | `getSingleIdentifierValue` throws exactly for a registered class with a composite identifier; otherwise it yields the identifier field's value, from the identity map for a managed entity and from its properties otherwise, and a non-null value only for a single-field identifier |
| Orm.OriginalEntityData | src/EventListener/LogRevisionsListener.php:327-340 | the unit of work's original data, with the version field (when the class is versioned) set to its current property value and every other entry unchanged |
| Hashing.NatToString | src/EventListener/LogRevisionsListener.php:664-669 | an integer identifier prints as a non-empty string without spaces |
| Hashing.IntToString | src/EventListener/LogRevisionsListener.php:664-669 | the same for signed integers |
| Hashing.JoinInjective | src/EventListener/LogRevisionsListener.php:664-669 | `implode(' ', …)` is injective on non-empty lists of space-free strings |
| Hashing.HashSeparatesSpaceFree | src/EventListener/LogRevisionsListener.php:662-671 | two entities whose class names and identifier strings contain no spaces share a hash only if their class and identifier strings are equal |
| Hashing.CompositeIdentifiersCollide | src/EventListener/LogRevisionsListener.php:662-671 | two different composite identifiers of one class (`"1 2","3"` and `"1","2 3"`) have the same hash |
| Hashing.IntegerAndStringIdentifiersCollide | src/EventListener/LogRevisionsListener.php:662-671 | integer id 7 and string id `"7"` have the same hash |
| Hashing.FirstByHashStep | src/EventListener/LogRevisionsListener.php:282-291 | one step of the deletion loop skips an entity whose hash has been processed, and otherwise keeps it and records its hash |
| Hashing.FirstByHashSpec | src/EventListener/LogRevisionsListener.php:282-291 | the deletions audited have pairwise different hashes and cover every hash of the scheduled deletions |
| Hashing.FirstByHashMembers | src/EventListener/LogRevisionsListener.php:282-291 | an entity is audited exactly when it is the first scheduled deletion with its hash |
| Hashing.FirstByHashPrefix | src/EventListener/LogRevisionsListener.php:282-291 | the entities audited from a prefix of the list are a prefix of those audited from the whole list |
| Hashing.FirstByHashSubset | src/EventListener/LogRevisionsListener.php:282 | only scheduled deletions are audited |
| Hashing.RescheduledDeletionIgnored | src/EventListener/LogRevisionsListener.php:281-290 | scheduling an entity for deletion a second time audits nothing more |
| Templates.UnwrapEnumsSpec | src/EventListener/LogRevisionsListener.php:616-620 | a parameter that is not a backed enum is kept as it is and an enum case becomes its backing value; with int or string backings no enum is left and unwrapping again changes nothing |
| Templates.ColumnTypes | src/EventListener/LogRevisionsListener.php:644-652 | one bind type per join-table key column |
| Templates.FkSourceColumnsAreFkColumns | src/EventListener/LogRevisionsListener.php:417-421 | the columns `saveRevisionEntityData` fills for to-one associations are the columns `getInsertRevisionSQL` lists, in the same order |
| Templates.FkShape | src/EventListener/LogRevisionsListener.php:543-551 | one parameter and one type per foreign-key column of the template |
| Templates.FieldShape | src/EventListener/LogRevisionsListener.php:572-586 | one parameter, one type and one placeholder per field column of the template |
| Templates.InsertRevisionSqlShape | src/EventListener/LogRevisionsListener.php:400-467 | the audit insert goes to the class's audit table; its first two columns are the revision and revision-type columns; it has one placeholder per column |
| Templates.ParamsMatchTemplate | src/EventListener/LogRevisionsListener.php:517-622 | the row `saveRevisionEntityData` binds has one parameter and one type per column of the template; it starts with the revision id and the revision type |
| Templates.JoinRowMatchesTemplate | src/EventListener/LogRevisionsListener.php:631-660 | a join row has 2 + source-key + target-key parameters and types, one per placeholder of its template, starting with the revision id |
| Templates.FkColumnsMembership | src/EventListener/LogRevisionsListener.php:411-423 | a column is a foreign-key column of the template exactly when it is a join column of an owning to-one association that is not an inherited association of a joined-inheritance class |
| Templates.FieldColumnsMembership | src/EventListener/LogRevisionsListener.php:425-447 | a column is a field column of the template exactly when it is the column of a field whose field name is not among the foreign-key column names (line 426 compares a field name with column names, as written) and which is not, in joined inheritance, both inherited and a non-identifier |
| Templates.ForeignKeyColumns | src/EventListener/LogRevisionsListener.php:409-423 | the foreign-key loop yields the template's foreign-key columns, one `?` each, and the set of fields it marked |
| Templates.AppendColumns | src/EventListener/LogRevisionsListener.php:417-421 | the join-column loop of one to-one association appends its columns in order, one plain `?` each, and marks each as a field |
| Templates.FieldColumnList | src/EventListener/LogRevisionsListener.php:425-447 | the field loop yields the template's field columns and their placeholders |
| Templates.BuildInsertRevisionSql | src/EventListener/LogRevisionsListener.php:400-467 | the SQL built equals the template function (foreign keys, fields, then the discriminator) |
| Templates.ForeignKeyParams | src/EventListener/LogRevisionsListener.php:529-552 | for a to-one association: null or the related identifier per join column, typed `PARAM_STR` or with the target column's type |
| Templates.FieldParamList | src/EventListener/LogRevisionsListener.php:572-586 | the field loop binds the entity value (or null) and the mapped type of each field column |
| Templates.FieldAndDiscriminatorParams | src/EventListener/LogRevisionsListener.php:572-601 | fields, then the discriminator value where single-table or joined-root inheritance writes one |
| Templates.RevisionParamList | src/EventListener/LogRevisionsListener.php:522-601 | revision id and type, then foreign keys, fields and discriminator, equal to the row function |
| Templates.UnwrapBackedEnums | src/EventListener/LogRevisionsListener.php:616-620 | the enum loop equals `UnwrapEnums` |
| Templates.BuildJoinTableRevisionSql | src/EventListener/LogRevisionsListener.php:476-511 | the join-table SQL equals its template function (source-key columns, then target-key columns) |
| Templates.SourceKeyParams | src/EventListener/LogRevisionsListener.php:644-647 | the owning entity's values and column types for the join-table source keys |
| Templates.TargetKeyParams | src/EventListener/LogRevisionsListener.php:649-654 | the related entity's values and column types for the join-table target keys |
| Templates.BuildJoinParams | src/EventListener/LogRevisionsListener.php:641-654 | a join row's parameters and types equal the join-row function |
| ExtraUpdates.PrepareUpdateData | src/EventListener/LogRevisionsListener.php:689-756 | the loop over the change set equals the update-data function |
| ExtraUpdates.UpdateDataOfSnoc | src/EventListener/LogRevisionsListener.php:701-753 | each change applies its writes on top of the earlier changes |
| ExtraUpdates.ApplyChange | src/EventListener/LogRevisionsListener.php:702-752 | one change is skipped (version field, embedded, inverse side, not in the identity map), or it writes its column, or its join columns |
| ExtraUpdates.AssignJoinColumns | src/EventListener/LogRevisionsListener.php:745-752 | the join-column loop applies exactly the join-column writes |
| ExtraUpdates.AssignColumns | src/EventListener/LogRevisionsListener.php:714 | a write adds its own column to its own table and nothing else |
| ExtraUpdates.AssignAllColumns | src/EventListener/LogRevisionsListener.php:745-752 | after a series of writes, a table has exactly its earlier columns plus the columns written to it |
| ExtraUpdates.UpdateDataColumns | src/EventListener/LogRevisionsListener.php:689-756 | the update data of a table has a column exactly when some change writes it there |
| ExtraUpdates.UpdateDataRowsUnique | src/EventListener/LogRevisionsListener.php:689-756 | no column appears twice in a table's update data |
| ExtraUpdates.AssignAllUnique | src/EventListener/LogRevisionsListener.php:745-752 | writes keep a table's columns free of duplicates |
| ExtraUpdates.ScalarChangeWritten | src/EventListener/LogRevisionsListener.php:712-716 | a plain field changed last writes its new value to its column in its owning table |
| ExtraUpdates.PendingTargetWritesNull | src/EventListener/LogRevisionsListener.php:726-752 | a to-one change to an entity still scheduled for insertion writes null to the join column |
| ExtraUpdates.LaterWritesKeep | src/EventListener/LogRevisionsListener.php:745-752 | the last write of a (table, column) pair is the value left there |
| ExtraUpdates.SetClauseOfSpec | src/EventListener/LogRevisionsListener.php:125-174 | on success, one assignment, parameter and type per updated column, in order, with the column's placeholder and resolved type. It fails exactly when some column belongs to no field (the `MappingException` of line 128) or its type cannot be resolved, and then with the first such column's error; a column without a field always fails |
| ExtraUpdates.SetClauseFailureStays | src/EventListener/LogRevisionsListener.php:168-170 | once a column fails, the later columns change nothing (the exception leaves the loop) |
| ExtraUpdates.KeyClauseOfSpec | src/EventListener/LogRevisionsListener.php:180-196 | on success, one key column, type and entity value per identifier field. It fails exactly when some identifier field has neither a field mapping nor join columns |
| ExtraUpdates.KeyClauseFailureStays | src/EventListener/LogRevisionsListener.php:187-189 | once an identifier field fails, the later fields change nothing |
| ExtraUpdates.ResolveJoinColumnType | src/EventListener/LogRevisionsListener.php:154-166 | the nested association search returns the type from the last join column with that name |
| ExtraUpdates.BuildSetClause | src/EventListener/LogRevisionsListener.php:125-174 | the `SET` loop equals the set-clause function, both errors included (a column without a field, a column without a type) |
| ExtraUpdates.BuildKeyClause | src/EventListener/LogRevisionsListener.php:180-196 | the identifier loop equals the key-clause function, errors included |
| RevisionModel.KnownTargets | src/EventListener/LogRevisionsListener.php:541 | every association target of a registered class has metadata |
| RevisionModel.ManyToManyRelations | src/EventListener/LogRevisionsListener.php:347-360 | the loop equals the many-to-many data function |
| RevisionModel.ManyToManyRelationsSpec | src/EventListener/LogRevisionsListener.php:347-360 | a field is in the data exactly when it has an owning many-to-many association, and the data then holds the property's value |
| RevisionModel.RemoveIgnoredColumns | src/EventListener/LogRevisionsListener.php:247-251 | the ignore loop removes exactly the globally ignored fields from the change set |
| RevisionModel.KnownDeletions | src/EventListener/LogRevisionsListener.php:282-301 | every deletion audited has metadata |
| RevisionModel.RelatedFoldStops | src/EventListener/LogRevisionsListener.php:558-566 | a throw in the related-entity loop ends it |
| RevisionModel.JoinRowsFoldStops | src/EventListener/LogRevisionsListener.php:527-570 | a throw in the association loop ends it |
| RevisionModel.DeletionsFoldStops | src/EventListener/LogRevisionsListener.php:282-303 | a throw in the deletion loop ends `onFlush` |
| RevisionModel.DeferredFoldStops | src/EventListener/LogRevisionsListener.php:201-211 | a throw in the deferred loop ends `postFlush` before the queue is emptied |
| Listener.LogRevisionsListener.constructor | src/EventListener/LogRevisionsListener.php:56-85 | a new listener has no revision, empty SQL caches and empty queues |
| Listener.LogRevisionsListener.GetRevisionId | src/EventListener/LogRevisionsListener.php:365-391 | agrees with `AllocateRevision`: the first call inserts a revision row and caches the id; later calls return it; no id is an error |
| Listener.LogRevisionsListener.GetInsertRevisionSql | src/EventListener/LogRevisionsListener.php:400-467 | agrees with the class-name-keyed template cache |
| Listener.LogRevisionsListener.GetInsertJoinTableRevisionSql | src/EventListener/LogRevisionsListener.php:476-511 | agrees with the cache keyed by class, target and join table |
| Listener.LogRevisionsListener.RecordRevisionForManyToManyEntity | src/EventListener/LogRevisionsListener.php:631-660 | agrees with `RecordEffect`: allocate the revision, then write one join row |
| Listener.LogRevisionsListener.RecordRelatedEntities | src/EventListener/LogRevisionsListener.php:556-566 | agrees with `RelatedFold`: a composite-identifier entity throws, entities without an identifier are deferred and the others recorded, in order |
| Listener.LogRevisionsListener.WriteAssociation | src/EventListener/LogRevisionsListener.php:528-569 | one association: its foreign-key parameters, types and marked fields, or its join rows |
| Listener.LogRevisionsListener.WriteAssociations | src/EventListener/LogRevisionsListener.php:527-570 | the association loop agrees with `JoinRowsFold` and, when it passes, yields all foreign-key parameters, types and fields |
| Listener.LogRevisionsListener.SaveRevisionEntityData | src/EventListener/LogRevisionsListener.php:517-623 | agrees with `SaveEffect`: revision, associations, fields, discriminator, the root-table row for joined subclasses, enum unwrapping, then the audit row |
| Listener.LogRevisionsListener.SaveRootRevisionEntityData | src/EventListener/LogRevisionsListener.php:603-614 | the recursive call for the root class of joined inheritance, with the discriminator value added to the data |
| Listener.LogRevisionsListener.PostPersist | src/EventListener/LogRevisionsListener.php:216-232 | agrees with `PostPersistEffect` |
| Listener.LogRevisionsListener.PostUpdate | src/EventListener/LogRevisionsListener.php:234-267 | agrees with `PostUpdateEffect` |
| Listener.LogRevisionsListener.OnClear | src/EventListener/LogRevisionsListener.php:269-272 | empties `extraUpdates` and keeps everything else |
| Listener.LogRevisionsListener.AuditDeletion | src/EventListener/LogRevisionsListener.php:293-302 | one deletion: nothing if unaudited, else a `DEL` save |
| Listener.LogRevisionsListener.AuditDeletionOnce | src/EventListener/LogRevisionsListener.php:283-302 | one iteration of the deletion loop keeps the audited list equal to `FirstByHash` of the prefix and the processed hashes equal to the prefix's hashes |
| Listener.LogRevisionsListener.AuditDeletions | src/EventListener/LogRevisionsListener.php:280-303 | the deletion loop agrees with `DeletionsFold` over `FirstByHash` of the scheduled deletions |
| Listener.LogRevisionsListener.QueueExtraUpdates | src/EventListener/LogRevisionsListener.php:305-319 | audited entities go into `extraUpdates` under their object hash; nothing else changes |
| Listener.LogRevisionsListener.OnFlush | src/EventListener/LogRevisionsListener.php:274-320 | agrees with `OnFlushEffect` |
| Listener.LogRevisionsListener.PostFlush | src/EventListener/LogRevisionsListener.php:103-214 | agrees with `PostFlushEffect` |
| Listener.LogRevisionsListener.WriteExtraUpdates | src/EventListener/LogRevisionsListener.php:111-199 | the first loop of `postFlush` agrees with `ExtraUpdatesFold`: the extra update of each queued entity in queue order, ending at the first throw |
| Listener.LogRevisionsListener.WriteDeferred | src/EventListener/LogRevisionsListener.php:201-211 | the second loop agrees with `DeferredFold`: one join row per deferred write, in queue order, ending at the first throw |
| Listener.LogRevisionsListener.ExtraUpdate | src/EventListener/LogRevisionsListener.php:112-198 | one extra update agrees with `ExtraUpdateEffect`: skipped without update data for the class's table, else `SET`, revision, `WHERE` keys and the query |
| Properties.RevisionRowsConcat | src/EventListener/LogRevisionsListener.php:370-380 | revision inserts in a log add up over concatenation |
| Properties.TaggedRowsAreNotRevisions | src/EventListener/LogRevisionsListener.php:370-380 | rows tagged with a revision are not revision inserts |
| Properties.AdvancesRevisionRows | src/EventListener/LogRevisionsListener.php:369-390 | a run that only advances writes at most one revision row, none if a revision was current, and nothing if none is current afterwards |
| Properties.AdvancesTrans | src/EventListener/LogRevisionsListener.php:365-391 | advancing composes: two runs in a row still allocate at most one revision and tag every later row with it |
| Properties.AppendAdvances | src/EventListener/LogRevisionsListener.php:622 | appending a row tagged with the current revision advances |
| Properties.AllocateAdvances | src/EventListener/LogRevisionsListener.php:365-391 | allocation advances, leaves the id current, and a second allocation changes nothing |
| Properties.RecordAdvances | src/EventListener/LogRevisionsListener.php:631-660 | recording a join row advances |
| Properties.RelatedFoldAdvances | src/EventListener/LogRevisionsListener.php:558-566 | the related-entity loop advances |
| Properties.JoinRowsFoldAdvances | src/EventListener/LogRevisionsListener.php:527-570 | the association loop advances |
| Properties.RootIsItsOwnRoot | src/EventListener/LogRevisionsListener.php:603-614 | the root class is registered, is its own root and needs no further root row, so the recursion is one deep |
| Properties.CachedInsertSqlValid | src/EventListener/LogRevisionsListener.php:402-466 | a valid cache returns the class's template, stays valid, answers the same again, and changes nothing else |
| Properties.RelatedFoldKeepsInsertCache | src/EventListener/LogRevisionsListener.php:556-566 | join rows do not touch the audit-row template cache |
| Properties.JoinRowsFoldKeepsInsertCache | src/EventListener/LogRevisionsListener.php:527-570 | the association loop does not touch the template cache |
| Properties.SaveKeepsInsertCache | src/EventListener/LogRevisionsListener.php:517-623 | saving keeps every cached template equal to the one its metadata describes |
| Properties.RowsKeepInsertCache | src/EventListener/LogRevisionsListener.php:527-622 | the same after the revision is allocated |
| Properties.RootRowKeepsInsertCache | src/EventListener/LogRevisionsListener.php:603-614 | the same for the root-table row |
| Properties.SaveAdvances | src/EventListener/LogRevisionsListener.php:517-623 | a save that passes advances and leaves a revision current |
| Properties.RowsAdvances | src/EventListener/LogRevisionsListener.php:527-622 | the rows after allocation advance |
| Properties.RootRowAdvances | src/EventListener/LogRevisionsListener.php:603-614 | the root-table row advances |
| Properties.OwnRowAdvances | src/EventListener/LogRevisionsListener.php:616-622 | the class's own row advances |
| Properties.OwnRowTemplate | src/EventListener/LogRevisionsListener.php:616-622 | the own row appends exactly the class's template with the enum-unwrapped parameters and the types |
| Properties.RowsWritesOwnRow | src/EventListener/LogRevisionsListener.php:527-622 | after the revision is current, a pass ends with the class's audit row |
| Properties.SaveWritesOwnRow | src/EventListener/LogRevisionsListener.php:517-623 | a save that passes ends with the class's audit row, tagged with the current revision |
| Properties.AuditRowShape | src/EventListener/LogRevisionsListener.php:517-622 | an audit row is an insert with one parameter and type per column and placeholder, starting with revision id and type |
| Properties.RowsWritesRootRow | src/EventListener/LogRevisionsListener.php:603-622 | for a joined subclass the root-table row comes just before the subclass's own row |
| Properties.RootRowWritesRow | src/EventListener/LogRevisionsListener.php:603-614 | the root-table call ends with the root class's audit row of the data plus discriminator |
| Properties.OwnRowAppends | src/EventListener/LogRevisionsListener.php:622 | the own row is one statement appended after the earlier log |
| Properties.SaveWritesRootRow | src/EventListener/LogRevisionsListener.php:517-623 | a joined-subclass save ends with the root row then the own row, both with the current revision |
| Flush.PostPersistAdvances | src/EventListener/LogRevisionsListener.php:216-232 | `postPersist` advances |
| Flush.PostUpdateAdvances | src/EventListener/LogRevisionsListener.php:234-267 | `postUpdate` advances |
| Flush.DeletionAdvances | src/EventListener/LogRevisionsListener.php:293-302 | one deletion advances |
| Flush.DeletionsFoldAdvances | src/EventListener/LogRevisionsListener.php:282-303 | the deletion loop advances |
| Flush.OnFlushAdvances | src/EventListener/LogRevisionsListener.php:274-320 | `onFlush` advances from the state with the revision reset |
| Flush.OnFlushWithoutDeletions | src/EventListener/LogRevisionsListener.php:274-320 | without scheduled deletions, `onFlush` writes nothing and leaves no revision current |
| Flush.ExtraUpdateAdvances | src/EventListener/LogRevisionsListener.php:112-198 | an extra update keeps the queues and caches and, when it passes, advances |
| Flush.ExtraUpdateRowAdvances | src/EventListener/LogRevisionsListener.php:122-198 | the same once the update data is non-empty |
| Flush.ExtraUpdateStatementTagged | src/EventListener/LogRevisionsListener.php:176-198 | the `UPDATE … WHERE rev = ?` query is tagged with its revision |
| Flush.ExtraUpdatesFoldAdvances | src/EventListener/LogRevisionsListener.php:111-199 | the extra-update loop keeps the queues and advances |
| Flush.RecordKeepsQueues | src/EventListener/LogRevisionsListener.php:631-660 | a join row keeps the queues and the template cache |
| Flush.DeferredFoldAdvances | src/EventListener/LogRevisionsListener.php:201-211 | the deferred loop keeps the queues and advances |
| Flush.PostFlushAdvances | src/EventListener/LogRevisionsListener.php:103-214 | `postFlush` keeps `extraUpdates` and the template cache; when it passes it advances and the deferred queue is empty |
| Flush.RecordWritesJoinRow | src/EventListener/LogRevisionsListener.php:631-660 | recording ends with one join row carrying that write's parameters and types, after at most one revision row |
| Flush.DeferredFoldWritesEach | src/EventListener/LogRevisionsListener.php:201-211 | the deferred loop writes one join row per deferred write, in queue order, all with one revision |
| Flush.PostFlushWritesDeferred | src/EventListener/LogRevisionsListener.php:103-214 | `postFlush` ends with one join row per deferred write, in queue order |
| Flush.ClearedPostFlush | src/EventListener/LogRevisionsListener.php:269-272 | after `onClear`, `postFlush` writes only the deferred join rows that survived the clear, with the revision that survived it |
| Flush.RelatedFoldSplits | src/EventListener/LogRevisionsListener.php:556-566 | with a revision current, entities without an identifier are appended to the deferred queue and the others get a join row now, both in order |
| Flush.CompositeRelatedEntityThrows | src/EventListener/LogRevisionsListener.php:559 | a related entity of a class with a composite identifier makes `getSingleIdentifierValue` throw; nothing is written or deferred |
| Flush.PostPersistWritesRow | src/EventListener/LogRevisionsListener.php:216-232 | an unaudited class changes nothing; otherwise a pass ends with the `INS` audit row of the original data plus many-to-many relations |
| Flush.PostUpdateIgnoredOnly | src/EventListener/LogRevisionsListener.php:247-258 | an update of ignored fields only writes nothing and changes nothing |
| Flush.PostUpdateWritesRow | src/EventListener/LogRevisionsListener.php:234-267 | an audited update with a non-ignored change ends with the `UPD` audit row of data, identifier and relations |
| Flush.DeletionWritesRow | src/EventListener/LogRevisionsListener.php:293-302 | an unaudited class changes nothing; otherwise a pass ends with the `DEL` audit row |
| Flush.QueueAuditedSpec | src/EventListener/LogRevisionsListener.php:305-319 | the queue stays free of duplicates and holds exactly its earlier entries plus the audited entities; no audited entity leaves it unchanged |
| Flush.QueueOverwrites | src/EventListener/LogRevisionsListener.php:310 | an entity queued again (`$this->extraUpdates[spl_object_hash($entity)] = $entity`) is the one stored under its hash |
| Flush.EventAdvances | src/EventListener/LogRevisionsListener.php:216-267 | a `postPersist` or `postUpdate` event advances |
| Flush.EventsFoldAdvances | src/EventListener/LogRevisionsListener.php:216-267 | any sequence of such events advances |
| Flush.OneRevisionPerFlush | src/EventListener/LogRevisionsListener.php:274-320 | over `onFlush`, any entity events and `postFlush`, the log only grows; at most one revision row is added, it comes first, and every later row carries its id |
| Flush.DeletionKeepsInsertCache | src/EventListener/LogRevisionsListener.php:293-302 | a deletion keeps the template cache valid |
| Flush.DeletionsFoldKeepsInsertCache | src/EventListener/LogRevisionsListener.php:282-303 | the deletion loop keeps it valid |
| Flush.OnFlushKeepsInsertCache | src/EventListener/LogRevisionsListener.php:274-320 | `onFlush` keeps it valid |
| Flush.EventKeepsInsertCache | src/EventListener/LogRevisionsListener.php:216-267 | `postPersist` and `postUpdate` keep it valid |

## Left out

- SQL is a datatype (table, columns, placeholders; `SET`/`WHERE` lists), not text. The quote strategy is not modelled. `convertToDatabaseValueSQL` is the placeholder `Converted(type)`, with no platform behind it.
- `Type::getType` for an unknown type name, which throws in PHP, is not modelled: every mapped type is taken as known.
- `getFieldForColumn` throwing `MappingException` is modelled only for the `SET` columns of `postFlush` (line 128, error `NoFieldForColumn`). Its other calls look up a referenced column of a target class: the join-column type search (line 162), the foreign-key types of an audit row (line 550) and `prepareUpdateData` (line 750). There a column without a field yields no field, so no type or a null value, instead of the exception.
- Templates.TargetKeyParams: when a target key column of a join table has no field in the target class (a derived identity), lines 650-652 read `reflFields[null]` and throw. The model binds null for that column and writes the join row. `Templates.BuildJoinParams` inherits this.
- A related entity whose class has no metadata gives a null value instead of the ORM's error.
- PHP's warning on a missing array key is not modelled; the value is null, as PHP returns after the warning.
- `foreach` over a value that is not a collection or array does no iterations.
- The clock and the current username are inputs (`env.now`, the configuration), not services.
- `getSubscribedEvents`, `AuditManager`, the dependency-injection extension, the internals of `ORMCompatibilityTrait` beyond the helpers above, and the audit fixture classes are not part of this model.
- Concurrency, database transactions and rollback are not modelled. The connection is an append-only log whose insert ids come from a given function.
- The join-table template cache is keyed by `class.target.joinTable` (`src/EventListener/LogRevisionsListener.php:482`). That key does not determine the association, so no lemma claims that a cached join template matches the association being written.
- Flush.RelatedFoldSplits: stated only for a related-entity loop that starts with a revision already current, which is the case in `saveRevisionEntityData` (the revision is allocated at line 522 before the loop).
- Flush.OneRevisionPerFlush: requires the metadata of every queued extra update to be known to the environment seen by `postFlush`, which the ORM guarantees for managed entities.
- A deferred write that survives a `postFlush` that threw is written in the next flush, under that flush's revision. The model follows this and no lemma states it as desired.
