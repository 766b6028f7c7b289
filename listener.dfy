/** The listener object: its caches of INSERT statements, the revision of the
    current flush, the entities queued for an extra update and the join rows
    deferred to postFlush. Each hook is proved to do what the matching
    function of the revision model describes. */
module Listener {
  import opened Wrappers
  import opened PhpArray
  import opened Mapping
  import opened Orm
  import opened Dbal
  import opened Config
  import opened Revisions
  import opened Templates
  import opened ExtraUpdates
  import opened Hashing
  import opened RevisionModel

  class LogRevisionsListener {
    const config: AuditConfiguration
    var insertRevisionSql: map<string, Sql>
    var insertJoinTableRevisionSql: map<string, Sql>
    var revisionId: Option<IdValue>
    var extraUpdates: seq<(Oid, EntityRef)>
    var deferred: seq<DeferredWrite>

    constructor (cfg: AuditConfiguration)
      ensures config == cfg && revisionId == None
      ensures insertRevisionSql == map[] && insertJoinTableRevisionSql == map[]
      ensures extraUpdates == [] && deferred == []
    {
      config := cfg;
      insertRevisionSql := map[];
      insertJoinTableRevisionSql := map[];
      revisionId := None;
      extraUpdates := [];
      deferred := [];
    }

    /** The listener's fields together with what the connection recorded. */
    ghost function Abs(conn: Connection): State
      reads this, conn
    {
      State(revisionId, insertRevisionSql, insertJoinTableRevisionSql, extraUpdates, deferred, conn.log, conn.revisionInserts)
    }

    ghost function Ctx(conn: Connection): Context {
      Context(config, conn.lastInsertIdFor)
    }

    method GetRevisionId(env: Env, conn: Connection) returns (r: Result<IdValue, Error>)
      modifies this, conn
      ensures (r, Abs(conn)) == AllocateRevision(old(Abs(conn)), Ctx(conn), env.now)
    {
      if revisionId.None? {
        conn.Insert(config.revisionTableName, env.now, config.currentUsername);
        var id := conn.LastInsertId();
        if id.None? {
          return Failure(RevisionIdUnavailable);
        }
        revisionId := id;
      }
      r := Success(revisionId.value);
    }

    method GetInsertRevisionSql(meta: ClassMetadata, ghost conn: Connection) returns (sql: Sql)
      modifies this
      ensures (sql, Abs(conn)) == CachedInsertSql(old(Abs(conn)), config, meta)
    {
      if meta.name !in insertRevisionSql {
        var built := BuildInsertRevisionSql(config, meta);
        insertRevisionSql := insertRevisionSql[meta.name := built];
      }
      sql := insertRevisionSql[meta.name];
    }

    method GetInsertJoinTableRevisionSql(w: DeferredWrite, ghost conn: Connection) returns (sql: Sql)
      modifies this
      ensures (sql, Abs(conn)) == CachedJoinSql(old(Abs(conn)), config, w)
    {
      var cacheKey := JoinKey(w.sourceClass, w.targetClass, w.assoc);
      if cacheKey !in insertJoinTableRevisionSql {
        var built := BuildJoinTableRevisionSql(config, w.assoc);
        insertJoinTableRevisionSql := insertJoinTableRevisionSql[cacheKey := built];
      }
      sql := insertJoinTableRevisionSql[cacheKey];
    }

    method RecordRevisionForManyToManyEntity(env: Env, conn: Connection, w: DeferredWrite) returns (o: Outcome<Error>)
      modifies this, conn
      ensures (o, Abs(conn)) == RecordEffect(old(Abs(conn)), Ctx(conn), env, w)
    {
      var rid := GetRevisionId(env, conn);
      if rid.Failure? {
        return Fail(rid.error);
      }
      var params, types := BuildJoinParams(env, w, rid.value);
      var sql := GetInsertJoinTableRevisionSql(w, conn);
      conn.ExecuteStatement(sql, params, types);
      o := Pass;
    }

    /** The related entities of one owning many-to-many association while its
        owner is saved. */
    method RecordRelatedEntities(env: Env, conn: Connection, rt: RevType, data: EntityData, a: Association,
                                 meta: ClassMetadata, target: ClassMetadata, items: seq<EntityRef>) returns (o: Outcome<Error>)
      modifies this, conn
      ensures (o, Abs(conn)) == RelatedFold(old(Abs(conn)), Ctx(conn), env, rt, data, a, meta, target, items)
    {
      ghost var s0 := Abs(conn);
      var j := 0;
      while j < |items|
        invariant 0 <= j <= |items|
        invariant (Pass, Abs(conn)) == RelatedFold(s0, Ctx(conn), env, rt, data, a, meta, target, items[..j])
      {
        RelatedFoldNext(s0, Ctx(conn), env, rt, data, a, meta, target, items, j);
        var w := DeferredWrite(items[j], rt, data, a, meta, target);
        var id := SingleIdentifierValue(env, items[j]);
        if id.Failure? {
          RelatedFoldStops(s0, Ctx(conn), env, rt, data, a, meta, target, items, j + 1);
          return Fail(UnitOfWorkError(id.error));
        }
        if id.value == Null {
          deferred := deferred + [w];
        } else {
          var r := RecordRevisionForManyToManyEntity(env, conn, w);
          if r.Fail? {
            RelatedFoldStops(s0, Ctx(conn), env, rt, data, a, meta, target, items, j + 1);
            return r;
          }
        }
        j := j + 1;
      }
      assert items[..j] == items;
      o := Pass;
    }

    /** One association of `saveRevisionEntityData`: the parameters of its
        foreign-key columns, or the join rows of an owning many-to-many
        association written or deferred. */
    method WriteAssociation(env: Env, conn: Connection, meta: ClassMetadata, data: EntityData, rt: RevType, a: Association)
      returns (o: Outcome<Error>, ps: seq<Value>, ts: seq<BindType>, cols: set<string>)
      requires a.targetEntity in env.classes
      modifies this, conn
      ensures (o, Abs(conn)) == AssocJoinRowsEffect(old(Abs(conn)), Ctx(conn), env, meta, data, rt, a)
      ensures ps == AssocFkParams(env, meta, data, a) && ts == AssocFkTypes(env, meta, data, a)
      ensures cols == ElementsOf(AssocFkSourceColumns(meta, a))
    {
      o, ps, ts, cols := Pass, [], [], {};
      if !(meta.IsInheritanceTypeJoined() && a.inherited.Some?) && IsOwningSide(a) {
        if IsToOneOwningSide(a) {
          ps, ts := ForeignKeyParams(env, data, a);
          cols := ElementsOf(Keys(SourceToTargetKeyColumns(a)));
        } else if IsManyToManyOwningSide(a) {
          var target := env.classes[a.targetEntity];
          var collection := Lookup(data, a.fieldName);
          if collection != Null {
            o := RecordRelatedEntities(env, conn, rt, data, a, meta, target, CollectionItems(collection));
          }
        }
      }
    }

    /** The association loop of `saveRevisionEntityData`. */
    method WriteAssociations(env: Env, conn: Connection, meta: ClassMetadata, data: EntityData, rt: RevType)
      returns (o: Outcome<Error>, fkParams: seq<Value>, fkTypes: seq<BindType>, fields: set<string>)
      requires TargetsKnown(env, meta.associationMappings)
      modifies this, conn
      ensures (o, Abs(conn)) == JoinRowsFold(old(Abs(conn)), Ctx(conn), env, meta, data, rt, meta.associationMappings)
      ensures o.Pass? ==> fkParams == FkParams(env, meta, data, meta.associationMappings)
      ensures o.Pass? ==> fkTypes == FkTypes(env, meta, data, meta.associationMappings)
      ensures o.Pass? ==> fields == FkSourceColumnSet(meta)
    {
      fkParams, fkTypes, fields := [], [], {};
      ghost var s1 := Abs(conn);
      var assocs := meta.associationMappings;
      var i := 0;
      while i < |assocs|
        invariant 0 <= i <= |assocs|
        invariant fkParams == FkParams(env, meta, data, assocs[..i])
        invariant fkTypes == FkTypes(env, meta, data, assocs[..i])
        invariant fields == ElementsOf(FkSourceColumns(meta, assocs[..i]))
        invariant (Pass, Abs(conn)) == JoinRowsFold(s1, Ctx(conn), env, meta, data, rt, assocs[..i])
      {
        JoinRowsFoldNext(s1, Ctx(conn), env, meta, data, rt, assocs, i);
        var r, ps, ts, cols := WriteAssociation(env, conn, meta, data, rt, assocs[i]);
        assert (r, Abs(conn)) == JoinRowsFold(s1, Ctx(conn), env, meta, data, rt, assocs[..i + 1]);
        if r.Fail? {
          JoinRowsFoldStops(s1, Ctx(conn), env, meta, data, rt, assocs, i + 1);
          return r, fkParams, fkTypes, fields;
        }
        fkParams := fkParams + ps;
        fkTypes := fkTypes + ts;
        fields := fields + cols;
        i := i + 1;
      }
      assert assocs[..i] == assocs;
      o := Pass;
    }

    method SaveRevisionEntityData(env: Env, conn: Connection, meta: ClassMetadata, data: EntityData, rt: RevType) returns (o: Outcome<Error>)
      requires WellFormed(env) && Registered(env, meta)
      modifies this, conn
      ensures (o, Abs(conn)) == SaveEffect(old(Abs(conn)), Ctx(conn), env, meta, data, rt)
      decreases if NeedsRootRow(meta) then 1 else 0, 1
    {
      KnownTargets(env, meta);
      var rid := GetRevisionId(env, conn);
      if rid.Failure? {
        return Fail(rid.error);
      }
      var r, fkParams, fkTypes, fields := WriteAssociations(env, conn, meta, data, rt);
      if r.Fail? {
        return r;
      }
      var params, types := RevisionParamList(env, meta, data, rid.value, rt, fkParams, fkTypes, fields);
      var rootResult := SaveRootRevisionEntityData(env, conn, meta, data, rt);
      if rootResult.Fail? {
        return rootResult;
      }
      params := UnwrapBackedEnums(params);
      var sql := GetInsertRevisionSql(meta, conn);
      conn.ExecuteStatement(sql, params, types);
      o := Pass;
    }

    /** A subclass of a joined hierarchy also writes the root's row, with its
        discriminator value added to the data. */
    method SaveRootRevisionEntityData(env: Env, conn: Connection, meta: ClassMetadata, data: EntityData, rt: RevType) returns (o: Outcome<Error>)
      requires WellFormed(env) && Registered(env, meta)
      modifies this, conn
      ensures (o, Abs(conn)) == RootRowEffect(old(Abs(conn)), Ctx(conn), env, meta, data, rt)
      decreases if NeedsRootRow(meta) then 1 else 0, 0
    {
      o := Pass;
      if meta.IsInheritanceTypeJoined() && meta.name != meta.rootEntityName && meta.discriminatorColumn.Some? {
        var rootData := data[meta.discriminatorColumn.value.name := OptionalString(meta.discriminatorValue)];
        o := SaveRevisionEntityData(env, conn, env.classes[meta.rootEntityName], rootData, rt);
      }
    }

    method PostPersist(env: Env, conn: Connection, e: EntityRef) returns (o: Outcome<Error>)
      requires Known(env, e)
      modifies this, conn
      ensures (o, Abs(conn)) == PostPersistEffect(old(Abs(conn)), Ctx(conn), env, e)
    {
      var meta := env.classes[e.className];
      if meta.name !in env.audited {
        return Pass;
      }
      var original := OriginalEntityData(env, e, meta);
      var relations := ManyToManyRelations(env, e, meta);
      o := SaveRevisionEntityData(env, conn, meta, original + relations, Ins);
    }

    method PostUpdate(env: Env, conn: Connection, e: EntityRef) returns (o: Outcome<Error>)
      requires Known(env, e)
      modifies this, conn
      ensures (o, Abs(conn)) == PostUpdateEffect(old(Abs(conn)), Ctx(conn), env, e)
    {
      var meta := env.classes[e.className];
      if meta.name !in env.audited {
        return Pass;
      }
      var changeset := RemoveIgnoredColumns(EntityChangeSet(env, e), config.globalIgnoreColumns);
      if |changeset| == 0 {
        return Pass;
      }
      var original := OriginalEntityData(env, e, meta);
      var relations := ManyToManyRelations(env, e, meta);
      o := SaveRevisionEntityData(env, conn, meta, original + IdentifierData(EntityIdentifier(env, e)) + relations, Upd);
    }

    method OnClear()
      modifies this
      ensures extraUpdates == [] && deferred == old(deferred) && revisionId == old(revisionId)
      ensures insertRevisionSql == old(insertRevisionSql) && insertJoinTableRevisionSql == old(insertJoinTableRevisionSql)
    {
      extraUpdates := [];
    }

    /** One scheduled deletion of `onFlush`. */
    method AuditDeletion(env: Env, conn: Connection, e: EntityRef) returns (o: Outcome<Error>)
      requires Known(env, e)
      modifies this, conn
      ensures (o, Abs(conn)) == DeletionEffect(old(Abs(conn)), Ctx(conn), env, e)
    {
      var meta := env.classes[e.className];
      if meta.name !in env.audited {
        return Pass;
      }
      var original := OriginalEntityData(env, e, meta);
      var relations := ManyToManyRelations(env, e, meta);
      o := SaveRevisionEntityData(env, conn, meta, original + IdentifierData(EntityIdentifier(env, e)) + relations, Del);
    }

    /** One pass of the deletion loop of `onFlush`: the entity is audited
        unless an earlier deletion had its hash. */
    method AuditDeletionOnce(env: Env, conn: Connection, i: nat, processed: seq<string>, ghost kept: seq<EntityRef>, ghost s0: State)
      returns (o: Outcome<Error>, processed': seq<string>, ghost kept': seq<EntityRef>)
      requires WellFormed(env) && i < |env.uow.scheduledEntityDeletions|
      requires kept == FirstByHash(env, env.uow.scheduledEntityDeletions[..i])
      requires ElementsOf(processed) == Hashes(env, env.uow.scheduledEntityDeletions[..i])
      requires AllKnown(env, kept) && (Pass, Abs(conn)) == DeletionsFold(s0, Ctx(conn), env, kept)
      modifies this, conn
      ensures kept' == FirstByHash(env, env.uow.scheduledEntityDeletions[..i + 1]) && AllKnown(env, kept')
      ensures ElementsOf(processed') == Hashes(env, env.uow.scheduledEntityDeletions[..i + 1])
      ensures (o, Abs(conn)) == DeletionsFold(s0, Ctx(conn), env, kept')
    {
      var dels := env.uow.scheduledEntityDeletions;
      var e := dels[i];
      FirstByHashStep(env, dels, i);
      KnownDeletions(env, i + 1);
      o, processed', kept' := Pass, processed, kept;
      var hash := GetHash(env, e);
      ElementsOfSnoc(processed, hash);
      if hash !in processed {
        DeletionsFoldSnoc(s0, Ctx(conn), env, kept, e);
        kept' := kept + [e];
        processed' := processed + [hash];
        o := AuditDeletion(env, conn, e);
      }
    }

    /** The deletion loop of `onFlush`: the first entity of each hash is audited. */
    method AuditDeletions(env: Env, conn: Connection) returns (o: Outcome<Error>)
      requires WellFormed(env)
      modifies this, conn
      ensures AllKnown(env, FirstByHash(env, env.uow.scheduledEntityDeletions))
      ensures (o, Abs(conn)) == DeletionsFold(old(Abs(conn)), Ctx(conn), env, FirstByHash(env, env.uow.scheduledEntityDeletions))
    {
      ghost var s0 := Abs(conn);
      var dels := env.uow.scheduledEntityDeletions;
      var processed: seq<string> := [];
      ghost var kept: seq<EntityRef> := [];
      var i := 0;
      KnownDeletions(env, |dels|);
      assert dels[..|dels|] == dels;
      while i < |dels|
        invariant 0 <= i <= |dels|
        invariant kept == FirstByHash(env, dels[..i]) && AllKnown(env, kept)
        invariant ElementsOf(processed) == Hashes(env, dels[..i])
        invariant (Pass, Abs(conn)) == DeletionsFold(s0, Ctx(conn), env, kept)
      {
        var r;
        r, processed, kept := AuditDeletionOnce(env, conn, i, processed, kept, s0);
        if r.Fail? {
          DeletionsStopAt(s0, Ctx(conn), env, i + 1);
          return r;
        }
        i := i + 1;
      }
      assert dels[..i] == dels;
      o := Pass;
    }

    /** `$this->extraUpdates[spl_object_hash($entity)] = $entity` for each
        audited entity of a schedule. */
    method QueueExtraUpdates(env: Env, es: seq<EntityRef>, ghost conn: Connection)
      modifies this
      ensures Abs(conn) == old(Abs(conn)).(extraUpdates := QueueAudited(old(extraUpdates), env, es))
    {
      ghost var q0 := extraUpdates;
      var j := 0;
      while j < |es|
        invariant 0 <= j <= |es|
        invariant Abs(conn) == old(Abs(conn)).(extraUpdates := QueueAudited(q0, env, es[..j]))
      {
        assert es[..j + 1][..j] == es[..j];
        if es[j].className in env.audited {
          extraUpdates := Put(extraUpdates, es[j].oid, es[j]);
        }
        j := j + 1;
      }
      assert es[..j] == es;
    }

    method OnFlush(env: Env, conn: Connection) returns (o: Outcome<Error>)
      requires WellFormed(env)
      modifies this, conn
      ensures (o, Abs(conn)) == OnFlushEffect(old(Abs(conn)), Ctx(conn), env)
    {
      revisionId := None;
      o := AuditDeletions(env, conn);
      if o.Fail? {
        return;
      }
      QueueExtraUpdates(env, env.uow.scheduledEntityInsertions, conn);
      QueueExtraUpdates(env, env.uow.scheduledEntityUpdates, conn);
    }

    method PostFlush(env: Env, conn: Connection) returns (o: Outcome<Error>)
      requires ClassesKnown(env, Values(extraUpdates))
      modifies this, conn
      ensures (o, Abs(conn)) == PostFlushEffect(old(Abs(conn)), Ctx(conn), env)
    {
      o := WriteExtraUpdates(env, conn, Values(extraUpdates));
      if o.Fail? {
        return;
      }
      o := WriteDeferred(env, conn, deferred);
      if o.Fail? {
        return;
      }
      deferred := [];
    }

    /** postFlush's first loop: the extra update of each queued entity. */
    method WriteExtraUpdates(env: Env, conn: Connection, queue: seq<EntityRef>) returns (o: Outcome<Error>)
      requires ClassesKnown(env, queue)
      modifies this, conn
      ensures (o, Abs(conn)) == ExtraUpdatesFold(old(Abs(conn)), Ctx(conn), env, queue)
    {
      ghost var s0 := Abs(conn);
      assert queue[0..] == queue;
      var i := 0;
      while i < |queue|
        invariant 0 <= i <= |queue|
        invariant ClassesKnown(env, queue[i..])
        invariant ExtraUpdatesFold(s0, Ctx(conn), env, queue) == ExtraUpdatesFold(Abs(conn), Ctx(conn), env, queue[i..])
      {
        ExtraUpdatesFoldFrom(Abs(conn), Ctx(conn), env, queue, i);
        var r := ExtraUpdate(env, conn, queue[i]);
        if r.Fail? {
          return r;
        }
        i := i + 1;
      }
      o := Pass;
    }

    /** postFlush's second loop: the join rows deferred until their entities
        had identifiers. */
    method WriteDeferred(env: Env, conn: Connection, ws: seq<DeferredWrite>) returns (o: Outcome<Error>)
      modifies this, conn
      ensures (o, Abs(conn)) == DeferredFold(old(Abs(conn)), Ctx(conn), env, ws)
    {
      ghost var s0 := Abs(conn);
      var k := 0;
      while k < |ws|
        invariant 0 <= k <= |ws|
        invariant (Pass, Abs(conn)) == DeferredFold(s0, Ctx(conn), env, ws[..k])
      {
        DeferredFoldNext(s0, Ctx(conn), env, ws, k);
        var r := RecordRevisionForManyToManyEntity(env, conn, ws[k]);
        if r.Fail? {
          DeferredFoldStops(s0, Ctx(conn), env, ws, k + 1);
          return r;
        }
        k := k + 1;
      }
      assert ws[..k] == ws;
      o := Pass;
    }

    /** The body of postFlush's loop for one queued entity. */
    method ExtraUpdate(env: Env, conn: Connection, e: EntityRef) returns (o: Outcome<Error>)
      requires e.className in env.classes
      modifies this, conn
      ensures (o, Abs(conn)) == ExtraUpdateEffect(old(Abs(conn)), Ctx(conn), env, e)
    {
      var meta := env.classes[e.className];
      var updateData := PrepareUpdateData(env, meta, e);
      if meta.tableName !in updateData || updateData[meta.tableName] == [] {
        return Pass;
      }
      var setClause := BuildSetClause(env, meta, updateData[meta.tableName]);
      if setClause.Failure? {
        return Fail(setClause.error);
      }
      var rid := GetRevisionId(env, conn);
      if rid.Failure? {
        return Fail(rid.error);
      }
      var keys := BuildKeyClause(env, meta, e);
      if keys.Failure? {
        return Fail(keys.error);
      }
      conn.ExecuteQuery(
        UpdateSet(config.TableName(meta), setClause.value.assignments, config.revisionFieldName, keys.value.columns),
        setClause.value.params + [ToValue(rid.value)] + keys.value.params,
        setClause.value.types + [Named(config.revisionIdFieldType)] + keys.value.types);
      o := Pass;
    }
  }
}
