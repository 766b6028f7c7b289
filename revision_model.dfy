/** What each hook of the listener does, as functions from the listener's
    state (its caches, current revision id, queued extra updates and
    deferred join rows) together with the connection's log to the new state.
    A failure is an exception: it stops the hook, and whatever was already
    written or cached stays. */
module RevisionModel {
  import opened Wrappers
  import opened PhpArray
  import opened Mapping
  import opened Orm
  import opened Dbal
  import opened Config
  import opened Revisions
  import opened Templates
  import opened ExtraUpdates
  import opened Hashing

  /** The listener's fields and the connection's log and revision count. */
  datatype State = State(
    revisionId: Option<IdValue>,
    insertRevisionSql: map<string, Sql>,
    insertJoinTableRevisionSql: map<string, Sql>,
    extraUpdates: seq<(Oid, EntityRef)>,
    deferred: seq<DeferredWrite>,
    log: seq<Statement>,
    revisionInserts: nat)

  /** The configuration and the ids the database hands out for revision rows. */
  datatype Context = Context(cfg: AuditConfiguration, ids: nat -> Option<IdValue>)

  // ------------------------------------------------------------------
  // Revision id and statement caches

  /** `getRevisionId`: the current revision, or a new revision row and the id
      the database assigned to it; an error when it assigned none. */
  function AllocateRevision(s: State, ctx: Context, now: int): (Result<IdValue, Error>, State) {
    if s.revisionId.Some? then (Success(s.revisionId.value), s)
    else
      var s1 := s.(log := s.log + [InsertRevision(ctx.cfg.revisionTableName, now, ctx.cfg.currentUsername)],
                   revisionInserts := s.revisionInserts + 1);
      match ctx.ids(s1.revisionInserts)
      case None => (Failure(RevisionIdUnavailable), s1)
      case Some(r) => (Success(r), s1.(revisionId := Some(r)))
  }

  /** `getInsertRevisionSQL`: the cached statement of the class, built and
      cached on first use. */
  function CachedInsertSql(s: State, cfg: AuditConfiguration, meta: ClassMetadata): (Sql, State) {
    if meta.name in s.insertRevisionSql then (s.insertRevisionSql[meta.name], s)
    else
      var sql := InsertRevisionSql(cfg, meta);
      (sql, s.(insertRevisionSql := s.insertRevisionSql[meta.name := sql]))
  }

  /** `getInsertJoinTableRevisionSQL` */
  function CachedJoinSql(s: State, cfg: AuditConfiguration, w: DeferredWrite): (Sql, State) {
    var key := JoinKey(w.sourceClass, w.targetClass, w.assoc);
    if key in s.insertJoinTableRevisionSql then (s.insertJoinTableRevisionSql[key], s)
    else
      var sql := JoinTableRevisionSql(cfg, w.assoc);
      (sql, s.(insertJoinTableRevisionSql := s.insertJoinTableRevisionSql[key := sql]))
  }

  function Append(s: State, st: Statement): State {
    s.(log := s.log + [st])
  }

  // ------------------------------------------------------------------
  // Join rows of many-to-many associations

  /** `recordRevisionForManyToManyEntity` */
  function RecordEffect(s: State, ctx: Context, env: Env, w: DeferredWrite): (Outcome<Error>, State) {
    var (rid, s1) := AllocateRevision(s, ctx, env.now);
    match rid
    case Failure(err) => (Fail(err), s1)
    case Success(r) =>
      var (sql, s2) := CachedJoinSql(s1, ctx.cfg, w);
      (Pass, Append(s2, Execute(sql, JoinParams(env, w, r), JoinTypes(w))))
  }

  /** The related entities of a many-to-many value (a non-collection value
      yields none). */
  function CollectionItems(v: Value): seq<EntityRef> {
    if v.Collection? then v.items else []
  }

  /** One related entity: a class with a composite identifier throws; the
      join row is deferred to postFlush while the entity has no identifier yet,
      and written now otherwise. */
  function RelatedEffect(s: State, ctx: Context, env: Env, w: DeferredWrite): (Outcome<Error>, State) {
    match SingleIdentifierValue(env, w.entity)
    case Failure(err) => (Fail(UnitOfWorkError(err)), s)
    case Success(id) =>
      if id == Null then (Pass, s.(deferred := s.deferred + [w]))
      else RecordEffect(s, ctx, env, w)
  }

  function RelatedFold(s: State, ctx: Context, env: Env, rt: RevType, data: EntityData, a: Association,
                       meta: ClassMetadata, target: ClassMetadata, items: seq<EntityRef>): (Outcome<Error>, State)
    decreases |items|
  {
    if items == [] then (Pass, s)
    else
      var (o, s1) := RelatedFold(s, ctx, env, rt, data, a, meta, target, items[..|items| - 1]);
      if o.Fail? then (o, s1)
      else RelatedEffect(s1, ctx, env, DeferredWrite(items[|items| - 1], rt, data, a, meta, target))
  }

  /** Whether an association writes join rows when its owner is saved. */
  predicate WritesJoinRows(meta: ClassMetadata, a: Association) {
    !SkipsAssociation(meta, a) && IsOwningSide(a) && !IsToOneOwningSide(a) && IsManyToManyOwningSide(a)
  }

  function AssocJoinRowsEffect(s: State, ctx: Context, env: Env, meta: ClassMetadata, data: EntityData, rt: RevType, a: Association): (Outcome<Error>, State)
    requires a.targetEntity in env.classes
  {
    if !WritesJoinRows(meta, a) then (Pass, s)
    else
      var v := Lookup(data, a.fieldName);
      if v == Null then (Pass, s)
      else RelatedFold(s, ctx, env, rt, data, a, meta, env.classes[a.targetEntity], CollectionItems(v))
  }

  function JoinRowsFold(s: State, ctx: Context, env: Env, meta: ClassMetadata, data: EntityData, rt: RevType, assocs: seq<Association>): (Outcome<Error>, State)
    requires TargetsKnown(env, assocs)
    decreases |assocs|
  {
    if assocs == [] then (Pass, s)
    else
      var (o, s1) := JoinRowsFold(s, ctx, env, meta, data, rt, assocs[..|assocs| - 1]);
      if o.Fail? then (o, s1)
      else AssocJoinRowsEffect(s1, ctx, env, meta, data, rt, assocs[|assocs| - 1])
  }

  // ------------------------------------------------------------------
  // Audit rows

  lemma KnownTargets(env: Env, meta: ClassMetadata)
    requires WellFormed(env) && Registered(env, meta)
    ensures TargetsKnown(env, meta.associationMappings)
  {
    forall i | 0 <= i < |meta.associationMappings| ensures meta.associationMappings[i].targetEntity in env.classes {
      assert meta.associationMappings[i] in env.classes[meta.name].associationMappings;
    }
  }

  /** The root's copy of the data: the subclass's discriminator value added. */
  function RootData(meta: ClassMetadata, data: EntityData): EntityData
    requires meta.discriminatorColumn.Some?
  {
    data[meta.discriminatorColumn.value.name := OptionalString(meta.discriminatorValue)]
  }

  /** The root class of a registered class. */
  function RootClass(env: Env, meta: ClassMetadata): ClassMetadata
    requires WellFormed(env) && Registered(env, meta)
  {
    env.classes[meta.rootEntityName]
  }

  /** `saveRevisionEntityData`: the revision id, the join rows of many-to-many
      associations, the root's row for a joined subtype, then the class's
      own row. */
  function SaveEffect(s: State, ctx: Context, env: Env, meta: ClassMetadata, data: EntityData, rt: RevType): (Outcome<Error>, State)
    requires WellFormed(env) && Registered(env, meta)
    decreases if NeedsRootRow(meta) then 1 else 0, 3
  {
    var (rid, s1) := AllocateRevision(s, ctx, env.now);
    match rid
    case Failure(err) => (Fail(err), s1)
    case Success(r) => RowsEffect(s1, ctx, env, meta, data, rt, r)
  }

  /** What `saveRevisionEntityData` writes once it has revision `r`. */
  function RowsEffect(s: State, ctx: Context, env: Env, meta: ClassMetadata, data: EntityData, rt: RevType, r: IdValue): (Outcome<Error>, State)
    requires WellFormed(env) && Registered(env, meta)
    decreases if NeedsRootRow(meta) then 1 else 0, 2
  {
    KnownTargets(env, meta);
    var (o1, s1) := JoinRowsFold(s, ctx, env, meta, data, rt, meta.associationMappings);
    if o1.Fail? then (o1, s1)
    else
      var (o2, s2) := RootRowEffect(s1, ctx, env, meta, data, rt);
      if o2.Fail? then (o2, s2)
      else (Pass, OwnRowEffect(s2, ctx, env, meta, data, rt, r))
  }

  /** The root's row of a joined subtype, saved with the same change type. */
  function RootRowEffect(s: State, ctx: Context, env: Env, meta: ClassMetadata, data: EntityData, rt: RevType): (Outcome<Error>, State)
    requires WellFormed(env) && Registered(env, meta)
    decreases if NeedsRootRow(meta) then 1 else 0, 0
  {
    if NeedsRootRow(meta) then SaveEffect(s, ctx, env, RootClass(env, meta), RootData(meta, data), rt)
    else (Pass, s)
  }

  /** The class's own row: its cached template, the parameters with
      BackedEnums unwrapped, and the types. */
  function OwnRowEffect(s: State, ctx: Context, env: Env, meta: ClassMetadata, data: EntityData, rt: RevType, r: IdValue): State
    requires TargetsKnown(env, meta.associationMappings)
  {
    var (sql, s1) := CachedInsertSql(s, ctx.cfg, meta);
    Append(s1, Execute(sql, UnwrapEnums(RevisionParams(env, meta, data, r, rt)), RevisionTypes(env, meta, data)))
  }

  // ------------------------------------------------------------------
  // Entity data handed to the audit row

  /** `getManyToManyRelations`: the current value of every owning
      many-to-many field. */
  function ManyToManyRelationsOf(env: Env, e: EntityRef, assocs: seq<Association>): EntityData
    decreases |assocs|
  {
    if assocs == [] then map[]
    else
      var a := assocs[|assocs| - 1];
      var m := ManyToManyRelationsOf(env, e, assocs[..|assocs| - 1]);
      if IsManyToManyOwningSide(a) then m[a.fieldName := PropertyValue(env, e, a.fieldName)] else m
  }

  /** The data saved for an entity: its original data, then (for updates and
      deletions) its identifier, then its many-to-many relations; later
      parts win on a shared key (`array_merge`). */
  function EventData(env: Env, e: EntityRef, meta: ClassMetadata, withIdentifier: bool): EntityData {
    if withIdentifier then
      OriginalEntityData(env, e, meta) + IdentifierData(EntityIdentifier(env, e)) + ManyToManyRelationsOf(env, e, meta.associationMappings)
    else
      OriginalEntityData(env, e, meta) + ManyToManyRelationsOf(env, e, meta.associationMappings)
  }

  /** The loop of `getManyToManyRelations`. */
  method ManyToManyRelations(env: Env, e: EntityRef, meta: ClassMetadata) returns (data: EntityData)
    ensures data == ManyToManyRelationsOf(env, e, meta.associationMappings)
  {
    var assocs := meta.associationMappings;
    data := map[];
    var i := 0;
    while i < |assocs|
      invariant 0 <= i <= |assocs|
      invariant data == ManyToManyRelationsOf(env, e, assocs[..i])
    {
      assert assocs[..i + 1][..i] == assocs[..i];
      if IsManyToManyOwningSide(assocs[i]) {
        data := data[assocs[i].fieldName := PropertyValue(env, e, assocs[i].fieldName)];
      }
      i := i + 1;
    }
    assert assocs[..i] == assocs;
  }

  /** The relations hold a field exactly when an owning many-to-many
      association has that name, and then its current value. */
  lemma {:induction false} ManyToManyRelationsSpec(env: Env, e: EntityRef, assocs: seq<Association>, f: string)
    ensures f in ManyToManyRelationsOf(env, e, assocs) <==>
      exists i :: 0 <= i < |assocs| && IsManyToManyOwningSide(assocs[i]) && assocs[i].fieldName == f
    ensures f in ManyToManyRelationsOf(env, e, assocs) ==> ManyToManyRelationsOf(env, e, assocs)[f] == PropertyValue(env, e, f)
  {
    if assocs != [] {
      var n := |assocs| - 1;
      ManyToManyRelationsSpec(env, e, assocs[..n], f);
      if exists i :: 0 <= i < |assocs| && IsManyToManyOwningSide(assocs[i]) && assocs[i].fieldName == f {
        var i :| 0 <= i < |assocs| && IsManyToManyOwningSide(assocs[i]) && assocs[i].fieldName == f;
        if i < n { assert assocs[..n][i] == assocs[i]; }
      }
      if exists i :: 0 <= i < n && IsManyToManyOwningSide(assocs[..n][i]) && assocs[..n][i].fieldName == f {
        var i :| 0 <= i < n && IsManyToManyOwningSide(assocs[..n][i]) && assocs[..n][i].fieldName == f;
        assert assocs[i] == assocs[..n][i];
      }
    }
  }

  ghost predicate Known(env: Env, e: EntityRef) {
    WellFormed(env) && e.className in env.classes
  }

  function IgnoredColumns(cfg: AuditConfiguration): set<string> {
    ElementsOf(cfg.globalIgnoreColumns)
  }

  /** The loop of `postUpdate` that drops globally ignored columns from the
      change set. */
  method RemoveIgnoredColumns(changeset: seq<(string, Change)>, ignore: seq<string>) returns (r: seq<(string, Change)>)
    ensures r == Without(changeset, ElementsOf(ignore))
  {
    r := changeset;
    var k := 0;
    assert ElementsOf(ignore[..0]) == {};
    WithoutNothing(changeset);
    while k < |ignore|
      invariant 0 <= k <= |ignore|
      invariant r == Without(changeset, ElementsOf(ignore[..k]))
    {
      var column := ignore[k];
      assert ignore[..k + 1] == ignore[..k] + [column];
      assert ElementsOf(ignore[..k + 1]) == ElementsOf(ignore[..k]) + {column};
      RemoveKeyWithout(changeset, ElementsOf(ignore[..k]), column);
      if Get(r, column).Some? {
        r := RemoveKey(r, column);
      } else {
        RemoveAbsentKey(r, column);
      }
      k := k + 1;
    }
    assert ignore[..k] == ignore;
  }

  lemma {:induction false} WithoutNothing<K, V>(m: seq<(K, V)>)
    ensures Without(m, {}) == m
  {
    if m != [] {
      WithoutNothing(m[1..]);
      assert m == [m[0]] + m[1..];
    }
  }

  // ------------------------------------------------------------------
  // The hooks

  /** `postPersist` */
  function PostPersistEffect(s: State, ctx: Context, env: Env, e: EntityRef): (Outcome<Error>, State)
    requires Known(env, e)
  {
    var meta := env.classes[e.className];
    if meta.name !in env.audited then (Pass, s)
    else SaveEffect(s, ctx, env, meta, EventData(env, e, meta, false), Ins)
  }

  /** `postUpdate`: nothing is written when every changed field is globally
      ignored. */
  function PostUpdateEffect(s: State, ctx: Context, env: Env, e: EntityRef): (Outcome<Error>, State)
    requires Known(env, e)
  {
    var meta := env.classes[e.className];
    if meta.name !in env.audited then (Pass, s)
    else if |Without(EntityChangeSet(env, e), IgnoredColumns(ctx.cfg))| == 0 then (Pass, s)
    else SaveEffect(s, ctx, env, meta, EventData(env, e, meta, true), Upd)
  }

  /** One scheduled deletion of onFlush. */
  function DeletionEffect(s: State, ctx: Context, env: Env, e: EntityRef): (Outcome<Error>, State)
    requires Known(env, e)
  {
    var meta := env.classes[e.className];
    if meta.name !in env.audited then (Pass, s)
    else SaveEffect(s, ctx, env, meta, EventData(env, e, meta, true), Del)
  }

  /** Every entity of the list has registered metadata. */
  ghost predicate ClassesKnown(env: Env, es: seq<EntityRef>) {
    forall k :: 0 <= k < |es| ==> es[k].className in env.classes
  }

  ghost predicate AllKnown(env: Env, es: seq<EntityRef>) {
    WellFormed(env) && ClassesKnown(env, es)
  }

  lemma ClassesKnownPrefix(env: Env, es: seq<EntityRef>, k: nat)
    requires ClassesKnown(env, es) && k <= |es|
    ensures ClassesKnown(env, es[..k])
  {
    assert forall i :: 0 <= i < k ==> es[..k][i] == es[i];
  }

  lemma AllKnownPrefix(env: Env, es: seq<EntityRef>, k: nat)
    requires AllKnown(env, es) && k <= |es|
    ensures AllKnown(env, es[..k])
  {
    ClassesKnownPrefix(env, es, k);
  }

  /** The kept deletions of a prefix of the scheduled deletions are of known classes. */
  lemma KnownDeletions(env: Env, k: nat)
    requires WellFormed(env) && k <= |env.uow.scheduledEntityDeletions|
    ensures AllKnown(env, FirstByHash(env, env.uow.scheduledEntityDeletions[..k]))
  {
    var dels := env.uow.scheduledEntityDeletions;
    FirstByHashSubset(env, dels[..k]);
    forall x | x in dels[..k] ensures x.className in env.classes {
      var i :| 0 <= i < k && dels[..k][i] == x;
      assert dels[i] == x;
    }
  }

  function DeletionsFold(s: State, ctx: Context, env: Env, es: seq<EntityRef>): (Outcome<Error>, State)
    requires AllKnown(env, es)
    decreases |es|
  {
    if es == [] then (Pass, s)
    else
      var (o, s1) := DeletionsFold(s, ctx, env, es[..|es| - 1]);
      if o.Fail? then (o, s1) else DeletionEffect(s1, ctx, env, es[|es| - 1])
  }

  /** `$this->extraUpdates[spl_object_hash($e)] = $e` for each audited entity. */
  function QueueAudited(q: seq<(Oid, EntityRef)>, env: Env, es: seq<EntityRef>): seq<(Oid, EntityRef)>
    decreases |es|
  {
    if es == [] then q
    else
      var e := es[|es| - 1];
      var q1 := QueueAudited(q, env, es[..|es| - 1]);
      if e.className in env.audited then Put(q1, e.oid, e) else q1
  }

  /** `onFlush`: a fresh revision, one audit row per scheduled deletion
      (the first of each hash), and every audited scheduled insertion and
      update queued for an extra update. */
  function OnFlushEffect(s: State, ctx: Context, env: Env): (Outcome<Error>, State)
    requires WellFormed(env)
  {
    var dels := FirstByHash(env, env.uow.scheduledEntityDeletions);
    FirstByHashSubset(env, env.uow.scheduledEntityDeletions);
    var (o, s1) := DeletionsFold(s.(revisionId := None), ctx, env, dels);
    if o.Fail? then (o, s1)
    else
      (Pass, s1.(extraUpdates := QueueAudited(QueueAudited(s1.extraUpdates, env, env.uow.scheduledEntityInsertions),
                                              env, env.uow.scheduledEntityUpdates)))
  }

  /** The UPDATE of one queued entity's audit row. */
  function ExtraUpdateStatement(ctx: Context, meta: ClassMetadata, sc: SetClause, r: IdValue, kc: KeyClause): Statement {
    Query(UpdateSet(ctx.cfg.TableName(meta), sc.assignments, ctx.cfg.revisionFieldName, kc.columns),
          sc.params + [ToValue(r)] + kc.params,
          sc.types + [Named(ctx.cfg.revisionIdFieldType)] + kc.types)
  }

  /** One queued entity of postFlush: nothing when its own table has no
      update data, and its extra update otherwise. */
  function ExtraUpdateEffect(s: State, ctx: Context, env: Env, e: EntityRef): (Outcome<Error>, State)
    requires e.className in env.classes
  {
    var meta := env.classes[e.className];
    var data := UpdateDataOf(env, meta, EntityChangeSet(env, e));
    if meta.tableName !in data || data[meta.tableName] == [] then (Pass, s)
    else ExtraUpdateRowEffect(s, ctx, env, meta, e, data[meta.tableName])
  }

  /** The extra update of a non-empty row of the entity's own table: the SET
      list, the revision id and the key list, in that order, each of which
      may fail. */
  function ExtraUpdateRowEffect(s: State, ctx: Context, env: Env, meta: ClassMetadata, e: EntityRef, row: Row): (Outcome<Error>, State) {
    match SetClauseOf(env, meta, row)
    case Failure(err) => (Fail(err), s)
    case Success(sc) =>
      var (rid, s1) := AllocateRevision(s, ctx, env.now);
      match rid
      case Failure(err) => (Fail(err), s1)
      case Success(r) =>
        match KeyClauseOf(env, meta, e, meta.identifier)
        case Failure(err) => (Fail(err), s1)
        case Success(kc) => (Pass, Append(s1, ExtraUpdateStatement(ctx, meta, sc, r, kc)))
  }

  /** The extra updates of the queue in order, stopping at the first failure. */
  function ExtraUpdatesFold(s: State, ctx: Context, env: Env, es: seq<EntityRef>): (Outcome<Error>, State)
    requires ClassesKnown(env, es)
    decreases |es|
  {
    if es == [] then (Pass, s)
    else
      var (o, s1) := ExtraUpdateEffect(s, ctx, env, es[0]);
      if o.Fail? then (o, s1) else ExtraUpdatesFold(s1, ctx, env, es[1..])
  }

  function DeferredFold(s: State, ctx: Context, env: Env, ws: seq<DeferredWrite>): (Outcome<Error>, State)
    decreases |ws|
  {
    if ws == [] then (Pass, s)
    else
      var (o, s1) := DeferredFold(s, ctx, env, ws[..|ws| - 1]);
      if o.Fail? then (o, s1) else RecordEffect(s1, ctx, env, ws[|ws| - 1])
  }

  /** `postFlush`: the extra updates, then the deferred join rows, and the
      deferred list emptied once all are written. The queue of extra updates
      is kept. */
  function PostFlushEffect(s: State, ctx: Context, env: Env): (Outcome<Error>, State)
    requires ClassesKnown(env, Values(s.extraUpdates))
  {
    var (o1, s1) := ExtraUpdatesFold(s, ctx, env, Values(s.extraUpdates));
    if o1.Fail? then (o1, s1)
    else
      var (o2, s2) := DeferredFold(s1, ctx, env, s1.deferred);
      if o2.Fail? then (o2, s2) else (Pass, s2.(deferred := []))
  }

  /** `onClear`: only the queue of extra updates is emptied. */
  function OnClearEffect(s: State): State {
    s.(extraUpdates := [])
  }

  // ------------------------------------------------------------------
  // A failure stops a fold: what follows it is not run

  lemma {:induction false} RelatedFoldStops(s: State, ctx: Context, env: Env, rt: RevType, data: EntityData, a: Association,
                                             meta: ClassMetadata, target: ClassMetadata, items: seq<EntityRef>, k: nat)
    requires k <= |items| && RelatedFold(s, ctx, env, rt, data, a, meta, target, items[..k]).0.Fail?
    ensures RelatedFold(s, ctx, env, rt, data, a, meta, target, items) == RelatedFold(s, ctx, env, rt, data, a, meta, target, items[..k])
    decreases |items|
  {
    if k < |items| {
      var n := |items| - 1;
      assert items[..n][..k] == items[..k];
      RelatedFoldStops(s, ctx, env, rt, data, a, meta, target, items[..n], k);
    } else {
      assert items[..k] == items;
    }
  }

  /** One more related entity of the many-to-many loop. */
  lemma RelatedFoldNext(s: State, ctx: Context, env: Env, rt: RevType, data: EntityData, a: Association,
                        meta: ClassMetadata, target: ClassMetadata, items: seq<EntityRef>, j: nat)
    requires j < |items|
    ensures var (o, s1) := RelatedFold(s, ctx, env, rt, data, a, meta, target, items[..j]);
      RelatedFold(s, ctx, env, rt, data, a, meta, target, items[..j + 1])
        == if o.Fail? then (o, s1) else RelatedEffect(s1, ctx, env, DeferredWrite(items[j], rt, data, a, meta, target))
  {
    assert items[..j + 1][..j] == items[..j];
  }

  /** One more association of `saveRevisionEntityData`'s loop: what the
      prefix one longer writes and collects. */
  lemma JoinRowsFoldNext(s: State, ctx: Context, env: Env, meta: ClassMetadata, data: EntityData, rt: RevType, assocs: seq<Association>, i: nat)
    requires TargetsKnown(env, assocs) && i < |assocs|
    ensures TargetsKnown(env, assocs[..i]) && TargetsKnown(env, assocs[..i + 1]) && assocs[i].targetEntity in env.classes
    ensures FkParams(env, meta, data, assocs[..i + 1]) == FkParams(env, meta, data, assocs[..i]) + AssocFkParams(env, meta, data, assocs[i])
    ensures FkTypes(env, meta, data, assocs[..i + 1]) == FkTypes(env, meta, data, assocs[..i]) + AssocFkTypes(env, meta, data, assocs[i])
    ensures ElementsOf(FkSourceColumns(meta, assocs[..i + 1])) == ElementsOf(FkSourceColumns(meta, assocs[..i])) + ElementsOf(AssocFkSourceColumns(meta, assocs[i]))
    ensures var (o, s1) := JoinRowsFold(s, ctx, env, meta, data, rt, assocs[..i]);
      JoinRowsFold(s, ctx, env, meta, data, rt, assocs[..i + 1]) == if o.Fail? then (o, s1) else AssocJoinRowsEffect(s1, ctx, env, meta, data, rt, assocs[i])
  {
    assert assocs[..i + 1][..i] == assocs[..i];
    ElementsOfConcat(FkSourceColumns(meta, assocs[..i]), AssocFkSourceColumns(meta, assocs[i]));
  }

  lemma {:induction false} JoinRowsFoldStops(s: State, ctx: Context, env: Env, meta: ClassMetadata, data: EntityData, rt: RevType, assocs: seq<Association>, k: nat)
    requires TargetsKnown(env, assocs)
    requires k <= |assocs| && JoinRowsFold(s, ctx, env, meta, data, rt, assocs[..k]).0.Fail?
    ensures JoinRowsFold(s, ctx, env, meta, data, rt, assocs) == JoinRowsFold(s, ctx, env, meta, data, rt, assocs[..k])
    decreases |assocs|
  {
    if k < |assocs| {
      var n := |assocs| - 1;
      assert assocs[..n][..k] == assocs[..k];
      JoinRowsFoldStops(s, ctx, env, meta, data, rt, assocs[..n], k);
    } else {
      assert assocs[..k] == assocs;
    }
  }

  /** A failure before the last element is the outcome of the whole fold. */
  lemma DeletionsFoldFails(s: State, ctx: Context, env: Env, es: seq<EntityRef>)
    requires AllKnown(env, es) && es != []
    requires DeletionsFold(s, ctx, env, es[..|es| - 1]).0.Fail?
    ensures DeletionsFold(s, ctx, env, es) == DeletionsFold(s, ctx, env, es[..|es| - 1])
  {
  }

  lemma {:induction false} DeletionsFoldStops(s: State, ctx: Context, env: Env, es: seq<EntityRef>, k: nat)
    requires AllKnown(env, es)
    requires k <= |es| && DeletionsFold(s, ctx, env, es[..k]).0.Fail?
    ensures DeletionsFold(s, ctx, env, es) == DeletionsFold(s, ctx, env, es[..k])
    decreases |es|
  {
    if k < |es| {
      var n := |es| - 1;
      AllKnownPrefix(env, es, n);
      AllKnownPrefix(env, es, k);
      assert DeletionsFold(s, ctx, env, es[..n]) == DeletionsFold(s, ctx, env, es[..k]) by {
        assert es[..n][..k] == es[..k];
        DeletionsFoldStops(s, ctx, env, es[..n], k);
      }
      DeletionsFoldFails(s, ctx, env, es);
    } else {
      assert es[..k] == es;
    }
  }

  /** One more kept deletion. */
  lemma DeletionsFoldSnoc(s: State, ctx: Context, env: Env, es: seq<EntityRef>, e: EntityRef)
    requires AllKnown(env, es) && Known(env, e)
    ensures AllKnown(env, es + [e])
    ensures DeletionsFold(s, ctx, env, es + [e]) ==
      var (o, s1) := DeletionsFold(s, ctx, env, es);
      if o.Fail? then (o, s1) else DeletionEffect(s1, ctx, env, e)
  {
    assert forall k :: 0 <= k < |es| ==> (es + [e])[k] == es[k];
    assert (es + [e])[..|es|] == es;
  }

  /** A deletion that throws ends onFlush's deletion loop with its outcome. */
  lemma DeletionsStopAt(s: State, ctx: Context, env: Env, i: nat)
    requires WellFormed(env) && i <= |env.uow.scheduledEntityDeletions|
    requires AllKnown(env, FirstByHash(env, env.uow.scheduledEntityDeletions[..i]))
    requires DeletionsFold(s, ctx, env, FirstByHash(env, env.uow.scheduledEntityDeletions[..i])).0.Fail?
    ensures AllKnown(env, FirstByHash(env, env.uow.scheduledEntityDeletions))
    ensures DeletionsFold(s, ctx, env, FirstByHash(env, env.uow.scheduledEntityDeletions))
         == DeletionsFold(s, ctx, env, FirstByHash(env, env.uow.scheduledEntityDeletions[..i]))
  {
    var dels := env.uow.scheduledEntityDeletions;
    KnownDeletions(env, |dels|);
    assert dels[..|dels|] == dels;
    FirstByHashPrefix(env, dels, i);
    DeletionsFoldStops(s, ctx, env, FirstByHash(env, dels), |FirstByHash(env, dels[..i])|);
  }

  /** One more queued entity of postFlush's first loop: the fold of the
      entries from `i` on is the effect of entry `i`, then the rest. */
  lemma ExtraUpdatesFoldFrom(s: State, ctx: Context, env: Env, es: seq<EntityRef>, i: nat)
    requires ClassesKnown(env, es) && i < |es|
    ensures ClassesKnown(env, es[i..]) && ClassesKnown(env, es[i + 1..]) && es[i].className in env.classes
    ensures ExtraUpdatesFold(s, ctx, env, es[i..])
      == var (o, s1) := ExtraUpdateEffect(s, ctx, env, es[i]);
         if o.Fail? then (o, s1) else ExtraUpdatesFold(s1, ctx, env, es[i + 1..])
  {
    assert forall k :: i <= k < |es| ==> es[i..][k - i] == es[k];
    assert es[i..][1..] == es[i + 1..];
  }

  /** One more deferred join row of postFlush's second loop. */
  lemma DeferredFoldNext(s: State, ctx: Context, env: Env, ws: seq<DeferredWrite>, i: nat)
    requires i < |ws|
    ensures var (o, s1) := DeferredFold(s, ctx, env, ws[..i]);
      DeferredFold(s, ctx, env, ws[..i + 1]) == if o.Fail? then (o, s1) else RecordEffect(s1, ctx, env, ws[i])
  {
    assert ws[..i + 1][..i] == ws[..i];
  }

  /** A failure before the last element is the outcome of the whole fold. */
  lemma DeferredFoldFails(s: State, ctx: Context, env: Env, ws: seq<DeferredWrite>)
    requires ws != []
    requires DeferredFold(s, ctx, env, ws[..|ws| - 1]).0.Fail?
    ensures DeferredFold(s, ctx, env, ws) == DeferredFold(s, ctx, env, ws[..|ws| - 1])
  {
  }

  lemma {:induction false} DeferredFoldStops(s: State, ctx: Context, env: Env, ws: seq<DeferredWrite>, k: nat)
    requires k <= |ws| && DeferredFold(s, ctx, env, ws[..k]).0.Fail?
    ensures DeferredFold(s, ctx, env, ws) == DeferredFold(s, ctx, env, ws[..k])
    decreases |ws|
  {
    if k < |ws| {
      var n := |ws| - 1;
      assert DeferredFold(s, ctx, env, ws[..n]) == DeferredFold(s, ctx, env, ws[..k]) by {
        assert ws[..n][..k] == ws[..k];
        DeferredFoldStops(s, ctx, env, ws[..n], k);
      }
      DeferredFoldFails(s, ctx, env, ws);
    } else {
      assert ws[..k] == ws;
    }
  }
}
