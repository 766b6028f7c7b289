/** What a flush writes, stated over the revision model: one revision row at
    most, and every audit row, join row and extra update bound to that one
    revision; the INSERT templates in the cache are the ones the metadata
    describes, so every audit row has as many parameters as placeholders. */
module Properties {
  import opened Wrappers
  import opened PhpArray
  import opened Mapping
  import opened Orm
  import opened Dbal
  import opened Config
  import opened Revisions
  import opened Templates
  import opened ExtraUpdates
  import opened Hashing
  import opened RevisionModel

  // ------------------------------------------------------------------
  // Revision rows and the revision a statement writes

  /** The number of rows inserted into the revisions table. */
  function RevisionRows(log: seq<Statement>): nat
    decreases |log|
  {
    if log == [] then 0
    else RevisionRows(log[..|log| - 1]) + (if log[|log| - 1].InsertRevision? then 1 else 0)
  }

  /** The statement writes revision `r`: an INSERT binds it to its first
      column (the revision column of an audit row or a join row), an UPDATE
      binds it to the `revisionColumn = ?` test after the SET list. */
  predicate Tagged(st: Statement, r: IdValue) {
    match st
    case InsertRevision(_, _, _) => false
    case Execute(_, params, _) => params != [] && params[0] == ToValue(r)
    case Query(sql, params, _) => sql.UpdateSet? && |sql.assignments| < |params| && params[|sql.assignments|] == ToValue(r)
  }

  ghost predicate AllTagged(sts: seq<Statement>, r: IdValue) {
    forall k :: 0 <= k < |sts| ==> Tagged(sts[k], r)
  }

  /** The statements `t` added to `s`'s log. */
  function Fresh(s: State, t: State): seq<Statement>
    requires |s.log| <= |t.log|
  {
    t.log[|s.log|..]
  }

  /** `t` follows `s` by the writes of one revision: the log only grows, the
      connection's count of revision rows follows the log, and either a
      revision was already current (it stays, and every new statement writes
      it), or none was and either nothing was written or a revision row was
      inserted first and every later statement writes that revision. */
  ghost predicate Advances(s: State, t: State) {
    && |s.log| <= |t.log| && t.log[..|s.log|] == s.log
    && t.revisionInserts == s.revisionInserts + RevisionRows(Fresh(s, t))
    && match s.revisionId
       case Some(r) => t.revisionId == Some(r) && AllTagged(Fresh(s, t), r)
       case None =>
         || (t.revisionId == None && Fresh(s, t) == [])
         || (t.revisionId.Some? && Fresh(s, t) != [] && Fresh(s, t)[0].InsertRevision?
             && AllTagged(Fresh(s, t)[1..], t.revisionId.value))
  }

  lemma {:induction false} RevisionRowsConcat(a: seq<Statement>, b: seq<Statement>)
    ensures RevisionRows(a + b) == RevisionRows(a) + RevisionRows(b)
    decreases |b|
  {
    if b == [] {
      assert a + b == a;
    } else {
      var n := |b| - 1;
      assert (a + b)[..|a + b| - 1] == a + b[..n];
      RevisionRowsConcat(a, b[..n]);
    }
  }

  /** Statements that all write a revision insert no revision row. */
  lemma {:induction false} TaggedRowsAreNotRevisions(sts: seq<Statement>, r: IdValue)
    requires AllTagged(sts, r)
    ensures RevisionRows(sts) == 0
    decreases |sts|
  {
    if sts != [] {
      TaggedRowsAreNotRevisions(sts[..|sts| - 1], r);
    }
  }

  /** A flush step inserts at most one revision row, none when a revision
      was current, and writes nothing while it has no revision. */
  lemma AdvancesRevisionRows(s: State, t: State)
    requires Advances(s, t)
    ensures RevisionRows(Fresh(s, t)) <= 1
    ensures s.revisionId.Some? ==> RevisionRows(Fresh(s, t)) == 0
    ensures t.revisionId.None? ==> Fresh(s, t) == []
  {
    var f := Fresh(s, t);
    match s.revisionId
    case Some(r) =>
      TaggedRowsAreNotRevisions(f, r);
    case None =>
      if f != [] {
        TaggedRowsAreNotRevisions(f[1..], t.revisionId.value);
        assert f == [f[0]] + f[1..];
        RevisionRowsConcat([f[0]], f[1..]);
        assert [f[0]][..0] == [];
      }
  }

  lemma AdvancesRefl(s: State, t: State)
    requires t.log == s.log && t.revisionInserts == s.revisionInserts && t.revisionId == s.revisionId
    ensures Advances(s, t)
  {
    assert Fresh(s, t) == [];
  }

  lemma AllTaggedConcat(a: seq<Statement>, b: seq<Statement>, r: IdValue)
    requires AllTagged(a, r) && AllTagged(b, r)
    ensures AllTagged(a + b, r)
  {
    forall k | 0 <= k < |a + b| ensures Tagged((a + b)[k], r) {
      if k < |a| { assert (a + b)[k] == a[k]; } else { assert (a + b)[k] == b[k - |a|]; }
    }
  }

  lemma AdvancesTrans(s: State, t: State, u: State)
    requires Advances(s, t) && Advances(t, u)
    ensures Advances(s, u)
  {
    var f1, f2 := Fresh(s, t), Fresh(t, u);
    assert |s.log| <= |u.log| && u.log[..|s.log|] == s.log && Fresh(s, u) == f1 + f2 by {
      assert t.log == s.log + f1;
      assert u.log == t.log + f2;
      assert u.log == s.log + (f1 + f2);
    }
    RevisionRowsConcat(f1, f2);
    match s.revisionId
    case Some(r) =>
      AllTaggedConcat(f1, f2, r);
    case None =>
      if f1 == [] {
        assert f1 + f2 == f2;
      } else {
        assert (f1 + f2)[0] == f1[0];
        assert (f1 + f2)[1..] == f1[1..] + f2;
        AllTaggedConcat(f1[1..], f2, t.revisionId.value);
      }
  }

  /** Appending a statement that writes the current revision. */
  lemma AppendAdvances(s: State, st: Statement)
    requires s.revisionId.Some? && Tagged(st, s.revisionId.value)
    ensures Advances(s, Append(s, st))
  {
    var t := Append(s, st);
    assert t.log[..|s.log|] == s.log;
    assert Fresh(s, t) == [st];
    assert RevisionRows([st]) == RevisionRows([st][..0]) + 0;
  }

  // ------------------------------------------------------------------
  // Each step of a flush advances by one revision

  /** `getRevisionId`: a success leaves that revision current, and a second
      call returns it again without any statement. */
  lemma AllocateAdvances(s: State, ctx: Context, now: int)
    ensures var (rid, s1) := AllocateRevision(s, ctx, now);
      rid.Success? ==> Advances(s, s1) && s1.revisionId == Some(rid.value) && AllocateRevision(s1, ctx, now) == (rid, s1)
  {
    var (rid, s1) := AllocateRevision(s, ctx, now);
    if rid.Success? && s.revisionId.None? {
      assert Fresh(s, s1) == [InsertRevision(ctx.cfg.revisionTableName, now, ctx.cfg.currentUsername)];
      assert RevisionRows(Fresh(s, s1)) == RevisionRows([]) + 1;
      assert Fresh(s, s1)[1..] == [];
    } else if rid.Success? {
      AdvancesRefl(s, s1);
    }
  }

  lemma RecordAdvances(s: State, ctx: Context, env: Env, w: DeferredWrite)
    ensures var (o, t) := RecordEffect(s, ctx, env, w); o.Pass? ==> Advances(s, t)
  {
    var (rid, s1) := AllocateRevision(s, ctx, env.now);
    AllocateAdvances(s, ctx, env.now);
    if rid.Success? {
      var (sql, s2) := CachedJoinSql(s1, ctx.cfg, w);
      AdvancesRefl(s1, s2);
      JoinRowMatchesTemplate(env, ctx.cfg, w, rid.value);
      AppendAdvances(s2, Execute(sql, JoinParams(env, w, rid.value), JoinTypes(w)));
      AdvancesTrans(s, s1, s2);
      AdvancesTrans(s, s2, RecordEffect(s, ctx, env, w).1);
    }
  }

  lemma {:induction false} RelatedFoldAdvances(s: State, ctx: Context, env: Env, rt: RevType, data: EntityData, a: Association,
                                                meta: ClassMetadata, target: ClassMetadata, items: seq<EntityRef>)
    ensures var (o, t) := RelatedFold(s, ctx, env, rt, data, a, meta, target, items); o.Pass? ==> Advances(s, t)
    decreases |items|
  {
    if items == [] {
      AdvancesRefl(s, s);
    } else {
      var (o1, s1) := RelatedFold(s, ctx, env, rt, data, a, meta, target, items[..|items| - 1]);
      RelatedFoldAdvances(s, ctx, env, rt, data, a, meta, target, items[..|items| - 1]);
      if o1.Pass? {
        var w := DeferredWrite(items[|items| - 1], rt, data, a, meta, target);
        var (o2, s2) := RelatedEffect(s1, ctx, env, w);
        if SingleIdentifierValue(env, w.entity).Failure? || SingleIdentifierValue(env, w.entity).value == Null {
          AdvancesRefl(s1, s2);
        } else {
          RecordAdvances(s1, ctx, env, w);
        }
        if o2.Pass? { AdvancesTrans(s, s1, s2); }
      }
    }
  }

  lemma {:induction false} JoinRowsFoldAdvances(s: State, ctx: Context, env: Env, meta: ClassMetadata, data: EntityData, rt: RevType, assocs: seq<Association>)
    requires TargetsKnown(env, assocs)
    ensures var (o, t) := JoinRowsFold(s, ctx, env, meta, data, rt, assocs); o.Pass? ==> Advances(s, t)
    decreases |assocs|
  {
    if assocs == [] {
      AdvancesRefl(s, s);
    } else {
      var a := assocs[|assocs| - 1];
      var (o1, s1) := JoinRowsFold(s, ctx, env, meta, data, rt, assocs[..|assocs| - 1]);
      JoinRowsFoldAdvances(s, ctx, env, meta, data, rt, assocs[..|assocs| - 1]);
      if o1.Pass? {
        var (o2, s2) := AssocJoinRowsEffect(s1, ctx, env, meta, data, rt, a);
        if WritesJoinRows(meta, a) && Lookup(data, a.fieldName) != Null {
          RelatedFoldAdvances(s1, ctx, env, rt, data, a, meta, env.classes[a.targetEntity], CollectionItems(Lookup(data, a.fieldName)));
        } else {
          AdvancesRefl(s1, s2);
        }
        if o2.Pass? { AdvancesTrans(s, s1, s2); }
      }
    }
  }

  /** A joined subtype's root is registered and is its own root, so
      `saveRevisionEntityData` recurses exactly once. */
  lemma RootIsItsOwnRoot(env: Env, meta: ClassMetadata)
    requires WellFormed(env) && Registered(env, meta)
    ensures Registered(env, RootClass(env, meta))
    ensures RootClass(env, meta).name == RootClass(env, meta).rootEntityName == meta.rootEntityName
    ensures !NeedsRootRow(RootClass(env, meta))
  {
  }

  /** The cached audit-row templates are the ones the metadata describes. */
  ghost predicate InsertCacheValid(s: State, cfg: AuditConfiguration, env: Env) {
    forall n :: n in s.insertRevisionSql ==> n in env.classes && s.insertRevisionSql[n] == InsertRevisionSql(cfg, env.classes[n])
  }

  /** `getInsertRevisionSQL` returns the class's template, whether cached or
      built now, and keeps the cache valid; a second call changes nothing. */
  lemma CachedInsertSqlValid(s: State, cfg: AuditConfiguration, env: Env, meta: ClassMetadata)
    requires Registered(env, meta) && InsertCacheValid(s, cfg, env)
    ensures var (sql, t) := CachedInsertSql(s, cfg, meta);
      && sql == InsertRevisionSql(cfg, meta) && InsertCacheValid(t, cfg, env)
      && CachedInsertSql(t, cfg, meta) == (sql, t)
      && t.(insertRevisionSql := s.insertRevisionSql) == s
  {
  }

  lemma {:induction false} RelatedFoldKeepsInsertCache(s: State, ctx: Context, env: Env, rt: RevType, data: EntityData, a: Association,
                                                        meta: ClassMetadata, target: ClassMetadata, items: seq<EntityRef>)
    ensures RelatedFold(s, ctx, env, rt, data, a, meta, target, items).1.insertRevisionSql == s.insertRevisionSql
    decreases |items|
  {
    if items != [] {
      var n := |items| - 1;
      RelatedFoldKeepsInsertCache(s, ctx, env, rt, data, a, meta, target, items[..n]);
      var s1 := RelatedFold(s, ctx, env, rt, data, a, meta, target, items[..n]).1;
      RelatedEffectKeepsInsertCache(s1, ctx, env, DeferredWrite(items[n], rt, data, a, meta, target));
    }
  }

  lemma RelatedEffectKeepsInsertCache(s: State, ctx: Context, env: Env, w: DeferredWrite)
    ensures RelatedEffect(s, ctx, env, w).1.insertRevisionSql == s.insertRevisionSql
  {
  }

  lemma {:induction false} JoinRowsFoldKeepsInsertCache(s: State, ctx: Context, env: Env, meta: ClassMetadata, data: EntityData, rt: RevType, assocs: seq<Association>)
    requires TargetsKnown(env, assocs)
    ensures JoinRowsFold(s, ctx, env, meta, data, rt, assocs).1.insertRevisionSql == s.insertRevisionSql
    decreases |assocs|
  {
    if assocs != [] {
      var a := assocs[|assocs| - 1];
      var s1 := JoinRowsFold(s, ctx, env, meta, data, rt, assocs[..|assocs| - 1]).1;
      JoinRowsFoldKeepsInsertCache(s, ctx, env, meta, data, rt, assocs[..|assocs| - 1]);
      if WritesJoinRows(meta, a) && Lookup(data, a.fieldName) != Null {
        RelatedFoldKeepsInsertCache(s1, ctx, env, rt, data, a, meta, env.classes[a.targetEntity], CollectionItems(Lookup(data, a.fieldName)));
      }
    }
  }

  /** The two steps of `SaveEffect`, named: the revision, then the rows. */
  lemma SaveEffectSteps(s: State, ctx: Context, env: Env, meta: ClassMetadata, data: EntityData, rt: RevType)
    returns (rid: Result<IdValue, Error>, s1: State)
    requires WellFormed(env) && Registered(env, meta)
    ensures (rid, s1) == AllocateRevision(s, ctx, env.now)
    ensures rid.Success? ==> Advances(s, s1) && s1.revisionId == Some(rid.value)
    ensures SaveEffect(s, ctx, env, meta, data, rt) ==
      if rid.Failure? then (Fail(rid.error), s1) else RowsEffect(s1, ctx, env, meta, data, rt, rid.value)
  {
    rid, s1 := AllocateRevision(s, ctx, env.now).0, AllocateRevision(s, ctx, env.now).1;
    AllocateAdvances(s, ctx, env.now);
  }

  /** `saveRevisionEntityData` keeps the template cache valid, whether it
      succeeds or throws. */
  lemma {:induction false} SaveKeepsInsertCache(s: State, ctx: Context, env: Env, meta: ClassMetadata, data: EntityData, rt: RevType)
    requires WellFormed(env) && Registered(env, meta) && InsertCacheValid(s, ctx.cfg, env)
    ensures InsertCacheValid(SaveEffect(s, ctx, env, meta, data, rt).1, ctx.cfg, env)
    decreases if NeedsRootRow(meta) then 1 else 0, 3
  {
    var rid, s1 := SaveEffectSteps(s, ctx, env, meta, data, rt);
    if rid.Success? {
      RowsKeepInsertCache(s1, ctx, env, meta, data, rt, rid.value);
    }
  }

  lemma {:induction false} RowsKeepInsertCache(s: State, ctx: Context, env: Env, meta: ClassMetadata, data: EntityData, rt: RevType, r: IdValue)
    requires WellFormed(env) && Registered(env, meta) && InsertCacheValid(s, ctx.cfg, env)
    ensures InsertCacheValid(RowsEffect(s, ctx, env, meta, data, rt, r).1, ctx.cfg, env)
    decreases if NeedsRootRow(meta) then 1 else 0, 2
  {
    var o1, s1, o2, s2 := RowsEffectSteps(s, ctx, env, meta, data, rt, r);
    JoinRowsFoldKeepsInsertCache(s, ctx, env, meta, data, rt, meta.associationMappings);
    RootRowKeepsInsertCache(s1, ctx, env, meta, data, rt);
    CachedInsertSqlValid(s2, ctx.cfg, env, meta);
  }

  lemma {:induction false} RootRowKeepsInsertCache(s: State, ctx: Context, env: Env, meta: ClassMetadata, data: EntityData, rt: RevType)
    requires WellFormed(env) && Registered(env, meta) && InsertCacheValid(s, ctx.cfg, env)
    ensures InsertCacheValid(RootRowEffect(s, ctx, env, meta, data, rt).1, ctx.cfg, env)
    decreases if NeedsRootRow(meta) then 1 else 0, 0
  {
    if NeedsRootRow(meta) {
      RootIsItsOwnRoot(env, meta);
      SaveKeepsInsertCache(s, ctx, env, RootClass(env, meta), RootData(meta, data), rt);
    }
  }

  /** A successful `saveRevisionEntityData` advances by one revision and
      leaves a revision current. */
  lemma {:induction false} SaveAdvances(s: State, ctx: Context, env: Env, meta: ClassMetadata, data: EntityData, rt: RevType)
    requires WellFormed(env) && Registered(env, meta)
    ensures var (o, t) := SaveEffect(s, ctx, env, meta, data, rt);
      o.Pass? ==> Advances(s, t) && t.revisionId.Some?
    decreases if NeedsRootRow(meta) then 1 else 0, 3
  {
    var rid, s1 := SaveEffectSteps(s, ctx, env, meta, data, rt);
    if rid.Success? {
      RowsAdvances(s1, ctx, env, meta, data, rt, rid.value);
      var (o, t) := RowsEffect(s1, ctx, env, meta, data, rt, rid.value);
      if o.Pass? {
        AdvancesTrans(s, s1, t);
      }
    }
  }

  lemma {:induction false} RowsAdvances(s: State, ctx: Context, env: Env, meta: ClassMetadata, data: EntityData, rt: RevType, r: IdValue)
    requires WellFormed(env) && Registered(env, meta) && s.revisionId == Some(r)
    ensures var (o, t) := RowsEffect(s, ctx, env, meta, data, rt, r);
      o.Pass? ==> Advances(s, t)
    decreases if NeedsRootRow(meta) then 1 else 0, 2
  {
    var o1, s1, o2, s2 := RowsEffectSteps(s, ctx, env, meta, data, rt, r);
    JoinRowsFoldAdvances(s, ctx, env, meta, data, rt, meta.associationMappings);
    if o1.Pass? {
      RootRowAdvances(s1, ctx, env, meta, data, rt);
      if o2.Pass? {
        AdvancesTrans(s, s1, s2);
        OwnRowAdvances(s2, ctx, env, meta, data, rt, r);
        AdvancesTrans(s, s2, OwnRowEffect(s2, ctx, env, meta, data, rt, r));
      }
    }
  }

  lemma {:induction false} RootRowAdvances(s: State, ctx: Context, env: Env, meta: ClassMetadata, data: EntityData, rt: RevType)
    requires WellFormed(env) && Registered(env, meta)
    ensures var (o, t) := RootRowEffect(s, ctx, env, meta, data, rt);
      o.Pass? ==> Advances(s, t)
    decreases if NeedsRootRow(meta) then 1 else 0, 0
  {
    if NeedsRootRow(meta) {
      RootIsItsOwnRoot(env, meta);
      SaveAdvances(s, ctx, env, RootClass(env, meta), RootData(meta, data), rt);
    } else {
      AdvancesRefl(s, s);
    }
  }

  /** The last step of `saveRevisionEntityData`: one row tagged with the
      current revision, whose values line up with the template's columns. */
  lemma OwnRowAdvances(s: State, ctx: Context, env: Env, meta: ClassMetadata, data: EntityData, rt: RevType, r: IdValue)
    requires TargetsKnown(env, meta.associationMappings) && s.revisionId == Some(r)
    ensures Advances(s, OwnRowEffect(s, ctx, env, meta, data, rt, r))
  {
    var (sql, s1) := CachedInsertSql(s, ctx.cfg, meta);
    AdvancesRefl(s, s1);
    ParamsMatchTemplate(env, ctx.cfg, meta, data, r, rt);
    var st := Execute(sql, UnwrapEnums(RevisionParams(env, meta, data, r, rt)), RevisionTypes(env, meta, data));
    AppendAdvances(s1, st);
    AdvancesTrans(s, s1, Append(s1, st));
  }

  /** With a valid cache, the class's own row uses exactly the template its
      metadata describes, and the cache stays valid. */
  lemma OwnRowTemplate(s: State, ctx: Context, env: Env, meta: ClassMetadata, data: EntityData, rt: RevType, r: IdValue)
    requires Registered(env, meta) && TargetsKnown(env, meta.associationMappings) && InsertCacheValid(s, ctx.cfg, env)
    ensures var t := OwnRowEffect(s, ctx, env, meta, data, rt, r);
      && InsertCacheValid(t, ctx.cfg, env)
      && t.log == s.log + [Execute(InsertRevisionSql(ctx.cfg, meta), UnwrapEnums(RevisionParams(env, meta, data, r, rt)), RevisionTypes(env, meta, data))]
  {
    CachedInsertSqlValid(s, ctx.cfg, env, meta);
  }

  // ------------------------------------------------------------------
  // The rows saveRevisionEntityData ends with

  /** The audit row of class `meta`: its template, its parameters with
      BackedEnums unwrapped (revision and change type first), and its types. */
  function AuditRow(cfg: AuditConfiguration, env: Env, meta: ClassMetadata, data: EntityData, r: IdValue, rt: RevType): Statement
    requires WellFormed(env) && Registered(env, meta)
  {
    KnownTargets(env, meta);
    Execute(InsertRevisionSql(cfg, meta), UnwrapEnums(RevisionParams(env, meta, data, r, rt)), RevisionTypes(env, meta, data))
  }

  lemma {:induction false} RowsWritesOwnRow(s: State, ctx: Context, env: Env, meta: ClassMetadata, data: EntityData, rt: RevType, r: IdValue)
    requires WellFormed(env) && Registered(env, meta) && InsertCacheValid(s, ctx.cfg, env)
    ensures var (o, t) := RowsEffect(s, ctx, env, meta, data, rt, r);
      o.Pass? ==> |t.log| > 0 && t.log[|t.log| - 1] == AuditRow(ctx.cfg, env, meta, data, r, rt)
  {
    var o1, s1, o2, s2 := RowsEffectSteps(s, ctx, env, meta, data, rt, r);
    JoinRowsFoldKeepsInsertCache(s, ctx, env, meta, data, rt, meta.associationMappings);
    RootRowKeepsInsertCache(s1, ctx, env, meta, data, rt);
    OwnRowTemplate(s2, ctx, env, meta, data, rt, r);
  }

  /** A successful `saveRevisionEntityData` ends with the class's audit row,
      bound to the revision it leaves current; its parameters line up with
      the template's placeholders. */
  lemma SaveWritesOwnRow(s: State, ctx: Context, env: Env, meta: ClassMetadata, data: EntityData, rt: RevType)
    requires WellFormed(env) && Registered(env, meta) && InsertCacheValid(s, ctx.cfg, env)
    ensures var (o, t) := SaveEffect(s, ctx, env, meta, data, rt);
      o.Pass? ==> t.revisionId.Some? && |t.log| > 0 && t.log[|t.log| - 1] == AuditRow(ctx.cfg, env, meta, data, t.revisionId.value, rt)
  {
    var rid, s1 := SaveEffectSteps(s, ctx, env, meta, data, rt);
    if rid.Success? {
      RowsWritesOwnRow(s1, ctx, env, meta, data, rt, rid.value);
      RowsAdvances(s1, ctx, env, meta, data, rt, rid.value);
    }
  }

  /** The audit row's parameters: as many as the template has placeholders,
      the revision first and the change type second. */
  lemma AuditRowShape(cfg: AuditConfiguration, env: Env, meta: ClassMetadata, data: EntityData, r: IdValue, rt: RevType)
    requires WellFormed(env) && Registered(env, meta)
    ensures var row := AuditRow(cfg, env, meta, data, r, rt);
      && row.Execute? && row.sql.InsertInto?
      && |row.params| == |row.sql.placeholders| == |row.sql.columns| == |row.types|
      && row.params[0] == ToValue(r) && row.params[1] == RevTypeValue(rt)
  {
    KnownTargets(env, meta);
    ParamsMatchTemplate(env, cfg, meta, data, r, rt);
  }

  /** The three steps of `RowsEffect`, named: the join rows, the root's row,
      then the class's own row, stopping at the first that throws. */
  lemma RowsEffectSteps(s: State, ctx: Context, env: Env, meta: ClassMetadata, data: EntityData, rt: RevType, r: IdValue)
    returns (o1: Outcome<Error>, s1: State, o2: Outcome<Error>, s2: State)
    requires WellFormed(env) && Registered(env, meta)
    ensures TargetsKnown(env, meta.associationMappings)
    ensures (o1, s1) == JoinRowsFold(s, ctx, env, meta, data, rt, meta.associationMappings)
    ensures (o2, s2) == RootRowEffect(s1, ctx, env, meta, data, rt)
    ensures RowsEffect(s, ctx, env, meta, data, rt, r) ==
      if o1.Fail? then (o1, s1) else if o2.Fail? then (o2, s2) else (Pass, OwnRowEffect(s2, ctx, env, meta, data, rt, r))
  {
    KnownTargets(env, meta);
    o1, s1 := JoinRowsFold(s, ctx, env, meta, data, rt, meta.associationMappings).0, JoinRowsFold(s, ctx, env, meta, data, rt, meta.associationMappings).1;
    o2, s2 := RootRowEffect(s1, ctx, env, meta, data, rt).0, RootRowEffect(s1, ctx, env, meta, data, rt).1;
    assert RowsEffect(s, ctx, env, meta, data, rt, r) ==
      if o1.Fail? then (o1, s1) else if o2.Fail? then (o2, s2) else (Pass, OwnRowEffect(s2, ctx, env, meta, data, rt, r));
  }

  lemma RowsWritesRootRow(s: State, ctx: Context, env: Env, meta: ClassMetadata, data: EntityData, rt: RevType, r: IdValue)
    requires WellFormed(env) && Registered(env, meta) && InsertCacheValid(s, ctx.cfg, env) && NeedsRootRow(meta)
    requires s.revisionId == Some(r)
    ensures var (o, t) := RowsEffect(s, ctx, env, meta, data, rt, r);
      o.Pass? ==> |t.log| > 1 && t.log[|t.log| - 2] == AuditRow(ctx.cfg, env, RootClass(env, meta), RootData(meta, data), r, rt)
  {
    var o1, s1, o2, s2 := RowsEffectSteps(s, ctx, env, meta, data, rt, r);
    if o1.Pass? && o2.Pass? {
      var t := OwnRowEffect(s2, ctx, env, meta, data, rt, r);
      assert InsertCacheValid(s1, ctx.cfg, env) && s1.revisionId == Some(r) by {
        JoinRowsFoldKeepsInsertCache(s, ctx, env, meta, data, rt, meta.associationMappings);
        JoinRowsFoldAdvances(s, ctx, env, meta, data, rt, meta.associationMappings);
      }
      var row := AuditRow(ctx.cfg, env, RootClass(env, meta), RootData(meta, data), r, rt);
      assert |s2.log| > 0 && s2.log[|s2.log| - 1] == row by {
        RootRowWritesRow(s1, ctx, env, meta, data, rt, r);
      }
      assert |t.log| > 1 && t.log[|t.log| - 2] == row by {
        OwnRowAppends(s2, ctx, env, meta, data, rt, r);
        PenultimateIs(t.log, s2.log, row);
      }
    }
  }

  lemma PenultimateIs<T>(xs: seq<T>, prefix: seq<T>, x: T)
    requires |xs| == |prefix| + 1 && |prefix| > 0
    requires xs[|prefix| - 1] == prefix[|prefix| - 1] == x
    ensures |xs| > 1 && xs[|xs| - 2] == x
  {
  }

  lemma RootRowWritesRow(s: State, ctx: Context, env: Env, meta: ClassMetadata, data: EntityData, rt: RevType, r: IdValue)
    requires WellFormed(env) && Registered(env, meta) && InsertCacheValid(s, ctx.cfg, env) && NeedsRootRow(meta)
    requires s.revisionId == Some(r)
    ensures var (o, t) := RootRowEffect(s, ctx, env, meta, data, rt);
      o.Pass? ==> |t.log| > 0 && t.log[|t.log| - 1] == AuditRow(ctx.cfg, env, RootClass(env, meta), RootData(meta, data), r, rt)
  {
    RootIsItsOwnRoot(env, meta);
    SaveWritesOwnRow(s, ctx, env, RootClass(env, meta), RootData(meta, data), rt);
    SaveAdvances(s, ctx, env, RootClass(env, meta), RootData(meta, data), rt);
  }

  lemma OwnRowAppends(s: State, ctx: Context, env: Env, meta: ClassMetadata, data: EntityData, rt: RevType, r: IdValue)
    requires TargetsKnown(env, meta.associationMappings)
    ensures var t := OwnRowEffect(s, ctx, env, meta, data, rt, r);
      |t.log| == |s.log| + 1 && (|s.log| > 0 ==> t.log[|s.log| - 1] == s.log[|s.log| - 1])
  {
  }

  /** A joined subtype's `saveRevisionEntityData` writes the root's audit
      row, with the discriminator value filled in and the same change type,
      right before its own row (`SaveWritesOwnRow`), bound to the same
      revision. */
  lemma SaveWritesRootRow(s: State, ctx: Context, env: Env, meta: ClassMetadata, data: EntityData, rt: RevType)
    requires WellFormed(env) && Registered(env, meta) && InsertCacheValid(s, ctx.cfg, env) && NeedsRootRow(meta)
    ensures var (o, t) := SaveEffect(s, ctx, env, meta, data, rt);
      o.Pass? ==>
        && t.revisionId.Some? && |t.log| > 1
        && t.log[|t.log| - 2] == AuditRow(ctx.cfg, env, RootClass(env, meta), RootData(meta, data), t.revisionId.value, rt)
  {
    var rid, s1 := SaveEffectSteps(s, ctx, env, meta, data, rt);
    if rid.Success? {
      var (o, t) := RowsEffect(s1, ctx, env, meta, data, rt, rid.value);
      RowsWritesRootRow(s1, ctx, env, meta, data, rt, rid.value);
      RowsAdvances(s1, ctx, env, meta, data, rt, rid.value);
      if o.Pass? {
        assert t.revisionId == Some(rid.value);
      }
    }
  }
}
