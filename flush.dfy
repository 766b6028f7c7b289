/** The hooks of one flush, stated over the revision model: each hook
    advances by one revision, so a whole flush (onFlush, the postPersist and
    postUpdate events of its entities, postFlush) inserts one revision row at
    most and binds every audit row, join row and extra update to it. */
module Flush {
  import opened Wrappers
  import opened PhpArray
  import opened Mapping
  import opened Orm
  import opened Dbal
  import opened Config
  import opened Revisions
  import opened Templates
  import opened ExtraUpdates
  import opened Hashing
  import opened RevisionModel
  import opened Properties

  // ------------------------------------------------------------------
  // The entity hooks

  lemma PostPersistAdvances(s: State, ctx: Context, env: Env, e: EntityRef)
    requires Known(env, e)
    ensures var (o, t) := PostPersistEffect(s, ctx, env, e);
      o.Pass? ==> Advances(s, t)
  {
    var meta := env.classes[e.className];
    if meta.name in env.audited {
      SaveAdvances(s, ctx, env, meta, EventData(env, e, meta, false), Ins);
    } else {
      AdvancesRefl(s, s);
    }
  }

  lemma PostUpdateAdvances(s: State, ctx: Context, env: Env, e: EntityRef)
    requires Known(env, e)
    ensures var (o, t) := PostUpdateEffect(s, ctx, env, e);
      o.Pass? ==> Advances(s, t)
  {
    var meta := env.classes[e.className];
    if meta.name in env.audited && |Without(EntityChangeSet(env, e), IgnoredColumns(ctx.cfg))| != 0 {
      SaveAdvances(s, ctx, env, meta, EventData(env, e, meta, true), Upd);
    } else {
      AdvancesRefl(s, s);
    }
  }

  lemma DeletionAdvances(s: State, ctx: Context, env: Env, e: EntityRef)
    requires Known(env, e)
    ensures var (o, t) := DeletionEffect(s, ctx, env, e);
      o.Pass? ==> Advances(s, t)
  {
    var meta := env.classes[e.className];
    if meta.name in env.audited {
      SaveAdvances(s, ctx, env, meta, EventData(env, e, meta, true), Del);
    } else {
      AdvancesRefl(s, s);
    }
  }

  lemma {:induction false} DeletionsFoldAdvances(s: State, ctx: Context, env: Env, es: seq<EntityRef>)
    requires AllKnown(env, es)
    ensures var (o, t) := DeletionsFold(s, ctx, env, es);
      o.Pass? ==> Advances(s, t)
    decreases |es|
  {
    if es == [] {
      AdvancesRefl(s, s);
    } else {
      var n := |es| - 1;
      assert AllKnown(env, es[..n]) by {
        assert forall k :: 0 <= k < n ==> es[..n][k] == es[k];
      }
      var (o1, s1) := DeletionsFold(s, ctx, env, es[..n]);
      DeletionsFoldAdvances(s, ctx, env, es[..n]);
      if o1.Pass? {
        DeletionAdvances(s1, ctx, env, es[n]);
        var (o2, s2) := DeletionEffect(s1, ctx, env, es[n]);
        if o2.Pass? { AdvancesTrans(s, s1, s2); }
      }
    }
  }

  /** A successful onFlush leaves the deletions' writes as the first writes
      of a fresh revision; queueing the insertions and updates adds none. */
  lemma OnFlushAdvances(s: State, ctx: Context, env: Env)
    requires WellFormed(env)
    ensures var (o, t) := OnFlushEffect(s, ctx, env);
      o.Pass? ==> Advances(s.(revisionId := None), t)
  {
    var dels := env.uow.scheduledEntityDeletions;
    assert dels[..|dels|] == dels;
    KnownDeletions(env, |dels|);
    var s0 := s.(revisionId := None);
    var (o1, s1) := DeletionsFold(s0, ctx, env, FirstByHash(env, dels));
    DeletionsFoldAdvances(s0, ctx, env, FirstByHash(env, dels));
    if o1.Pass? {
      var t := OnFlushEffect(s, ctx, env).1;
      assert t.log == s1.log && t.revisionId == s1.revisionId && t.revisionInserts == s1.revisionInserts;
      assert Fresh(s0, t) == Fresh(s0, s1);
    }
  }

  /** Without scheduled deletions onFlush writes nothing and leaves no
      revision current. */
  lemma OnFlushWithoutDeletions(s: State, ctx: Context, env: Env)
    requires WellFormed(env) && env.uow.scheduledEntityDeletions == []
    ensures var (o, t) := OnFlushEffect(s, ctx, env);
      o.Pass? && t.log == s.log && t.revisionId == None && t.revisionInserts == s.revisionInserts
  {
  }

  // ------------------------------------------------------------------
  // postFlush

  /** The queues and the audit-row cache are left alone by a step. */
  ghost predicate KeepsQueues(s: State, t: State) {
    t.extraUpdates == s.extraUpdates && t.deferred == s.deferred && t.insertRevisionSql == s.insertRevisionSql
  }

  /** An extra update binds the revision to the `revisionColumn = ?` test
      that follows the SET list. */
  lemma ExtraUpdateAdvances(s: State, ctx: Context, env: Env, e: EntityRef)
    requires Known(env, e)
    ensures var (o, t) := ExtraUpdateEffect(s, ctx, env, e);
      && KeepsQueues(s, t)
      && (o.Pass? ==> Advances(s, t))
  {
    var meta := env.classes[e.className];
    var data := UpdateDataOf(env, meta, EntityChangeSet(env, e));
    if meta.tableName !in data || data[meta.tableName] == [] {
      AdvancesRefl(s, s);
    } else {
      ExtraUpdateRowAdvances(s, ctx, env, meta, e, data[meta.tableName]);
    }
  }

  lemma ExtraUpdateRowAdvances(s: State, ctx: Context, env: Env, meta: ClassMetadata, e: EntityRef, row: Row)
    ensures var (o, t) := ExtraUpdateRowEffect(s, ctx, env, meta, e, row);
      && KeepsQueues(s, t)
      && (o.Pass? ==> Advances(s, t))
  {
    match SetClauseOf(env, meta, row)
    case Failure(_) =>
    case Success(sc) =>
      SetClauseLengths(env, meta, row);
      var (rid, s1) := AllocateRevision(s, ctx, env.now);
      AllocateAdvances(s, ctx, env.now);
      match rid
      case Failure(_) =>
      case Success(r) =>
        match KeyClauseOf(env, meta, e, meta.identifier)
        case Failure(_) =>
        case Success(kc) =>
          ExtraUpdateStatementTagged(ctx, meta, sc, r, kc);
          var st := ExtraUpdateStatement(ctx, meta, sc, r, kc);
          AppendAdvances(s1, st);
          AdvancesTrans(s, s1, Append(s1, st));
  }

  lemma SetClauseLengths(env: Env, meta: ClassMetadata, row: Row)
    requires SetClauseOf(env, meta, row).Success?
    ensures |SetClauseOf(env, meta, row).value.assignments| == |SetClauseOf(env, meta, row).value.params|
  {
    SetClauseOfSpec(env, meta, row);
  }

  lemma ExtraUpdateStatementTagged(ctx: Context, meta: ClassMetadata, sc: SetClause, r: IdValue, kc: KeyClause)
    requires |sc.assignments| == |sc.params|
    ensures Tagged(ExtraUpdateStatement(ctx, meta, sc, r, kc), r)
  {
    assert (sc.params + [ToValue(r)] + kc.params)[|sc.params|] == ToValue(r);
  }

  lemma {:induction false} ExtraUpdatesFoldAdvances(s: State, ctx: Context, env: Env, es: seq<EntityRef>)
    requires AllKnown(env, es)
    ensures var (o, t) := ExtraUpdatesFold(s, ctx, env, es);
      && KeepsQueues(s, t)
      && (o.Pass? ==> Advances(s, t))
    decreases |es|
  {
    if es == [] {
      AdvancesRefl(s, s);
    } else {
      assert AllKnown(env, es[1..]) by {
        assert forall k :: 1 <= k < |es| ==> es[1..][k - 1] == es[k];
      }
      ExtraUpdateAdvances(s, ctx, env, es[0]);
      var (o1, s1) := ExtraUpdateEffect(s, ctx, env, es[0]);
      if o1.Pass? {
        ExtraUpdatesFoldAdvances(s1, ctx, env, es[1..]);
        var (o2, s2) := ExtraUpdatesFold(s1, ctx, env, es[1..]);
        if o2.Pass? { AdvancesTrans(s, s1, s2); }
      }
    }
  }

  lemma RecordKeepsQueues(s: State, ctx: Context, env: Env, w: DeferredWrite)
    ensures KeepsQueues(s, RecordEffect(s, ctx, env, w).1)
  {
  }

  lemma {:induction false} DeferredFoldAdvances(s: State, ctx: Context, env: Env, ws: seq<DeferredWrite>)
    ensures var (o, t) := DeferredFold(s, ctx, env, ws);
      && KeepsQueues(s, t)
      && (o.Pass? ==> Advances(s, t))
    decreases |ws|
  {
    if ws == [] {
      AdvancesRefl(s, s);
    } else {
      var n := |ws| - 1;
      var (o1, s1) := DeferredFold(s, ctx, env, ws[..n]);
      DeferredFoldAdvances(s, ctx, env, ws[..n]);
      if o1.Pass? {
        RecordAdvances(s1, ctx, env, ws[n]);
        RecordKeepsQueues(s1, ctx, env, ws[n]);
        var (o2, s2) := RecordEffect(s1, ctx, env, ws[n]);
        if o2.Pass? { AdvancesTrans(s, s1, s2); }
      }
    }
  }

  /** postFlush advances by one revision and, when it succeeds, empties the
      deferred queue; it keeps the queue of extra updates and the audit-row
      cache either way. */
  lemma PostFlushAdvances(s: State, ctx: Context, env: Env)
    requires AllKnown(env, Values(s.extraUpdates))
    ensures var (o, t) := PostFlushEffect(s, ctx, env);
      && t.extraUpdates == s.extraUpdates && t.insertRevisionSql == s.insertRevisionSql
      && (o.Pass? ==> Advances(s, t) && t.deferred == [])
  {
    var (o1, s1) := ExtraUpdatesFold(s, ctx, env, Values(s.extraUpdates));
    ExtraUpdatesFoldAdvances(s, ctx, env, Values(s.extraUpdates));
    if o1.Pass? {
      var (o2, s2) := DeferredFold(s1, ctx, env, s1.deferred);
      DeferredFoldAdvances(s1, ctx, env, s1.deferred);
      if o2.Pass? {
        AdvancesTrans(s, s1, s2);
        var t := s2.(deferred := []);
        assert Fresh(s, t) == Fresh(s, s2);
      }
    }
  }

  // ------------------------------------------------------------------
  // Join rows

  /** `sts` are the join rows of `ws`, one per write and in order, each
      bound to revision `r`. */
  ghost predicate JoinRowsOf(sts: seq<Statement>, env: Env, ws: seq<DeferredWrite>, r: IdValue) {
    && |sts| == |ws|
    && forall i :: 0 <= i < |ws| ==>
         sts[i].Execute? && sts[i].params == JoinParams(env, ws[i], r) && sts[i].types == JoinTypes(ws[i])
  }

  lemma JoinRowsOfSnoc(sts: seq<Statement>, env: Env, ws: seq<DeferredWrite>, r: IdValue, st: Statement, w: DeferredWrite)
    requires JoinRowsOf(sts, env, ws, r)
    requires st.Execute? && st.params == JoinParams(env, w, r) && st.types == JoinTypes(w)
    ensures JoinRowsOf(sts + [st], env, ws + [w], r)
  {
    var sts', ws' := sts + [st], ws + [w];
    forall i | 0 <= i < |ws'|
      ensures sts'[i].Execute? && sts'[i].params == JoinParams(env, ws'[i], r) && sts'[i].types == JoinTypes(ws'[i])
    {
      if i < |ws| { assert sts'[i] == sts[i] && ws'[i] == ws[i]; }
    }
  }

  /** `recordRevisionForManyToManyEntity` writes one join row, after the
      revision row when no revision was current. */
  lemma RecordWritesJoinRow(s: State, ctx: Context, env: Env, w: DeferredWrite)
    ensures var (o, t) := RecordEffect(s, ctx, env, w);
      o.Pass? ==>
        && t.revisionId.Some? && (s.revisionId.Some? ==> t.revisionId == s.revisionId)
        && |t.log| == |s.log| + (if s.revisionId.None? then 1 else 0) + 1 && t.log[..|s.log|] == s.log
        && t.log[|t.log| - 1].Execute?
        && t.log[|t.log| - 1].params == JoinParams(env, w, t.revisionId.value)
        && t.log[|t.log| - 1].types == JoinTypes(w)
  {
  }

  /** Where the rows a step writes start in the log: after the revision row
      when no revision was current. */
  function RowsStart(s: State): nat {
    |s.log| + (if s.revisionId.None? then 1 else 0)
  }

  /** postFlush's loop over the deferred queue writes one join row per
      deferred entry, in queue order, all bound to one revision. */
  lemma {:induction false} DeferredFoldWritesEach(s: State, ctx: Context, env: Env, ws: seq<DeferredWrite>)
    ensures var (o, t) := DeferredFold(s, ctx, env, ws);
      o.Pass? && ws != [] ==>
        && t.revisionId.Some? && (s.revisionId.Some? ==> t.revisionId == s.revisionId)
        && RowsStart(s) <= |t.log| && t.log[..|s.log|] == s.log
        && JoinRowsOf(t.log[RowsStart(s)..], env, ws, t.revisionId.value)
    decreases |ws|
  {
    if ws != [] {
      var n := |ws| - 1;
      var (o1, s1) := DeferredFold(s, ctx, env, ws[..n]);
      DeferredFoldWritesEach(s, ctx, env, ws[..n]);
      if o1.Pass? {
        RecordWritesJoinRow(s1, ctx, env, ws[n]);
        var (o2, t) := RecordEffect(s1, ctx, env, ws[n]);
        if o2.Pass? {
          var k := RowsStart(s);
          var st := t.log[|t.log| - 1];
          LastSplit(ws);
          if n == 0 {
            assert t.log[k..] == [] + [st];
            JoinRowsOfSnoc([], env, [], t.revisionId.value, st, ws[n]);
          } else {
            FirstRowsStay(s, s1, t, k);
            JoinRowsOfSnoc(s1.log[k..], env, ws[..n], t.revisionId.value, st, ws[n]);
          }
        }
      }
    }
  }

  lemma LastSplit<T>(xs: seq<T>)
    requires xs != []
    ensures xs == xs[..|xs| - 1] + [xs[|xs| - 1]]
  {
  }

  lemma FirstRowsStay(s: State, s1: State, t: State, k: nat)
    requires |s.log| <= k <= |s1.log| && s1.log[..|s.log|] == s.log
    requires |t.log| == |s1.log| + 1 && t.log[..|s1.log|] == s1.log
    ensures t.log[..|s.log|] == s.log
    ensures t.log[k..] == s1.log[k..] + [t.log[|t.log| - 1]]
  {
    assert t.log == s1.log + [t.log[|t.log| - 1]];
  }

  /** The two loops of postFlush, named. */
  lemma PostFlushSteps(s: State, ctx: Context, env: Env) returns (o1: Outcome<Error>, s1: State, o2: Outcome<Error>, s2: State)
    requires AllKnown(env, Values(s.extraUpdates))
    ensures (o1, s1) == ExtraUpdatesFold(s, ctx, env, Values(s.extraUpdates))
    ensures (o2, s2) == DeferredFold(s1, ctx, env, s1.deferred)
    ensures PostFlushEffect(s, ctx, env) == if o1.Fail? then (o1, s1) else if o2.Fail? then (o2, s2) else (Pass, s2.(deferred := []))
  {
    o1, s1 := ExtraUpdatesFold(s, ctx, env, Values(s.extraUpdates)).0, ExtraUpdatesFold(s, ctx, env, Values(s.extraUpdates)).1;
    o2, s2 := DeferredFold(s1, ctx, env, s1.deferred).0, DeferredFold(s1, ctx, env, s1.deferred).1;
  }

  /** A successful postFlush ends with the join rows of the entries that
      were deferred when it started, one each, in queue order. */
  lemma PostFlushWritesDeferred(s: State, ctx: Context, env: Env)
    requires AllKnown(env, Values(s.extraUpdates))
    ensures var (o, t) := PostFlushEffect(s, ctx, env);
      o.Pass? && s.deferred != [] ==>
        && t.revisionId.Some? && |s.deferred| <= |t.log|
        && JoinRowsOf(t.log[|t.log| - |s.deferred|..], env, s.deferred, t.revisionId.value)
  {
    var o1, s1, o2, s2 := PostFlushSteps(s, ctx, env);
    ExtraUpdatesFoldAdvances(s, ctx, env, Values(s.extraUpdates));
    if o1.Pass? && o2.Pass? && s.deferred != [] {
      DeferredFoldWritesEach(s1, ctx, env, s1.deferred);
      assert s2.log[|s2.log| - |s.deferred|..] == s2.log[RowsStart(s1)..];
    }
  }

  /** After onClear, postFlush runs no extra update: it only writes the join
      rows still deferred. */
  lemma ClearedPostFlush(s: State, ctx: Context, env: Env)
    requires WellFormed(env)
    ensures var c := OnClearEffect(s);
      && c.deferred == s.deferred && c.revisionId == s.revisionId && c.log == s.log
      && PostFlushEffect(c, ctx, env) ==
         var (o, t) := DeferredFold(c, ctx, env, s.deferred);
         if o.Fail? then (o, t) else (Pass, t.(deferred := []))
  {
  }

  // ------------------------------------------------------------------
  // Many-to-many join rows of saveRevisionEntityData

  /** The related entity has an identifier, so its join row is written now. */
  predicate IdentifiedNow(env: Env, e: EntityRef) {
    SingleIdentifierValue(env, e).Success? && SingleIdentifierValue(env, e).value != Null
  }

  /** The writes of related entities that have no identifier yet, in order. */
  function PendingWrites(env: Env, rt: RevType, data: EntityData, a: Association, meta: ClassMetadata,
                         target: ClassMetadata, items: seq<EntityRef>): seq<DeferredWrite>
    decreases |items|
  {
    if items == [] then []
    else
      var w := DeferredWrite(items[|items| - 1], rt, data, a, meta, target);
      PendingWrites(env, rt, data, a, meta, target, items[..|items| - 1]) + (if SingleIdentifierValue(env, w.entity) == Success(Null) then [w] else [])
  }

  /** The writes of related entities that have an identifier, in order. */
  function ImmediateWrites(env: Env, rt: RevType, data: EntityData, a: Association, meta: ClassMetadata,
                           target: ClassMetadata, items: seq<EntityRef>): seq<DeferredWrite>
    decreases |items|
  {
    if items == [] then []
    else
      var w := DeferredWrite(items[|items| - 1], rt, data, a, meta, target);
      ImmediateWrites(env, rt, data, a, meta, target, items[..|items| - 1]) + (if IdentifiedNow(env, w.entity) then [w] else [])
  }

  /** With a revision current, the related entities of a many-to-many value
      split into those without an identifier, appended to the deferred queue
      in order, and the others, whose join rows are written now in order. */
  lemma {:induction false} RelatedFoldSplits(s: State, ctx: Context, env: Env, rt: RevType, data: EntityData, a: Association,
                                              meta: ClassMetadata, target: ClassMetadata, items: seq<EntityRef>, r: IdValue)
    requires s.revisionId == Some(r)
    ensures var (o, t) := RelatedFold(s, ctx, env, rt, data, a, meta, target, items);
      o.Pass? ==>
        && t.revisionId == Some(r)
        && t.deferred == s.deferred + PendingWrites(env, rt, data, a, meta, target, items)
        && |s.log| <= |t.log| && t.log[..|s.log|] == s.log
        && JoinRowsOf(t.log[|s.log|..], env, ImmediateWrites(env, rt, data, a, meta, target, items), r)
    decreases |items|
  {
    if items == [] {
      assert s.log[|s.log|..] == [];
    } else {
      var n := |items| - 1;
      var w := DeferredWrite(items[n], rt, data, a, meta, target);
      var (o1, s1) := RelatedFold(s, ctx, env, rt, data, a, meta, target, items[..n]);
      RelatedFoldSplits(s, ctx, env, rt, data, a, meta, target, items[..n], r);
      if o1.Pass? {
        RelatedEffectSplits(s, s1, ctx, env, w, r, PendingWrites(env, rt, data, a, meta, target, items[..n]),
                            ImmediateWrites(env, rt, data, a, meta, target, items[..n]));
      }
    }
  }

  /** A related entity whose class has a composite identifier makes the
      unit of work throw before anything is written or deferred. */
  lemma CompositeRelatedEntityThrows(s: State, ctx: Context, env: Env, w: DeferredWrite)
    requires w.entity.className in env.classes && |env.classes[w.entity.className].identifier| > 1
    ensures RelatedEffect(s, ctx, env, w) == (Fail(UnitOfWorkError(InvalidCompositeIdentifier)), s)
  {
  }

  lemma RelatedEffectSplits(s: State, s1: State, ctx: Context, env: Env, w: DeferredWrite, r: IdValue,
                            pending: seq<DeferredWrite>, immediate: seq<DeferredWrite>)
    requires s1.revisionId == Some(r) && s1.deferred == s.deferred + pending
    requires |s.log| <= |s1.log| && s1.log[..|s.log|] == s.log
    requires JoinRowsOf(s1.log[|s.log|..], env, immediate, r)
    ensures var (o, t) := RelatedEffect(s1, ctx, env, w);
      o.Pass? ==>
        && t.revisionId == Some(r)
        && t.deferred == s.deferred + (pending + (if SingleIdentifierValue(env, w.entity) == Success(Null) then [w] else []))
        && |s.log| <= |t.log| && t.log[..|s.log|] == s.log
        && JoinRowsOf(t.log[|s.log|..], env, immediate + (if IdentifiedNow(env, w.entity) then [w] else []), r)
  {
    var (o, t) := RelatedEffect(s1, ctx, env, w);
    if SingleIdentifierValue(env, w.entity) == Success(Null) {
      assert t.log == s1.log;
      assert immediate + [] == immediate;
    } else if IdentifiedNow(env, w.entity) && o.Pass? {
      RecordWritesJoinRow(s1, ctx, env, w);
      FirstRowsStay(s, s1, t, |s.log|);
      JoinRowsOfSnoc(s1.log[|s.log|..], env, immediate, r, t.log[|t.log| - 1], w);
      assert pending + [] == pending;
    }
  }

  // ------------------------------------------------------------------
  // The rows of the entity hooks

  /** postPersist writes nothing for an unaudited class and otherwise, when
      it succeeds, ends with the entity's INS row. */
  lemma PostPersistWritesRow(s: State, ctx: Context, env: Env, e: EntityRef)
    requires Known(env, e) && InsertCacheValid(s, ctx.cfg, env)
    ensures var meta := env.classes[e.className];
      var (o, t) := PostPersistEffect(s, ctx, env, e);
      && (meta.name !in env.audited ==> (o, t) == (Pass, s))
      && (meta.name in env.audited && o.Pass? ==>
            t.revisionId.Some? && |t.log| > 0
            && t.log[|t.log| - 1] == AuditRow(ctx.cfg, env, meta, EventData(env, e, meta, false), t.revisionId.value, Ins))
  {
    var meta := env.classes[e.className];
    if meta.name in env.audited {
      SaveWritesOwnRow(s, ctx, env, meta, EventData(env, e, meta, false), Ins);
    }
  }

  /** When every changed field is globally ignored, postUpdate writes
      nothing and changes nothing. */
  lemma PostUpdateIgnoredOnly(s: State, ctx: Context, env: Env, e: EntityRef)
    requires Known(env, e)
    requires forall i :: 0 <= i < |EntityChangeSet(env, e)| ==> EntityChangeSet(env, e)[i].0 in ctx.cfg.globalIgnoreColumns
    ensures PostUpdateEffect(s, ctx, env, e) == (Pass, s)
  {
    WithoutAll(EntityChangeSet(env, e), IgnoredColumns(ctx.cfg));
  }

  /** When an audited entity changed a field that is not globally ignored,
      a successful postUpdate ends with its UPD row. */
  lemma PostUpdateWritesRow(s: State, ctx: Context, env: Env, e: EntityRef, i: nat)
    requires Known(env, e) && InsertCacheValid(s, ctx.cfg, env)
    requires env.classes[e.className].name in env.audited
    requires i < |EntityChangeSet(env, e)| && EntityChangeSet(env, e)[i].0 !in ctx.cfg.globalIgnoreColumns
    ensures var meta := env.classes[e.className];
      var (o, t) := PostUpdateEffect(s, ctx, env, e);
      o.Pass? ==>
        t.revisionId.Some? && |t.log| > 0
        && t.log[|t.log| - 1] == AuditRow(ctx.cfg, env, meta, EventData(env, e, meta, true), t.revisionId.value, Upd)
  {
    var meta := env.classes[e.className];
    var cs := EntityChangeSet(env, e);
    WithoutKeys(cs, IgnoredColumns(ctx.cfg));
    assert cs[i].0 in Keys(cs);
    assert |Without(cs, IgnoredColumns(ctx.cfg))| != 0;
    SaveWritesOwnRow(s, ctx, env, meta, EventData(env, e, meta, true), Upd);
  }

  /** A scheduled deletion writes nothing for an unaudited class and
      otherwise, when it succeeds, ends with the entity's DEL row. */
  lemma DeletionWritesRow(s: State, ctx: Context, env: Env, e: EntityRef)
    requires Known(env, e) && InsertCacheValid(s, ctx.cfg, env)
    ensures var meta := env.classes[e.className];
      var (o, t) := DeletionEffect(s, ctx, env, e);
      && (meta.name !in env.audited ==> (o, t) == (Pass, s))
      && (meta.name in env.audited && o.Pass? ==>
            t.revisionId.Some? && |t.log| > 0
            && t.log[|t.log| - 1] == AuditRow(ctx.cfg, env, meta, EventData(env, e, meta, true), t.revisionId.value, Del))
  {
    var meta := env.classes[e.className];
    if meta.name in env.audited {
      SaveWritesOwnRow(s, ctx, env, meta, EventData(env, e, meta, true), Del);
    }
  }

  // ------------------------------------------------------------------
  // The queue of extra updates

  /** Queueing keeps the keys unique, adds exactly the object hashes of the
      audited entities, and leaves the queue alone when none is audited. */
  lemma {:induction false} QueueAuditedSpec(q: seq<(Oid, EntityRef)>, env: Env, es: seq<EntityRef>)
    requires UniqueKeys(q)
    ensures UniqueKeys(QueueAudited(q, env, es))
    ensures forall k :: k in Keys(QueueAudited(q, env, es)) <==>
      k in Keys(q) || exists i :: 0 <= i < |es| && es[i].className in env.audited && es[i].oid == k
    ensures (forall i :: 0 <= i < |es| ==> es[i].className !in env.audited) ==> QueueAudited(q, env, es) == q
    decreases |es|
  {
    if es != [] {
      var n := |es| - 1;
      var e := es[n];
      var q1 := QueueAudited(q, env, es[..n]);
      QueueAuditedSpec(q, env, es[..n]);
      assert forall i :: 0 <= i < n ==> es[..n][i] == es[i];
      if e.className in env.audited {
        PutUnique(q1, e.oid, e);
        PutSpec(q1, e.oid, e);
        forall k ensures k in Keys(Put(q1, e.oid, e)) <==> k in Keys(q1) || k == e.oid {
          assert Get(Put(q1, e.oid, e), k).Some? <==> k in Keys(Put(q1, e.oid, e));
          assert Get(q1, k).Some? <==> k in Keys(q1);
        }
      }
    }
  }

  /** The object queued under a hash is the last audited entity queued under it. */
  lemma QueueOverwrites(q: seq<(Oid, EntityRef)>, env: Env, es: seq<EntityRef>, e: EntityRef)
    requires e.className in env.audited
    ensures Get(QueueAudited(q, env, es + [e]), e.oid) == Some(e)
  {
    assert (es + [e])[..|es|] == es;
    PutSpec(QueueAudited(q, env, es), e.oid, e);
  }

  // ------------------------------------------------------------------
  // A whole flush

  /** An entity event the ORM dispatches during a flush, after onFlush and
      before postFlush, with the unit of work as it stands at that event. */
  datatype Event = Persisted(env: Env, entity: EntityRef) | Updated(env: Env, entity: EntityRef)

  ghost predicate EventsKnown(evs: seq<Event>) {
    forall k :: 0 <= k < |evs| ==> Known(evs[k].env, evs[k].entity)
  }

  function EventEffect(s: State, ctx: Context, ev: Event): (Outcome<Error>, State)
    requires Known(ev.env, ev.entity)
  {
    match ev
    case Persisted(env, e) => PostPersistEffect(s, ctx, env, e)
    case Updated(env, e) => PostUpdateEffect(s, ctx, env, e)
  }

  /** The events in order; an exception stops the flush. */
  function EventsFold(s: State, ctx: Context, evs: seq<Event>): (Outcome<Error>, State)
    requires EventsKnown(evs)
    decreases |evs|
  {
    if evs == [] then (Pass, s)
    else
      var n := |evs| - 1;
      assert EventsKnown(evs[..n]) by {
        assert forall k :: 0 <= k < n ==> evs[..n][k] == evs[k];
      }
      var (o, s1) := EventsFold(s, ctx, evs[..n]);
      if o.Fail? then (o, s1) else EventEffect(s1, ctx, evs[n])
  }

  lemma EventAdvances(s: State, ctx: Context, ev: Event)
    requires Known(ev.env, ev.entity)
    ensures var (o, t) := EventEffect(s, ctx, ev);
      o.Pass? ==> Advances(s, t)
  {
    match ev
    case Persisted(env, e) => PostPersistAdvances(s, ctx, env, e);
    case Updated(env, e) => PostUpdateAdvances(s, ctx, env, e);
  }

  lemma {:induction false} EventsFoldAdvances(s: State, ctx: Context, evs: seq<Event>)
    requires EventsKnown(evs)
    ensures var (o, t) := EventsFold(s, ctx, evs);
      o.Pass? ==> Advances(s, t)
    decreases |evs|
  {
    if evs == [] {
      AdvancesRefl(s, s);
    } else {
      var n := |evs| - 1;
      assert EventsKnown(evs[..n]) by {
        assert forall k :: 0 <= k < n ==> evs[..n][k] == evs[k];
      }
      var (o1, s1) := EventsFold(s, ctx, evs[..n]);
      EventsFoldAdvances(s, ctx, evs[..n]);
      if o1.Pass? {
        EventAdvances(s1, ctx, evs[n]);
        var (o2, s2) := EventEffect(s1, ctx, evs[n]);
        if o2.Pass? { AdvancesTrans(s, s1, s2); }
      }
    }
  }

  /** One revision per flush: a flush that succeeds from onFlush through its
      entity events to postFlush inserts at most one revision row, first,
      counts it on the connection, and binds every later statement of the
      flush (audit rows, join rows, extra updates) to that revision. */
  ghost predicate OneRevision(s: State, t: State) {
    && |s.log| <= |t.log| && t.log[..|s.log|] == s.log
    && (var added := t.log[|s.log|..];
        && RevisionRows(added) <= 1
        && t.revisionInserts == s.revisionInserts + RevisionRows(added)
        && (added != [] ==> t.revisionId.Some? && added[0].InsertRevision? && AllTagged(added[1..], t.revisionId.value)))
  }

  lemma OneRevisionPerFlush(s: State, ctx: Context, env: Env, evs: seq<Event>, envAfter: Env)
    requires WellFormed(env) && EventsKnown(evs)
    ensures var (o1, s1) := OnFlushEffect(s, ctx, env);
      o1.Pass? ==>
        var (o2, s2) := EventsFold(s1, ctx, evs);
        o2.Pass? && AllKnown(envAfter, Values(s2.extraUpdates)) ==>
          var (o3, t) := PostFlushEffect(s2, ctx, envAfter);
          o3.Pass? ==> OneRevision(s, t)
  {
    var s0 := s.(revisionId := None);
    var (o1, s1) := OnFlushEffect(s, ctx, env);
    OnFlushAdvances(s, ctx, env);
    if o1.Pass? {
      var (o2, s2) := EventsFold(s1, ctx, evs);
      EventsFoldAdvances(s1, ctx, evs);
      if o2.Pass? && AllKnown(envAfter, Values(s2.extraUpdates)) {
        var (o3, t) := PostFlushEffect(s2, ctx, envAfter);
        PostFlushAdvances(s2, ctx, envAfter);
        if o3.Pass? {
          AdvancesTrans(s0, s1, s2);
          AdvancesTrans(s0, s2, t);
          AdvancesRevisionRows(s0, t);
        }
      }
    }
  }

  // ------------------------------------------------------------------
  // The audit-row cache across the hooks

  lemma DeletionKeepsInsertCache(s: State, ctx: Context, env: Env, e: EntityRef)
    requires Known(env, e) && InsertCacheValid(s, ctx.cfg, env)
    ensures InsertCacheValid(DeletionEffect(s, ctx, env, e).1, ctx.cfg, env)
  {
    var meta := env.classes[e.className];
    if meta.name in env.audited {
      SaveKeepsInsertCache(s, ctx, env, meta, EventData(env, e, meta, true), Del);
    }
  }

  lemma {:induction false} DeletionsFoldKeepsInsertCache(s: State, ctx: Context, env: Env, es: seq<EntityRef>)
    requires AllKnown(env, es) && InsertCacheValid(s, ctx.cfg, env)
    ensures InsertCacheValid(DeletionsFold(s, ctx, env, es).1, ctx.cfg, env)
    decreases |es|
  {
    if es != [] {
      var n := |es| - 1;
      assert AllKnown(env, es[..n]) by {
        assert forall k :: 0 <= k < n ==> es[..n][k] == es[k];
      }
      var (o1, s1) := DeletionsFold(s, ctx, env, es[..n]);
      DeletionsFoldKeepsInsertCache(s, ctx, env, es[..n]);
      if o1.Pass? {
        DeletionKeepsInsertCache(s1, ctx, env, es[n]);
      }
    }
  }

  /** Every hook keeps the cached audit-row templates the ones the metadata
      describes (postFlush does not touch them, `PostFlushAdvances`). */
  lemma OnFlushKeepsInsertCache(s: State, ctx: Context, env: Env)
    requires WellFormed(env) && InsertCacheValid(s, ctx.cfg, env)
    ensures InsertCacheValid(OnFlushEffect(s, ctx, env).1, ctx.cfg, env)
  {
    var dels := env.uow.scheduledEntityDeletions;
    assert dels[..|dels|] == dels;
    KnownDeletions(env, |dels|);
    DeletionsFoldKeepsInsertCache(s.(revisionId := None), ctx, env, FirstByHash(env, dels));
  }

  lemma EventKeepsInsertCache(s: State, ctx: Context, ev: Event)
    requires Known(ev.env, ev.entity) && InsertCacheValid(s, ctx.cfg, ev.env)
    ensures InsertCacheValid(EventEffect(s, ctx, ev).1, ctx.cfg, ev.env)
  {
    var env, e := ev.env, ev.entity;
    var meta := env.classes[e.className];
    if meta.name in env.audited {
      SaveKeepsInsertCache(s, ctx, env, meta, EventData(env, e, meta, ev.Updated?), if ev.Updated? then Upd else Ins);
    }
  }
}
