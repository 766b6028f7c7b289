/** The extra UPDATE that fills in, after the flush, audit columns whose value
    was only known once the ORM had written the entity: `prepareUpdateData`
    (the entity's change set turned into table => column => value) and the
    SET, WHERE and parameter lists postFlush builds from the entity's own
    table. */
module ExtraUpdates {
  import opened Wrappers
  import opened PhpArray
  import opened Mapping
  import opened Orm
  import opened Dbal
  import opened Revisions

  /** One table's columns in write order (`$result[$table]`). */
  type Row = seq<(string, Value)>

  /** `$result`: table name => row. */
  type Tables = map<string, Row>

  /** One assignment `$result[$table][$column] = $value`. */
  datatype Write = Write(table: string, column: string, value: Value)

  function RowOf(m: Tables, t: string): Row {
    if t in m then m[t] else []
  }

  function Assign(m: Tables, w: Write): Tables {
    m[w.table := Put(RowOf(m, w.table), w.column, w.value)]
  }

  function AssignAll(m: Tables, ws: seq<Write>): Tables
    decreases |ws|
  {
    if ws == [] then m else Assign(AssignAll(m, ws[..|ws| - 1]), ws[|ws| - 1])
  }

  lemma AssignAllSnoc(m: Tables, ws: seq<Write>, j: nat)
    requires j < |ws|
    ensures AssignAll(m, ws[..j + 1]) == Assign(AssignAll(m, ws[..j]), ws[j])
  {
    assert ws[..j + 1][..j] == ws[..j];
  }

  /** The metadata of an association's target (always present for a
      consistent metadata registry). */
  function TargetClass(env: Env, a: Association): Option<ClassMetadata> {
    if a.targetEntity in env.classes then Some(env.classes[a.targetEntity]) else None
  }

  /** `$newValId[$targetClass->getFieldForColumn($referencedColumn)]`, or null
      when the new value has no identifier. */
  function JoinColumnValue(newValId: Option<seq<(string, IdValue)>>, target: Option<ClassMetadata>, jc: JoinColumn): Value {
    match newValId
    case None => Null
    case Some(ids) =>
      match target
      case None => Null
      case Some(t) =>
        match t.FieldForColumn(jc.referencedColumnName)
        case None => Null
        case Some(f) =>
          match Get(ids, f)
          case Some(v) => ToValue(v)
          case None => Null
  }

  function JoinColumnWrites(table: string, newValId: Option<seq<(string, IdValue)>>, target: Option<ClassMetadata>, jcs: seq<JoinColumn>): (ws: seq<Write>)
    ensures |ws| == |jcs|
    ensures forall k :: 0 <= k < |jcs| ==> ws[k] == Write(table, jcs[k].name, JoinColumnValue(newValId, target, jcs[k]))
  {
    seq(|jcs|, k requires 0 <= k < |jcs| => Write(table, jcs[k].name, JoinColumnValue(newValId, target, jcs[k])))
  }

  /** The new value of a to-one association as the update sees it: an entity
      still scheduled for insertion counts as null. */
  function EffectiveNewValue(env: Env, v: Value): Value {
    if v != Null && IsScheduledForInsert(env, v) then Null else v
  }

  /** What one change-set entry writes. The version field and embedded fields
      write nothing, a mapped field writes its column in the table that
      declares it, a to-one owning association writes each of its join
      columns (null while the target has no identifier), and an association
      to an object outside the identity map, or of any other kind, writes
      nothing. An unmapped field name writes nothing. */
  function Contribution(env: Env, meta: ClassMetadata, field: string, change: Change): seq<Write> {
    if meta.versionField == Some(field) then []
    else if field in meta.embeddedClasses then []
    else
      match meta.AssociationOf(field)
      case None =>
        (match meta.FieldMappingOf(field)
         case None => []
         case Some(fm) => [Write(OwningTable(env, meta, field), fm.columnName, change.newValue)])
      case Some(a) =>
        if !IsToOneOwningSide(a) then []
        else
          var nv := EffectiveNewValue(env, change.newValue);
          if IsObject(nv) && !InIdentityMap(env, nv) then []
          else
            var newValId := if InIdentityMap(env, nv) then Some(EntityIdentifier(env, nv.ref)) else None;
            JoinColumnWrites(OwningTable(env, meta, field), newValId, TargetClass(env, a), a.joinColumns)
  }

  /** `prepareUpdateData` over a change set. */
  function UpdateDataOf(env: Env, meta: ClassMetadata, cs: seq<(string, Change)>): Tables
    decreases |cs|
  {
    if cs == [] then map[]
    else
      var last := cs[|cs| - 1];
      AssignAll(UpdateDataOf(env, meta, cs[..|cs| - 1]), Contribution(env, meta, last.0, last.1))
  }

  /** `prepareUpdateData($em, $persister, $entity)`. */
  method PrepareUpdateData(env: Env, meta: ClassMetadata, e: EntityRef) returns (result: Tables)
    ensures result == UpdateDataOf(env, meta, EntityChangeSet(env, e))
  {
    var cs := EntityChangeSet(env, e);
    result := map[];
    var i := 0;
    while i < |cs|
      invariant 0 <= i <= |cs|
      invariant result == UpdateDataOf(env, meta, cs[..i])
    {
      UpdateDataOfSnoc(env, meta, cs, i);
      result := ApplyChange(env, meta, result, cs[i].0, cs[i].1);
      i := i + 1;
    }
    assert cs[..i] == cs;
  }

  lemma UpdateDataOfSnoc(env: Env, meta: ClassMetadata, cs: seq<(string, Change)>, i: nat)
    requires i < |cs|
    ensures UpdateDataOf(env, meta, cs[..i + 1]) == AssignAll(UpdateDataOf(env, meta, cs[..i]), Contribution(env, meta, cs[i].0, cs[i].1))
  {
    assert cs[..i + 1][..i] == cs[..i];
  }

  /** The body of `prepareUpdateData`'s loop for one change-set entry. */
  method ApplyChange(env: Env, meta: ClassMetadata, m: Tables, field: string, change: Change) returns (result: Tables)
    ensures result == AssignAll(m, Contribution(env, meta, field, change))
  {
    result := m;
    if meta.versionField == Some(field) {
    } else if field in meta.embeddedClasses {
    } else {
      var assoc := meta.AssociationOf(field);
      if assoc.None? {
        var fm := meta.FieldMappingOf(field);
        if fm.Some? {
          result := Assign(result, Write(OwningTable(env, meta, field), fm.value.columnName, change.newValue));
          assert result == AssignAll(m, [Write(OwningTable(env, meta, field), fm.value.columnName, change.newValue)]);
        }
      } else {
        var a := assoc.value;
        if IsToOneOwningSide(a) {
          var newVal := change.newValue;
          if newVal != Null && IsScheduledForInsert(env, newVal) {
            newVal := Null;
          }
          if !(IsObject(newVal) && !InIdentityMap(env, newVal)) {
            var newValId := None;
            if IsObject(newVal) {
              newValId := Some(EntityIdentifier(env, newVal.ref));
            }
            result := AssignJoinColumns(m, OwningTable(env, meta, field), newValId, TargetClass(env, a), a.joinColumns);
          }
        }
      }
    }
  }

  /** The join-column loop of a to-one owning association. */
  method AssignJoinColumns(m: Tables, table: string, newValId: Option<seq<(string, IdValue)>>, target: Option<ClassMetadata>, jcs: seq<JoinColumn>)
    returns (result: Tables)
    ensures result == AssignAll(m, JoinColumnWrites(table, newValId, target, jcs))
  {
    result := m;
    ghost var ws := JoinColumnWrites(table, newValId, target, jcs);
    var j := 0;
    while j < |jcs|
      invariant 0 <= j <= |jcs|
      invariant result == AssignAll(m, ws[..j])
    {
      AssignAllSnoc(m, ws, j);
      result := Assign(result, Write(table, jcs[j].name, JoinColumnValue(newValId, target, jcs[j])));
      j := j + 1;
    }
    assert ws[..j] == ws;
  }

  // ------------------------------------------------------------------
  // Properties of the update data

  lemma AssignColumns(m: Tables, w: Write, t: string, c: string)
    ensures c in Keys(RowOf(Assign(m, w), t)) <==> c in Keys(RowOf(m, t)) || (w.table == t && w.column == c)
  {
    if w.table == t {
      var row := RowOf(m, t);
      PutSpec(row, w.column, w.value);
      assert RowOf(Assign(m, w), t) == Put(row, w.column, w.value);
      assert Get(row, c).Some? <==> c in Keys(row);
    } else {
      assert RowOf(Assign(m, w), t) == RowOf(m, t);
    }
  }

  /** Some write of `ws` targets column `c` of table `t`. */
  ghost predicate WritesColumn(ws: seq<Write>, t: string, c: string) {
    exists k :: 0 <= k < |ws| && ws[k].table == t && ws[k].column == c
  }

  /** A column is present in a table's row exactly when it was there before
      or one of the writes targets it. */
  lemma {:induction false} AssignAllColumns(m: Tables, ws: seq<Write>, t: string, c: string)
    ensures c in Keys(RowOf(AssignAll(m, ws), t)) <==> c in Keys(RowOf(m, t)) || WritesColumn(ws, t, c)
  {
    if ws != [] {
      var n := |ws| - 1;
      AssignAllColumns(m, ws[..n], t, c);
      AssignColumns(AssignAll(m, ws[..n]), ws[n], t, c);
      if WritesColumn(ws, t, c) {
        var k :| 0 <= k < |ws| && ws[k].table == t && ws[k].column == c;
        if k < n { assert ws[..n][k] == ws[k]; }
      }
      if WritesColumn(ws[..n], t, c) {
        var k :| 0 <= k < n && ws[..n][k].table == t && ws[..n][k].column == c;
        assert ws[k] == ws[..n][k];
      }
    }
  }

  /** Some entry of the change set writes column `c` of table `t`. */
  ghost predicate SomeChangeWrites(env: Env, meta: ClassMetadata, cs: seq<(string, Change)>, t: string, c: string) {
    exists i :: 0 <= i < |cs| && WritesColumn(Contribution(env, meta, cs[i].0, cs[i].1), t, c)
  }

  lemma SomeChangeWritesSnoc(env: Env, meta: ClassMetadata, cs: seq<(string, Change)>, t: string, c: string)
    requires cs != []
    ensures SomeChangeWrites(env, meta, cs, t, c) <==>
      SomeChangeWrites(env, meta, cs[..|cs| - 1], t, c)
      || WritesColumn(Contribution(env, meta, cs[|cs| - 1].0, cs[|cs| - 1].1), t, c)
  {
    var n := |cs| - 1;
    if SomeChangeWrites(env, meta, cs, t, c) {
      var i :| 0 <= i < |cs| && WritesColumn(Contribution(env, meta, cs[i].0, cs[i].1), t, c);
      if i < n { assert cs[..n][i] == cs[i]; }
    }
    if SomeChangeWrites(env, meta, cs[..n], t, c) {
      var i :| 0 <= i < n && WritesColumn(Contribution(env, meta, cs[..n][i].0, cs[..n][i].1), t, c);
      assert cs[..n][i] == cs[i];
    }
  }

  /** The row of a table lists a column exactly when some change in the change
      set writes that column of that table. */
  lemma {:induction false} UpdateDataColumns(env: Env, meta: ClassMetadata, cs: seq<(string, Change)>, t: string, c: string)
    ensures c in Keys(RowOf(UpdateDataOf(env, meta, cs), t)) <==> SomeChangeWrites(env, meta, cs, t, c)
  {
    if cs != [] {
      var n := |cs| - 1;
      var ws := Contribution(env, meta, cs[n].0, cs[n].1);
      UpdateDataColumns(env, meta, cs[..n], t, c);
      AssignAllColumns(UpdateDataOf(env, meta, cs[..n]), ws, t, c);
      SomeChangeWritesSnoc(env, meta, cs, t, c);
    }
  }

  /** Every row of the update data lists each column once. */
  lemma {:induction false} UpdateDataRowsUnique(env: Env, meta: ClassMetadata, cs: seq<(string, Change)>, t: string)
    ensures UniqueKeys(RowOf(UpdateDataOf(env, meta, cs), t))
  {
    if cs != [] {
      var n := |cs| - 1;
      UpdateDataRowsUnique(env, meta, cs[..n], t);
      AssignAllUnique(UpdateDataOf(env, meta, cs[..n]), Contribution(env, meta, cs[n].0, cs[n].1), t);
    }
  }

  lemma {:induction false} AssignAllUnique(m: Tables, ws: seq<Write>, t: string)
    requires UniqueKeys(RowOf(m, t))
    ensures UniqueKeys(RowOf(AssignAll(m, ws), t))
  {
    if ws != [] {
      var n := |ws| - 1;
      AssignAllUnique(m, ws[..n], t);
      if ws[n].table == t {
        PutUnique(RowOf(AssignAll(m, ws[..n]), t), ws[n].column, ws[n].value);
      }
    }
  }

  /** The last change to a mapped scalar field leaves its new value in its
      column of the table that declares the field. */
  lemma ScalarChangeWritten(env: Env, meta: ClassMetadata, cs: seq<(string, Change)>, field: string, change: Change, fm: FieldMapping)
    requires meta.versionField != Some(field) && field !in meta.embeddedClasses
    requires meta.AssociationOf(field).None? && meta.FieldMappingOf(field) == Some(fm)
    ensures Get(RowOf(UpdateDataOf(env, meta, cs + [(field, change)]), OwningTable(env, meta, field)), fm.columnName)
      == Some(change.newValue)
  {
    var cs' := cs + [(field, change)];
    assert cs'[..|cs'| - 1] == cs;
    var before := UpdateDataOf(env, meta, cs);
    var w := Write(OwningTable(env, meta, field), fm.columnName, change.newValue);
    assert AssignAll(before, [w]) == Assign(AssignAll(before, []), w);
    PutSpec(RowOf(before, w.table), w.column, w.value);
  }

  /** The last change of a to-one owning association whose new entity is
      still scheduled for insertion writes null into every join column. */
  lemma PendingTargetWritesNull(env: Env, meta: ClassMetadata, cs: seq<(string, Change)>, field: string, change: Change, a: Association, k: nat)
    requires meta.versionField != Some(field) && field !in meta.embeddedClasses
    requires meta.AssociationOf(field) == Some(a) && IsToOneOwningSide(a)
    requires IsScheduledForInsert(env, change.newValue)
    requires k < |a.joinColumns|
    requires forall k' :: k < k' < |a.joinColumns| ==> a.joinColumns[k'].name != a.joinColumns[k].name
    ensures Get(RowOf(UpdateDataOf(env, meta, cs + [(field, change)]), OwningTable(env, meta, field)), a.joinColumns[k].name)
      == Some(Null)
  {
    var cs' := cs + [(field, change)];
    assert cs'[..|cs'| - 1] == cs;
    var ws := Contribution(env, meta, field, change);
    assert ws == JoinColumnWrites(OwningTable(env, meta, field), None, TargetClass(env, a), a.joinColumns);
    LaterWritesKeep(UpdateDataOf(env, meta, cs), ws, k);
  }

  /** What one write leaves under a table and column. */
  lemma AssignGet(m: Tables, w: Write, t: string, c: string)
    ensures Get(RowOf(Assign(m, w), t), c) == if w.table == t && w.column == c then Some(w.value) else Get(RowOf(m, t), c)
  {
    PutSpec(RowOf(m, w.table), w.column, w.value);
  }

  /** A write survives the later writes that go to other columns. */
  lemma {:induction false} LaterWritesKeep(m: Tables, ws: seq<Write>, k: nat)
    requires k < |ws|
    requires forall k' :: k < k' < |ws| ==> ws[k'].table != ws[k].table || ws[k'].column != ws[k].column
    ensures Get(RowOf(AssignAll(m, ws), ws[k].table), ws[k].column) == Some(ws[k].value)
    decreases |ws|
  {
    var n := |ws| - 1;
    assert AssignAll(m, ws) == Assign(AssignAll(m, ws[..n]), ws[n]);
    AssignGet(AssignAll(m, ws[..n]), ws[n], ws[k].table, ws[k].column);
    if k < n {
      assert ws[..n][k] == ws[k];
      assert forall k' :: k < k' < n ==> ws[..n][k'] == ws[k'];
      LaterWritesKeep(m, ws[..n], k);
    }
  }

  // ------------------------------------------------------------------
  // The SET clause of the extra update

  /** The placeholder of a SET column. The type is looked up under the column
      name rather than under the field name, so a converted type is only used
      when the two coincide. */
  function SetPlaceholder(meta: ClassMetadata, column: string): Placeholder {
    match meta.FieldForColumn(column)
    case None => Plain
    case Some(f) =>
      if !meta.HasField(f) then Plain
      else
        match meta.TypeOfField(column)
        case Some(t) => Converted(t)
        case None => Plain
  }

  /** The last join column named `column` in a list. */
  function LastJoinColumnNamed(jcs: seq<JoinColumn>, column: string): Option<JoinColumn>
    decreases |jcs|
  {
    if jcs == [] then None
    else if jcs[|jcs| - 1].name == column then Some(jcs[|jcs| - 1])
    else LastJoinColumnNamed(jcs[..|jcs| - 1], column)
  }

  /** The type of a referenced column in an association's target. */
  function ReferencedColumnType(env: Env, a: Association, jc: JoinColumn): Option<string> {
    match TargetClass(env, a)
    case None => None
    case Some(t) => TypeOfColumnField(t, jc.referencedColumnName)
  }

  /** The association search of postFlush: the type found at the last join
      column named `column`, null when no join column has that name. */
  function JoinColumnType(env: Env, assocs: seq<Association>, column: string): Option<string>
    decreases |assocs|
  {
    if assocs == [] then None
    else
      var a := assocs[|assocs| - 1];
      match LastJoinColumnNamed(a.joinColumns, column)
      case Some(jc) => ReferencedColumnType(env, a, jc)
      case None => JoinColumnType(env, assocs[..|assocs| - 1], column)
  }

  /** The binding type of a SET column: a mapping error when the column
      belongs to no field (not a field column and not the single join column
      of a to-one association), the field's type for a field column,
      otherwise the type found through the join columns, and an error when
      that is null. */
  function ColumnType(env: Env, meta: ClassMetadata, column: string): Result<BindType, Error> {
    match meta.FieldNameOfColumn(column)
    case Some(f) => Success(BindTypeOf(meta.TypeOfField(f)))
    case None =>
      if meta.FieldForColumn(column).None? then Failure(NoFieldForColumn(column))
      else
        match JoinColumnType(env, meta.associationMappings, column)
        case Some(t) => Success(Named(t))
        case None => Failure(UnresolvedColumnType(column))
  }

  /** `SET col = placeholder, ...` with its parameters and types. */
  datatype SetClause = SetClause(assignments: seq<(string, Placeholder)>, params: seq<Value>, types: seq<BindType>)

  function SetClauseOf(env: Env, meta: ClassMetadata, row: Row): Result<SetClause, Error>
    decreases |row|
  {
    if row == [] then Success(SetClause([], [], []))
    else
      var n := |row| - 1;
      match SetClauseOf(env, meta, row[..n])
      case Failure(e) => Failure(e)
      case Success(sc) =>
        match ColumnType(env, meta, row[n].0)
        case Failure(e) => Failure(e)
        case Success(t) =>
          Success(SetClause(sc.assignments + [(row[n].0, SetPlaceholder(meta, row[n].0))], sc.params + [row[n].1], sc.types + [t]))
  }

  /** The SET list has one assignment, parameter and type per column of the
      row, in order; it fails exactly when some column belongs to no field or
      its type cannot be resolved, and then with the error of the first such
      column. */
  lemma {:induction false} SetClauseOfSpec(env: Env, meta: ClassMetadata, row: Row)
    ensures SetClauseOf(env, meta, row).Success? ==>
      && |SetClauseOf(env, meta, row).value.assignments| == |row| && |SetClauseOf(env, meta, row).value.params| == |row| && |SetClauseOf(env, meta, row).value.types| == |row|
      && (forall i :: 0 <= i < |row| ==> SetClauseOf(env, meta, row).value.assignments[i] == (row[i].0, SetPlaceholder(meta, row[i].0)))
      && (forall i :: 0 <= i < |row| ==> SetClauseOf(env, meta, row).value.params[i] == row[i].1)
      && (forall i :: 0 <= i < |row| ==> Success(SetClauseOf(env, meta, row).value.types[i]) == ColumnType(env, meta, row[i].0))
    ensures SetClauseOf(env, meta, row).Failure? <==> exists i :: 0 <= i < |row| && ColumnType(env, meta, row[i].0).Failure?
    ensures (exists i :: 0 <= i < |row| && meta.FieldForColumn(row[i].0).None?) ==> SetClauseOf(env, meta, row).Failure?
    ensures SetClauseOf(env, meta, row).Failure? ==> exists i :: (0 <= i < |row| && Failure(SetClauseOf(env, meta, row).error) == ColumnType(env, meta, row[i].0)
      && forall i' :: 0 <= i' < i ==> ColumnType(env, meta, row[i'].0).Success?)
    decreases |row|
  {
    if row != [] {
      var n := |row| - 1;
      var r1 := SetClauseOf(env, meta, row[..n]);
      SetClauseOfSpec(env, meta, row[..n]);
      assert forall i :: 0 <= i < n ==> row[..n][i] == row[i];
      if r1.Success? {
        match ColumnType(env, meta, row[n].0)
        case Success(t) =>
          SetClauseSnoc(env, meta, row, r1.value, t);
        case Failure(err) =>
          assert SetClauseOf(env, meta, row) == Failure(err);
          assert forall i' :: 0 <= i' < n ==> ColumnType(env, meta, row[i'].0).Success?;
      }
    }
  }

  /** One more resolved column extends each list of a matching SET clause. */
  lemma SetClauseSnoc(env: Env, meta: ClassMetadata, row: Row, sc: SetClause, t: BindType)
    requires row != [] && SetClauseOf(env, meta, row[..|row| - 1]) == Success(sc)
    requires ColumnType(env, meta, row[|row| - 1].0) == Success(t)
    requires |sc.assignments| == |row| - 1 && |sc.params| == |row| - 1 && |sc.types| == |row| - 1
    requires forall i :: 0 <= i < |row| - 1 ==> sc.assignments[i] == (row[i].0, SetPlaceholder(meta, row[i].0))
    requires forall i :: 0 <= i < |row| - 1 ==> sc.params[i] == row[i].1
    requires forall i :: 0 <= i < |row| - 1 ==> Success(sc.types[i]) == ColumnType(env, meta, row[i].0)
    ensures SetClauseOf(env, meta, row).Success?
    ensures var sc' := SetClauseOf(env, meta, row).value;
      && |sc'.assignments| == |row| && |sc'.params| == |row| && |sc'.types| == |row|
      && (forall i :: 0 <= i < |row| ==> sc'.assignments[i] == (row[i].0, SetPlaceholder(meta, row[i].0)))
      && (forall i :: 0 <= i < |row| ==> sc'.params[i] == row[i].1)
      && (forall i :: 0 <= i < |row| ==> Success(sc'.types[i]) == ColumnType(env, meta, row[i].0))
  {
    var n := |row| - 1;
    var sc' := SetClause(sc.assignments + [(row[n].0, SetPlaceholder(meta, row[n].0))], sc.params + [row[n].1], sc.types + [t]);
    assert SetClauseOf(env, meta, row) == Success(sc');
    forall i | 0 <= i < |row|
      ensures sc'.assignments[i] == (row[i].0, SetPlaceholder(meta, row[i].0))
      ensures sc'.params[i] == row[i].1
      ensures Success(sc'.types[i]) == ColumnType(env, meta, row[i].0)
    {
      if i < n {
        assert sc'.assignments[i] == sc.assignments[i] && sc'.params[i] == sc.params[i] && sc'.types[i] == sc.types[i];
      }
    }
  }

  /** Once a prefix of the row fails, the whole row fails with the same error. */
  lemma {:induction false} SetClauseFailureStays(env: Env, meta: ClassMetadata, row: Row, k: nat)
    requires k <= |row| && SetClauseOf(env, meta, row[..k]).Failure?
    ensures SetClauseOf(env, meta, row) == SetClauseOf(env, meta, row[..k])
    decreases |row|
  {
    if k < |row| {
      var n := |row| - 1;
      assert row[..n][..k] == row[..k];
      SetClauseFailureStays(env, meta, row[..n], k);
    } else {
      assert row[..k] == row;
    }
  }

  /** The key part `AND column = ?` of the extra update, with its parameters
      and types. */
  datatype KeyClause = KeyClause(columns: seq<string>, params: seq<Value>, types: seq<BindType>)

  /** The column and binding type of one identifier field: a mapped field's
      column and type, or an association's first join column and its
      association type; an error otherwise. */
  function KeyColumn(meta: ClassMetadata, idField: string): Result<(string, BindType), Error> {
    match meta.FieldMappingOf(idField)
    case Some(fm) => Success((fm.columnName, Named(fm.fieldType)))
    case None =>
      match meta.AssociationOf(idField)
      case Some(a) =>
        if |a.joinColumns| > 0 then Success((a.joinColumns[0].name, AssociationType(a.assocType)))
        else Failure(IdentifierColumnNotFound(idField))
      case None => Failure(IdentifierColumnNotFound(idField))
  }

  function KeyClauseOf(env: Env, meta: ClassMetadata, e: EntityRef, ids: seq<string>): Result<KeyClause, Error>
    decreases |ids|
  {
    if ids == [] then Success(KeyClause([], [], []))
    else
      var n := |ids| - 1;
      match KeyClauseOf(env, meta, e, ids[..n])
      case Failure(err) => Failure(err)
      case Success(kc) =>
        match KeyColumn(meta, ids[n])
        case Failure(err) => Failure(err)
        case Success(ct) =>
          Success(KeyClause(kc.columns + [ct.0], kc.params + [PropertyValue(env, e, ids[n])], kc.types + [ct.1]))
  }

  /** The key list has one column, parameter and type per identifier field,
      in order; it fails exactly when some identifier field has no column. */
  lemma {:induction false} KeyClauseOfSpec(env: Env, meta: ClassMetadata, e: EntityRef, ids: seq<string>)
    ensures KeyClauseOf(env, meta, e, ids).Success? ==>
      && |KeyClauseOf(env, meta, e, ids).value.columns| == |ids| && |KeyClauseOf(env, meta, e, ids).value.params| == |ids| && |KeyClauseOf(env, meta, e, ids).value.types| == |ids|
      && (forall i :: 0 <= i < |ids| ==> KeyColumn(meta, ids[i]) == Success((KeyClauseOf(env, meta, e, ids).value.columns[i], KeyClauseOf(env, meta, e, ids).value.types[i])))
      && (forall i :: 0 <= i < |ids| ==> KeyClauseOf(env, meta, e, ids).value.params[i] == PropertyValue(env, e, ids[i]))
    ensures KeyClauseOf(env, meta, e, ids).Failure? <==> exists i :: 0 <= i < |ids| && KeyColumn(meta, ids[i]).Failure?
    decreases |ids|
  {
    if ids != [] {
      var n := |ids| - 1;
      var r1 := KeyClauseOf(env, meta, e, ids[..n]);
      KeyClauseOfSpec(env, meta, e, ids[..n]);
      assert forall i :: 0 <= i < n ==> ids[..n][i] == ids[i];
      if r1.Success? && KeyColumn(meta, ids[n]).Success? {
        var kc, ct := r1.value, KeyColumn(meta, ids[n]).value;
        var kc' := KeyClause(kc.columns + [ct.0], kc.params + [PropertyValue(env, e, ids[n])], kc.types + [ct.1]);
        assert KeyClauseOf(env, meta, e, ids) == Success(kc');
        forall i | 0 <= i < |ids|
          ensures KeyColumn(meta, ids[i]) == Success((kc'.columns[i], kc'.types[i]))
          ensures kc'.params[i] == PropertyValue(env, e, ids[i])
        {
          if i < n {
            assert ids[..n][i] == ids[i];
            assert kc'.columns[i] == kc.columns[i] && kc'.types[i] == kc.types[i] && kc'.params[i] == kc.params[i];
          } else {
            assert kc'.columns[i] == ct.0 && kc'.types[i] == ct.1 && kc'.params[i] == PropertyValue(env, e, ids[n]);
          }
        }
      }
    }
  }

  /** The type search over the association mappings, as postFlush's nested loop. */
  method ResolveJoinColumnType(env: Env, assocs: seq<Association>, column: string) returns (t: Option<string>)
    ensures t == JoinColumnType(env, assocs, column)
  {
    t := None;
    var i := 0;
    while i < |assocs|
      invariant 0 <= i <= |assocs|
      invariant t == JoinColumnType(env, assocs[..i], column)
    {
      var a := assocs[i];
      assert assocs[..i + 1][..i] == assocs[..i];
      ghost var before := t;
      var j := 0;
      while j < |a.joinColumns|
        invariant 0 <= j <= |a.joinColumns|
        invariant t == match LastJoinColumnNamed(a.joinColumns[..j], column)
                       case Some(jc) => ReferencedColumnType(env, a, jc)
                       case None => before
      {
        var definition := a.joinColumns[j];
        assert a.joinColumns[..j + 1][..j] == a.joinColumns[..j];
        if definition.name == column {
          t := ReferencedColumnType(env, a, definition);
        }
        j := j + 1;
      }
      assert a.joinColumns[..j] == a.joinColumns;
      i := i + 1;
    }
    assert assocs[..i] == assocs;
  }

  /** The SET loop of postFlush, stopping at the first column without a
      field or a type. */
  method BuildSetClause(env: Env, meta: ClassMetadata, row: Row) returns (r: Result<SetClause, Error>)
    ensures r == SetClauseOf(env, meta, row)
  {
    var assignments: seq<(string, Placeholder)> := [];
    var params: seq<Value> := [];
    var types: seq<BindType> := [];
    var i := 0;
    while i < |row|
      invariant 0 <= i <= |row|
      invariant SetClauseOf(env, meta, row[..i]) == Success(SetClause(assignments, params, types))
    {
      var (column, value) := row[i];
      assert row[..i + 1][..i] == row[..i];
      if meta.FieldForColumn(column).None? {
        r := Failure(NoFieldForColumn(column));
        assert SetClauseOf(env, meta, row[..i + 1]) == r;
        SetClauseFailureStays(env, meta, row, i + 1);
        return;
      }
      var placeholder := SetPlaceholder(meta, column);
      var fieldName := meta.FieldNameOfColumn(column);
      var t: BindType;
      if fieldName.Some? {
        t := BindTypeOf(meta.TypeOfField(fieldName.value));
      } else {
        var found := ResolveJoinColumnType(env, meta.associationMappings, column);
        if found.None? {
          r := Failure(UnresolvedColumnType(column));
          assert SetClauseOf(env, meta, row[..i + 1]) == r;
          SetClauseFailureStays(env, meta, row, i + 1);
          return;
        }
        t := Named(found.value);
      }
      assignments := assignments + [(column, placeholder)];
      params := params + [value];
      types := types + [t];
      i := i + 1;
    }
    assert row[..i] == row;
    r := Success(SetClause(assignments, params, types));
  }

  /** One more identifier field of the key list. */
  lemma KeyClauseOfNext(env: Env, meta: ClassMetadata, e: EntityRef, ids: seq<string>, i: nat)
    requires i < |ids| && KeyClauseOf(env, meta, e, ids[..i]).Success?
    ensures KeyClauseOf(env, meta, e, ids[..i + 1]) ==
      match KeyColumn(meta, ids[i])
      case Failure(err) => Failure(err)
      case Success(ct) =>
        var kc := KeyClauseOf(env, meta, e, ids[..i]).value;
        Success(KeyClause(kc.columns + [ct.0], kc.params + [PropertyValue(env, e, ids[i])], kc.types + [ct.1]))
  {
    assert ids[..i + 1][..i] == ids[..i];
  }

  lemma {:induction false} KeyClauseFailureStays(env: Env, meta: ClassMetadata, e: EntityRef, ids: seq<string>, k: nat)
    requires k <= |ids| && KeyClauseOf(env, meta, e, ids[..k]).Failure?
    ensures KeyClauseOf(env, meta, e, ids) == KeyClauseOf(env, meta, e, ids[..k])
    decreases |ids|
  {
    if k < |ids| {
      var n := |ids| - 1;
      assert ids[..n][..k] == ids[..k];
      KeyClauseFailureStays(env, meta, e, ids[..n], k);
    } else {
      assert ids[..k] == ids;
    }
  }

  /** The identifier loop of postFlush, stopping at the first identifier
      field without a column. */
  method BuildKeyClause(env: Env, meta: ClassMetadata, e: EntityRef) returns (r: Result<KeyClause, Error>)
    ensures r == KeyClauseOf(env, meta, e, meta.identifier)
  {
    var ids := meta.identifier;
    var columns: seq<string> := [];
    var params: seq<Value> := [];
    var types: seq<BindType> := [];
    var i := 0;
    while i < |ids|
      invariant 0 <= i <= |ids|
      invariant KeyClauseOf(env, meta, e, ids[..i]) == Success(KeyClause(columns, params, types))
    {
      var idField := ids[i];
      KeyClauseOfNext(env, meta, e, ids, i);
      var fm := meta.FieldMappingOf(idField);
      var assoc := meta.AssociationOf(idField);
      var columnName: string;
      var t: BindType;
      if fm.Some? {
        columnName := fm.value.columnName;
        t := Named(fm.value.fieldType);
      } else if assoc.Some? && |assoc.value.joinColumns| > 0 {
        columnName := assoc.value.joinColumns[0].name;
        t := AssociationType(assoc.value.assocType);
      } else {
        r := Failure(IdentifierColumnNotFound(idField));
        assert KeyClauseOf(env, meta, e, ids[..i + 1]) == r;
        KeyClauseFailureStays(env, meta, e, ids, i + 1);
        return;
      }
      columns := columns + [columnName];
      types := types + [t];
      params := params + [PropertyValue(env, e, idField)];
      i := i + 1;
    }
    assert ids[..i] == ids;
    r := Success(KeyClause(columns, params, types));
  }
}
