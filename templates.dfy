/** The INSERT templates of audit rows and join audit rows, and the parameter
    and type lists written with them. Template and parameters walk the same
    associations, fields and discriminator by the same rules, which is what
    makes their lengths agree. */
module Templates {
  import opened Wrappers
  import opened PhpArray
  import opened Mapping
  import opened Orm
  import opened Dbal
  import opened Config
  import opened Revisions

  // ------------------------------------------------------------------
  // Rules shared by the template and the parameters

  /** Inherited associations of a joined-inheritance class belong to the
      ancestor's row. */
  predicate SkipsAssociation(meta: ClassMetadata, a: Association) {
    meta.IsInheritanceTypeJoined() && a.inherited.Some?
  }

  /** A field gets a column of its own unless its name is one of the foreign-key
      columns already listed, or it is an inherited non-identifier field of a
      joined-inheritance class. */
  predicate KeepsField(meta: ClassMetadata, fk: set<string>, fm: FieldMapping) {
    && fm.fieldName !in fk
    && !(meta.IsInheritanceTypeJoined() && fm.inherited.Some? && !meta.IsIdentifier(fm.fieldName))
  }

  /** The discriminator is written by a joined root and by a single-table class. */
  predicate WritesDiscriminator(meta: ClassMetadata) {
    && ((meta.IsInheritanceTypeJoined() && meta.rootEntityName == meta.name) || meta.IsInheritanceTypeSingleTable())
    && meta.discriminatorColumn.Some?
  }

  /** A joined subtype with a discriminator also gets a row in its root's table. */
  predicate NeedsRootRow(meta: ClassMetadata) {
    meta.IsInheritanceTypeJoined() && meta.name != meta.rootEntityName && meta.discriminatorColumn.Some?
  }

  function Plains(n: nat): (ps: seq<Placeholder>)
    ensures |ps| == n && forall i :: 0 <= i < n ==> ps[i] == Plain
  {
    seq(n, _ => Plain)
  }

  lemma PlainsSnoc(n: nat)
    ensures Plains(n) + [Plain] == Plains(n + 1)
  {
  }

  // ------------------------------------------------------------------
  // The audit-row template of a class

  /** Foreign-key columns of the audited to-one owning associations. */
  function AssocFkColumns(meta: ClassMetadata, a: Association): seq<string> {
    if SkipsAssociation(meta, a) || !IsToOneOwningSide(a) then []
    else Values(TargetToSourceKeyColumns(a))
  }

  function FkColumns(meta: ClassMetadata, assocs: seq<Association>): seq<string>
    decreases |assocs|
  {
    if assocs == [] then []
    else FkColumns(meta, assocs[..|assocs| - 1]) + AssocFkColumns(meta, assocs[|assocs| - 1])
  }

  lemma FkColumnsNext(meta: ClassMetadata, assocs: seq<Association>, i: nat)
    requires i < |assocs|
    ensures FkColumns(meta, assocs[..i + 1]) == FkColumns(meta, assocs[..i]) + AssocFkColumns(meta, assocs[i])
  {
    assert assocs[..i + 1][..i] == assocs[..i];
  }

  /** The set `$fields` of foreign-key columns, which field names are checked against. */
  function FkColumnSet(meta: ClassMetadata): set<string> {
    ElementsOf(FkColumns(meta, meta.associationMappings))
  }

  function FieldColumns(meta: ClassMetadata, fk: set<string>, fms: seq<FieldMapping>): seq<string>
    decreases |fms|
  {
    if fms == [] then []
    else
      var fm := fms[|fms| - 1];
      FieldColumns(meta, fk, fms[..|fms| - 1]) + (if KeepsField(meta, fk, fm) then [fm.columnName] else [])
  }

  function FieldPlaceholders(meta: ClassMetadata, fk: set<string>, fms: seq<FieldMapping>): seq<Placeholder>
    decreases |fms|
  {
    if fms == [] then []
    else
      var fm := fms[|fms| - 1];
      FieldPlaceholders(meta, fk, fms[..|fms| - 1]) + (if KeepsField(meta, fk, fm) then [Converted(fm.fieldType)] else [])
  }

  function DiscColumns(meta: ClassMetadata): seq<string> {
    if WritesDiscriminator(meta) then [meta.discriminatorColumn.value.name] else []
  }

  function DiscPlaceholders(meta: ClassMetadata): seq<Placeholder> {
    if WritesDiscriminator(meta) then [Plain] else []
  }

  /** The INSERT statement `getInsertRevisionSQL` builds for a class. */
  function InsertRevisionSql(cfg: AuditConfiguration, meta: ClassMetadata): Sql {
    var fk := FkColumns(meta, meta.associationMappings);
    InsertInto(
      cfg.TableName(meta),
      [cfg.revisionFieldName, cfg.revisionTypeFieldName] + fk
        + FieldColumns(meta, FkColumnSet(meta), meta.fieldMappings) + DiscColumns(meta),
      [Plain, Plain] + Plains(|fk|)
        + FieldPlaceholders(meta, FkColumnSet(meta), meta.fieldMappings) + DiscPlaceholders(meta))
  }

  // ------------------------------------------------------------------
  // The parameters of an audit row

  ghost predicate TargetsKnown(env: Env, assocs: seq<Association>) {
    forall i :: 0 <= i < |assocs| ==> assocs[i].targetEntity in env.classes
  }

  /** The identifier of a to-one value, when it is a managed entity. */
  function RelatedIdentifier(env: Env, v: Value): seq<(string, IdValue)> {
    if IsObject(v) && InIdentityMap(env, v) then EntityIdentifier(env, v.ref) else []
  }

  /** `$relatedId[$targetClass->fieldNames[$targetColumn]] ?? null` */
  function RelatedIdValue(relatedId: seq<(string, IdValue)>, target: ClassMetadata, column: string): Value {
    match target.FieldNameOfColumn(column)
    case None => Null
    case Some(f) =>
      match Get(relatedId, f)
      case Some(v) => ToValue(v)
      case None => Null
  }

  /** Parameters for the join columns (source => target) of one association. */
  function FkValues(v: Value, relatedId: seq<(string, IdValue)>, target: ClassMetadata, cols: seq<(string, string)>): seq<Value>
    decreases |cols|
  {
    if cols == [] then [] else
    FkValues(v, relatedId, target, cols[..|cols| - 1])
      + [if v == Null then Null else RelatedIdValue(relatedId, target, cols[|cols| - 1].1)]
  }

  function FkValueTypes(v: Value, target: ClassMetadata, cols: seq<(string, string)>): seq<BindType>
    decreases |cols|
  {
    if cols == [] then [] else
    FkValueTypes(v, target, cols[..|cols| - 1])
      + [if v == Null then ParamStr else BindTypeOf(TypeOfColumnField(target, cols[|cols| - 1].1))]
  }

  /** Whether an association contributes foreign-key parameters. */
  predicate WritesForeignKeys(meta: ClassMetadata, a: Association) {
    !SkipsAssociation(meta, a) && IsOwningSide(a) && IsToOneOwningSide(a)
  }

  function AssocFkParams(env: Env, meta: ClassMetadata, data: EntityData, a: Association): seq<Value>
    requires a.targetEntity in env.classes
  {
    if !WritesForeignKeys(meta, a) then []
    else
      var v := Lookup(data, a.fieldName);
      FkValues(v, RelatedIdentifier(env, v), env.classes[a.targetEntity], SourceToTargetKeyColumns(a))
  }

  function AssocFkTypes(env: Env, meta: ClassMetadata, data: EntityData, a: Association): seq<BindType>
    requires a.targetEntity in env.classes
  {
    if !WritesForeignKeys(meta, a) then []
    else FkValueTypes(Lookup(data, a.fieldName), env.classes[a.targetEntity], SourceToTargetKeyColumns(a))
  }

  /** The source columns the parameter walk records in `$fields`. */
  function AssocFkSourceColumns(meta: ClassMetadata, a: Association): seq<string> {
    if !WritesForeignKeys(meta, a) then [] else Keys(SourceToTargetKeyColumns(a))
  }

  function FkParams(env: Env, meta: ClassMetadata, data: EntityData, assocs: seq<Association>): seq<Value>
    requires TargetsKnown(env, assocs)
    decreases |assocs|
  {
    if assocs == [] then []
    else FkParams(env, meta, data, assocs[..|assocs| - 1]) + AssocFkParams(env, meta, data, assocs[|assocs| - 1])
  }

  function FkTypes(env: Env, meta: ClassMetadata, data: EntityData, assocs: seq<Association>): seq<BindType>
    requires TargetsKnown(env, assocs)
    decreases |assocs|
  {
    if assocs == [] then []
    else FkTypes(env, meta, data, assocs[..|assocs| - 1]) + AssocFkTypes(env, meta, data, assocs[|assocs| - 1])
  }

  function FkSourceColumns(meta: ClassMetadata, assocs: seq<Association>): seq<string>
    decreases |assocs|
  {
    if assocs == [] then []
    else FkSourceColumns(meta, assocs[..|assocs| - 1]) + AssocFkSourceColumns(meta, assocs[|assocs| - 1])
  }

  function FieldParams(meta: ClassMetadata, data: EntityData, fk: set<string>, fms: seq<FieldMapping>): seq<Value>
    decreases |fms|
  {
    if fms == [] then []
    else
      var fm := fms[|fms| - 1];
      FieldParams(meta, data, fk, fms[..|fms| - 1]) + (if KeepsField(meta, fk, fm) then [Lookup(data, fm.fieldName)] else [])
  }

  function FieldTypes(meta: ClassMetadata, fk: set<string>, fms: seq<FieldMapping>): seq<BindType>
    decreases |fms|
  {
    if fms == [] then []
    else
      var fm := fms[|fms| - 1];
      FieldTypes(meta, fk, fms[..|fms| - 1]) + (if KeepsField(meta, fk, fm) then [Named(fm.fieldType)] else [])
  }

  function OptionalString(s: Option<string>): Value {
    match s
    case Some(x) => Str(x)
    case None => Null
  }

  function DiscParams(meta: ClassMetadata, data: EntityData): seq<Value> {
    if meta.IsInheritanceTypeSingleTable() && meta.discriminatorColumn.Some? then [OptionalString(meta.discriminatorValue)]
    else if meta.IsInheritanceTypeJoined() && meta.name == meta.rootEntityName && meta.discriminatorColumn.Some?
    then [Lookup(data, meta.discriminatorColumn.value.name)]
    else []
  }

  function DiscTypes(meta: ClassMetadata): seq<BindType> {
    if WritesDiscriminator(meta) then [Named(meta.discriminatorColumn.value.columnType)] else []
  }

  /** The names of a list, as a set (a PHP array used as a set of keys). */
  function ElementsOf(xs: seq<string>): set<string> {
    set c | c in xs
  }

  lemma ElementsOfConcat(xs: seq<string>, ys: seq<string>)
    ensures ElementsOf(xs + ys) == ElementsOf(xs) + ElementsOf(ys)
  {
  }

  lemma ElementsOfSnoc(xs: seq<string>, x: string)
    ensures x in ElementsOf(xs) <==> x in xs
    ensures ElementsOf(xs + [x]) == ElementsOf(xs) + {x}
  {
    ElementsOfConcat(xs, [x]);
    assert ElementsOf([x]) == {x};
  }

  /** The source-column set `$fields` the parameter walk builds. */
  function FkSourceColumnSet(meta: ClassMetadata): set<string> {
    ElementsOf(FkSourceColumns(meta, meta.associationMappings))
  }

  /** `saveRevisionEntityData`'s parameters, before BackedEnum unwrapping. */
  function RevisionParams(env: Env, meta: ClassMetadata, data: EntityData, rid: IdValue, rt: RevType): seq<Value>
    requires TargetsKnown(env, meta.associationMappings)
  {
    [ToValue(rid), RevTypeValue(rt)]
      + FkParams(env, meta, data, meta.associationMappings)
      + FieldParams(meta, data, FkSourceColumnSet(meta), meta.fieldMappings)
      + DiscParams(meta, data)
  }

  function RevisionTypes(env: Env, meta: ClassMetadata, data: EntityData): seq<BindType>
    requires TargetsKnown(env, meta.associationMappings)
  {
    [ParamInt, ParamStr]
      + FkTypes(env, meta, data, meta.associationMappings)
      + FieldTypes(meta, FkSourceColumnSet(meta), meta.fieldMappings)
      + DiscTypes(meta)
  }

  /** Every BackedEnum parameter replaced by its backing value. */
  function UnwrapEnums(ps: seq<Value>): (r: seq<Value>)
    ensures |r| == |ps| && forall i :: 0 <= i < |ps| ==> r[i] == UnwrapEnum(ps[i])
  {
    seq(|ps|, i requires 0 <= i < |ps| => UnwrapEnum(ps[i]))
  }

  /** The enum loop keeps every parameter that is not a backed enum and
      replaces each enum case by its backing value. A backing value is an int
      or a string, so no enum is left, and unwrapping again changes nothing. */
  lemma UnwrapEnumsSpec(ps: seq<Value>)
    ensures |UnwrapEnums(ps)| == |ps|
    ensures forall i :: 0 <= i < |ps| && !ps[i].Enum? ==> UnwrapEnums(ps)[i] == ps[i]
    ensures forall i :: 0 <= i < |ps| && ps[i].Enum? ==> UnwrapEnums(ps)[i] == ps[i].backing
    ensures (forall i :: 0 <= i < |ps| && ps[i].Enum? ==> ps[i].backing.Int? || ps[i].backing.Str?) ==>
      && (forall i :: 0 <= i < |ps| ==> !UnwrapEnums(ps)[i].Enum?)
      && UnwrapEnums(UnwrapEnums(ps)) == UnwrapEnums(ps)
  {
  }

  // ------------------------------------------------------------------
  // The join audit row of a many-to-many association

  /** The cache key `class.target.joinTable`. */
  function JoinKey(c: ClassMetadata, target: ClassMetadata, a: Association): string {
    c.name + "." + target.name + "." + a.joinTableName
  }

  /** The INSERT statement `getInsertJoinTableRevisionSQL` builds. */
  function JoinTableRevisionSql(cfg: AuditConfiguration, a: Association): Sql {
    InsertInto(
      cfg.JoinTableName(a.joinTableName),
      [cfg.revisionFieldName, cfg.revisionTypeFieldName]
        + Keys(a.relationToSourceKeyColumns) + Keys(a.relationToTargetKeyColumns),
      Plains(2 + |a.relationToSourceKeyColumns| + |a.relationToTargetKeyColumns|))
  }

  /** `$entityData[$class->fieldNames[$column]]` for each referenced source column. */
  function SourceKeyValues(data: EntityData, c: ClassMetadata, cols: seq<(string, string)>): seq<Value>
    decreases |cols|
  {
    if cols == [] then [] else
    SourceKeyValues(data, c, cols[..|cols| - 1])
      + [match c.FieldNameOfColumn(cols[|cols| - 1].1) case Some(f) => Lookup(data, f) case None => Null]
  }

  /** The related entity's property for each referenced target column. */
  function TargetKeyValues(env: Env, related: EntityRef, target: ClassMetadata, cols: seq<(string, string)>): seq<Value>
    decreases |cols|
  {
    if cols == [] then [] else
    TargetKeyValues(env, related, target, cols[..|cols| - 1])
      + [match target.FieldNameOfColumn(cols[|cols| - 1].1) case Some(f) => PropertyValue(env, related, f) case None => Null]
  }

  function ColumnTypes(c: ClassMetadata, cols: seq<(string, string)>): (ts: seq<BindType>)
    ensures |ts| == |cols|
  {
    seq(|cols|, i requires 0 <= i < |cols| => TypeOfColumn(c.name, cols[i].1))
  }

  /** `recordRevisionForManyToManyEntity`'s parameters. */
  function JoinParams(env: Env, w: DeferredWrite, rid: IdValue): seq<Value> {
    [ToValue(rid), RevTypeValue(w.revType)]
      + SourceKeyValues(w.entityData, w.sourceClass, w.assoc.relationToSourceKeyColumns)
      + TargetKeyValues(env, w.entity, w.targetClass, w.assoc.relationToTargetKeyColumns)
  }

  function JoinTypes(w: DeferredWrite): seq<BindType> {
    [ParamInt, ParamStr]
      + ColumnTypes(w.sourceClass, w.assoc.relationToSourceKeyColumns)
      + ColumnTypes(w.targetClass, w.assoc.relationToTargetKeyColumns)
  }

  // ------------------------------------------------------------------
  // Shape lemmas

  /** The parameter walk records the same foreign-key columns the template lists. */
  lemma {:induction false} FkSourceColumnsAreFkColumns(meta: ClassMetadata, assocs: seq<Association>)
    ensures FkSourceColumns(meta, assocs) == FkColumns(meta, assocs)
  {
    if assocs != [] {
      FkSourceColumnsAreFkColumns(meta, assocs[..|assocs| - 1]);
      var a := assocs[|assocs| - 1];
      if WritesForeignKeys(meta, a) {
        assert Keys(SourceToTargetKeyColumns(a)) == Values(TargetToSourceKeyColumns(a));
      }
    }
  }

  lemma {:induction false} FkShape(env: Env, meta: ClassMetadata, data: EntityData, assocs: seq<Association>)
    requires TargetsKnown(env, assocs)
    ensures |FkParams(env, meta, data, assocs)| == |FkColumns(meta, assocs)|
    ensures |FkTypes(env, meta, data, assocs)| == |FkColumns(meta, assocs)|
  {
    if assocs != [] {
      var a := assocs[|assocs| - 1];
      FkShape(env, meta, data, assocs[..|assocs| - 1]);
      if WritesForeignKeys(meta, a) {
        var v := Lookup(data, a.fieldName);
        FkValuesShape(v, RelatedIdentifier(env, v), env.classes[a.targetEntity], SourceToTargetKeyColumns(a));
      }
    }
  }

  lemma {:induction false} FkValuesShape(v: Value, relatedId: seq<(string, IdValue)>, target: ClassMetadata, cols: seq<(string, string)>)
    ensures |FkValues(v, relatedId, target, cols)| == |cols|
    ensures |FkValueTypes(v, target, cols)| == |cols|
  {
    if cols != [] {
      FkValuesShape(v, relatedId, target, cols[..|cols| - 1]);
    }
  }

  lemma {:induction false} FieldShape(meta: ClassMetadata, data: EntityData, fk: set<string>, fms: seq<FieldMapping>)
    ensures |FieldParams(meta, data, fk, fms)| == |FieldColumns(meta, fk, fms)|
    ensures |FieldTypes(meta, fk, fms)| == |FieldColumns(meta, fk, fms)|
    ensures |FieldPlaceholders(meta, fk, fms)| == |FieldColumns(meta, fk, fms)|
  {
    if fms != [] {
      FieldShape(meta, data, fk, fms[..|fms| - 1]);
    }
  }

  /** The audit-row template lists as many placeholders as columns, starting
      with the revision and revision-type columns. */
  lemma InsertRevisionSqlShape(cfg: AuditConfiguration, meta: ClassMetadata)
    ensures var sql := InsertRevisionSql(cfg, meta);
      && |sql.columns| == |sql.placeholders|
      && |sql.columns| >= 2
      && sql.columns[0] == cfg.revisionFieldName && sql.columns[1] == cfg.revisionTypeFieldName
      && sql.table == cfg.TableName(meta)
  {
    FieldShape(meta, map[], FkColumnSet(meta), meta.fieldMappings);
  }

  /** The parameter and type lists of an audit row have exactly as many
      entries as its template has placeholders (and columns); the first two
      parameters are the revision id and the change type. */
  lemma ParamsMatchTemplate(env: Env, cfg: AuditConfiguration, meta: ClassMetadata, data: EntityData, rid: IdValue, rt: RevType)
    requires TargetsKnown(env, meta.associationMappings)
    ensures var sql := InsertRevisionSql(cfg, meta);
      var ps := UnwrapEnums(RevisionParams(env, meta, data, rid, rt));
      && |ps| == |sql.placeholders| == |sql.columns|
      && |RevisionTypes(env, meta, data)| == |sql.placeholders|
      && ps[0] == ToValue(rid) && ps[1] == RevTypeValue(rt)
  {
    FkSourceColumnsAreFkColumns(meta, meta.associationMappings);
    assert FkSourceColumnSet(meta) == FkColumnSet(meta);
    FkShape(env, meta, data, meta.associationMappings);
    FieldShape(meta, data, FkColumnSet(meta), meta.fieldMappings);
  }

  /** The join-row template has two placeholders plus one per source and per
      target key column, and its parameters and types match it. */
  lemma JoinRowMatchesTemplate(env: Env, cfg: AuditConfiguration, w: DeferredWrite, rid: IdValue)
    ensures var sql := JoinTableRevisionSql(cfg, w.assoc);
      && |sql.placeholders| == 2 + |w.assoc.relationToSourceKeyColumns| + |w.assoc.relationToTargetKeyColumns|
      && |sql.columns| == |sql.placeholders|
      && |JoinParams(env, w, rid)| == |sql.placeholders|
      && |JoinTypes(w)| == |sql.placeholders|
      && JoinParams(env, w, rid)[0] == ToValue(rid)
  {
    SourceKeyValuesShape(w.entityData, w.sourceClass, w.assoc.relationToSourceKeyColumns);
    TargetKeyValuesShape(env, w.entity, w.targetClass, w.assoc.relationToTargetKeyColumns);
  }

  lemma {:induction false} SourceKeyValuesShape(data: EntityData, c: ClassMetadata, cols: seq<(string, string)>)
    ensures |SourceKeyValues(data, c, cols)| == |cols|
  {
    if cols != [] { SourceKeyValuesShape(data, c, cols[..|cols| - 1]); }
  }

  lemma {:induction false} TargetKeyValuesShape(env: Env, related: EntityRef, target: ClassMetadata, cols: seq<(string, string)>)
    ensures |TargetKeyValues(env, related, target, cols)| == |cols|
  {
    if cols != [] { TargetKeyValuesShape(env, related, target, cols[..|cols| - 1]); }
  }

  /** A column is a foreign-key column of the template exactly when some
      audited to-one owning association has it as a join column. */
  lemma {:induction false} FkColumnsMembership(meta: ClassMetadata, assocs: seq<Association>, c: string)
    ensures c in FkColumns(meta, assocs) <==>
      exists i, j :: 0 <= i < |assocs| && 0 <= j < |assocs[i].joinColumns|
        && !SkipsAssociation(meta, assocs[i]) && IsToOneOwningSide(assocs[i]) && assocs[i].joinColumns[j].name == c
  {
    if assocs != [] {
      var n := |assocs| - 1;
      var a := assocs[n];
      FkColumnsMembership(meta, assocs[..n], c);
      if c in AssocFkColumns(meta, a) {
        var j :| 0 <= j < |Values(TargetToSourceKeyColumns(a))| && Values(TargetToSourceKeyColumns(a))[j] == c;
        assert a.joinColumns[j].name == c;
      }
      if exists i, j :: (0 <= i < |assocs| && 0 <= j < |assocs[i].joinColumns|
        && !SkipsAssociation(meta, assocs[i]) && IsToOneOwningSide(assocs[i]) && assocs[i].joinColumns[j].name == c)
      {
        var i, j :| 0 <= i < |assocs| && 0 <= j < |assocs[i].joinColumns|
          && !SkipsAssociation(meta, assocs[i]) && IsToOneOwningSide(assocs[i]) && assocs[i].joinColumns[j].name == c;
        if i == n {
          assert Values(TargetToSourceKeyColumns(a))[j] == c;
        } else {
          assert assocs[..n][i] == assocs[i];
        }
      }
    }
  }

  /** A column is a field column of the template exactly when some kept field
      mapping has it as its column. */
  lemma {:induction false} FieldColumnsMembership(meta: ClassMetadata, fk: set<string>, fms: seq<FieldMapping>, c: string)
    ensures c in FieldColumns(meta, fk, fms) <==>
      exists i :: 0 <= i < |fms| && KeepsField(meta, fk, fms[i]) && fms[i].columnName == c
  {
    if fms != [] {
      var n := |fms| - 1;
      FieldColumnsMembership(meta, fk, fms[..n], c);
      if exists i :: 0 <= i < |fms| && KeepsField(meta, fk, fms[i]) && fms[i].columnName == c {
        var i :| 0 <= i < |fms| && KeepsField(meta, fk, fms[i]) && fms[i].columnName == c;
        if i < n { assert fms[..n][i] == fms[i]; }
      }
    }
  }

  // ------------------------------------------------------------------
  // The loops that build templates and parameter lists

  /** The association loop of `getInsertRevisionSQL`: the foreign-key
      columns, a placeholder for each, and the set `$fields` of them. */
  method ForeignKeyColumns(meta: ClassMetadata) returns (columns: seq<string>, placeholders: seq<Placeholder>, fields: set<string>)
    ensures columns == FkColumns(meta, meta.associationMappings)
    ensures placeholders == Plains(|columns|)
    ensures fields == FkColumnSet(meta)
  {
    columns, placeholders, fields := [], [], {};
    var assocs := meta.associationMappings;
    var i := 0;
    while i < |assocs|
      invariant 0 <= i <= |assocs|
      invariant columns == FkColumns(meta, assocs[..i])
      invariant placeholders == Plains(|columns|)
      invariant fields == ElementsOf(columns)
    {
      var a := assocs[i];
      FkColumnsNext(meta, assocs, i);
      if !SkipsAssociation(meta, a) && IsToOneOwningSide(a) {
        columns, placeholders, fields := AppendColumns(columns, placeholders, fields, Values(TargetToSourceKeyColumns(a)));
      }
      i := i + 1;
    }
    assert assocs[..i] == assocs;
  }

  /** The join-column loop of one to-one owning association in
      `getInsertRevisionSQL`: each column appended, with a placeholder, and
      added to `$fields`. */
  method AppendColumns(columns: seq<string>, placeholders: seq<Placeholder>, fields: set<string>, cols: seq<string>)
    returns (columns': seq<string>, placeholders': seq<Placeholder>, fields': set<string>)
    requires placeholders == Plains(|columns|) && fields == ElementsOf(columns)
    ensures columns' == columns + cols
    ensures placeholders' == Plains(|columns'|) && fields' == ElementsOf(columns')
  {
    columns', placeholders', fields' := columns, placeholders, fields;
    var j := 0;
    while j < |cols|
      invariant 0 <= j <= |cols|
      invariant columns' == columns + cols[..j]
      invariant placeholders' == Plains(|columns'|)
      invariant fields' == ElementsOf(columns')
    {
      assert cols[..j + 1] == cols[..j] + [cols[j]];
      ElementsOfSnoc(columns', cols[j]);
      PlainsSnoc(|columns'|);
      fields' := fields' + {cols[j]};
      columns' := columns' + [cols[j]];
      placeholders' := placeholders' + [Plain];
      j := j + 1;
    }
    assert cols[..j] == cols;
  }

  /** The field loop of `getInsertRevisionSQL`. */
  method FieldColumnList(meta: ClassMetadata, fields: set<string>) returns (columns: seq<string>, placeholders: seq<Placeholder>)
    ensures columns == FieldColumns(meta, fields, meta.fieldMappings)
    ensures placeholders == FieldPlaceholders(meta, fields, meta.fieldMappings)
  {
    columns, placeholders := [], [];
    var fms := meta.fieldMappings;
    var k := 0;
    while k < |fms|
      invariant 0 <= k <= |fms|
      invariant columns == FieldColumns(meta, fields, fms[..k])
      invariant placeholders == FieldPlaceholders(meta, fields, fms[..k])
    {
      var fm := fms[k];
      assert fms[..k + 1][..k] == fms[..k];
      if fm.fieldName !in fields && !(meta.IsInheritanceTypeJoined() && fm.inherited.Some? && !meta.IsIdentifier(fm.fieldName)) {
        columns := columns + [fm.columnName];
        placeholders := placeholders + [Converted(fm.fieldType)];
      }
      k := k + 1;
    }
    assert fms[..k] == fms;
  }

  /** The statement-building part of `getInsertRevisionSQL`. */
  method BuildInsertRevisionSql(cfg: AuditConfiguration, meta: ClassMetadata) returns (sql: Sql)
    ensures sql == InsertRevisionSql(cfg, meta)
  {
    var fkColumns, fkPlaceholders, fields := ForeignKeyColumns(meta);
    var fieldColumns, fieldPlaceholders := FieldColumnList(meta, fields);
    var columns := [cfg.revisionFieldName, cfg.revisionTypeFieldName] + fkColumns + fieldColumns;
    var placeholders := [Plain, Plain] + fkPlaceholders + fieldPlaceholders;
    if ((meta.IsInheritanceTypeJoined() && meta.rootEntityName == meta.name) || meta.IsInheritanceTypeSingleTable())
      && meta.discriminatorColumn.Some?
    {
      columns := columns + [meta.discriminatorColumn.value.name];
      placeholders := placeholders + [Plain];
    }
    sql := InsertInto(cfg.TableName(meta), columns, placeholders);
  }

  /** The join-column loop of one to-one owning association in
      `saveRevisionEntityData`. */
  method ForeignKeyParams(env: Env, data: EntityData, a: Association) returns (params: seq<Value>, types: seq<BindType>)
    requires a.targetEntity in env.classes
    ensures var v := Lookup(data, a.fieldName);
      && params == FkValues(v, RelatedIdentifier(env, v), env.classes[a.targetEntity], SourceToTargetKeyColumns(a))
      && types == FkValueTypes(v, env.classes[a.targetEntity], SourceToTargetKeyColumns(a))
  {
    var v := Lookup(data, a.fieldName);
    var relatedId := [];
    if IsObject(v) && InIdentityMap(env, v) {
      relatedId := EntityIdentifier(env, v.ref);
    }
    var target := env.classes[a.targetEntity];
    var cols := SourceToTargetKeyColumns(a);
    params, types := [], [];
    var j := 0;
    while j < |cols|
      invariant 0 <= j <= |cols|
      invariant params == FkValues(v, relatedId, target, cols[..j])
      invariant types == FkValueTypes(v, target, cols[..j])
    {
      assert cols[..j + 1][..j] == cols[..j];
      if v == Null {
        params := params + [Null];
        types := types + [ParamStr];
      } else {
        params := params + [RelatedIdValue(relatedId, target, cols[j].1)];
        types := types + [BindTypeOf(TypeOfColumnField(target, cols[j].1))];
      }
      j := j + 1;
    }
    assert cols[..j] == cols;
  }

  /** The field loop of `saveRevisionEntityData`. */
  method FieldParamList(meta: ClassMetadata, data: EntityData, fields: set<string>) returns (params: seq<Value>, types: seq<BindType>)
    ensures params == FieldParams(meta, data, fields, meta.fieldMappings)
    ensures types == FieldTypes(meta, fields, meta.fieldMappings)
  {
    var fms := meta.fieldMappings;
    params, types := [], [];
    var k := 0;
    while k < |fms|
      invariant 0 <= k <= |fms|
      invariant params == FieldParams(meta, data, fields, fms[..k])
      invariant types == FieldTypes(meta, fields, fms[..k])
    {
      var fm := fms[k];
      assert fms[..k + 1][..k] == fms[..k];
      if fm.fieldName !in fields && !(meta.IsInheritanceTypeJoined() && fm.inherited.Some? && !meta.IsIdentifier(fm.fieldName)) {
        params := params + [Lookup(data, fm.fieldName)];
        types := types + [Named(fm.fieldType)];
      }
      k := k + 1;
    }
    assert fms[..k] == fms;
  }

  /** The field loop and the discriminator of `saveRevisionEntityData`. */
  method FieldAndDiscriminatorParams(meta: ClassMetadata, data: EntityData, fields: set<string>) returns (params: seq<Value>, types: seq<BindType>)
    ensures params == FieldParams(meta, data, fields, meta.fieldMappings) + DiscParams(meta, data)
    ensures types == FieldTypes(meta, fields, meta.fieldMappings) + DiscTypes(meta)
  {
    params, types := FieldParamList(meta, data, fields);
    if meta.IsInheritanceTypeSingleTable() && meta.discriminatorColumn.Some? {
      params := params + [OptionalString(meta.discriminatorValue)];
      types := types + [Named(meta.discriminatorColumn.value.columnType)];
    } else if meta.IsInheritanceTypeJoined() && meta.name == meta.rootEntityName && meta.discriminatorColumn.Some? {
      params := params + [Lookup(data, meta.discriminatorColumn.value.name)];
      types := types + [Named(meta.discriminatorColumn.value.columnType)];
    }
  }

  /** The parameters of `saveRevisionEntityData` once the association loop
      has produced the foreign-key values and columns: the revision id and
      type first, then those values, then the fields and the discriminator. */
  method RevisionParamList(env: Env, meta: ClassMetadata, data: EntityData, rid: IdValue, rt: RevType,
                           fkParams: seq<Value>, fkTypes: seq<BindType>, fields: set<string>)
    returns (params: seq<Value>, types: seq<BindType>)
    requires TargetsKnown(env, meta.associationMappings)
    requires fkParams == FkParams(env, meta, data, meta.associationMappings)
    requires fkTypes == FkTypes(env, meta, data, meta.associationMappings)
    requires fields == FkSourceColumnSet(meta)
    ensures params == RevisionParams(env, meta, data, rid, rt)
    ensures types == RevisionTypes(env, meta, data)
  {
    var rest, restTypes := FieldAndDiscriminatorParams(meta, data, fields);
    params := [ToValue(rid), RevTypeValue(rt)] + fkParams + rest;
    types := [ParamInt, ParamStr] + fkTypes + restTypes;
  }

  /** The BackedEnum loop of `saveRevisionEntityData`, rewriting the
      parameters in place. */
  method UnwrapBackedEnums(ps: seq<Value>) returns (r: seq<Value>)
    ensures r == UnwrapEnums(ps)
  {
    r := ps;
    var k := 0;
    while k < |r|
      invariant 0 <= k <= |r| == |ps|
      invariant forall i :: 0 <= i < k ==> r[i] == UnwrapEnum(ps[i])
      invariant forall i :: k <= i < |r| ==> r[i] == ps[i]
    {
      if r[k].Enum? {
        r := r[k := r[k].backing];
      }
      k := k + 1;
    }
  }

  /** The statement-building part of `getInsertJoinTableRevisionSQL`. */
  method BuildJoinTableRevisionSql(cfg: AuditConfiguration, a: Association) returns (sql: Sql)
    ensures sql == JoinTableRevisionSql(cfg, a)
  {
    var columns := [cfg.revisionFieldName, cfg.revisionTypeFieldName];
    var placeholders := [Plain, Plain];
    var src := a.relationToSourceKeyColumns;
    var i := 0;
    while i < |src|
      invariant 0 <= i <= |src|
      invariant columns == [cfg.revisionFieldName, cfg.revisionTypeFieldName] + Keys(src)[..i]
      invariant placeholders == Plains(2 + i)
    {
      assert Keys(src)[..i + 1] == Keys(src)[..i] + [src[i].0];
      columns := columns + [src[i].0];
      placeholders := placeholders + [Plain];
      i := i + 1;
    }
    assert Keys(src)[..i] == Keys(src);
    var tgt := a.relationToTargetKeyColumns;
    var j := 0;
    while j < |tgt|
      invariant 0 <= j <= |tgt|
      invariant columns == [cfg.revisionFieldName, cfg.revisionTypeFieldName] + Keys(src) + Keys(tgt)[..j]
      invariant placeholders == Plains(2 + |src| + j)
    {
      assert Keys(tgt)[..j + 1] == Keys(tgt)[..j] + [tgt[j].0];
      columns := columns + [tgt[j].0];
      placeholders := placeholders + [Plain];
      j := j + 1;
    }
    assert Keys(tgt)[..j] == Keys(tgt);
    sql := InsertInto(cfg.JoinTableName(a.joinTableName), columns, placeholders);
  }

  /** The source-key loop of `recordRevisionForManyToManyEntity`: the owner's
      value of each join column and the type of the column it references. */
  method SourceKeyParams(data: EntityData, c: ClassMetadata, cols: seq<(string, string)>) returns (params: seq<Value>, types: seq<BindType>)
    ensures params == SourceKeyValues(data, c, cols) && types == ColumnTypes(c, cols)
  {
    params, types := [], [];
    var i := 0;
    while i < |cols|
      invariant 0 <= i <= |cols|
      invariant params == SourceKeyValues(data, c, cols[..i])
      invariant types == ColumnTypes(c, cols[..i])
    {
      assert cols[..i + 1][..i] == cols[..i];
      var targetColumn := cols[i].1;
      var v := match c.FieldNameOfColumn(targetColumn) case Some(f) => Lookup(data, f) case None => Null;
      params := params + [v];
      types := types + [TypeOfColumn(c.name, targetColumn)];
      i := i + 1;
    }
    assert cols[..i] == cols;
  }

  /** The target-key loop: the related entity's value of each referenced
      column and that column's type. */
  method TargetKeyParams(env: Env, related: EntityRef, target: ClassMetadata, cols: seq<(string, string)>) returns (params: seq<Value>, types: seq<BindType>)
    ensures params == TargetKeyValues(env, related, target, cols) && types == ColumnTypes(target, cols)
  {
    params, types := [], [];
    var j := 0;
    while j < |cols|
      invariant 0 <= j <= |cols|
      invariant params == TargetKeyValues(env, related, target, cols[..j])
      invariant types == ColumnTypes(target, cols[..j])
    {
      assert cols[..j + 1][..j] == cols[..j];
      var targetColumn := cols[j].1;
      var v := match target.FieldNameOfColumn(targetColumn) case Some(f) => PropertyValue(env, related, f) case None => Null;
      params := params + [v];
      types := types + [TypeOfColumn(target.name, targetColumn)];
      j := j + 1;
    }
    assert cols[..j] == cols;
  }

  /** The parameters of `recordRevisionForManyToManyEntity`. */
  method BuildJoinParams(env: Env, w: DeferredWrite, rid: IdValue) returns (params: seq<Value>, types: seq<BindType>)
    ensures params == JoinParams(env, w, rid) && types == JoinTypes(w)
  {
    var sp, st := SourceKeyParams(w.entityData, w.sourceClass, w.assoc.relationToSourceKeyColumns);
    var tp, tt := TargetKeyParams(env, w.entity, w.targetClass, w.assoc.relationToTargetKeyColumns);
    params := [ToValue(rid), RevTypeValue(w.revType)] + sp + tp;
    types := [ParamInt, ParamStr] + st + tt;
  }
}
