/** The ORM's class metadata, reduced to what the revision writer reads: field
    mappings, association descriptors, identifier, inheritance kind, root class
    and discriminator. Doctrine exposes this in two shapes (arrays and mapping
    objects); the model has one descriptor per concept, and the predicates
    follow the array branches of the compatibility helpers. */
module Mapping {
  import opened Wrappers
  import opened PhpArray

  /** Association type bits, as in Doctrine's ClassMetadata. */
  const ONE_TO_ONE: bv8 := 1
  const MANY_TO_ONE: bv8 := 2
  const ONE_TO_MANY: bv8 := 4
  const MANY_TO_MANY: bv8 := 8
  const TO_ONE: bv8 := 3
  const TO_MANY: bv8 := 12

  /** One foreign-key column of a to-one owning association: the column in the
      owning table and the column of the target it references. */
  datatype JoinColumn = JoinColumn(name: string, referencedColumnName: string)

  /** An association mapping. `joinColumns` is non-empty only on a to-one
      owning side; `joinTableName` and the two relation key-column maps (join
      table column => referenced column) only matter on a many-to-many owning
      side. `inherited` names the declaring ancestor class, when there is one. */
  datatype Association = Association(
    fieldName: string,
    assocType: bv8,
    isOwningSide: bool,
    targetEntity: string,
    joinColumns: seq<JoinColumn>,
    joinTableName: string,
    relationToSourceKeyColumns: seq<(string, string)>,
    relationToTargetKeyColumns: seq<(string, string)>,
    inherited: Option<string>)

  /** `true === $mapping['isOwningSide']` */
  predicate IsOwningSide(a: Association) {
    a.isOwningSide
  }

  /** `($mapping['type'] & TO_ONE) > 0 && true === $mapping['isOwningSide']` */
  predicate IsToOneOwningSide(a: Association) {
    a.assocType & TO_ONE != 0 && a.isOwningSide
  }

  /** `true === $mapping['isOwningSide'] && ($mapping['type'] & MANY_TO_MANY) > 0` */
  predicate IsManyToManyOwningSide(a: Association) {
    a.isOwningSide && a.assocType & MANY_TO_MANY != 0
  }

  /** Doctrine derives both key-column maps of a to-one owning side from its
      join columns: source column => target column ... */
  function SourceToTargetKeyColumns(a: Association): (m: seq<(string, string)>)
    ensures |m| == |a.joinColumns|
    ensures forall i :: 0 <= i < |m| ==> m[i] == (a.joinColumns[i].name, a.joinColumns[i].referencedColumnName)
  {
    seq(|a.joinColumns|, i requires 0 <= i < |a.joinColumns| =>
      (a.joinColumns[i].name, a.joinColumns[i].referencedColumnName))
  }

  /** ... and target column => source column. */
  function TargetToSourceKeyColumns(a: Association): (m: seq<(string, string)>)
    ensures |m| == |a.joinColumns|
    ensures forall i :: 0 <= i < |m| ==> m[i] == (a.joinColumns[i].referencedColumnName, a.joinColumns[i].name)
  {
    seq(|a.joinColumns|, i requires 0 <= i < |a.joinColumns| =>
      (a.joinColumns[i].referencedColumnName, a.joinColumns[i].name))
  }

  /** The two key-column maps pair the same columns the other way round: each
      is the other with its pairs swapped, so the target-to-source keys are the
      referenced columns and its values the join columns, in join-column order. */
  lemma KeyColumnsMirror(a: Association)
    ensures |TargetToSourceKeyColumns(a)| == |SourceToTargetKeyColumns(a)|
    ensures forall i :: 0 <= i < |TargetToSourceKeyColumns(a)| ==>
      TargetToSourceKeyColumns(a)[i] == (SourceToTargetKeyColumns(a)[i].1, SourceToTargetKeyColumns(a)[i].0)
    ensures Keys(TargetToSourceKeyColumns(a)) == Values(SourceToTargetKeyColumns(a))
    ensures Values(TargetToSourceKeyColumns(a)) == Keys(SourceToTargetKeyColumns(a))
  {
  }

  /** A field mapping; `inherited` names the declaring ancestor class. */
  datatype FieldMapping = FieldMapping(fieldName: string, columnName: string, fieldType: string, inherited: Option<string>)

  datatype InheritanceType = NoInheritance | Joined | SingleTable | TablePerClass

  datatype DiscriminatorColumn = DiscriminatorColumn(name: string, columnType: string)

  /** Class metadata. `versionField` is `Some` exactly when the class is
      versioned; `fieldMappings` is in declaration order, which is also the
      order of Doctrine's column => field map `fieldNames`. */
  datatype ClassMetadata = ClassMetadata(
    name: string,
    rootEntityName: string,
    tableName: string,
    inheritanceType: InheritanceType,
    fieldMappings: seq<FieldMapping>,
    identifier: seq<string>,
    associationMappings: seq<Association>,
    discriminatorColumn: Option<DiscriminatorColumn>,
    discriminatorValue: Option<string>,
    versionField: Option<string>,
    embeddedClasses: set<string>)
  {
    predicate IsInheritanceTypeJoined() {
      inheritanceType == Joined
    }

    predicate IsInheritanceTypeSingleTable() {
      inheritanceType == SingleTable
    }

    predicate IsIdentifier(field: string) {
      field in identifier
    }

    /** `$class->fieldNames`: column name => field name. */
    function FieldNames(): seq<(string, string)> {
      seq(|fieldMappings|, i requires 0 <= i < |fieldMappings| =>
        (fieldMappings[i].columnName, fieldMappings[i].fieldName))
    }

    /** `$class->fieldNames[$column]`, when set. */
    function FieldNameOfColumn(column: string): Option<string> {
      Get(FieldNames(), column)
    }

    /** `$class->fieldMappings[$field]`, when set. */
    function FieldMappingOf(field: string): Option<FieldMapping> {
      Get(seq(|fieldMappings|, i requires 0 <= i < |fieldMappings| => (fieldMappings[i].fieldName, fieldMappings[i])), field)
    }

    /** `$class->associationMappings[$field]`, when set. */
    function AssociationOf(field: string): Option<Association> {
      Get(seq(|associationMappings|, i requires 0 <= i < |associationMappings| =>
        (associationMappings[i].fieldName, associationMappings[i])), field)
    }

    predicate HasField(field: string) {
      FieldMappingOf(field).Some?
    }

    /** `getTypeOfField`: the mapped type, or null for an unmapped name. */
    function TypeOfField(field: string): Option<string> {
      match FieldMappingOf(field)
      case Some(fm) => Some(fm.fieldType)
      case None => None
    }

    /** `getFieldForColumn`: the field of a column, or else the to-one
        association whose single join column it is. */
    function FieldForColumn(column: string): Option<string> {
      match FieldNameOfColumn(column)
      case Some(f) => Some(f)
      case None => SingleJoinColumnAssociation(associationMappings, column)
    }
  }

  function SingleJoinColumnAssociation(assocs: seq<Association>, column: string): Option<string> {
    if assocs == [] then None
    else if assocs[0].assocType & TO_ONE != 0 && |assocs[0].joinColumns| == 1 && assocs[0].joinColumns[0].name == column
    then Some(assocs[0].fieldName)
    else SingleJoinColumnAssociation(assocs[1..], column)
  }

  /** The type of the field a column belongs to, or none when no field or
      field type is found. */
  function TypeOfColumnField(meta: ClassMetadata, column: string): Option<string> {
    match meta.FieldForColumn(column)
    case Some(f) => meta.TypeOfField(f)
    case None => None
  }
}
