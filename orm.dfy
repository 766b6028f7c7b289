/** What the listener sees of the ORM during one hook: PHP values, entity
    references, the unit of work's bookkeeping, the metadata registry, the
    property values reflection would read, and the clock reading. */
module Orm {
  import opened Wrappers
  import opened PhpArray
  import opened Mapping

  /** Object identity (what `spl_object_hash` distinguishes). */
  type Oid = nat

  /** An entity object: its identity and its class (`$entity::class`). */
  datatype EntityRef = EntityRef(oid: Oid, className: string)

  /** An assigned identifier value, or a revision id (`string|int`). */
  datatype IdValue = IdInt(i: int) | IdStr(s: string)

  /** The PHP values that flow through entity data and statement parameters. */
  datatype Value =
    | Null
    | Bool(b: bool)
    | Int(i: int)
    | Str(s: string)
    | Enum(backing: Value)            // a BackedEnum case and its backing value
    | Object(ref: EntityRef)          // a related entity
    | Collection(items: seq<EntityRef>)

  function ToValue(id: IdValue): Value {
    match id
    case IdInt(i) => Int(i)
    case IdStr(s) => Str(s)
  }

  /** `\is_object($v)`: entities, collections and enum cases are objects. */
  predicate IsObject(v: Value) {
    v.Object? || v.Collection? || v.Enum?
  }

  /** `$v instanceof \BackedEnum ? $v->value : $v` */
  function UnwrapEnum(v: Value): Value {
    if v.Enum? then v.backing else v
  }

  /** Entity data: field name => value. */
  type EntityData = map<string, Value>

  /** `$data[$key] ?? null` */
  function Lookup(data: EntityData, key: string): Value {
    if key in data then data[key] else Null
  }

  /** One entry of a change set: `[old, new]`. */
  datatype Change = Change(oldValue: Value, newValue: Value)

  /** The unit of work's state as the hooks query it. */
  datatype UnitOfWork = UnitOfWork(
    scheduledEntityDeletions: seq<EntityRef>,
    scheduledEntityInsertions: seq<EntityRef>,
    scheduledEntityUpdates: seq<EntityRef>,
    identityMap: set<Oid>,
    entityIdentifiers: map<Oid, seq<(string, IdValue)>>,
    originalEntityData: map<Oid, EntityData>,
    entityChangeSets: map<Oid, seq<(string, Change)>>)

  /** The entity manager as one hook sees it. `properties` is what reflection
      reads from live objects; `now` is the clock reading. */
  datatype Env = Env(
    classes: map<string, ClassMetadata>,
    audited: set<string>,
    uow: UnitOfWork,
    properties: map<Oid, EntityData>,
    now: int)

  /** What Doctrine guarantees of its metadata and unit of work: each class is
      registered under its own name, every class's root is registered and is
      its own root, association targets are registered, and every scheduled
      entity has registered metadata. */
  ghost predicate WellFormed(env: Env) {
    && (forall c :: c in env.classes ==> env.classes[c].name == c)
    && (forall c :: c in env.classes ==>
          && env.classes[c].rootEntityName in env.classes
          && env.classes[env.classes[c].rootEntityName].rootEntityName == env.classes[c].rootEntityName)
    && (forall c, a :: c in env.classes && a in env.classes[c].associationMappings ==> a.targetEntity in env.classes)
    && (forall e :: e in env.uow.scheduledEntityDeletions ==> e.className in env.classes)
    && (forall e :: e in env.uow.scheduledEntityInsertions ==> e.className in env.classes)
    && (forall e :: e in env.uow.scheduledEntityUpdates ==> e.className in env.classes)
  }

  /** `meta` is what `getClassMetadata($meta->name)` returns. */
  ghost predicate Registered(env: Env, meta: ClassMetadata) {
    meta.name in env.classes && env.classes[meta.name] == meta
  }

  /** `$uow->getEntityIdentifier($entity)` (field => value, in order). */
  function EntityIdentifier(env: Env, e: EntityRef): seq<(string, IdValue)> {
    if e.oid in env.uow.entityIdentifiers then env.uow.entityIdentifiers[e.oid] else []
  }

  /** An identifier as entity data. */
  function IdentifierData(ids: seq<(string, IdValue)>): EntityData
    decreases |ids|
  {
    if ids == [] then map[]
    else IdentifierData(ids[..|ids| - 1])[ids[|ids| - 1].0 := ToValue(ids[|ids| - 1].1)]
  }

  /** `$uow->isInIdentityMap($v)` */
  predicate InIdentityMap(env: Env, v: Value) {
    v.Object? && v.ref.oid in env.uow.identityMap
  }

  /** `$uow->isScheduledForInsert($v)` */
  predicate IsScheduledForInsert(env: Env, v: Value) {
    v.Object? && exists i :: 0 <= i < |env.uow.scheduledEntityInsertions| && env.uow.scheduledEntityInsertions[i].oid == v.ref.oid
  }

  /** `$reflField->getValue($entity)` */
  function PropertyValue(env: Env, e: EntityRef, field: string): Value {
    if e.oid in env.properties then Lookup(env.properties[e.oid], field) else Null
  }

  /** `$uow->getEntityChangeSet($entity)` */
  function EntityChangeSet(env: Env, e: EntityRef): seq<(string, Change)> {
    if e.oid in env.uow.entityChangeSets then env.uow.entityChangeSets[e.oid] else []
  }

  /** What the unit of work throws back at the listener. */
  datatype OrmError = InvalidCompositeIdentifier  // ORMInvalidArgumentException::invalidCompositeIdentifier()

  /** The unit of work's original data of an entity (an unmanaged entity has none). */
  function UowOriginalData(env: Env, e: EntityRef): EntityData {
    if e.oid in env.uow.originalEntityData then env.uow.originalEntityData[e.oid] else map[]
  }

  /** `$uow->getSingleIdentifierValue($entity)`: a class with a composite
      identifier is refused; otherwise the value of its identifier field, from
      the identity map when the entity is managed and from its properties
      otherwise, or null when there is none. */
  function SingleIdentifierValue(env: Env, e: EntityRef): (r: Result<Value, OrmError>)
    ensures r.Failure? <==> e.className in env.classes && |env.classes[e.className].identifier| > 1
    ensures r.Success? && r.value != Null ==> e.className in env.classes && |env.classes[e.className].identifier| == 1
    ensures r.Success? && e.className in env.classes && env.classes[e.className].identifier != [] ==>
      var idField := env.classes[e.className].identifier[0];
      r.value == if InIdentityMap(env, Object(e)) then
                   (match Get(EntityIdentifier(env, e), idField) case Some(v) => ToValue(v) case None => Null)
                 else PropertyValue(env, e, idField)
  {
    if e.className !in env.classes || env.classes[e.className].identifier == [] then Success(Null)
    else if |env.classes[e.className].identifier| > 1 then Failure(InvalidCompositeIdentifier)
    else
      var idField := env.classes[e.className].identifier[0];
      if InIdentityMap(env, Object(e)) then
        match Get(EntityIdentifier(env, e), idField)
        case Some(v) => Success(ToValue(v))
        case None => Success(Null)
      else Success(PropertyValue(env, e, idField))
  }

  /** `getOriginalEntityData`: the unit of work's original data, with the
      version field's current value added for a versioned class. */
  function OriginalEntityData(env: Env, e: EntityRef, meta: ClassMetadata): (r: EntityData)
    ensures forall k :: k in r <==> k in UowOriginalData(env, e) || meta.versionField == Some(k)
    ensures meta.versionField.Some? ==> r[meta.versionField.value] == PropertyValue(env, e, meta.versionField.value)
    ensures forall k :: k in UowOriginalData(env, e) && meta.versionField != Some(k) ==> r[k] == UowOriginalData(env, e)[k]
  {
    var data := UowOriginalData(env, e);
    match meta.versionField
    case Some(vf) => data[vf := PropertyValue(env, e, vf)]
    case None => data
  }

  /** The persister's `getOwningTable($field)`: in joined inheritance the table
      of the class that declares the field, otherwise the class's own table. */
  function OwningTable(env: Env, meta: ClassMetadata, field: string): string {
    if !meta.IsInheritanceTypeJoined() then meta.tableName
    else
      var declaring :=
        match meta.AssociationOf(field)
        case Some(a) => a.inherited
        case None =>
          match meta.FieldMappingOf(field)
          case Some(fm) => fm.inherited
          case None => None;
      match declaring
      case Some(c) => if c in env.classes then env.classes[c].tableName else meta.tableName
      case None => meta.tableName
  }
}
