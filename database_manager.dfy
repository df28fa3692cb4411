// The tenanted database manager: picks the relationship handler for a
// model's tenant relation, by custom creator or by the relation's shape.

module DatabaseManagers {
  import opened Values
  import opened Eloquent

  /** A relationship handler: one of the package's two, or another class. */
  datatype Handler = BelongsToTenant | HasOneOrManyTenant | OtherHandler(className: string)

  /** A custom handler creator, called with the model. */
  type HandlerCreator = Model -> Handler

  /** Whether a relation class is an instance of another class (Laravel's
      relation hierarchy, taken as given). */
  type InstanceOf = (string, string) -> bool

  const BelongsToClass := "Illuminate\\Database\\Eloquent\\Relations\\BelongsTo"
  const BelongsToManyClass := "Illuminate\\Database\\Eloquent\\Relations\\BelongsToMany"
  const HasOneClass := "Illuminate\\Database\\Eloquent\\Relations\\HasOne"
  const MorphOneClass := "Illuminate\\Database\\Eloquent\\Relations\\MorphOne"
  const HasOneOrManyClass := "Illuminate\\Database\\Eloquent\\Relations\\HasOneOrMany"
  const HasManyThroughClass := "Illuminate\\Database\\Eloquent\\Relations\\HasManyThrough"

  /** `RELATION_MAP`, in declaration order: relation class to handler type. */
  const RelationMap: seq<(string, string)> := [
    (BelongsToClass, "BelongsTo"),
    (BelongsToManyClass, "BelongsToMany"),
    (HasOneClass, "HasOneOrMorphOne"),
    (MorphOneClass, "HasOneOrMorphOne"),
    (HasOneOrManyClass, "HasOneOrMany"),
    (HasManyThroughClass, "HasManyThrough")]

  /** The handler type of the first entry the relation is an instance of. */
  function MappedType(relationClass: string, isInstance: InstanceOf, entries: seq<(string, string)>): (r: Option<string>)
    ensures r.None? <==> forall i :: 0 <= i < |entries| ==> !isInstance(relationClass, entries[i].0)
    ensures r.Some? ==> exists i :: 0 <= i < |entries| && isInstance(relationClass, entries[i].0)
                                    && entries[i].1 == r.value
                                    && forall j :: 0 <= j < i ==> !isInstance(relationClass, entries[j].0)
  {
    if entries == [] then None
    else if isInstance(relationClass, entries[0].0) then Some(entries[0].1)
    else
      var r := MappedType(relationClass, isInstance, entries[1..]);
      assert forall i :: 1 <= i < |entries| ==> entries[i] == entries[1..][i - 1];
      r
  }

  /** What `relationship($model, $name)` returns on a given creator table
      and handler cache. The creator entry is read without `isset`; the
      undefined-key warning this raises for a relation class with no creator
      is not modelled, and the entry is taken as falsy. */
  function RelationshipOutcome(creators: map<string, HandlerCreator>, cache: map<string, Handler>,
                               model: Model, relationship: string, isInstance: InstanceOf): Result<Handler>
  {
    if relationship !in model.relations then Err(NoRelationship(model.className, relationship))
    else
      var relationClass := model.relations[relationship].relationClass;
      if relationClass in creators then Ok(creators[relationClass](model))
      else match MappedType(relationClass, isInstance, RelationMap)
        case None => Err(NoCreation(model.className, relationship))
        case Some(relationType) =>
          if relationType in cache then Ok(cache[relationType]) else Err(UnknownRelationship(relationType))
  }

  /** `$customRelationshipHandlerCreators`, one map for the process. */
  class HandlerCreatorTable {
    var creators: map<string, HandlerCreator>

    constructor ()
      ensures creators == map[]
    {
      creators := map[];
    }

    /** `registerRelationshipHandler`: set or overwrite the relation
        class's creator. */
    method Register(relation: string, creator: HandlerCreator)
      modifies this
      ensures creators == old(creators)[relation := creator]
    {
      creators := creators[relation := creator];
    }
  }

  class TenantedDatabaseManager {
    const creators: HandlerCreatorTable
    /** Handlers by type; nothing ever writes to it. */
    var relationshipHandlers: map<string, Handler>

    constructor (creators: HandlerCreatorTable)
      ensures this.creators == creators && relationshipHandlers == map[]
    {
      this.creators := creators;
      relationshipHandlers := map[];
    }

    /** `createRelationshipHandler`, as written: a cached handler is
        returned; otherwise the factory's handler is built and dropped, and
        the call always fails. The cache is only read. */
    method CreateRelationshipHandler(relationType: string, model: Model) returns (r: Result<Handler>)
      ensures relationType in relationshipHandlers ==> r == Ok(relationshipHandlers[relationType])
      ensures relationType !in relationshipHandlers ==> r == Err(UnknownRelationship(relationType))
    {
      if relationType in relationshipHandlers {
        return Ok(relationshipHandlers[relationType]);
      }
      return Err(UnknownRelationship(relationType));
    }

    /** `relationship($model, $name)`: no such relation; the creator for the
        relation's exact class; the first map entry it is an instance of;
        or no handler at all. */
    method Relationship(model: Model, relationship: string, isInstance: InstanceOf) returns (r: Result<Handler>)
      ensures r == RelationshipOutcome(creators.creators, relationshipHandlers, model, relationship, isInstance)
    {
      if relationship !in model.relations {
        return Err(NoRelationship(model.className, relationship));
      }
      var relationClass := model.relations[relationship].relationClass;
      if relationClass in creators.creators {
        return Ok(creators.creators[relationClass](model));
      }
      var i := 0;
      while i < |RelationMap|
        invariant 0 <= i <= |RelationMap|
        invariant MappedType(relationClass, isInstance, RelationMap[i..]) == MappedType(relationClass, isInstance, RelationMap)
      {
        if isInstance(relationClass, RelationMap[i].0) {
          r := CreateRelationshipHandler(RelationMap[i].1, model);
          return;
        }
        assert RelationMap[i..][1..] == RelationMap[i + 1..];
        i := i + 1;
      }
      return Err(NoCreation(model.className, relationship));
    }
  }

  /** A manager whose handler cache is empty, as every manager's is, returns
      a handler only through a custom creator for the relation's class. */
  lemma OnlyCreatorsYieldHandlers(creators: map<string, HandlerCreator>, model: Model,
                                  relationship: string, isInstance: InstanceOf)
    ensures var r := RelationshipOutcome(creators, map[], model, relationship, isInstance);
            r.Ok? <==> relationship in model.relations && model.relations[relationship].relationClass in creators
  {
  }

  /** A has-one relation that is not also a belongs-to one maps to
      `HasOneOrMorphOne`, though every has-one is also a has-one-or-many. */
  lemma HasOneBeforeHasOneOrMany(relationClass: string, isInstance: InstanceOf)
    requires !isInstance(relationClass, BelongsToClass) && !isInstance(relationClass, BelongsToManyClass)
    requires isInstance(relationClass, HasOneClass)
    ensures MappedType(relationClass, isInstance, RelationMap) == Some("HasOneOrMorphOne")
  {
    assert RelationMap[1..][1..] == RelationMap[2..];
    assert MappedType(relationClass, isInstance, RelationMap) == MappedType(relationClass, isInstance, RelationMap[1..]);
    assert MappedType(relationClass, isInstance, RelationMap[1..]) == MappedType(relationClass, isInstance, RelationMap[2..]);
    assert RelationMap[2..][0] == (HasOneClass, "HasOneOrMorphOne");
  }

  /** A relation of none of the mapped shapes has no handler. */
  lemma UnmappedRelationHasNoCreation(creators: map<string, HandlerCreator>, cache: map<string, Handler>,
                                      model: Model, relationship: string, isInstance: InstanceOf)
    requires relationship in model.relations && model.relations[relationship].relationClass !in creators
    requires forall i :: 0 <= i < |RelationMap| ==> !isInstance(model.relations[relationship].relationClass, RelationMap[i].0)
    ensures RelationshipOutcome(creators, cache, model, relationship, isInstance)
            == Err(NoCreation(model.className, relationship))
  {
  }
}
