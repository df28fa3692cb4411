// The parts of an Eloquent model and query builder the tenant-ownership
// layer touches: the model's optional hook methods, its relation methods,
// its attributes and loaded relations, and the builder's filters.

module Eloquent {
  import opened Values
  import opened Tenants

  /** A relation method: the relation's class and, for a belongs-to
      relation, the name of its foreign-key attribute. */
  datatype Relation = Relation(relationClass: string, foreignKey: string)

  /** A loaded relation: a tenant entity, or anything else. */
  datatype RelationValue = TenantValue(tenant: GenericTenant) | OtherValue

  /** The hook methods a model class may define, each `None` when the class
      lacks it (`method_exists` is false) and otherwise what it returns. */
  datatype Hooks = Hooks(
    tenantRelationshipName: Option<string>,
    functionWithoutTenant: Option<bool>,
    scopeToTenant: Option<bool>,
    tenancyName: Option<Option<string>>)

  class Model {
    const className: string
    const hooks: Hooks
    /** The relation methods, by name; `isRelation` is membership here. */
    const relations: map<string, Relation>
    var attributes: map<string, Value>
    /** The relations loaded on this instance. */
    var loaded: map<string, RelationValue>

    constructor (className: string, hooks: Hooks, relations: map<string, Relation>, attributes: map<string, Value>)
      ensures this.className == className && this.hooks == hooks && this.relations == relations
      ensures this.attributes == attributes && loaded == map[]
    {
      this.className := className;
      this.hooks := hooks;
      this.relations := relations;
      this.attributes := attributes;
      loaded := map[];
    }

    /** `getAttribute`: the attribute, null when absent. */
    function Attribute(name: string): (r: Value)
      reads this
      ensures name in attributes ==> r == attributes[name]
      ensures name !in attributes ==> r == VNull
    {
      if name in attributes then attributes[name] else VNull
    }
  }

  /** One `where($column, $operator, $value)` filter. */
  datatype Where = Where(column: string, operator: string, value: Value)

  class Builder {
    var wheres: seq<Where>

    constructor (wheres: seq<Where>)
      ensures this.wheres == wheres
    {
      this.wheres := wheres;
    }

    /** `where`: add one filter after the existing ones. */
    method AddWhere(column: string, operator: string, value: Value)
      modifies this
      ensures wheres == old(wheres) + [Where(column, operator, value)]
    {
      wheres := wheres + [Where(column, operator, value)];
    }
  }
}
