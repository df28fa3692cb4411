// The belongs-to relationship handler: a tenant-owned model points at its
// tenant through a foreign key, which must match the current tenant.

module BelongsToHandler {
  import opened Values
  import opened Tenants
  import opened Tenancies
  import opened Eloquent
  import opened BaseHandler

  /** `validateCurrentValue`. A loaded relation must hold a tenant whose key
      is strictly the tenancy's key; the loaded tenant's key is read first,
      then the tenancy's, and either read throws for a key of the wrong
      type. Otherwise the relation method is called and the foreign-key
      attribute must strictly equal the tenancy's key, so an unset key
      (null) or `"7"` against `7` is refused. */
  function ValidateCurrentValue(relationName: string, model: Model, tenancy: Tenancy): (thrown: Option<Failure>)
    reads model, tenancy
    ensures relationName in model.loaded && !model.loaded[relationName].TenantValue? ==>
              thrown == Some(RelationInvalid(model.className, relationName, tenancy.name))
    ensures relationName in model.loaded && model.loaded[relationName].TenantValue? ==>
              var loadedKey := model.loaded[relationName].tenant.TenantKey();
              (loadedKey.Err? ==> thrown == Some(KeyTypeError))
              && (loadedKey.Ok? && tenancy.Key().Err? ==> thrown == Some(KeyTypeError))
              && (loadedKey.Ok? && tenancy.Key().Ok? ==>
                    thrown == if loadedKey.value == tenancy.Key().value then None
                              else Some(RelationInvalid(model.className, relationName, tenancy.name)))
    ensures relationName !in model.loaded && relationName !in model.relations ==>
              thrown == Some(UndefinedMethod(model.className, relationName))
    ensures relationName !in model.loaded && relationName in model.relations ==>
              (tenancy.Key().Err? ==> thrown == Some(KeyTypeError))
              && (tenancy.Key().Ok? ==>
                    thrown == if tenancy.Key().value == model.Attribute(model.relations[relationName].foreignKey) then None
                              else Some(RelationInvalid(model.className, relationName, tenancy.name)))
    ensures thrown.None? ==> tenancy.Key().Ok?
  {
    if relationName in model.loaded then
      var value := model.loaded[relationName];
      if !value.TenantValue? then Some(RelationInvalid(model.className, relationName, tenancy.name))
      else
        var loadedKey := value.tenant.TenantKey();
        var key := tenancy.Key();
        if loadedKey.Err? then Some(loadedKey.error)
        else if key.Err? then Some(key.error)
        else if loadedKey.value != key.value then Some(RelationInvalid(model.className, relationName, tenancy.name))
        else None
    else if relationName !in model.relations then Some(UndefinedMethod(model.className, relationName))
    else
      var key := tenancy.Key();
      if key.Err? then Some(key.error)
      else if key.value != model.Attribute(model.relations[relationName].foreignKey) then
        Some(RelationInvalid(model.className, relationName, tenancy.name))
      else None
  }

  /** With a current tenant whose key is set, a model whose foreign key is
      unset is refused: creation cannot fill in a missing foreign key. */
  lemma MissingForeignKeyRefused(relationName: string, model: Model, tenancy: Tenancy)
    requires relationName !in model.loaded && relationName in model.relations
    requires model.relations[relationName].foreignKey !in model.attributes
    requires tenancy.Check() && tenancy.Key().Ok?
    ensures ValidateCurrentValue(relationName, model, tenancy)
            == Some(RelationInvalid(model.className, relationName, tenancy.name))
  {
  }

  /** The comparison is strict: the string `"7"` does not match the key `7`. */
  lemma StringKeyRefused(relationName: string, model: Model, tenancy: Tenancy)
    requires relationName !in model.loaded && relationName in model.relations
    requires model.Attribute(model.relations[relationName].foreignKey) == VStr("7")
    requires tenancy.Key() == Ok(VInt(7))
    ensures ValidateCurrentValue(relationName, model, tenancy).Some?
  {
  }

  /** A current tenant without its key attribute cannot be validated:
      `getTenantKey` throws, whatever the model's foreign key holds. */
  lemma KeylessTenantThrows(relationName: string, model: Model, tenancy: Tenancy)
    requires relationName !in model.loaded && relationName in model.relations
    requires tenancy.Check() && tenancy.tenant.keyName !in tenancy.tenant.attributes
    ensures ValidateCurrentValue(relationName, model, tenancy) == Some(KeyTypeError)
  {
  }

  /** The step both populate methods open with: no tenant is accepted only
      for a model that may function without one. */
  function WithoutTenant(model: Model, tenancy: Tenancy): (thrown: Option<Failure>)
    ensures thrown.None? <==> ShouldFunctionWithoutTenant(model)
    ensures thrown.Some? ==> thrown.value == TenantNone(tenancy.name)
  {
    if ShouldFunctionWithoutTenant(model) then None else Some(TenantNone(tenancy.name))
  }

  /** What `populateForCreation` leaves behind. Without a tenant: nothing
      changes, and the model must be allowed to function without one. With
      a tenant: the current value is validated, and on success the relation
      is associated with the tenant, setting the foreign key to the tenant's
      key and loading the relation. A refusal changes nothing. */
  twostate predicate CreationOutcome(model: Model, tenancy: Tenancy, new thrown: Option<Failure>)
    reads model, tenancy
  {
    (!tenancy.Check() ==>
       thrown == WithoutTenant(model, tenancy)
       && model.attributes == old(model.attributes) && model.loaded == old(model.loaded))
    && (tenancy.Check() ==>
          var relationName := RelationName(model, tenancy);
          var invalid := old(ValidateCurrentValue(relationName, model, tenancy));
          (invalid.Some? ==> thrown == invalid
                             && model.attributes == old(model.attributes) && model.loaded == old(model.loaded))
          && (invalid.None? && relationName !in model.relations ==>
                thrown == Some(UndefinedMethod(model.className, relationName))
                && model.attributes == old(model.attributes) && model.loaded == old(model.loaded))
          && (invalid.None? && relationName in model.relations ==>
                thrown.None? && tenancy.Key().Ok?
                && model.attributes == old(model.attributes)[model.relations[relationName].foreignKey := tenancy.Key().value]
                && model.loaded == old(model.loaded)[relationName := TenantValue(tenancy.tenant)]))
  }

  /** `populateForCreation`: see `CreationOutcome`. */
  method PopulateForCreation(model: Model, tenancy: Tenancy) returns (thrown: Option<Failure>)
    modifies model
    ensures CreationOutcome(model, tenancy, thrown)
  {
    if !tenancy.Check() {
      return WithoutTenant(model, tenancy);
    }
    var relationName := RelationName(model, tenancy);
    thrown := ValidateCurrentValue(relationName, model, tenancy);
    if thrown.Some? {
      return;
    }
    if relationName !in model.relations {
      return Some(UndefinedMethod(model.className, relationName));
    }
    var key := tenancy.Key();
    model.attributes := model.attributes[model.relations[relationName].foreignKey := key.value];
    model.loaded := model.loaded[relationName := TenantValue(tenancy.tenant)];
  }

  /** What `populateAfterRetrieval` leaves behind: the same checks, then
      the relation is set to the tenancy's tenant. (The attributes are not
      in its frame.) */
  twostate predicate RetrievalOutcome(model: Model, tenancy: Tenancy, new thrown: Option<Failure>)
    reads model, tenancy
  {
    (!tenancy.Check() ==> thrown == WithoutTenant(model, tenancy) && model.loaded == old(model.loaded))
    && (tenancy.Check() ==>
          var relationName := RelationName(model, tenancy);
          var invalid := old(ValidateCurrentValue(relationName, model, tenancy));
          (invalid.Some? ==> thrown == invalid && model.loaded == old(model.loaded))
          && (invalid.None? ==> thrown.None? && model.loaded == old(model.loaded)[relationName := TenantValue(tenancy.tenant)]))
  }

  /** `populateAfterRetrieval`: see `RetrievalOutcome`; the attributes are
      left alone. */
  method PopulateAfterRetrieval(model: Model, tenancy: Tenancy) returns (thrown: Option<Failure>)
    modifies model`loaded
    ensures RetrievalOutcome(model, tenancy, thrown)
  {
    if !tenancy.Check() {
      return WithoutTenant(model, tenancy);
    }
    var relationName := RelationName(model, tenancy);
    thrown := ValidateCurrentValue(relationName, model, tenancy);
    if thrown.Some? {
      return;
    }
    model.loaded := model.loaded[relationName := TenantValue(tenancy.tenant)];
  }

  /** `scopeForQuery`. A model that does not scope gets its builder back
      untouched, tenant or not. Otherwise a tenant is required, the relation
      method is called, and the tenancy's key is read, which throws for a
      key of the wrong type; then exactly one filter `foreign key = tenancy
      key` is added. */
  method ScopeForQuery(model: Model, tenancy: Tenancy, builder: Builder) returns (r: Result<Builder>)
    modifies builder
    ensures !ShouldScopeToTenant(model) ==> r == Ok(builder) && builder.wheres == old(builder.wheres)
    ensures ShouldScopeToTenant(model) && !tenancy.Check() ==>
              r == Err(TenantNone(tenancy.name)) && builder.wheres == old(builder.wheres)
    ensures ShouldScopeToTenant(model) && tenancy.Check() ==>
              var relationName := RelationName(model, tenancy);
              (relationName !in model.relations ==>
                 r == Err(UndefinedMethod(model.className, relationName)) && builder.wheres == old(builder.wheres))
              && (relationName in model.relations && tenancy.Key().Err? ==>
                    r == Err(KeyTypeError) && builder.wheres == old(builder.wheres))
              && (relationName in model.relations && tenancy.Key().Ok? ==>
                    r == Ok(builder)
                    && builder.wheres == old(builder.wheres) + [Where(model.relations[relationName].foreignKey, "=", tenancy.Key().value)])
  {
    if !ShouldScopeToTenant(model) {
      return Ok(builder);
    }
    if !tenancy.Check() {
      return Err(TenantNone(tenancy.name));
    }
    var relationName := RelationName(model, tenancy);
    if relationName !in model.relations {
      return Err(UndefinedMethod(model.className, relationName));
    }
    var key := tenancy.Key();
    if key.Err? {
      return Err(key.error);
    }
    builder.AddWhere(model.relations[relationName].foreignKey, "=", key.value);
    return Ok(builder);
  }

  /** A successful creation leaves the model pointing at the current
      tenant: its foreign key reads back as the tenant's key, and a second
      validation accepts it. */
  method CreationThenValidation(model: Model, tenancy: Tenancy) returns (thrown: Option<Failure>, again: Option<Failure>)
    requires tenancy.Check()
    modifies model
    ensures thrown.None? ==> again.None?
  {
    thrown := PopulateForCreation(model, tenancy);
    again := ValidateCurrentValue(RelationName(model, tenancy), model, tenancy);
  }
}
