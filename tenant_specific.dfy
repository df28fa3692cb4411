// The tenant-specific model trait: a per-class handler, resolved once when
// the class boots, and the creating and retrieved hooks that hand each model
// to it; plus the trait's own answers to the base handler's hooks.

module TenantSpecific {
  import opened Values
  import opened Tenancies
  import opened Eloquent
  import opened BaseHandler
  import BelongsToHandler
  import HasOneOrManyHandler
  import opened DatabaseManagers

  /** The hooks of a model that uses the trait and overrides none of its
      defaults: no tenancy name, scoping on, working without a tenant on. */
  function TraitHooks(relationshipName: string): (h: Hooks)
    ensures h.tenantRelationshipName == Some(relationshipName)
    ensures h.tenancyName == Some(None)
    ensures h.scopeToTenant == Some(true) && h.functionWithoutTenant == Some(true)
  {
    Hooks(Some(relationshipName), Some(true), Some(true), Some(None))
  }

  /** The trait's defaults override the base handler's false fallbacks, and
      its relationship name replaces the tenancy's name. */
  lemma TraitDefaultsOverrideBase(model: Model, tenancy: Tenancy, relationshipName: string)
    requires model.hooks == TraitHooks(relationshipName)
    ensures ShouldScopeToTenant(model) && ShouldFunctionWithoutTenant(model)
    ensures RelationName(model, tenancy) == relationshipName
  {
  }

  /** A model without the hooks gets the base handler's fallbacks. */
  lemma BaseFallbacks(model: Model, tenancy: Tenancy)
    requires model.hooks == Hooks(None, None, None, None)
    ensures !ShouldScopeToTenant(model) && !ShouldFunctionWithoutTenant(model)
    ensures RelationName(model, tenancy) == tenancy.name
  {
  }

  /** `IsTenantSpecific::$handler`: one slot per model class. */
  class HandlerSlot {
    var handler: Option<Handler>

    constructor ()
      ensures handler == None
    {
      handler := None;
    }

    /** `getTenantRelationshipHandler`: the slot's handler. Its return type
        is not nullable, so on an empty slot returning the null is a type
        error. */
    function Current(): (r: Result<Handler>)
      reads this
      ensures handler.Some? ==> r == Ok(handler.value)
      ensures handler.None? ==> r == Err(ReturnType("IsTenantSpecific", "getTenantRelationshipHandler"))
    {
      if handler.Some? then Ok(handler.value)
      else Err(ReturnType("IsTenantSpecific", "getTenantRelationshipHandler"))
    }
  }

  /** `handleModelBooted`: only while the slot is empty, the model must name
      its tenant relationship, and the manager's handler for it fills the
      slot; a failure leaves the slot empty. */
  method HandleModelBooted(slot: HandlerSlot, manager: TenantedDatabaseManager, model: Model, isInstance: InstanceOf)
    returns (thrown: Option<Failure>)
    modifies slot
    ensures old(slot.handler).Some? ==> thrown.None? && slot.handler == old(slot.handler)
    ensures old(slot.handler).None? && model.hooks.tenantRelationshipName.None? ==>
              thrown == Some(RelationMissingMethod(model.className, "getTenantRelationshipName")) && slot.handler.None?
    ensures old(slot.handler).None? && model.hooks.tenantRelationshipName.Some? ==>
              var r := RelationshipOutcome(manager.creators.creators, manager.relationshipHandlers, model,
                                           model.hooks.tenantRelationshipName.value, isInstance);
              (r.Ok? ==> thrown.None? && slot.handler == Some(r.value))
              && (r.Err? ==> thrown == Some(r.error) && slot.handler.None?)
  {
    if slot.handler.Some? {
      return None;
    }
    if model.hooks.tenantRelationshipName.None? {
      return Some(RelationMissingMethod(model.className, "getTenantRelationshipName"));
    }
    var r := manager.Relationship(model, model.hooks.tenantRelationshipName.value, isInstance);
    if r.Err? {
      return Some(r.error);
    }
    slot.handler := Some(r.value);
    thrown := None;
  }

  /** Booting a class twice resolves its handler once: `kept` is the
      handler after the first boot, and the second boot keeps it; afterwards
      the handler is there to be read. */
  method BootTwice(slot: HandlerSlot, manager: TenantedDatabaseManager, model: Model, isInstance: InstanceOf)
    returns (first: Option<Failure>, second: Option<Failure>, kept: Option<Handler>, read: Result<Handler>)
    modifies slot
    ensures first.None? ==> kept.Some?
    ensures kept.Some? ==> second.None? && slot.handler == kept && read == Ok(kept.value)
  {
    first := HandleModelBooted(slot, manager, model, isInstance);
    kept := slot.handler;
    second := HandleModelBooted(slot, manager, model, isInstance);
    read := slot.Current();
  }

  /** The tenancy lookup of the creating and retrieved hooks, as written:
      `tenancy($name)` is not a method of the tenanted manager, so once the
      model names its tenancy the call fails before any handler runs. */
  function TenancyLookup(model: Model): (thrown: Failure)
    ensures model.hooks.tenancyName.None? ==> thrown == RelationMissingMethod(model.className, "getTenancyName")
    ensures model.hooks.tenancyName.Some? ==> thrown == UndefinedMethod("Tenanted\\Core\\TenantedManager", "tenancy")
  {
    if model.hooks.tenancyName.None? then RelationMissingMethod(model.className, "getTenancyName")
    else UndefinedMethod("Tenanted\\Core\\TenantedManager", "tenancy")
  }

  /** `handleModelCreation`: the model must define `getTenancyName`, then
      the tenancy is looked up, which fails as written. */
  method HandleModelCreation(slot: HandlerSlot, model: Model) returns (thrown: Option<Failure>)
    ensures thrown == Some(TenancyLookup(model))
  {
    thrown := Some(TenancyLookup(model));
  }

  /** `handleModelRetrieval`: the same as creation. */
  method HandleModelRetrieval(slot: HandlerSlot, model: Model) returns (thrown: Option<Failure>)
    ensures thrown == Some(TenancyLookup(model))
  {
    thrown := Some(TenancyLookup(model));
  }

  /** The delegation the creating hook ends in, given its tenancy: the
      slot's handler populates the model. An empty slot is a call on null.
      A handler from outside the package is not part of this model and is
      taken to accept and change nothing. */
  method DelegateCreation(slot: HandlerSlot, model: Model, tenancy: Tenancy) returns (thrown: Option<Failure>)
    modifies model
    ensures slot.handler.None? ==> thrown == Some(UndefinedMethod("null", "populateForCreation"))
                                   && model.attributes == old(model.attributes) && model.loaded == old(model.loaded)
    ensures slot.handler.Some? && !slot.handler.value.BelongsToTenant? ==>
              thrown.None? && model.attributes == old(model.attributes) && model.loaded == old(model.loaded)
    ensures slot.handler == Some(BelongsToTenant) ==> BelongsToHandler.CreationOutcome(model, tenancy, thrown)
    ensures slot.handler == Some(BelongsToTenant) && thrown.None? && tenancy.Check() ==>
              BelongsToHandler.ValidateCurrentValue(RelationName(model, tenancy), model, tenancy).None?
  {
    match slot.handler
    case None =>
      thrown := Some(UndefinedMethod("null", "populateForCreation"));
    case Some(BelongsToTenant) =>
      thrown := BelongsToHandler.PopulateForCreation(model, tenancy);
    case Some(HasOneOrManyTenant) =>
      thrown := HasOneOrManyHandler.PopulateForCreation(model, tenancy);
    case Some(OtherHandler(_)) =>
      thrown := None;
  }

  /** The delegation the retrieved hook ends in, given its tenancy. */
  method DelegateRetrieval(slot: HandlerSlot, model: Model, tenancy: Tenancy) returns (thrown: Option<Failure>)
    modifies model`loaded
    ensures slot.handler.None? ==> thrown == Some(UndefinedMethod("null", "populateAfterRetrieval"))
                                   && model.loaded == old(model.loaded)
    ensures slot.handler.Some? && !slot.handler.value.BelongsToTenant? ==> thrown.None? && model.loaded == old(model.loaded)
    ensures slot.handler == Some(BelongsToTenant) ==> BelongsToHandler.RetrievalOutcome(model, tenancy, thrown)
  {
    match slot.handler
    case None =>
      thrown := Some(UndefinedMethod("null", "populateAfterRetrieval"));
    case Some(BelongsToTenant) =>
      thrown := BelongsToHandler.PopulateAfterRetrieval(model, tenancy);
    case Some(HasOneOrManyTenant) =>
      thrown := HasOneOrManyHandler.PopulateAfterRetrieval(model, tenancy);
    case Some(OtherHandler(_)) =>
      thrown := None;
  }
}
