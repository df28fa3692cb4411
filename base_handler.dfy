// The hooks every built-in relationship handler consults: each asks the
// model when it defines the hook and falls back otherwise.

module BaseHandler {
  import opened Values
  import opened Tenancies
  import opened Eloquent

  /** `getRelationName`: the model's tenant relationship name when it
      defines one, else the tenancy's name. */
  function RelationName(model: Model, tenancy: Tenancy): (r: string)
    ensures model.hooks.tenantRelationshipName.Some? ==> r == model.hooks.tenantRelationshipName.value
    ensures model.hooks.tenantRelationshipName.None? ==> r == tenancy.name
  {
    match model.hooks.tenantRelationshipName
    case Some(name) => name
    case None => tenancy.name
  }

  /** `shouldFunctionWithoutTenant`: the model's answer, else false. */
  function ShouldFunctionWithoutTenant(model: Model): (r: bool)
    ensures r <==> model.hooks.functionWithoutTenant == Some(true)
  {
    match model.hooks.functionWithoutTenant
    case Some(answer) => answer
    case None => false
  }

  /** `shouldScopeToTenant`: the model's answer, else false. */
  function ShouldScopeToTenant(model: Model): (r: bool)
    ensures r <==> model.hooks.scopeToTenant == Some(true)
  {
    match model.hooks.scopeToTenant
    case Some(answer) => answer
    case None => false
  }
}
