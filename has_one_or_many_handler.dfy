// The has-one-or-many relationship handler: every operation is an
// unfinished stub that accepts and changes nothing.

module HasOneOrManyHandler {
  import opened Values
  import opened Tenancies
  import opened Eloquent

  /** `populateForCreation`: does nothing, with or without a tenant. */
  method PopulateForCreation(model: Model, tenancy: Tenancy) returns (thrown: Option<Failure>)
    ensures thrown.None?
  {
    thrown := None;
  }

  /** `populateAfterRetrieval`: does nothing, with or without a tenant. */
  method PopulateAfterRetrieval(model: Model, tenancy: Tenancy) returns (thrown: Option<Failure>)
    ensures thrown.None?
  {
    thrown := None;
  }

  /** `scopeForQuery`: the builder comes back with no filter added. */
  method ScopeForQuery(model: Model, tenancy: Tenancy, builder: Builder) returns (r: Result<Builder>)
    ensures r == Ok(builder)
  {
    r := Ok(builder);
  }
}
