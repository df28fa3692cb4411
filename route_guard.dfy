// The tenanted-route middleware: a route marked with it demands a current
// tenant, and one identified by the marker's resolver unless it was loaded.

module RouteGuard {
  import opened Values
  import opened Tenancies
  import opened Resolvers
  import opened ResolverRegistries
  import opened Manager

  /** The middleware's alias, which also opens every route marker. */
  const Alias := "tenanted.route"

  /** The decision of `handle` once the tenancy and resolver are known:
      `None` passes the request on, `Some` is the exception thrown. */
  function Guard(t: Tenancy, resolver: string): (thrown: Option<Failure>)
    reads t
    ensures thrown.None? <==> t.Check() && (t.WasLoaded() || t.identifiedBy == Some(resolver))
    ensures !t.Check() ==> thrown == Some(TenantMissing(t.name, resolver))
    ensures t.Check() && thrown.Some? ==> thrown == Some(TenantInvalidResolver(t.name, resolver))
  {
    if !t.Check() then Some(TenantMissing(t.name, resolver))
    else if t.WasIdentified() && t.identifiedBy != Some(resolver) then Some(TenantInvalidResolver(t.name, resolver))
    else None
  }

  /** A tenant loaded by key passes whatever resolver the route names. */
  lemma LoadedTenantPasses(t: Tenancy, resolver: string)
    requires t.WasLoaded()
    ensures Guard(t, resolver) == None
  {
  }

  /** A tenant identified by one resolver is refused on a route that names
      another, and accepted on one that names it. */
  lemma IdentifiedTenantNeedsItsResolver(t: Tenancy, resolver: string)
    requires t.WasIdentified()
    ensures Guard(t, resolver) == None <==> t.identifiedBy == Some(resolver)
  {
  }

  /** After the tenant is cleared the guard refuses, even though the
      resolver that identified the previous tenant is still recorded. */
  lemma ClearedTenantRefused(t: Tenancy, resolver: string)
    requires t.tenant == null && t.identifiedBy == Some(resolver)
    ensures Guard(t, resolver) == Some(TenantMissing(t.name, resolver))
  {
  }

  /** `handle($request, $next, $tenancy, $resolver)`: fetch the tenancy and
      the resolver, then apply the guard. It changes no tenancy: only the
      registries' caches may grow. As written, `resolvers()` is reached after
      `tenancies()`, so a manager built without a resolver registry always
      throws here. */
  method Handle(m: TenantedManager, tenancyName: Option<string>, resolverName: Option<string>)
    returns (thrown: Option<Failure>)
    modifies m`providers, m`tenancies, m`resolvers,
             if m.providers == null then {} else {m.providers},
             if m.tenancies == null then {} else {m.tenancies, m.tenancies.providers},
             if m.resolvers == null then {} else {m.resolvers}
    ensures m.tenancies != null
    ensures old(m.resolvers) == null ==> thrown.Some?
    ensures var n := NameOr(tenancyName, m.tenancies.default);
            (n !in m.tenancies.instances ==> thrown.Some?)
            && (m.resolvers == null || NameOr(resolverName, m.resolvers.default) !in m.resolvers.instances ==> thrown.Some?)
            && (n in m.tenancies.instances && m.resolvers != null
                && NameOr(resolverName, m.resolvers.default) in m.resolvers.instances ==>
                  thrown == Guard(m.tenancies.instances[n], m.resolvers.instances[NameOr(resolverName, m.resolvers.default)].name))
  {
    var tenancy := m.TenancyFor(tenancyName);
    if tenancy.Err? {
      return Some(tenancy.error);
    }
    var registry := m.Resolvers();
    if registry.Err? {
      return Some(registry.error);
    }
    var resolver := registry.value.Get(resolverName);
    if resolver.Err? {
      return Some(resolver.error);
    }
    thrown := Guard(tenancy.value, resolver.value.name);
  }
}
