// The tenanted manager: owns the three registries, built lazily, remembers
// the current tenancy, and runs identification for a request.

module Manager {
  import opened Values
  import opened Tenants
  import opened Providers
  import opened Tenancies
  import opened Resolvers
  import opened Creators
  import opened ProviderRegistries
  import opened TenancyRegistries
  import opened ResolverRegistries

  /** The package configuration the manager reads its registries from. */
  datatype Settings = Settings(
    providers: map<string, Config>,
    tenancies: map<string, Config>,
    resolvers: map<string, Config>,
    defaultProvider: string,
    defaultTenancy: string,
    /** `defaults.resolver`, which the shipped configuration does not set. */
    defaultResolver: Option<string>,
    db: Database,
    models: map<string, ModelClass>)

  /** What the identification step leaves behind, given the tenancy's
      tenant, recorded resolver and events and the route's parameters before
      it: the route's parameters are those `ResolveSpec` gives; a falsy
      identifier means false with the tenancy untouched; a truthy one means
      exactly what the tenancy's `identify` does with it and the resolver's
      name. */
  ghost predicate IdentifiedWith(tenancy: Tenancy, tenant0: GenericTenant?, by0: Option<string>, events0: seq<Event>,
                                 resolver: Resolver, params0: Option<map<string, Value>>, request: Request,
                                 slug: string -> string, exclude: Option<(string, string) -> bool>, r: bool)
    reads tenancy, request.route
  {
    var out := ResolveSpec(resolver, params0, request, tenancy.name, slug, exclude);
    RouteParams(request) == out.1
    && (!Truthy(out.0) ==>
          !r && tenancy.tenant == tenant0 && tenancy.identifiedBy == by0 && tenancy.events == events0)
    && (Truthy(out.0) ==> Identified(tenancy, tenant0, by0, events0, out.0.identifier, resolver.name, r))
  }

  /** A true result means the tenancy was identified by that resolver. */
  lemma IdentifiedWithTrue(tenancy: Tenancy, tenant0: GenericTenant?, by0: Option<string>, events0: seq<Event>,
                           resolver: Resolver, params0: Option<map<string, Value>>, request: Request,
                           slug: string -> string, exclude: Option<(string, string) -> bool>)
    requires IdentifiedWith(tenancy, tenant0, by0, events0, resolver, params0, request, slug, exclude, true)
    ensures tenancy.WasIdentified() && tenancy.identifiedBy == Some(resolver.name)
    ensures Truthy(ResolveSpec(resolver, params0, request, tenancy.name, slug, exclude).0)
  {
    var out := ResolveSpec(resolver, params0, request, tenancy.name, slug, exclude);
    IdentifyReportsChange(tenancy, tenant0, by0, events0, out.0.identifier, resolver.name, true);
  }

  /** The resolution and identification step of `identify`, once the
      tenancy and the resolver are known. */
  method IdentifyWith(tenancy: Tenancy, resolver: Resolver, request: Request, slug: string -> string, exclusion: Exclusion)
    returns (r: bool)
    modifies tenancy`tenant, tenancy`identifiedBy, tenancy`events, request.route
    ensures IdentifiedWith(tenancy, old(tenancy.tenant), old(tenancy.identifiedBy), old(tenancy.events),
                           resolver, old(RouteParams(request)), request, slug, exclusion.current, r)
  {
    var identifier := Resolve(resolver, request, tenancy.name, slug, exclusion);
    if Truthy(identifier) {
      r := tenancy.Identify(identifier.identifier, resolver.name);
    } else {
      r := false;
    }
  }

  class TenantedManager {
    const creators: CreatorTable
    const settings: Settings
    const slug: string -> string
    const exclusion: Exclusion
    /** The registries; null while not yet built or injected. */
    var providers: ProviderRegistry?
    var tenancies: TenancyRegistry?
    var resolvers: ResolverRegistry?
    /** The current tenancy; null until identification sets it. */
    var currentTenancy: Tenancy?

    /** The objects identifying with the named tenancy may change: the
        manager, its registries and, of the cached tenancies, only the one
        cached under that name. Every other cached tenancy is left alone. */
    ghost function Footprint(tenancyName: Option<string>): set<object>
      reads this, tenancies
    {
      {this} + (if providers == null then {} else {providers})
      + (if resolvers == null then {} else {resolvers})
      + (if tenancies == null then {}
         else {tenancies, tenancies.providers}
              + var n := NameOr(tenancyName, tenancies.default);
                if n in tenancies.instances then {tenancies.instances[n]} else {})
    }

    /** Registries passed in are used as they are; the others stay unset. */
    constructor (creators: CreatorTable, settings: Settings, slug: string -> string, exclusion: Exclusion,
                 providers: ProviderRegistry?, tenancies: TenancyRegistry?, resolvers: ResolverRegistry?)
      ensures this.creators == creators && this.settings == settings
      ensures this.slug == slug && this.exclusion == exclusion
      ensures this.providers == providers && this.tenancies == tenancies && this.resolvers == resolvers
      ensures currentTenancy == null
    {
      this.creators := creators;
      this.settings := settings;
      this.slug := slug;
      this.exclusion := exclusion;
      this.providers := providers;
      this.tenancies := tenancies;
      this.resolvers := resolvers;
      currentTenancy := null;
    }

    /** `providers()`: built on first use from the `providers` section and
        the default provider name, then the same registry every time. */
    method Providers() returns (p: ProviderRegistry)
      modifies this`providers
      ensures providers == p
      ensures old(providers) != null ==> p == old(providers)
      ensures old(providers) == null ==>
                fresh(p) && p.instances == map[] && p.creators == creators
                && p.configs == settings.providers && p.default == settings.defaultProvider
                && p.db == settings.db && p.models == settings.models
    {
      if providers == null {
        providers := new ProviderRegistry(creators, settings.providers, settings.defaultProvider,
                                          settings.db, settings.models);
      }
      p := providers;
    }

    /** `tenancies()`: built on first use over `providers()`, then the
        same registry every time. */
    method Tenancies() returns (t: TenancyRegistry)
      modifies this`providers, this`tenancies
      ensures tenancies == t
      ensures old(tenancies) != null ==> t == old(tenancies) && providers == old(providers)
      ensures old(tenancies) == null ==>
                fresh(t) && t.instances == map[] && t.creators == creators
                && t.configs == settings.tenancies && t.default == settings.defaultTenancy
                && t.providers == providers
                && (old(providers) != null ==> providers == old(providers))
                && (old(providers) == null ==> fresh(providers))
    {
      if tenancies == null {
        var p := Providers();
        tenancies := new TenancyRegistry(creators, settings.tenancies, p, settings.defaultTenancy);
      }
      t := tenancies;
    }

    /** `resolvers()`, as written: the registry is built only while the
        tenancies field is unset, and building it with an unset
        `defaults.resolver` is a type error for its string parameter. Once
        tenancies exist, the resolvers field is returned as it stands, and
        reading it unset is PHP's uninitialised-property error. */
    method Resolvers() returns (r: Result<ResolverRegistry>)
      modifies this`resolvers
      ensures old(tenancies) == null && settings.defaultResolver.None? ==>
                r == Err(ArgumentType("ResolverRegistry", "default")) && resolvers == old(resolvers)
      ensures old(tenancies) == null && settings.defaultResolver.Some? ==>
                r.Ok? && fresh(r.value) && resolvers == r.value && r.value.instances == map[]
                && r.value.creators == creators && r.value.configs == settings.resolvers
                && r.value.default == settings.defaultResolver.value
      ensures old(tenancies) != null ==>
                resolvers == old(resolvers)
                && (old(resolvers) == null ==> r == Err(Uninitialised("TenantedManager", "resolvers")))
                && (old(resolvers) != null ==> r.Ok? && r.value == old(resolvers))
    {
      if tenancies == null {
        if settings.defaultResolver.None? {
          return Err(ArgumentType("ResolverRegistry", "default"));
        }
        resolvers := new ResolverRegistry(creators, settings.resolvers, settings.defaultResolver.value);
      }
      if resolvers == null {
        return Err(Uninitialised("TenantedManager", "resolvers"));
      }
      return Ok(resolvers);
    }

    /** `setCurrentTenancy($tenancy)`. */
    method SetCurrentTenancy(t: Tenancy?)
      modifies this`currentTenancy
      ensures currentTenancy == t
    {
      currentTenancy := t;  // `setCurrentTenancy($tenancy)`
    }

    /** `currentTenancy()`. */
    function CurrentTenancy(): (r: Tenancy?)
      reads this
      ensures r == currentTenancy
    {
      currentTenancy
    }

    /** The first step of `identify`: `tenancies()->get($name)`. On success
        the tenancy is the one cached under the resolved name: the one
        already cached there, or a new one in its initial state. */
    method TenancyFor(name: Option<string>) returns (r: Result<Tenancy>)
      modifies this`providers, this`tenancies, if providers == null then {} else {providers},
               if tenancies == null then {} else {tenancies, tenancies.providers}
      ensures tenancies != null
      ensures old(tenancies) != null ==> tenancies == old(tenancies)
      ensures old(tenancies) == null ==> fresh(tenancies)
      ensures var n := NameOr(name, tenancies.default);
              (r.Ok? <==> n in tenancies.instances) && (r.Ok? ==> r.value == tenancies.instances[n])
              && (old(tenancies) != null && n in old(tenancies.instances) ==> r == Ok(old(tenancies.instances[n])))
              && (r.Ok? && !(old(tenancies) != null && n in old(tenancies.instances)) ==>
                    fresh(r.value) && State(r.value) == Initial)
    ensures old(providers) != null ==> providers == old(providers)
    ensures var n := NameOr(name, tenancies.default);
            var cache0 := if old(tenancies) != null then old(tenancies.instances) else map[];
            tenancies.instances == cache0 || (n !in cache0 && r.Ok? && tenancies.instances == cache0[n := r.value])
    ensures resolvers == old(resolvers) && (resolvers != null ==> resolvers.instances == old(resolvers.instances))
    {
      var registry := Tenancies();
      r := registry.Get(name);
      if r.Ok? {
        assert registry.instances[NameOr(name, registry.default)] == r.value;
      }
    }

    /** `identify($request, $tenancy, $resolver)`: see `IdentifyOutcome`. */
    method Identify(request: Request, tenancyName: Option<string>, resolverName: Option<string>)
      returns (r: Result<bool>)
      modifies Footprint(tenancyName), request.route
      ensures IdentifyOutcome(this, request, tenancyName, resolverName, r)
      ensures IdentifyKeeps(this, tenancyName, resolverName, r)
    {
      var tenancy := TenancyFor(tenancyName);
      if tenancy.Err? {
        return Err(tenancy.error);
      }
      ghost var n := NameOr(tenancyName, tenancies.default);
      r := IdentifyIn(tenancy.value, request, resolverName,
                      if old(tenancies) != null && n in old(tenancies.instances) then old(State(tenancies.instances[n]))
                      else Initial,
                      old(RouteParams(request)));
      assert n in tenancies.instances;
    }

    /** The rest of `identify` once the tenancy is known and the tenancies
        registry exists: make it current, fetch the resolver, then run the
        identification step with it. `before` and `params0` name the tenancy's state and the
        route's parameters on entry. */
    method IdentifyIn(tenancy: Tenancy, request: Request, resolverName: Option<string>,
                      ghost before: (GenericTenant?, Option<string>, seq<Event>), ghost params0: Option<map<string, Value>>)
      returns (r: Result<bool>)
      requires tenancies != null
      requires State(tenancy) == before && RouteParams(request) == params0
      modifies this`currentTenancy, this`resolvers, if resolvers == null then {} else {resolvers},
               tenancy`tenant, tenancy`identifiedBy, tenancy`events, request.route
      ensures currentTenancy == tenancy
      ensures providers == old(providers) && tenancies.instances == old(tenancies.instances)
      ensures resolvers == old(resolvers)
      ensures old(resolvers) == null ==> r == Err(Uninitialised("TenantedManager", "resolvers"))
      ensures r.Err? ==> State(tenancy) == before && RouteParams(request) == params0
      ensures resolvers != null ==>
                var rn := NameOr(resolverName, resolvers.default);
                resolvers.instances == old(resolvers.instances)
                || (r.Ok? && rn in resolvers.instances
                    && resolvers.instances == old(resolvers.instances)[rn := resolvers.instances[rn]])
      ensures r.Ok? ==>
                resolvers != null && NameOr(resolverName, resolvers.default) in resolvers.instances
                && IdentifiedWith(tenancy, before.0, before.1, before.2,
                                  resolvers.instances[NameOr(resolverName, resolvers.default)],
                                  params0, request, slug, exclusion.current, r.value)
    {
      currentTenancy := tenancy;  // `setCurrentTenancy($tenancy)`
      var resolverRegistry := Resolvers();
      if resolverRegistry.Err? {
        return Err(resolverRegistry.error);
      }
      var resolver := resolverRegistry.value.Get(resolverName);
      if resolver.Err? {
        return Err(resolver.error);
      }
      var identified := IdentifyWith(tenancy, resolver.value, request, slug, exclusion);
      return Ok(identified);
    }
  }

  /** What `identify($request, $tenancy, $resolver)` promises. The tenancy
      registry exists afterwards (the same one, if it existed), and the
      named tenancy (or the default one) is made current before anything
      else can fail; when it cannot be had, the call fails with the current
      tenancy unchanged. A manager that never had a resolver registry fails.
      On success the named resolver (or the default one) is cached, and the
      identification step ran with it on the current tenancy, starting from
      the state that tenancy had if it was already cached, or from a new
      tenancy's initial state. A failure leaves that tenancy in that state
      and the route's parameters alone. Nothing else changes: see
      `IdentifyKeeps`. */
  twostate predicate IdentifyOutcome(m: TenantedManager, request: Request, tenancyName: Option<string>,
                                     resolverName: Option<string>, new r: Result<bool>)
    reads m, m.tenancies, m.resolvers, m.currentTenancy, m.exclusion, request.route
    reads if m.tenancies == null then {} else m.tenancies.instances.Values
  {
    m.tenancies != null
    && (old(m.tenancies) != null ==> m.tenancies == old(m.tenancies))
    && (old(m.resolvers) == null ==> r.Err?)
    && var n := NameOr(tenancyName, m.tenancies.default);
       var cache0 := if old(m.tenancies) != null then old(m.tenancies.instances) else map[];
       var before := if n in cache0 then old(State(cache0[n])) else Initial;
       (n in m.tenancies.instances ==> m.currentTenancy == m.tenancies.instances[n])
       && (n !in m.tenancies.instances ==> r.Err? && m.currentTenancy == old(m.currentTenancy))
       && (r.Err? ==> RouteParams(request) == old(RouteParams(request))
                      && (n in m.tenancies.instances ==> State(m.currentTenancy) == before))
       && (r.Ok? ==>
             m.resolvers != null && m.currentTenancy != null
             && NameOr(resolverName, m.resolvers.default) in m.resolvers.instances
             && IdentifiedWith(m.currentTenancy, before.0, before.1, before.2,
                               m.resolvers.instances[NameOr(resolverName, m.resolvers.default)],
                               old(RouteParams(request)), request, m.slug, m.exclusion.current, r.value))
  }

  /** What `identify` leaves alone besides the frame `Footprint`: the
      resolver registry is never replaced, nor an existing provider
      registry, and the tenancy and resolver caches keep every entry and
      gain at most the one asked for. */
  twostate predicate IdentifyKeeps(m: TenantedManager, tenancyName: Option<string>, resolverName: Option<string>,
                                   new r: Result<bool>)
    reads m, m.tenancies, m.resolvers
  {
    m.tenancies != null
    && m.resolvers == old(m.resolvers)
    && (old(m.providers) != null ==> m.providers == old(m.providers))
    && var n := NameOr(tenancyName, m.tenancies.default);
       var cache0 := if old(m.tenancies) != null then old(m.tenancies.instances) else map[];
       (m.tenancies.instances == cache0
        || (n !in cache0 && n in m.tenancies.instances && m.tenancies.instances == cache0[n := m.tenancies.instances[n]]))
       && (m.resolvers != null ==>
             var rn := NameOr(resolverName, m.resolvers.default);
             m.resolvers.instances == old(m.resolvers.instances)
             || (r.Ok? && rn in m.resolvers.instances
                 && m.resolvers.instances == old(m.resolvers.instances)[rn := m.resolvers.instances[rn]]))
  }

  /** With the current tenancy starting as null, a new manager answers null
      until a tenancy is set. */
  method NewManagerHasNoCurrentTenancy(creators: CreatorTable, settings: Settings, slug: string -> string,
                                       exclusion: Exclusion)
    returns (r: Tenancy?)
    ensures r == null
  {
    var m := new TenantedManager(creators, settings, slug, exclusion, null, null, null);
    r := m.CurrentTenancy();
  }

  /** `setCurrentTenancy` followed by `currentTenancy` gives the tenancy back. */
  method CurrentTenancyRoundTrip(m: TenantedManager, t: Tenancy?) returns (back: Tenancy?)
    modifies m`currentTenancy
    ensures back == t
  {
    m.SetCurrentTenancy(t);
    back := m.CurrentTenancy();
  }
}
