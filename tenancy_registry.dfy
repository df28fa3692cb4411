// The tenancy registry: builds each named tenancy once and caches it; the
// built-in tenancy takes its provider from the provider registry.

module TenancyRegistries {
  import opened Values
  import opened Providers
  import opened Creators
  import opened Tenancies
  import opened ProviderRegistries

  /** How an uncached tenancy is produced. */
  datatype TenancyStep =
    | FromCreator(product: Product)
    | BuiltinTenancy(provider: Option<string>, options: Config)
    | NoDriver

  /** The tier for an uncached tenancy. The name creator's entry is read
      without `isset`, so a name with no creator raises PHP's undefined-key
      warning, which Laravel turns into an exception; that runtime error is
      not modelled, and a missing entry is taken as falsy. Any set `driver`
      passes, string or not; a string driver with a creator uses it;
      otherwise a plain tenancy is built whatever the driver says. */
  function TenancyStepFor(creators: map<string, Creator>, configs: map<string, Config>, n: string): TenancyStep
  {
    var config := ConfigFor(configs, n);
    if n in creators then FromCreator(creators[n](config, n))
    else if !IsSet(config, "driver") then NoDriver
    else if config["driver"].VStr? && config["driver"].s in creators then
      FromCreator(creators[config["driver"].s](config, n))
    else BuiltinTenancy(StringAt(config, "provider"), ArrayOr(config, "options"))
  }

  /** A tenancy exactly as freshly built from a name, provider and options. */
  ghost predicate NewTenancy(t: Tenancy, name: string, provider: Provider, options: Config)
    reads t
  {
    t.name == name && t.provider == provider && t.options == options
    && t.tenant == null && t.identifiedBy == None && t.events == []
  }

  class TenancyRegistry {
    const creators: CreatorTable
    const configs: map<string, Config>
    const providers: ProviderRegistry
    const default: string
    var instances: map<string, Tenancy>

    /** A new registry has nothing cached. */
    constructor (creators: CreatorTable, configs: map<string, Config>, providers: ProviderRegistry, default: string)
      ensures this.creators == creators && this.configs == configs
      ensures this.providers == providers && this.default == default
      ensures instances == map[]
    {
      this.creators := creators;
      this.configs := configs;
      this.providers := providers;
      this.default := default;
      instances := map[];
    }

    /** `get($name)`. A cached tenancy is returned unchanged and nothing else
        happens. Otherwise the step decides: `noDriver`; a creator's
        product, which is `unknown` unless it describes a tenancy; or a
        plain tenancy over the provider registry's answer for the configured
        provider (the default provider when none is configured), whose
        failure propagates. Only a success is cached. */
    method Get(name: Option<string>) returns (r: Result<Tenancy>)
      modifies this`instances, providers`instances
      ensures var n := NameOr(name, default);
              n in old(instances) ==>
                r == Ok(old(instances)[n]) && instances == old(instances)
                && providers.instances == old(providers.instances)
      ensures var n := NameOr(name, default);
              n !in old(instances) && TenancyStepFor(creators.creators, configs, n).NoDriver? ==>
                r == Err(TenancyNoDriver(n)) && instances == old(instances)
                && providers.instances == old(providers.instances)
      ensures var n := NameOr(name, default);
              var step := TenancyStepFor(creators.creators, configs, n);
              n !in old(instances) && step.FromCreator? ==>
                providers.instances == old(providers.instances)
                && (step.product.MadeTenancy? ==>
                      r.Ok? && fresh(r.value)
                      && NewTenancy(r.value, step.product.name, step.product.provider, step.product.options)
                      && instances == old(instances)[n := r.value])
                && (!step.product.MadeTenancy? ==> r == Err(TenancyUnknown(n)) && instances == old(instances))
      ensures var n := NameOr(name, default);
              var step := TenancyStepFor(creators.creators, configs, n);
              n !in old(instances) && step.BuiltinTenancy? ==>
                var p := ProviderGet(old(providers.instances), providers.creators.creators, providers.configs,
                                     providers.default, providers.db, providers.models, step.provider);
                providers.instances == (if p.Ok? then old(providers.instances)[NameOr(step.provider, providers.default) := p.value]
                                        else old(providers.instances))
                && (p.Err? ==> r == Err(p.error) && instances == old(instances))
                && (p.Ok? ==> r.Ok? && fresh(r.value) && NewTenancy(r.value, n, p.value, step.options)
                              && instances == old(instances)[n := r.value])
    {
      var n := if name.Some? then name.value else default;
      if n in instances {
        return Ok(instances[n]);
      }
      var config := ConfigFor(configs, n);
      var product: Product;
      if n in creators.creators {
        product := creators.creators[n](config, n);
      } else {
        if !IsSet(config, "driver") {
          return Err(TenancyNoDriver(n));
        }
        var driver := config["driver"];
        if driver.VStr? && driver.s in creators.creators {
          product := creators.creators[driver.s](config, n);
        } else {
          var provider := providers.Get(StringAt(config, "provider"));
          if provider.Err? {
            return Err(provider.error);
          }
          product := MadeTenancy(n, provider.value, ArrayOr(config, "options"));
        }
      }
      if product.MadeTenancy? {
        var tenancy := new Tenancy(product.name, product.provider, product.options);
        instances := instances[n := tenancy];
        return Ok(tenancy);
      }
      return Err(TenancyUnknown(n));
    }
  }

  // Properties of the tier decision.

  /** A creator under the exact name is used before anything in the
      configuration is looked at. */
  lemma TenancyNameCreatorWins(creators: map<string, Creator>, configs: map<string, Config>, n: string)
    requires n in creators
    ensures TenancyStepFor(creators, configs, n) == FromCreator(creators[n](ConfigFor(configs, n), n))
  {
  }

  /** Without a name creator, `noDriver` arises exactly when `driver` is
      unset; a set driver of any type is accepted. */
  lemma TenancyNoDriverExactly(creators: map<string, Creator>, configs: map<string, Config>, n: string)
    requires n !in creators
    ensures TenancyStepFor(creators, configs, n).NoDriver? <==> !IsSet(ConfigFor(configs, n), "driver")
  {
  }

  /** A set driver without a creator of its own always yields the built-in
      tenancy, with the configured provider name (or none, meaning the
      default provider) and the configured options (or none). */
  lemma TenancyBuiltinWhateverDriver(creators: map<string, Creator>, configs: map<string, Config>, n: string)
    requires n !in creators && IsSet(ConfigFor(configs, n), "driver")
    requires !ConfigFor(configs, n)["driver"].VStr? || ConfigFor(configs, n)["driver"].s !in creators
    ensures TenancyStepFor(creators, configs, n)
            == BuiltinTenancy(StringAt(ConfigFor(configs, n), "provider"), ArrayOr(ConfigFor(configs, n), "options"))
  {
  }

  /** The tenancy configuration shipped with the package names no driver,
      so without a creator its `primary` tenancy is `noDriver`. */
  lemma ShippedPrimaryTenancyHasNoDriver(creators: map<string, Creator>)
    requires "primary" !in creators
    ensures TenancyStepFor(creators, map["primary" := map["provider" := VStr("tenants"), "options" := VArray(map[])]], "primary")
            == NoDriver
  {
  }
}
