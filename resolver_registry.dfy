// The identity resolver registry: builds each named resolver once, through
// a custom creator or a built-in factory, and caches it.

module ResolverRegistries {
  import opened Values
  import opened Resolvers
  import opened Creators

  /** `createPathResolver`: an int `segment`, else 0, and never below 0. */
  function CreatePathResolver(config: Config, name: string): (r: Resolver)
    ensures r.PathResolver? && r.name == name && r.segment >= 0
    ensures IsSet(config, "segment") && config["segment"].VInt? && config["segment"].i >= 0 ==>
              r.segment == config["segment"].i
    ensures !(IsSet(config, "segment") && config["segment"].VInt? && config["segment"].i > 0) ==> r.segment == 0
  {
    var segment := if IsSet(config, "segment") && config["segment"].VInt? then config["segment"].i else 0;
    PathResolver(name, if segment > 0 then segment else 0)
  }

  /** `createHeaderResolver`: a string `header` is required. */
  function CreateHeaderResolver(config: Config, name: string): (r: Result<Resolver>)
    ensures r.Err? <==> StringAt(config, "header").None?
    ensures r.Err? ==> r.error == ResolverMissingConfig(name, "header")
    ensures r.Ok? ==> r.value == HeaderResolver(name, StringAt(config, "header").value)
  {
    match StringAt(config, "header")
    case None => Err(ResolverMissingConfig(name, "header"))
    case Some(header) => Ok(HeaderResolver(name, header))
  }

  /** `createSubdomainResolver`: a string `domain` is required. */
  function CreateSubdomainResolver(config: Config, name: string): (r: Result<Resolver>)
    ensures r.Err? <==> StringAt(config, "domain").None?
    ensures r.Err? ==> r.error == ResolverMissingConfig(name, "domain")
    ensures r.Ok? ==> r.value == SubdomainResolver(name, StringAt(config, "domain").value)
  {
    match StringAt(config, "domain")
    case None => Err(ResolverMissingConfig(name, "domain"))
    case Some(domain) => Ok(SubdomainResolver(name, domain))
  }

  /** The built-in factory `create<Driver>Resolver`, found by
      case-insensitive method name: `path`, `header` and `subdomain`. */
  function BuiltinResolver(driver: string, config: Config, name: string): (r: Result<Resolver>)
    ensures AsciiLower(driver) == "path" ==> r == Ok(CreatePathResolver(config, name))
    ensures AsciiLower(driver) == "header" ==> r == CreateHeaderResolver(config, name)
    ensures AsciiLower(driver) == "subdomain" ==> r == CreateSubdomainResolver(config, name)
    ensures AsciiLower(driver) !in {"path", "header", "subdomain"} ==> r == Err(ResolverUnknown(name))
  {
    var d := AsciiLower(driver);
    if d == "path" then Ok(CreatePathResolver(config, name))
    else if d == "header" then CreateHeaderResolver(config, name)
    else if d == "subdomain" then CreateSubdomainResolver(config, name)
    else Err(ResolverUnknown(name))
  }

  /** A creator's product, accepted only when it is an identity resolver. */
  function AsResolver(p: Product, name: string): (r: Result<Resolver>)
    ensures r.Ok? <==> p.MadeResolver?
    ensures r.Ok? ==> r.value == p.resolver
    ensures r.Err? ==> r.error == ResolverUnknown(name)
  {
    if p.MadeResolver? then Ok(p.resolver) else Err(ResolverUnknown(name))
  }

  /** `get($name)` on a given cache and creator table. */
  function ResolverGet(instances: map<string, Resolver>, creators: map<string, Creator>,
                       configs: map<string, Config>, default: string, name: Option<string>): Result<Resolver>
  {
    var n := NameOr(name, default);
    if n in instances then Ok(instances[n])
    else
      var config := ConfigFor(configs, n);
      match StringDriverTier(creators, n, config)
      case ByName => AsResolver(creators[n](config, n), n)
      case Missing => Err(ResolverNoDriver(n))
      case ByDriver(driver) => AsResolver(creators[driver](config, n), n)
      case Builtin(driver) => BuiltinResolver(driver, config, n)
  }

  class ResolverRegistry {
    const creators: CreatorTable
    const configs: map<string, Config>
    const default: string
    var instances: map<string, Resolver>

    /** A new registry has nothing cached. */
    constructor (creators: CreatorTable, configs: map<string, Config>, default: string)
      ensures this.creators == creators && this.configs == configs && this.default == default
      ensures instances == map[]
    {
      this.creators := creators;
      this.configs := configs;
      this.default := default;
      instances := map[];
    }

    /** `get($name)`: the result of the tier algorithm; only a success is
        written to the cache, under the resolved name. */
    method Get(name: Option<string>) returns (r: Result<Resolver>)
      modifies this`instances
      ensures r == ResolverGet(old(instances), creators.creators, configs, default, name)
      ensures instances == if r.Ok? then old(instances)[NameOr(name, default) := r.value] else old(instances)
    {
      var n := if name.Some? then name.value else default;
      if n in instances {
        return Ok(instances[n]);
      }
      var config := ConfigFor(configs, n);
      var resolver: Product := MadeOther;
      if n in creators.creators {
        resolver := creators.creators[n](config, n);
      } else {
        var driver := StringAt(config, "driver");
        if driver.None? {
          return Err(ResolverNoDriver(n));
        }
        if driver.value in creators.creators {
          resolver := creators.creators[driver.value](config, n);
        } else {
          var d := AsciiLower(driver.value);
          if d == "path" {
            resolver := MadeResolver(CreatePathResolver(config, n));
          } else if d == "header" || d == "subdomain" {
            var built := if d == "header" then CreateHeaderResolver(config, n) else CreateSubdomainResolver(config, n);
            if built.Err? {
              return Err(built.error);
            }
            resolver := MadeResolver(built.value);
          }
        }
      }
      if resolver.MadeResolver? {
        instances := instances[n := resolver.resolver];
        return Ok(resolver.resolver);
      }
      return Err(ResolverUnknown(n));
    }
  }

  // Properties of the tier algorithm.

  /** Asking again after a success gives the same resolver back, and a
      cached resolver beats every creator. */
  lemma ResolverGetIdempotent(instances: map<string, Resolver>, creators: map<string, Creator>,
                              configs: map<string, Config>, default: string, name: Option<string>)
    requires ResolverGet(instances, creators, configs, default, name).Ok?
    ensures var r := ResolverGet(instances, creators, configs, default, name);
            ResolverGet(instances[NameOr(name, default) := r.value], creators, configs, default, name) == r
  {
  }

  /** With nothing cached and no name creator, the configuration's driver
      decides: none or a non-string one is `noDriver`; one with a creator
      uses the creator even when a built-in of that name exists. */
  lemma ResolverTierOrder(instances: map<string, Resolver>, creators: map<string, Creator>,
                          configs: map<string, Config>, default: string, name: Option<string>)
    requires NameOr(name, default) !in instances && NameOr(name, default) !in creators
    ensures var n := NameOr(name, default);
            var config := ConfigFor(configs, n);
            var r := ResolverGet(instances, creators, configs, default, name);
            (StringAt(config, "driver").None? ==> r == Err(ResolverNoDriver(n)))
            && (StringAt(config, "driver").Some? && StringAt(config, "driver").value in creators ==>
                  r == AsResolver(creators[StringAt(config, "driver").value](config, n), n))
  {
  }

  /** A name without upper-case ASCII letters is its own lower-case form. */
  lemma LowerCaseFixed(s: string)
    requires forall i :: 0 <= i < |s| ==> !('A' <= s[i] <= 'Z')
    ensures AsciiLower(s) == s
  {
  }

  /** The resolvers of the shipped configuration, each asked for by name
      (the shipped configuration names no default resolver): the `path`
      resolver reads segment 0, the `header` resolver reads
      `Tenant-Identifier`, and the `subdomain` resolver needs its domain (read
      from the environment) to be a string. */
  function ShippedResolverConfigs(domain: Value): map<string, Config>
  {
    map["subdomain" := map["driver" := VStr("subdomain"), "domain" := domain],
        "path" := map["driver" := VStr("path"), "segment" := VInt(0)],
        "header" := map["driver" := VStr("header"), "header" := VStr("Tenant-Identifier")]]
  }

  lemma ShippedPathResolver(creators: map<string, Creator>, domain: Value, default: string)
    requires "path" !in creators
    ensures ResolverGet(map[], creators, ShippedResolverConfigs(domain), default, Some("path")) == Ok(PathResolver("path", 0))
  {
    var config := ShippedResolverConfigs(domain)["path"];
    assert ConfigFor(ShippedResolverConfigs(domain), "path") == config;
    assert StringDriverTier(creators, "path", config) == Builtin("path");
    LowerCaseFixed("path");
    assert BuiltinResolver("path", config, "path") == Ok(CreatePathResolver(config, "path"));
  }

  lemma ShippedHeaderResolver(creators: map<string, Creator>, domain: Value, default: string)
    requires "header" !in creators
    ensures ResolverGet(map[], creators, ShippedResolverConfigs(domain), default, Some("header"))
            == Ok(HeaderResolver("header", "Tenant-Identifier"))
  {
    var config := ShippedResolverConfigs(domain)["header"];
    assert ConfigFor(ShippedResolverConfigs(domain), "header") == config;
    assert StringDriverTier(creators, "header", config) == Builtin("header");
    LowerCaseFixed("header");
    assert BuiltinResolver("header", config, "header") == CreateHeaderResolver(config, "header");
    assert StringAt(config, "header") == Some("Tenant-Identifier");
  }

  lemma ShippedSubdomainResolver(creators: map<string, Creator>, domain: Value, default: string)
    requires "subdomain" !in creators
    ensures domain.VStr? ==> ResolverGet(map[], creators, ShippedResolverConfigs(domain), default, Some("subdomain"))
                             == Ok(SubdomainResolver("subdomain", domain.s))
    ensures !domain.VStr? ==> ResolverGet(map[], creators, ShippedResolverConfigs(domain), default, Some("subdomain"))
                              == Err(ResolverMissingConfig("subdomain", "domain"))
  {
    var config := ShippedResolverConfigs(domain)["subdomain"];
    assert ConfigFor(ShippedResolverConfigs(domain), "subdomain") == config;
    assert StringAt(config, "driver") == Some("subdomain");
    assert StringDriverTier(creators, "subdomain", config) == Builtin("subdomain");
    LowerCaseFixed("subdomain");
    assert BuiltinResolver("subdomain", config, "subdomain") == CreateSubdomainResolver(config, "subdomain");
    if domain.VStr? {
      assert StringAt(config, "domain") == Some(domain.s);
    } else {
      assert StringAt(config, "domain") == None;
    }
  }
}
