// The part every registry shares: one process-wide table of custom
// creators, and the per-name configuration each registry reads.

module Creators {
  import opened Values
  import opened Providers
  import opened Resolvers

  /** What a custom creator hands back: a tenant provider, the description
      of a tenancy to build, an identity resolver, or anything else. */
  datatype Product =
    | MadeProvider(provider: Provider)
    | MadeTenancy(name: string, provider: Provider, options: Config)
    | MadeResolver(resolver: Resolver)
    | MadeOther

  /** A custom creator, called with the entry's configuration and its name. */
  type Creator = (Config, string) -> Product

  /** `BaseRegistry::$customCreators`: a single static map, so a creator
      registered once is seen by the provider, tenancy and resolver
      registries alike. */
  class CreatorTable {
    var creators: map<string, Creator>

    constructor ()
      ensures creators == map[]
    {
      creators := map[];
    }

    /** `register($name, $creator)`: set or overwrite the creator for
        `name`; no other name's creator changes. */
    method Register(name: string, creator: Creator)
      modifies this
      ensures creators == old(creators)[name := creator]
      ensures forall n :: n != name ==> (n in creators <==> n in old(creators))
      ensures forall n :: n != name && n in old(creators) ==> creators[n] == old(creators)[n]
    {
      creators := creators[name := creator];
    }
  }

  /** `$this->config->get($name, [])`: the entry's configuration array, or
      an empty one. */
  function ConfigFor(configs: map<string, Config>, name: string): (r: Config)
    ensures name in configs ==> r == configs[name]
    ensures name !in configs ==> r == map[]
  {
    if name in configs then configs[name] else map[]
  }

  /** The creator a lookup tries: under the exact name first, then under
      the configured driver. */
  datatype Tier = ByName | ByDriver(driver: string) | Builtin(driver: string) | Missing

  /** Which tier of provider or resolver construction applies to an entry
      that is not cached: a name creator, else a string driver is required,
      else a driver creator, else the built-in factory. */
  function StringDriverTier(creators: map<string, Creator>, name: string, config: Config): (t: Tier)
    ensures t == ByName <==> name in creators
    ensures t == Missing <==> name !in creators && StringAt(config, "driver").None?
    ensures t.ByDriver? ==> name !in creators && StringAt(config, "driver") == Some(t.driver) && t.driver in creators
    ensures t.Builtin? ==> name !in creators && StringAt(config, "driver") == Some(t.driver) && t.driver !in creators
  {
    if name in creators then ByName
    else match StringAt(config, "driver")
      case None => Missing
      case Some(driver) => if driver in creators then ByDriver(driver) else Builtin(driver)
  }
}
