// The tenant provider registry: builds each named provider once, through a
// custom creator or a built-in factory, and caches it.

module ProviderRegistries {
  import opened Values
  import opened Providers
  import opened Creators

  /** The database a provider reads: the rows of a table on a connection. */
  type Database = (Option<string>, string) -> Table

  const TenantContract := "Tenanted\\Core\\Contracts\\Tenant"
  const ModelBase := "Illuminate\\Database\\Eloquent\\Model"
  const GenericTenantClass := "Tenanted\\Core\\Support\\GenericTenant"

  /** `createEloquentProvider`: a string `model` naming a class that extends
      both the Tenant contract and the Eloquent model. */
  function CreateEloquentProvider(config: Config, name: string, models: map<string, ModelClass>): (r: Result<Provider>)
    ensures StringAt(config, "model").None? ==> r == Err(ProviderMissingConfig(name, "model"))
    ensures r.Ok? <==> StringAt(config, "model").Some? && StringAt(config, "model").value in models
                       && models[StringAt(config, "model").value].isTenant
                       && models[StringAt(config, "model").value].isModel
    ensures r.Err? && StringAt(config, "model").Some? ==>
              r == Err(ProviderInvalidClass(name, "model", [TenantContract, ModelBase]))
    ensures r.Ok? ==> r.value == EloquentProvider(name, models[StringAt(config, "model").value])
  {
    match StringAt(config, "model")
    case None => Err(ProviderMissingConfig(name, "model"))
    case Some(model) =>
      if model !in models || !models[model].isTenant || !models[model].isModel then
        Err(ProviderInvalidClass(name, "model", [TenantContract, ModelBase]))
      else Ok(EloquentProvider(name, models[model]))
  }

  /** `createDatabaseProvider`, as written: a string `table` is required, and
      the configured `identifier` (default `identifier`) lands in the
      constructor's key slot while `key` (default `id`) lands in its
      identifier slot. */
  function CreateDatabaseProvider(config: Config, name: string, db: Database): (r: Result<Provider>)
    ensures r.Err? <==> StringAt(config, "table").None?
    ensures r.Err? ==> r.error == ProviderMissingConfig(name, "table")
    ensures r.Ok? ==> r.value.DatabaseProvider? && r.value.name == name
                      && r.value.table == StringAt(config, "table").value
                      && r.value.keyColumn == StringOr(config, "identifier", "identifier")
                      && r.value.identifierColumn == StringOr(config, "key", "id")
                      && r.value.entity == StringOr(config, "entity", GenericTenantClass)
  {
    match StringAt(config, "table")
    case None => Err(ProviderMissingConfig(name, "table"))
    case Some(table) =>
      var connection := StringAt(config, "connection");
      Ok(DatabaseProvider(name, connection, table,
                          StringOr(config, "identifier", "identifier"),
                          StringOr(config, "key", "id"),
                          StringOr(config, "entity", GenericTenantClass),
                          db(connection, table)))
  }

  /** The built-in factory `create<Driver>Provider`; PHP finds methods by
      case-insensitive name, and only `database` and `eloquent` exist. */
  function BuiltinProvider(driver: string, config: Config, name: string, db: Database,
                           models: map<string, ModelClass>): (r: Result<Provider>)
    ensures AsciiLower(driver) == "database" ==> r == CreateDatabaseProvider(config, name, db)
    ensures AsciiLower(driver) == "eloquent" ==> r == CreateEloquentProvider(config, name, models)
    ensures AsciiLower(driver) != "database" && AsciiLower(driver) != "eloquent" ==> r == Err(ProviderUnknown(name))
  {
    if AsciiLower(driver) == "database" then CreateDatabaseProvider(config, name, db)
    else if AsciiLower(driver) == "eloquent" then CreateEloquentProvider(config, name, models)
    else Err(ProviderUnknown(name))
  }

  /** A creator's product, accepted only when it is a tenant provider. */
  function AsProvider(p: Product, name: string): (r: Result<Provider>)
    ensures r.Ok? <==> p.MadeProvider?
    ensures r.Ok? ==> r.value == p.provider
    ensures r.Err? ==> r.error == ProviderUnknown(name)
  {
    if p.MadeProvider? then Ok(p.provider) else Err(ProviderUnknown(name))
  }

  /** `get($name)` on a given cache and creator table. */
  function ProviderGet(instances: map<string, Provider>, creators: map<string, Creator>,
                       configs: map<string, Config>, default: string, db: Database,
                       models: map<string, ModelClass>, name: Option<string>): Result<Provider>
  {
    var n := NameOr(name, default);
    if n in instances then Ok(instances[n])
    else
      var config := ConfigFor(configs, n);
      match StringDriverTier(creators, n, config)
      case ByName => AsProvider(creators[n](config, n), n)
      case Missing => Err(ProviderNoDriver(n))
      case ByDriver(driver) => AsProvider(creators[driver](config, n), n)
      case Builtin(driver) => BuiltinProvider(driver, config, n, db, models)
  }

  class ProviderRegistry {
    const creators: CreatorTable
    const configs: map<string, Config>
    const default: string
    const db: Database
    const models: map<string, ModelClass>
    var instances: map<string, Provider>

    /** A new registry has nothing cached. */
    constructor (creators: CreatorTable, configs: map<string, Config>, default: string,
                 db: Database, models: map<string, ModelClass>)
      ensures this.creators == creators && this.configs == configs && this.default == default
      ensures this.db == db && this.models == models
      ensures instances == map[]
    {
      this.creators := creators;
      this.configs := configs;
      this.default := default;
      this.db := db;
      this.models := models;
      instances := map[];
    }

    /** `get($name)`: the result of the tier algorithm; only a success is
        written to the cache, under the resolved name. */
    method Get(name: Option<string>) returns (r: Result<Provider>)
      modifies this`instances
      ensures r == ProviderGet(old(instances), creators.creators, configs, default, db, models, name)
      ensures instances == if r.Ok? then old(instances)[NameOr(name, default) := r.value] else old(instances)
    {
      var n := if name.Some? then name.value else default;
      if n in instances {
        return Ok(instances[n]);
      }
      var config := ConfigFor(configs, n);
      var provider: Product := MadeOther;
      var built: Result<Provider> := Err(ProviderUnknown(n));
      if n in creators.creators {
        provider := creators.creators[n](config, n);
      } else {
        var driver := StringAt(config, "driver");
        if driver.None? {
          return Err(ProviderNoDriver(n));
        }
        if driver.value in creators.creators {
          provider := creators.creators[driver.value](config, n);
        } else if AsciiLower(driver.value) == "database" {
          built := CreateDatabaseProvider(config, n, db);
          if built.Err? {
            return built;
          }
          provider := MadeProvider(built.value);
        } else if AsciiLower(driver.value) == "eloquent" {
          built := CreateEloquentProvider(config, n, models);
          if built.Err? {
            return built;
          }
          provider := MadeProvider(built.value);
        }
      }
      if provider.MadeProvider? {
        instances := instances[n := provider.provider];
        return Ok(provider.provider);
      }
      return Err(ProviderUnknown(n));
    }
  }

  // Properties of the tier algorithm.

  /** A cached provider is returned as is, whatever the creators and the
      configuration say. */
  lemma CachedProviderWins(instances: map<string, Provider>, creators: map<string, Creator>,
                           configs: map<string, Config>, default: string, db: Database,
                           models: map<string, ModelClass>, name: Option<string>)
    requires NameOr(name, default) in instances
    ensures ProviderGet(instances, creators, configs, default, db, models, name)
            == Ok(instances[NameOr(name, default)])
  {
  }

  /** Asking again after a success gives the same provider back. */
  lemma ProviderGetIdempotent(instances: map<string, Provider>, creators: map<string, Creator>,
                              configs: map<string, Config>, default: string, db: Database,
                              models: map<string, ModelClass>, name: Option<string>)
    requires ProviderGet(instances, creators, configs, default, db, models, name).Ok?
    ensures var r := ProviderGet(instances, creators, configs, default, db, models, name);
            ProviderGet(instances[NameOr(name, default) := r.value], creators, configs, default, db, models, name) == r
  {
  }

  /** With nothing cached, a creator registered under the exact name decides
      the outcome alone; the driver is not looked at. */
  lemma NameCreatorWins(instances: map<string, Provider>, creators: map<string, Creator>,
                        configs: map<string, Config>, default: string, db: Database,
                        models: map<string, ModelClass>, name: Option<string>)
    requires NameOr(name, default) !in instances && NameOr(name, default) in creators
    ensures var n := NameOr(name, default);
            ProviderGet(instances, creators, configs, default, db, models, name)
            == AsProvider(creators[n](ConfigFor(configs, n), n), n)
  {
  }

  /** Without a name creator, a missing or non-string driver is `noDriver`. */
  lemma MissingDriverFails(instances: map<string, Provider>, creators: map<string, Creator>,
                           configs: map<string, Config>, default: string, db: Database,
                           models: map<string, ModelClass>, name: Option<string>)
    requires NameOr(name, default) !in instances && NameOr(name, default) !in creators
    requires StringAt(ConfigFor(configs, NameOr(name, default)), "driver").None?
    ensures ProviderGet(instances, creators, configs, default, db, models, name)
            == Err(ProviderNoDriver(NameOr(name, default)))
  {
  }

  /** A creator registered under the driver comes before the built-in
      factories, even for `database` and `eloquent`. */
  lemma DriverCreatorWins(instances: map<string, Provider>, creators: map<string, Creator>,
                          configs: map<string, Config>, default: string, db: Database,
                          models: map<string, ModelClass>, name: Option<string>, driver: string)
    requires NameOr(name, default) !in instances && NameOr(name, default) !in creators
    requires StringAt(ConfigFor(configs, NameOr(name, default)), "driver") == Some(driver)
    requires driver in creators
    ensures var n := NameOr(name, default);
            ProviderGet(instances, creators, configs, default, db, models, name)
            == AsProvider(creators[driver](ConfigFor(configs, n), n), n)
  {
  }

  /** Every outcome of an uncached lookup is one of: the creator's provider,
      a factory's provider, or one of the four failures the registry names. */
  lemma ProviderFailuresNamed(instances: map<string, Provider>, creators: map<string, Creator>,
                              configs: map<string, Config>, default: string, db: Database,
                              models: map<string, ModelClass>, name: Option<string>)
    ensures var n := NameOr(name, default);
            var r := ProviderGet(instances, creators, configs, default, db, models, name);
            r.Err? ==> r.error in {ProviderNoDriver(n), ProviderUnknown(n), ProviderMissingConfig(n, "table"),
                                   ProviderMissingConfig(n, "model"),
                                   ProviderInvalidClass(n, "model", [TenantContract, ModelBase])}
  {
  }

  /** A database provider configured with only a table, neither `key` nor
      `identifier`, looks tenants up by identifier in the `id` column and by
      key in the `identifier` column: the factory's defaults are crossed. */
  lemma DatabaseColumnsSwapped(name: string, table: string, db: Database)
    ensures var r := CreateDatabaseProvider(map["driver" := VStr("database"), "table" := VStr(table)], name, db);
            r.Ok? && KeyColumn(r.value) == "identifier" && IdentifierColumn(r.value) == "id"
  {
  }
}
