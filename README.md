# tenanted, modelled in Dafny

This project models the core of `tenanted`, a multi-tenancy package for
Laravel. It also proves properties of that model.

A *tenancy* is a named slot that holds the current tenant. It looks tenants
up through a *tenant provider*, which is a table of rows or an Eloquent
model. An *identity resolver* reads a tenant identifier out of an HTTP
request, from one of these places:
- a route parameter;
- a header;
- a path segment;
- the host's subdomain.

The model covers these parts:
- **Registries.** The three registries build providers, tenancies and
  resolvers by name:
  - from a cache;
  - else a custom creator registered under the name;
  - else a `driver` entry, then a creator registered under the driver;
  - else a built-in factory.
- **The tenanted manager.** It builds the registries lazily, remembers the
  current tenancy, and runs identification for a request.
- **The `tenanted.route` middleware guard.**
- **The route-matched listener.** It finds a route's
  `tenanted.route:<tenancy>,<resolver>` marker and parses it.
- **The tenant-ownership layer for Eloquent models:**
  - the base handler's hooks;
  - the belongs-to handler, which validates, populates and scopes;
  - the has-one-or-many stub;
  - handler selection by relation shape;
  - the trait that caches one handler per model class.

## Layout

| file | module | what it holds |
|---|---|---|
| `values.dfy` | `Values` | PHP values and configuration arrays as data, the few PHP idioms the code relies on (`isset`, `??`, case-insensitive method names), and one `Failure` constructor per exception the package throws |
| `tenants.dfy` | `Tenants` | `GenericTenant`, a read-only attribute bag |
| `providers.dfy` | `Providers` | database and Eloquent providers, which wrap the first matching row in a new tenant entity, and providers from outside the package |
| `tenancy.dfy` | `Tenancies` | the `Tenancy` class: `setTenant`, `identify` and `load`, with a ghost log of dispatched events |
| `typed_properties.dfy` | `TypedProperties` | `Tenancy` and the manager's current tenancy with their typed properties as declared, uninitialised until first assigned |
| `creators.dfy` | `Creators` | the process-wide creator table every registry shares, and the tier decision |
| `provider_registry.dfy` | `ProviderRegistries` | the provider registry and its two factories |
| `tenancy_registry.dfy` | `TenancyRegistries` | the tenancy registry |
| `resolvers.dfy` | `Resolvers` | the request and route, and the three resolvers' `resolve`, `setup` and route strings |
| `resolver_registry.dfy` | `ResolverRegistries` | the resolver registry and its three factories |
| `manager.dfy` | `Manager` | `TenantedManager` |
| `route_guard.dfy` | `RouteGuard` | the `tenanted.route` middleware |
| `listener.dfy` | `Listener` | the route-matched listener: marker search and option parsing |
| `eloquent.dfy` | `Eloquent` | the parts of a model and a query builder the handlers touch |
| `base_handler.dfy` | `BaseHandler` | the hook-or-default queries |
| `belongs_to_handler.dfy` | `BelongsToHandler` | the belongs-to relationship handler |
| `has_one_or_many_handler.dfy` | `HasOneOrManyHandler` | the has-one-or-many stub |
| `database_manager.dfy` | `DatabaseManagers` | relationship-handler selection |
| `tenant_specific.dfy` | `TenantSpecific` | the tenant-specific model trait |

## Modelling choices

- **State.** A class stands for each object whose fields the PHP code
  updates. These are `Tenancy`, the registries and their `instances`
  caches, the creator tables, `TenantedManager`, the route, the URL
  defaults, the exclusion predicate, models, query builders and the
  per-class handler slot. Providers, resolvers and configuration are values.
- **Tenant identity.** Tenants are objects, because `setTenant` compares
  them with `!==`. For objects that operator tests identity. The database
  and Eloquent providers build a new entity on every lookup, so with them a
  successful `identify` or `load` always reports a change.
- **Providers from outside the package.** A tenancy accepts any
  `TenantProvider`. Such a provider is modelled by two fixed answer
  functions, one per lookup, from the identifier or key to a tenant object
  or null. That object may already exist, the current tenant included.
  Then `identify` and `load` still dispatch their event, `setTenant` sees
  no change, and the result is false.
- **Exceptions.** A thrown exception is an `Err(...)` result, or a
  `Some(...)` "thrown" result, carrying the `Failure` the PHP factory
  builds.
- **Uninitialised properties.** `Tenancy::$tenant`, `Tenancy::$identifiedBy`,
  `TenantedManager::$currentTenancy` and the manager's registry fields have
  no initial value in PHP. `Tenancies.Tenancy` and `Manager.TenantedManager`
  start the first three as `null`, which is what their nullable types and
  `check()` intend. `TypedProperties` models them as declared, and
  "Findings" below says what that does.
- **Strict return types.** The tenant class declares `strict_types=1`, so
  `getTenantIdentifier(): string` and `getTenantKey(): string|int` throw a
  `TypeError` for an absent attribute (read as null) or one of another
  type. `Tenants.StringReturn` and `Tenants.KeyReturn` model those returns
  as `Err(ReturnType("GenericTenant", ...))`, and every caller passes the
  error on: the tenancy's `identifier()`/`key()`, the parameter resolvers'
  `setup`, and the belongs-to handler's validation, creation, retrieval and
  query scoping.
- **The tenant's own property reads.** Inside `GenericTenant`,
  `$this->{$name}` reads the declared private property of that name, so
  the names `attributes`, `key` and `identifier` never reach `__get`.
  `Tenants.GenericTenant.TenantIdentifierAsWritten` and
  `TenantKeyAsWritten` model that, and `TypedProperties.DeclaredTenancy`
  uses them. The rest of the model uses the intended attribute read,
  `TenantIdentifier` and `TenantKey`: "Findings" gives both halves.
- **Reading an unset resolvers field.** Reading a typed property that was
  never set is an error in PHP. `TenantedManager.Resolvers` models it as
  `Err(Uninitialised(...))`.
- **No default resolver.** The shipped configuration sets
  `defaults.provider` and `defaults.tenancy` but not `defaults.resolver`.
  `resolvers()` passes that null to the registry's string-typed `$default`
  parameter, which is a `TypeError`. `TenantedManager.Resolvers` models it
  as `Err(ArgumentType("ResolverRegistry", "default"))`, and the shipped
  resolver lemmas ask for each resolver by name.
- **Case-insensitive lookup.** PHP looks up method names case-insensitively.
  So a built-in factory is chosen when the ASCII lower-case form of the
  driver names it. `DATABASE` finds `createDatabaseProvider`.
- **Helpers as parameters.** Laravel's helpers and the things the code
  reaches through the container are parameters:
  - `Str::slug` is a function `string -> string`;
  - `Request::segment` is a function on the request;
  - the database is a function from connection and table to rows;
  - the Eloquent relation hierarchy is an is-instance-of relation;
  - the process-wide exclusion predicate is an object passed in.

### Behaviours kept as written

These look unintended, but they are what the code does. The members named
below state them.

- **Crossed column defaults.** `createDatabaseProvider` passes the
  configured `identifier` into the provider constructor's key slot, and
  `key` into its identifier slot. With the defaults, lookups by identifier
  use the `id` column and lookups by key use the `identifier` column. See
  `ProviderRegistries.CreateDatabaseProvider` and
  `ProviderRegistries.DatabaseColumnsSwapped`.
- **The resolvers guard.** `TenantedManager::resolvers()` builds its
  registry only while `$this->tenancies` is unset. `identify` and the route
  guard always fetch the tenancies first, so the resolver registry must
  have been passed to the constructor. Otherwise both fail. See
  `Manager.TenantedManager.Resolvers`, `Manager.TenantedManager.Identify`
  and `RouteGuard.Handle`.
- **The handler cache is never filled.** `createRelationshipHandler`
  returns a cached handler, but nothing ever writes to that cache. In every
  other case it builds a handler, discards it and throws
  `unknownRelationship`. Only custom creators can produce a handler. See
  `DatabaseManagers.TenantedDatabaseManager.CreateRelationshipHandler` and
  `DatabaseManagers.OnlyCreatorsYieldHandlers`.
- **Strict foreign-key comparison.** The belongs-to validation uses `!==`.
  An unset foreign key is refused. So is the string `"7"` against the key
  `7`. See `BelongsToHandler.MissingForeignKeyRefused` and
  `BelongsToHandler.StringKeyRefused`.
- **A missing manager method.** The trait's creating and retrieved hooks
  call `tenancy()` on the tenanted manager, which has no such method. Once
  a model names its tenancy, the hooks fail before any handler runs. See
  `TenantSpecific.TenancyLookup`. `TenantSpecific.DelegateCreation` and
  `TenantSpecific.DelegateRetrieval` model the delegation the hooks would
  perform. They take the tenancy as a parameter.
- **Identification without a marker.** The listener calls `identify` for
  every matched route, with the default tenancy and resolver when the route
  has no marker. See `Listener.HandleRouteMatched`.
- **Uninitialised tenant and current tenancy.** `Tenancy::$tenant`,
  `Tenancy::$identifiedBy` and `TenantedManager::$currentTenancy` are
  declared without a default, so reading one before it is assigned is an
  error. `TypedProperties` models this as declared. Each `DeclaredTenancy`
  method leaves an unset tenant unset, so a tenancy built as the registry
  builds it never obtains a tenant. `identify` and `load` that find one
  dispatch their event and then fail. See
  `TypedProperties.DeclaredTenancyNeverHoldsTenant` and
  `TypedProperties.CurrentTenancyBeforeSet`. The rest of the model uses the
  intended null start: `Tenancies.Tenancy` (its constructor, `SetTenant`,
  `Identify`, `Load`, `Identifier`, `Key`, `WasLoaded`, `WasIdentified`),
  `Tenancies.LoadedXorIdentified`, `Tenancies.ClearTenant`, the guard and
  `Manager.TenantedManager.CurrentTenancy`. "Findings" gives both halves.
- **Loaded tenants pass the guard.** The guard's comment says it refuses a
  tenant that "wasn't identified". The code lets a tenant loaded by key
  pass whatever resolver the route names. See
  `RouteGuard.LoadedTenantPasses`.

## Model

| member | source | states |
|---|---|---|
| Values.StringAt | src/Core/Registries/ProviderRegistry.php:89-91 | a string is read from a configuration entry exactly when the entry is set and is a string, and it is that entry's string |
| Values.NameOr | src/Core/Registries/ProviderRegistry.php:71 | an omitted name becomes the default, a given one is kept |
| Values.AsciiLower | src/Core/Registries/ProviderRegistry.php:104-109 | the case folding of a method lookup: same length, each upper-case ASCII letter lowered, everything else unchanged |
| Values.StringOr | src/Core/Registries/ProviderRegistry.php:158-175 | a set string entry is used, an absent or null one gives the default |
| Tenants.GenericTenant.constructor | src/Core/Support/GenericTenant.php:31-36 | the tenant holds exactly the given attributes, key name and identifier name |
| Tenants.GenericTenant.FromAttributes | src/Core/Support/GenericTenant.php:31-36 | omitted names default to `id` for the key and `identifier` for the identifier |
| Tenants.GenericTenant.Get | src/Core/Support/GenericTenant.php:43-46 | a present attribute reads as its value, an absent one as null |
| Tenants.GenericTenant.Has | src/Core/Support/GenericTenant.php:64-67 | a set attribute reads as its stored value; an unset one reads as null |
| Tenants.StringReturn | src/Core/Support/GenericTenant.php:82 | the strict `string` return: a string passes unchanged, anything else, null included, is a `TypeError` naming the method |
| Tenants.KeyReturn | src/Core/Support/GenericTenant.php:98 | the strict return of a string or an int: a string or an int passes unchanged, anything else is a `TypeError` naming the method |
| Tenants.GenericTenant.OwnRead | src/Core/Support/GenericTenant.php:13-46 | `$this->{$name}` inside the class: `attributes`, `key` and `identifier` read the declared properties themselves; any other name goes to `__get` |
| Tenants.GenericTenant.TenantIdentifierAsWritten | src/Core/Support/GenericTenant.php:82-85 | as written: with an identifier name off the declared list it is the intended read; the name `identifier` gives the string `identifier`, the name `key` gives the key name, and `attributes` is a `TypeError` |
| Tenants.GenericTenant.TenantKeyAsWritten | src/Core/Support/GenericTenant.php:98-101 | as written: with a key name off the declared list it is the intended read; the name `key` gives the string `key`, the name `identifier` gives the identifier name, and `attributes` is a `TypeError` |
| Tenants.GenericTenant.TenantIdentifier | src/Core/Support/GenericTenant.php:82-85 | as intended: succeeds exactly when the attribute named by the identifier name is present and a string, and then is that attribute; otherwise, absent included, the `getTenantIdentifier` `TypeError` |
| Tenants.GenericTenant.TenantKey | src/Core/Support/GenericTenant.php:98-101 | as intended: succeeds exactly when the attribute named by the key name is present and a string or an int, and then is that attribute; otherwise the `getTenantKey` `TypeError` |
| Tenants.DefaultNames | src/Core/Support/GenericTenant.php:31-101 | a tenant built from attributes alone is keyed by its `id` attribute and identified by its `identifier` attribute, each a `TypeError` when absent or of the wrong type; the key read as written agrees; exactly its attributes are set |
| Tenants.DefaultIdentifierIsItsName | src/Core/Support/GenericTenant.php:24-85 | as written, a tenant with the default names is identified by the string `identifier`, which differs from the intended value whenever its `identifier` attribute is another string |
| Tenants.AcmeIdentifiedAsItsName | src/Core/Support/GenericTenant.php:31-85 | for `['identifier' => 'acme', 'id' => 7]` the intended identifier is `acme` and the key `7`, but the written accessor gives `identifier` |
| Tenants.WritesIgnored | src/Core/Support/GenericTenant.php:54-77 | `__set` and `__unset` do nothing: writing and then unsetting an attribute leaves what it reads as unchanged |
| Tenants.StoredNullIsSet | src/Core/Support/GenericTenant.php:64-67 | an attribute stored as null still counts as set, though it reads as null |
| Providers.FirstMatch | src/Core/Providers/DatabaseTenantProvider.php:77-88 | the index found holds the value in the column and no earlier row does; none is found exactly when no row holds it |
| Providers.Lookup | src/Core/Providers/DatabaseTenantProvider.php:77-88 | no row exactly when no row matches; otherwise the first matching row in store order |
| Providers.MakeEntity | src/Core/Providers/DatabaseTenantProvider.php:67-70 | a new entity over exactly the row; a database provider's entity keeps the default key and identifier names, whatever columns the lookup used; an Eloquent provider's entity takes its model's names |
| Providers.RetrieveByIdentifier | src/Core/Providers/DatabaseTenantProvider.php:77-88 | null exactly when nothing is found; a built-in provider gives a new entity over the first row whose identifier column equals the identifier; a provider from outside the package gives its own answer, which may be an existing object |
| Providers.RetrieveByKey | src/Core/Providers/DatabaseTenantProvider.php:95-106 | the same lookup on the key column |
| Providers.FirstRowWins | src/Core/Providers/DatabaseTenantProvider.php:79-84 | when two rows match, the one returned is never after the earlier of them |
| Providers.LookupSkipsNonMatching | src/Core/Providers/DatabaseTenantProvider.php:79-84 | a non-matching row in front shifts the answer by one and changes nothing else |
| Tenancies.Tenancy.constructor | src/Core/Tenancy.php:46-51 | a new tenancy has no tenant, no recorded resolver and no events |
| Tenancies.Tenancy.Identifier | src/Core/Tenancy.php:72-75 | null without a tenant; with one, succeeds exactly when its identifier attribute is a string and then is that attribute, else the `getTenantIdentifier` `TypeError` |
| Tenancies.Tenancy.Key | src/Core/Tenancy.php:80-83 | null without a tenant; with one, succeeds exactly when its key attribute is a string or an int and then is that attribute, else the `getTenantKey` `TypeError` |
| Tenancies.Tenancy.WasLoaded | src/Core/Tenancy.php:159-162 | true exactly when a tenant is present and no resolver is recorded; never together with identified |
| Tenancies.Tenancy.WasIdentified | src/Core/Tenancy.php:167-170 | true exactly when a tenant is present and a resolver is recorded |
| Tenancies.Tenancy.OptionValue | src/Core/Tenancy.php:186-189 | a configured option, or the default when it is absent |
| Tenancies.Tenancy.SetTenant | src/Core/Tenancy.php:143-154 | reports a change exactly when the new tenant is a different object; then exactly one `TenantChanged(old, new)` event is appended; the tenant is assigned; the recorded resolver never changes |
| Tenancies.Tenancy.Identify | src/Core/Tenancy.php:99-114 | nothing found changes nothing and logs nothing; a found tenant is always logged with `TenantIdentified`; `setTenant` is then called with it, and the result is true exactly when it is a different object from the current tenant, in which case `TenantChanged` follows and the resolver is recorded; otherwise the recorded resolver is kept; a built-in provider's tenant is new |
| Tenancies.Tenancy.Load | src/Core/Tenancy.php:121-136 | the same on the key column, logging `TenantLoaded`; a change clears the recorded resolver |
| Tenancies.IdentifyReportsChange | src/Core/Tenancy.php:99-114 | true exactly when something was found and it differs from the tenant before; then the tenancy counts as identified by the resolver; otherwise tenant and resolver are as before; a find is logged first |
| Tenancies.IdentifySameTenant | src/Core/Tenancy.php:103-110 | a provider that answers with the current tenant makes `identify` false and changes nothing but the one `TenantIdentified` event |
| Tenancies.LoadReportsChange | src/Core/Tenancy.php:121-136 | true exactly when something was found and it differs from the tenant before; then the tenancy counts as loaded, with no resolver; otherwise tenant and resolver are as before |
| Tenancies.LoadedXorIdentified | src/Core/Tenancy.php:56-59 | `check()` holds exactly when the tenancy is loaded or identified; it is never both; without a tenant it is neither |
| Tenancies.ClearTenant | src/Core/Tenancy.php:143-154 | clearing the tenant keeps the stale resolver name, yet the tenancy then reports neither loaded nor identified |
| Tenancies.NewTenancyIdentifies | src/Core/Tenancy.php:99-114 | with the intended null start, a new tenancy whose provider finds the identifier becomes identified by the resolver, having logged exactly `TenantIdentified` and then `TenantChanged(null, tenant)` |
| TypedProperties.Read | src/Core/Tenancy.php:29-34 | an unset typed property reads as the uninitialised-property error, a set one as its value |
| TypedProperties.DeclaredTenancy.constructor | src/Core/Tenancy.php:46-51 | name, provider and options are set; the tenant and the recorded resolver stay unset; no events |
| TypedProperties.DeclaredTenancy.Check | src/Core/Tenancy.php:56-59 | an error while the tenant is unset, else whether a tenant is present |
| TypedProperties.DeclaredTenancy.Identifier | src/Core/Tenancy.php:72-75 | an error while the tenant is unset; null without a tenant; with one, the written accessor: the identifier name `identifier` gives that string, `key` the key name, `attributes` a `TypeError`, and any other name succeeds exactly when that attribute is a string, giving it, else the `TypeError` |
| TypedProperties.DeclaredTenancy.Key | src/Core/Tenancy.php:80-83 | an error while the tenant is unset; null without a tenant; with one, the written accessor: the key name `key` gives that string, `identifier` the identifier name, `attributes` a `TypeError`, and any other name succeeds exactly when that attribute is a string or an int, giving it, else the `TypeError` |
| TypedProperties.DeclaredTenancy.WasIdentified | src/Core/Tenancy.php:167-170 | an error while the tenant is unset; false without a tenant; with one, an error while no resolver was ever recorded, else whether a resolver is recorded |
| TypedProperties.DeclaredTenancy.WasLoaded | src/Core/Tenancy.php:159-162 | the same reads, true when no resolver is recorded |
| TypedProperties.DeclaredTenancy.SetTenant | src/Core/Tenancy.php:143-154 | the comparison reads the tenant first: while it is unset the call fails and nothing changes; otherwise a change is reported exactly for a different object, logged once and assigned |
| TypedProperties.DeclaredTenancy.Identify | src/Core/Tenancy.php:99-114 | nothing found: false and nothing changes; a found tenant is logged with `TenantIdentified` first; then, while the tenant is unset, the call fails and it stays unset; otherwise the tenant is the one found, the result says whether it changed, and a change records the resolver |
| TypedProperties.DeclaredTenancy.Load | src/Core/Tenancy.php:121-136 | the same on the key, logging `TenantLoaded`; a change clears the recorded resolver |
| TypedProperties.DeclaredTenancyNeverHoldsTenant | src/Core/Tenancy.php:29-34 | as declared, a new tenancy fails `identify`, `load` and `check()` even when its provider finds the tenant, never holds one, and has still dispatched both events |
| TypedProperties.DeclaredCurrentTenancy.constructor | src/Core/TenantedManager.php:54 | the current tenancy starts unset |
| TypedProperties.DeclaredCurrentTenancy.SetCurrentTenancy | src/Core/TenantedManager.php:177-182 | the property holds the tenancy given |
| TypedProperties.DeclaredCurrentTenancy.CurrentTenancy | src/Core/TenantedManager.php:189-192 | an error while unset, else the tenancy set |
| TypedProperties.CurrentTenancyBeforeSet | src/Core/TenantedManager.php:54 | as declared, asking a new manager for its current tenancy fails; after a set it answers that tenancy |
| Creators.CreatorTable.constructor | src/Core/Support/BaseRegistry.php:22 | the process starts with no custom creators |
| Creators.CreatorTable.Register | src/Core/Support/BaseRegistry.php:30-33 | the name's creator is set or overwritten, and every other name's creator is kept |
| Creators.ConfigFor | src/Core/Registries/ProviderRegistry.php:52-56 | the entry's configuration, or an empty one |
| Creators.StringDriverTier | src/Core/Registries/ProviderRegistry.php:82-111 | the name creator applies exactly when one is registered; otherwise a missing or non-string driver is the failing tier; otherwise the driver's creator applies when one is registered, else the built-in factory |
| ProviderRegistries.CreateEloquentProvider | src/Core/Registries/ProviderRegistry.php:132-143 | a missing or non-string `model` is `missingConfig(model)`; success exactly when the class is both a Tenant and a Model; any other class is `invalidClass` |
| ProviderRegistries.CreateDatabaseProvider | src/Core/Registries/ProviderRegistry.php:156-176 | fails exactly when `table` is not a string, with `missingConfig(table)`; otherwise `identifier` (default `identifier`) is the key column and `key` (default `id`) the identifier column |
| ProviderRegistries.BuiltinProvider | src/Core/Registries/ProviderRegistry.php:104-109 | `database` and `eloquent` in any letter case choose their factory; any other driver is `unknown` |
| ProviderRegistries.AsProvider | src/Core/Registries/ProviderRegistry.php:113-119 | a creator's product is accepted exactly when it is a provider, else `unknown` |
| ProviderRegistries.ProviderRegistry.constructor | src/Core/Support/BaseRegistry.php:53-57 | a new registry caches nothing |
| ProviderRegistries.ProviderRegistry.Get | src/Core/Registries/ProviderRegistry.php:68-120 | the result of the tier algorithm; only a success is cached, under the resolved name |
| ProviderRegistries.CachedProviderWins | src/Core/Registries/ProviderRegistry.php:74-76 | a cached provider is returned whatever the creators and the configuration say |
| ProviderRegistries.ProviderGetIdempotent | src/Core/Registries/ProviderRegistry.php:74-116 | after a success is cached, asking again gives the same provider |
| ProviderRegistries.NameCreatorWins | src/Core/Registries/ProviderRegistry.php:82-85 | a creator under the exact name alone decides an uncached lookup; the driver is never read |
| ProviderRegistries.MissingDriverFails | src/Core/Registries/ProviderRegistry.php:89-91 | without a name creator, a missing or non-string driver is `noDriver` |
| ProviderRegistries.DriverCreatorWins | src/Core/Registries/ProviderRegistry.php:96-99 | a creator under the driver comes before the built-in factories |
| ProviderRegistries.ProviderFailuresNamed | src/Core/Registries/ProviderRegistry.php:68-120 | every failure is `noDriver`, `unknown`, `missingConfig(table)`, `missingConfig(model)` or `invalidClass`, each for the resolved name |
| ProviderRegistries.DatabaseColumnsSwapped | src/Core/Registries/ProviderRegistry.php:156-176 | a database provider configured with a table only looks up by key in `identifier` and by identifier in `id` |
| TenancyRegistries.TenancyRegistry.constructor | src/Core/Registries/TenancyRegistry.php:29-35 | a new registry caches nothing and uses the given provider registry |
| TenancyRegistries.TenancyRegistry.Get | src/Core/Registries/TenancyRegistry.php:79-128 | cached tenancies come back with nothing changed; otherwise `noDriver`, a creator's tenancy, `unknown` for another product, or a new tenancy over the provider registry's answer, whose failure propagates; only successes are cached; the provider cache changes only by that lookup |
| TenancyRegistries.TenancyNameCreatorWins | src/Core/Registries/TenancyRegistry.php:92-95 | a creator under the exact name is used before the configuration is read |
| TenancyRegistries.TenancyNoDriverExactly | src/Core/Registries/TenancyRegistry.php:99-101 | without a name creator, `noDriver` arises exactly when `driver` is unset; a set driver of any type passes |
| TenancyRegistries.TenancyBuiltinWhateverDriver | src/Core/Registries/TenancyRegistry.php:113-117 | a set driver without its own creator yields the built-in tenancy with the configured provider name (none means the default) and options (none means empty) |
| TenancyRegistries.ShippedPrimaryTenancyHasNoDriver | config/tenanted.php:37-42 | the shipped `primary` tenancy has no driver, so without a creator it is `noDriver` |
| ResolverRegistries.CreatePathResolver | src/Core/Registries/ResolverRegistry.php:131-136 | the segment is the configured int when it is not negative, otherwise 0; never below 0 |
| ResolverRegistries.CreateHeaderResolver | src/Core/Registries/ResolverRegistry.php:148-155 | fails exactly when `header` is not a string, with `missingConfig(header)`; otherwise it reads that header |
| ResolverRegistries.CreateSubdomainResolver | src/Core/Registries/ResolverRegistry.php:167-174 | fails exactly when `domain` is not a string, with `missingConfig(domain)`; otherwise it uses that domain |
| ResolverRegistries.BuiltinResolver | src/Core/Registries/ResolverRegistry.php:104-110 | `path`, `header` and `subdomain` in any letter case choose their factory; any other driver is `unknown` |
| ResolverRegistries.LowerCaseFixed | src/Core/Registries/ResolverRegistry.php:104-110 | a driver without upper-case ASCII letters is its own lower-case form, so it names its factory as written |
| ResolverRegistries.AsResolver | src/Core/Registries/ResolverRegistry.php:114-120 | a creator's product is accepted exactly when it is a resolver, else `unknown` |
| ResolverRegistries.ResolverRegistry.constructor | src/Core/Registries/ResolverRegistry.php:27-32 | a new registry caches nothing |
| ResolverRegistries.ResolverRegistry.Get | src/Core/Registries/ResolverRegistry.php:70-121 | the result of the tier algorithm; only a success is cached, under the resolved name |
| ResolverRegistries.ResolverGetIdempotent | src/Core/Registries/ResolverRegistry.php:74-76 | after a success is cached, asking again gives the same resolver |
| ResolverRegistries.ResolverTierOrder | src/Core/Registries/ResolverRegistry.php:86-110 | uncached and without a name creator: a missing or non-string driver is `noDriver`; a driver with a creator uses it even where a built-in exists |
| ResolverRegistries.ShippedPathResolver | config/tenanted.php:98-101 | the shipped `path` resolver, asked for by name, reads segment 0, whatever the registry's default |
| ResolverRegistries.ShippedHeaderResolver | config/tenanted.php:103-106 | the shipped `header` resolver, asked for by name, reads `Tenant-Identifier` |
| ResolverRegistries.ShippedSubdomainResolver | config/tenanted.php:93-96 | the shipped `subdomain` resolver, asked for by name, uses the environment's domain when it is a string, else fails with `missingConfig(domain)` |
| Resolvers.Route.ForgetParameter | src/Core/Support/ParameterIdentityResolver.php:58 | exactly the one parameter is removed |
| Resolvers.Exclusion.ExcludeCallback | src/Core/Resolvers/SubdomainIdentityResolver.php:40-43 | the single process-wide predicate is replaced |
| Resolvers.UrlDefaults.Merge | src/Core/Support/ParameterIdentityResolver.php:73-80 | the given defaults are merged in, winning over existing ones |
| Resolvers.ParameterNameShared | src/Core/Support/ParameterIdentityResolver.php:28-31 | the parameter name is the slug of the tenancy and resolver names joined by `_`, so tenancy `a_b` with resolver `c` and tenancy `a` with resolver `b_c` share one parameter |
| Resolvers.Marker | src/Core/Support/BaseIdentityResolver.php:42 | the marker is the alias, a colon, the tenancy name, a comma and the resolver name |
| Resolvers.Classify | src/Core/Support/ParameterIdentityResolver.php:60-64 | a string is found as itself, null is null, anything else is rejected |
| Resolvers.ParameterOutcome | src/Core/Support/ParameterIdentityResolver.php:52-64 | a missing parameter is rejected with the parameters unchanged; a present one is classified and removed whatever its value; every other parameter is kept |
| Resolvers.Before | src/Core/Resolvers/SubdomainIdentityResolver.php:100 | the result is a prefix of the host |
| Resolvers.BeforeFirstOccurrence | src/Core/Resolvers/SubdomainIdentityResolver.php:100 | the result is everything before the first occurrence of the separator |
| Resolvers.HostSubdomain | src/Core/Resolvers/SubdomainIdentityResolver.php:99-103 | something is found exactly when the host ends in `.domain` |
| Resolvers.HostSubdomainIsFirstPrefix | src/Core/Resolvers/SubdomainIdentityResolver.php:99-101 | what is found is the host before the first `.domain`, which may come before the suffix |
| Resolvers.BeforePlainPrefix | src/Core/Resolvers/SubdomainIdentityResolver.php:100 | a piece without the separator's first character, followed by the separator and anything, gives exactly that piece |
| Resolvers.HostSubdomainOfPlainHost | src/Core/Resolvers/SubdomainIdentityResolver.php:99-101 | a host `<sub>.<domain>` whose `<sub>` has no dot gives exactly `<sub>` |
| Resolvers.HeaderResolution | src/Core/Resolvers/HeaderIdentityResolver.php:58-71 | the header resolver never yields null and never touches the route; it finds exactly the header's string value, else rejects |
| Resolvers.HeaderExample | src/Core/Resolvers/HeaderIdentityResolver.php:70 | `Tenant-Identifier: acme` gives `acme` |
| Resolvers.PathWithoutRoute | src/Core/Resolvers/PathIdentityResolver.php:46-55 | without a route the path resolver gives the request's segment at its index, null when there is none, and reads neither the tenancy, the slug nor the exclusion predicate |
| Resolvers.SubdomainWithRoute | src/Core/Resolvers/SubdomainIdentityResolver.php:81-93 | with a route the subdomain resolver gives the parameter resolver's result, except that a found identifier is rejected exactly when a predicate is set and holds of it and the host; the route loses the parameter either way |
| Resolvers.SubdomainExampleAcme | src/Core/Resolvers/SubdomainIdentityResolver.php:99-101 | `acme.example.com` under `example.com` gives `acme` |
| Resolvers.SubdomainExamplesRejected | src/Core/Resolvers/SubdomainIdentityResolver.php:99-103 | `example.com` and `acme.other.com` under `example.com` are rejected |
| Resolvers.SubdomainExampleRepeated | src/Core/Resolvers/SubdomainIdentityResolver.php:100 | `a.example.com.example.com` gives `a` |
| Resolvers.ResolveParameter | src/Core/Support/ParameterIdentityResolver.php:39-65 | no route is a rejection; otherwise the result and the route's parameters afterwards are the parameter outcome |
| Resolvers.Resolve | src/Core/Resolvers/SubdomainIdentityResolver.php:79-104 | each resolver kind's result, and the route parameters afterwards, are those `ResolveSpec` gives for the state before |
| Resolvers.Setup | src/Core/Support/ParameterIdentityResolver.php:73-80 | the header resolver changes nothing; the parameter resolvers map their parameter to null without a tenant, and to the tenant's identifier attribute when it is a string; otherwise the `getTenantIdentifier` `TypeError` is thrown and the defaults are unchanged |
| Resolvers.PathPrefix | src/Core/Resolvers/PathIdentityResolver.php:67 | the route prefix is the parameter name in braces |
| Resolvers.DomainPattern | src/Core/Resolvers/SubdomainIdentityResolver.php:116 | the route domain is the path prefix, a dot, then the domain |
| Manager.IdentifyWith | src/Core/TenantedManager.php:216-224 | the route parameters afterwards are the resolver's; a falsy result of the resolver (`false`, null, `""`, `"0"`) returns false, and the tenancy is not touched; otherwise the result and the tenancy afterwards are exactly those of the tenancy's `identify` with the resolved identifier and the resolver's name |
| Manager.IdentifiedWithTrue | src/Core/TenantedManager.php:216-224 | a true result means the resolver found a truthy identifier and the tenancy is now identified by that resolver |
| Manager.TenantedManager.constructor | src/Core/TenantedManager.php:64-79 | injected registries are kept as given; the others and the current tenancy start unset |
| Manager.TenantedManager.Providers | src/Core/TenantedManager.php:118-129 | built once, empty, from the providers configuration; then the same registry every time |
| Manager.TenantedManager.Tenancies | src/Core/TenantedManager.php:137-149 | built once, empty, over `providers()`; then the same registry every time |
| Manager.TenantedManager.Resolvers | src/Core/TenantedManager.php:157-168 | while the tenancies field is unset, a new empty registry with the configured default, or a type error when no default resolver is configured; afterwards the field as it stands, which is an error when it was never set |
| Manager.TenantedManager.SetCurrentTenancy | src/Core/TenantedManager.php:177-182 | the current tenancy becomes the one given |
| Manager.TenantedManager.CurrentTenancy | src/Core/TenantedManager.php:189-192 | the tenancy last made current, or null before any |
| Manager.NewManagerHasNoCurrentTenancy | src/Core/TenantedManager.php:189-192 | with the intended null start, a new manager's current tenancy is null |
| Manager.TenantedManager.TenancyFor | src/Core/TenantedManager.php:210 | succeeds exactly when the tenancy ends up cached under the resolved name, giving that tenancy; one the registry already held comes back as it was, any other is new with no tenant, resolver or events; an existing provider registry is kept, the resolvers are untouched, and the tenancy cache gains at most that one entry |
| Manager.TenantedManager.Identify | src/Core/TenantedManager.php:207-225 | see `IdentifyOutcome`: a failed tenancy lookup is its error and leaves the current tenancy alone; otherwise that tenancy is made current first; without an injected resolver registry the call fails; a later failure leaves that tenancy and the route parameters as they were; on success the result is exactly `IdentifyWith`'s for the current tenancy, the named resolver and the state before. By `IdentifyKeeps` and the frame `Footprint(tenancyName)`, no registry is replaced, the caches only gain the entries asked for, and no other cached tenancy is touched |
| Manager.TenantedManager.IdentifyIn | src/Core/TenantedManager.php:216-224 | the tenancy is made current; the resolvers field is never replaced once tenancies exist, and using it unset is an error; a failure leaves the tenancy and the route parameters as they were; the resolver cache gains at most the named entry; a success is exactly `IdentifyWith`'s result with the named resolver |
| Manager.CurrentTenancyRoundTrip | src/Core/TenantedManager.php:177-192 | setting then reading the current tenancy gives it back |
| RouteGuard.Guard | src/Core/Http/Middleware/TenantedRoute.php:53-64 | passes exactly when a tenant is present and it was loaded or identified by the route's resolver; no tenant is `missing`; any other refusal is `invalidResolver` |
| RouteGuard.LoadedTenantPasses | src/Core/Http/Middleware/TenantedRoute.php:60 | a loaded tenant passes whatever resolver the route names |
| RouteGuard.IdentifiedTenantNeedsItsResolver | src/Core/Http/Middleware/TenantedRoute.php:60-62 | an identified tenant passes exactly when its resolver is the route's |
| RouteGuard.ClearedTenantRefused | src/Core/Http/Middleware/TenantedRoute.php:54-56 | after the tenant is cleared the guard refuses with `missing`, though the old resolver is still recorded |
| RouteGuard.Handle | src/Core/Http/Middleware/TenantedRoute.php:48-65 | a failed lookup is thrown; once both are found the decision is `Guard`'s; no tenancy changes; without an injected resolver registry it always throws |
| Listener.FirstMarker | src/Core/Listeners/RouteMatchedListener.php:37-42 | none exactly when no entry is a marker; otherwise the earliest marker |
| Listener.SelectMarker | src/Core/Listeners/RouteMatchedListener.php:37-42 | the loop stops at the first marker |
| Listener.Explode | src/Core/Listeners/RouteMatchedListener.php:47 | at least one piece; exactly one when the separator does not occur, and then the whole string; no piece contains the separator |
| Listener.JoinExplode | src/Core/Listeners/RouteMatchedListener.php:47 | joining the pieces gives the string back |
| Listener.ExplodeAfterPiece | src/Core/Listeners/RouteMatchedListener.php:47 | a separator-free piece and a separator in front add exactly that piece in front |
| Listener.ExplodeJoin | src/Core/Listeners/RouteMatchedListener.php:47 | separator-free pieces, joined and exploded, come back unchanged |
| Listener.ParseOptions | src/Core/Listeners/RouteMatchedListener.php:44-50 | no marker, or one without `:`, names nothing; a resolver is named only with a tenancy |
| Listener.AliasHasNoColon | src/Core/Listeners/RouteMatchedListener.php:44-50 | the alias has no `:`, so the bare alias names nothing and the options of a marker start after the alias |
| Listener.MarkerRoundTrip | src/Core/Support/BaseIdentityResolver.php:42 | the marker a resolver attaches is recognised and parses back to its tenancy and resolver, when neither contains `:` or `,` |
| Listener.BareAliasNamesNothing | src/Core/Listeners/RouteMatchedListener.php:38-50 | the bare alias is a marker that names nothing |
| Listener.EmptyOptionsNameEmptyTenancy | src/Core/Listeners/RouteMatchedListener.php:46-50 | `tenanted.route:` names the tenancy `""` and no resolver |
| Listener.LongerNameIsNoMarker | src/Core/Listeners/RouteMatchedListener.php:38 | `tenanted.router` is not a marker |
| Listener.HandleRouteMatched | src/Core/Listeners/RouteMatchedListener.php:32-51 | identification runs once with the first marker's names, or the defaults when there is none; the outcome, and what is left alone, are exactly `identify`'s for those names |
| Eloquent.Model.Attribute | src/Database/Relationships/BelongsToTenantRelationshipHandler.php:48 | a model's attribute reads as its value, an absent one as null |
| Eloquent.Builder.AddWhere | src/Database/Relationships/BelongsToTenantRelationshipHandler.php:134-138 | exactly one filter is appended after the existing ones |
| BaseHandler.RelationName | src/Database/Support/BaseTenantRelationshipHandler.php:21-28 | the model's tenant relationship name when it defines one, else the tenancy's name |
| BaseHandler.ShouldFunctionWithoutTenant | src/Database/Support/BaseTenantRelationshipHandler.php:37-44 | true exactly when the model defines the hook and it answers true |
| BaseHandler.ShouldScopeToTenant | src/Database/Support/BaseTenantRelationshipHandler.php:53-60 | true exactly when the model defines the hook and it answers true |
| BelongsToHandler.ValidateCurrentValue | src/Database/Relationships/BelongsToTenantRelationshipHandler.php:35-54 | a loaded relation that is not a tenant is `invalid`; for a loaded tenant, its key is read and then the tenancy's, either read's `TypeError` is thrown, and otherwise it passes exactly when the keys are strictly equal, else `invalid`; with no loaded relation a missing relation method is an undefined-method error, then the tenancy's key is read, its `TypeError` thrown, and it passes exactly when the foreign key strictly equals it, else `invalid`; a pass implies the tenancy's key was read |
| BelongsToHandler.MissingForeignKeyRefused | src/Database/Relationships/BelongsToTenantRelationshipHandler.php:47-52 | an unset foreign key is refused while the tenant's key is set |
| BelongsToHandler.KeylessTenantThrows | src/Database/Relationships/BelongsToTenantRelationshipHandler.php:47-50 | a current tenant without its key attribute makes validation throw the `getTenantKey` `TypeError`, whatever the foreign key holds |
| BelongsToHandler.StringKeyRefused | src/Database/Relationships/BelongsToTenantRelationshipHandler.php:50 | `"7"` does not match the key `7` |
| BelongsToHandler.WithoutTenant | src/Database/Relationships/BelongsToTenantRelationshipHandler.php:67-73 | without a tenant, accepted exactly when the model may function without one, else `none` |
| BelongsToHandler.PopulateForCreation | src/Database/Relationships/BelongsToTenantRelationshipHandler.php:65-80 | see `CreationOutcome`: no tenant: nothing changes; a refused validation, including a key `TypeError`, is thrown and changes nothing; an undefined relation is an undefined-method error; success means the tenancy's key was read, sets the foreign key to it and loads the relation with the tenant, other attributes and relations kept |
| BelongsToHandler.PopulateAfterRetrieval | src/Database/Relationships/BelongsToTenantRelationshipHandler.php:91-106 | see `RetrievalOutcome`: no tenant: the relations are unchanged and the failure is `WithoutTenant`'s; otherwise the validation's failure, a key `TypeError` included, is thrown with the relations unchanged, and a pass sets exactly that relation to the tenancy's tenant; the attributes are outside the frame |
| BelongsToHandler.ScopeForQuery | src/Database/Relationships/BelongsToTenantRelationshipHandler.php:117-139 | a model that does not scope gets the builder back unchanged, tenant or not; otherwise no tenant is `none`, a missing relation method is an undefined-method error, and a tenancy key of the wrong type is the `getTenantKey` `TypeError`, each with the builder unchanged; else exactly one filter `foreign key = tenancy key` is appended |
| BelongsToHandler.CreationThenValidation | src/Database/Relationships/BelongsToTenantRelationshipHandler.php:77-79 | after a successful creation the model validates against the same tenancy |
| HasOneOrManyHandler.PopulateForCreation | src/Database/Relationships/HasOneOrManyTenantRelationshipHandler.php:14-17 | never fails and changes nothing |
| HasOneOrManyHandler.PopulateAfterRetrieval | src/Database/Relationships/HasOneOrManyTenantRelationshipHandler.php:19-22 | never fails and changes nothing |
| HasOneOrManyHandler.ScopeForQuery | src/Database/Relationships/HasOneOrManyTenantRelationshipHandler.php:24-28 | the same builder comes back with nothing added |
| DatabaseManagers.MappedType | src/Database/TenantedDatabaseManager.php:81-85 | none exactly when the relation is an instance of no entry; otherwise the type of the first entry it is an instance of |
| DatabaseManagers.HandlerCreatorTable.Register | src/Database/TenantedDatabaseManager.php:49-52 | the relation class's creator is set or overwritten |
| DatabaseManagers.TenantedDatabaseManager.CreateRelationshipHandler | src/Database/TenantedDatabaseManager.php:90-103 | a cached handler is returned; any other type is `unknownRelationship` |
| DatabaseManagers.TenantedDatabaseManager.Relationship | src/Database/TenantedDatabaseManager.php:69-88 | no such relation is `noRelationship`; a creator for the relation's exact class wins; otherwise the first map entry decides; no entry is `noCreation` |
| DatabaseManagers.OnlyCreatorsYieldHandlers | src/Database/TenantedDatabaseManager.php:90-103 | with the cache empty, as it always is, a handler comes back exactly when a creator is registered for the relation's class |
| DatabaseManagers.HasOneBeforeHasOneOrMany | src/Database/TenantedDatabaseManager.php:25-32 | a has-one relation that is not a belongs-to maps to `HasOneOrMorphOne`, though it is also a has-one-or-many |
| DatabaseManagers.UnmappedRelationHasNoCreation | src/Database/TenantedDatabaseManager.php:87 | a relation of none of the mapped shapes, without a creator, is `noCreation` |
| TenantSpecific.TraitHooks | src/Database/Concerns/IsTenantSpecific.php:123-146 | the trait's defaults: no tenancy name, scoping on, working without a tenant on |
| TenantSpecific.TraitDefaultsOverrideBase | src/Database/Concerns/IsTenantSpecific.php:123-146 | with the trait's defaults the handler scopes, works without a tenant and uses the model's relationship name |
| TenantSpecific.BaseFallbacks | src/Database/Support/BaseTenantRelationshipHandler.php:21-60 | a model without the hooks neither scopes nor works without a tenant, and its relation is named after the tenancy |
| TenantSpecific.HandlerSlot.constructor | src/Database/Concerns/IsTenantSpecific.php:29 | each model class starts without a handler |
| TenantSpecific.HandlerSlot.Current | src/Database/Concerns/IsTenantSpecific.php:113-116 | the handler the class's slot holds; an empty slot, before any successful boot, is the typed return's error in `getTenantRelationshipHandler` |
| TenantSpecific.HandleModelBooted | src/Database/Concerns/IsTenantSpecific.php:55-64 | a filled slot is kept; an empty one needs the relationship-name hook, then takes the manager's handler, and stays empty on failure |
| TenantSpecific.BootTwice | src/Database/Concerns/IsTenantSpecific.php:57 | after a successful first boot, the second boot throws nothing and keeps the first boot's handler, and reading the slot gives that handler |
| TenantSpecific.TenancyLookup | src/Database/Concerns/IsTenantSpecific.php:78-82 | a model without `getTenancyName` is `missingMethod`; otherwise the undefined `tenancy()` call |
| TenantSpecific.HandleModelCreation | src/Database/Concerns/IsTenantSpecific.php:76-85 | the creating hook fails as its tenancy lookup does |
| TenantSpecific.HandleModelRetrieval | src/Database/Concerns/IsTenantSpecific.php:97-106 | the retrieved hook fails as its tenancy lookup does |
| TenantSpecific.DelegateCreation | src/Database/Concerns/IsTenantSpecific.php:84 | an empty slot is a call on null; the has-one-or-many handler changes nothing; with the belongs-to handler the outcome is exactly that handler's (`BelongsToHandler.CreationOutcome`), so a success means the model now validates |
| TenantSpecific.DelegateRetrieval | src/Database/Concerns/IsTenantSpecific.php:105 | an empty slot is a call on null; the has-one-or-many handler changes nothing; with the belongs-to handler the outcome is exactly that handler's (`BelongsToHandler.RetrievalOutcome`) |

## Left out

- The `routes()` builders of the resolvers are left out because they wrap Laravel's router. Only their marker and pattern strings are modelled, as `Resolvers.Marker`, `Resolvers.PathPrefix` and `Resolvers.DomainPattern`.
- The `SetTenantHeader` and `IdentifyTenant` middleware act on HTTP responses and duplicate the guard. `FallbackHandler` is a 404 throw. These are not part of this model.
- `EloquentTenantProvider`'s query building, `TenantSpecificScope` and `TenantModel` are thin Eloquent wrappers. They are not part of this model. The Eloquent provider is modelled with the same first-row lookup as the database provider.
- The handler classes for belongs-to-many, has-one-or-morph-one and has-many-through are not part of this model. A handler from outside the package (`OtherHandler`) is taken to accept and change nothing.
- The service provider, container lookups (`app()->make`) and event delivery to listeners are left out. Events are only recorded, in a ghost log.
- `Str::slug`, `Request::segment`, the database and the relation hierarchy are parameters, not modelled.
- Providers.MakeEntity: every entity class, including a database provider's configured `entity`, is modelled as the generic tenant. A database provider's entity therefore always has the default key and identifier names, and a custom entity class's own names or behaviour are not modelled.
- A custom creator's entry is read without `isset` in `TenancyRegistry::get` and in `TenantedDatabaseManager::relationship`. For a name or relation class without a creator PHP raises an undefined-key warning, which Laravel turns into an exception. The model takes the missing entry as falsy and goes on.
- A set `options` entry that is not an array would be a `TypeError` in the tenancy constructor. The model reads it as the empty array.
- A provider from outside the package is a pair of fixed answer functions. One that builds a new object on each call is not distinguished from one that returns the same object each time.
- Providers.Lookup: compares a column's value with the identifier or key exactly. SQL equality may be looser: a numeric column matches a numeric string, and a case-insensitive collation matches a string in another case.
- Providers.RetrieveByIdentifier: uses `Providers.Lookup`, so it has the same exact comparison.
- Providers.RetrieveByKey: uses `Providers.Lookup`, so it has the same exact comparison.
- Tenancies.Tenancy.Identify: finds a tenant only through the exact comparison of `Providers.Lookup`.
- Tenancies.Tenancy.Load: finds a tenant only through the exact comparison of `Providers.Lookup`.
- ResolverRegistries.AsResolver: a creator's product is accepted only as one of the three built-in resolvers. A custom `IdentityResolver` class with its own `resolve` and `name` is not modelled. So `Manager.IdentifyWith` and the route-parameter facts are proved for the built-in resolvers only.
- Creators.Product.MadeResolver: holds one of the three built-in resolvers, for the same reason.
- A non-string value where PHP's typed parameters expect a string would be a `TypeError`. Examples are `connection`, `key`, `identifier`, `entity` and the tenancy's `provider`. The model reads such a value as absent.
- PHP's normalisation of integer-like array keys is not modelled. A non-string tenancy driver is matched against no creator.
- Header names are matched exactly. Laravel matches them case-insensitively.
- `Arr::get` dot paths in configuration names are not modelled. Names are plain keys.
- A custom tenancy creator's product is a description of a tenancy, which the registry then builds. So every tenancy in the model is one the registry allocated. An object a creator shares between registries is not modelled.
- Tenancies.Tenancy.constructor: assumes the intended start, with the tenant and the recorded resolver null. As declared both are uninitialised and the first read is an error; `TypedProperties.DeclaredTenancy` models that, and "Findings" gives the consequence.
- Tenancies.Tenancy.Identifier: assumes the intended start, with the tenant and the recorded resolver null. As declared both are uninitialised and the first read is an error; `TypedProperties.DeclaredTenancy` models that, and "Findings" gives the consequence.
- Tenancies.Tenancy.Key: assumes the intended start, with the tenant and the recorded resolver null. As declared both are uninitialised and the first read is an error; `TypedProperties.DeclaredTenancy` models that, and "Findings" gives the consequence.
- Tenancies.Tenancy.WasLoaded: assumes the intended start, with the tenant and the recorded resolver null. As declared both are uninitialised and the first read is an error; `TypedProperties.DeclaredTenancy` models that, and "Findings" gives the consequence.
- Tenancies.Tenancy.WasIdentified: assumes the intended start, with the tenant and the recorded resolver null. As declared both are uninitialised and the first read is an error; `TypedProperties.DeclaredTenancy` models that, and "Findings" gives the consequence.
- Tenancies.Tenancy.SetTenant: assumes the intended start, with the tenant and the recorded resolver null. As declared both are uninitialised and the first read is an error; `TypedProperties.DeclaredTenancy` models that, and "Findings" gives the consequence.
- Tenancies.LoadedXorIdentified: assumes the intended start, with the tenant and the recorded resolver null. As declared both are uninitialised and the first read is an error; `TypedProperties.DeclaredTenancy` models that, and "Findings" gives the consequence.
- Tenancies.ClearTenant: assumes the intended start, with the tenant and the recorded resolver null. As declared both are uninitialised and the first read is an error; `TypedProperties.DeclaredTenancy` models that, and "Findings" gives the consequence.
- Tenancies.IdentifyReportsChange: assumes the intended start, with the tenant and the recorded resolver null. As declared both are uninitialised and the first read is an error; `TypedProperties.DeclaredTenancy` models that, and "Findings" gives the consequence.
- Tenancies.IdentifySameTenant: assumes the intended start, with the tenant and the recorded resolver null. As declared both are uninitialised and the first read is an error; `TypedProperties.DeclaredTenancy` models that, and "Findings" gives the consequence.
- Tenancies.LoadReportsChange: assumes the intended start, with the tenant and the recorded resolver null. As declared both are uninitialised and the first read is an error; `TypedProperties.DeclaredTenancy` models that, and "Findings" gives the consequence.
- RouteGuard.Guard: assumes the intended start, with the tenant and the recorded resolver null. As declared both are uninitialised and the first read is an error; `TypedProperties.DeclaredTenancy` models that, and "Findings" gives the consequence.
- RouteGuard.Handle: assumes the intended start, with the tenant and the recorded resolver null. As declared both are uninitialised and the first read is an error; `TypedProperties.DeclaredTenancy` models that, and "Findings" gives the consequence.
- Tenancies.Tenancy.Identify: builds on a tenancy that starts with a null tenant; as declared a found tenant makes the call throw, as `TypedProperties.DeclaredTenancy.Identify` shows.
- Tenancies.Tenancy.Load: builds on a tenancy that starts with a null tenant; as declared a found tenant makes the call throw, as `TypedProperties.DeclaredTenancy.Load` shows.
- Manager.IdentifyWith: builds on a tenancy that starts with a null tenant; as declared a found tenant makes the call throw, as `TypedProperties.DeclaredTenancy.Identify` shows.
- Manager.IdentifiedWithTrue: builds on a tenancy that starts with a null tenant; as declared a found tenant makes the call throw, as `TypedProperties.DeclaredTenancy.Identify` shows.
- Manager.TenantedManager.Identify: builds on a tenancy that starts with a null tenant; as declared a found tenant makes the call throw, as `TypedProperties.DeclaredTenancy.Identify` shows.
- Listener.HandleRouteMatched: builds on a tenancy that starts with a null tenant; as declared a found tenant makes the call throw, as `TypedProperties.DeclaredTenancy.Identify` shows.
- Manager.TenantedManager.CurrentTenancy: assumes the intended start, with the current tenancy null. As declared it is uninitialised and reading it before a set is an error; `TypedProperties.DeclaredCurrentTenancy` models that.
- Manager.TenantedManager.constructor: starts the current tenancy at null, for the same reason.
- Manager.TenantedManager.Providers: assumes `defaults.provider` is a string, as the shipped configuration sets it. Unset, `null` reaches `ProviderRegistry`'s `string $default` parameter as a `TypeError`; that case is not modelled.
- Manager.TenantedManager.Tenancies: assumes `defaults.tenancy` is a string, as the shipped configuration sets it. Unset, the registry accepts the `null`, but `getDefaultTenancyName(): string` then throws a `TypeError`; that case is not modelled.
- TenancyRegistries.TenancyRegistry.Get: an omitted name always resolves to a string default, for the reason above; the `TypeError` of an unset default is not modelled.
- `BelongsToHandler.PopulateForCreation`: Eloquent's `associate` is modelled as setting the foreign key to the tenant's key and loading the relation.
- `TenantSpecific.DelegateCreation` and `TenantSpecific.DelegateRetrieval` take the tenancy as a parameter, because the hooks' own `tenancy()` lookup cannot succeed.
- The exclusion predicate, the slug function and the segment lookup are total functions. A predicate that throws is not modelled.
- Nothing here is concurrent. Lazy initialisation is modelled as single-threaded.

## Findings

| source | as written | input that shows it | evidently intended | confidence | as-written member | corrected member |
|---|---|---|---|---|---|---|
| src/Core/Tenancy.php:29-34 | `?Tenant $tenant` and `?string $identifiedBy` have no default and the constructor does not assign them, so the first read throws PHP's uninitialised-property error: `setTenant`'s comparison, `check()`, `identifier()`, `key()`, `wasLoaded()` and `wasIdentified()` all read `$tenant` | a new tenancy whose provider finds `acme`; `identify("acme", "header")` dispatches `TenantIdentified` and then throws, and the tenant stays unset | both start as null, so a new tenancy has no tenant and the first successful `identify` sets it | not executed | TypedProperties.DeclaredTenancyNeverHoldsTenant | Tenancies.NewTenancyIdentifies |
| src/Core/TenantedManager.php:54 | `?Contracts\Tenancy $currentTenancy` has no default and the constructor does not assign it, so `currentTenancy()` throws until `identify` or `setCurrentTenancy` has run | `currentTenancy()` on a new manager | it starts as null, so `currentTenancy()` answers null | not executed | TypedProperties.CurrentTenancyBeforeSet | Manager.NewManagerHasNoCurrentTenancy |
| src/Core/Support/GenericTenant.php:82-85 | `$this->{$this->getTenantIdentifierName()}` inside the class reads the declared private property when the name is `identifier`, `key` or `attributes`, so with the default identifier name the identifier is the literal string `identifier`, and every tenant shares it | `new GenericTenant(['identifier' => 'acme', 'id' => 7])`: `getTenantIdentifier()` gives `identifier` | the `identifier` attribute, `acme`, which is unique per tenant and is what the parameter resolvers put in generated URLs | not executed | Tenants.AcmeIdentifiedAsItsName | Tenants.DefaultNames |
