// The tenancy's and the manager's typed properties exactly as PHP declares
// them. `?Tenant $tenant`, `?string $identifiedBy` and
// `?Tenancy $currentTenancy` have no default value, so each is
// uninitialised until first assigned, nullable type or not, and reading one
// before that is an error. The rest of the model starts them at null, which
// is what their nullable types and `check()` evidently intend.

module TypedProperties {
  import opened Values
  import opened Tenants
  import opened Providers
  import opened Tenancies

  /** A typed property without a default: unset until first assigned. */
  datatype Prop<T> = Unset | Holds(value: T)

  /** Reading a property: its value, or the uninitialised-property error. */
  function Read<T>(p: Prop<T>, owner: string, property: string): (r: Result<T>)
    ensures r.Ok? <==> p.Holds?
    ensures p.Holds? ==> r.value == p.value
    ensures p.Unset? ==> r == Err(Uninitialised(owner, property))
  {
    if p.Holds? then Ok(p.value) else Err(Uninitialised(owner, property))
  }

  /** `Tenancy` as declared: the constructor sets the name, the provider and
      the options, and leaves the tenant and the recorded resolver
      uninitialised. */
  class DeclaredTenancy {
    const name: string
    const provider: Provider
    const options: Config
    var tenant: Prop<GenericTenant?>
    var identifiedBy: Prop<Option<string>>
    /** Every event dispatched by this tenancy so far. */
    ghost var events: seq<Event>

    constructor (name: string, provider: Provider, options: Config)
      ensures this.name == name && this.provider == provider && this.options == options
      ensures tenant == Unset && identifiedBy == Unset && events == []
    {
      this.name := name;
      this.provider := provider;
      this.options := options;
      tenant := Unset;
      identifiedBy := Unset;
      events := [];
    }

    /** `check()`: reads the tenant. */
    function Check(): (r: Result<bool>)
      reads this
      ensures tenant.Unset? ==> r == Err(Uninitialised("Tenancy", "tenant"))
      ensures tenant.Holds? ==> r == Ok(tenant.value != null)
    {
      match Read(tenant, "Tenancy", "tenant")
      case Err(e) => Err(e)
      case Ok(t) => Ok(t != null)
    }

    /** `identifier()`: `tenant()?->getTenantIdentifier()`, with the
        tenant's accessor as written. */
    function Identifier(): (r: Result<Value>)
      reads this
      ensures tenant.Unset? ==> r == Err(Uninitialised("Tenancy", "tenant"))
      ensures tenant == Holds(null) ==> r == Ok(VNull)
      ensures tenant.Holds? && tenant.value != null ==>
                var t := tenant.value;
                (t.identifierName == "identifier" ==> r == Ok(VStr("identifier")))
                && (t.identifierName == "key" ==> r == Ok(VStr(t.keyName)))
                && (t.identifierName == "attributes" ==> r == Err(IdentifierTypeError))
                && (t.identifierName !in DeclaredProperties ==>
                      (r.Ok? <==> t.identifierName in t.attributes && t.attributes[t.identifierName].VStr?)
                      && (r.Ok? ==> r.value == t.attributes[t.identifierName])
                      && (r.Err? ==> r.error == IdentifierTypeError))
    {
      match Read(tenant, "Tenancy", "tenant")
      case Err(e) => Err(e)
      case Ok(t) => if t == null then Ok(VNull) else t.TenantIdentifierAsWritten()
    }

    /** `key()`: `tenant()?->getTenantKey()`, with the tenant's accessor as
        written. */
    function Key(): (r: Result<Value>)
      reads this
      ensures tenant.Unset? ==> r == Err(Uninitialised("Tenancy", "tenant"))
      ensures tenant == Holds(null) ==> r == Ok(VNull)
      ensures tenant.Holds? && tenant.value != null ==>
                var t := tenant.value;
                (t.keyName == "key" ==> r == Ok(VStr("key")))
                && (t.keyName == "identifier" ==> r == Ok(VStr(t.identifierName)))
                && (t.keyName == "attributes" ==> r == Err(KeyTypeError))
                && (t.keyName !in DeclaredProperties ==>
                      (r.Ok? <==> t.keyName in t.attributes && (t.attributes[t.keyName].VStr? || t.attributes[t.keyName].VInt?))
                      && (r.Ok? ==> r.value == t.attributes[t.keyName])
                      && (r.Err? ==> r.error == KeyTypeError))
    {
      match Read(tenant, "Tenancy", "tenant")
      case Err(e) => Err(e)
      case Ok(t) => if t == null then Ok(VNull) else t.TenantKeyAsWritten()
    }

    /** `wasIdentified()`: `check()` first; only with a tenant is the
        recorded resolver read. */
    function WasIdentified(): (r: Result<bool>)
      reads this
      ensures tenant.Unset? ==> r == Err(Uninitialised("Tenancy", "tenant"))
      ensures tenant == Holds(null) ==> r == Ok(false)
      ensures tenant.Holds? && tenant.value != null && identifiedBy.Unset? ==>
                r == Err(Uninitialised("Tenancy", "identifiedBy"))
      ensures tenant.Holds? && tenant.value != null && identifiedBy.Holds? ==>
                r == Ok(identifiedBy.value.Some?)
    {
      match Check()
      case Err(e) => Err(e)
      case Ok(c) =>
        if !c then Ok(false)
        else match Read(identifiedBy, "Tenancy", "identifiedBy")
             case Err(e) => Err(e)
             case Ok(rec) => Ok(rec.Some?)
    }

    /** `wasLoaded()`: the same reads, testing for no resolver. */
    function WasLoaded(): (r: Result<bool>)
      reads this
      ensures tenant.Unset? ==> r == Err(Uninitialised("Tenancy", "tenant"))
      ensures tenant == Holds(null) ==> r == Ok(false)
      ensures tenant.Holds? && tenant.value != null && identifiedBy.Unset? ==>
                r == Err(Uninitialised("Tenancy", "identifiedBy"))
      ensures tenant.Holds? && tenant.value != null && identifiedBy.Holds? ==>
                r == Ok(identifiedBy.value.None?)
    {
      match Check()
      case Err(e) => Err(e)
      case Ok(c) =>
        if !c then Ok(false)
        else match Read(identifiedBy, "Tenancy", "identifiedBy")
             case Err(e) => Err(e)
             case Ok(rec) => Ok(rec.None?)
    }

    /** `setTenant($t)`: the comparison reads the tenant first, so on an
        uninitialised tenant the call fails before it can assign one. */
    method SetTenant(t: GenericTenant?) returns (r: Result<bool>)
      modifies this`tenant, this`events
      ensures old(tenant).Unset? ==>
                r == Err(Uninitialised("Tenancy", "tenant")) && tenant == Unset && events == old(events)
      ensures old(tenant).Holds? ==>
                r == Ok(old(tenant).value != t) && tenant == Holds(t)
                && events == if r.value then old(events) + [TenantChanged(old(tenant).value, t)] else old(events)
    {
      var current := Read(tenant, "Tenancy", "tenant");
      if current.Err? {
        return Err(current.error);
      }
      if current.value != t {
        events := events + [TenantChanged(current.value, t)];
        tenant := Holds(t);
        return Ok(true);
      }
      return Ok(false);
    }

    /** `identify($identifier, $resolver)`: a found tenant is dispatched
        before `setTenant`, so on an uninitialised tenant the event goes out
        and then the call fails, with the tenant still uninitialised. */
    method Identify(identifier: string, resolver: string) returns (r: Result<bool>)
      modifies this`tenant, this`identifiedBy, this`events
      ensures !FindsIdentifier(provider, identifier) ==>
                r == Ok(false) && tenant == old(tenant) && identifiedBy == old(identifiedBy) && events == old(events)
      ensures FindsIdentifier(provider, identifier) ==>
                |events| == |old(events)| + 1 + (if r == Ok(true) then 1 else 0)
                && events[..|old(events)|] == old(events)
                && events[|old(events)|].TenantIdentified? && events[|old(events)|].resolver == resolver
                && (provider.CustomProvider? ==> events[|old(events)|].tenant == provider.byIdentifier(identifier))
      ensures FindsIdentifier(provider, identifier) && old(tenant).Unset? ==>
                r == Err(Uninitialised("Tenancy", "tenant")) && tenant == Unset && identifiedBy == old(identifiedBy)
      ensures FindsIdentifier(provider, identifier) && old(tenant).Holds? ==>
                r.Ok? && tenant.Holds? && tenant.value == events[|old(events)|].tenant
                && (r.value <==> old(tenant).value != events[|old(events)|].tenant)
                && (r.value ==> events[|old(events)| + 1] == TenantChanged(old(tenant).value, tenant.value))
                && identifiedBy == if r.value then Holds(Some(resolver)) else old(identifiedBy)
    {
      var found := RetrieveByIdentifier(provider, identifier);
      if found == null {
        return Ok(false);
      }
      events := events + [TenantIdentified(found, resolver)];
      r := SetTenant(found);
      if r == Ok(true) {
        identifiedBy := Holds(Some(resolver));
      }
    }

    /** `load($key)`: the same, dispatching `TenantLoaded` and clearing the
        recorded resolver on a change. */
    method Load(key: Value) returns (r: Result<bool>)
      requires key.VInt? || key.VStr?
      modifies this`tenant, this`identifiedBy, this`events
      ensures !FindsKey(provider, key) ==>
                r == Ok(false) && tenant == old(tenant) && identifiedBy == old(identifiedBy) && events == old(events)
      ensures FindsKey(provider, key) ==>
                |events| == |old(events)| + 1 + (if r == Ok(true) then 1 else 0)
                && events[..|old(events)|] == old(events)
                && events[|old(events)|].TenantLoaded?
                && (provider.CustomProvider? ==> events[|old(events)|].tenant == provider.byKey(key))
      ensures FindsKey(provider, key) && old(tenant).Unset? ==>
                r == Err(Uninitialised("Tenancy", "tenant")) && tenant == Unset && identifiedBy == old(identifiedBy)
      ensures FindsKey(provider, key) && old(tenant).Holds? ==>
                r.Ok? && tenant.Holds? && tenant.value == events[|old(events)|].tenant
                && (r.value <==> old(tenant).value != events[|old(events)|].tenant)
                && (r.value ==> events[|old(events)| + 1] == TenantChanged(old(tenant).value, tenant.value))
                && identifiedBy == if r.value then Holds(None) else old(identifiedBy)
    {
      var found := RetrieveByKey(provider, key);
      if found == null {
        return Ok(false);
      }
      events := events + [TenantLoaded(found)];
      r := SetTenant(found);
      if r == Ok(true) {
        identifiedBy := Holds(None);
      }
    }
  }

  /** As declared, a tenancy the registry builds never obtains a tenant:
      each `identify` that finds one dispatches `TenantIdentified` and fails,
      a `load` that finds one dispatches `TenantLoaded` and fails, and
      `check()` itself fails. */
  method DeclaredTenancyNeverHoldsTenant(name: string, p: Provider, options: Config,
                                         identifier: string, resolver: string, key: Value)
    returns (identified: Result<bool>, loaded: Result<bool>, checked: Result<bool>, t: DeclaredTenancy)
    requires FindsIdentifier(p, identifier) && FindsKey(p, key) && (key.VInt? || key.VStr?)
    ensures identified == Err(Uninitialised("Tenancy", "tenant"))
    ensures loaded == Err(Uninitialised("Tenancy", "tenant"))
    ensures checked == Err(Uninitialised("Tenancy", "tenant"))
    ensures t.tenant == Unset && |t.events| == 2
    ensures t.events[0].TenantIdentified? && t.events[0].resolver == resolver && t.events[1].TenantLoaded?
  {
    t := new DeclaredTenancy(name, p, options);
    identified := t.Identify(identifier, resolver);
    loaded := t.Load(key);
    checked := t.Check();
  }

  /** `TenantedManager::$currentTenancy` as declared: uninitialised until
      `setCurrentTenancy` assigns it. */
  class DeclaredCurrentTenancy {
    var currentTenancy: Prop<Tenancy?>

    constructor ()
      ensures currentTenancy == Unset
    {
      currentTenancy := Unset;
    }

    /** `setCurrentTenancy($tenancy)`. */
    method SetCurrentTenancy(t: Tenancy?)
      modifies this
      ensures currentTenancy == Holds(t)
    {
      currentTenancy := Holds(t);
    }

    /** `currentTenancy()`: an error before the first set. */
    function CurrentTenancy(): (r: Result<Tenancy?>)
      reads this
      ensures currentTenancy.Unset? ==> r == Err(Uninitialised("TenantedManager", "currentTenancy"))
      ensures currentTenancy.Holds? ==> r == Ok(currentTenancy.value)
    {
      Read(currentTenancy, "TenantedManager", "currentTenancy")
    }
  }

  /** As declared, asking a new manager for its current tenancy fails
      instead of answering null; after a set it answers. */
  method CurrentTenancyBeforeSet(t: Tenancy?) returns (before: Result<Tenancy?>, after: Result<Tenancy?>)
    ensures before == Err(Uninitialised("TenantedManager", "currentTenancy"))
    ensures after == Ok(t)
  {
    var slot := new DeclaredCurrentTenancy();
    before := slot.CurrentTenancy();
    slot.SetCurrentTenancy(t);
    after := slot.CurrentTenancy();
  }
}
