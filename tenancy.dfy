// A tenancy: a named slot holding the current tenant, how it got there, and
// the events dispatched along the way.

module Tenancies {
  import opened Values
  import opened Tenants
  import opened Providers

  /** The events a tenancy dispatches, in the order it dispatches them. */
  datatype Event =
    | TenantIdentified(tenant: GenericTenant, resolver: string)
    | TenantLoaded(tenant: GenericTenant)
    | TenantChanged(previous: GenericTenant?, current: GenericTenant?)

  class Tenancy {
    const name: string
    const provider: Provider
    const options: Config
    /** The current tenant; `null` until one is set. */
    var tenant: GenericTenant?
    /** The name of the resolver that identified the current tenant; `null`
        when it was loaded by key, or nothing has happened yet. */
    var identifiedBy: Option<string>
    /** Every event dispatched by this tenancy so far. */
    ghost var events: seq<Event>

    /** A new tenancy starts with no tenant and no resolver. */
    constructor (name: string, provider: Provider, options: Config)
      ensures this.name == name && this.provider == provider && this.options == options
      ensures tenant == null && identifiedBy == None && events == []
    {
      this.name := name;
      this.provider := provider;
      this.options := options;
      tenant := null;
      identifiedBy := None;
      events := [];
    }

    /** `check()`: there is a current tenant. See `LoadedXorIdentified`. */
    predicate Check()
      reads this
    {
      tenant != null
    }

    /** `identifier()`: null without a tenant; otherwise the tenant's
        identifier attribute, whose `getTenantIdentifier` throws unless it is
        a string. */
    function Identifier(): (r: Result<Value>)
      reads this
      ensures !Check() ==> r == Ok(VNull)
      ensures Check() ==>
                (r.Ok? <==> tenant.identifierName in tenant.attributes && tenant.attributes[tenant.identifierName].VStr?)
                && (r.Ok? ==> r.value == tenant.attributes[tenant.identifierName])
                && (r.Err? ==> r.error == IdentifierTypeError)
    {
      if tenant == null then Ok(VNull) else tenant.TenantIdentifier()
    }

    /** `key()`: null without a tenant; otherwise the tenant's key
        attribute, whose `getTenantKey` throws unless it is a string or an
        int. */
    function Key(): (r: Result<Value>)
      reads this
      ensures !Check() ==> r == Ok(VNull)
      ensures Check() ==>
                (r.Ok? <==> tenant.keyName in tenant.attributes
                            && (tenant.attributes[tenant.keyName].VStr? || tenant.attributes[tenant.keyName].VInt?))
                && (r.Ok? ==> r.value == tenant.attributes[tenant.keyName])
                && (r.Err? ==> r.error == KeyTypeError)
    {
      if tenant == null then Ok(VNull) else tenant.TenantKey()
    }

    /** `wasLoaded()`: a tenant is present and no resolver is recorded. */
    function WasLoaded(): (r: bool)
      reads this
      ensures r ==> Check() && !WasIdentified()
      ensures !Check() ==> !r
      ensures Check() ==> (r <==> identifiedBy.None?)
    {
      tenant != null && identifiedBy.None?
    }

    /** `wasIdentified()`: a tenant is present and a resolver is recorded. */
    function WasIdentified(): (r: bool)
      reads this
      ensures r ==> Check() && identifiedBy.Some?
      ensures !Check() ==> !r
      ensures Check() ==> (r <==> identifiedBy.Some?)
    {
      tenant != null && identifiedBy.Some?
    }

    /** `option($name, $default)`: the option, or the default when absent. */
    function OptionValue(key: string, default: Value): (r: Value)
      reads this
      ensures key in options ==> r == options[key]
      ensures key !in options ==> r == default
    {
      if key in options then options[key] else default
    }

    /** `setTenant($t)`: a change of tenant object dispatches one
        `TenantChanged(old, new)` before assigning and reports true; the same
        object (both null included) changes nothing and reports false. The
        recorded resolver is never touched, so after `setTenant(null)` a stale
        resolver name may remain, hidden only by `check()`. */
    method SetTenant(t: GenericTenant?) returns (changed: bool)
      modifies this`tenant, this`events
      ensures changed <==> old(tenant) != t
      ensures tenant == t
      ensures identifiedBy == old(identifiedBy)
      ensures events == if changed then old(events) + [TenantChanged(old(tenant), t)] else old(events)
    {
      if tenant != t {
        events := events + [TenantChanged(tenant, t)];
        tenant := t;
        changed := true;
      } else {
        changed := false;
      }
    }

    /** `identify($identifier, $resolver)`: see `Identified`. A built-in
        provider's tenant is a new object. */
    method Identify(identifier: string, resolver: string) returns (r: bool)
      modifies this`tenant, this`identifiedBy, this`events
      ensures Identified(this, old(tenant), old(identifiedBy), old(events), identifier, resolver, r)
      ensures r && !provider.CustomProvider? ==> fresh(tenant)
    {
      var found := RetrieveByIdentifier(provider, identifier);
      if found != null {
        events := events + [TenantIdentified(found, resolver)];
        var changed := SetTenant(found);
        if changed {
          identifiedBy := Some(resolver);
          return true;
        }
      }
      return false;
    }

    /** `load($key)`: see `Loaded`. */
    method Load(key: Value) returns (r: bool)
      requires key.VInt? || key.VStr?
      modifies this`tenant, this`identifiedBy, this`events
      ensures Loaded(this, old(tenant), old(identifiedBy), old(events), key, r)
      ensures r && !provider.CustomProvider? ==> fresh(tenant)
    {
      var found := RetrieveByKey(provider, key);
      if found != null {
        events := events + [TenantLoaded(found)];
        var changed := SetTenant(found);
        if changed {
          identifiedBy := None;
          return true;
        }
      }
      return false;
    }
  }

  /** A tenancy's changeable state: its tenant, recorded resolver and
      events. */
  ghost function State(t: Tenancy): (GenericTenant?, Option<string>, seq<Event>)
    reads t
  {
    (t.tenant, t.identifiedBy, t.events)
  }

  /** The state a new tenancy starts in. */
  ghost const Initial: (GenericTenant?, Option<string>, seq<Event>) := (null, None, [])

  /** What `identify($identifier, $resolver)` leaves behind, from the
      tenant, recorded resolver and events before the call. Nothing found:
      false, nothing changes. Something found: `TenantIdentified` is
      dispatched and it becomes the tenant; the result is true exactly when
      that changed the tenant object, and only then is the resolver
      recorded, after one `TenantChanged`. A built-in provider's tenant is
      always a new object, so for it a find is always a change. */
  ghost predicate Identified(t: Tenancy, tenant0: GenericTenant?, by0: Option<string>, events0: seq<Event>,
                             identifier: string, resolver: string, r: bool)
    reads t
  {
    var p := t.provider;
    if !FindsIdentifier(p, identifier) then
      !r && t.tenant == tenant0 && t.identifiedBy == by0 && t.events == events0
    else
      t.tenant != null
      && (p.CustomProvider? ==> t.tenant == p.byIdentifier(identifier))
      && (!p.CustomProvider? ==> r && t.tenant.attributes == Lookup(p, IdentifierColumn(p), VStr(identifier)).value)
      && (r <==> t.tenant != tenant0)
      && t.identifiedBy == (if r then Some(resolver) else by0)
      && t.events == events0 + [TenantIdentified(t.tenant, resolver)] + (if r then [TenantChanged(tenant0, t.tenant)] else [])
  }

  /** What `load($key)` leaves behind: the same as `Identified` on the key
      column, with `TenantLoaded` and the recorded resolver cleared. */
  ghost predicate Loaded(t: Tenancy, tenant0: GenericTenant?, by0: Option<string>, events0: seq<Event>,
                         key: Value, r: bool)
    reads t
  {
    var p := t.provider;
    if !FindsKey(p, key) then
      !r && t.tenant == tenant0 && t.identifiedBy == by0 && t.events == events0
    else
      t.tenant != null
      && (p.CustomProvider? ==> t.tenant == p.byKey(key))
      && (!p.CustomProvider? ==> r && t.tenant.attributes == Lookup(p, KeyColumn(p), key).value)
      && (r <==> t.tenant != tenant0)
      && t.identifiedBy == (if r then None else by0)
      && t.events == events0 + [TenantLoaded(t.tenant)] + (if r then [TenantChanged(tenant0, t.tenant)] else [])
  }

  /** `identify` reports true only when `setTenant` reported a change, and
      then the tenancy counts as identified by that resolver; a false result
      leaves tenant and resolver as they were, though a find is still
      dispatched. */
  lemma IdentifyReportsChange(t: Tenancy, tenant0: GenericTenant?, by0: Option<string>, events0: seq<Event>,
                              identifier: string, resolver: string, r: bool)
    requires Identified(t, tenant0, by0, events0, identifier, resolver, r)
    ensures r <==> FindsIdentifier(t.provider, identifier) && t.tenant != tenant0
    ensures r ==> t.WasIdentified() && t.identifiedBy == Some(resolver)
    ensures !r ==> t.tenant == tenant0 && t.identifiedBy == by0
    ensures FindsIdentifier(t.provider, identifier) ==>
              |t.events| > |events0| && t.events[|events0|] == TenantIdentified(t.tenant, resolver)
  {
  }

  /** A custom provider that answers with the current tenant: the event is
      dispatched, nothing else changes, and the result is false. */
  lemma IdentifySameTenant(t: Tenancy, tenant0: GenericTenant?, by0: Option<string>, events0: seq<Event>,
                           identifier: string, resolver: string, r: bool)
    requires t.provider.CustomProvider? && t.provider.byIdentifier(identifier) == tenant0 && tenant0 != null
    requires Identified(t, tenant0, by0, events0, identifier, resolver, r)
    ensures !r && t.tenant == tenant0 && t.identifiedBy == by0
    ensures t.events == events0 + [TenantIdentified(tenant0, resolver)]
  {
  }

  /** `load` reports true only on a change, and then the tenancy counts as
      loaded with no resolver. */
  lemma LoadReportsChange(t: Tenancy, tenant0: GenericTenant?, by0: Option<string>, events0: seq<Event>,
                          key: Value, r: bool)
    requires Loaded(t, tenant0, by0, events0, key, r)
    ensures r <==> FindsKey(t.provider, key) && t.tenant != tenant0
    ensures r ==> t.WasLoaded() && t.identifiedBy == None
    ensures !r ==> t.tenant == tenant0 && t.identifiedBy == by0
  {
  }

  /** With the tenant starting as null, a new tenancy whose provider finds
      a tenant is identified by it: the find and the change are both
      dispatched, and the resolver is recorded. */
  method NewTenancyIdentifies(name: string, p: Provider, options: Config, identifier: string, resolver: string)
    returns (t: Tenancy, r: bool)
    requires FindsIdentifier(p, identifier)
    ensures r && t.WasIdentified() && t.identifiedBy == Some(resolver)
    ensures t.events == [TenantIdentified(t.tenant, resolver), TenantChanged(null, t.tenant)]
  {
    t := new Tenancy(name, p, options);
    r := t.Identify(identifier, resolver);
  }

  /** A tenancy is never both loaded and identified, and neither holds
      without a tenant. */
  lemma LoadedXorIdentified(t: Tenancy)
    ensures !(t.WasLoaded() && t.WasIdentified())
    ensures !t.Check() ==> !t.WasLoaded() && !t.WasIdentified()
    ensures t.Check() ==> t.WasLoaded() || t.WasIdentified()
  {
  }

  /** Clearing the tenant leaves the recorded resolver in place, but it is
      no longer reported: the tenancy is neither loaded nor identified. */
  method ClearTenant(t: Tenancy) returns (changed: bool)
    modifies t`tenant, t`events
    ensures changed <==> old(t.tenant) != null
    ensures t.identifiedBy == old(t.identifiedBy)
    ensures !t.Check() && !t.WasIdentified() && !t.WasLoaded()
  {
    changed := t.SetTenant(null);
  }
}
