// The generic tenant entity: a read-only bag of attributes with the names of
// its key and identifier attributes. The class is compiled with strict types,
// so a typed return of the wrong type is a TypeError rather than a coercion.

module Tenants {
  import opened Values

  const DefaultKeyName := "id"
  const DefaultIdentifierName := "identifier"

  /** The properties the class declares. Inside the class, `$this->{$name}`
      reads one of these directly; only other names reach `__get`. */
  const DeclaredProperties: set<string> := {"attributes", "key", "identifier"}

  /** The typed return `string`: a string passes, anything else (null
      included) is a TypeError. */
  function StringReturn(v: Value, methodName: string): (r: Result<Value>)
    ensures r.Ok? <==> v.VStr?
    ensures r.Ok? ==> r.value == v
    ensures r.Err? ==> r.error == ReturnType("GenericTenant", methodName)
  {
    if v.VStr? then Ok(v) else Err(ReturnType("GenericTenant", methodName))
  }

  /** The typed return `string|int`. */
  function KeyReturn(v: Value, methodName: string): (r: Result<Value>)
    ensures r.Ok? <==> v.VStr? || v.VInt?
    ensures r.Ok? ==> r.value == v
    ensures r.Err? ==> r.error == ReturnType("GenericTenant", methodName)
  {
    if v.VStr? || v.VInt? then Ok(v) else Err(ReturnType("GenericTenant", methodName))
  }

  /** The error `getTenantIdentifier` raises for a value that is not a string. */
  const IdentifierTypeError := ReturnType("GenericTenant", "getTenantIdentifier")
  /** The error `getTenantKey` raises for a value that is neither a string nor an int. */
  const KeyTypeError := ReturnType("GenericTenant", "getTenantKey")

  /** A tenant. Object identity matters: the tenancy compares tenants with
      PHP's `!==`, which for objects is reference inequality. Every field is
      fixed at construction; writes and unsets through the magic accessors are
      deliberately ignored, so no method here changes anything. */
  class GenericTenant {
    const attributes: Config
    const keyName: string
    const identifierName: string

    /** `new GenericTenant($attributes, $key, $identifier)`. */
    constructor (attributes: Config, keyName: string, identifierName: string)
      ensures this.attributes == attributes
      ensures this.keyName == keyName && this.identifierName == identifierName
    {
      this.attributes := attributes;
      this.keyName := keyName;
      this.identifierName := identifierName;
    }

    /** `new GenericTenant($attributes)`: the default key and identifier names. */
    constructor FromAttributes(attributes: Config)
      ensures this.attributes == attributes
      ensures keyName == DefaultKeyName && identifierName == DefaultIdentifierName
    {
      this.attributes := attributes;
      keyName := DefaultKeyName;
      identifierName := DefaultIdentifierName;
    }

    /** `__get`: the attribute, or null when it is absent. */
    function Get(name: string): (r: Value)
      ensures name in attributes ==> r == attributes[name]
      ensures name !in attributes ==> r == VNull
    {
      if name in attributes then attributes[name] else VNull
    }

    /** `__isset`: `array_key_exists`, so a key holding null still counts. */
    predicate Has(name: string)
      ensures Has(name) ==> name in attributes && Get(name) == attributes[name]
      ensures !Has(name) ==> Get(name) == VNull
    {
      name in attributes
    }

    /** `__set`: intentionally does nothing. */
    method Set(name: string, value: Value)
    {
    }

    /** `__unset`: intentionally does nothing. */
    method Unset(name: string)
    {
    }

    /** `$this->{$name}` inside the class, as written: a declared property
        is read itself, the attribute array for `attributes` and the stored
        names for `key` and `identifier`; any other name goes to `__get`. */
    function OwnRead(name: string): (r: Value)
      ensures name !in DeclaredProperties ==> r == Get(name)
      ensures name == "attributes" ==> r == VArray(attributes)
      ensures name == "key" ==> r == VStr(keyName)
      ensures name == "identifier" ==> r == VStr(identifierName)
    {
      if name == "attributes" then VArray(attributes)
      else if name == "key" then VStr(keyName)
      else if name == "identifier" then VStr(identifierName)
      else Get(name)
    }

    /** `getTenantIdentifier` as written: the own read of the identifier
        name, which for the default name `identifier` is that name itself. */
    function TenantIdentifierAsWritten(): (r: Result<Value>)
      ensures identifierName !in DeclaredProperties ==> r == TenantIdentifier()
      ensures identifierName == "identifier" ==> r == Ok(VStr("identifier"))
      ensures identifierName == "key" ==> r == Ok(VStr(keyName))
      ensures identifierName == "attributes" ==> r == Err(IdentifierTypeError)
    {
      StringReturn(OwnRead(identifierName), "getTenantIdentifier")
    }

    /** `getTenantKey` as written: the own read of the key name. */
    function TenantKeyAsWritten(): (r: Result<Value>)
      ensures keyName !in DeclaredProperties ==> r == TenantKey()
      ensures keyName == "key" ==> r == Ok(VStr("key"))
      ensures keyName == "identifier" ==> r == Ok(VStr(identifierName))
      ensures keyName == "attributes" ==> r == Err(KeyTypeError)
    {
      KeyReturn(OwnRead(keyName), "getTenantKey")
    }

    /** `getTenantIdentifier` as intended: the attribute named by the
        identifier name, which must be a string; an absent attribute reads
        as null and is a TypeError like any other non-string. */
    function TenantIdentifier(): (r: Result<Value>)
      ensures r.Ok? <==> identifierName in attributes && attributes[identifierName].VStr?
      ensures r.Ok? ==> r.value == attributes[identifierName]
      ensures r.Err? ==> r.error == IdentifierTypeError
    {
      StringReturn(Get(identifierName), "getTenantIdentifier")
    }

    /** `getTenantKey` as intended: the attribute named by the key name,
        which must be a string or an int. */
    function TenantKey(): (r: Result<Value>)
      ensures r.Ok? <==> keyName in attributes && (attributes[keyName].VStr? || attributes[keyName].VInt?)
      ensures r.Ok? ==> r.value == attributes[keyName]
      ensures r.Err? ==> r.error == KeyTypeError
    {
      KeyReturn(Get(keyName), "getTenantKey")
    }
  }

  /** A tenant built from attributes alone is keyed by its `id` attribute
      and, as intended, identified by its `identifier` attribute; each must
      hold a value of the returned type. It reads back exactly its
      attributes. */
  method DefaultNames(attributes: Config) returns (t: GenericTenant)
    ensures t.TenantKey() == (if "id" in attributes && (attributes["id"].VStr? || attributes["id"].VInt?)
                              then Ok(attributes["id"]) else Err(KeyTypeError))
    ensures t.TenantIdentifier() == (if "identifier" in attributes && attributes["identifier"].VStr?
                                     then Ok(attributes["identifier"]) else Err(IdentifierTypeError))
    ensures t.TenantKeyAsWritten() == t.TenantKey()
    ensures forall name :: t.Has(name) <==> name in attributes
  {
    t := new GenericTenant.FromAttributes(attributes);
  }

  /** As written, a tenant with the default names is identified by the
      literal string `identifier`, whatever its attributes say: the own read
      finds the declared property before `__get` is consulted. */
  method DefaultIdentifierIsItsName(attributes: Config) returns (t: GenericTenant)
    ensures t.attributes == attributes
    ensures t.keyName == DefaultKeyName && t.identifierName == DefaultIdentifierName
    ensures t.TenantIdentifierAsWritten() == Ok(VStr("identifier"))
    ensures "identifier" in attributes && attributes["identifier"].VStr? && attributes["identifier"] != VStr("identifier") ==>
              t.TenantIdentifierAsWritten() != t.TenantIdentifier()
  {
    t := new GenericTenant.FromAttributes(attributes);
  }

  /** The input that shows it: `['identifier' => 'acme', 'id' => 7]`. */
  method AcmeIdentifiedAsItsName() returns (t: GenericTenant)
    ensures t.TenantIdentifier() == Ok(VStr("acme")) && t.TenantKey() == Ok(VInt(7))
    ensures t.TenantIdentifierAsWritten() == Ok(VStr("identifier"))
  {
    t := DefaultIdentifierIsItsName(map["identifier" := VStr("acme"), "id" := VInt(7)]);
  }

  /** Writes and unsets through the magic accessors leave every attribute
      as it was. */
  method WritesIgnored(t: GenericTenant, name: string, v: Value) returns (before: Value, after: Value)
    ensures before == after
  {
    before := t.Get(name);
    t.Set(name, v);
    t.Unset(name);
    after := t.Get(name);
  }

  /** Presence and value differ only for a stored null: `__isset` is true
      for it while `__get` gives null, the same as for an absent name. */
  lemma StoredNullIsSet(t: GenericTenant, name: string)
    requires name in t.attributes && t.attributes[name] == VNull
    ensures t.Has(name) && t.Get(name) == VNull
  {
  }
}
