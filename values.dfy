// PHP values, configuration arrays and the package's exceptions, as data.

module Values {

  datatype Option<T> = None | Some(value: T)

  /** A PHP value as far as the package inspects it: `null`, a boolean, an int,
      a string, an array with string keys, or anything else (floats, objects,
      closures). */
  datatype Value = VNull | VBool(b: bool) | VInt(i: int) | VStr(s: string) | VArray(entries: map<string, Value>) | VOther

  /** A configuration array or a database row: string keys to values. */
  type Config = map<string, Value>

  /** PHP `isset($c[$k])`: the key is present and its value is not null. */
  predicate IsSet(c: Config, k: string)
  {
    k in c && c[k] != VNull
  }

  /** `isset($c[$k]) && is_string($c[$k])`, giving the string when it holds. */
  function StringAt(c: Config, k: string): (r: Option<string>)
    ensures r.Some? <==> IsSet(c, k) && c[k].VStr?
    ensures r.Some? ==> c[k] == VStr(r.value)
  {
    if k in c && c[k].VStr? then Some(c[k].s) else None
  }

  /** `$c[$k] ?? null`. */
  function ValueAt(c: Config, k: string): (r: Value)
    ensures r != VNull <==> IsSet(c, k)
    ensures IsSet(c, k) ==> r == c[k]
  {
    if k in c then c[k] else VNull
  }

  /** `$c[$k] ?? $default` for a string-typed parameter: a set string is used,
      an absent or null entry gives the default. */
  function StringOr(c: Config, k: string, default: string): (r: string)
    ensures StringAt(c, k).Some? ==> r == StringAt(c, k).value
    ensures !IsSet(c, k) ==> r == default
  {
    match StringAt(c, k)
    case Some(s) => s
    case None => default
  }

  /** `$c[$k] ?? []` for an array-typed parameter: a set array is used, an
      absent or null entry gives the empty array. A set value of another
      type is a type error for the parameter, not modelled: it gives the
      empty array here. */
  function ArrayOr(c: Config, k: string): (r: Config)
    ensures IsSet(c, k) && c[k].VArray? ==> r == c[k].entries
    ensures !IsSet(c, k) ==> r == map[]
  {
    if k in c && c[k].VArray? then c[k].entries else map[]
  }

  /** An optional name: `$name ?? $default`. */
  function NameOr(name: Option<string>, default: string): (r: string)
    ensures name.Some? ==> r == name.value
    ensures name.None? ==> r == default
  {
    if name.Some? then name.value else default
  }

  /** ASCII lower-casing, the folding PHP applies when it looks a method name up. */
  function AsciiLower(s: string): (r: string)
    ensures |r| == |s|
    ensures forall i :: 0 <= i < |s| ==> r[i] == (if 'A' <= s[i] <= 'Z' then (s[i] as int + 32) as char else s[i])
  {
    if s == [] then []
    else [if 'A' <= s[0] <= 'Z' then (s[0] as int + 32) as char else s[0]] + AsciiLower(s[1..])
  }

  /** Every exception the package throws, one constructor per named factory. */
  datatype Failure =
    // TenantProviderException
    | ProviderNoDriver(name: string)
    | ProviderMissingConfig(name: string, config: string)
    | ProviderInvalidClass(name: string, config: string, classes: seq<string>)
    | ProviderUnknown(name: string)
    // TenancyException
    | TenancyNoDriver(name: string)
    | TenancyUnknown(name: string)
    // IdentityResolverException
    | ResolverNoDriver(name: string)
    | ResolverMissingConfig(name: string, config: string)
    | ResolverUnknown(name: string)
    // TenantNotFoundException
    | TenantNone(tenancy: string)
    | TenantMissing(tenancy: string, resolver: string)
    | TenantInvalidResolver(tenancy: string, resolver: string)
    // EloquentRelationshipException
    | RelationInvalid(model: string, relation: string, tenancy: string)
    | RelationMissingMethod(model: string, methodName: string)
    | NoRelationship(model: string, relationship: string)
    | NoCreation(model: string, relationship: string)
    | UnknownRelationship(relationType: string)
    // PHP's own Error: a call to a method the class does not define, a
    // read of a typed property that was never initialised, or a value of
    // the wrong type passed for a typed parameter or returned through a
    // typed return
    | UndefinedMethod(owner: string, methodName: string)
    | Uninitialised(owner: string, property: string)
    | ArgumentType(owner: string, parameter: string)
    | ReturnType(owner: string, methodName: string)

  datatype Result<T> = Ok(value: T) | Err(error: Failure)
  {
    predicate IsFailure() { Err? }
    function PropagateFailure<U>(): Result<U>
      requires Err?
    {
      Err(error)
    }
    function Extract(): T
      requires Ok?
    {
      value
    }
  }
}
