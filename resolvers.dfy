// Identity resolvers: read a tenant identifier out of an incoming request,
// from a route parameter, a header, a path segment or the host name.

module Resolvers {
  import opened Values
  import opened Tenants

  /** What `resolve` returns: a string, `null`, or `false`. */
  datatype Resolved = Found(identifier: string) | Null | Rejected

  /** PHP truthiness of a `string|null|false`: `null`, `false`, `""` and
      `"0"` are falsy. */
  predicate Truthy(r: Resolved)
  {
    r.Found? && r.identifier != "" && r.identifier != "0"
  }

  /** The matched route's parameters, which a parameter-based resolver
      forgets in place once it has read its own. */
  class Route {
    var parameters: map<string, Value>

    constructor (parameters: map<string, Value>)
      ensures this.parameters == parameters
    {
      this.parameters := parameters;
    }

    /** `forgetParameter`: drop one parameter, keep every other. */
    method ForgetParameter(name: string)
      modifies this
      ensures parameters == old(parameters) - {name}
    {
      parameters := parameters - {name};
    }
  }

  /** The parts of an HTTP request the resolvers look at. `segment` is the
      request's positional path lookup, and `route` is null for a request
      that matched no route. */
  datatype Request = Request(
    route: Route?,
    headers: map<string, Value>,
    host: string,
    segment: int -> Option<string>)

  /** The process-wide exclusion predicate of the subdomain resolver. */
  class Exclusion {
    var current: Option<(string, string) -> bool>

    constructor ()
      ensures current == None
    {
      current := None;
    }

    /** `excludeCallback`: replace the predicate. */
    method ExcludeCallback(p: (string, string) -> bool)
      modifies this
      ensures current == Some(p)
    {
      current := Some(p);
    }
  }

  datatype Resolver =
    | PathResolver(name: string, segment: int)
    | HeaderResolver(name: string, header: string)
    | SubdomainResolver(name: string, domain: string)

  /** The URL generator's default parameters. */
  class UrlDefaults {
    var defaults: map<string, Value>

    constructor ()
      ensures defaults == map[]
    {
      defaults := map[];
    }

    /** `defaults([...])`: merge, the given entries winning. */
    method Merge(entries: map<string, Value>)
      modifies this
      ensures defaults == old(defaults) + entries
    {
      defaults := defaults + entries;
    }
  }

  /** `getParameterName`: the slug of `<tenancy>_<resolver>`. See
      `ParameterNameShared`. */
  function ParameterName(slug: string -> string, tenancy: string, resolver: string): string
  {
    slug(tenancy + "_" + resolver)
  }

  /** An underscore in a tenancy or resolver name makes two different pairs
      share one route parameter, whatever the slug function. */
  lemma ParameterNameShared(slug: string -> string)
    ensures ParameterName(slug, "a_b", "c") == ParameterName(slug, "a", "b_c")
  {
    assert "a_b" + "_" + "c" == "a" + "_" + "b_c";
  }

  /** The `tenanted.route:<tenancy>,<resolver>` marker `routes` attaches. */
  function Marker(tenancy: string, resolver: string): (r: string)
    ensures |r| == 16 + |tenancy| + |resolver|
    ensures r[..15] == "tenanted.route:" && r[15..15 + |tenancy|] == tenancy
    ensures r[15 + |tenancy|] == ',' && r[16 + |tenancy|..] == resolver
  {
    "tenanted.route:" + tenancy + "," + resolver
  }

  /** A route parameter's value as the resolver returns it: a string as is,
      null as null, anything else rejected. */
  function Classify(v: Value): (r: Resolved)
    ensures r.Found? <==> v.VStr?
    ensures r.Found? ==> v == VStr(r.identifier)
    ensures r == Null <==> v == VNull
  {
    match v
    case VStr(s) => Found(s)
    case VNull => Null
    case _ => Rejected
  }

  /** The parameter branch of resolution on a route's parameters: the
      result, and the parameters left afterwards. A missing parameter is a
      rejection that leaves the parameters alone; a present one is removed
      whatever its value, and its value is classified. */
  function ParameterOutcome(params: map<string, Value>, p: string): (out: (Resolved, map<string, Value>))
    ensures p !in params ==> out.0 == Rejected && out.1 == params
    ensures p in params ==> out.0 == Classify(params[p]) && p !in out.1
    ensures forall k :: k != p ==> (k in out.1 <==> k in params)
    ensures forall k :: k != p && k in params ==> out.1[k] == params[k]
  {
    if p in params then (Classify(params[p]), params - {p}) else (Rejected, params)
  }

  /** `str_ends_with`. */
  predicate EndsWith(s: string, suffix: string)
  {
    |suffix| <= |s| && s[|s| - |suffix|..] == suffix
  }

  /** `sep` occurs in `s` starting at `i`. */
  predicate OccursAt(s: string, sep: string, i: nat)
  {
    i + |sep| <= |s| && s[i..i + |sep|] == sep
  }

  /** `Str::before`: the part of `s` before the first occurrence of `sep`;
      all of `s` when `sep` is empty or does not occur. */
  function Before(s: string, sep: string): (r: string)
    ensures |r| <= |s| && r == s[..|r|]
    decreases |s|
  {
    if sep == [] || |s| < |sep| then s
    else if s[..|sep|] == sep then []
    else [s[0]] + Before(s[1..], sep)
  }

  /** `Before` stops at the first occurrence of a non-empty separator. */
  lemma {:induction false} BeforeFirstOccurrence(s: string, sep: string, i: nat)
    requires sep != [] && OccursAt(s, sep, i)
    requires forall j :: 0 <= j < i ==> !OccursAt(s, sep, j)
    ensures Before(s, sep) == s[..i]
  {
    if i == 0 {
      assert s[..|sep|] == sep;
    } else {
      assert !OccursAt(s, sep, 0);
      assert s[..|sep|] != sep;
      forall j | 0 <= j < i - 1 ensures !OccursAt(s[1..], sep, j) {
        assert !OccursAt(s, sep, j + 1);
        assert s[1..][j..j + |sep|] == s[j + 1..j + 1 + |sep|];
      }
      assert s[1..][i - 1..i - 1 + |sep|] == s[i..i + |sep|];
      BeforeFirstOccurrence(s[1..], sep, i - 1);
      assert s[..i] == [s[0]] + s[1..][..i - 1];
    }
  }

  /** A separator that occurs somewhere has a first occurrence. */
  lemma {:induction false} FirstOccurrence(s: string, sep: string, k: nat) returns (i: nat)
    requires OccursAt(s, sep, k)
    ensures i <= k && OccursAt(s, sep, i) && forall j :: 0 <= j < i ==> !OccursAt(s, sep, j)
  {
    if k > 0 && exists j :: 0 <= j < k && OccursAt(s, sep, j) {
      var j :| 0 <= j < k && OccursAt(s, sep, j);
      i := FirstOccurrence(s, sep, j);
    } else {
      i := k;
    }
  }

  /** The route-less subdomain branch: with `host` ending in `.domain`,
      everything before the first `.domain`; otherwise a rejection. */
  function HostSubdomain(host: string, domain: string): (r: Resolved)
    ensures r.Found? <==> EndsWith(host, "." + domain)
  {
    var sep := "." + domain;
    if EndsWith(host, sep) then Found(Before(host, sep)) else Rejected
  }

  /** What the route-less subdomain branch finds is exactly the part of the
      host before the first `.domain`, which may come before the suffix. */
  lemma HostSubdomainIsFirstPrefix(host: string, domain: string)
    requires EndsWith(host, "." + domain)
    ensures exists i: nat :: OccursAt(host, "." + domain, i)
                        && HostSubdomain(host, domain) == Found(host[..i])
                        && forall j :: 0 <= j < i ==> !OccursAt(host, "." + domain, j)
  {
    var sep := "." + domain;
    assert OccursAt(host, sep, |host| - |sep|);
    var i := FirstOccurrence(host, sep, |host| - |sep|);
    BeforeFirstOccurrence(host, sep, i);
    assert HostSubdomain(host, domain) == Found(host[..i]);
  }

  /** `Before` of a piece free of the separator's first character, then the
      separator, then anything, is that piece. */
  lemma {:induction false} BeforePlainPrefix(p: string, sep: string, rest: string)
    requires sep != [] && sep[0] !in p
    ensures Before(p + sep + rest, sep) == p
  {
    var s := p + sep + rest;
    if p == [] {
      assert s[..|sep|] == sep;
    } else {
      assert s[..|sep|][0] == p[0] != sep[0];
      assert s[1..] == p[1..] + sep + rest;
      BeforePlainPrefix(p[1..], sep, rest);
      assert [p[0]] + p[1..] == p;
    }
  }

  /** A host `<sub>.<domain>` whose `<sub>` has no dot gives exactly `<sub>`. */
  lemma HostSubdomainOfPlainHost(sub: string, domain: string)
    requires '.' !in sub
    ensures HostSubdomain(sub + "." + domain, domain) == Found(sub)
  {
    var sep := "." + domain;
    assert sub + "." + domain == sub + sep + [];
    assert (sub + sep)[|sub|..] == sep;
    BeforePlainPrefix(sub, sep, []);
  }

  /** The tenancy name and resolver name are what a resolver needs of its
      tenancy; `ResolveSpec` gives the result and the route parameters
      afterwards (`None` for a request without a route). */
  function ResolveSpec(res: Resolver, params: Option<map<string, Value>>, req: Request, tenancy: string,
                       slug: string -> string, exclude: Option<(string, string) -> bool>)
    : (Resolved, Option<map<string, Value>>)
  {
    match res
    case HeaderResolver(_, header) =>
      (if header !in req.headers then Rejected else if req.headers[header].VStr? then Found(req.headers[header].s) else Rejected,
       params)
    case PathResolver(name, segment) =>
      if params.None? then
        (match req.segment(segment) case Some(s) => Found(s) case None => Null, params)
      else
        var out := ParameterOutcome(params.value, ParameterName(slug, tenancy, name));
        (out.0, Some(out.1))
    case SubdomainResolver(name, domain) =>
      if params.None? then (HostSubdomain(req.host, domain), params)
      else
        var out := ParameterOutcome(params.value, ParameterName(slug, tenancy, name));
        if out.0.Found? && exclude.Some? && exclude.value(out.0.identifier, req.host) then (Rejected, Some(out.1))
        else (out.0, Some(out.1))
  }

  /** The header resolver never yields null and never touches the route:
      the header's string value, or a rejection. */
  lemma HeaderResolution(name: string, header: string, params: Option<map<string, Value>>, req: Request,
                         tenancy: string, slug: string -> string, exclude: Option<(string, string) -> bool>)
    ensures var out := ResolveSpec(HeaderResolver(name, header), params, req, tenancy, slug, exclude);
            out.0 != Null && out.1 == params
            && (out.0.Found? <==> header in req.headers && req.headers[header].VStr?)
            && (out.0.Found? ==> req.headers[header] == VStr(out.0.identifier))
  {
  }

  /** The shipped header resolver reads `Tenant-Identifier: acme` as `acme`. */
  lemma HeaderExample(req: Request, params: Option<map<string, Value>>, slug: string -> string)
    requires req.headers == map["Tenant-Identifier" := VStr("acme")]
    ensures ResolveSpec(HeaderResolver("header", "Tenant-Identifier"), params, req, "primary", slug, None).0 == Found("acme")
  {
  }

  /** Without a route the path resolver reads the request's segment at its
      index, whatever the tenancy, the slug or the exclusion predicate. */
  lemma PathWithoutRoute(name: string, segment: int, req: Request, tenancy: string, otherTenancy: string,
                         slug: string -> string, otherSlug: string -> string,
                         exclude: Option<(string, string) -> bool>)
    ensures var out := ResolveSpec(PathResolver(name, segment), None, req, tenancy, slug, exclude);
            out == ResolveSpec(PathResolver(name, segment), None, req, otherTenancy, otherSlug, None)
            && out.1 == None
            && (req.segment(segment).Some? ==> out.0 == Found(req.segment(segment).value))
            && (req.segment(segment).None? ==> out.0 == Null)
  {
  }

  /** With a route, the subdomain resolver is the parameter resolver plus the
      exclusion predicate: a found identifier becomes a rejection exactly
      when a predicate is set and holds of it and the host; null and
      rejections pass through untouched, and the route loses the parameter
      either way. */
  lemma SubdomainWithRoute(name: string, domain: string, segment: int, params: map<string, Value>, req: Request,
                           tenancy: string, slug: string -> string, exclude: Option<(string, string) -> bool>)
    ensures var parent := ResolveSpec(PathResolver(name, segment), Some(params), req, tenancy, slug, exclude);
            var out := ResolveSpec(SubdomainResolver(name, domain), Some(params), req, tenancy, slug, exclude);
            out.1 == parent.1
            && parent.1 == Some(ParameterOutcome(params, ParameterName(slug, tenancy, name)).1)
            && (parent.0.Found? && exclude.Some? && exclude.value(parent.0.identifier, req.host) ==> out.0 == Rejected)
            && (!(parent.0.Found? && exclude.Some? && exclude.value(parent.0.identifier, req.host)) ==> out.0 == parent.0)
  {
  }

  /** `acme.example.com` under `example.com` gives `acme`. */
  lemma SubdomainExampleAcme()
    ensures HostSubdomain("acme.example.com", "example.com") == Found("acme")
  {
    assert "acme.example.com" == "acme" + "." + "example.com";
    assert forall i :: 0 <= i < 4 ==> "acme"[i] != '.';
    HostSubdomainOfPlainHost("acme", "example.com");
  }

  /** The bare domain and a foreign domain are rejected. */
  lemma SubdomainExamplesRejected()
    ensures HostSubdomain("example.com", "example.com") == Rejected
    ensures HostSubdomain("acme.other.com", "example.com") == Rejected
  {
    var sep := "." + "example.com";
    var bare, other := "example.com", "acme.other.com";
    assert |bare| < |sep|;
    assert other[|other| - |sep|..][0] == other[2] == 'm';
    assert !EndsWith(other, sep);
  }

  /** The first occurrence decides: `a.example.com.example.com` gives `a`. */
  lemma SubdomainExampleRepeated()
    ensures HostSubdomain("a.example.com.example.com", "example.com") == Found("a")
  {
    var sep := "." + "example.com";
    var host := "a.example.com.example.com";
    assert host == "a" + sep + sep;
    assert host[|host| - |sep|..] == sep;
    BeforePlainPrefix("a", sep, sep);
  }

  /** The parameters of a request's route, for specifications. */
  function RouteParams(req: Request): Option<map<string, Value>>
    reads req.route
  {
    if req.route == null then None else Some(req.route.parameters)
  }

  /** `ParameterIdentityResolver::resolve`: no route is a rejection;
      otherwise the parameter is read, forgotten, and classified. */
  method ResolveParameter(req: Request, tenancy: string, name: string, slug: string -> string)
    returns (r: Resolved)
    modifies req.route
    ensures req.route == null ==> r == Rejected
    ensures req.route != null ==>
              (r, req.route.parameters) == ParameterOutcome(old(req.route.parameters), ParameterName(slug, tenancy, name))
  {
    if req.route == null {
      return Rejected;
    }
    var parameter := ParameterName(slug, tenancy, name);
    var route := req.route;
    if parameter !in route.parameters {
      return Rejected;
    }
    var identifier := route.parameters[parameter];
    route.ForgetParameter(parameter);
    if !identifier.VStr? && identifier != VNull {
      return Rejected;
    }
    r := if identifier.VStr? then Found(identifier.s) else Null;
  }

  /** `resolve` of each resolver kind, the subdomain kind reading the
      process-wide exclusion predicate. */
  method Resolve(res: Resolver, req: Request, tenancy: string, slug: string -> string, exclusion: Exclusion)
    returns (r: Resolved)
    modifies req.route
    ensures (r, RouteParams(req)) == ResolveSpec(res, old(RouteParams(req)), req, tenancy, slug, exclusion.current)
  {
    match res
    case HeaderResolver(_, header) =>
      if header !in req.headers {
        return Rejected;
      }
      var identifier := req.headers[header];
      if !identifier.VStr? {
        return Rejected;
      }
      r := Found(identifier.s);
    case PathResolver(name, segment) =>
      if req.route != null {
        r := ResolveParameter(req, tenancy, name, slug);
      } else {
        r := match req.segment(segment) case Some(s) => Found(s) case None => Null;
      }
    case SubdomainResolver(name, domain) =>
      if req.route != null {
        r := ResolveParameter(req, tenancy, name, slug);
        if r.Found? {
          var exclude := exclusion.current;
          if exclude.Some? && exclude.value(r.identifier, req.host) {
            return Rejected;
          }
        }
        return r;
      }
      var sep := "." + domain;
      if EndsWith(req.host, sep) {
        r := Found(Before(req.host, sep));
      } else {
        r := Rejected;
      }
  }

  /** `setup`: the parameter-based resolvers make the tenant's identifier
      attribute (or null without a tenant) the URL default for their
      parameter; an identifier that is not a string makes
      `getTenantIdentifier` throw before anything is set. The header
      resolver does nothing. */
  method Setup(res: Resolver, tenancy: string, tenant: GenericTenant?, slug: string -> string, url: UrlDefaults)
    returns (thrown: Option<Failure>)
    modifies url
    ensures res.HeaderResolver? ==> thrown.None? && url.defaults == old(url.defaults)
    ensures !res.HeaderResolver? && tenant == null ==>
              thrown.None? && url.defaults == old(url.defaults)[ParameterName(slug, tenancy, res.name) := VNull]
    ensures !res.HeaderResolver? && tenant != null ==>
              var id := tenant.identifierName;
              (id in tenant.attributes && tenant.attributes[id].VStr? ==>
                 thrown.None?
                 && url.defaults == old(url.defaults)[ParameterName(slug, tenancy, res.name) := tenant.attributes[id]])
              && (!(id in tenant.attributes && tenant.attributes[id].VStr?) ==>
                    thrown == Some(IdentifierTypeError) && url.defaults == old(url.defaults))
  {
    thrown := None;
    if !res.HeaderResolver? {
      var value := if tenant == null then Ok(VNull) else tenant.TenantIdentifier();
      if value.Err? {
        return Some(value.error);
      }
      url.Merge(map[ParameterName(slug, tenancy, res.name) := value.value]);
    }
  }

  /** The path resolver's route prefix: the parameter name in braces. */
  function PathPrefix(slug: string -> string, tenancy: string, resolver: string): (r: string)
    ensures |r| >= 2 && r[0] == '{' && r[|r| - 1] == '}'
    ensures r[1..|r| - 1] == ParameterName(slug, tenancy, resolver)
  {
    "{" + ParameterName(slug, tenancy, resolver) + "}"
  }

  /** The subdomain resolver's route domain: the parameter in braces, a dot,
      then the configured domain. */
  function DomainPattern(slug: string -> string, tenancy: string, resolver: string, domain: string): (r: string)
    ensures EndsWith(r, "}." + domain)
    ensures r[..|r| - |domain| - 1] == PathPrefix(slug, tenancy, resolver)
  {
    "{" + ParameterName(slug, tenancy, resolver) + "}." + domain
  }
}
