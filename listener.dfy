// The route-matched listener: finds the first tenanted-route marker among a
// matched route's middleware, reads the tenancy and resolver names out of
// it, and asks the manager to identify a tenant.

module Listener {
  import opened Values
  import opened Resolvers
  import opened Manager
  import opened RouteGuard

  /** `Str::startsWith` with a single non-empty needle. */
  predicate StartsWith(s: string, prefix: string)
  {
    |prefix| <= |s| && s[..|prefix|] == prefix
  }

  /** A middleware entry that marks a route for identification: the bare
      alias, or the alias followed by `:` and its options. */
  predicate IsMarker(m: string)
  {
    m == Alias || StartsWith(m, Alias + ":")
  }

  /** The first marker in a middleware list, if any. */
  function FirstMarker(middleware: seq<string>): (r: Option<string>)
    ensures r.None? <==> forall i :: 0 <= i < |middleware| ==> !IsMarker(middleware[i])
    ensures r.Some? ==> exists i :: 0 <= i < |middleware| && middleware[i] == r.value && IsMarker(r.value)
                                    && forall j :: 0 <= j < i ==> !IsMarker(middleware[j])
  {
    if middleware == [] then None
    else if IsMarker(middleware[0]) then Some(middleware[0])
    else
      var r := FirstMarker(middleware[1..]);
      assert forall i :: 1 <= i < |middleware| ==> middleware[i] == middleware[1..][i - 1];
      r
  }

  /** The loop of `handle` over `$route->middleware()`: stop at the first
      marker. */
  method SelectMarker(middleware: seq<string>) returns (m: Option<string>)
    ensures m == FirstMarker(middleware)
  {
    m := None;
    var i := 0;
    while i < |middleware|
      invariant 0 <= i <= |middleware|
      invariant FirstMarker(middleware[i..]) == FirstMarker(middleware)
    {
      if IsMarker(middleware[i]) {
        m := Some(middleware[i]);
        return;
      }
      assert middleware[i..][1..] == middleware[i + 1..];
      i := i + 1;
    }
  }

  /** PHP's `explode($sep, $s)` for a one-character separator: the pieces
      between separators, at least one. */
  function Explode(sep: char, s: string): (parts: seq<string>)
    ensures |parts| >= 1
    ensures |parts| == 1 <==> sep !in s
    ensures sep !in s ==> parts == [s]
    ensures forall k :: 0 <= k < |parts| ==> sep !in parts[k]
  {
    if s == [] then [""]
    else
      var rest := Explode(sep, s[1..]);
      assert s == [s[0]] + s[1..];
      if s[0] == sep then [""] + rest
      else [[s[0]] + rest[0]] + rest[1..]
  }

  /** `implode($sep, $parts)`, the inverse of `Explode`. */
  function Join(sep: char, parts: seq<string>): string
    requires |parts| >= 1
  {
    if |parts| == 1 then parts[0] else parts[0] + [sep] + Join(sep, parts[1..])
  }

  /** Joining the pieces puts the string back together. */
  lemma {:induction false} JoinExplode(sep: char, s: string)
    ensures Join(sep, Explode(sep, s)) == s
  {
    if s != [] {
      JoinExplode(sep, s[1..]);
      var rest := Explode(sep, s[1..]);
      if s[0] != sep {
        if |rest| > 1 {
          assert ([[s[0]] + rest[0]] + rest[1..])[1..] == rest[1..];
          assert Join(sep, rest) == rest[0] + [sep] + Join(sep, rest[1..]);
        }
      }
      assert s == [s[0]] + s[1..];
    }
  }

  /** A separator-free piece, a separator and the rest explode into the
      piece followed by the rest's pieces. */
  lemma {:induction false} ExplodeAfterPiece(sep: char, a: string, b: string)
    requires sep !in a
    ensures Explode(sep, a + [sep] + b) == [a] + Explode(sep, b)
  {
    if a == [] {
      assert (a + [sep] + b)[1..] == b;
    } else {
      ExplodeAfterPiece(sep, a[1..], b);
      assert (a + [sep] + b)[1..] == a[1..] + [sep] + b;
      assert [a[0]] + a[1..] == a;
    }
  }

  /** Exploding joined separator-free pieces gives the pieces back. */
  lemma {:induction false} ExplodeJoin(sep: char, parts: seq<string>)
    requires |parts| >= 1
    requires forall k :: 0 <= k < |parts| ==> sep !in parts[k]
    ensures Explode(sep, Join(sep, parts)) == parts
  {
    if |parts| == 1 {
      assert Explode(sep, parts[0]) == [parts[0]];
    } else {
      ExplodeJoin(sep, parts[1..]);
      ExplodeAfterPiece(sep, parts[0], Join(sep, parts[1..]));
      assert parts == [parts[0]] + parts[1..];
    }
  }

  /** The tenancy and resolver names of a marker: nothing without a marker
      or without `:`; otherwise the text after the first `:` (up to any
      second one), split at `,`, its first piece the tenancy and its second,
      if there is one, the resolver. */
  function ParseOptions(m: Option<string>): (names: (Option<string>, Option<string>))
    ensures m.None? || ':' !in m.value ==> names == (None, None)
    ensures names.1.Some? ==> names.0.Some?
  {
    if m.None? || ':' !in m.value then (None, None)
    else
      var options := Explode(',', Explode(':', m.value)[1]);
      (Some(options[0]), if |options| > 1 then Some(options[1]) else None)
  }

  lemma AliasHasNoColon()
    ensures ':' !in Alias
  {
    assert forall i :: 0 <= i < |Alias| ==> Alias[i] != ':';
  }

  /** The marker a resolver attaches to its routes is recognised, and reads
      back as the tenancy and resolver it was made from, as long as neither
      name contains `:` or `,`. */
  lemma MarkerRoundTrip(tenancy: string, resolver: string)
    requires ':' !in tenancy && ',' !in tenancy && ':' !in resolver && ',' !in resolver
    ensures IsMarker(Marker(tenancy, resolver))
    ensures ParseOptions(Some(Marker(tenancy, resolver))) == (Some(tenancy), Some(resolver))
  {
    var m := Marker(tenancy, resolver);
    var rest := tenancy + "," + resolver;
    assert m == Alias + [':'] + rest;
    assert m[..|Alias + ":"|] == Alias + ":";
    AliasHasNoColon();
    assert ':' !in rest;
    ExplodeAfterPiece(':', Alias, rest);
    assert Explode(':', rest) == [rest];
    assert Explode(':', m)[1] == rest;
    assert rest == Join(',', [tenancy, resolver]);
    ExplodeJoin(',', [tenancy, resolver]);
  }

  /** The bare alias marks the route but names nothing, so identification
      uses the default tenancy and resolver. */
  lemma BareAliasNamesNothing()
    ensures IsMarker(Alias) && ParseOptions(Some(Alias)) == (None, None)
  {
    AliasHasNoColon();
  }

  /** An alias with an empty option list names the tenancy `""`, not the
      default one. */
  lemma EmptyOptionsNameEmptyTenancy()
    ensures ParseOptions(Some(Alias + ":")) == (Some(""), None)
  {
    AliasHasNoColon();
    ExplodeAfterPiece(':', Alias, "");
    assert Alias + ":" == Alias + [':'] + "";
  }

  /** A middleware that merely begins with the alias is not a marker. */
  lemma LongerNameIsNoMarker()
    ensures !IsMarker("tenanted.router")
  {
    assert "tenanted.router"[14] != ':';
  }

  /** `handle($event)`: identification runs for every matched route, with
      the names of the first marker, or with the defaults when there is
      none; what it promises is `identify`'s. */
  method HandleRouteMatched(m: TenantedManager, middleware: seq<string>, request: Request)
    returns (r: Result<bool>)
    modifies m.Footprint(ParseOptions(FirstMarker(middleware)).0), request.route
    ensures var names := ParseOptions(FirstMarker(middleware));
            IdentifyOutcome(m, request, names.0, names.1, r) && IdentifyKeeps(m, names.0, names.1, r)
  {
    var marker := SelectMarker(middleware);
    var names := ParseOptions(marker);
    r := m.Identify(request, names.0, names.1);
  }
}
