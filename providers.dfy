// Tenant providers: look a tenant up by identifier or by key in a store of
// rows and wrap the first matching row in a tenant entity.

module Providers {
  import opened Values
  import opened Tenants

  /** The rows of one table, in store order. */
  type Table = seq<Config>

  /** What the package learns about an Eloquent model class: whether it
      extends the Tenant contract and the Model base class, the attribute
      names its tenant key and identifier live under, and its table's rows. */
  datatype ModelClass = ModelClass(
    className: string,
    isTenant: bool,
    isModel: bool,
    keyName: string,
    identifierName: string,
    rows: Table)

  datatype Provider =
    /** `DatabaseTenantProvider`: a table on a connection, the key and
        identifier columns, and the entity class rows are wrapped in. */
    | DatabaseProvider(name: string, connection: Option<string>, table: string,
                       keyColumn: string, identifierColumn: string, entity: string,
                       rows: Table)
    /** `EloquentTenantProvider`: a model class queried through its own
        key and identifier names. */
    | EloquentProvider(name: string, model: ModelClass)
    /** A provider from outside the package, accepted for implementing
        `TenantProvider`: the tenant object it answers each identifier and
        each key with, or null. The object may be one that already exists,
        the tenancy's current tenant included. */
    | CustomProvider(className: string, byIdentifier: string -> GenericTenant?, byKey: Value -> GenericTenant?)

  /** The index of the first row whose `column` holds exactly `v`. */
  function FirstMatch(rows: Table, column: string, v: Value): (r: Option<nat>)
    ensures r.Some? ==> r.value < |rows| && ValueAt(rows[r.value], column) == v
    ensures r.Some? ==> forall j :: 0 <= j < r.value ==> ValueAt(rows[j], column) != v
    ensures r.None? <==> forall j :: 0 <= j < |rows| ==> ValueAt(rows[j], column) != v
  {
    if rows == [] then None
    else if ValueAt(rows[0], column) == v then Some(0)
    else match FirstMatch(rows[1..], column, v)
      case None => None
      case Some(i) => Some(i + 1)
  }

  function Rows(p: Provider): Table
    requires !p.CustomProvider?
  {
    match p
    case DatabaseProvider(_, _, _, _, _, _, rows) => rows
    case EloquentProvider(_, m) => m.rows
  }

  /** The column `retrieveByIdentifier` filters on. */
  function IdentifierColumn(p: Provider): string
    requires !p.CustomProvider?
  {
    match p
    case DatabaseProvider(_, _, _, _, identifierColumn, _, _) => identifierColumn
    case EloquentProvider(_, m) => m.identifierName
  }

  /** The column `retrieveByKey` filters on. */
  function KeyColumn(p: Provider): string
    requires !p.CustomProvider?
  {
    match p
    case DatabaseProvider(_, _, _, keyColumn, _, _, _) => keyColumn
    case EloquentProvider(_, m) => m.keyName
  }

  /** The key and identifier names of the entities a provider builds.
      `makeEntity` passes only the row, so a database provider's entities
      keep the entity's defaults whatever columns the lookup used; its
      configured entity class is taken to be the generic tenant. */
  function EntityKeyName(p: Provider): string
    requires !p.CustomProvider?
  {
    if p.DatabaseProvider? then DefaultKeyName else p.model.keyName
  }

  function EntityIdentifierName(p: Provider): string
    requires !p.CustomProvider?
  {
    if p.DatabaseProvider? then DefaultIdentifierName else p.model.identifierName
  }

  /** The row a lookup on `column` for `v` yields, if any. */
  function Lookup(p: Provider, column: string, v: Value): (r: Option<Config>)
    requires !p.CustomProvider?
    ensures r.None? <==> forall j :: 0 <= j < |Rows(p)| ==> ValueAt(Rows(p)[j], column) != v
    ensures r.Some? ==> exists i :: 0 <= i < |Rows(p)| && Rows(p)[i] == r.value
                                    && ValueAt(r.value, column) == v
                                    && forall j :: 0 <= j < i ==> ValueAt(Rows(p)[j], column) != v
  {
    match FirstMatch(Rows(p), column, v)
    case None => None
    case Some(i) => Some(Rows(p)[i])
  }

  /** `makeEntity`: a new tenant over the row. Every entity class is
      modelled as the generic tenant; see `EntityKeyName`. */
  method MakeEntity(p: Provider, row: Config) returns (t: GenericTenant)
    requires !p.CustomProvider?
    ensures fresh(t) && t.attributes == row
    ensures t.keyName == EntityKeyName(p) && t.identifierName == EntityIdentifierName(p)
  {
    if p.DatabaseProvider? {
      t := new GenericTenant.FromAttributes(row);
    } else {
      t := new GenericTenant(row, p.model.keyName, p.model.identifierName);
    }
  }

  /** Whether `retrieveByIdentifier` answers with a tenant: a matching row
      for a built-in provider, a non-null answer for a custom one. */
  predicate FindsIdentifier(p: Provider, identifier: string)
  {
    if p.CustomProvider? then p.byIdentifier(identifier) != null
    else Lookup(p, IdentifierColumn(p), VStr(identifier)).Some?
  }

  /** Whether `retrieveByKey` answers with a tenant. */
  predicate FindsKey(p: Provider, key: Value)
  {
    if p.CustomProvider? then p.byKey(key) != null
    else Lookup(p, KeyColumn(p), key).Some?
  }

  /** `retrieveByIdentifier`: null exactly when nothing is found. A built-in
      provider wraps the first matching row in a new entity; a custom one
      gives its own answer, possibly an object that already exists. */
  method RetrieveByIdentifier(p: Provider, identifier: string) returns (t: GenericTenant?)
    ensures t == null <==> !FindsIdentifier(p, identifier)
    ensures p.CustomProvider? ==> t == p.byIdentifier(identifier)
    ensures !p.CustomProvider? && t != null ==>
              fresh(t) && t.attributes == Lookup(p, IdentifierColumn(p), VStr(identifier)).value
              && t.keyName == EntityKeyName(p) && t.identifierName == EntityIdentifierName(p)
  {
    if p.CustomProvider? {
      return p.byIdentifier(identifier);
    }
    var row := Lookup(p, IdentifierColumn(p), VStr(identifier));
    if row.Some? {
      t := MakeEntity(p, row.value);
    } else {
      t := null;
    }
  }

  /** `retrieveByKey`: the same lookup on the key column. */
  method RetrieveByKey(p: Provider, key: Value) returns (t: GenericTenant?)
    requires key.VInt? || key.VStr?
    ensures t == null <==> !FindsKey(p, key)
    ensures p.CustomProvider? ==> t == p.byKey(key)
    ensures !p.CustomProvider? && t != null ==>
              fresh(t) && t.attributes == Lookup(p, KeyColumn(p), key).value
              && t.keyName == EntityKeyName(p) && t.identifierName == EntityIdentifierName(p)
  {
    if p.CustomProvider? {
      return p.byKey(key);
    }
    var row := Lookup(p, KeyColumn(p), key);
    if row.Some? {
      t := MakeEntity(p, row.value);
    } else {
      t := null;
    }
  }

  /** The first matching row wins: a later row holding the same value is
      never the one returned. */
  lemma {:induction false} FirstRowWins(rows: Table, column: string, v: Value, i: nat, j: nat)
    requires i < j < |rows|
    requires ValueAt(rows[i], column) == v && ValueAt(rows[j], column) == v
    ensures FirstMatch(rows, column, v).Some? && FirstMatch(rows, column, v).value <= i
  {
    if i > 0 && ValueAt(rows[0], column) != v {
      FirstRowWins(rows[1..], column, v, i - 1, j - 1);
    }
  }

  /** Prepending a row that does not match shifts the answer by one and
      otherwise changes nothing: the lookup depends only on store order. */
  lemma {:induction false} LookupSkipsNonMatching(row: Config, rows: Table, column: string, v: Value)
    requires ValueAt(row, column) != v
    ensures FirstMatch([row] + rows, column, v) ==
              match FirstMatch(rows, column, v) case None => None case Some(i) => Some(i + 1)
  {
    assert ([row] + rows)[1..] == rows;
  }
}
