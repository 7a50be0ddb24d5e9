/** The access policies of a DataPlatform's spec.authz, and the resolved entries that the
    operator hands to OPA. */
module AccessSpec {
  import opened Strings
  import opened Wrappers
  import opened RowFilters

  datatype RowFilterSpec = RowFilterSpec(
    catalog: string, schema: string, table: string, column: string,
    fgaType: string, relation: string, numeric: Option<bool>
  )

  datatype ColumnAccessSpec = ColumnAccessSpec(
    catalog: string, schema: string, table: string, column: string,
    mask: string, fgaType: string, relation: string, objectId: string
  )

  datatype AuthzSpec = AuthzSpec(
    enabled: Option<bool>, rowFilters: seq<RowFilterSpec>, columnAccess: seq<ColumnAccessSpec>
  )

  /** One restriction as the operator renders it into TRINO_COLUMN_ACCESS. */
  datatype Access = Access(
    catalog: string, schema: string, table: string, column: string,
    mask: string, fgaType: string, relation: string, objectId: string
  )

  const DEFAULT_TRINO_CATALOG := "lakekeeper"
  const DEFAULT_RELATION := "viewer"
  const DEFAULT_COLUMN_MASK := "NULL"

  function OrDefault(v: string, def: string): string
  {
    if v == "" then def else v
  }

  predicate IsEnabled(spec: AuthzSpec) { spec.enabled.None? || spec.enabled.value }

  predicate HasRowFilters(spec: AuthzSpec) { IsEnabled(spec) && |spec.rowFilters| > 0 }

  predicate HasColumnAccess(spec: AuthzSpec) { IsEnabled(spec) && |spec.columnAccess| > 0 }

  predicate HasAccessPolicies(spec: AuthzSpec) { HasRowFilters(spec) || HasColumnAccess(spec) }

  /** "{catalog}.{schema}.{table}.{column}". */
  function ObjectId(catalog: string, schema: string, table: string, column: string): string
  {
    catalog + "." + schema + "." + table + "." + column
  }

  function ObjectOrDefault(a: ColumnAccessSpec): string
  {
    if a.objectId != "" then a.objectId
    else ObjectId(OrDefault(a.catalog, DEFAULT_TRINO_CATALOG), a.schema, a.table, a.column)
  }

  function ResolveFilter(f: RowFilterSpec): Filter
  {
    Filter(OrDefault(f.catalog, DEFAULT_TRINO_CATALOG), f.schema, f.table, f.column,
           f.fgaType, OrDefault(f.relation, DEFAULT_RELATION), f.numeric.Some? && f.numeric.value)
  }

  function ResolveAccess(a: ColumnAccessSpec): Access
  {
    Access(OrDefault(a.catalog, DEFAULT_TRINO_CATALOG), a.schema, a.table, a.column,
           OrDefault(a.mask, DEFAULT_COLUMN_MASK), a.fgaType, OrDefault(a.relation, DEFAULT_RELATION),
             ObjectOrDefault(a))
  }

  /** An entry says what its filter says, with every default spelled out. */
  ghost predicate RendersFilter(f: RowFilterSpec, e: Filter)
  {
    && e.catalog == (if f.catalog == "" then "lakekeeper" else f.catalog)
    && e.schema == f.schema && e.table == f.table && e.column == f.column
    && e.fgaType == f.fgaType && e.relation == (if f.relation == "" then "viewer" else f.relation)
    && (e.numeric <==> f.numeric == Some(true))
  }

  /** The same for a column restriction, whose default object is the column's full name. */
  ghost predicate RendersAccess(a: ColumnAccessSpec, e: Access)
  {
    && e.catalog == (if a.catalog == "" then "lakekeeper" else a.catalog)
    && e.schema == a.schema && e.table == a.table && e.column == a.column
    && e.mask == (if a.mask == "" then "NULL" else a.mask)
    && e.fgaType == a.fgaType && e.relation == (if a.relation == "" then "viewer" else a.relation)
    && e.objectId == if a.objectId != "" then a.objectId
                     else e.catalog + "." + a.schema + "." + a.table + "." + a.column
  }

  /** The entries of `rowFiltersJSON`: one per filter, in order, every default resolved. */
  method RowFiltersJson(filters: seq<RowFilterSpec>) returns (entries: seq<Filter>)
    ensures |entries| == |filters|
    ensures forall i | 0 <= i < |filters| :: RendersFilter(filters[i], entries[i])
  {
    entries := [];
    for i := 0 to |filters|
      invariant |entries| == i
      invariant forall j | 0 <= j < i :: RendersFilter(filters[j], entries[j])
    {
      entries := entries + [ResolveFilter(filters[i])];
    }
  }

  /** The entries of `columnAccessJSON`. */
  method ColumnAccessJson(access: seq<ColumnAccessSpec>) returns (entries: seq<Access>)
    ensures |entries| == |access|
    ensures forall i | 0 <= i < |access| :: RendersAccess(access[i], entries[i])
  {
    entries := [];
    for i := 0 to |access|
      invariant |entries| == i
      invariant forall j | 0 <= j < i :: RendersAccess(access[j], entries[j])
    {
      entries := entries + [ResolveAccess(access[i])];
    }
  }

  /** OPA's environment as far as the access policies read it. A variable that is absent
      leaves the store id empty and the lists without entries. */
  datatype AccessEnv = AccessEnv(storeId: string, filters: seq<Filter>, access: seq<Access>)

  /** Authorization is on unless it is switched off. */
  ghost predicate On(spec: AuthzSpec) { spec.enabled != Some(false) }

  /** What the policies should find there. */
  ghost predicate EnvOf(spec: AuthzSpec, storeId: string, env: AccessEnv)
  {
    && env.storeId == (if On(spec) && (spec.rowFilters != [] || spec.columnAccess != []) then storeId else "")
    && |env.filters| == (if On(spec) then |spec.rowFilters| else 0)
    && (forall i | 0 <= i < |env.filters| :: RendersFilter(spec.rowFilters[i], env.filters[i]))
    && |env.access| == (if On(spec) then |spec.columnAccess| else 0)
    && (forall i | 0 <= i < |env.access| :: RendersAccess(spec.columnAccess[i], env.access[i]))
  }

  /** `opaAccessEnv` with the two JSON renderings. */
  method OpaAccessEnv(spec: AuthzSpec, storeId: string) returns (env: AccessEnv)
    ensures EnvOf(spec, storeId, env)
  {
    if !HasAccessPolicies(spec) {
      return AccessEnv("", [], []);
    }
    env := AccessEnv(storeId, [], []);
    if HasRowFilters(spec) {
      var entries := RowFiltersJson(spec.rowFilters);
      env := env.(filters := entries);
    }
    if HasColumnAccess(spec) {
      var entries := ColumnAccessJson(spec.columnAccess);
      env := env.(access := entries);
    }
  }

  // Entries and what they stand for, each way.

  lemma FilterEntry(spec: AuthzSpec, storeId: string, env: AccessEnv, f: RowFilterSpec) returns (e: Filter)
    requires EnvOf(spec, storeId, env) && On(spec) && f in spec.rowFilters
    ensures e in env.filters && RendersFilter(f, e)
  {
    var i :| 0 <= i < |spec.rowFilters| && spec.rowFilters[i] == f;
    e := env.filters[i];
  }

  lemma FilterSource(spec: AuthzSpec, storeId: string, env: AccessEnv, e: Filter) returns (f: RowFilterSpec)
    requires EnvOf(spec, storeId, env) && e in env.filters
    ensures On(spec) && f in spec.rowFilters && RendersFilter(f, e)
  {
    var i :| 0 <= i < |env.filters| && env.filters[i] == e;
    f := spec.rowFilters[i];
  }

  lemma AccessEntry(spec: AuthzSpec, storeId: string, env: AccessEnv, a: ColumnAccessSpec) returns (e: Access)
    requires EnvOf(spec, storeId, env) && On(spec) && a in spec.columnAccess
    ensures e in env.access && RendersAccess(a, e)
  {
    var i :| 0 <= i < |spec.columnAccess| && spec.columnAccess[i] == a;
    e := env.access[i];
  }

  lemma AccessSource(spec: AuthzSpec, storeId: string, env: AccessEnv, e: Access) returns (a: ColumnAccessSpec)
    requires EnvOf(spec, storeId, env) && e in env.access
    ensures On(spec) && a in spec.columnAccess && RendersAccess(a, e)
  {
    var i :| 0 <= i < |env.access| && env.access[i] == e;
    a := spec.columnAccess[i];
  }

  // --- Default object ids ---

  lemma ObjectIdParts(catalog: string, schema: string, table: string, column: string)
    requires '.' !in catalog && '.' !in table && '.' !in column
    ensures Split(ObjectId(catalog, schema, table, column), '.') == [catalog] + Split(schema, '.') + [table, column]
  {
    SplitAppend(catalog + "." + schema + "." + table, column, '.');
    SplitAppend(catalog + "." + schema, table, '.');
    SplitAppend(catalog, schema, '.');
    SplitPrefix(catalog, [], '.');
    SplitPrefix(table, [], '.');
    SplitPrefix(column, [], '.');
  }

  /** The default object id names one column, even below nested schemas with any number of
      dots, as long as catalog, table and column have none. */
  lemma ObjectIdInjective(c1: string, s1: string, t1: string, k1: string, c2: string, s2: string, t2: string,
                          k2: string)
    requires '.' !in c1 && '.' !in t1 && '.' !in k1
    requires '.' !in c2 && '.' !in t2 && '.' !in k2
    requires ObjectId(c1, s1, t1, k1) == ObjectId(c2, s2, t2, k2)
    ensures c1 == c2 && s1 == s2 && t1 == t2 && k1 == k2
  {
    ObjectIdParts(c1, s1, t1, k1);
    ObjectIdParts(c2, s2, t2, k2);
    var a, b := Split(s1, '.'), Split(s2, '.');
    var x, y := [c1] + a + [t1, k1], [c2] + b + [t2, k2];
    assert x == y;
    assert |a| == |b|;
    assert x[0] == c1 && y[0] == c2;
    assert x[|a| + 1] == t1 && y[|a| + 1] == t2 && x[|a| + 2] == k1 && y[|a| + 2] == k2;
    assert x[1..|a| + 1] == a && y[1..|a| + 1] == b;
    JoinSplit(s1, '.');
    JoinSplit(s2, '.');
  }

  /** With a dot in a table or catalog name every id has a second reading, which names
      another table or another catalog. */
  lemma DottedNamesCollide(c1: string, c2: string, schema: string, t1: string, t2: string, column: string)
    ensures ObjectId(c1, schema, t1 + "." + t2, column) == ObjectId(c1, schema + "." + t1, t2, column)
    ensures t1 + "." + t2 != t2
    ensures ObjectId(c1 + "." + c2, schema, t1, column) == ObjectId(c1, c2 + "." + schema, t1, column)
    ensures c1 + "." + c2 != c1
  {
    assert c1 + "." + schema + "." + (t1 + "." + t2) + "." + column ==
      c1 + "." + (schema + "." + t1) + "." + t2 + "." + column;
    assert (c1 + "." + c2) + "." + schema + "." + t1 + "." + column ==
      c1 + "." + (c2 + "." + schema) + "." + t1 + "." + column;
  }

  predicate ColumnStart(c: char) { 'A' <= c <= 'Z' || 'a' <= c <= 'z' || c == '_' }

  /** The CRD's pattern `^[A-Za-z_][A-Za-z0-9_]*$` for column names. */
  predicate ColumnPattern(column: string)
  {
    && column != [] && ColumnStart(column[0])
    && forall i | 0 <= i < |column| :: ColumnStart(column[i]) || '0' <= column[i] <= '9'
  }

  lemma ColumnPatternPlain(column: string)
    requires ColumnPattern(column)
    ensures '.' !in column && '"' !in column
  {
  }
}
