/** Column masks, and both access policies end to end from the DataPlatform's spec. */
module ColumnMasks {
  import opened Wrappers
  import opened Sql
  import opened RowFilters
  import opened RowFilterTheorems
  import opened AccessSpec

  datatype ColumnRef = ColumnRef(catalog: string, schema: string, table: string, column: string)

  predicate MatchesColumn(a: Access, c: ColumnRef)
  {
    a.catalog == c.catalog && a.schema == c.schema && a.table == c.table && a.column == c.column
  }

  /** The user's grant on the entry's exact `type:object`. */
  predicate ColumnPermitted(fga: OpenFga, a: Access, user: string)
  {
    match ListObjects(fga, a.fgaType, a.relation, user)
    case Some(objects) => a.fgaType + ":" + a.objectId in objects
    case None => false
  }

  /** The entry point `batch_column_masks`, as pairs of column index and mask. */
  function BatchColumnMasks(access: seq<Access>, admins: set<string>, fga: OpenFga, user: string,
                            columns: seq<ColumnRef>): set<(int, string)>
  {
    set i, a | 0 <= i < |columns| && a in access && user !in admins && MatchesColumn(a, columns[i])
      && !ColumnPermitted(fga, a, user)
      :: (i, a.mask)
  }

  // --- In terms of the spec's own fields ---

  /** What OpenFGA lists for the user, where the spec leaves the relation open it is viewer. */
  ghost predicate Lists(fga: OpenFga, fgaType: string, relation: string, user: string, wanted: string)
  {
    var answer := fga.listObjects(fgaType, if relation == "" then "viewer" else relation, "user:" + user);
    fga.storeId != "" && answer.status == 200 && answer.objects.Some? && wanted in answer.objects.value
  }

  ghost predicate RestrictsColumn(a: ColumnAccessSpec, c: ColumnRef)
  {
    && (if a.catalog == "" then "lakekeeper" else a.catalog) == c.catalog
    && a.schema == c.schema && a.table == c.table && a.column == c.column
  }

  /** The grant is on the entry's own object or, by default, on the column's full name. */
  ghost predicate HasGrant(fga: OpenFga, a: ColumnAccessSpec, user: string)
  {
    var catalog := if a.catalog == "" then "lakekeeper" else a.catalog;
    var wanted := if a.objectId != "" then a.objectId
                  else catalog + "." + a.schema + "." + a.table + "." + a.column;
    Lists(fga, a.fgaType, a.relation, user, a.fgaType + ":" + wanted)
  }

  lemma AccessMeans(a: ColumnAccessSpec, e: Access, fga: OpenFga, user: string, c: ColumnRef)
    requires RendersAccess(a, e)
    ensures MatchesColumn(e, c) <==> RestrictsColumn(a, c)
    ensures ColumnPermitted(fga, e, user) <==> HasGrant(fga, a, user)
  {
  }

  /** The restrictions of the spec that hide column c from the user under this mask. */
  ghost predicate Hides(spec: AuthzSpec, fga: OpenFga, user: string, c: ColumnRef, mask: string)
  {
    On(spec) && exists a | a in spec.columnAccess ::
      RestrictsColumn(a, c) && !HasGrant(fga, a, user) && mask == if a.mask == "" then "NULL" else a.mask
  }

  /** From spec to mask: index i gets mask m exactly when the user is not an admin and some
      entry for that column, with that mask, lacks its grant. */
  lemma MasksExact(spec: AuthzSpec, storeId: string, env: AccessEnv, admins: set<string>, fga: OpenFga, user: string,
                   columns: seq<ColumnRef>, i: int, m: string)
    requires EnvOf(spec, storeId, env) && fga.storeId == env.storeId
    ensures (i, m) in BatchColumnMasks(env.access, admins, fga, user, columns) <==>
              0 <= i < |columns| && user !in admins && Hides(spec, fga, user, columns[i], m)
  {
    var masks := BatchColumnMasks(env.access, admins, fga, user, columns);
    if (i, m) in masks {
      var e :| e in env.access && MatchesColumn(e, columns[i]) && !ColumnPermitted(fga, e, user) && m == e.mask;
      var a := AccessSource(spec, storeId, env, e);
      AccessMeans(a, e, fga, user, columns[i]);
    }
    if 0 <= i < |columns| && user !in admins && Hides(spec, fga, user, columns[i], m) {
      var a :| a in spec.columnAccess && RestrictsColumn(a, columns[i]) && !HasGrant(fga, a, user)
        && m == if a.mask == "" then "NULL" else a.mask;
      var e := AccessEntry(spec, storeId, env, a);
      AccessMeans(a, e, fga, user, columns[i]);
      assert (i, e.mask) in masks;
    }
  }

  /** Failing closed: without a store, or when OpenFGA does not answer the entry's own call,
      the restricted column gets the entry's mask. */
  lemma FailuresMaskEveryColumn(spec: AuthzSpec, storeId: string, env: AccessEnv, admins: set<string>, fga: OpenFga,
                                user: string, columns: seq<ColumnRef>, i: nat, a: ColumnAccessSpec)
    requires EnvOf(spec, storeId, env) && fga.storeId == env.storeId && i < |columns|
    requires user !in admins && On(spec) && a in spec.columnAccess && RestrictsColumn(a, columns[i])
    requires var relation := if a.relation == "" then "viewer" else a.relation;
             storeId == "" || fga.listObjects(a.fgaType, relation, "user:" + user).status != 200
    ensures (i, if a.mask == "" then "NULL" else a.mask) in BatchColumnMasks(env.access, admins, fga, user, columns)
  {
    assert !HasGrant(fga, a, user);
    MasksExact(spec, storeId, env, admins, fga, user, columns, i, if a.mask == "" then "NULL" else a.mask);
  }

  /** Every object that one answers is answered by the other as well. */
  ghost predicate Enlarges(small: OpenFga, big: OpenFga)
  {
    forall t, r, u | ListObjects(small, t, r, u).Some? ::
      ListObjects(big, t, r, u).Some?
        && forall o | o in ListObjects(small, t, r, u).value :: o in ListObjects(big, t, r, u).value
  }

  /** More grants never mask more. */
  lemma MasksAntitone(access: seq<Access>, admins: set<string>, small: OpenFga, big: OpenFga, user: string,
                      columns: seq<ColumnRef>)
    requires Enlarges(small, big)
    ensures BatchColumnMasks(access, admins, big, user, columns)
            <= BatchColumnMasks(access, admins, small, user, columns)
  {
    forall a | ColumnPermitted(small, a, user) ensures ColumnPermitted(big, a, user) {
      assert ListObjects(small, a.fgaType, a.relation, user).Some?;
    }
  }

  /** An entry that names its column by the default object id. */
  predicate DefaultObject(a: ColumnAccessSpec)
  {
    && a.objectId == ""
    && '.' !in OrDefault(a.catalog, DEFAULT_TRINO_CATALOG) && '.' !in a.table && ColumnPattern(a.column)
  }

  /** A grant on one column's default object reveals that column and no other: whatever is
      granted already, an entry that one more grant lifts is an entry for that very column,
      even below nested schemas. */
  lemma GrantRevealsOneColumn(a: ColumnAccessSpec, b: ColumnAccessSpec, before: OpenFga, after: OpenFga, user: string,
                              granted: seq<string>)
    requires DefaultObject(a) && DefaultObject(b)
    requires ListObjects(before, b.fgaType, ResolveAccess(b).relation, user) == Some(granted)
    requires ListObjects(after, b.fgaType, ResolveAccess(b).relation, user) ==
              Some(granted + [b.fgaType + ":" + ObjectOrDefault(a)])
    ensures ColumnPermitted(after, ResolveAccess(b), user) && !ColumnPermitted(before, ResolveAccess(b), user) ==>
              ResolveAccess(b).catalog == ResolveAccess(a).catalog && b.schema == a.schema && b.table == a.table
                && b.column == a.column
  {
    if ColumnPermitted(after, ResolveAccess(b), user) && !ColumnPermitted(before, ResolveAccess(b), user) {
      var p := b.fgaType + ":";
      assert (p + ObjectOrDefault(a))[|p|..] == ObjectOrDefault(a);
      assert (p + ObjectOrDefault(b))[|p|..] == ObjectOrDefault(b);
      ColumnPatternPlain(a.column);
      ColumnPatternPlain(b.column);
      ObjectIdInjective(OrDefault(a.catalog, DEFAULT_TRINO_CATALOG), a.schema, a.table, a.column,
                        OrDefault(b.catalog, DEFAULT_TRINO_CATALOG), b.schema, b.table, b.column);
    }
  }

  ghost predicate FiltersTable(f: RowFilterSpec, t: TableRef)
  {
    && (if f.catalog == "" then "lakekeeper" else f.catalog) == t.catalog
    && f.schema == t.schema && f.table == t.table
  }

  /** The user holds the filter's relation on an object whose id is the row's value. */
  ghost predicate GrantsRow(fga: OpenFga, f: RowFilterSpec, user: string, row: Row)
  {
    && f.column in row
    && exists v ::
      Lists(fga, f.fgaType, f.relation, user, f.fgaType + ":" + v) && Holds(f.numeric == Some(true), row[f.column], v)
  }

  lemma FilterMeans(f: RowFilterSpec, e: Filter, fga: OpenFga, user: string, t: TableRef, row: Row)
    requires RendersFilter(f, e)
    ensures MatchesResource(e, t) <==> FiltersTable(f, t)
    ensures Granted(fga, e, user, row) <==> GrantsRow(fga, f, user, row)
  {
    forall v ensures e.fgaType + ":" + v in Listed(fga, e, user) <==>
                       Lists(fga, f.fgaType, f.relation, user, f.fgaType + ":" + v)
    {
    }
  }

  /** The objects that the entry's call lists. */
  function Listed(fga: OpenFga, e: Filter, user: string): seq<string>
  {
    match ListObjects(fga, e.fgaType, e.relation, user)
    case Some(objects) => objects
    case None => []
  }

  /** From spec to rows: a non-admin sees exactly the rows that every filter of the spec on
      that table grants. */
  lemma SpecRowsExact(spec: AuthzSpec, storeId: string, env: AccessEnv, admins: set<string>, fga: OpenFga,
                      user: string, t: TableRef, row: Row)
    requires EnvOf(spec, storeId, env) && fga.storeId == env.storeId && user !in admins
    requires forall f | f in spec.rowFilters :: ColumnPattern(f.column)
    ensures Visible(RowFilterExpressions(env.filters, admins, fga, user, t), row) <==>
              (On(spec) ==>
                 forall f | f in spec.rowFilters && FiltersTable(f, t) :: GrantsRow(fga, f, user, row))
  {
    forall e | e in env.filters ensures '"' !in e.column {
      var f := FilterSource(spec, storeId, env, e);
      ColumnPatternPlain(f.column);
    }
    RowFiltersExact(env.filters, admins, fga, user, t, row);
    if forall e | e in env.filters && MatchesResource(e, t) :: Granted(fga, e, user, row) {
      forall f | On(spec) && f in spec.rowFilters && FiltersTable(f, t) ensures GrantsRow(fga, f, user, row) {
        var e := FilterEntry(spec, storeId, env, f);
        FilterMeans(f, e, fga, user, t, row);
      }
    }
    if On(spec) ==> forall f | f in spec.rowFilters && FiltersTable(f, t) :: GrantsRow(fga, f, user, row) {
      forall e | e in env.filters && MatchesResource(e, t) ensures Granted(fga, e, user, row) {
        var f := FilterSource(spec, storeId, env, e);
        FilterMeans(f, e, fga, user, t, row);
      }
    }
  }
}
