/** Row filters: the grants that OpenFGA lists for a user become SQL text. */
module RowFilters {
  import opened Strings
  import opened Wrappers
  import opened Sql

  /** One filter as the operator renders it into TRINO_ROW_FILTERS, defaults resolved. */
  datatype Filter = Filter(
    catalog: string, schema: string, table: string, column: string,
    fgaType: string, relation: string, numeric: bool
  )

  /** The answer to one list-objects call. With `raise_error` off a failed call still yields
      a response, whose status is not 200. */
  datatype Response = Response(status: int, objects: Option<seq<string>>)

  datatype OpenFga = OpenFga(storeId: string, listObjects: (string, string, string) -> Response)

  /** `_list_objects`: undefined without a store or when the call does not return 200. */
  function ListObjects(fga: OpenFga, fgaType: string, relation: string, user: string): Option<seq<string>>
  {
    if fga.storeId == "" then None
    else
      var response := fga.listObjects(fgaType, relation, "user:" + user);
      if response.status != 200 then None
      else if response.objects.Some? then response.objects
      else Some([])
  }

  /** Objects of the type, without their prefix. */
  function Stripped(objects: seq<string>, prefix: string): (r: seq<string>)
    ensures forall v :: v in r <==> prefix + v in objects
  {
    if objects == [] then []
    else
      var rest := Stripped(objects[1..], prefix);
      var o := objects[0];
      assert forall x :: x in objects <==> x == o || x in objects[1..];
      if StartsWith(o, prefix) then
        assert prefix + o[|prefix|..] == o;
        assert forall v :: prefix + v == o ==> v == o[|prefix|..] by {
          forall v | prefix + v == o ensures v == o[|prefix|..] {
            assert (prefix + v)[|prefix|..] == v;
          }
        }
        [o[|prefix|..]] + rest
      else
        assert forall v :: prefix + v == o ==> prefix <= o;
        rest
  }

  function PermittedValues(fga: OpenFga, f: Filter, user: string): seq<string>
  {
    match ListObjects(fga, f.fgaType, f.relation, user)
    case Some(objects) => Sort(Stripped(objects, f.fgaType + ":"))
    case None => []
  }

  /** `replace(value, "'", "''")`. */
  function Escape(v: string): (r: string)
  {
    if v == [] then []
    else if v[0] == '\'' then "''" + Escape(v[1..])
    else [v[0]] + Escape(v[1..])
  }

  /** Digits, or digits, a point and digits. */
  predicate UnsignedNumber(v: string)
  {
    var n := DigitRun(v);
    n > 0 && (n == |v| || (v[n] == '.' && n + 1 < |v| && DigitRun(v[n + 1..]) == |v| - n - 1))
  }

  /** The pattern `^-?[0-9]+(\.[0-9]+)?$`. */
  predicate MatchesNumber(v: string)
  {
    UnsignedNumber(v) || (v != [] && v[0] == '-' && UnsignedNumber(v[1..]))
  }

  /** A quoted string, or a bare number when the filter is numeric and the value is one. */
  function SqlLiteral(f: Filter, value: string): Option<string>
  {
    if !f.numeric then Some("'" + Escape(value) + "'")
    else if MatchesNumber(value) then Some(value)
    else None
  }

  function Literals(f: Filter, values: seq<string>): seq<string>
  {
    if values == [] then []
    else
      var rest := Literals(f, values[1..]);
      match SqlLiteral(f, values[0])
      case Some(l) => [l] + rest
      case None => rest
  }

  function InClause(column: string, literals: seq<string>): string
  {
    "\"" + column + "\"" + " IN (" + Join(literals, ", ") + ")"
  }

  function Expression(fga: OpenFga, f: Filter, user: string): string
  {
    var literals := Literals(f, PermittedValues(fga, f, user));
    if literals == [] then "false" else InClause(f.column, literals)
  }

  datatype TableRef = TableRef(catalog: string, schema: string, table: string)

  predicate MatchesResource(f: Filter, t: TableRef)
  {
    f.catalog == t.catalog && f.schema == t.schema && f.table == t.table
  }

  /** The entry point `row_filters`. */
  function RowFilterExpressions(filters: seq<Filter>, admins: set<string>, fga: OpenFga, user: string,
                                t: TableRef): set<string>
  {
    set f | f in filters && user !in admins && MatchesResource(f, t) :: Expression(fga, f, user)
  }
}
