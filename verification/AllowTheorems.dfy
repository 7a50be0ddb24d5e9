/** What `allow` decides, operation by operation and in terms of LakeKeeper's own answers: the
    reference that the batch is compared with, without the policies' rules and helpers. */
module AllowTheorems {
  import opened Strings
  import opened Wrappers
  import opened TrinoNames
  import opened Lakekeeper
  import opened TrinoPolicy
  import opened TrinoBatch
  import opened BatchTheorems

  // --- LakeKeeper's answers ---

  /** The catalog is managed, its warehouse is known, and LakeKeeper allows this. */
  ghost predicate May(cfg: Config, oracle: Oracle, catalog: string, check: string -> Check)
  {
    && catalog in cfg.catalogs
    && var c := cfg.catalogs[catalog];
    && c.lakekeeperId in cfg.lk.maxBatch
    && var warehouse := cfg.lk.warehouseId(c.lakekeeperId, c.warehouse);
    && warehouse.Some? && oracle(c.lakekeeperId, check(warehouse.value))
  }

  ghost predicate MayUseCatalog(cfg: Config, oracle: Oracle, user: string, catalog: string)
  {
    May(cfg, oracle, catalog, w => WarehouseCheck(w, "oidc~" + user, GetConfig))
  }

  ghost predicate MaySeeSchema(cfg: Config, oracle: Oracle, user: string, catalog: string, schema: string)
  {
    May(cfg, oracle, catalog, w => NamespaceCheck(w, Split(schema, '.'), "oidc~" + user, GetMetadata))
  }

  ghost predicate MayTable(cfg: Config, oracle: Oracle, user: string, catalog: string, schema: string, table: string,
                           action: Action)
  {
    May(cfg, oracle, catalog, w => TableCheck(w, Split(schema, '.'), table, "oidc~" + user, action))
  }

  ghost predicate MayView(cfg: Config, oracle: Oracle, user: string, catalog: string, schema: string, view: string,
                          action: Action)
  {
    May(cfg, oracle, catalog, w => ViewCheck(w, Split(schema, '.'), view, "oidc~" + user, action))
  }

  lemma WarehouseKnown(cfg: Config, oracle: Oracle, catalog: string, check: string -> Check)
    requires AnsweredInFull(cfg.lk, oracle)
    ensures May(cfg, oracle, catalog, check) <==>
              WarehouseOf(cfg, catalog).Some?
                && Require(cfg.lk, cfg.catalogs[catalog].lakekeeperId, check(WarehouseOf(cfg, catalog).value))
  {
    if WarehouseOf(cfg, catalog).Some? {
      RequireMeansOracle(cfg.lk, oracle, cfg.catalogs[catalog].lakekeeperId, check(WarehouseOf(cfg, catalog).value));
    }
  }

  lemma CatalogRight(cfg: Config, oracle: Oracle, user: string, catalog: string)
    requires AnsweredInFull(cfg.lk, oracle)
    ensures RequireCatalog(cfg, user, catalog, GetConfig) <==> MayUseCatalog(cfg, oracle, user, catalog)
  {
    WarehouseKnown(cfg, oracle, catalog, w => WarehouseCheck(w, "oidc~" + user, GetConfig));
  }

  lemma SchemaRight(cfg: Config, oracle: Oracle, user: string, catalog: string, schema: string)
    requires AnsweredInFull(cfg.lk, oracle)
    ensures RequireSchema(cfg, user, catalog, schema, GetMetadata) <==> MaySeeSchema(cfg, oracle, user, catalog, schema)
  {
    WarehouseKnown(cfg, oracle, catalog, w => NamespaceCheck(w, Split(schema, '.'), "oidc~" + user, GetMetadata));
  }

  lemma TableRight(cfg: Config, oracle: Oracle, user: string, catalog: string, schema: string, table: string,
                   action: Action)
    requires AnsweredInFull(cfg.lk, oracle)
    ensures RequireTable(cfg, user, catalog, schema, table, action) <==>
              MayTable(cfg, oracle, user, catalog, schema, table, action)
  {
    WarehouseKnown(cfg, oracle, catalog, w => TableCheck(w, Split(schema, '.'), table, "oidc~" + user, action));
  }

  lemma ViewRight(cfg: Config, oracle: Oracle, user: string, catalog: string, schema: string, view: string,
                  action: Action)
    requires AnsweredInFull(cfg.lk, oracle)
    ensures RequireView(cfg, user, catalog, schema, view, action) <==>
              MayView(cfg, oracle, user, catalog, schema, view, action)
  {
    WarehouseKnown(cfg, oracle, catalog, w => ViewCheck(w, Split(schema, '.'), view, "oidc~" + user, action));
  }

  // --- Names with a meaning of their own ---

  predicate SystemSchemaName(schema: string)
  {
    schema in ["information_schema", "schema_discovery", "system"]
  }

  /** The kinds of Iceberg metadata table, as Trino writes them behind a dollar sign. */
  const KINDS: seq<string> := [
    "properties", "history", "metadata_log_entries", "snapshots", "manifests", "all_manifests",
    "partitions", "files", "entries", "all_entries", "refs"
  ]

  /** The table that a name stands for as one of its metadata tables, if it does. */
  ghost predicate BaseOf(table: string, base: Option<string>)
  {
    match base
    case Some(b) => exists kind | kind in KINDS :: table == b + "$" + kind
    case None => forall b: string, kind | kind in KINDS :: table != b + "$" + kind
  }

  /** The policies' list of suffixes is the list of kinds. */
  lemma SuffixesAreKinds()
    ensures |METADATA_SUFFIXES| == |KINDS|
    ensures forall i | 0 <= i < |KINDS| :: METADATA_SUFFIXES[i] == "$" + KINDS[i]
  {
    var s := METADATA_SUFFIXES;
    assert s[0] == "$" + "properties" && s[1] == "$" + "history" && s[2] == "$" + "metadata_log_entries";
    assert s[3] == "$" + "snapshots" && s[4] == "$" + "manifests" && s[5] == "$" + "all_manifests";
    assert s[6] == "$" + "partitions" && s[7] == "$" + "files" && s[8] == "$" + "entries";
    assert s[9] == "$" + "all_entries" && s[10] == "$" + "refs";
  }

  lemma SuffixSplits(table: string, base: string, kind: string, kinds: seq<string>, suffixes: seq<string>)
    requires |suffixes| == |kinds| && forall i | 0 <= i < |kinds| :: suffixes[i] == "$" + kinds[i]
    requires kind in kinds && table == base + "$" + kind
    ensures EndsWithAny(table, suffixes) && base in Bases(table, suffixes)
  {
    var i :| 0 <= i < |kinds| && kinds[i] == kind;
    var suffix := suffixes[i];
    assert table == base + suffix;
    assert suffix in suffixes && EndsWith(table, suffix);
    assert table[..|table| - |suffix|] == base;
  }

  lemma SplitsSuffix(table: string, base: string, kinds: seq<string>, suffixes: seq<string>) returns (kind: string)
    requires |suffixes| == |kinds| && forall i | 0 <= i < |kinds| :: suffixes[i] == "$" + kinds[i]
    requires base in Bases(table, suffixes)
    ensures kind in kinds && table == base + "$" + kind
  {
    var suffix :| suffix in suffixes && EndsWith(table, suffix) && base == table[..|table| - |suffix|];
    var i :| 0 <= i < |suffixes| && suffixes[i] == suffix;
    kind := kinds[i];
    assert table == base + suffix;
  }

  /** The base that the policy splits off a metadata table's name is that table. */
  lemma BaseExact(table: string, base: Option<string>)
    requires BaseOf(table, base)
    ensures base.Some? <==> IsMetadataTable(table)
    ensures base.Some? ==> base.value == SplitMetadataTableName(table)
  {
    SuffixesAreKinds();
    MetadataSplit(table);
    match base
    case Some(b) =>
      var kind :| kind in KINDS && table == b + "$" + kind;
      SuffixSplits(table, b, kind, KINDS, METADATA_SUFFIXES);
      OneElement(MetadataBases(table), b, SplitMetadataTableName(table));
    case None =>
      if IsMetadataTable(table) {
        var kind := SplitsSuffix(table, SplitMetadataTableName(table), KINDS, METADATA_SUFFIXES);
      }
  }

  lemma OneElement(s: set<string>, a: string, b: string)
    requires |s| <= 1 && a in s && b in s
    ensures a == b
  {
    if a != b {
      assert |{a, b}| == 2 && {a, b} <= s;
      SubsetSize({a, b}, s);
    }
  }

  lemma {:induction false} SubsetSize(a: set<string>, b: set<string>)
    requires a <= b
    ensures |a| <= |b|
  {
    if a != {} {
      var x :| x in a;
      SubsetSize(a - {x}, b - {x});
    }
  }

  // --- The reference ---

  /** A catalog that is not managed is open when the configuration says so. */
  predicate OpenCatalog(cfg: Config, catalog: string)
  {
    cfg.allowUnmanaged && catalog !in cfg.catalogs
  }

  ghost predicate CatalogEntitled(cfg: Config, oracle: Oracle, user: string, catalog: string)
  {
    catalog == "system" || MayUseCatalog(cfg, oracle, user, catalog) || OpenCatalog(cfg, catalog)
  }

  ghost predicate SchemaEntitled(cfg: Config, oracle: Oracle, user: string, catalog: string, schema: string)
  {
    || (catalog == "system"
        && (user in cfg.admins || schema in ["jdbc", "metadata", "information_schema", "runtime"]))
    || (if SystemSchemaName(schema) then user in cfg.admins || MayUseCatalog(cfg, oracle, user, catalog)
        else MaySeeSchema(cfg, oracle, user, catalog, schema))
    || OpenCatalog(cfg, catalog)
  }

  /** The tables of Trino's system catalog that everybody may use. */
  predicate OpenSystemTable(schema: string, table: string)
  {
    || schema == "jdbc" || (schema == "runtime" && table == "queries")
    || (schema == "information_schema" && table in ["columns", "schemata", "tables", "views"])
    || (schema == "metadata"
        && table in ["analyze_properties", "catalogs", "column_properties", "materialized_views",
                     "schema_properties", "table_comments", "table_properties"])
  }

  /** The tables of a managed catalog's system schemas. */
  predicate SystemSchemaTable(schema: string, table: string)
  {
    || (schema == "information_schema" && table in ["columns", "schemata", "tables", "views"])
    || (schema == "schema_discovery" && table in ["discovery", "shallow_discovery"])
    || (schema == "system" && table == "iceberg_tables")
  }

  /** LakeKeeper's own right on a table or view of that name: to list it, or to read it. A
      metadata table is read with the right to see its base table, and never listed as one. */
  ghost predicate NameEntitled(cfg: Config, oracle: Oracle, user: string, r: Resource, base: Option<string>,
                               reading: bool)
    requires r.Table?
  {
    || MayView(cfg, oracle, user, r.catalog, r.schema, r.table, if reading then Select else GetMetadata)
    || (match base
        case Some(b) => reading && MayTable(cfg, oracle, user, r.catalog, r.schema, b, GetMetadata)
        case None =>
          MayTable(cfg, oracle, user, r.catalog, r.schema, r.table, if reading then ReadData else GetMetadata))
  }

  /** A right that does not depend on the table: the system's, or the catalog's. */
  ghost predicate SystemEntitled(cfg: Config, oracle: Oracle, user: string, catalog: string, schema: string,
                                 table: string)
  {
    || (catalog == "system" && (user in cfg.admins || OpenSystemTable(schema, table)))
    || (SystemSchemaName(schema) && user in cfg.admins)
    || (SystemSchemaTable(schema, table) && MayUseCatalog(cfg, oracle, user, catalog))
    || OpenCatalog(cfg, catalog)
  }

  ghost predicate TableEntitled(cfg: Config, oracle: Oracle, user: string, r: Resource, base: Option<string>,
                                reading: bool)
    requires r.Table?
  {
    SystemEntitled(cfg, oracle, user, r.catalog, r.schema, r.table)
      || NameEntitled(cfg, oracle, user, r, base, reading)
  }

  /** A resource of a kind that the operation is not about: open with its catalog. */
  predicate OtherwiseOpen(cfg: Config, r: Resource)
  {
    match r
    case Catalog(name) => OpenCatalog(cfg, name)
    case Schema(catalog, _) => OpenCatalog(cfg, catalog)
    case Table(catalog, _, _, _, _) => OpenCatalog(cfg, catalog)
    case User(_) => false
  }

  /** `base` is the base table, where the resource is a metadata table. */
  ghost predicate Entitled(cfg: Config, oracle: Oracle, user: string, op: Operation, r: Resource, base: Option<string>)
  {
    match op
    case FilterCatalogs => if r.Catalog? then CatalogEntitled(cfg, oracle, user, r.name) else OtherwiseOpen(cfg, r)
    case FilterSchemas =>
      if r.Schema? then SchemaEntitled(cfg, oracle, user, r.catalog, r.schema) else OtherwiseOpen(cfg, r)
    case FilterTables => if r.Table? then TableEntitled(cfg, oracle, user, r, base, false) else OtherwiseOpen(cfg, r)
    case FilterColumns => if r.Table? then TableEntitled(cfg, oracle, user, r, base, false) else OtherwiseOpen(cfg, r)
    case SelectFromColumns => if r.Table? then TableEntitled(cfg, oracle, user, r, base, true)
      else OtherwiseOpen(cfg, r)
    case FilterViewQueryOwnedBy => user in cfg.admins || r == User(user) || OtherwiseOpen(cfg, r)
  }

  // --- `allow` is that ---

  lemma CatalogExact(cfg: Config, oracle: Oracle, user: string, r: Resource)
    requires AnsweredInFull(cfg.lk, oracle)
    ensures Allow(cfg, user, FilterCatalogs, r) <==> Entitled(cfg, oracle, user, FilterCatalogs, r, None)
  {
    if r.Catalog? { CatalogRight(cfg, oracle, user, r.name); }
  }

  lemma SchemaExact(cfg: Config, oracle: Oracle, user: string, r: Resource)
    requires AnsweredInFull(cfg.lk, oracle)
    ensures Allow(cfg, user, FilterSchemas, r) <==> Entitled(cfg, oracle, user, FilterSchemas, r, None)
  {
    if r.Schema? {
      CatalogRight(cfg, oracle, user, r.catalog);
      SchemaRight(cfg, oracle, user, r.catalog, r.schema);
    }
  }

  lemma NameExact(cfg: Config, oracle: Oracle, user: string, op: Operation, r: Resource, base: Option<string>)
    requires AnsweredInFull(cfg.lk, oracle) && TableOperation(op) && r.Table?
    requires base.Some? <==> IsMetadataTable(r.table)
    requires base.Some? ==> base.value == SplitMetadataTableName(r.table)
    ensures AllowTable(cfg, user, op, r) || AllowView(cfg, user, op, r) <==>
              NameEntitled(cfg, oracle, user, r, base, op.SelectFromColumns?)
  {
    var reading := op.SelectFromColumns?;
    ViewRight(cfg, oracle, user, r.catalog, r.schema, r.table, if reading then Select else GetMetadata);
    TableRight(cfg, oracle, user, r.catalog, r.schema, r.table, if reading then ReadData else GetMetadata);
    if base.Some? { TableRight(cfg, oracle, user, r.catalog, r.schema, base.value, GetMetadata); }
  }

  lemma SystemExact(cfg: Config, oracle: Oracle, user: string, op: Operation, r: Resource)
    requires AnsweredInFull(cfg.lk, oracle) && TableOperation(op) && r.Table?
    ensures AllowDefaultAccess(cfg, user, op, r) || AllowSchema(cfg, user, op, r) || AllowUnmanaged(cfg, r) <==>
              SystemEntitled(cfg, oracle, user, r.catalog, r.schema, r.table)
  {
    CatalogRight(cfg, oracle, user, r.catalog);
  }

  lemma TableExact(cfg: Config, oracle: Oracle, user: string, op: Operation, r: Resource, base: Option<string>)
    requires AnsweredInFull(cfg.lk, oracle) && TableOperation(op) && r.Table? && BaseOf(r.table, base)
    ensures Allow(cfg, user, op, r) <==> TableEntitled(cfg, oracle, user, r, base, op.SelectFromColumns?)
  {
    SystemExact(cfg, oracle, user, op, r);
    BaseExact(r.table, base);
    NameExact(cfg, oracle, user, op, r, base);
  }

  /** For every operation, resource, user, configuration and oracle. */
  lemma AllowExact(cfg: Config, oracle: Oracle, user: string, op: Operation, r: Resource, base: Option<string>)
    requires AnsweredInFull(cfg.lk, oracle) && (r.Table? ==> BaseOf(r.table, base))
    ensures Allow(cfg, user, op, r) <==> Entitled(cfg, oracle, user, op, r, base)
  {
    match op
    case FilterCatalogs => CatalogExact(cfg, oracle, user, r);
    case FilterSchemas => SchemaExact(cfg, oracle, user, r);
    case FilterViewQueryOwnedBy =>
    case _ => if r.Table? { TableExact(cfg, oracle, user, op, r, base); }
  }

  /** Reading a metadata table of a managed catalog takes the right to see its base table, or
      to select from a view of the very name. */
  lemma MetadataRead(cfg: Config, oracle: Oracle, user: string, r: Resource, base: string, kind: string)
    requires AnsweredInFull(cfg.lk, oracle) && r.Table? && Managed(cfg, r.catalog) && r.catalog != "system"
    requires !SystemSchemaName(r.schema) && kind in KINDS && r.table == base + "$" + kind
    ensures Allow(cfg, user, SelectFromColumns, r) <==>
              || MayTable(cfg, oracle, user, r.catalog, r.schema, base, GetMetadata)
              || MayView(cfg, oracle, user, r.catalog, r.schema, r.table, Select)
  {
    AllowExact(cfg, oracle, user, SelectFromColumns, r, Some(base));
    NoSystemRight(cfg, oracle, user, r, Some(base), true);
  }

  /** Outside the system catalog and the system schemas only rights on the name count. */
  lemma NoSystemRight(cfg: Config, oracle: Oracle, user: string, r: Resource, base: Option<string>, reading: bool)
    requires r.Table? && Managed(cfg, r.catalog) && r.catalog != "system" && !SystemSchemaName(r.schema)
    ensures TableEntitled(cfg, oracle, user, r, base, reading) <==> NameEntitled(cfg, oracle, user, r, base, reading)
  {
  }

  /** What the batch answers for a resource that LakeKeeper's batch does not decide is what the
      reference says, unless it is in the admin gap. */
  lemma FallbackEntitled(cfg: Config, oracle: Oracle, req: Request, i: nat, base: Option<string>)
    requires AnsweredInFull(cfg.lk, oracle) && i < |req.resources| && BatchOperation(req.op) && !SingleTableColumns(req)
    requires !Ordinary(cfg, req.op, req.resources[i])
    requires req.resources[i].Table? ==> BaseOf(req.resources[i].table, base)
    ensures i in Batch(cfg, req) <==>
              Entitled(cfg, oracle, req.user, req.op, req.resources[i], base) && !AdminGap(cfg, req, req.resources[i])
  {
    FallbackExact(cfg, oracle, req, i);
    AllowExact(cfg, oracle, req.user, req.op, req.resources[i], base);
  }

  /** LakeKeeper lets the user list everything in the catalog or in the schema. */
  ghost predicate MayListAll(cfg: Config, oracle: Oracle, user: string, catalog: string, schema: string)
  {
    || May(cfg, oracle, catalog, w => WarehouseCheck(w, "oidc~" + user, ListEverything))
    || May(cfg, oracle, catalog, w => NamespaceCheck(w, Split(schema, '.'), "oidc~" + user, ListEverything))
  }

  lemma BroadRights(cfg: Config, oracle: Oracle, user: string, catalog: string, schema: string)
    requires AnsweredInFull(cfg.lk, oracle)
    ensures Broad(cfg, user, catalog, schema) <==> MayListAll(cfg, oracle, user, catalog, schema)
  {
    WarehouseKnown(cfg, oracle, catalog, w => WarehouseCheck(w, "oidc~" + user, ListEverything));
    WarehouseKnown(cfg, oracle, catalog, w => NamespaceCheck(w, Split(schema, '.'), "oidc~" + user, ListEverything));
  }

  /** What the batch answers for the others: a right to list everything, where the operation
      lists, or the resource's own right, `read_data` for reading and metadata for listing. */
  lemma OrdinaryTableEntitled(cfg: Config, oracle: Oracle, req: Request, i: nat)
    requires AnsweredInFull(cfg.lk, oracle) && i < |req.resources| && TableOperation(req.op) && !SingleTableColumns(req)
    requires OrdinaryTable(cfg, req.resources[i])
    ensures var r := req.resources[i];
            var action := if req.op.SelectFromColumns? then ReadData else GetMetadata;
            i in Batch(cfg, req) <==>
              || MayTable(cfg, oracle, req.user, r.catalog, r.schema, r.table, action)
              || MayView(cfg, oracle, req.user, r.catalog, r.schema, r.table, action)
              || (!req.op.SelectFromColumns? && MayListAll(cfg, oracle, req.user, r.catalog, r.schema))
  {
    var r := req.resources[i];
    OrdinaryExact(cfg, oracle, req, i);
    TableRight(cfg, oracle, req.user, r.catalog, r.schema, r.table, BatchAction(req.op));
    ViewRight(cfg, oracle, req.user, r.catalog, r.schema, r.table, BatchAction(req.op));
    BroadRights(cfg, oracle, req.user, r.catalog, r.schema);
  }

  lemma OrdinarySchemaEntitled(cfg: Config, oracle: Oracle, req: Request, i: nat)
    requires AnsweredInFull(cfg.lk, oracle) && i < |req.resources| && req.op.FilterSchemas?
    requires OrdinarySchema(cfg, req.resources[i])
    ensures var r := req.resources[i];
            i in Batch(cfg, req) <==>
              || MaySeeSchema(cfg, oracle, req.user, r.catalog, r.schema)
              || MayListAll(cfg, oracle, req.user, r.catalog, r.schema)
  {
    var r := req.resources[i];
    OrdinaryExact(cfg, oracle, req, i);
    SchemaRight(cfg, oracle, req.user, r.catalog, r.schema);
    BroadRights(cfg, oracle, req.user, r.catalog, r.schema);
  }
}
