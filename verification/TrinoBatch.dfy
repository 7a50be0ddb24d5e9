/** The batched decision: the set `batch` of indices into `filterResources`, with the
    warehouse-level and namespace-level fast paths, the chunked slow path with two checks
    per resource, and the per-resource fallbacks. */
module TrinoBatch {
  import opened Strings
  import opened TrinoNames
  import opened Wrappers
  import opened Lakekeeper
  import opened TrinoPolicy

  datatype Request = Request(user: string, op: Operation, resources: seq<Resource>)

  predicate BatchOperation(op: Operation)
  {
    TableOperation(op) || op.FilterSchemas?
  }

  /** `results[i].allowed == true`, which is undefined past the end. */
  predicate Holds(results: Option<seq<bool>>, i: nat)
  {
    results.Some? && i < |results.value| && results.value[i]
  }

  // --- Fast paths ---

  predicate WarehouseBroad(cfg: Config, user: string, catalog: string)
  {
    match WarehouseOf(cfg, catalog)
    case Some(w) =>
      Holds(BatchCheckResults(cfg.lk, cfg.catalogs[catalog].lakekeeperId,
                              [WarehouseCheck(w, LakekeeperUser(user), ListEverything)]), 0)
    case None => false
  }

  /** The distinct non-system schemas that the batch mentions in one catalog. */
  function DistinctSchemas(req: Request, catalog: string): set<string>
  {
    if TableOperation(req.op) then
      set r | r in req.resources && r.Table? && r.catalog == catalog && !IsSystemSchema(r.schema) :: r.schema
    else if req.op.FilterSchemas? then
      set r | r in req.resources && r.Schema? && r.catalog == catalog && !IsSystemSchema(r.schema) :: r.schema
    else {}
  }

  function NamespaceChecks(warehouse: string, user: string, schemas: seq<string>): (checks: seq<Check>)
    ensures |checks| == |schemas|
  {
    seq(|schemas|, i requires 0 <= i < |schemas| =>
      NamespaceCheck(warehouse, NamespaceForSchema(schemas[i]), LakekeeperUser(user), ListEverything))
  }

  /** `object.get(_namespace_broad, catalog, set())`: one cached batch of checks per catalog,
      asked only when the warehouse-level path does not apply. */
  function NamespaceBroad(cfg: Config, req: Request, catalog: string): set<string>
  {
    match WarehouseOf(cfg, catalog)
    case None => {}
    case Some(w) =>
      if WarehouseBroad(cfg, req.user, catalog) then {}
      else
        var names := SortSet(DistinctSchemas(req, catalog));
        var results := BatchCheckResults(cfg.lk, cfg.catalogs[catalog].lakekeeperId,
                                         NamespaceChecks(w, req.user, names));
        set i | 0 <= i < |names| && Holds(results, i) :: names[i]
  }

  predicate Covered(cfg: Config, req: Request, catalog: string, schema: string)
  {
    WarehouseBroad(cfg, req.user, catalog) || schema in NamespaceBroad(cfg, req, catalog)
  }

  predicate FastPathCoversTable(cfg: Config, req: Request, r: Resource)
    requires r.Table?
  {
    (req.op.FilterTables? || req.op.FilterColumns?) && Covered(cfg, req, r.catalog, r.schema)
  }

  predicate FastPathCoversSchema(cfg: Config, req: Request, r: Resource)
    requires r.Schema?
  {
    req.op.FilterSchemas? && Covered(cfg, req, r.catalog, r.schema)
  }

  // --- Slow path ---

  /** A table resource whose decision LakeKeeper makes through the batch. */
  predicate OrdinaryTable(cfg: Config, r: Resource)
  {
    r.Table? && Managed(cfg, r.catalog) && !IsSystemSchema(r.schema) && !IsMetadataTable(r.table)
  }

  predicate OrdinarySchema(cfg: Config, r: Resource)
  {
    r.Schema? && Managed(cfg, r.catalog) && !IsSystemSchema(r.schema)
  }

  predicate SlowTable(cfg: Config, req: Request, r: Resource)
  {
    TableOperation(req.op) && OrdinaryTable(cfg, r) && !FastPathCoversTable(cfg, req, r)
  }

  predicate SlowSchema(cfg: Config, req: Request, r: Resource)
  {
    req.op.FilterSchemas? && OrdinarySchema(cfg, r) && !FastPathCoversSchema(cfg, req, r)
  }

  predicate SlowIn(cfg: Config, req: Request, catalog: string, r: Resource)
  {
    (SlowTable(cfg, req, r) || SlowSchema(cfg, req, r)) && r.catalog == catalog
  }

  /** Indices of the slow-path resources of one catalog, in input order, from `from` on. */
  function CatalogIndices(cfg: Config, req: Request, catalog: string, from: nat): (r: seq<nat>)
    ensures forall i | i in r :: from <= i < |req.resources|
    decreases |req.resources| - from
  {
    if from >= |req.resources| then []
    else
      var r := req.resources[from];
      var rest := CatalogIndices(cfg, req, catalog, from + 1);
      if SlowIn(cfg, req, catalog, r) then [from] + rest else rest
  }

  /** The LakeKeeper action behind each table operation. */
  function BatchAction(op: Operation): Action
  {
    if op.SelectFromColumns? then ReadData else GetMetadata
  }

  /** Two consecutive checks per resource, table then view. */
  function PairChecks(warehouse: string, req: Request, indices: seq<nat>): (checks: seq<Check>)
    requires forall i | i in indices :: i < |req.resources| && req.resources[i].Table?
    ensures |checks| == 2 * |indices|
  {
    if indices == [] then []
    else
      assert indices[0] in indices;
      var r := req.resources[indices[0]];
      var ns := NamespaceForSchema(r.schema);
      [TableCheck(warehouse, ns, r.table, LakekeeperUser(req.user), BatchAction(req.op)),
       ViewCheck(warehouse, ns, r.table, LakekeeperUser(req.user), BatchAction(req.op))]
      + PairChecks(warehouse, req, indices[1..])
  }

  /** Each index twice, aligned with the checks. */
  function OrderedIndices(indices: seq<nat>): (r: seq<nat>)
    ensures |r| == 2 * |indices|
  {
    if indices == [] then [] else [indices[0], indices[0]] + OrderedIndices(indices[1..])
  }

  /** Even positions whose own check, or the one after it, was allowed. */
  function PairAllowed(ordered: seq<nat>, results: Option<seq<bool>>): set<nat>
  {
    set j | 0 <= j < |ordered| && j % 2 == 0 && (Holds(results, j) || Holds(results, j + 1)) :: ordered[j]
  }

  /** `_lakekeeper_batch_allowed[catalog]`; empty where the rule is undefined. */
  function TableBatchAllowed(cfg: Config, req: Request, catalog: string): set<nat>
  {
    if !TableOperation(req.op) then {}
    else
      match WarehouseOf(cfg, catalog)
      case None => {}
      case Some(w) =>
        var indices := CatalogIndices(cfg, req, catalog, 0);
        CatalogIndicesSlow(cfg, req, catalog, 0);
        var results := BatchCheckResults(cfg.lk, cfg.catalogs[catalog].lakekeeperId, PairChecks(w, req, indices));
        PairAllowed(OrderedIndices(indices), results)
  }

  function SchemaChecks(warehouse: string, req: Request, indices: seq<nat>): (checks: seq<Check>)
    requires forall i | i in indices :: i < |req.resources| && req.resources[i].Schema?
    ensures |checks| == |indices|
  {
    seq(|indices|, j requires 0 <= j < |indices| =>
      assert indices[j] in indices;
      NamespaceCheck(warehouse, NamespaceForSchema(req.resources[indices[j]].schema), LakekeeperUser(req.user),
                     GetMetadata))
  }

  /** `_lakekeeper_batch_schema_allowed[catalog]`. */
  function SchemaBatchAllowed(cfg: Config, req: Request, catalog: string): set<nat>
  {
    if !req.op.FilterSchemas? then {}
    else
      match WarehouseOf(cfg, catalog)
      case None => {}
      case Some(w) =>
        var indices := CatalogIndices(cfg, req, catalog, 0);
        CatalogIndicesSlow(cfg, req, catalog, 0);
        var results := BatchCheckResults(cfg.lk, cfg.catalogs[catalog].lakekeeperId, SchemaChecks(w, req, indices));
        set j | 0 <= j < |indices| && Holds(results, j) :: indices[j]
  }

  /** The listed indices are exactly the slow-path resources of the catalog. */
  lemma {:induction false} CatalogIndicesSlow(cfg: Config, req: Request, catalog: string, from: nat)
    ensures forall i :: i in CatalogIndices(cfg, req, catalog, from) <==>
              from <= i < |req.resources| && SlowIn(cfg, req, catalog, req.resources[i])
    decreases |req.resources| - from
  {
    if from < |req.resources| {
      CatalogIndicesSlow(cfg, req, catalog, from + 1);
    }
  }

  // --- Batch rules, one predicate per rule body ---

  predicate SlowPathRule(cfg: Config, req: Request, i: nat)
  {
    exists catalog | catalog in cfg.catalogs ::
      i in TableBatchAllowed(cfg, req, catalog) || i in SchemaBatchAllowed(cfg, req, catalog)
  }

  predicate FastPathTableRule(cfg: Config, req: Request, r: Resource)
  {
    && (req.op.FilterTables? || req.op.FilterColumns?)
    && r.Table? && !IsSystemSchema(r.schema) && !IsMetadataTable(r.table)
    && Covered(cfg, req, r.catalog, r.schema)
  }

  predicate FastPathSchemaRule(cfg: Config, req: Request, r: Resource)
  {
    && req.op.FilterSchemas?
    && r.Schema? && !IsSystemSchema(r.schema)
    && Covered(cfg, req, r.catalog, r.schema)
  }

  /** The first resource of a catalog stands for all of them. */
  function Representative(resources: seq<Resource>, catalog: string): Option<Resource>
  {
    if resources == [] then None
    else if ResourceCatalog(resources[0]) == Some(catalog) then Some(resources[0])
    else Representative(resources[1..], catalog)
  }

  /** `_allowed_unmanaged_batch_catalogs`. */
  predicate UnmanagedCatalogAllowed(cfg: Config, req: Request, catalog: string)
  {
    && !Managed(cfg, catalog)
    && Representative(req.resources, catalog).Some?
    && AllowUnmanaged(cfg, Representative(req.resources, catalog).value)
  }

  predicate BlanketUnmanaged(cfg: Config, req: Request, r: Resource)
  {
    ResourceCatalog(r).Some? && UnmanagedCatalogAllowed(cfg, req, ResourceCatalog(r).value)
  }

  /** A resource without a catalog also passes both negations. */
  predicate UnmanagedFallbackRule(cfg: Config, req: Request, r: Resource)
  {
    && BatchOperation(req.op)
    && !(ResourceCatalog(r).Some? && Managed(cfg, ResourceCatalog(r).value))
    && !BlanketUnmanaged(cfg, req, r)
    && AllowDefaultAccess(cfg, req.user, req.op, r)
  }

  predicate SystemSchemaFallbackRule(cfg: Config, req: Request, r: Resource)
  {
    && BatchOperation(req.op)
    && ResourceCatalog(r).Some? && Managed(cfg, ResourceCatalog(r).value)
    && ResourceSchema(r).Some? && IsSystemSchema(ResourceSchema(r).value)
    && Allow(cfg, req.user, req.op, r)
  }

  predicate MetadataTableFallbackRule(cfg: Config, req: Request, r: Resource)
  {
    && TableOperation(req.op)
    && r.Table? && Managed(cfg, r.catalog) && !IsSystemSchema(r.schema) && IsMetadataTable(r.table)
    && Allow(cfg, req.user, req.op, r)
  }

  predicate ResourceRules(cfg: Config, req: Request, i: nat)
    requires i < |req.resources|
  {
    var r := req.resources[i];
    || SlowPathRule(cfg, req, i)
    || FastPathTableRule(cfg, req, r)
    || FastPathSchemaRule(cfg, req, r)
    || (BatchOperation(req.op) && BlanketUnmanaged(cfg, req, r))
    || UnmanagedFallbackRule(cfg, req, r)
    || SystemSchemaFallbackRule(cfg, req, r)
    || MetadataTableFallbackRule(cfg, req, r)
    || (!BatchOperation(req.op) && Allow(cfg, req.user, req.op, r))
  }

  /** FilterColumns on one table lists the columns inside that one resource. */
  predicate SingleTableColumns(req: Request)
  {
    req.op.FilterColumns? && |req.resources| == 1 && req.resources[0].Table? && |req.resources[0].columns| > 0
  }

  predicate SingleTableAllowed(cfg: Config, req: Request, r: Resource)
    requires r.Table?
  {
    Covered(cfg, req, r.catalog, r.schema) || (Managed(cfg, r.catalog) && 0 in TableBatchAllowed(cfg, req, r.catalog))
  }

  /** Either the LakeKeeper batch answers for the whole table, or `allow` runs on each column. */
  predicate ColumnRules(cfg: Config, req: Request, i: nat)
    requires SingleTableColumns(req) && i < |req.resources[0].columns|
  {
    var r := req.resources[0];
    if OrdinaryTable(cfg, r) then SingleTableAllowed(cfg, req, r)
    else Allow(cfg, req.user, req.op, r.(column := Some(r.columns[i])))
  }

  /** The entry point `batch`. */
  function Batch(cfg: Config, req: Request): set<nat>
  {
    (set i | 0 <= i < |req.resources| && ResourceRules(cfg, req, i))
    + (if SingleTableColumns(req)
       then set i | 0 <= i < |req.resources[0].columns| && ColumnRules(cfg, req, i)
       else {})
  }
}
