/** The one-at-a-time decision: the rule `allow` on a single resource, for the operations
    that Trino sends to the batched endpoint. A field access on a resource of another kind
    is undefined in Rego, so the rule using it does not fire. */
module TrinoPolicy {
  import opened TrinoNames
  import opened Wrappers
  import opened Lakekeeper

  datatype Operation =
    | FilterTables
    | FilterColumns
    | SelectFromColumns
    | FilterSchemas
    | FilterCatalogs
    | FilterViewQueryOwnedBy

  datatype Resource =
    | Table(catalog: string, schema: string, table: string, columns: seq<string>, column: Option<string>)
    | Schema(catalog: string, schema: string)
    | Catalog(name: string)
    | User(user: string)

  datatype CatalogConfig = CatalogConfig(lakekeeperId: string, warehouse: string)

  datatype Config = Config(
    lk: Service,
    catalogs: map<string, CatalogConfig>,  // catalog_config_by_name; its keys are the managed catalogs
    allowUnmanaged: bool,
    admins: set<string>
  )

  const SYSTEM_CATALOG := "system"
  const SYSTEM_SCHEMAS: seq<string> := ["information_schema", "schema_discovery", "system"]
  const INFORMATION_SCHEMA_TABLES: seq<string> := ["columns", "schemata", "tables", "views"]
  const SCHEMA_DISCOVERY_TABLES: seq<string> := ["discovery", "shallow_discovery"]
  const SYSTEM_SCHEMA_TABLES: seq<string> := ["iceberg_tables"]
  const METADATA_TABLES: seq<string> := [
    "analyze_properties", "catalogs", "column_properties", "materialized_views",
    "schema_properties", "table_comments", "table_properties"
  ]

  predicate IsSystemSchema(schema: string) { schema in SYSTEM_SCHEMAS }

  predicate TableOperation(op: Operation)
  {
    op.FilterTables? || op.FilterColumns? || op.SelectFromColumns?
  }

  predicate IsAdmin(cfg: Config, user: string) { user in cfg.admins }

  function LakekeeperUser(user: string): string { "oidc~" + user }

  predicate Managed(cfg: Config, catalog: string) { catalog in cfg.catalogs }

  /** The id of a catalog's warehouse; undefined for a catalog that is not managed or an
      instance that is not configured. */
  function WarehouseOf(cfg: Config, catalog: string): Option<string>
  {
    if catalog !in cfg.catalogs then None
    else
      var c := cfg.catalogs[catalog];
      if c.lakekeeperId in cfg.lk.maxBatch then cfg.lk.warehouseId(c.lakekeeperId, c.warehouse) else None
  }

  predicate RequireCatalog(cfg: Config, user: string, catalog: string, action: Action)
  {
    match WarehouseOf(cfg, catalog)
    case Some(w) => Require(cfg.lk, cfg.catalogs[catalog].lakekeeperId, WarehouseCheck(w, LakekeeperUser(user), action))
    case None => false
  }

  predicate RequireSchema(cfg: Config, user: string, catalog: string, schema: string, action: Action)
  {
    match WarehouseOf(cfg, catalog)
    case Some(w) =>
      Require(cfg.lk, cfg.catalogs[catalog].lakekeeperId,
              NamespaceCheck(w, NamespaceForSchema(schema), LakekeeperUser(user), action))
    case None => false
  }

  predicate RequireTable(cfg: Config, user: string, catalog: string, schema: string, table: string, action: Action)
  {
    match WarehouseOf(cfg, catalog)
    case Some(w) =>
      Require(cfg.lk, cfg.catalogs[catalog].lakekeeperId,
              TableCheck(w, NamespaceForSchema(schema), table, LakekeeperUser(user), action))
    case None => false
  }

  predicate RequireView(cfg: Config, user: string, catalog: string, schema: string, table: string, action: Action)
  {
    match WarehouseOf(cfg, catalog)
    case Some(w) =>
      Require(cfg.lk, cfg.catalogs[catalog].lakekeeperId,
              ViewCheck(w, NamespaceForSchema(schema), table, LakekeeperUser(user), action))
    case None => false
  }

  // --- Default access ---

  predicate AllowAdminSystemAccess(cfg: Config, user: string, op: Operation, r: Resource)
  {
    && IsAdmin(cfg, user)
    && (|| (op.FilterSchemas? && r.Schema? && r.catalog == SYSTEM_CATALOG)
        || (TableOperation(op) && r.Table? && r.catalog == SYSTEM_CATALOG)
        || op.FilterViewQueryOwnedBy?)
  }

  predicate AllowSystemCatalogSchema(op: Operation, r: Resource)
  {
    && op.FilterSchemas? && r.Schema? && r.catalog == SYSTEM_CATALOG
    && r.schema in ["jdbc", "metadata", "information_schema", "runtime"]
  }

  predicate AllowSystemCatalogTable(op: Operation, r: Resource)
  {
    && TableOperation(op) && r.Table? && r.catalog == SYSTEM_CATALOG
    && (|| r.schema == "jdbc"
        || (r.schema == "metadata" && r.table in METADATA_TABLES)
        || (r.schema == "information_schema" && r.table in INFORMATION_SCHEMA_TABLES)
        || (r.schema == "runtime" && r.table == "queries"))
  }

  predicate AllowDefaultAccess(cfg: Config, user: string, op: Operation, r: Resource)
  {
    || AllowAdminSystemAccess(cfg, user, op, r)
    || AllowSystemCatalogSchema(op, r)
    || AllowSystemCatalogTable(op, r)
    || (op.FilterCatalogs? && r.Catalog? && r.name == SYSTEM_CATALOG)
    || (op.FilterViewQueryOwnedBy? && r.User? && r.user == user)
  }

  // --- Managed catalogs ---

  predicate AllowCatalog(cfg: Config, user: string, op: Operation, r: Resource)
  {
    op.FilterCatalogs? && r.Catalog? && RequireCatalog(cfg, user, r.name, GetConfig)
  }

  predicate AllowFilterSystemSchemas(cfg: Config, user: string, op: Operation, r: Resource)
  {
    op.FilterSchemas? && r.Schema? && IsSystemSchema(r.schema) && RequireCatalog(cfg, user, r.catalog, GetConfig)
  }

  predicate AllowFilterSchemas(cfg: Config, user: string, op: Operation, r: Resource)
  {
    op.FilterSchemas? && r.Schema? && !IsSystemSchema(r.schema)
      && RequireSchema(cfg, user, r.catalog, r.schema, GetMetadata)
  }

  predicate AllowTablesInSystemSchemas(cfg: Config, user: string, op: Operation, r: Resource)
  {
    && TableOperation(op) && r.Table?
    && (|| (r.schema == "information_schema" && r.table in INFORMATION_SCHEMA_TABLES)
        || (r.schema == "schema_discovery" && r.table in SCHEMA_DISCOVERY_TABLES)
        || (r.schema == "system" && r.table in SYSTEM_SCHEMA_TABLES))
    && RequireCatalog(cfg, user, r.catalog, GetConfig)
  }

  predicate AllowAdminSystemSchemas(cfg: Config, user: string, op: Operation, r: Resource)
  {
    && IsAdmin(cfg, user)
    && (|| (op.FilterSchemas? && r.Schema? && IsSystemSchema(r.schema))
        || (TableOperation(op) && r.Table? && IsSystemSchema(r.schema)))
  }

  predicate AllowSchema(cfg: Config, user: string, op: Operation, r: Resource)
  {
    || AllowTablesInSystemSchemas(cfg, user, op, r)
    || AllowFilterSchemas(cfg, user, op, r)
    || AllowFilterSystemSchemas(cfg, user, op, r)
    || AllowAdminSystemSchemas(cfg, user, op, r)
  }

  predicate AllowTable(cfg: Config, user: string, op: Operation, r: Resource)
  {
    && r.Table?
    && (match op
        case FilterTables => !IsMetadataTable(r.table)
          && RequireTable(cfg, user, r.catalog, r.schema, r.table, GetMetadata)
        case FilterColumns => !IsMetadataTable(r.table)
          && RequireTable(cfg, user, r.catalog, r.schema, r.table, GetMetadata)
        case SelectFromColumns =>
          if IsMetadataTable(r.table)
          then RequireTable(cfg, user, r.catalog, r.schema, SplitMetadataTableName(r.table), GetMetadata)
          else RequireTable(cfg, user, r.catalog, r.schema, r.table, ReadData)
        case _ => false)
  }

  predicate AllowView(cfg: Config, user: string, op: Operation, r: Resource)
  {
    && r.Table?
    && (match op
        case FilterTables => RequireView(cfg, user, r.catalog, r.schema, r.table, GetMetadata)
        case FilterColumns => RequireView(cfg, user, r.catalog, r.schema, r.table, GetMetadata)
        case SelectFromColumns => RequireView(cfg, user, r.catalog, r.schema, r.table, Select)
        case _ => false)
  }

  // --- Unmanaged catalogs ---

  function ResourceCatalog(r: Resource): Option<string>
  {
    match r
    case Table(c, _, _, _, _) => Some(c)
    case Schema(c, _) => Some(c)
    case Catalog(c) => Some(c)
    case User(_) => None
  }

  function ResourceSchema(r: Resource): Option<string>
  {
    match r
    case Table(_, s, _, _, _) => Some(s)
    case Schema(_, s) => Some(s)
    case _ => None
  }

  predicate AllowUnmanaged(cfg: Config, r: Resource)
  {
    cfg.allowUnmanaged && ResourceCatalog(r).Some? && !Managed(cfg, ResourceCatalog(r).value)
  }

  /** The entry point `allow`. */
  predicate Allow(cfg: Config, user: string, op: Operation, r: Resource)
  {
    || AllowDefaultAccess(cfg, user, op, r)
    || AllowCatalog(cfg, user, op, r)
    || AllowSchema(cfg, user, op, r)
    || AllowTable(cfg, user, op, r)
    || AllowView(cfg, user, op, r)
    || AllowUnmanaged(cfg, r)
  }
}
