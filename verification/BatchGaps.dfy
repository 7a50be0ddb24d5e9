/** Each difference between `batch` and `allow` happens: for every name of a catalog, a
    schema, a table and a user, a LakeKeeper and a request that show it. */
module BatchGaps {
  import opened Wrappers
  import opened TrinoNames
  import opened Lakekeeper
  import opened TrinoPolicy
  import opened TrinoBatch
  import opened BatchTheorems

  /** A LakeKeeper that knows every warehouse and answers every request in full. */
  function Answering(id: string, warehouse: string, decide: Check -> bool): Service
  {
    Service(map[id := None], (_, _) => Some(warehouse), (_, checks) => Some(Decisions(checks, decide)))
  }

  function Decisions(checks: seq<Check>, decide: Check -> bool): seq<bool>
  {
    seq(|checks|, i requires 0 <= i < |checks| => decide(checks[i]))
  }

  function OracleOf(decide: Check -> bool): Oracle { (_, c) => decide(c) }

  /** One catalog, managed by that LakeKeeper; no admins. */
  function OneCatalog(catalog: string, id: string, warehouse: string, decide: Check -> bool): Config
  {
    Config(Answering(id, warehouse, decide), map[catalog := CatalogConfig(id, warehouse)], true, {})
  }

  /** What is known of a configuration with one catalog. */
  ghost predicate Setting(cfg: Config, catalog: string, decide: Check -> bool, warehouse: string)
  {
    && AnsweredInFull(cfg.lk, OracleOf(decide)) && cfg.catalogs.Keys == {catalog} && cfg.admins == {}
    && WarehouseOf(cfg, catalog) == Some(warehouse)
    && forall c :: Require(cfg.lk, cfg.catalogs[catalog].lakekeeperId, c) <==> decide(c)
  }

  lemma OneCatalogSetting(catalog: string, id: string, warehouse: string, decide: Check -> bool)
    ensures Setting(OneCatalog(catalog, id, warehouse, decide), catalog, decide, warehouse)
  {
    var cfg := OneCatalog(catalog, id, warehouse, decide);
    var oracle := OracleOf(decide);
    forall i, checks: seq<Check> | i in cfg.lk.maxBatch
      ensures cfg.lk.send(i, checks) == Some(Answers(oracle, i, checks))
    {
      assert Decisions(checks, decide) == Answers(oracle, i, checks);
    }
    forall c ensures Require(cfg.lk, id, c) <==> decide(c) {
      RequireMeansOracle(cfg.lk, oracle, id, c);
    }
  }

  /** Only `list_everything` on warehouses. */
  predicate ListsOnly(c: Check) { c.WarehouseCheck? && c.action.ListEverything? }

  lemma ListedIsBroadGap(cfg: Config, req: Request, catalog: string, schema: string, warehouse: string)
    requires Setting(cfg, catalog, ListsOnly, warehouse) && catalog != SYSTEM_CATALOG && !IsSystemSchema(schema)
    requires req.op.FilterSchemas? && req.resources == [Schema(catalog, schema)]
    ensures BroadGap(cfg, req, req.resources[0])
  {
  }

  /** A user who may list everything in the warehouse, but has no right on the schema, is
      shown it in a batch and not on its own. */
  lemma BroadGapHappens(catalog: string, schema: string, user: string, id: string, warehouse: string)
    requires catalog != SYSTEM_CATALOG && !IsSystemSchema(schema)
    ensures var cfg := OneCatalog(catalog, id, warehouse, ListsOnly);
            var req := Request(user, FilterSchemas, [Schema(catalog, schema)]);
            Batch(cfg, req) != OneAtATime(cfg, req)
  {
    var cfg, req := OneCatalog(catalog, id, warehouse, ListsOnly),
      Request(user, FilterSchemas, [Schema(catalog, schema)]);
    OneCatalogSetting(catalog, id, warehouse, ListsOnly);
    ListedIsBroadGap(cfg, req, catalog, schema, warehouse);
    ListingGapShows(cfg, OracleOf(ListsOnly), req);
  }

  lemma ListingGapShows(cfg: Config, oracle: Oracle, req: Request)
    requires AnsweredInFull(cfg.lk, oracle) && req.op.FilterSchemas? && req.resources != []
    requires BroadGap(cfg, req, req.resources[0]) || SystemGap(cfg, req, req.resources[0])
    ensures Batch(cfg, req) != OneAtATime(cfg, req)
  {
    BatchExact(cfg, oracle, req);
    assert req.resources[0] in req.resources;
  }

  predicate Nothing(c: Check) { false }

  lemma DefaultIsSystemGap(cfg: Config, req: Request, schema: string, warehouse: string)
    requires Setting(cfg, SYSTEM_CATALOG, Nothing, warehouse)
    requires schema in ["jdbc", "metadata", "runtime"] && !IsSystemSchema(schema)
    requires req.op.FilterSchemas? && req.resources == [Schema(SYSTEM_CATALOG, schema)]
    ensures SystemGap(cfg, req, req.resources[0])
  {
  }

  /** With a managed catalog named "system", a schema of default access is allowed on its own
      and not in a batch. */
  lemma SystemGapHappens(schema: string, user: string, id: string, warehouse: string)
    requires schema in ["jdbc", "metadata", "runtime"] && !IsSystemSchema(schema)
    ensures var cfg := OneCatalog(SYSTEM_CATALOG, id, warehouse, Nothing);
            var req := Request(user, FilterSchemas, [Schema(SYSTEM_CATALOG, schema)]);
            Batch(cfg, req) != OneAtATime(cfg, req)
  {
    var cfg, req := OneCatalog(SYSTEM_CATALOG, id, warehouse, Nothing),
      Request(user, FilterSchemas, [Schema(SYSTEM_CATALOG, schema)]);
    OneCatalogSetting(SYSTEM_CATALOG, id, warehouse, Nothing);
    DefaultIsSystemGap(cfg, req, schema, warehouse);
    ListingGapShows(cfg, OracleOf(Nothing), req);
  }

  /** Only `select`, and only on views. */
  predicate SelectsViews(c: Check) { c.ViewCheck? && c.action.Select? }

  lemma ViewIsSelectGap(cfg: Config, req: Request, catalog: string, schema: string, view: string, warehouse: string)
    requires Setting(cfg, catalog, SelectsViews, warehouse) && catalog != SYSTEM_CATALOG
    requires !IsSystemSchema(schema) && !IsMetadataTable(view)
    requires req.op.SelectFromColumns? && req.resources == [Table(catalog, schema, view, [], None)]
    ensures SelectGap(cfg, req, req.resources[0])
  {
  }

  /** A user who may select from a view, but has no `read_data` on it, may read it on its own
      and not in a batch. */
  lemma SelectGapHappens(catalog: string, schema: string, view: string, user: string, id: string, warehouse: string)
    requires catalog != SYSTEM_CATALOG && !IsSystemSchema(schema) && !IsMetadataTable(view)
    ensures var cfg := OneCatalog(catalog, id, warehouse, SelectsViews);
            var req := Request(user, SelectFromColumns, [Table(catalog, schema, view, [], None)]);
            Batch(cfg, req) != OneAtATime(cfg, req)
  {
    var cfg, req := OneCatalog(catalog, id, warehouse, SelectsViews),
      Request(user, SelectFromColumns, [Table(catalog, schema, view, [], None)]);
    OneCatalogSetting(catalog, id, warehouse, SelectsViews);
    ViewIsSelectGap(cfg, req, catalog, schema, view, warehouse);
    SelectGapShows(cfg, OracleOf(SelectsViews), req);
  }

  lemma SelectGapShows(cfg: Config, oracle: Oracle, req: Request)
    requires AnsweredInFull(cfg.lk, oracle) && req.op.SelectFromColumns? && req.resources != []
    requires SelectGap(cfg, req, req.resources[0])
    ensures Batch(cfg, req) != OneAtATime(cfg, req)
  {
    SelectExact(cfg, oracle, req);
    assert req.resources[0] in req.resources;
  }

  /** With unmanaged catalogs not allowed, an admin listing tables is allowed
      `hive.information_schema.tables` on its own but not in a batch. */
  lemma AdminGapHappens(lk: Service, oracle: Oracle)
    requires AnsweredInFull(lk, oracle)
    ensures var cfg := Config(lk, map[], false, {"root"});
            var req := Request("root", FilterTables, [Table("hive", "information_schema", "tables", [], None)]);
            0 in OneAtATime(cfg, req) && 0 !in Batch(cfg, req)
  {
    var cfg := Config(lk, map[], false, {"root"});
    var r := Table("hive", "information_schema", "tables", [], None);
    var req := Request("root", FilterTables, [r]);
    assert SYSTEM_SCHEMAS[0] == "information_schema";
    assert "hive"[0] != SYSTEM_CATALOG[0];
    assert AdminGap(cfg, req, r);
    IndexExact(cfg, oracle, req, 0);
    assert AllowAdminSystemSchemas(cfg, req.user, req.op, r);
  }
}
