/** Batching preserves meaning: `batch` against `allow` evaluated one resource at a time. */
module BatchTheorems {
  import opened Strings
  import opened TrinoNames
  import opened Wrappers
  import opened Lakekeeper
  import opened TrinoPolicy
  import opened TrinoBatch

  // --- What each LakeKeeper round trip establishes ---

  /** Result j of a batch says what the `require_*` wrapper says on check j alone. */
  lemma AnswerAt(lk: Service, oracle: Oracle, id: string, checks: seq<Check>, j: nat)
    requires AnsweredInFull(lk, oracle) && j < |checks|
    ensures Holds(BatchCheckResults(lk, id, checks), j) <==> Require(lk, id, checks[j])
  {
    RequireMeansOracle(lk, oracle, id, checks[j]);
    if id in lk.maxBatch {
      BatchAligned(lk, oracle, id, checks);
    }
  }

  lemma WarehouseBroadExact(cfg: Config, oracle: Oracle, user: string, catalog: string)
    requires AnsweredInFull(cfg.lk, oracle)
    ensures WarehouseBroad(cfg, user, catalog) <==> RequireCatalog(cfg, user, catalog, ListEverything)
  {
    if WarehouseOf(cfg, catalog).Some? {
      var w := WarehouseOf(cfg, catalog).value;
      AnswerAt(cfg.lk, oracle, cfg.catalogs[catalog].lakekeeperId,
               [WarehouseCheck(w, LakekeeperUser(user), ListEverything)], 0);
    }
  }

  /** Sorting, checking and mapping back: a schema is broad exactly when the batch mentions
      it, the warehouse is not broad, and the schema's own check is allowed. */
  /** The batch has a resource of the operation's kind in that schema, which is no system schema. */
  ghost predicate MentionedIn(req: Request, catalog: string, schema: string)
  {
    && schema !in ["information_schema", "schema_discovery", "system"]
    && exists r | r in req.resources ::
      ((TableOperation(req.op) && r.Table?) || (req.op.FilterSchemas? && r.Schema?))
      && r.catalog == catalog && r.schema == schema
  }

  lemma NamespaceBroadExact(cfg: Config, oracle: Oracle, req: Request, catalog: string, schema: string)
    requires AnsweredInFull(cfg.lk, oracle)
    ensures schema in NamespaceBroad(cfg, req, catalog) <==>
              && !WarehouseBroad(cfg, req.user, catalog)
              && MentionedIn(req, catalog, schema)
              && RequireSchema(cfg, req.user, catalog, schema, ListEverything)
  {
    if WarehouseOf(cfg, catalog).Some? && !WarehouseBroad(cfg, req.user, catalog) {
      var w, id := WarehouseOf(cfg, catalog).value, cfg.catalogs[catalog].lakekeeperId;
      var names := SortSet(DistinctSchemas(req, catalog));
      var checks := NamespaceChecks(w, req.user, names);
      assert schema in names <==> schema in Elements(names);
      RequireMeansOracle(cfg.lk, oracle, id,
                         NamespaceCheck(w, NamespaceForSchema(schema), LakekeeperUser(req.user), ListEverything));
      if names != [] {
        BatchAligned(cfg.lk, oracle, id, checks);
      }
    }
  }

  /** Where the two checks of the k-th resource stand. */
  lemma {:induction false} PairAt(w: string, req: Request, indices: seq<nat>, k: nat)
    requires forall i | i in indices :: i < |req.resources| && req.resources[i].Table?
    requires k < |indices|
    ensures indices[k] in indices
    ensures var r := req.resources[indices[k]];
            && PairChecks(w, req, indices)[2 * k] ==
               TableCheck(w, NamespaceForSchema(r.schema), r.table, LakekeeperUser(req.user), BatchAction(req.op))
            && PairChecks(w, req, indices)[2 * k + 1] ==
               ViewCheck(w, NamespaceForSchema(r.schema), r.table, LakekeeperUser(req.user), BatchAction(req.op))
  {
    if k > 0 {
      var rest := indices[1..];
      PairAt(w, req, rest, k - 1);
      assert PairChecks(w, req, indices)[2 * k] == PairChecks(w, req, rest)[2 * (k - 1)];
      assert PairChecks(w, req, indices)[2 * k + 1] == PairChecks(w, req, rest)[2 * (k - 1) + 1];
    }
  }

  /** The table or the view check of a resource, as one request each. */
  predicate TableOrView(cfg: Config, req: Request, r: Resource)
    requires r.Table?
  {
    || RequireTable(cfg, req.user, r.catalog, r.schema, r.table, BatchAction(req.op))
    || RequireView(cfg, req.user, r.catalog, r.schema, r.table, BatchAction(req.op))
  }

  /** The two results of the k-th resource are its two checks. */
  lemma PairHolds(cfg: Config, oracle: Oracle, req: Request, catalog: string, indices: seq<nat>, k: nat)
    requires AnsweredInFull(cfg.lk, oracle)
    requires WarehouseOf(cfg, catalog).Some?
    requires forall i | i in indices ::
              i < |req.resources| && req.resources[i].Table? && req.resources[i].catalog == catalog
    requires k < |indices|
    ensures indices[k] in indices
    ensures var results := BatchCheckResults(cfg.lk, cfg.catalogs[catalog].lakekeeperId,
                                             PairChecks(WarehouseOf(cfg, catalog).value, req, indices));
            PairHeld(results, k) <==> TableOrView(cfg, req, req.resources[indices[k]])
  {
    var w, id := WarehouseOf(cfg, catalog).value, cfg.catalogs[catalog].lakekeeperId;
    var checks := PairChecks(w, req, indices);
    PairAt(w, req, indices, k);
    AnswerAt(cfg.lk, oracle, id, checks, 2 * k);
    AnswerAt(cfg.lk, oracle, id, checks, 2 * k + 1);
  }

  lemma {:induction false} OrderedAt(indices: seq<nat>, k: nat)
    requires k < |indices|
    ensures OrderedIndices(indices)[2 * k] == indices[k]
  {
    if k > 0 {
      OrderedAt(indices[1..], k - 1);
      assert OrderedIndices(indices)[2 * k] == OrderedIndices(indices[1..])[2 * (k - 1)];
    }
  }

  /** One of the two results of the k-th resource is true. */
  predicate PairHeld(results: Option<seq<bool>>, k: nat)
  {
    Holds(results, 2 * k) || Holds(results, 2 * k + 1)
  }

  predicate EvenHeld(results: Option<seq<bool>>, j: nat)
  {
    j % 2 == 0 && (Holds(results, j) || Holds(results, j + 1))
  }

  lemma EvenPosition(results: Option<seq<bool>>, j: nat)
    ensures j % 2 == 0 ==> j == 2 * (j / 2)
    ensures EvenHeld(results, j) ==> PairHeld(results, j / 2)
    ensures EvenHeld(results, 2 * j) <==> PairHeld(results, j)
  {
  }

  /** Mapping even positions back to indices adds nothing ... */
  lemma PairAllowedSound(indices: seq<nat>, results: Option<seq<bool>>, i: nat) returns (k: nat)
    requires i in PairAllowed(OrderedIndices(indices), results)
    ensures k < |indices| && indices[k] == i && PairHeld(results, k)
  {
    var ordered := OrderedIndices(indices);
    var j :| 0 <= j < |ordered| && j % 2 == 0 && (Holds(results, j) || Holds(results, j + 1)) && ordered[j] == i;
    assert EvenHeld(results, j);
    EvenPosition(results, j);
    k := j / 2;
    OrderedAt(indices, k);
  }

  /** ... and loses nothing. */
  lemma PairAllowedComplete(indices: seq<nat>, results: Option<seq<bool>>, k: nat)
    requires k < |indices| && PairHeld(results, k)
    ensures indices[k] in PairAllowed(OrderedIndices(indices), results)
  {
    EvenPosition(results, k);
    OrderedAt(indices, k);
    assert EvenHeld(results, 2 * k);
  }

  lemma PairAllowedExact(cfg: Config, oracle: Oracle, req: Request, catalog: string, indices: seq<nat>, i: nat)
    requires AnsweredInFull(cfg.lk, oracle)
    requires WarehouseOf(cfg, catalog).Some?
    requires forall k | k in indices ::
              k < |req.resources| && req.resources[k].Table? && req.resources[k].catalog == catalog
    ensures var results := BatchCheckResults(cfg.lk, cfg.catalogs[catalog].lakekeeperId,
                                             PairChecks(WarehouseOf(cfg, catalog).value, req, indices));
            i in PairAllowed(OrderedIndices(indices), results) <==>
              i in indices && TableOrView(cfg, req, req.resources[i])
  {
    var results := BatchCheckResults(cfg.lk, cfg.catalogs[catalog].lakekeeperId,
                                     PairChecks(WarehouseOf(cfg, catalog).value, req, indices));
    if i in PairAllowed(OrderedIndices(indices), results) {
      var k := PairAllowedSound(indices, results, i);
      PairHolds(cfg, oracle, req, catalog, indices, k);
    } else if i in indices {
      var k :| 0 <= k < |indices| && indices[k] == i;
      PairHolds(cfg, oracle, req, catalog, indices, k);
      if PairHeld(results, k) {
        PairAllowedComplete(indices, results, k);
      }
    }
  }

  lemma TableBatchExact(cfg: Config, oracle: Oracle, req: Request, catalog: string, i: nat)
    requires AnsweredInFull(cfg.lk, oracle) && Managed(cfg, catalog)
    ensures i in TableBatchAllowed(cfg, req, catalog) <==>
              && i < |req.resources| && SlowTable(cfg, req, req.resources[i])
              && req.resources[i].catalog == catalog && TableOrView(cfg, req, req.resources[i])
  {
    if TableOperation(req.op) && WarehouseOf(cfg, catalog).Some? {
      CatalogIndicesSlow(cfg, req, catalog, 0);
      PairAllowedExact(cfg, oracle, req, catalog, CatalogIndices(cfg, req, catalog, 0), i);
    }
  }

  lemma SchemaBatchExact(cfg: Config, oracle: Oracle, req: Request, catalog: string, i: nat)
    requires AnsweredInFull(cfg.lk, oracle) && Managed(cfg, catalog)
    ensures i in SchemaBatchAllowed(cfg, req, catalog) <==>
              && i < |req.resources| && SlowSchema(cfg, req, req.resources[i])
              && req.resources[i].catalog == catalog
              && RequireSchema(cfg, req.user, catalog, req.resources[i].schema, GetMetadata)
  {
    if req.op.FilterSchemas? && WarehouseOf(cfg, catalog).Some? {
      var w, id := WarehouseOf(cfg, catalog).value, cfg.catalogs[catalog].lakekeeperId;
      var indices := CatalogIndices(cfg, req, catalog, 0);
      CatalogIndicesSlow(cfg, req, catalog, 0);
      var checks := SchemaChecks(w, req, indices);
      forall j | 0 <= j < |indices|
        ensures Holds(BatchCheckResults(cfg.lk, id, checks), j) <==>
                  RequireSchema(cfg, req.user, catalog, req.resources[indices[j]].schema, GetMetadata)
      {
        assert indices[j] in indices;
        BatchAligned(cfg.lk, oracle, id, checks);
        RequireMeansOracle(cfg.lk, oracle, id, checks[j]);
      }
    }
  }

  // --- The whole decision for one index ---

  /** `list_everything` on the warehouse, or on the namespace of the schema. */
  predicate Broad(cfg: Config, user: string, catalog: string, schema: string)
  {
    RequireCatalog(cfg, user, catalog, ListEverything) || RequireSchema(cfg, user, catalog, schema, ListEverything)
  }

  lemma CoveredExact(cfg: Config, oracle: Oracle, req: Request, r: Resource)
    requires AnsweredInFull(cfg.lk, oracle) && r in req.resources
    requires (TableOperation(req.op) && r.Table?) || (req.op.FilterSchemas? && r.Schema?)
    requires !IsSystemSchema(r.schema)
    ensures Covered(cfg, req, r.catalog, r.schema) <==> Broad(cfg, req.user, r.catalog, r.schema)
  {
    WarehouseBroadExact(cfg, oracle, req.user, r.catalog);
    NamespaceBroadExact(cfg, oracle, req, r.catalog, r.schema);
  }

  /** A resource that a broad right covers costs no check of its own. */
  lemma BroadSparesChecks(cfg: Config, oracle: Oracle, req: Request, catalog: string, i: nat)
    requires AnsweredInFull(cfg.lk, oracle) && !req.op.SelectFromColumns?
    requires i in CatalogIndices(cfg, req, catalog, 0)
    ensures i < |req.resources|
    ensures var r := req.resources[i]; (r.Table? || r.Schema?) && !Broad(cfg, req.user, r.catalog, r.schema)
  {
    CatalogIndicesSlow(cfg, req, catalog, 0);
    CoveredExact(cfg, oracle, req, req.resources[i]);
  }

  lemma SlowPathTable(cfg: Config, oracle: Oracle, req: Request, i: nat)
    requires AnsweredInFull(cfg.lk, oracle) && TableOperation(req.op)
    ensures SlowPathRule(cfg, req, i) <==>
              i < |req.resources| && SlowTable(cfg, req, req.resources[i]) && TableOrView(cfg, req, req.resources[i])
  {
    forall catalog | catalog in cfg.catalogs
      ensures i in SchemaBatchAllowed(cfg, req, catalog) <==> false
      ensures i in TableBatchAllowed(cfg, req, catalog) <==>
                && i < |req.resources| && SlowTable(cfg, req, req.resources[i])
                && req.resources[i].catalog == catalog && TableOrView(cfg, req, req.resources[i])
    {
      TableBatchExact(cfg, oracle, req, catalog, i);
    }
  }

  lemma SlowPathSchema(cfg: Config, oracle: Oracle, req: Request, i: nat)
    requires AnsweredInFull(cfg.lk, oracle) && req.op.FilterSchemas?
    ensures SlowPathRule(cfg, req, i) <==>
              && i < |req.resources| && SlowSchema(cfg, req, req.resources[i])
              && RequireSchema(cfg, req.user, req.resources[i].catalog, req.resources[i].schema, GetMetadata)
  {
    forall catalog | catalog in cfg.catalogs
      ensures i in TableBatchAllowed(cfg, req, catalog) <==> false
      ensures i in SchemaBatchAllowed(cfg, req, catalog) <==>
                && i < |req.resources| && SlowSchema(cfg, req, req.resources[i])
                && req.resources[i].catalog == catalog
                && RequireSchema(cfg, req.user, catalog, req.resources[i].schema, GetMetadata)
    {
      SchemaBatchExact(cfg, oracle, req, catalog, i);
    }
  }

  /** A resource of the operation's kind that the LakeKeeper batch decides. */
  predicate Ordinary(cfg: Config, op: Operation, r: Resource)
  {
    (TableOperation(op) && OrdinaryTable(cfg, r)) || (op.FilterSchemas? && OrdinarySchema(cfg, r))
  }

  /** The resource's own check: the table's or the view's, or the namespace's metadata. */
  predicate OwnCheck(cfg: Config, req: Request, r: Resource)
    requires Ordinary(cfg, req.op, r)
  {
    if r.Table? then TableOrView(cfg, req, r)
    else RequireSchema(cfg, req.user, r.catalog, r.schema, GetMetadata)
  }

  lemma {:induction false} RepresentativeExact(resources: seq<Resource>, catalog: string)
    ensures Representative(resources, catalog).Some? <==>
              exists r | r in resources :: ResourceCatalog(r) == Some(catalog)
    ensures Representative(resources, catalog).Some? ==>
              ResourceCatalog(Representative(resources, catalog).value) == Some(catalog)
  {
    if resources != [] {
      RepresentativeExact(resources[1..], catalog);
      assert forall r :: r in resources <==> r == resources[0] || r in resources[1..];
    }
  }

  /** One evaluation per catalog is enough: the blanket rule is a property of the catalog. */
  lemma BlanketExact(cfg: Config, req: Request, r: Resource)
    requires r in req.resources
    ensures BlanketUnmanaged(cfg, req, r) <==> AllowUnmanaged(cfg, r)
  {
    if ResourceCatalog(r).Some? {
      RepresentativeExact(req.resources, ResourceCatalog(r).value);
    }
  }

  /** For an ordinary resource the batch asks for a broad right, except when reading data,
      or for the resource's own check. */
  lemma OrdinaryExact(cfg: Config, oracle: Oracle, req: Request, i: nat)
    requires AnsweredInFull(cfg.lk, oracle) && i < |req.resources| && Ordinary(cfg, req.op, req.resources[i])
    ensures var r := req.resources[i];
            ResourceRules(cfg, req, i) <==>
              OwnCheck(cfg, req, r) || (!req.op.SelectFromColumns? && Broad(cfg, req.user, r.catalog, r.schema))
  {
    var r := req.resources[i];
    BlanketExact(cfg, req, r);
    CoveredExact(cfg, oracle, req, r);
    if TableOperation(req.op) {
      SlowPathTable(cfg, oracle, req, i);
    } else {
      SlowPathSchema(cfg, oracle, req, i);
    }
  }

  /** One at a time, an ordinary resource is allowed by its own check, or, in a managed
      catalog named "system", by default access. */
  lemma OrdinaryAllow(cfg: Config, req: Request, r: Resource)
    requires Ordinary(cfg, req.op, r) && !req.op.SelectFromColumns?
    ensures Allow(cfg, req.user, req.op, r) <==>
              OwnCheck(cfg, req, r) || AllowDefaultAccess(cfg, req.user, req.op, r)
  {
  }

  /** An admin's blanket right over system schemas does not look at the catalog, but the
      batch fallback for unmanaged catalogs tries default access only. */
  predicate AdminGap(cfg: Config, req: Request, r: Resource)
  {
    && IsAdmin(cfg, req.user) && !cfg.allowUnmanaged
    && ((TableOperation(req.op) && r.Table?) || (req.op.FilterSchemas? && r.Schema?))
    && !Managed(cfg, r.catalog) && r.catalog != SYSTEM_CATALOG && IsSystemSchema(r.schema)
  }

  lemma UnmanagedNeedsNoCheck(cfg: Config, user: string, op: Operation, r: Resource)
    requires ResourceCatalog(r).Some? ==> !Managed(cfg, ResourceCatalog(r).value)
    ensures Allow(cfg, user, op, r) <==>
              AllowDefaultAccess(cfg, user, op, r) || AllowAdminSystemSchemas(cfg, user, op, r)
                || AllowUnmanaged(cfg, r)
  {
  }

  /** Every other resource of a batch operation goes through a fallback. */
  lemma FallbackExact(cfg: Config, oracle: Oracle, req: Request, i: nat)
    requires AnsweredInFull(cfg.lk, oracle) && i < |req.resources|
    requires BatchOperation(req.op) && !Ordinary(cfg, req.op, req.resources[i])
    ensures ResourceRules(cfg, req, i) <==>
              Allow(cfg, req.user, req.op, req.resources[i]) && !AdminGap(cfg, req, req.resources[i])
  {
    var r := req.resources[i];
    BlanketExact(cfg, req, r);
    if TableOperation(req.op) {
      SlowPathTable(cfg, oracle, req, i);
    } else {
      SlowPathSchema(cfg, oracle, req, i);
    }
    if ResourceCatalog(r).Some? && Managed(cfg, ResourceCatalog(r).value) {
      ManagedFallback(cfg, req, r);
    } else {
      UnmanagedNeedsNoCheck(cfg, req.user, req.op, r);
    }
  }

  /** In a managed catalog, what is neither ordinary nor a system schema nor a metadata
      table is of the wrong kind for the operation, and nothing allows it. */
  lemma ManagedFallback(cfg: Config, req: Request, r: Resource)
    requires BatchOperation(req.op) && !Ordinary(cfg, req.op, r)
    requires ResourceCatalog(r).Some? && Managed(cfg, ResourceCatalog(r).value)
    ensures Allow(cfg, req.user, req.op, r) ==>
              SystemSchemaFallbackRule(cfg, req, r) || MetadataTableFallbackRule(cfg, req, r)
  {
  }

  // --- Batch against allow, for whole requests ---

  /** The simple form that the batch speeds up. */
  function OneAtATime(cfg: Config, req: Request): set<nat>
  {
    set i | 0 <= i < |req.resources| && Allow(cfg, req.user, req.op, req.resources[i])
  }

  predicate Listing(op: Operation)
  {
    op.FilterTables? || op.FilterColumns? || op.FilterSchemas?
  }

  /** A broad right without the resource's own right: the FGA model rules this out for
      resources that exist, since `list_everything` is `describe` and propagates down. */
  predicate BroadGap(cfg: Config, req: Request, r: Resource)
  {
    && Ordinary(cfg, req.op, r) && Broad(cfg, req.user, r.catalog, r.schema) && !OwnCheck(cfg, req, r)
    && !AllowDefaultAccess(cfg, req.user, req.op, r)
  }

  /** Default access to the system catalog, when that catalog is also configured as managed. */
  predicate SystemGap(cfg: Config, req: Request, r: Resource)
  {
    && Ordinary(cfg, req.op, r) && r.catalog == SYSTEM_CATALOG && AllowDefaultAccess(cfg, req.user, req.op, r)
    && !Broad(cfg, req.user, r.catalog, r.schema) && !OwnCheck(cfg, req, r)
  }

  lemma DefaultAccessIsSystem(cfg: Config, user: string, op: Operation, r: Resource)
    requires BatchOperation(op) && AllowDefaultAccess(cfg, user, op, r)
    ensures (r.Table? || r.Schema?) && r.catalog == SYSTEM_CATALOG
  {
  }

  lemma IndexExact(cfg: Config, oracle: Oracle, req: Request, i: nat)
    requires AnsweredInFull(cfg.lk, oracle) && i < |req.resources| && Listing(req.op)
    ensures var r := req.resources[i];
            (ResourceRules(cfg, req, i) <==> Allow(cfg, req.user, req.op, r)) <==>
              !BroadGap(cfg, req, r) && !SystemGap(cfg, req, r) && !AdminGap(cfg, req, r)
  {
    var r := req.resources[i];
    if Ordinary(cfg, req.op, r) {
      OrdinaryExact(cfg, oracle, req, i);
      OrdinaryAllow(cfg, req, r);
      if AllowDefaultAccess(cfg, req.user, req.op, r) {
        DefaultAccessIsSystem(cfg, req.user, req.op, r);
      }
    } else {
      FallbackExact(cfg, oracle, req, i);
      if AdminGap(cfg, req, r) {
        assert AllowAdminSystemSchemas(cfg, req.user, req.op, r);
      }
    }
  }

  /** For the listing operations the batch is the set of indices allowed one at a time,
      exactly when no resource falls into one of three gaps. */
  lemma BatchExact(cfg: Config, oracle: Oracle, req: Request)
    requires AnsweredInFull(cfg.lk, oracle) && Listing(req.op) && !SingleTableColumns(req)
    ensures Batch(cfg, req) == OneAtATime(cfg, req) <==>
              forall r | r in req.resources ::
                !BroadGap(cfg, req, r) && !SystemGap(cfg, req, r) && !AdminGap(cfg, req, r)
  {
    forall i | 0 <= i < |req.resources|
      ensures var r := req.resources[i];
              (i in Batch(cfg, req) <==> i in OneAtATime(cfg, req)) <==>
                !BroadGap(cfg, req, r) && !SystemGap(cfg, req, r) && !AdminGap(cfg, req, r)
    {
      IndexExact(cfg, oracle, req, i);
    }
    assert forall i | i in Batch(cfg, req) || i in OneAtATime(cfg, req) :: 0 <= i < |req.resources|;
    if forall r | r in req.resources :: !BroadGap(cfg, req, r) && !SystemGap(cfg, req, r) && !AdminGap(cfg, req, r) {
      assert Batch(cfg, req) == OneAtATime(cfg, req);
    } else {
      var r :| r in req.resources && (BroadGap(cfg, req, r) || SystemGap(cfg, req, r) || AdminGap(cfg, req, r));
      var i :| 0 <= i < |req.resources| && req.resources[i] == r;
      assert (i in Batch(cfg, req)) != (i in OneAtATime(cfg, req));
    }
  }

  /** The premises under which the policies are deployed. */
  ghost predicate Deployed(cfg: Config, req: Request)
  {
    && SYSTEM_CATALOG !in cfg.catalogs
    && (cfg.allowUnmanaged || !IsAdmin(cfg, req.user))
    && forall r | r in req.resources && Ordinary(cfg, req.op, r) ::
         Broad(cfg, req.user, r.catalog, r.schema) ==> OwnCheck(cfg, req, r)
  }

  lemma DeployedHasNoGap(cfg: Config, req: Request, r: Resource)
    requires Deployed(cfg, req) && r in req.resources
    ensures !BroadGap(cfg, req, r) && !SystemGap(cfg, req, r) && !AdminGap(cfg, req, r)
  {
  }

  /** Batching preserves meaning, on every list of resources and every oracle. */
  lemma BatchPreservesAllow(cfg: Config, oracle: Oracle, req: Request)
    requires AnsweredInFull(cfg.lk, oracle) && Deployed(cfg, req)
    requires Listing(req.op) && !SingleTableColumns(req)
    ensures Batch(cfg, req) == OneAtATime(cfg, req)
  {
    BatchExact(cfg, oracle, req);
    forall r | r in req.resources
      ensures !BroadGap(cfg, req, r) && !SystemGap(cfg, req, r) && !AdminGap(cfg, req, r)
    {
      DeployedHasNoGap(cfg, req, r);
    }
  }

  // --- FilterColumns on one table ---

  /** The decision on a table does not depend on the column that is asked about. */
  lemma AllowIgnoresColumn(cfg: Config, user: string, op: Operation, r: Resource, column: Option<string>)
    requires r.Table?
    ensures Allow(cfg, user, op, r.(column := column)) <==> Allow(cfg, user, op, r)
  {
  }

  lemma SingleTableExact(cfg: Config, oracle: Oracle, req: Request)
    requires AnsweredInFull(cfg.lk, oracle) && SingleTableColumns(req) && OrdinaryTable(cfg, req.resources[0])
    ensures SingleTableAllowed(cfg, req, req.resources[0]) <==> ResourceRules(cfg, req, 0)
  {
    var r := req.resources[0];
    OrdinaryExact(cfg, oracle, req, 0);
    CoveredExact(cfg, oracle, req, r);
    TableBatchExact(cfg, oracle, req, r.catalog, 0);
  }

  function Upto(n: nat): (r: set<nat>)
    ensures forall i: nat :: i in r <==> i < n
  {
    if n == 0 then {} else Upto(n - 1) + {n - 1}
  }

  function AllColumns(req: Request): set<nat>
    requires SingleTableColumns(req)
  {
    Upto(|req.resources[0].columns|)
  }

  /** On one table, FilterColumns answers with every column or with none, following the
      table's own decision, exactly when the table is in neither of two gaps. The gap for
      admins does not matter here, because this fallback runs `allow` itself. */
  lemma SingleTableColumnsExact(cfg: Config, oracle: Oracle, req: Request)
    requires AnsweredInFull(cfg.lk, oracle) && SingleTableColumns(req)
    ensures var r := req.resources[0];
            Batch(cfg, req) == (if Allow(cfg, req.user, req.op, r) then AllColumns(req) else {}) <==>
              !BroadGap(cfg, req, r) && !SystemGap(cfg, req, r)
  {
    var r := req.resources[0];
    var allowed := Allow(cfg, req.user, req.op, r);
    forall i | 0 <= i < |r.columns|
      ensures ColumnRules(cfg, req, i) <==>
                (if OrdinaryTable(cfg, r) then ResourceRules(cfg, req, 0) else allowed)
    {
      if OrdinaryTable(cfg, r) {
        SingleTableExact(cfg, oracle, req);
      } else {
        AllowIgnoresColumn(cfg, req.user, req.op, r, Some(r.columns[i]));
      }
    }
    IndexExact(cfg, oracle, req, 0);
    assert 0 in AllColumns(req);
    if OrdinaryTable(cfg, r) {
      assert Batch(cfg, req) == if ResourceRules(cfg, req, 0) then AllColumns(req) else {};
    } else {
      FallbackExact(cfg, oracle, req, 0);
      assert Batch(cfg, req) == if allowed then AllColumns(req) else {};
    }
  }

  // --- Reading data ---

  /** However broad the user's listing rights, SelectFromColumns answers an ordinary table
      through its own two `read_data` checks and nothing else. */
  lemma SelectNeedsReadData(cfg: Config, oracle: Oracle, req: Request, i: nat)
    requires AnsweredInFull(cfg.lk, oracle) && req.op.SelectFromColumns?
    requires i < |req.resources| && OrdinaryTable(cfg, req.resources[i])
    ensures var r := req.resources[i];
            i in Batch(cfg, req) <==>
              || RequireTable(cfg, req.user, r.catalog, r.schema, r.table, ReadData)
              || RequireView(cfg, req.user, r.catalog, r.schema, r.table, ReadData)
  {
    OrdinaryExact(cfg, oracle, req, i);
  }

  /** For views the batch asks `read_data` where `allow` asks `select`, and in a managed
      catalog named "system" `allow` also grants default access. */
  predicate SelectGap(cfg: Config, req: Request, r: Resource)
  {
    && OrdinaryTable(cfg, r) && !RequireTable(cfg, req.user, r.catalog, r.schema, r.table, ReadData)
    && RequireView(cfg, req.user, r.catalog, r.schema, r.table, ReadData)
       != (RequireView(cfg, req.user, r.catalog, r.schema, r.table, Select)
           || AllowDefaultAccess(cfg, req.user, req.op, r))
  }

  lemma SelectIndexExact(cfg: Config, oracle: Oracle, req: Request, i: nat)
    requires AnsweredInFull(cfg.lk, oracle) && req.op.SelectFromColumns? && i < |req.resources|
    ensures var r := req.resources[i];
            (i in Batch(cfg, req) <==> i in OneAtATime(cfg, req)) <==> !SelectGap(cfg, req, r) && !AdminGap(cfg, req, r)
  {
    var r := req.resources[i];
    if OrdinaryTable(cfg, r) {
      OrdinaryExact(cfg, oracle, req, i);
      SelectOrdinaryAllow(cfg, req, r);
    } else {
      FallbackExact(cfg, oracle, req, i);
      if AdminGap(cfg, req, r) {
        assert AllowAdminSystemSchemas(cfg, req.user, req.op, r);
      }
    }
  }

  /** So the two agree on reading data exactly when no resource falls into this gap or into
      the admin gap, for every configuration. */
  lemma SelectExact(cfg: Config, oracle: Oracle, req: Request)
    requires AnsweredInFull(cfg.lk, oracle) && req.op.SelectFromColumns?
    ensures Batch(cfg, req) == OneAtATime(cfg, req) <==>
              forall r | r in req.resources :: !SelectGap(cfg, req, r) && !AdminGap(cfg, req, r)
  {
    forall i | 0 <= i < |req.resources|
      ensures var r := req.resources[i];
              (i in Batch(cfg, req) <==> i in OneAtATime(cfg, req)) <==>
                !SelectGap(cfg, req, r) && !AdminGap(cfg, req, r)
    {
      SelectIndexExact(cfg, oracle, req, i);
    }
    assert forall i | i in Batch(cfg, req) || i in OneAtATime(cfg, req) :: 0 <= i < |req.resources|;
    if forall r | r in req.resources :: !SelectGap(cfg, req, r) && !AdminGap(cfg, req, r) {
      assert Batch(cfg, req) == OneAtATime(cfg, req);
    } else {
      var r :| r in req.resources && (SelectGap(cfg, req, r) || AdminGap(cfg, req, r));
      var i :| 0 <= i < |req.resources| && req.resources[i] == r;
      assert (i in Batch(cfg, req)) != (i in OneAtATime(cfg, req));
    }
  }

  lemma SelectOrdinaryAllow(cfg: Config, req: Request, r: Resource)
    requires OrdinaryTable(cfg, r) && req.op.SelectFromColumns?
    ensures Allow(cfg, req.user, req.op, r) <==>
              || RequireTable(cfg, req.user, r.catalog, r.schema, r.table, ReadData)
              || RequireView(cfg, req.user, r.catalog, r.schema, r.table, Select)
              || AllowDefaultAccess(cfg, req.user, req.op, r)
  {
  }

  /** The operations without a dedicated batch are evaluated one at a time. */
  lemma OtherOperationsOneAtATime(cfg: Config, req: Request)
    requires !BatchOperation(req.op)
    ensures Batch(cfg, req) == OneAtATime(cfg, req)
  {
    forall i | 0 <= i < |req.resources|
      ensures !SlowPathRule(cfg, req, i)
    {
    }
  }
}
