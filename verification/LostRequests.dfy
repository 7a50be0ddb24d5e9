/** Requests that go unanswered: when the batch results stay aligned with the checks, when a
    loss only hides, and a loss that shows one table on another's right. */
module LostRequests {
  import opened Strings
  import opened Wrappers
  import opened TrinoNames
  import opened Lakekeeper
  import opened TrinoPolicy
  import opened TrinoBatch
  import opened BatchTheorems

  // --- One list of checks ---

  /** Each request is answered in full, or not at all. */
  ghost predicate OrLost(lk: Service, oracle: Oracle, id: string, chunks: seq<seq<Check>>)
  {
    forall c | c in chunks :: Send(lk, id, c) == None || Send(lk, id, c) == Some(Answers(oracle, id, c))
  }

  ghost predicate NoneLost(lk: Service, id: string, chunks: seq<seq<Check>>)
  {
    forall c | c in chunks :: Send(lk, id, c).Some?
  }

  lemma {:induction false} CollectLost(lk: Service, oracle: Oracle, id: string, chunks: seq<seq<Check>>)
    requires OrLost(lk, oracle, id, chunks) && forall c | c in chunks :: c != []
    ensures |CollectResults(lk, id, chunks)| <= |Flatten(chunks)|
    ensures NoneLost(lk, id, chunks) ==> CollectResults(lk, id, chunks) == Answers(oracle, id, Flatten(chunks))
    ensures !NoneLost(lk, id, chunks) ==> |CollectResults(lk, id, chunks)| < |Flatten(chunks)|
  {
    if chunks != [] {
      var first, rest := chunks[0], chunks[1..];
      assert first in chunks && forall c :: c in chunks <==> c == first || c in rest;
      CollectLost(lk, oracle, id, rest);
      assert Answers(oracle, id, first + Flatten(rest)) ==
        Answers(oracle, id, first) + Answers(oracle, id, Flatten(rest));
    }
  }

  /** Result i answers check i exactly when no request of the list went unanswered. */
  lemma AlignedIff(lk: Service, oracle: Oracle, id: string, checks: seq<Check>)
    requires checks != [] && id in lk.maxBatch && OrLost(lk, oracle, id, Chunks(checks, Limit(lk.maxBatch[id])))
    ensures BatchCheckResults(lk, id, checks) == Some(Answers(oracle, id, checks)) <==>
              NoneLost(lk, id, Chunks(checks, Limit(lk.maxBatch[id])))
  {
    var chunks := Chunks(checks, Limit(lk.maxBatch[id]));
    ChunksPartition(checks, Limit(lk.maxBatch[id]));
    CollectLost(lk, oracle, id, chunks);
  }

  // --- Exactly when losses only hide ---

  /** The comprehension over chunks, by which of them are lost and what is decided. */
  function Collected(lost: seq<Check> -> bool, decide: Check -> bool, chunks: seq<seq<Check>>): seq<bool>
  {
    if chunks == [] then []
    else (if lost(chunks[0]) then [] else Decided(decide, chunks[0])) + Collected(lost, decide, chunks[1..])
  }

  function Decided(decide: Check -> bool, checks: seq<Check>): (r: seq<bool>)
    ensures |r| == |checks|
  {
    seq(|checks|, i requires 0 <= i < |checks| => decide(checks[i]))
  }

  /** Whatever is decided, no result is true where the check at its position is denied. */
  ghost predicate FailsClosed(lost: seq<Check> -> bool, chunks: seq<seq<Check>>)
  {
    forall decide: Check -> bool, j: nat | j < |Collected(lost, decide, chunks)|
      && Collected(lost, decide, chunks)[j] ::
      j < |Flatten(chunks)| && decide(Flatten(chunks)[j])
  }

  /** No answered chunk follows a lost one. */
  predicate LostAtEnd(lost: seq<Check> -> bool, chunks: seq<seq<Check>>)
  {
    forall i, j | 0 <= i < j < |chunks| && !lost(chunks[j]) :: !lost(chunks[i])
  }

  lemma {:induction false} AllLost(lost: seq<Check> -> bool, decide: Check -> bool, chunks: seq<seq<Check>>)
    requires forall c | c in chunks :: lost(c)
    ensures Collected(lost, decide, chunks) == []
  {
    if chunks != [] {
      assert chunks[0] in chunks;
      AllLost(lost, decide, chunks[1..]);
    }
  }

  lemma {:induction false} EndLossPrefix(lost: seq<Check> -> bool, decide: Check -> bool, chunks: seq<seq<Check>>)
    requires LostAtEnd(lost, chunks)
    ensures Collected(lost, decide, chunks) <= Decided(decide, Flatten(chunks))
  {
    if chunks != [] {
      var first, rest := chunks[0], chunks[1..];
      assert forall k | 0 <= k < |rest| :: rest[k] == chunks[k + 1];
      if lost(first) {
        forall c | c in rest ensures lost(c) {
          var k :| 0 <= k < |rest| && rest[k] == c;
          assert chunks[k + 1] == c;
        }
        AllLost(lost, decide, rest);
      } else {
        EndLossPrefix(lost, decide, rest);
        assert Decided(decide, first + Flatten(rest)) == Decided(decide, first) + Decided(decide, Flatten(rest));
      }
    }
  }

  /** The first check of the first chunk that is not lost. */
  function FirstAnswered(lost: seq<Check> -> bool, chunks: seq<seq<Check>>): (c: Check)
    requires (exists k | k in chunks :: !lost(k)) && forall k | k in chunks :: k != []
    ensures c in Flatten(chunks)
  {
    assert chunks[0] in chunks && forall k :: k in chunks <==> k == chunks[0] || k in chunks[1..];
    if lost(chunks[0]) then FirstAnswered(lost, chunks[1..]) else chunks[0][0]
  }

  lemma {:induction false} FirstResult(lost: seq<Check> -> bool, decide: Check -> bool, chunks: seq<seq<Check>>)
    requires (exists k | k in chunks :: !lost(k)) && forall k | k in chunks :: k != []
    ensures Collected(lost, decide, chunks) != []
    ensures Collected(lost, decide, chunks)[0] == decide(FirstAnswered(lost, chunks))
  {
    assert chunks[0] in chunks && forall k :: k in chunks <==> k == chunks[0] || k in chunks[1..];
    if lost(chunks[0]) {
      FirstResult(lost, decide, chunks[1..]);
    }
  }

  /** When the first chunk is lost and another is not, the first result is not its check. */
  lemma LostFirst(first: seq<Check>, rest: seq<seq<Check>>, c: Check)
    requires first != [] && NoRepeats(first + Flatten(rest)) && c in Flatten(rest)
    ensures (first + Flatten(rest))[0] != c
  {
    var n :| 0 <= n < |Flatten(rest)| && Flatten(rest)[n] == c;
    assert (first + Flatten(rest))[|first| + n] == c;
  }

  /** A loss before an answer: some decision shows a check that it denies. */
  lemma {:induction false} LossShows(lost: seq<Check> -> bool, chunks: seq<seq<Check>>)
    returns (decide: Check -> bool, j: nat)
    requires !LostAtEnd(lost, chunks) && NoRepeats(Flatten(chunks)) && forall c | c in chunks :: c != []
    ensures j < |Collected(lost, decide, chunks)| && Collected(lost, decide, chunks)[j]
    ensures j < |Flatten(chunks)| && !decide(Flatten(chunks)[j])
  {
    var first, rest := chunks[0], chunks[1..];
    assert first in chunks && forall c | c in rest :: c in chunks;
    if lost(first) {
      SomeAnswered(lost, chunks);
      var c := FirstAnswered(lost, rest);
      decide, j := x => x == c, 0;
      FirstResult(lost, decide, rest);
      LostFirst(first, rest, c);
    } else {
      RestLost(lost, chunks);
      var k;
      decide, k := LossShows(lost, rest);
      j := k + |first|;
      assert Flatten(chunks)[j] == Flatten(rest)[k];
    }
  }

  lemma SomeAnswered(lost: seq<Check> -> bool, chunks: seq<seq<Check>>)
    requires !LostAtEnd(lost, chunks)
    ensures exists k | k in chunks[1..] :: !lost(k)
  {
    var i, k :| 0 <= i < k < |chunks| && !lost(chunks[k]) && lost(chunks[i]);
    assert chunks[1..][k - 1] == chunks[k];
  }

  lemma RestLost(lost: seq<Check> -> bool, chunks: seq<seq<Check>>)
    requires !LostAtEnd(lost, chunks) && NoRepeats(Flatten(chunks)) && !lost(chunks[0])
    ensures !LostAtEnd(lost, chunks[1..]) && NoRepeats(Flatten(chunks[1..]))
  {
    var i, k :| 0 <= i < k < |chunks| && !lost(chunks[k]) && lost(chunks[i]);
    assert chunks[1..][i - 1] == chunks[i] && chunks[1..][k - 1] == chunks[k];
    var all, rest := Flatten(chunks), Flatten(chunks[1..]);
    assert forall n | 0 <= n < |rest| :: rest[n] == all[|chunks[0]| + n];
  }

  /** Losses only hide, whatever is decided, exactly when they come last. */
  lemma FailClosedIff(lost: seq<Check> -> bool, chunks: seq<seq<Check>>)
    requires NoRepeats(Flatten(chunks)) && forall c | c in chunks :: c != []
    ensures FailsClosed(lost, chunks) <==> LostAtEnd(lost, chunks)
  {
    if LostAtEnd(lost, chunks) {
      forall decide: Check -> bool, j: nat | j < |Collected(lost, decide, chunks)| && Collected(lost, decide, chunks)[j]
        ensures j < |Flatten(chunks)| && decide(Flatten(chunks)[j])
      {
        EndLossPrefix(lost, decide, chunks);
        assert Collected(lost, decide, chunks)[j] == Decided(decide, Flatten(chunks))[j];
      }
    } else {
      var decide, j := LossShows(lost, chunks);
    }
  }

  function LostBy(lk: Service, id: string): seq<Check> -> bool
  {
    c => Send(lk, id, c).None?
  }

  function DecidedBy(oracle: Oracle, id: string): Check -> bool
  {
    c => oracle(id, c)
  }

  /** What the policies collect from a LakeKeeper that loses requests. */
  lemma {:induction false} CollectedBy(lk: Service, oracle: Oracle, id: string, chunks: seq<seq<Check>>)
    requires OrLost(lk, oracle, id, chunks)
    ensures CollectResults(lk, id, chunks) == Collected(LostBy(lk, id), DecidedBy(oracle, id), chunks)
  {
    if chunks != [] {
      assert chunks[0] in chunks;
      CollectedBy(lk, oracle, id, chunks[1..]);
      assert Answers(oracle, id, chunks[0]) == Decided(DecidedBy(oracle, id), chunks[0]);
    }
  }

  /** The list's requests are answered in full up to the first one that is not at all. */
  ghost predicate Orderly(lk: Service, oracle: Oracle, id: string, checks: seq<Check>)
  {
    checks != [] && id in lk.maxBatch ==>
      var chunks := Chunks(checks, Limit(lk.maxBatch[id]));
      OrLost(lk, oracle, id, chunks) && LostAtEnd(LostBy(lk, id), chunks)
  }

  /** Then the results are a prefix of the answers: what holds at position j is check j. */
  lemma OrderlySound(lk: Service, oracle: Oracle, id: string, checks: seq<Check>, j: nat)
    requires Orderly(lk, oracle, id, checks) && Holds(BatchCheckResults(lk, id, checks), j)
    ensures j < |checks| && oracle(id, checks[j])
  {
    var chunks := Chunks(checks, Limit(lk.maxBatch[id]));
    ChunksPartition(checks, Limit(lk.maxBatch[id]));
    CollectedBy(lk, oracle, id, chunks);
    EndLossPrefix(LostBy(lk, id), DecidedBy(oracle, id), chunks);
    assert CollectResults(lk, id, chunks)[j] == Decided(DecidedBy(oracle, id), checks)[j];
  }

  // --- The batch ---

  /** The lists that a batch sends for one catalog are all orderly. */
  ghost predicate OrderlyCatalog(cfg: Config, oracle: Oracle, req: Request, catalog: string)
  {
    catalog in cfg.catalogs && WarehouseOf(cfg, catalog).Some? ==>
      var w, id := WarehouseOf(cfg, catalog).value, cfg.catalogs[catalog].lakekeeperId;
      && Orderly(cfg.lk, oracle, id, [WarehouseCheck(w, LakekeeperUser(req.user), ListEverything)])
      && Orderly(cfg.lk, oracle, id, NamespaceChecks(w, req.user, SortSet(DistinctSchemas(req, catalog))))
      && OrderlySlowPath(cfg, oracle, req, catalog, w, id)
  }

  ghost predicate OrderlySlowPath(cfg: Config, oracle: Oracle, req: Request, catalog: string, w: string, id: string)
  {
    var indices := CatalogIndices(cfg, req, catalog, 0);
    CatalogIndicesSlow(cfg, req, catalog, 0);
    && (TableOperation(req.op) ==> Orderly(cfg.lk, oracle, id, PairChecks(w, req, indices)))
    && (req.op.FilterSchemas? ==> Orderly(cfg.lk, oracle, id, SchemaChecks(w, req, indices)))
  }

  /** What LakeKeeper itself decides on a resource of a managed catalog. */
  predicate OwnRight(cfg: Config, oracle: Oracle, req: Request, r: Resource)
    requires (r.Table? || r.Schema?) && Managed(cfg, r.catalog)
  {
    && WarehouseOf(cfg, r.catalog).Some?
    && var w, id := WarehouseOf(cfg, r.catalog).value, cfg.catalogs[r.catalog].lakekeeperId;
    && var ns, user := NamespaceForSchema(r.schema), LakekeeperUser(req.user);
    && if r.Table? then
         || oracle(id, TableCheck(w, ns, r.table, user, BatchAction(req.op)))
         || oracle(id, ViewCheck(w, ns, r.table, user, BatchAction(req.op)))
       else oracle(id, NamespaceCheck(w, ns, user, GetMetadata))
  }

  predicate BroadRight(cfg: Config, oracle: Oracle, req: Request, r: Resource)
    requires (r.Table? || r.Schema?) && Managed(cfg, r.catalog)
  {
    && WarehouseOf(cfg, r.catalog).Some?
    && var w, id := WarehouseOf(cfg, r.catalog).value, cfg.catalogs[r.catalog].lakekeeperId;
    || oracle(id, WarehouseCheck(w, LakekeeperUser(req.user), ListEverything))
    || oracle(id, NamespaceCheck(w, NamespaceForSchema(r.schema), LakekeeperUser(req.user), ListEverything))
  }

  lemma TableLoss(cfg: Config, oracle: Oracle, req: Request, catalog: string, i: nat)
    requires OrderlyCatalog(cfg, oracle, req, catalog) && i in TableBatchAllowed(cfg, req, catalog)
    ensures i < |req.resources| && SlowTable(cfg, req, req.resources[i]) && req.resources[i].catalog == catalog
    ensures OwnRight(cfg, oracle, req, req.resources[i])
  {
    var w, id := WarehouseOf(cfg, catalog).value, cfg.catalogs[catalog].lakekeeperId;
    var indices := CatalogIndices(cfg, req, catalog, 0);
    CatalogIndicesSlow(cfg, req, catalog, 0);
    var checks := PairChecks(w, req, indices);
    var results := BatchCheckResults(cfg.lk, id, checks);
    var k := PairAllowedSound(indices, results, i);
    PairAt(w, req, indices, k);
    if Holds(results, 2 * k) {
      OrderlySound(cfg.lk, oracle, id, checks, 2 * k);
    } else {
      OrderlySound(cfg.lk, oracle, id, checks, 2 * k + 1);
    }
  }

  lemma SchemaLoss(cfg: Config, oracle: Oracle, req: Request, catalog: string, i: nat)
    requires OrderlyCatalog(cfg, oracle, req, catalog) && i in SchemaBatchAllowed(cfg, req, catalog)
    ensures i < |req.resources| && SlowSchema(cfg, req, req.resources[i]) && req.resources[i].catalog == catalog
    ensures OwnRight(cfg, oracle, req, req.resources[i])
  {
    var w, id := WarehouseOf(cfg, catalog).value, cfg.catalogs[catalog].lakekeeperId;
    var indices := CatalogIndices(cfg, req, catalog, 0);
    CatalogIndicesSlow(cfg, req, catalog, 0);
    var checks := SchemaChecks(w, req, indices);
    var j :| 0 <= j < |indices| && Holds(BatchCheckResults(cfg.lk, id, checks), j) && indices[j] == i;
    assert indices[j] in indices;
    OrderlySound(cfg.lk, oracle, id, checks, j);
  }

  lemma CoveredLoss(cfg: Config, oracle: Oracle, req: Request, r: Resource)
    requires (r.Table? || r.Schema?) && Managed(cfg, r.catalog) && OrderlyCatalog(cfg, oracle, req, r.catalog)
    requires Covered(cfg, req, r.catalog, r.schema)
    ensures BroadRight(cfg, oracle, req, r)
  {
    var w, id := WarehouseOf(cfg, r.catalog).value, cfg.catalogs[r.catalog].lakekeeperId;
    if WarehouseBroad(cfg, req.user, r.catalog) {
      OrderlySound(cfg.lk, oracle, id, [WarehouseCheck(w, LakekeeperUser(req.user), ListEverything)], 0);
    } else {
      var names := SortSet(DistinctSchemas(req, r.catalog));
      var checks := NamespaceChecks(w, req.user, names);
      var j :| 0 <= j < |names| && Holds(BatchCheckResults(cfg.lk, id, checks), j) && names[j] == r.schema;
      OrderlySound(cfg.lk, oracle, id, checks, j);
    }
  }

  /** When requests are lost only at the end of each list, the batch fails closed: every
      ordinary resource that it shows, LakeKeeper allows, by the resource's own check or, for
      listing, by a broad one. */
  lemma LossesFailClosed(cfg: Config, oracle: Oracle, req: Request, i: nat)
    requires (forall catalog | catalog in cfg.catalogs :: OrderlyCatalog(cfg, oracle, req, catalog))
    requires i < |req.resources| && Ordinary(cfg, req.op, req.resources[i]) && ResourceRules(cfg, req, i)
    ensures var r := req.resources[i];
            OwnRight(cfg, oracle, req, r) || (!req.op.SelectFromColumns? && BroadRight(cfg, oracle, req, r))
  {
    var r := req.resources[i];
    BlanketExact(cfg, req, r);
    if SlowPathRule(cfg, req, i) {
      var catalog :| catalog in cfg.catalogs
        && (i in TableBatchAllowed(cfg, req, catalog) || i in SchemaBatchAllowed(cfg, req, catalog));
      if i in TableBatchAllowed(cfg, req, catalog) {
        TableLoss(cfg, oracle, req, catalog, i);
      } else {
        SchemaLoss(cfg, oracle, req, catalog, i);
      }
    } else {
      CoveredLoss(cfg, oracle, req, r);
    }
  }

  /** The same for FilterColumns on one table, whose answer lists all columns or none. */
  lemma ColumnLossesFailClosed(cfg: Config, oracle: Oracle, req: Request, i: nat)
    requires (forall catalog | catalog in cfg.catalogs :: OrderlyCatalog(cfg, oracle, req, catalog))
    requires SingleTableColumns(req) && OrdinaryTable(cfg, req.resources[0]) && i in Batch(cfg, req)
    ensures OwnRight(cfg, oracle, req, req.resources[0]) || BroadRight(cfg, oracle, req, req.resources[0])
  {
    if i < |req.resources| && ResourceRules(cfg, req, i) {
      LossesFailClosed(cfg, oracle, req, i);
    } else {
      ColumnRuleLoss(cfg, oracle, req, i);
    }
  }

  lemma ColumnRuleLoss(cfg: Config, oracle: Oracle, req: Request, i: nat)
    requires (forall catalog | catalog in cfg.catalogs :: OrderlyCatalog(cfg, oracle, req, catalog))
    requires SingleTableColumns(req) && OrdinaryTable(cfg, req.resources[0])
    requires i < |req.resources[0].columns| && ColumnRules(cfg, req, i)
    ensures OwnRight(cfg, oracle, req, req.resources[0]) || BroadRight(cfg, oracle, req, req.resources[0])
  {
    var r := req.resources[0];
    if Covered(cfg, req, r.catalog, r.schema) {
      CoveredLoss(cfg, oracle, req, r);
    } else {
      TableLoss(cfg, oracle, req, r.catalog, 0);
    }
  }

  // --- A loss that is followed by an answer ---

  predicate About(c: Check, table: string)
  {
    (c.TableCheck? || c.ViewCheck?) && c.table == table
  }

  predicate Mentions(checks: seq<Check>, table: string)
  {
    exists c | c in checks :: About(c, table)
  }

  /** Only the table itself, under whatever action. */
  function OnlyTable(table: string): Oracle
  {
    (_: string, c: Check) => c.TableCheck? && c.table == table
  }

  /** A LakeKeeper of batch size two that loses every request about one table and allows
      nothing but another one. */
  function Losing(id: string, warehouse: string, lost: string, shown: string): Service
  {
    Service(map[id := Some(2)], (_, _) => Some(warehouse),
            (i, checks) => if Mentions(checks, lost) then None else Some(Answers(OnlyTable(shown), i, checks)))
  }

  function LosingConfig(catalog: string, id: string, warehouse: string, lost: string, shown: string): Config
  {
    Config(Losing(id, warehouse, lost, shown), map[catalog := CatalogConfig(id, warehouse)], true, {})
  }

  /** What is known of such a configuration. */
  ghost predicate Loses(cfg: Config, catalog: string, id: string, w: string, lost: string, shown: string)
  {
    && cfg.catalogs.Keys == {catalog} && cfg.catalogs[catalog].lakekeeperId == id
      && WarehouseOf(cfg, catalog) == Some(w)
    && cfg.admins == {} && id in cfg.lk.maxBatch && Limit(cfg.lk.maxBatch[id]) == 2
    && forall checks: seq<Check> ::
         Send(cfg.lk, id, checks) == if Mentions(checks, lost) then None
           else Some(Answers(OnlyTable(shown), id, checks))
  }

  lemma LosingLoses(catalog: string, id: string, warehouse: string, lost: string, shown: string)
    ensures Loses(LosingConfig(catalog, id, warehouse, lost, shown), catalog, id, warehouse, lost, shown)
  {
  }

  lemma {:induction false} FlattenHolds(chunks: seq<seq<Check>>, c: seq<Check>, x: Check)
    requires c in chunks && x in c
    ensures x in Flatten(chunks)
  {
    if c != chunks[0] {
      FlattenHolds(chunks[1..], c, x);
    }
  }

  /** Lists that do not mention the table are answered. */
  lemma Unmentioned(cfg: Config, catalog: string, id: string, w: string, lost: string, shown: string,
                    checks: seq<Check>)
    requires Loses(cfg, catalog, id, w, lost, shown) && checks != [] && !Mentions(checks, lost)
    ensures BatchCheckResults(cfg.lk, id, checks) == Some(Answers(OnlyTable(shown), id, checks))
  {
    var chunks := Chunks(checks, 2);
    ChunksPartition(checks, 2);
    forall c | c in chunks ensures !Mentions(c, lost) {
      forall x | x in c ensures !About(x, lost) { FlattenHolds(chunks, c, x); }
    }
    AlignedIff(cfg.lk, OnlyTable(shown), id, checks);
  }

  lemma NothingBroad(cfg: Config, catalog: string, id: string, w: string, lost: string, shown: string, req: Request,
                     schema: string)
    requires Loses(cfg, catalog, id, w, lost, shown)
    ensures !Covered(cfg, req, catalog, schema)
  {
    var first := [WarehouseCheck(w, LakekeeperUser(req.user), ListEverything)];
    Unmentioned(cfg, catalog, id, w, lost, shown, first);
    var names := SortSet(DistinctSchemas(req, catalog));
    var checks := NamespaceChecks(w, req.user, names);
    if checks != [] {
      Unmentioned(cfg, catalog, id, w, lost, shown, checks);
    }
  }

  /** The four checks of two tables, cut in two: the answers to the second pair stand first. */
  lemma PairShifts(cfg: Config, catalog: string, id: string, w: string, lost: string, shown: string, t0: Check,
                   v0: Check, t1: Check, v1: Check)
    requires Loses(cfg, catalog, id, w, lost, shown) && lost != shown
    requires t0.TableCheck? && About(t0, lost) && v0.ViewCheck? && About(v0, lost)
    requires t1.TableCheck? && About(t1, shown) && v1.ViewCheck? && About(v1, shown)
    ensures BatchCheckResults(cfg.lk, id, [t0, v0, t1, v1]) == Some([true, false])
  {
    var checks := [t0, v0, t1, v1];
    var chunks: seq<seq<Check>> := Chunks(checks, 2);
    assert CeilDiv(4, 2) == 2;
    assert chunks[0] == [t0, v0] && chunks[1] == [t1, v1];
    var rest := chunks[1..];
    assert t0 in chunks[0] && Mentions(chunks[0], lost) && !Mentions(chunks[1], lost);
    assert rest[0] == chunks[1] && rest[1..] == [];
    assert Answers(OnlyTable(shown), id, chunks[1]) == [true, false];
    assert CollectResults(cfg.lk, id, rest) == [true, false];
  }

  /** A listing of two ordinary tables of one catalog. */
  predicate TwoTables(req: Request, catalog: string, s0: string, lost: string, s1: string, shown: string)
  {
    && req.op.FilterTables? && |req.resources| == 2
    && req.resources[0] == Table(catalog, s0, lost, [], None) && req.resources[1] == Table(catalog, s1, shown, [], None)
    && !IsSystemSchema(s0) && !IsMetadataTable(lost) && !IsSystemSchema(s1) && !IsMetadataTable(shown)
  }

  lemma BothSlow(cfg: Config, req: Request, catalog: string, s0: string, lost: string, s1: string, shown: string,
                 id: string, w: string)
    requires Loses(cfg, catalog, id, w, lost, shown) && TwoTables(req, catalog, s0, lost, s1, shown)
    ensures CatalogIndices(cfg, req, catalog, 0) == [0, 1]
  {
    NothingBroad(cfg, catalog, id, w, lost, shown, req, s0);
    NothingBroad(cfg, catalog, id, w, lost, shown, req, s1);
    assert SlowIn(cfg, req, catalog, req.resources[0]) && SlowIn(cfg, req, catalog, req.resources[1]);
    assert CatalogIndices(cfg, req, catalog, 2) == [];
    assert CatalogIndices(cfg, req, catalog, 1) == [1];
  }

  lemma PairList(w: string, req: Request, catalog: string, s0: string, lost: string, s1: string, shown: string)
    returns (t0: Check, v0: Check, t1: Check, v1: Check)
    requires TwoTables(req, catalog, s0, lost, s1, shown)
    ensures PairChecks(w, req, [0, 1]) == [t0, v0, t1, v1]
    ensures t0.TableCheck? && About(t0, lost) && v0.ViewCheck? && About(v0, lost)
    ensures t1.TableCheck? && About(t1, shown) && v1.ViewCheck? && About(v1, shown)
  {
    PairAt(w, req, [0, 1], 0);
    PairAt(w, req, [0, 1], 1);
    var checks := PairChecks(w, req, [0, 1]);
    t0, v0, t1, v1 := checks[0], checks[1], checks[2], checks[3];
  }

  lemma FirstShown(cfg: Config, req: Request, catalog: string, s0: string, lost: string, s1: string, shown: string,
                   id: string, w: string)
    requires Loses(cfg, catalog, id, w, lost, shown) && TwoTables(req, catalog, s0, lost, s1, shown) && lost != shown
    ensures TableBatchAllowed(cfg, req, catalog) == {0}
  {
    BothSlow(cfg, req, catalog, s0, lost, s1, shown, id, w);
    var t0, v0, t1, v1 := PairList(w, req, catalog, s0, lost, s1, shown);
    PairShifts(cfg, catalog, id, w, lost, shown, t0, v0, t1, v1);
    ShiftedPair([0, 1], Some([true, false]));
  }

  lemma ShiftedPair(indices: seq<nat>, results: Option<seq<bool>>)
    requires indices == [0, 1] && results == Some([true, false])
    ensures PairAllowed(OrderedIndices(indices), results) == {0}
  {
    OrderedAt(indices, 0);
    PairAllowedComplete(indices, results, 0);
    forall i | i in PairAllowed(OrderedIndices(indices), results) ensures i == 0 {
      var k := PairAllowedSound(indices, results, i);
    }
  }

  /** An ordinary table without a broad right is decided on the slow path alone. */
  lemma SlowPathDecides(cfg: Config, req: Request, i: nat)
    requires i < |req.resources| && req.op.FilterTables? && OrdinaryTable(cfg, req.resources[i])
    requires !Covered(cfg, req, req.resources[i].catalog, req.resources[i].schema)
    ensures i in Batch(cfg, req) <==> SlowPathRule(cfg, req, i)
  {
    BlanketExact(cfg, req, req.resources[i]);
  }

  lemma OnlyCatalog(cfg: Config, req: Request, catalog: string, i: nat)
    requires cfg.catalogs.Keys == {catalog} && req.op.FilterTables?
    ensures SlowPathRule(cfg, req, i) <==> i in TableBatchAllowed(cfg, req, catalog)
  {
    assert catalog in cfg.catalogs;
  }

  lemma Rights(cfg: Config, req: Request, catalog: string, s0: string, lost: string, s1: string, shown: string,
               id: string, w: string)
    requires Loses(cfg, catalog, id, w, lost, shown) && TwoTables(req, catalog, s0, lost, s1, shown) && lost != shown
    ensures !OwnRight(cfg, OnlyTable(shown), req, req.resources[0])
    ensures OwnRight(cfg, OnlyTable(shown), req, req.resources[1])
  {
  }

  /** The first of two requests lost: a listing shows the table that LakeKeeper denies and
      hides the one that it allows. */
  lemma LossSwapsTables(cfg: Config, req: Request, catalog: string, s0: string, lost: string, s1: string,
                        shown: string, id: string, w: string)
    requires Loses(cfg, catalog, id, w, lost, shown) && TwoTables(req, catalog, s0, lost, s1, shown) && lost != shown
    ensures 0 in Batch(cfg, req) && !OwnRight(cfg, OnlyTable(shown), req, req.resources[0])
    ensures 1 !in Batch(cfg, req) && OwnRight(cfg, OnlyTable(shown), req, req.resources[1])
  {
    BatchSwaps(cfg, req, catalog, s0, lost, s1, shown, id, w);
    Rights(cfg, req, catalog, s0, lost, s1, shown, id, w);
  }

  lemma BatchSwaps(cfg: Config, req: Request, catalog: string, s0: string, lost: string, s1: string, shown: string,
                   id: string, w: string)
    requires Loses(cfg, catalog, id, w, lost, shown) && TwoTables(req, catalog, s0, lost, s1, shown) && lost != shown
    ensures 0 in Batch(cfg, req) && 1 !in Batch(cfg, req)
  {
    SlowTables(cfg, req, catalog, s0, lost, s1, shown, id, w);
    FirstShown(cfg, req, catalog, s0, lost, s1, shown, id, w);
    SwapsAt(cfg, req, catalog, 0);
    SwapsAt(cfg, req, catalog, 1);
  }

  /** An ordinary table of the catalog without a broad right. */
  ghost predicate Uncovered(cfg: Config, req: Request, catalog: string, i: nat)
  {
    && i < |req.resources| && OrdinaryTable(cfg, req.resources[i]) && req.resources[i].catalog == catalog
    && !Covered(cfg, req, catalog, req.resources[i].schema)
  }

  lemma SlowTables(cfg: Config, req: Request, catalog: string, s0: string, lost: string, s1: string, shown: string,
                   id: string, w: string)
    requires Loses(cfg, catalog, id, w, lost, shown) && TwoTables(req, catalog, s0, lost, s1, shown)
    ensures Uncovered(cfg, req, catalog, 0) && Uncovered(cfg, req, catalog, 1)
    ensures cfg.catalogs.Keys == {catalog} && req.op.FilterTables?
  {
    NothingBroad(cfg, catalog, id, w, lost, shown, req, s0);
    NothingBroad(cfg, catalog, id, w, lost, shown, req, s1);
  }

  lemma SwapsAt(cfg: Config, req: Request, catalog: string, i: nat)
    requires cfg.catalogs.Keys == {catalog} && req.op.FilterTables? && Uncovered(cfg, req, catalog, i)
    ensures i in Batch(cfg, req) <==> i in TableBatchAllowed(cfg, req, catalog)
  {
    SlowPathDecides(cfg, req, i);
    OnlyCatalog(cfg, req, catalog, i);
  }
}
