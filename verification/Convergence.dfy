/** Bounded convergence: when every created workload becomes ready and the bucket job is
    completed between passes, the platform is Ready by the fourth pass. */
module Convergence {
  import opened Cluster
  import opened Reconcile
  import opened Frames
  import opened ReadyTheorems
  import opened SecretTheorems

  // --- What a pass without error leaves behind ---

  /** The bucket job after a pass: once MinIO is up, a missing one is created, a hopeless one is
      given up, and any other is kept as it is. */
  ghost predicate JobsMoved(w: World, w': World, spec: Spec)
  {
    spec.storage.EmbeddedMinio? ==>
      var ns := spec.storage.ns;
      && (!Up(w, Workload(ns, Minio)) ==> w'.objects.jobs == w.objects.jobs)
      && (Up(w, Workload(ns, Minio)) ==>
            && ns in w'.objects.jobs
            && (if ns in w.objects.jobs then JobStep(w.objects.jobs[ns], w'.objects.jobs[ns])
                else Fresh(w'.objects.jobs[ns])))
  }

  lemma StorageJobs(w: World, spec: Spec, p: Pass)
    requires ReconcileStorage(w, spec, p).Ok?
    ensures JobsMoved(w, ReconcileStorage(w, spec, p).w, spec)
  {
    if spec.storage.EmbeddedMinio? {
      var r1 := Act(w, p, EnsureNamespace(spec.ns));
      ActFrame(w, p, EnsureNamespace(spec.ns));
      var r2 := ReconcilePostgres(r1.w, spec, p);
      PostgresResult(r1.w, spec, p);
      MinioJob(r2.w, spec.storage.ns, p);
    }
  }

  /** The workloads that a pass has applied, given what was up when it began. */
  ghost predicate StackApplied(w: World, w': World, spec: Spec)
  {
    && spec.ns in w'.objects.namespaces
    && (spec.postgres.EmbeddedPostgres? ==> Deployed(w', Workload(spec.ns, Postgres)))
    && (spec.storage.EmbeddedMinio? ==> Housed(w', Workload(spec.storage.ns, Minio)))
    && (spec.auth.EmbeddedKeycloak? ==>
          Housed(w', Workload(spec.auth.ns, Keycloak)) && RealmConfig(spec.auth.ns) in w'.objects.plain)
    && (spec.authz.EmbeddedOpenFga? ==>
          && Housed(w', Workload(spec.authz.ns, Postgres))
          && ServiceOf(Workload(spec.authz.ns, OpenFga)) in w'.objects.plain
          && (Up(w, Workload(spec.authz.ns, Postgres)) ==> Workload(spec.authz.ns, OpenFga) in w'.objects.workloads))
    && (AuthUp(w, spec) && FgaUp(w, spec) ==> Deployed(w', Workload(spec.ns, Lakekeeper)))
  }

  lemma PrefixApplied(spec: Spec, w: World, w1: World, w2: World, w3: World, w4: World, store: bool, auth: bool,
                      fga: bool)
    requires StorageDone(w, w1, spec, store) && AuthDone(w1, w2, spec, auth)
    requires AuthzDone(w2, w3, spec, fga) && LakekeeperDone(w3, w4, spec, auth && fga)
    requires JobsMoved(w, w1, spec)
    ensures StackApplied(w, w4, spec) && JobsMoved(w, w4, spec) && Grown(w, w4)
  {
    PrefixTells(spec, w, w1, w2, w3, w4, store, auth, fga);
    GrownTransitive(w, w1, w2);
    assert w4.objects.jobs == w1.objects.jobs;
  }

  lemma FinishKeeps(w: World, spec: Spec, store: (Store, bool), auth: (Oidc, bool), fga: (Fga, bool), p: Pass)
    requires FinishStack(w, spec, store, auth, fga, p).Ok?
    ensures FinishStack(w, spec, store, auth, fga, p).w.objects == w.objects
  {
    if ReconcileWarehouse(w, spec, auth.0, p).Ok? {
      WarehouseResult(w, spec, auth.0, p);
    }
  }

  lemma StackLeaves(w: World, spec: Spec, p: Pass)
    requires spec.lakekeeper && ReconcileLakekeeperStack(w, spec, p).Ok?
    ensures var w' := ReconcileLakekeeperStack(w, spec, p).w;
            StackApplied(w, w', spec) && JobsMoved(w, w', spec) && Grown(w, w')
  {
    var r1 := ReconcileStorage(w, spec, p);
    StorageResult(w, spec, p);
    StorageJobs(w, spec, p);
    var r2 := ReconcileAuth(r1.w, spec, p);
    AuthResult(r1.w, spec, p);
    var r3 := ReconcileAuthz(r2.w, spec, p);
    AuthzResult(r2.w, spec, p);
    var r4 := RunLakekeeper(r3.w, spec, r2.value.1, r3.value.1, p);
    RunLakekeeperResult(r3.w, spec, r2.value.1, r3.value.1, p);
    PrefixApplied(spec, w, r1.w, r2.w, r3.w, r4.w, r1.value.1, r2.value.1, r3.value.1);
    FinishKeeps(r4.w, spec, r1.value, r2.value, r3.value, p);
  }

  ghost predicate PassLeft(w: World, w': World, spec: Spec)
  {
    && Grown(w, w')
    && (spec.lakekeeper ==> StackApplied(w, w', spec) && JobsMoved(w, w', spec))
    && (!spec.lakekeeper ==> w'.objects.jobs == w.objects.jobs)
    && (spec.trino.EmbeddedTrino? ==>
          && Housed(w', Workload(spec.trino.ns, Trino))
          && (Workload(spec.trino.ns, TrinoWorker) in w'.objects.workloads <==> spec.trino.workers > 0))
    && (DeploysOpa(spec) ==> OpaDeployed(w', spec.authz.ns))
  }

  lemma PassLeaves(w: World, spec: Spec, p: Pass)
    requires RunPass(w, spec, p).Ok?
    ensures PassLeft(w, RunPass(w, spec, p).w, spec)
  {
    var s := Start(w);
    var r := ReconcileLakekeeperStack(s, spec, p);
    if spec.lakekeeper {
      StackLeaves(s, spec, p);
    } else {
      DisabledConditions(s, spec);
    }
    if DeploysOpa(spec) { StackClients(spec, s, p); }
    TrinoStackResult(r.w, spec, r.value, p);
    var t := ReconcileTrinoStack(r.w, spec, r.value, p);
    GrownTransitive(s, r.w, t.w);
    LeftAfterTrino(s, r.w, t.w, spec, t.value);
    LeftSame(s, t.w, w, RunPass(w, spec, p).w, spec);
  }

  /** The statement looks at objects only. */
  lemma LeftSame(s: World, w2: World, w: World, w': World, spec: Spec)
    requires s.objects == w.objects && w'.objects == w2.objects && PassLeft(s, w2, spec)
    ensures PassLeft(w, w', spec)
  {
    assert forall wl :: Up(s, wl) == Up(w, wl) && Up(w', wl) == Up(w2, wl);
  }

  lemma LeftAfterTrino(s: World, w1: World, w2: World, spec: Spec, progressing: bool)
    requires Grown(s, w1) && TrinoDone(w1, w2, spec, progressing)
    requires DeploysOpa(spec) ==> OpaDeployed(w2, spec.authz.ns)
    requires if spec.lakekeeper then StackApplied(s, w1, spec) && JobsMoved(s, w1, spec)
             else w1.objects.jobs == s.objects.jobs
    ensures PassLeft(s, w2, spec)
  {
    GrownTransitive(s, w1, w2);
    if spec.lakekeeper { AppliedKept(s, w1, w2, spec); }
  }

  /** What the first stack has applied is there after the second. */
  lemma AppliedKept(s: World, w1: World, w2: World, spec: Spec)
    requires Grown(w1, w2) && w2.objects.jobs == w1.objects.jobs && StackApplied(s, w1, spec) && JobsMoved(s, w1, spec)
    ensures StackApplied(s, w2, spec) && JobsMoved(s, w2, spec)
  {
  }

  // --- The environment between passes ---

  function Completed(job: Job): Job { job.(succeededPods := job.succeededPods + 1) }

  /** Every workload becomes ready, every bucket job completes, and deletions finish. */
  function Settle(w: World): World
  {
    w.(objects := w.objects.(
         workloads := map wl | wl in w.objects.workloads :: true,
         jobs := map ns | ns in w.objects.jobs && !w.objects.jobs[ns].deleting :: Completed(w.objects.jobs[ns])))
  }

  ghost predicate Settled(w: World)
  {
    forall ns | ns in w.objects.jobs :: BucketMade(w, ns)
  }

  lemma SettleFacts(w: World)
    ensures Settled(Settle(w))
    ensures forall wl :: Up(Settle(w), wl) <==> wl in w.objects.workloads
    ensures forall ns | ns in w.objects.jobs && !w.objects.jobs[ns].deleting :: BucketMade(Settle(w), ns)
  {
  }

  // --- Stages ---

  /** The workloads that depend on nothing. */
  predicate BaseUp(w: World, spec: Spec)
  {
    && TrinoUp(w, spec)
    && (spec.lakekeeper ==>
          && PostgresUp(w, spec) && AuthUp(w, spec)
          && (spec.storage.EmbeddedMinio? ==> Up(w, Workload(spec.storage.ns, Minio)))
          && (spec.authz.EmbeddedOpenFga? ==> Up(w, Workload(spec.authz.ns, Postgres))))
  }

  /** Also OpenFGA, which waits for its database, and the bucket, which waits for MinIO. */
  predicate ServicesUp(w: World, spec: Spec)
  {
    BaseUp(w, spec) && (spec.lakekeeper ==> StoreUp(w, spec) && FgaUp(w, spec))
  }

  /** Also LakeKeeper, which waits for the identity provider and OpenFGA. */
  predicate AllUp(w: World, spec: Spec)
  {
    ServicesUp(w, spec) && (spec.lakekeeper ==> LakekeeperUp(w, spec))
  }

  /** Passes still needed before the one that finds everything up. */
  function Stage(w: World, spec: Spec): nat
  {
    if AllUp(w, spec) then 0 else if ServicesUp(w, spec) then 1 else if BaseUp(w, spec) then 2 else 3
  }

  lemma SettledBase(w: World, w': World, spec: Spec)
    requires PassLeft(w, w', spec)
    ensures BaseUp(Settle(w'), spec)
  {
    SettleFacts(w');
  }

  lemma SettledServices(w: World, w': World, spec: Spec)
    requires PassLeft(w, w', spec) && Settled(w) && BaseUp(w, spec)
    ensures ServicesUp(Settle(w'), spec)
  {
    SettledBase(w, w', spec);
    SettleFacts(w');
  }

  lemma SettledAll(w: World, w': World, spec: Spec)
    requires PassLeft(w, w', spec) && Settled(w) && ServicesUp(w, spec)
    ensures AllUp(Settle(w'), spec)
  {
    SettledServices(w, w', spec);
    SettleFacts(w');
  }

  /** The stage falls on every pass that has not yet found everything up, and stays at zero. */
  lemma StageFalls(w: World, spec: Spec, p: Pass)
    requires Settled(w) && RunPass(w, spec, p).Ok?
    ensures var next := Settle(RunPass(w, spec, p).w);
            Settled(next)
              && (if Stage(w, spec) == 0 then Stage(next, spec) == 0 else Stage(next, spec) < Stage(w, spec))
  {
    var w' := RunPass(w, spec, p).w;
    PassLeaves(w, spec, p);
    SettleFacts(w');
    SettledBase(w, w', spec);
    if BaseUp(w, spec) {
      SettledServices(w, w', spec);
    }
    if ServicesUp(w, spec) {
      SettledAll(w, w', spec);
    }
  }

  /** One pass over any cluster, settled or not, leads past the first stage. */
  lemma FirstPass(w: World, spec: Spec, p: Pass)
    requires RunPass(w, spec, p).Ok?
    ensures Settled(Settle(RunPass(w, spec, p).w)) && Stage(Settle(RunPass(w, spec, p).w), spec) <= 2
  {
    PassLeaves(w, spec, p);
    SettleFacts(RunPass(w, spec, p).w);
    SettledBase(w, RunPass(w, spec, p).w, spec);
  }

  // --- Runs of settled passes ---

  /** The world before pass k; the very first world is arbitrary. */
  function WorldAt(w0: World, spec: Spec, passes: seq<Pass>, k: nat): World
    requires k <= |passes|
  {
    if k == 0 then w0 else Settle(RunPass(WorldAt(w0, spec, passes, k - 1), spec, passes[k - 1]).w)
  }

  ghost predicate ErrorFree(w0: World, spec: Spec, passes: seq<Pass>)
  {
    forall k | 0 <= k < |passes| :: RunPass(WorldAt(w0, spec, passes, k), spec, passes[k]).Ok?
  }

  lemma {:induction false} StageBound(w0: World, spec: Spec, passes: seq<Pass>, k: nat)
    requires ErrorFree(w0, spec, passes) && 1 <= k <= |passes|
    ensures Settled(WorldAt(w0, spec, passes, k))
    ensures Stage(WorldAt(w0, spec, passes, k), spec) <= (if k >= 3 then 0 else 3 - k)
  {
    var w := WorldAt(w0, spec, passes, k - 1);
    if k == 1 {
      FirstPass(w, spec, passes[0]);
    } else {
      StageBound(w0, spec, passes, k - 1);
      StageFalls(w, spec, passes[k - 1]);
    }
  }

  /** From any cluster whatever, and so from an empty one: in an error-free run the fourth
      pass and every later one reports Ready, exactly when LakeKeeper is disabled or the
      reconciler has a catalog client to create the warehouse with. */
  lemma ReadyByFourthPass(w0: World, spec: Spec, passes: seq<Pass>, k: nat)
    requires ErrorFree(w0, spec, passes) && 3 <= k < |passes|
    ensures ConditionTrue(RunPass(WorldAt(w0, spec, passes, k), spec, passes[k]).w, Ready) <==>
              (spec.lakekeeper ==> spec.catalogClient)
  {
    StageBound(w0, spec, passes, k);
    PassConditions(WorldAt(w0, spec, passes, k), spec, passes[k]);
  }
}
