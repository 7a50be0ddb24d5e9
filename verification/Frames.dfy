/** What every action of a pass leaves alone, lifted to sequences of actions and to whole
    components. */
module Frames {
  import opened Cluster
  import opened Reconcile

  /** Actions touch neither conditions, nor jobs, nor the store id. */
  ghost predicate Frame(w: World, w': World)
  {
    w'.status == w.status && w'.objects.jobs == w.objects.jobs
  }

  /** Only what Trino's configuration once was in is ever deleted. */
  ghost predicate PlainKept(w: World, w': World)
  {
    forall o | o in w.objects.plain && !o.OldTrinoConfig? :: o in w'.objects.plain
  }

  /** Workloads, namespaces and plain objects are never removed, and no workload becomes ready
      or loses readiness within a pass. Only Trino's workers, which readiness does not depend
      on, may be deleted. */
  ghost predicate Grown(w: World, w': World)
  {
    && w.objects.namespaces <= w'.objects.namespaces && PlainKept(w, w')
    && forall wl: Workload | !wl.component.TrinoWorker? ::
      Up(w', wl) == Up(w, wl) && (wl in w.objects.workloads ==> wl in w'.objects.workloads)
  }

  /** Neither status nor workloads differ, and nothing is removed. */
  ghost predicate Untouched(w: World, w': World)
  {
    && Frame(w, w') && w'.objects.workloads == w.objects.workloads && w'.log == w.log
    && w.objects.namespaces <= w'.objects.namespaces && PlainKept(w, w')
  }

  lemma GenerateUntouched(w: World, p: Pass, key: SecretKey, data: SecretData)
    ensures Untouched(w, EnsureGenerated(w, p, key, data).w)
  {
  }

  lemma OidcUntouched(w: World, p: Pass, key: SecretKey)
    ensures Untouched(w, EnsureOidcSecret(w, p, key).w)
  {
    GenerateUntouched(Tick(w), p, key, Instantiate(key, NEW_OIDC_TEMPLATE, p));
  }

  lemma GeneratesUntouched(w: World, p: Pass, a: Action)
    requires Generates(a)
    ensures Untouched(w, ActGenerate(w, p, a).w)
  {
    match a
    case Generate(key, template) => GenerateUntouched(w, p, key, Instantiate(key, template, p));
    case GenerateOnce(key, template) => GenerateUntouched(Tick(w), p, key, Instantiate(key, template, p));
    case GenerateChecked(key, template) => GenerateUntouched(Tick(w), p, key, Instantiate(key, template, p));
    case EnsureOidc(key) => OidcUntouched(w, p, key);
  }

  /** Every action but `Apply` only changes namespaces or secrets. */
  lemma ActUntouched(w: World, p: Pass, a: Action)
    requires !a.Apply?
    ensures Untouched(w, Act(w, p, a).w)
  {
    if Generates(a) {
      GeneratesUntouched(w, p, a);
    }
  }

  /** What the action asks for is there. */
  predicate Placed(w: World, a: Action)
  {
    && (a.EnsureNamespace? ==> a.ns in w.objects.namespaces)
    && (a.ApplyPlain? && !a.plain.OldTrinoConfig? ==> a.plain in w.objects.plain)
    && (a.Apply? && !a.workload.component.TrinoWorker? ==> a.workload in w.objects.workloads)
  }

  lemma ActFrame(w: World, p: Pass, a: Action)
    ensures Frame(w, Act(w, p, a).w) && Grown(w, Act(w, p, a).w)
    ensures Act(w, p, a).Ok? ==> Placed(Act(w, p, a).w, a)
  {
    if !a.Apply? {
      ActUntouched(w, p, a);
    }
  }

  lemma {:induction false} ActsFrame(w: World, p: Pass, actions: seq<Action>)
    ensures Frame(w, Acts(w, p, actions).w) && Grown(w, Acts(w, p, actions).w)
    ensures Acts(w, p, actions).Ok? ==> forall a | a in actions :: Placed(Acts(w, p, actions).w, a)
  {
    if actions != [] {
      var n := |actions| - 1;
      ActsFrame(w, p, actions[..n]);
      var r := Acts(w, p, actions[..n]);
      if r.Ok? {
        ActFrame(r.w, p, actions[n]);
        assert forall a :: a in actions <==> a in actions[..n] || a == actions[n];
      }
    }
  }

  /** Applying a list that contains the workload and asking for it answers with the
      readiness that it had before the pass touched anything. */
  lemma ReadyAfter(w: World, p: Pass, actions: seq<Action>, wl: Workload)
    requires Acts(w, p, actions).Ok? && WorkloadReady(Acts(w, p, actions).w, p, wl).Ok?
    requires !wl.component.TrinoWorker?
    ensures var r := WorkloadReady(Acts(w, p, actions).w, p, wl);
            && r.value == Up(w, wl) && Frame(w, r.w) && Grown(w, r.w) && wl in r.w.objects.workloads
            && forall a | a in actions :: Placed(r.w, a)
  {
    ActsFrame(w, p, actions);
  }

  // --- Components that succeed ---

  /** No condition but `c` differs. */
  ghost predicate OthersKept(w: World, w': World, c: Condition)
  {
    forall d | d != c :: ConditionTrue(w', d) == ConditionTrue(w, d)
  }

  predicate PostgresUp(w: World, spec: Spec)
  {
    spec.postgres.EmbeddedPostgres? ==> Up(w, Workload(spec.ns, Postgres))
  }

  /** What a successful Postgres step has done. */
  ghost predicate PostgresDone(w: World, w': World, spec: Spec)
  {
    && OthersKept(w, w', PostgresReady) && Grown(w, w') && w'.objects.jobs == w.objects.jobs
    && ConditionTrue(w', PostgresReady) == PostgresUp(w, spec)
    && (spec.postgres.EmbeddedPostgres? ==> Deployed(w', Workload(spec.ns, Postgres)))
  }

  /** The workload and its Service exist. */
  predicate Deployed(w: World, wl: Workload)
  {
    wl in w.objects.workloads && ServiceOf(wl) in w.objects.plain
  }

  /** So does its namespace, where the component makes it. */
  predicate Housed(w: World, wl: Workload)
  {
    Deployed(w, wl) && wl.ns in w.objects.namespaces
  }

  lemma PostgresResult(w: World, spec: Spec, p: Pass)
    requires ReconcilePostgres(w, spec, p).Ok?
    ensures PostgresDone(w, ReconcilePostgres(w, spec, p).w, spec)
  {
    match spec.postgres
    case EmbeddedPostgres(db) =>
      var list := PostgresActions(spec.ns, db);
      ReadyAfter(w, p, list, Workload(spec.ns, Postgres));
      assert list[1] in list;
    case ExternalPostgres(_, credentials) =>
      var ref := credentials.value;
      ActsFrame(w, p,
                CredentialActions(SecretKey(if ref.ns == "" then spec.ns else ref.ns, ref.name), ref));
  }

  /** A pod has succeeded, or the job says that it is complete. */
  predicate Finished(job: Job)
  {
    job.succeededPods > 0 || JobCondition(JobComplete, true) in job.conditions
  }

  /** The job as the bucket step makes it, with a home that its client can write to. */
  predicate Fresh(job: Job)
  {
    && !job.deleting && job.conditions == [] && job.succeededPods == 0
    && job.containers == [[EnvVar("HOME", "/tmp"), EnvVar("MC_CONFIG_DIR", "/tmp/.mc")]]
  }

  /** The bucket job has done its work. */
  predicate BucketMade(w: World, ns: string)
  {
    ns in w.objects.jobs && !w.objects.jobs[ns].deleting && Finished(w.objects.jobs[ns])
  }

  predicate StoreUp(w: World, spec: Spec)
  {
    spec.storage.EmbeddedMinio? ==> Up(w, Workload(spec.storage.ns, Minio)) && BucketMade(w, spec.storage.ns)
  }

  /** A job that has failed, or that could not write its configuration, is deleted so that a
      later pass makes it anew; any other is left to go on. */
  predicate Hopeless(job: Job)
  {
    && !job.deleting && !Finished(job)
    && (JobCondition(JobFailure, true) in job.conditions
        || !(job.containers != [] && EnvVar("HOME", "/tmp") in job.containers[0]))
  }

  predicate JobStep(job: Job, next: Job)
  {
    (Hopeless(job) <==> next != job) && (Hopeless(job) ==> next == job.(deleting := true))
  }

  /** The predicates of the bucket step, condition by condition. */
  lemma JobTells(job: Job)
    ensures JobSucceeded(job) <==> Finished(job)
    ensures JobFailed(job) <==> JobCondition(JobFailure, true) in job.conditions
    ensures WritableConfig(job) <==> job.containers != [] && EnvVar("HOME", "/tmp") in job.containers[0]
  {
    forall c | c in job.conditions && c.status ensures c == JobCondition(c.kind, true) {}
  }

  lemma BucketResult(w: World, ns: string, store: Store, p: Pass)
    requires EnsureMinioBucket(w, ns, store, p).Ok?
    ensures var r := EnsureMinioBucket(w, ns, store, p);
            && r.w.status == w.status && r.w.objects.workloads == w.objects.workloads
            && r.w.objects.namespaces == w.objects.namespaces && r.w.objects.plain == w.objects.plain
            && r.value == BucketMade(w, ns)
            && r.w.objects.jobs.Keys == w.objects.jobs.Keys + {ns}
            && (forall n | n in w.objects.jobs && n != ns :: r.w.objects.jobs[n] == w.objects.jobs[n])
            && (ns !in w.objects.jobs ==> Fresh(r.w.objects.jobs[ns]))
            && (ns in w.objects.jobs ==> JobStep(w.objects.jobs[ns], r.w.objects.jobs[ns]))
  {
    if ns in w.objects.jobs { JobTells(w.objects.jobs[ns]); }
  }

  lemma MinioResult(w: World, ns: string, p: Pass)
    requires ReconcileMinio(w, ns, p).Ok?
    ensures var r := ReconcileMinio(w, ns, p);
            && OthersKept(w, r.w, MinioReady) && Grown(w, r.w)
            && ConditionTrue(r.w, MinioReady) == r.value.1
            && r.value.1 == (Up(w, Workload(ns, Minio)) && BucketMade(w, ns))
            && Housed(r.w, Workload(ns, Minio))
  {
    var list := MinioActions(ns);
    ReadyAfter(w, p, list, Workload(ns, Minio));
    assert list[0] in list && list[2] in list;
    var r1 := Acts(w, p, list);
    var r2 := WorkloadReady(r1.w, p, Workload(ns, Minio));
    if r2.value {
      BucketResult(r2.w, ns, StoreOf(r1.value, false), p);
    }
  }

  /** The bucket job after a pass: started, left alone or, if hopeless, given up, once MinIO is up. */
  lemma MinioJob(w: World, ns: string, p: Pass)
    requires ReconcileMinio(w, ns, p).Ok?
    ensures var w' := ReconcileMinio(w, ns, p).w;
            && (forall n | n != ns && n in w.objects.jobs ::
                  n in w'.objects.jobs && w'.objects.jobs[n] == w.objects.jobs[n])
            && (!Up(w, Workload(ns, Minio)) ==> w'.objects.jobs == w.objects.jobs)
            && (Up(w, Workload(ns, Minio)) ==>
                  && ns in w'.objects.jobs
                  && (if ns in w.objects.jobs then JobStep(w.objects.jobs[ns], w'.objects.jobs[ns])
                      else Fresh(w'.objects.jobs[ns])))
  {
    ReadyAfter(w, p, MinioActions(ns), Workload(ns, Minio));
    var r1 := Acts(w, p, MinioActions(ns));
    var r2 := WorkloadReady(r1.w, p, Workload(ns, Minio));
    if r2.value {
      BucketResult(r2.w, ns, StoreOf(r1.value, false), p);
    }
  }

  ghost predicate StoreDone(w: World, w': World, spec: Spec, ready: bool)
  {
    && OthersKept(w, w', MinioReady) && Grown(w, w')
    && ConditionTrue(w', MinioReady) == ready && ready == StoreUp(w, spec)
    && (spec.storage.EmbeddedMinio? ==> Housed(w', Workload(spec.storage.ns, Minio)))
  }

  lemma ObjectStoreResult(w: World, spec: Spec, p: Pass)
    requires ReconcileObjectStore(w, spec, p).Ok?
    ensures StoreDone(w, ReconcileObjectStore(w, spec, p).w, spec, ReconcileObjectStore(w, spec, p).value.1)
  {
    match spec.storage
    case EmbeddedMinio(ns) => MinioResult(w, ns, p);
    case ExternalS3(s3) =>
      var ref := s3.value.credentials.value;
      ActsFrame(w, p, CredentialActions(SecretKey(ref.ns, ref.name), ref));
  }

  predicate AuthUp(w: World, spec: Spec)
  {
    spec.auth.EmbeddedKeycloak? ==> Up(w, Workload(spec.auth.ns, Keycloak))
  }

  ghost predicate AuthDone(w: World, w': World, spec: Spec, ready: bool)
  {
    && OthersKept(w, w', AuthReady) && Grown(w, w') && w'.objects.jobs == w.objects.jobs
    && ConditionTrue(w', AuthReady) == ready && ready == AuthUp(w, spec)
    && (spec.auth.EmbeddedKeycloak? ==>
          Housed(w', Workload(spec.auth.ns, Keycloak)) && RealmConfig(spec.auth.ns) in w'.objects.plain)
  }

  lemma KeycloakPlaces(ns: string)
    ensures var list := KeycloakActions(ns);
            && EnsureNamespace(ns) in list && ApplyPlain(RealmConfig(ns)) in list
            && ApplyPlain(ServiceOf(Workload(ns, Keycloak))) in list
  {
    var list := KeycloakActions(ns);
    assert list[0] == EnsureNamespace(ns) && list[10] == ApplyPlain(RealmConfig(ns));
    assert list[11] == ApplyPlain(ServiceOf(Workload(ns, Keycloak)));
  }

  lemma KeycloakResult(w: World, ns: string, p: Pass)
    requires ReconcileKeycloak(w, ns, p).Ok?
    ensures var r := ReconcileKeycloak(w, ns, p);
            && OthersKept(w, r.w, AuthReady) && Grown(w, r.w) && r.w.objects.jobs == w.objects.jobs
            && ConditionTrue(r.w, AuthReady) == r.value.1 && r.value.1 == Up(w, Workload(ns, Keycloak))
            && Housed(r.w, Workload(ns, Keycloak)) && RealmConfig(ns) in r.w.objects.plain
  {
    KeycloakPlaces(ns);
    KeycloakSteps(w, ns, p, KeycloakActions(ns));
  }

  lemma KeycloakSteps(w: World, ns: string, p: Pass, list: seq<Action>)
    requires Acts(w, p, list).Ok? && WorkloadReady(Acts(w, p, list).w, p, Workload(ns, Keycloak)).Ok?
    requires EnsureNamespace(ns) in list && ApplyPlain(RealmConfig(ns)) in list
              && ApplyPlain(ServiceOf(Workload(ns, Keycloak))) in list
    ensures var r := WorkloadReady(Acts(w, p, list).w, p, Workload(ns, Keycloak));
            && Frame(w, r.w) && Grown(w, r.w) && r.value == Up(w, Workload(ns, Keycloak))
            && Housed(r.w, Workload(ns, Keycloak)) && RealmConfig(ns) in r.w.objects.plain
  {
    ReadyAfter(w, p, list, Workload(ns, Keycloak));
    assert Placed(WorkloadReady(Acts(w, p, list).w, p, Workload(ns, Keycloak)).w, EnsureNamespace(ns));
  }

  lemma AuthResult(w: World, spec: Spec, p: Pass)
    requires ReconcileAuth(w, spec, p).Ok?
    ensures AuthDone(w, ReconcileAuth(w, spec, p).w, spec, ReconcileAuth(w, spec, p).value.1)
  {
    match spec.auth
    case NoAuth =>
    case EmbeddedKeycloak(ns) => KeycloakResult(w, ns, p);
    case ExternalOidc(_, _, credentials) => ActsFrame(w, p, OidcActions(credentials.value));
  }

  predicate FgaUp(w: World, spec: Spec)
  {
    spec.authz.EmbeddedOpenFga? ==> Up(w, Workload(spec.authz.ns, Postgres)) && Up(w, Workload(spec.authz.ns, OpenFga))
  }

  lemma RunOpenFgaResult(w: World, ns: string, needsStore: bool, catalogClient: bool, p: Pass)
    requires RunOpenFga(w, ns, needsStore, catalogClient, p).Ok?
    ensures var r := RunOpenFga(w, ns, needsStore, catalogClient, p);
            && OthersKept(w, r.w, OpenFgaReady) && Grown(w, r.w) && r.w.objects.jobs == w.objects.jobs
            && ConditionTrue(r.w, OpenFgaReady) == r.value.1 && r.value.1 == Up(w, Workload(ns, OpenFga))
            && Workload(ns, OpenFga) in r.w.objects.workloads
  {
    ReadyAfter(w, p, RunOpenFgaActions(ns), Workload(ns, OpenFga));
  }

  lemma OpenFgaResult(w: World, ns: string, needsStore: bool, catalogClient: bool, p: Pass)
    requires ReconcileOpenFga(w, ns, needsStore, catalogClient, p).Ok?
    ensures var r := ReconcileOpenFga(w, ns, needsStore, catalogClient, p);
            && OthersKept(w, r.w, OpenFgaReady) && Grown(w, r.w) && r.w.objects.jobs == w.objects.jobs
            && ConditionTrue(r.w, OpenFgaReady) == r.value.1
            && r.value.1 == (Up(w, Workload(ns, Postgres)) && Up(w, Workload(ns, OpenFga)))
            && Housed(r.w, Workload(ns, Postgres)) && ServiceOf(Workload(ns, OpenFga)) in r.w.objects.plain
            && (Up(w, Workload(ns, Postgres)) ==> Workload(ns, OpenFga) in r.w.objects.workloads)
  {
    var list := OpenFgaActions(ns);
    ReadyAfter(w, p, list, Workload(ns, Postgres));
    assert list[0] in list && list[3] in list && list[5] in list;
    var r2 := WorkloadReady(Acts(w, p, OpenFgaActions(ns)).w, p, Workload(ns, Postgres));
    if r2.value {
      RunOpenFgaResult(r2.w, ns, needsStore, catalogClient, p);
    }
  }

  ghost predicate AuthzDone(w: World, w': World, spec: Spec, ready: bool)
  {
    && OthersKept(w, w', OpenFgaReady) && Grown(w, w') && w'.objects.jobs == w.objects.jobs
    && ConditionTrue(w', OpenFgaReady) == ready && ready == FgaUp(w, spec)
    && (spec.authz.EmbeddedOpenFga? ==>
          && Housed(w', Workload(spec.authz.ns, Postgres))
          && ServiceOf(Workload(spec.authz.ns, OpenFga)) in w'.objects.plain
          && (Up(w, Workload(spec.authz.ns, Postgres)) ==> Workload(spec.authz.ns, OpenFga) in w'.objects.workloads))
  }

  lemma AuthzResult(w: World, spec: Spec, p: Pass)
    requires ReconcileAuthz(w, spec, p).Ok?
    ensures AuthzDone(w, ReconcileAuthz(w, spec, p).w, spec, ReconcileAuthz(w, spec, p).value.1)
  {
    if spec.authz.EmbeddedOpenFga? {
      OpenFgaResult(w, spec.authz.ns, NeedsStore(spec), spec.catalogClient, p);
    }
  }

  ghost predicate LakekeeperDone(w: World, w': World, spec: Spec, allowed: bool)
  {
    var wl := Workload(spec.ns, Lakekeeper);
    && OthersKept(w, w', LakekeeperReady) && Grown(w, w') && w'.objects.jobs == w.objects.jobs
    && ConditionTrue(w', LakekeeperReady) == (allowed && Up(w, wl))
    && (allowed ==> Deployed(w', wl))
  }

  lemma RunLakekeeperResult(w: World, spec: Spec, authReady: bool, fgaReady: bool, p: Pass)
    requires RunLakekeeper(w, spec, authReady, fgaReady, p).Ok?
    ensures LakekeeperDone(w, RunLakekeeper(w, spec, authReady, fgaReady, p).w, spec, authReady && fgaReady)
  {
    if authReady && fgaReady {
      var list := LakekeeperActions(spec.ns);
      ReadyAfter(w, p, list, Workload(spec.ns, Lakekeeper));
      assert list[1] in list;
    }
  }

  lemma WarehouseResult(w: World, spec: Spec, oidc: Oidc, p: Pass)
    requires ReconcileWarehouse(w, spec, oidc, p).Ok?
    ensures var w' := ReconcileWarehouse(w, spec, oidc, p).w;
            && OthersKept(w, w', WarehouseReady) && w'.objects == w.objects
            && ConditionTrue(w', WarehouseReady) == spec.catalogClient
  {
  }

  predicate TrinoUp(w: World, spec: Spec)
  {
    spec.trino.EmbeddedTrino? ==> Up(w, Workload(spec.trino.ns, Trino))
  }

  /** OPA, its policies and its Service exist. */
  predicate OpaDeployed(w: World, ns: string)
  {
    Deployed(w, Workload(ns, Opa)) && PolicyConfig(ns) in w.objects.plain
  }

  lemma OpaResult(w: World, spec: Spec, oidc: Oidc, fga: Fga, p: Pass)
    requires ReconcileOpa(w, spec, oidc, fga, p).Ok?
    ensures Frame(w, ReconcileOpa(w, spec, oidc, fga, p).w) && Grown(w, ReconcileOpa(w, spec, oidc, fga, p).w)
    ensures spec.authz.EmbeddedOpenFga? && oidc.Oidc? && !fga.NoFga? ==>
              OpaDeployed(ReconcileOpa(w, spec, oidc, fga, p).w, spec.authz.ns)
  {
    if !(fga.NoFga? || oidc.NoOidc? || !spec.authz.EmbeddedOpenFga?) {
      var list := OpaActions(spec.authz.ns, oidc);
      ReadyAfter(w, p, list, Workload(spec.authz.ns, Opa));
      assert list[1] in list && list[2] in list;
    }
  }

  lemma WorkersResult(w: World, ns: string, workers: nat, p: Pass)
    ensures Frame(w, ReconcileTrinoWorkers(w, ns, workers, p).w) && Grown(w, ReconcileTrinoWorkers(w, ns, workers, p).w)
    ensures ReconcileTrinoWorkers(w, ns, workers, p).Ok? ==>
              (Workload(ns, TrinoWorker) in ReconcileTrinoWorkers(w, ns, workers, p).w.objects.workloads <==>
               workers > 0)
  {
  }

  lemma TrinoApplied(w: World, ns: string, store: Store, oidc: Oidc, opa: OpaUse, shared: seq<Value>, p: Pass)
    requires Acts(w, p, TrinoActions(ns, store, oidc, opa, shared)).Ok?
    ensures var w' := Acts(w, p, TrinoActions(ns, store, oidc, opa, shared)).w;
            Frame(w, w') && Grown(w, w') && Deployed(w', Workload(ns, Trino))
  {
    var list := TrinoActions(ns, store, oidc, opa, shared);
    ActsFrame(w, p, list);
    assert list[3] in list && list[4] in list;
  }

  lemma TrinoResult(w: World, ns: string, hasPublicUrl: bool, workers: nat, store: Store, oidc: Oidc, opa: OpaUse,
                    p: Pass)
    requires ReconcileTrino(w, ns, hasPublicUrl, workers, store, oidc, opa, p).Ok?
    ensures var w' := ReconcileTrino(w, ns, hasPublicUrl, workers, store, oidc, opa, p).w;
            && OthersKept(w, w', TrinoReady) && Grown(w, w') && w'.objects.jobs == w.objects.jobs
            && ConditionTrue(w', TrinoReady) == Up(w, Workload(ns, Trino))
            && Deployed(w', Workload(ns, Trino))
            && (Workload(ns, TrinoWorker) in w'.objects.workloads <==> workers > 0)
  {
    var acts := SharedSecretActions(ns, oidc.Oidc? && hasPublicUrl);
    var r1 := Acts(w, p, acts);
    ActsFrame(w, p, acts);
    TrinoApplied(r1.w, ns, store, oidc, opa, r1.value, p);
    var r2 := Acts(r1.w, p, TrinoActions(ns, store, oidc, opa, r1.value));
    WorkersResult(r2.w, ns, workers, p);
  }

  ghost predicate TrinoDone(w: World, w': World, spec: Spec, progressing: bool)
  {
    && OthersKept(w, w', TrinoReady) && Grown(w, w') && w'.objects.jobs == w.objects.jobs
    && ConditionTrue(w', TrinoReady) == TrinoUp(w, spec) && progressing == !TrinoUp(w, spec)
    && (spec.trino.EmbeddedTrino? ==>
          && Housed(w', Workload(spec.trino.ns, Trino))
          && (Workload(spec.trino.ns, TrinoWorker) in w'.objects.workloads <==> spec.trino.workers > 0))
  }

  lemma TrinoStackResult(w: World, spec: Spec, stack: Stack, p: Pass)
    requires ReconcileTrinoStack(w, spec, stack, p).Ok?
    ensures TrinoDone(w, ReconcileTrinoStack(w, spec, stack, p).w, spec, ReconcileTrinoStack(w, spec, stack, p).value)
    ensures spec.trino.EmbeddedTrino? && spec.authz.EmbeddedOpenFga? && stack.oidc.Oidc? && !stack.fga.NoFga? ==>
              OpaDeployed(ReconcileTrinoStack(w, spec, stack, p).w, spec.authz.ns)
  {
    if spec.trino.EmbeddedTrino? {
      var t := spec.trino;
      ActFrame(w, p, EnsureNamespace(t.ns));
      var w1 := Act(w, p, EnsureNamespace(t.ns)).w;
      assert Placed(w1, EnsureNamespace(t.ns));
      OpaResult(w1, spec, stack.oidc, stack.fga, p);
      TrinoResult(ReconcileOpa(w1, spec, stack.oidc, stack.fga, p).w, t.ns, t.hasPublicUrl, t.workers, stack.store,
                  stack.oidc, OpaUseOf(spec.authz, stack.oidc, stack.fga), p);
    }
  }

  // --- Components that fail ---

  /** The component's own condition is False, and no other one differs. */
  ghost predicate Fails(w: World, w': World, c: Condition)
  {
    OthersKept(w, w', c) && c in w'.status.conditions && !w'.status.conditions[c]
  }

  lemma PostgresFails(w: World, spec: Spec, p: Pass)
    requires ReconcilePostgres(w, spec, p).Err?
    ensures Fails(w, ReconcilePostgres(w, spec, p).w, PostgresReady)
  {
    match spec.postgres
    case EmbeddedPostgres(db) => ActsFrame(w, p, PostgresActions(spec.ns, db));
    case ExternalPostgres(_, credentials) =>
      if credentials.Some? {
        var ref := credentials.value;
        ActsFrame(w, p, CredentialActions(SecretKey(if ref.ns == "" then spec.ns else ref.ns, ref.name), ref));
      }
  }

  lemma BucketKeepsStatus(w: World, ns: string, store: Store, p: Pass)
    ensures EnsureMinioBucket(w, ns, store, p).w.status == w.status
  {
  }

  lemma ObjectStoreFails(w: World, spec: Spec, p: Pass)
    requires ReconcileObjectStore(w, spec, p).Err?
    ensures Fails(w, ReconcileObjectStore(w, spec, p).w, MinioReady)
  {
    match spec.storage
    case EmbeddedMinio(ns) =>
      ActsFrame(w, p, MinioActions(ns));
      var r1 := Acts(w, p, MinioActions(ns));
      if r1.Ok? {
        var r2 := WorkloadReady(r1.w, p, Workload(ns, Minio));
        if r2.Ok? { BucketKeepsStatus(r2.w, ns, StoreOf(r1.value, false), p); }
      }
    case ExternalS3(s3) =>
      if s3.Some? && s3.value.credentials.Some? {
        var ref := s3.value.credentials.value;
        ActsFrame(w, p, CredentialActions(SecretKey(ref.ns, ref.name), ref));
      }
  }

  lemma AuthFails(w: World, spec: Spec, p: Pass)
    requires ReconcileAuth(w, spec, p).Err?
    ensures Fails(w, ReconcileAuth(w, spec, p).w, AuthReady)
  {
    match spec.auth
    case EmbeddedKeycloak(ns) => ActsFrame(w, p, KeycloakActions(ns));
    case ExternalOidc(_, _, credentials) =>
      if credentials.Some? { ActsFrame(w, p, OidcActions(credentials.value)); }
  }

  lemma RunOpenFgaFails(w: World, ns: string, needsStore: bool, catalogClient: bool, p: Pass)
    requires RunOpenFga(w, ns, needsStore, catalogClient, p).Err?
    ensures RunOpenFga(w, ns, needsStore, catalogClient, p).w.status == w.status
  {
    ActsFrame(w, p, RunOpenFgaActions(ns));
  }

  lemma AuthzFails(w: World, spec: Spec, p: Pass)
    requires ReconcileAuthz(w, spec, p).Err?
    ensures Fails(w, ReconcileAuthz(w, spec, p).w, OpenFgaReady)
  {
    if spec.authz.EmbeddedOpenFga? {
      var ns := spec.authz.ns;
      ActsFrame(w, p, OpenFgaActions(ns));
      var r1 := Acts(w, p, OpenFgaActions(ns));
      if r1.Ok? {
        var r2 := WorkloadReady(r1.w, p, Workload(ns, Postgres));
        if r2.Ok? && r2.value { RunOpenFgaFails(r2.w, ns, NeedsStore(spec), spec.catalogClient, p); }
      }
    }
  }

  lemma RunLakekeeperFails(w: World, spec: Spec, authReady: bool, fgaReady: bool, p: Pass)
    requires RunLakekeeper(w, spec, authReady, fgaReady, p).Err?
    ensures Fails(w, RunLakekeeper(w, spec, authReady, fgaReady, p).w, LakekeeperReady)
  {
    ActsFrame(w, p, LakekeeperActions(spec.ns));
  }

  lemma WarehouseFails(w: World, spec: Spec, oidc: Oidc, p: Pass)
    requires ReconcileWarehouse(w, spec, oidc, p).Err?
    ensures Fails(w, ReconcileWarehouse(w, spec, oidc, p).w, WarehouseReady)
  {
  }

  lemma TrinoFails(w: World, ns: string, hasPublicUrl: bool, workers: nat, store: Store, oidc: Oidc, opa: OpaUse,
                   p: Pass)
    requires ReconcileTrino(w, ns, hasPublicUrl, workers, store, oidc, opa, p).Err?
    ensures Fails(w, OnError(TrinoReady, ReconcileTrino(w, ns, hasPublicUrl, workers, store, oidc, opa, p)).w,
                  TrinoReady)
  {
    var acts := SharedSecretActions(ns, oidc.Oidc? && hasPublicUrl);
    ActsFrame(w, p, acts);
    var r1 := Acts(w, p, acts);
    if r1.Ok? {
      var list := TrinoActions(ns, store, oidc, opa, r1.value);
      ActsFrame(r1.w, p, list);
      var r2 := Acts(r1.w, p, list);
      if r2.Ok? { WorkersResult(r2.w, ns, workers, p); }
    }
  }

  lemma OpaKeepsStatus(w: World, spec: Spec, oidc: Oidc, fga: Fga, p: Pass)
    ensures ReconcileOpa(w, spec, oidc, fga, p).w.status == w.status
  {
    if !(fga.NoFga? || oidc.NoOidc? || !spec.authz.EmbeddedOpenFga?) {
      ActsFrame(w, p, OpaActions(spec.authz.ns, oidc));
    }
  }

  /** An error before Trino's own step changes no condition; one in it makes TrinoReady False. */
  lemma TrinoStackFails(w: World, spec: Spec, stack: Stack, p: Pass)
    requires spec.trino.EmbeddedTrino? && ReconcileTrinoStack(w, spec, stack, p).Err?
    ensures var w', r1 := ReconcileTrinoStack(w, spec, stack, p).w, Act(w, p, EnsureNamespace(spec.trino.ns));
            if r1.Ok? && ReconcileOpa(r1.w, spec, stack.oidc, stack.fga, p).Ok? then Fails(w, w', TrinoReady)
            else w'.status == w.status
  {
    var t, opa := spec.trino, OpaUseOf(spec.authz, stack.oidc, stack.fga);
    var r1 := Act(w, p, EnsureNamespace(t.ns));
    ActFrame(w, p, EnsureNamespace(t.ns));
    if r1.Ok? {
      OpaKeepsStatus(r1.w, spec, stack.oidc, stack.fga, p);
      var r2 := ReconcileOpa(r1.w, spec, stack.oidc, stack.fga, p);
      if r2.Ok? { TrinoFails(r2.w, t.ns, t.hasPublicUrl, t.workers, stack.store, stack.oidc, opa, p); }
    }
  }

  // --- What a pass without error says about the spec ---

  /** Everything that is not the operator's own is named in full. */
  predicate Complete(spec: Spec)
  {
    && (spec.postgres.ExternalPostgres? ==>
          spec.postgres.host != "" && spec.postgres.credentials.Some?
            && spec.postgres.credentials.value.name != UserSecret(""))
    && (spec.storage.ExternalS3? ==>
          && spec.storage.s3.Some? && spec.storage.s3.value.credentials.Some?
          && spec.storage.s3.value.credentials.value.name != UserSecret(""))
    && (spec.auth.ExternalOidc? ==>
          spec.auth.issuer != "" && spec.auth.credentials.Some? && spec.auth.credentials.value.name != UserSecret(""))
    && !spec.authz.ExternalOpenFga?
  }

  /** A pass over an incomplete spec errs, whatever its calls do. */
  lemma PassNeeds(w: World, spec: Spec, p: Pass)
    requires spec.lakekeeper && RunPass(w, spec, p).Ok?
    ensures Complete(spec)
  {
    var s := Start(w);
    var r1 := ReconcileStorage(s, spec, p);
    StorageNeeds(s, spec, p);
    var r2 := ReconcileAuth(r1.w, spec, p);
  }

  lemma StorageNeeds(w: World, spec: Spec, p: Pass)
    requires ReconcileStorage(w, spec, p).Ok?
    ensures spec.postgres.ExternalPostgres? ==>
              spec.postgres.host != "" && spec.postgres.credentials.Some?
                && spec.postgres.credentials.value.name != UserSecret("")
    ensures spec.storage.ExternalS3? ==>
              spec.storage.s3.Some? && spec.storage.s3.value.credentials.Some?
                && spec.storage.s3.value.credentials.value.name != UserSecret("")
  {
  }
}
