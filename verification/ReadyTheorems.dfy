/** When the platform may call itself Ready. */
module ReadyTheorems {
  import opened Cluster
  import opened Reconcile
  import opened Frames

  predicate LakekeeperUp(w: World, spec: Spec)
  {
    AuthUp(w, spec) && FgaUp(w, spec) && Up(w, Workload(spec.ns, Lakekeeper))
  }

  /** Everything that the warehouse waits for. */
  predicate StackUp(w: World, spec: Spec)
  {
    PostgresUp(w, spec) && StoreUp(w, spec) && LakekeeperUp(w, spec)
  }

  lemma GrownTransitive(a: World, b: World, c: World)
    requires Grown(a, b) && Grown(b, c)
    ensures Grown(a, c)
  {
  }

  /** Within a pass readiness does not change, so every component judges the same cluster. */
  lemma UpsKept(w: World, w': World, spec: Spec)
    requires Grown(w, w')
    ensures PostgresUp(w', spec) == PostgresUp(w, spec) && AuthUp(w', spec) == AuthUp(w, spec)
    ensures FgaUp(w', spec) == FgaUp(w, spec) && TrinoUp(w', spec) == TrinoUp(w, spec)
    ensures LakekeeperUp(w', spec) == LakekeeperUp(w, spec)
    ensures w'.objects.jobs == w.objects.jobs ==> StoreUp(w', spec) == StoreUp(w, spec)
  {
  }

  ghost predicate StorageDone(w: World, w': World, spec: Spec, ready: bool)
  {
    && Grown(w, w') && ready == StoreUp(w, spec)
    && ConditionTrue(w', PostgresReady) == PostgresUp(w, spec) && ConditionTrue(w', MinioReady) == ready
    && ConditionTrue(w', WarehouseReady) == ConditionTrue(w, WarehouseReady)
    && spec.ns in w'.objects.namespaces
    && (spec.postgres.EmbeddedPostgres? ==> Deployed(w', Workload(spec.ns, Postgres)))
    && (spec.storage.EmbeddedMinio? ==> Housed(w', Workload(spec.storage.ns, Minio)))
  }

  lemma StorageResult(w: World, spec: Spec, p: Pass)
    requires ReconcileStorage(w, spec, p).Ok?
    ensures StorageDone(w, ReconcileStorage(w, spec, p).w, spec, ReconcileStorage(w, spec, p).value.1)
  {
    var r1 := Act(w, p, EnsureNamespace(spec.ns));
    ActFrame(w, p, EnsureNamespace(spec.ns));
    var r2 := ReconcilePostgres(r1.w, spec, p);
    PostgresResult(r1.w, spec, p);
    ObjectStoreResult(r2.w, spec, p);
    GrownTransitive(w, r1.w, r2.w);
    UpsKept(w, r1.w, spec);
    UpsKept(w, r2.w, spec);
  }

  /** The conditions that a pass sets say what was up when it began. */
  ghost predicate ConditionsTell(w: World, w': World, spec: Spec)
  {
    && ConditionTrue(w', PostgresReady) == PostgresUp(w, spec)
    && ConditionTrue(w', MinioReady) == StoreUp(w, spec)
    && ConditionTrue(w', AuthReady) == AuthUp(w, spec)
    && ConditionTrue(w', OpenFgaReady) == FgaUp(w, spec)
    && ConditionTrue(w', LakekeeperReady) == LakekeeperUp(w, spec)
    && ConditionTrue(w', WarehouseReady) == ConditionTrue(w, WarehouseReady)
  }

  lemma PrefixTells(spec: Spec, w: World, w1: World, w2: World, w3: World, w4: World, store: bool, auth: bool,
                    fga: bool)
    requires StorageDone(w, w1, spec, store) && AuthDone(w1, w2, spec, auth)
    requires AuthzDone(w2, w3, spec, fga) && LakekeeperDone(w3, w4, spec, auth && fga)
    ensures ConditionsTell(w, w4, spec) && Grown(w, w4)
    ensures auth == AuthUp(w, spec) && fga == FgaUp(w, spec)
  {
    GrownTransitive(w, w1, w2);
    GrownTransitive(w, w2, w3);
    GrownTransitive(w, w3, w4);
    UpsKept(w, w1, spec);
    UpsKept(w, w2, spec);
    UpsKept(w, w3, spec);
  }

  /** The part of the pass up to LakeKeeper, with what it hands on. */
  datatype Prefix = Prefix(w: World, store: (Store, bool), auth: (Oidc, bool), fga: (Fga, bool))

  lemma StackPrefix(w: World, spec: Spec, p: Pass) returns (f: Prefix)
    requires spec.lakekeeper && ReconcileLakekeeperStack(w, spec, p).Ok?
    ensures ReconcileLakekeeperStack(w, spec, p) == FinishStack(f.w, spec, f.store, f.auth, f.fga, p)
    ensures ConditionsTell(w, f.w, spec) && Grown(w, f.w)
    ensures f.store.1 == StoreUp(w, spec) && f.auth.1 == AuthUp(w, spec) && f.fga.1 == FgaUp(w, spec)
  {
    var r1 := ReconcileStorage(w, spec, p);
    StorageResult(w, spec, p);
    var r2 := ReconcileAuth(r1.w, spec, p);
    AuthResult(r1.w, spec, p);
    var r3 := ReconcileAuthz(r2.w, spec, p);
    AuthzResult(r2.w, spec, p);
    var r4 := RunLakekeeper(r3.w, spec, r2.value.1, r3.value.1, p);
    RunLakekeeperResult(r3.w, spec, r2.value.1, r3.value.1, p);
    PrefixTells(spec, w, r1.w, r2.w, r3.w, r4.w, r1.value.1, r2.value.1, r3.value.1);
    f := Prefix(r4.w, r1.value, r2.value, r3.value);
  }

  lemma StackConditions(w: World, spec: Spec, p: Pass)
    requires spec.lakekeeper && ReconcileLakekeeperStack(w, spec, p).Ok?
    ensures var r := ReconcileLakekeeperStack(w, spec, p);
            && ConditionTrue(r.w, PostgresReady) == PostgresUp(w, spec)
            && ConditionTrue(r.w, MinioReady) == StoreUp(w, spec)
            && ConditionTrue(r.w, AuthReady) == AuthUp(w, spec)
            && ConditionTrue(r.w, OpenFgaReady) == FgaUp(w, spec)
            && ConditionTrue(r.w, LakekeeperReady) == LakekeeperUp(w, spec)
            && (StackUp(w, spec) ==> ConditionTrue(r.w, WarehouseReady) == spec.catalogClient)
            && r.value.progressing == !(StackUp(w, spec) && spec.catalogClient)
            && Grown(w, r.w)
  {
    var f := StackPrefix(w, spec, p);
    if StackUp(w, spec) {
      WarehouseResult(f.w, spec, f.auth.0, p);
    }
  }

  /** The seven conditions that Ready summarises. */
  predicate AllTrue(w: World)
  {
    && ConditionTrue(w, PostgresReady) && ConditionTrue(w, MinioReady) && ConditionTrue(w, AuthReady)
    && ConditionTrue(w, OpenFgaReady) && ConditionTrue(w, LakekeeperReady) && ConditionTrue(w, WarehouseReady)
    && ConditionTrue(w, TrinoReady)
  }

  /** What Ready waits for, in terms of the cluster that the pass found. OPA and Trino's
      workers are not among it. */
  predicate PlatformUp(w: World, spec: Spec)
  {
    TrinoUp(w, spec) && (spec.lakekeeper ==> StackUp(w, spec) && spec.catalogClient)
  }

  lemma DisabledConditions(w: World, spec: Spec)
    ensures var w' := LakekeeperDisabled(w, spec);
            && ConditionTrue(w', PostgresReady) && ConditionTrue(w', MinioReady) && ConditionTrue(w', OpenFgaReady)
            && ConditionTrue(w', LakekeeperReady) && ConditionTrue(w', WarehouseReady)
            && ConditionTrue(w', AuthReady) == (spec.auth.NoAuth? || ConditionTrue(w, AuthReady))
            && Grown(w, w')
  {
  }

  lemma StartSame(w: World, spec: Spec)
    ensures StackUp(Start(w), spec) == StackUp(w, spec) && TrinoUp(Start(w), spec) == TrinoUp(w, spec)
    ensures ConditionTrue(Start(w), AuthReady) == ConditionTrue(w, AuthReady)
  {
  }

  lemma PassConditions(w: World, spec: Spec, p: Pass)
    requires RunPass(w, spec, p).Ok?
    ensures var w' := RunPass(w, spec, p).w;
            && ConditionTrue(w', Ready) == PlatformUp(w, spec)
            && (spec.lakekeeper ==> AllTrue(w') == PlatformUp(w, spec))
            && (!spec.lakekeeper ==>
                  AllTrue(w') == (PlatformUp(w, spec) && (spec.auth.NoAuth? || ConditionTrue(w, AuthReady))))
  {
    var s := Start(w);
    StartSame(w, spec);
    var r := ReconcileLakekeeperStack(s, spec, p);
    if spec.lakekeeper {
      StackConditions(s, spec, p);
    } else {
      DisabledConditions(s, spec);
    }
    TrinoStackResult(r.w, spec, r.value, p);
    var t := ReconcileTrinoStack(r.w, spec, r.value, p);
    assert TrinoUp(r.w, spec) == TrinoUp(s, spec);
    SetReady(t.w, !(r.value.progressing || t.value));
    assert RunPass(w, spec, p).w == Set(t.w, Ready, !(r.value.progressing || t.value));
  }

  lemma SetReady(w: World, b: bool)
    ensures AllTrue(Set(w, Ready, b)) == AllTrue(w) && ConditionTrue(Set(w, Ready, b), Ready) == b
  {
  }

  /** With LakeKeeper enabled, after every pass without error Ready is True exactly when all
      seven conditions are, whatever stale conditions the pass began with. */
  lemma ReadySummarises(w: World, spec: Spec, p: Pass)
    requires spec.lakekeeper && RunPass(w, spec, p).Ok?
    ensures ConditionTrue(RunPass(w, spec, p).w, Ready) <==> AllTrue(RunPass(w, spec, p).w)
  {
    PassConditions(w, spec, p);
  }

  /** For every spec: Ready and the seven conditions agree exactly unless LakeKeeper is
      disabled while auth is enabled, AuthReady was not True before, and Trino is up, because
      that pass does not touch AuthReady. */
  lemma ReadySummarisesExact(w: World, spec: Spec, p: Pass)
    requires RunPass(w, spec, p).Ok?
    ensures (ConditionTrue(RunPass(w, spec, p).w, Ready) <==> AllTrue(RunPass(w, spec, p).w)) <==>
              !(!spec.lakekeeper && !spec.auth.NoAuth? && !ConditionTrue(w, AuthReady) && TrinoUp(w, spec))
  {
    PassConditions(w, spec, p);
  }

  /** After every pass that errors, Ready is False. */
  lemma ErrorsAreNotReady(w: World, spec: Spec, p: Pass)
    requires RunPass(w, spec, p).Err?
    ensures Ready in RunPass(w, spec, p).w.status.conditions && !ConditionTrue(RunPass(w, spec, p).w, Ready)
  {
  }

  /** A pass never reports Ready while something that Ready waits for was down when it began. */
  lemma ReadyMeansUp(w: World, spec: Spec, p: Pass)
    requires ConditionTrue(RunPass(w, spec, p).w, Ready)
    ensures RunPass(w, spec, p).Ok? && PlatformUp(w, spec)
  {
    if RunPass(w, spec, p).Ok? {
      PassConditions(w, spec, p);
    }
  }
}
