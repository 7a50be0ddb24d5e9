/** The reconciler in the form in which the controller runs it: an object that changes the
    cluster and the DataPlatform's status call by call, with early returns. Every method is
    tied to the function of `Cluster` or `Reconcile` that the theorems are about. */
module Reconciler {
  import opened Strings
  import opened Wrappers
  import opened Cluster
  import opened Reconcile
  import opened Frames
  import opened ReadyTheorems
  import opened Ordering
  import opened SecretTheorems
  import opened Credentials
  import opened CatalogCalls

  // --- How a method ended, as the functions say it ---

  function Ended<T>(ok: bool, w: World, value: T): Res<T>
  {
    if ok then Ok(w, value) else Err(w)
  }

  /** An error ends the list. */
  lemma {:induction false} ActsStop(w: World, p: Pass, actions: seq<Action>, n: nat)
    requires n <= |actions| && Acts(w, p, actions[..n]).Err?
    ensures Acts(w, p, actions) == Acts(w, p, actions[..n])
  {
    if n == |actions| {
      assert actions[..n] == actions;
    } else {
      var m := |actions| - 1;
      assert actions[..m][..n] == actions[..n];
      ActsStop(w, p, actions[..m], n);
    }
  }

  // --- What each component promises, whatever its calls do ---

  /** The log stays in order, no secret that this spec does not render anew loses an entry,
      and a new one is complete and has the right entries. */
  ghost predicate Careful(spec: Spec, w: World, w': World, p: Pass)
  {
    Steps(spec, w, w') && forall k | !Rewritten(spec, k) :: Sown(w, w', k, p)
  }

  lemma PostgresPromises(spec: Spec, w: World, p: Pass)
    ensures var r := ReconcilePostgres(w, spec, p);
            && Careful(spec, w, r.w, p)
            && (if r.Ok? then PostgresDone(w, r.w, spec) else Fails(w, r.w, PostgresReady))
  {
    PostgresSteps(spec, w, p);
    forall k | !Rewritten(spec, k) ensures Sown(w, ReconcilePostgres(w, spec, p).w, k, p) {
      PostgresKeeps(spec, w, p, k);
    }
    if ReconcilePostgres(w, spec, p).Ok? {
      PostgresResult(w, spec, p);
    } else {
      PostgresFails(w, spec, p);
    }
  }

  lemma ObjectStorePromises(spec: Spec, w: World, p: Pass)
    ensures var r := ReconcileObjectStore(w, spec, p);
            && Careful(spec, w, r.w, p)
            && (if r.Ok? then StoreDone(w, r.w, spec, r.value.1) && StoreOwned(spec, r.w, r.value.0)
                else Fails(w, r.w, MinioReady))
  {
    ObjectStoreSteps(spec, w, p);
    forall k | !Rewritten(spec, k) ensures Sown(w, ReconcileObjectStore(w, spec, p).w, k, p) {
      ObjectStoreKeeps(spec, w, p, k);
    }
    if ReconcileObjectStore(w, spec, p).Ok? {
      ObjectStoreResult(w, spec, p);
      ObjectStoreOwned(spec, w, p);
    } else {
      ObjectStoreFails(w, spec, p);
    }
  }

  lemma AuthPromises(spec: Spec, w: World, p: Pass)
    ensures var r := ReconcileAuth(w, spec, p);
            && Careful(spec, w, r.w, p)
            && (if r.Ok? then AuthDone(w, r.w, spec, r.value.1) && OidcOwned(spec, r.w, r.value.0)
                else Fails(w, r.w, AuthReady))
  {
    AuthSteps(spec, w, p);
    forall k | !Rewritten(spec, k) ensures Sown(w, ReconcileAuth(w, spec, p).w, k, p) {
      AuthKeeps(spec, w, p, k);
    }
    if ReconcileAuth(w, spec, p).Ok? {
      AuthResult(w, spec, p);
      AuthOwned(spec, w, p);
    } else {
      AuthFails(w, spec, p);
    }
  }

  lemma AuthzPromises(spec: Spec, w: World, p: Pass)
    ensures var r := ReconcileAuthz(w, spec, p);
            && Careful(spec, w, r.w, p)
            && (if r.Ok? then AuthzDone(w, r.w, spec, r.value.1) else Fails(w, r.w, OpenFgaReady))
  {
    AuthzSteps(spec, w, p);
    forall k | !Rewritten(spec, k) ensures Sown(w, ReconcileAuthz(w, spec, p).w, k, p) {
      AuthzKeeps(spec, w, p, k);
    }
    if ReconcileAuthz(w, spec, p).Ok? {
      AuthzResult(w, spec, p);
    } else {
      AuthzFails(w, spec, p);
    }
  }

  /** LakeKeeper's gate is only opened by what the pass has seen. */
  ghost predicate GateSeen(spec: Spec, w: World, authReady: bool, fgaReady: bool)
  {
    (authReady ==> AuthSeen(spec) <= Elements(w.log)) && (fgaReady ==> FgaSeen(spec) <= Elements(w.log))
  }

  lemma LakekeeperPromises(spec: Spec, w: World, authReady: bool, fgaReady: bool, p: Pass)
    ensures var r := RunLakekeeper(w, spec, authReady, fgaReady, p);
            && (GateSeen(spec, w, authReady, fgaReady) ==> Careful(spec, w, r.w, p))
            && (if r.Ok? then LakekeeperDone(w, r.w, spec, authReady && fgaReady) else Fails(w, r.w, LakekeeperReady))
  {
    if GateSeen(spec, w, authReady, fgaReady) {
      RunLakekeeperSteps(spec, w, authReady, fgaReady, p);
    }
    forall k | !Rewritten(spec, k) ensures Sown(w, RunLakekeeper(w, spec, authReady, fgaReady, p).w, k, p) {
      RunLakekeeperKeeps(spec, w, authReady, fgaReady, p, k);
    }
    if RunLakekeeper(w, spec, authReady, fgaReady, p).Ok? {
      RunLakekeeperResult(w, spec, authReady, fgaReady, p);
    } else {
      RunLakekeeperFails(w, spec, authReady, fgaReady, p);
    }
  }

  /** The pass has seen everything that bootstrap needs. */
  ghost predicate CatalogSeen(spec: Spec, w: World, oidc: Oidc)
  {
    && StackSeen(spec) <= Elements(w.log)
    && (oidc.Oidc? <==> !spec.auth.NoAuth?) && (spec.auth.EmbeddedKeycloak? ==> oidc.managed)
  }

  lemma WarehouseKeepsObjects(spec: Spec, w: World, oidc: Oidc, p: Pass)
    ensures ReconcileWarehouse(w, spec, oidc, p).w.objects == w.objects
  {
  }

  lemma WarehousePromises(spec: Spec, w: World, oidc: Oidc, p: Pass)
    ensures var r := ReconcileWarehouse(w, spec, oidc, p);
            && (CatalogSeen(spec, w, oidc) ==> Steps(spec, w, r.w))
            && (Known(spec, oidc) ==> Adds(w, r.w, r.Ok?, if spec.catalogClient then Filling(spec) else []))
  {
    if CatalogSeen(spec, w, oidc) {
      WarehouseSteps(spec, w, oidc, p);
    }
    if Known(spec, oidc) {
      WarehouseAdds(w, spec, oidc, p);
    }
  }

  lemma WarehouseTells(spec: Spec, w: World, oidc: Oidc, p: Pass)
    ensures var r := ReconcileWarehouse(w, spec, oidc, p);
            if r.Ok? then OthersKept(w, r.w, WarehouseReady) && ConditionTrue(r.w, WarehouseReady) == spec.catalogClient
            else Fails(w, r.w, WarehouseReady)
  {
    if ReconcileWarehouse(w, spec, oidc, p).Ok? {
      WarehouseResult(w, spec, oidc, p);
    } else {
      WarehouseFails(w, spec, oidc, p);
    }
  }

  /** What a stack without error has done: every condition says what was up, and what it hands
      on is what the owners' secrets hold. */
  ghost predicate StackDone(spec: Spec, w: World, w': World, stack: Stack)
  {
    && ConditionTrue(w', PostgresReady) == PostgresUp(w, spec) && ConditionTrue(w', MinioReady) == StoreUp(w, spec)
    && ConditionTrue(w', AuthReady) == AuthUp(w, spec) && ConditionTrue(w', OpenFgaReady) == FgaUp(w, spec)
    && ConditionTrue(w', LakekeeperReady) == LakekeeperUp(w, spec)
    && stack.progressing == !(StackUp(w, spec) && spec.catalogClient)
    && StoreOwned(spec, w', stack.store) && OidcOwned(spec, w', stack.oidc)
  }

  lemma StackPromises(spec: Spec, w: World, p: Pass)
    ensures var r := ReconcileLakekeeperStack(w, spec, p);
            Careful(spec, w, r.w, p) && (spec.lakekeeper && r.Ok? ==> StackDone(spec, w, r.w, r.value))
  {
    StackSteps(spec, w, p);
    forall k | !Rewritten(spec, k) ensures Sown(w, ReconcileLakekeeperStack(w, spec, p).w, k, p) {
      StackKeeps(spec, w, p, k);
    }
    if spec.lakekeeper && ReconcileLakekeeperStack(w, spec, p).Ok? {
      StackConditions(w, spec, p);
      StackOwned(spec, w, p);
    }
  }

  /** OPA's secret holds the client that it was given. */
  lemma OpaPromises(spec: Spec, w: World, oidc: Oidc, fga: Fga, p: Pass)
    ensures var r := ReconcileOpa(w, spec, oidc, fga, p);
            && Steps(spec, w, r.w)
            && (r.Ok? ==> Frame(w, r.w) && Grown(w, r.w))
            && (r.Ok? && spec.authz.EmbeddedOpenFga? && oidc.Oidc? && !fga.NoFga? ==>
                OpaRendered(r.w, spec.authz.ns, oidc))
  {
    OpaSteps(spec, w, oidc, fga, p);
    if ReconcileOpa(w, spec, oidc, fga, p).Ok? {
      OpaResult(w, spec, oidc, fga, p);
      if spec.authz.EmbeddedOpenFga? && oidc.Oidc? && !fga.NoFga? {
        OpaRenders(spec, w, oidc, fga, p);
      }
    }
  }

  lemma TrinoStackPromises(spec: Spec, w: World, stack: Stack, p: Pass)
    ensures var r := ReconcileTrinoStack(w, spec, stack, p);
            && Steps(spec, w, r.w)
            && (stack.oidc.NoOidc? || DeploysOpa(spec) || !spec.authz.EmbeddedOpenFga? ==> Careful(spec, w, r.w, p))
            && (r.Ok? ==> TrinoDone(w, r.w, spec, r.value))
            && (r.Ok? && spec.trino.EmbeddedTrino? && stack.store.Store? ==>
                CatalogRendered(r.w, spec.trino.ns, stack.store, stack.oidc))
  {
    TrinoStackSteps(spec, w, stack, p);
    if stack.oidc.NoOidc? || DeploysOpa(spec) || !spec.authz.EmbeddedOpenFga? {
      forall k | !Rewritten(spec, k) ensures Sown(w, ReconcileTrinoStack(w, spec, stack, p).w, k, p) {
        TrinoStackKeeps(spec, w, stack, p, k);
      }
    }
    if ReconcileTrinoStack(w, spec, stack, p).Ok? {
      TrinoStackResult(w, spec, stack, p);
      if spec.trino.EmbeddedTrino? && stack.store.Store? {
        var shared := TrinoStackRenders(spec, w, stack, p);
      }
    }
  }

  class DataPlatformReconciler {
    // The cluster.
    var namespaces: set<string>
    var secrets: map<SecretKey, SecretData>
    var workloads: map<Workload, bool>
    var jobs: map<string, Job>
    var plain: set<Plain>
    // The DataPlatform's status.
    var conditions: map<Condition, bool>
    var rowFilterStoreId: string
    // The current pass.
    var calls: nat
    var log: seq<Event>

    ghost function State(): World
      reads this
    {
      World(Objects(namespaces, secrets, workloads, jobs, plain), Status(conditions, rowFilterStoreId), calls, log)
    }

    constructor ()
      ensures State() == World(Objects({}, map[], map[], map[], {}), Status(map[], ""), 0, [])
    {
      namespaces, secrets, workloads, jobs, plain := {}, map[], map[], map[], {};
      conditions, rowFilterStoreId := map[], "";
      calls, log := 0, [];
    }

    /** One request to the API server. */
    method Call(p: Pass) returns (o: Outcome)
      modifies this`calls
      ensures calls == old(calls) + 1 && o == p.outcome(old(calls))
    {
      o := p.outcome(calls);
      calls := calls + 1;
    }

    method SetCondition(c: Condition, isTrue: bool)
      modifies this`conditions
      ensures State() == Set(old(State()), c, isTrue)
    {
      conditions := conditions[c := isTrue];
    }

    method EnsureNamespace(p: Pass, ns: string) returns (ok: bool)
      modifies this
      ensures Ended(ok, State(), []) == Act(old(State()), p, Action.EnsureNamespace(ns))
    {
      var o := Call(p);
      if !o.Done? {
        return false;
      }
      if ns in namespaces {
        return true;
      }
      o := Call(p);
      if !o.Lost? {
        namespaces := namespaces + {ns};
      }
      return o.Done?;
    }

    method EnsureGeneratedSecret(p: Pass, key: SecretKey, data: SecretData) returns (ok: bool)
      modifies this
      ensures Ended(ok, State(), ()) == EnsureGenerated(old(State()), p, key, data)
    {
      var o := Call(p);
      if !o.Done? {
        return false;
      }
      if key in secrets {
        return true;
      }
      o := Call(p);
      if !o.Lost? {
        secrets := secrets[key := data];
      }
      return o.Done?;
    }

    /** `ensurePostgresSecret`, `ensureMinioSecret`, `ensureEncryptionSecret`. */
    method EnsureSecretOnce(p: Pass, key: SecretKey, template: Template) returns (ok: bool)
      modifies this
      ensures Ended(ok, State(), []) == Act(old(State()), p, GenerateOnce(key, template))
    {
      var o := Call(p);
      if o.Done? && key in secrets {
        return true;
      }
      ok := EnsureGeneratedSecret(p, key, Instantiate(key, template, p));
    }

    /** `ensureKeycloakRealmKey`, and the first half of `ensureKeycloakSecrets`. */
    method EnsureSecretChecked(p: Pass, key: SecretKey, template: Template) returns (ok: bool)
      modifies this
      ensures Ended(ok, State(), []) == Act(old(State()), p, GenerateChecked(key, template))
    {
      var o := Call(p);
      if !o.Done? {
        return false;
      }
      if key in secrets {
        return true;
      }
      ok := EnsureGeneratedSecret(p, key, Instantiate(key, template, p));
    }

    /** `ensureOIDCSecretKeys`, on a secret that was just read. */
    method EnsureOidcSecretKeys(p: Pass, key: SecretKey) returns (ok: bool)
      requires key in secrets
      modifies this
      ensures var w := old(State());
              var data := w.objects.secrets[key];
              Ended(ok, State(), ()) ==
              if OpaClientId in data && OpaClientSecret in data then Ok(w, ())
              else Write(w, p, WithSecret(w, key, RepairedOidcData(key, data, p)))
    {
      var data := secrets[key];
      var changed := false;
      if OpaClientId !in data {
        data := data[OpaClientId := Text("opa")];
        changed := true;
      }
      if OpaClientSecret !in data {
        data := data[OpaClientSecret := Text(p.random(key, OpaClientSecret))];
        changed := true;
      }
      if !changed {
        return true;
      }
      var o := Call(p);
      if !o.Lost? {
        secrets := secrets[key := data];
      }
      return o.Done?;
    }

    /** The second half of `ensureKeycloakSecrets`. */
    method EnsureOidcClients(p: Pass, key: SecretKey) returns (ok: bool)
      modifies this
      ensures Ended(ok, State(), []) == Act(old(State()), p, EnsureOidc(key))
    {
      var o := Call(p);
      if !o.Done? {
        return false;
      }
      if key !in secrets {
        ok := EnsureGeneratedSecret(p, key, Instantiate(key, NEW_OIDC_TEMPLATE, p));
      } else {
        ok := EnsureOidcSecretKeys(p, key);
      }
    }

    method GetSecretData(p: Pass, key: SecretKey, field: Field) returns (ok: bool, value: Value)
      modifies this
      ensures Ended(ok, State(), [value]) == ActGet(old(State()), p, key, field)
    {
      value := Text("");
      var o := Call(p);
      if !o.Done? || key !in secrets || field !in secrets[key] {
        return false, value;
      }
      return true, secrets[key][field];
    }

    /** `apply` on a Secret. */
    method ApplySecret(p: Pass, key: SecretKey, data: SecretData) returns (ok: bool)
      modifies this
      ensures Ended(ok, State(), []) == Act(old(State()), p, Rewrite(key, data))
    {
      var o := Call(p);
      if !o.Lost? {
        secrets := secrets[key := data];
      }
      return o.Done?;
    }

    /** `apply` on a StatefulSet or a Deployment. */
    method ApplyWorkload(p: Pass, wl: Workload) returns (ok: bool)
      modifies this
      ensures Ended(ok, State(), []) == Act(old(State()), p, Apply(wl))
    {
      var o := Call(p);
      if !o.Lost? {
        workloads := workloads[wl := wl in workloads && workloads[wl]];
        log := log + [Applied(wl)];
      }
      return o.Done?;
    }

    /** `apply` on a Service or a ConfigMap. */
    method ApplyPlain(p: Pass, o: Plain) returns (ok: bool)
      modifies this
      ensures Ended(ok, State(), []) == Act(old(State()), p, Action.ApplyPlain(o))
    {
      var outcome := Call(p);
      if !outcome.Lost? {
        plain := plain + {o};
      }
      return outcome.Done?;
    }

    /** One action. */
    method Perform(p: Pass, a: Action) returns (ok: bool, values: seq<Value>)
      modifies this
      ensures Ended(ok, State(), values) == Act(old(State()), p, a)
    {
      values := [];
      match a
      case EnsureNamespace(ns) => ok := EnsureNamespace(p, ns);
      case Generate(key, template) => ok := EnsureGeneratedSecret(p, key, Instantiate(key, template, p));
      case GenerateOnce(key, template) => ok := EnsureSecretOnce(p, key, template);
      case GenerateChecked(key, template) => ok := EnsureSecretChecked(p, key, template);
      case EnsureOidc(key) => ok := EnsureOidcClients(p, key);
      case Rewrite(key, data) => ok := ApplySecret(p, key, data);
      case Apply(wl) => ok := ApplyWorkload(p, wl);
      case ApplyPlain(o) => ok := ApplyPlain(p, o);
      case DiscardOldConfig(ns) =>
        var outcome := Call(p);
        if !outcome.Lost? {
          plain := plain - {OldTrinoConfig(ns)};
        }
        ok := true;
      case Get(key, field) =>
        var value;
        ok, value := GetSecretData(p, key, field);
        values := [value];
    }

    /** Actions in order; the first error ends them. */
    method PerformAll(p: Pass, actions: seq<Action>) returns (ok: bool, values: seq<Value>)
      modifies this
      ensures Ended(ok, State(), values) == Acts(old(State()), p, actions)
    {
      values := [];
      for i := 0 to |actions|
        invariant Acts(old(State()), p, actions[..i]) == Ok(State(), values)
      {
        assert actions[..i + 1][..i] == actions[..i];
        var more;
        ok, more := Perform(p, actions[i]);
        if !ok {
          ActsStop(old(State()), p, actions, i + 1);
          return;
        }
        values := values + more;
      }
      assert actions[..|actions|] == actions;
      return true, values;
    }

    /** `statefulSetReady` and `deploymentReady`. */
    method CheckReady(p: Pass, wl: Workload) returns (ok: bool, ready: bool)
      modifies this
      ensures Ended(ok, State(), ready) == WorkloadReady(old(State()), p, wl)
    {
      ready := false;
      var o := Call(p);
      if !o.Done? || wl !in workloads {
        return false, ready;
      }
      ready := workloads[wl];
      log := log + [Saw(wl, ready)];
      return true, ready;
    }

    // --- Postgres ---

    method ReconcileEmbeddedPostgres(p: Pass, ns: string, db: string) returns (ok: bool)
      modifies this
      ensures Ended(ok, State(), ()) == OnError(PostgresReady, PostgresEmbedded(old(State()), ns, db, p))
    {
      var values, ready;
      ok, values := PerformAll(p, PostgresActions(ns, db));
      if !ok {
        SetCondition(PostgresReady, false);
        return;
      }
      ok, ready := CheckReady(p, Workload(ns, Postgres));
      SetCondition(PostgresReady, ok && ready);
    }

    /** `externalPostgres`. */
    method UseExternalPostgres(p: Pass, ns: string, host: string, credentials: Option<CredentialsRef>)
      returns (ok: bool)
      modifies this
      ensures Ended(ok, State(), ()) == OnError(PostgresReady, PostgresExternal(old(State()), ns, host, credentials, p))
    {
      if host == "" || credentials.None? || credentials.value.name == NO_NAME {
        SetCondition(PostgresReady, false);
        return false;
      }
      var ref := credentials.value;
      var secretNs := ref.ns;
      if secretNs == "" {
        secretNs := ns;
      }
      var values;
      ok, values := PerformAll(p, CredentialActions(SecretKey(secretNs, ref.name), ref));
      SetCondition(PostgresReady, ok);
    }

    method ReconcilePostgres(p: Pass, spec: Spec) returns (ok: bool)
      modifies this
      ensures Ended(ok, State(), ()) == Reconcile.ReconcilePostgres(old(State()), spec, p)
      ensures Careful(spec, old(State()), State(), p)
      ensures ok ==> PostgresDone(old(State()), State(), spec)
      ensures !ok ==> Fails(old(State()), State(), PostgresReady)
    {
      PostgresPromises(spec, State(), p);
      match spec.postgres
      case EmbeddedPostgres(db) => ok := ReconcileEmbeddedPostgres(p, spec.ns, db);
      case ExternalPostgres(host, credentials) => ok := UseExternalPostgres(p, spec.ns, host, credentials);
    }

    // --- Object store ---

    /** `externalObjectStore`. */
    method UseExternalStore(p: Pass, s3: Option<S3Spec>) returns (ok: bool, store: Store)
      modifies this
      ensures Ended(ok, State(), (store, true)) == OnError(MinioReady, ExternalObjectStore(old(State()), s3, p))
    {
      store := NoStore;
      if s3.None? || s3.value.credentials.None? || s3.value.credentials.value.name == NO_NAME {
        SetCondition(MinioReady, false);
        return false, store;
      }
      var ref := s3.value.credentials.value;
      var values;
      ok, values := PerformAll(p, CredentialActions(SecretKey(ref.ns, ref.name), ref));
      store := StoreOf(values, s3.value.sts);
      SetCondition(MinioReady, ok);
    }

    method EnsureMinioBucket(p: Pass, ns: string, store: Store) returns (ok: bool, made: bool)
      modifies this
      ensures Ended(ok, State(), made) == Reconcile.EnsureMinioBucket(old(State()), ns, store, p)
    {
      made := false;
      ok := ApplySecret(p, SecretKey(ns, SecretMinioMc), map[McHost := Built(McHost, StoreParts(store))]);
      if !ok {
        return;
      }
      var o := Call(p);
      if !o.Done? {
        return false, false;
      }
      if ns in jobs {
        ok, made := FollowBucketJob(p, ns);
        return;
      }
      o := Call(p);
      if !o.Lost? {
        jobs := jobs[ns := NEW_JOB];
      }
      return o.Done?, false;
    }

    /** What becomes of a bucket job that exists. */
    method FollowBucketJob(p: Pass, ns: string) returns (ok: bool, made: bool)
      requires ns in jobs
      modifies this
      ensures var w := old(State());
              var job := w.objects.jobs[ns];
              Ended(ok, State(), made) ==
              if job.deleting then Ok(w, false)
              else if JobSucceeded(job) then Ok(Log(w, SawBucket), true)
              else if JobFailed(job) || !WritableConfig(job) then
                (match Write(w, p, WithJob(w, ns, job.(deleting := true)))
                 case Ok(w', _) => Ok(w', false)
                 case Err(w') => Err(w'))
              else Ok(w, false)
    {
      var job := jobs[ns];
      if job.deleting {
        return true, false;
      }
      var succeeded := CheckJobSucceeded(job);
      if succeeded {
        log := log + [SawBucket];
        return true, true;
      }
      var failed := CheckJobFailed(job);
      var writable := CheckWritableConfig(job);
      if failed || !writable {
        var o := Call(p);
        if !o.Lost? {
          jobs := jobs[ns := job.(deleting := true)];
        }
        return o.Done?, false;
      }
      return true, false;
    }

    method ReconcileMinio(p: Pass, ns: string) returns (ok: bool, store: Store, ready: bool)
      modifies this
      ensures Ended(ok, State(), (store, ready)) == OnError(MinioReady, Reconcile.ReconcileMinio(old(State()), ns, p))
    {
      var values;
      ok, values := PerformAll(p, MinioActions(ns));
      store, ready := StoreOf(values, false), false;
      if !ok {
        SetCondition(MinioReady, false);
        return;
      }
      ok, ready := CheckReady(p, Workload(ns, Minio));
      if !ok || !ready {
        SetCondition(MinioReady, false);
        return;
      }
      ok, ready := EnsureMinioBucket(p, ns, store);
      SetCondition(MinioReady, ok && ready);
    }

    method ReconcileObjectStore(p: Pass, spec: Spec) returns (ok: bool, store: Store, ready: bool)
      modifies this
      ensures Ended(ok, State(), (store, ready)) == Reconcile.ReconcileObjectStore(old(State()), spec, p)
      ensures Careful(spec, old(State()), State(), p)
      ensures ok ==> StoreDone(old(State()), State(), spec, ready) && StoreOwned(spec, State(), store)
      ensures !ok ==> Fails(old(State()), State(), MinioReady)
    {
      ObjectStorePromises(spec, State(), p);
      match spec.storage
      case ExternalS3(s3) =>
        ok, store := UseExternalStore(p, s3);
        ready := true;
      case EmbeddedMinio(ns) =>
        ok, store, ready := ReconcileMinio(p, ns);
    }

    // --- Identity provider ---

    method ReconcileKeycloak(p: Pass, ns: string) returns (ok: bool, oidc: Oidc, ready: bool)
      modifies this
      ensures Ended(ok, State(), (oidc, ready)) == OnError(AuthReady, Reconcile.ReconcileKeycloak(old(State()), ns, p))
    {
      var values;
      ready := false;
      ok, values := PerformAll(p, KeycloakActions(ns));
      oidc := EmbeddedOidcOf(values);
      if !ok {
        SetCondition(AuthReady, false);
        return;
      }
      ok, ready := CheckReady(p, Workload(ns, Keycloak));
      SetCondition(AuthReady, ok && ready);
    }

    /** `externalOIDC`. */
    method UseExternalOidc(p: Pass, issuer: string, clientId: string, credentials: Option<OidcRef>)
      returns (ok: bool, oidc: Oidc)
      modifies this
      ensures Ended(ok, State(), (oidc, true)) ==
                OnError(AuthReady, ExternalOidcConfig(old(State()), issuer, clientId, credentials, p))
    {
      oidc := NoOidc;
      if issuer == "" || credentials.None? || credentials.value.name == NO_NAME {
        SetCondition(AuthReady, false);
        return false, oidc;
      }
      var values;
      ok, values := PerformAll(p, OidcActions(credentials.value));
      oidc := ExternalOidcOf(credentials.value, clientId, values);
      SetCondition(AuthReady, ok);
    }

    method ReconcileAuth(p: Pass, spec: Spec) returns (ok: bool, oidc: Oidc, ready: bool)
      modifies this
      ensures Ended(ok, State(), (oidc, ready)) == Reconcile.ReconcileAuth(old(State()), spec, p)
      ensures Careful(spec, old(State()), State(), p)
      ensures ok ==> AuthDone(old(State()), State(), spec, ready) && OidcOwned(spec, State(), oidc)
      ensures !ok ==> Fails(old(State()), State(), AuthReady)
    {
      AuthPromises(spec, State(), p);
      match spec.auth
      case NoAuth =>
        SetCondition(AuthReady, true);
        return true, NoOidc, true;
      case EmbeddedKeycloak(ns) =>
        ok, oidc, ready := ReconcileKeycloak(p, ns);
      case ExternalOidc(issuer, clientId, credentials) =>
        ok, oidc := UseExternalOidc(p, issuer, clientId, credentials);
        ready := true;
    }

    // --- OpenFGA ---

    method ReconcileAccessStore(p: Pass, ns: string, needsStore: bool, catalogClient: bool)
      returns (ok: bool, id: string)
      modifies this
      ensures Ended(ok, State(), id) == Reconcile.ReconcileAccessStore(old(State()), ns, needsStore, catalogClient, p)
    {
      id := "";
      if !needsStore {
        rowFilterStoreId := "";
        return true, id;
      }
      if !catalogClient {
        return false, id;
      }
      calls, log := calls + 1, log + [StoreRequested(ns)];
      if p.provisioned.None? {
        return false, id;
      }
      rowFilterStoreId := p.provisioned.value;
      return true, p.provisioned.value;
    }

    /** `reconcileOpenFGA` after its database is ready. */
    method RunOpenFga(p: Pass, ns: string, needsStore: bool, catalogClient: bool)
      returns (ok: bool, fga: Fga, ready: bool)
      modifies this
      ensures Ended(ok, State(), (fga, ready)) ==
              OnError(OpenFgaReady, Reconcile.RunOpenFga(old(State()), ns, needsStore, catalogClient, p))
    {
      var values;
      ok, values := PerformAll(p, RunOpenFgaActions(ns));
      fga, ready := Fga(ValueAt(values, 1), ""), false;
      if !ok {
        SetCondition(OpenFgaReady, false);
        return;
      }
      ok, ready := CheckReady(p, Workload(ns, OpenFga));
      if !ok || !ready {
        SetCondition(OpenFgaReady, false);
        return;
      }
      var id;
      ok, id := ReconcileAccessStore(p, ns, needsStore, catalogClient);
      fga := fga.(storeId := id);
      SetCondition(OpenFgaReady, ok);
    }

    method ReconcileOpenFga(p: Pass, ns: string, needsStore: bool, catalogClient: bool)
      returns (ok: bool, fga: Fga, ready: bool)
      modifies this
      ensures Ended(ok, State(), (fga, ready)) ==
              OnError(OpenFgaReady, Reconcile.ReconcileOpenFga(old(State()), ns, needsStore, catalogClient, p))
    {
      var values, databaseReady;
      fga, ready := FgaStarting, false;
      ok, values := PerformAll(p, OpenFgaActions(ns));
      if !ok {
        SetCondition(OpenFgaReady, false);
        return;
      }
      ok, databaseReady := CheckReady(p, Workload(ns, Postgres));
      if !ok || !databaseReady {
        SetCondition(OpenFgaReady, false);
        return;
      }
      ok, fga, ready := RunOpenFga(p, ns, needsStore, catalogClient);
    }

    method ReconcileAuthz(p: Pass, spec: Spec) returns (ok: bool, fga: Fga, ready: bool)
      modifies this
      ensures Ended(ok, State(), (fga, ready)) == Reconcile.ReconcileAuthz(old(State()), spec, p)
      ensures Careful(spec, old(State()), State(), p)
      ensures ok ==> AuthzDone(old(State()), State(), spec, ready)
      ensures !ok ==> Fails(old(State()), State(), OpenFgaReady)
    {
      AuthzPromises(spec, State(), p);
      match spec.authz
      case NoAuthz =>
        SetCondition(OpenFgaReady, true);
        return true, NoFga, true;
      case ExternalOpenFga =>
        SetCondition(OpenFgaReady, false);
        return false, NoFga, false;
      case EmbeddedOpenFga(ns, _, _, _) =>
        ok, fga, ready := ReconcileOpenFga(p, ns, NeedsStore(spec), spec.catalogClient);
    }

    // --- LakeKeeper and its warehouse ---

    method ReconcileLakekeeper(p: Pass, ns: string) returns (ok: bool)
      modifies this
      ensures Ended(ok, State(), ()) == Reconcile.ReconcileLakekeeper(old(State()), ns, p)
    {
      var values, ready;
      ok, values := PerformAll(p, LakekeeperActions(ns));
      if !ok {
        SetCondition(LakekeeperReady, false);
        return;
      }
      ok, ready := CheckReady(p, Workload(ns, Lakekeeper));
      SetCondition(LakekeeperReady, ok && ready);
    }

    method CallCatalog(p: Pass, e: Event) returns (ok: bool)
      modifies this
      ensures Ended(ok, State(), ()) == CatalogCall(old(State()), p, e)
    {
      var o := Call(p);
      if !o.Lost? {
        log := log + [e];
      }
      return o.Done?;
    }

    method FillCatalog(p: Pass, oidc: Oidc) returns (ok: bool)
      modifies this
      ensures Ended(ok, State(), ()) == OnError(WarehouseReady, Reconcile.FillCatalog(old(State()), oidc, p))
    {
      ok := true;
      if oidc.Oidc? && oidc.managed {
        ok := CallCatalog(p, GrantsEnsured);
      }
      if ok {
        ok := CallCatalog(p, WarehouseEnsured);
      }
      SetCondition(WarehouseReady, ok);
    }

    method ReconcileWarehouse(p: Pass, spec: Spec, oidc: Oidc) returns (ok: bool)
      modifies this
      ensures Ended(ok, State(), ()) == Reconcile.ReconcileWarehouse(old(State()), spec, oidc, p)
      ensures State().objects == old(State()).objects
      ensures CatalogSeen(spec, old(State()), oidc) ==> Steps(spec, old(State()), State())
      ensures Known(spec, oidc) ==>
                Adds(old(State()), State(), ok, if spec.catalogClient then Filling(spec) else [])
      ensures ok ==>
                OthersKept(old(State()), State(), WarehouseReady)
                  && ConditionTrue(State(), WarehouseReady) == spec.catalogClient
      ensures !ok ==> Fails(old(State()), State(), WarehouseReady)
    {
      WarehousePromises(spec, State(), oidc, p);
      WarehouseTells(spec, State(), oidc, p);
      WarehouseKeepsObjects(spec, State(), oidc, p);
      ok := RunWarehouse(p, spec, oidc);
    }

    /** Token, bootstrap, grants, warehouse. */
    method RunWarehouse(p: Pass, spec: Spec, oidc: Oidc) returns (ok: bool)
      modifies this
      ensures Ended(ok, State(), ()) == Reconcile.ReconcileWarehouse(old(State()), spec, oidc, p)
    {
      if !spec.catalogClient {
        SetCondition(WarehouseReady, false);
        return true;
      }
      if oidc.Oidc? {
        var o := Call(p);
        if !o.Done? {
          SetCondition(WarehouseReady, false);
          return false;
        }
        log := log + [TokenObtained];
      }
      ok := CallCatalog(p, Bootstrapped);
      if !ok {
        SetCondition(WarehouseReady, false);
        return;
      }
      ok := FillCatalog(p, oidc);
    }

    /** The conditions of a platform without LakeKeeper. */
    method DisableLakekeeper(spec: Spec)
      modifies this
      ensures State() == LakekeeperDisabled(old(State()), spec)
    {
      SetCondition(MinioReady, true);
      SetCondition(PostgresReady, true);
      SetCondition(LakekeeperReady, true);
      SetCondition(WarehouseReady, true);
      SetCondition(OpenFgaReady, true);
      if spec.auth.NoAuth? {
        SetCondition(AuthReady, true);
      }
    }

    /** Namespace, database, object store. */
    method ReconcileStorage(p: Pass, spec: Spec) returns (ok: bool, store: Store, ready: bool)
      modifies this
      ensures Ended(ok, State(), (store, ready)) == Reconcile.ReconcileStorage(old(State()), spec, p)
    {
      store, ready := NoStore, false;
      ok := EnsureNamespace(p, spec.ns);
      if !ok {
        return;
      }
      ok := ReconcilePostgres(p, spec);
      if !ok {
        return;
      }
      ok, store, ready := ReconcileObjectStore(p, spec);
    }

    /** LakeKeeper, once the identity provider and OpenFGA are ready. */
    method RunLakekeeper(p: Pass, spec: Spec, authReady: bool, fgaReady: bool) returns (ok: bool)
      modifies this
      ensures Ended(ok, State(), ()) == Reconcile.RunLakekeeper(old(State()), spec, authReady, fgaReady, p)
      ensures GateSeen(spec, old(State()), authReady, fgaReady) ==> Careful(spec, old(State()), State(), p)
      ensures ok ==> LakekeeperDone(old(State()), State(), spec, authReady && fgaReady)
      ensures !ok ==> Fails(old(State()), State(), LakekeeperReady)
    {
      LakekeeperPromises(spec, State(), authReady, fgaReady, p);
      if authReady && fgaReady {
        ok := ReconcileLakekeeper(p, spec.ns);
      } else {
        SetCondition(LakekeeperReady, false);
        ok := true;
      }
    }

    /** The warehouse, once everything that it needs is ready. */
    method FinishStack(p: Pass, spec: Spec, store: (Store, bool), auth: (Oidc, bool), fga: (Fga, bool))
      returns (ok: bool, stack: Stack)
      modifies this
      ensures Ended(ok, State(), stack) == Reconcile.FinishStack(old(State()), spec, store, auth, fga, p)
    {
      var postgresReady := PostgresReady in conditions && conditions[PostgresReady];
      var lakekeeperReady := LakekeeperReady in conditions && conditions[LakekeeperReady];
      var progressing := !postgresReady || !lakekeeperReady || !auth.1 || !fga.1 || !store.1;
      stack := Stack(true, store.0, auth.0, fga.0);
      if progressing {
        return true, stack;
      }
      ok := ReconcileWarehouse(p, spec, auth.0);
      stack := stack.(progressing := !(WarehouseReady in conditions && conditions[WarehouseReady]));
    }

    method ReconcileLakekeeperStack(p: Pass, spec: Spec) returns (ok: bool, stack: Stack)
      modifies this
      ensures Ended(ok, State(), stack) == Reconcile.ReconcileLakekeeperStack(old(State()), spec, p)
      ensures Careful(spec, old(State()), State(), p)
      ensures spec.lakekeeper && ok ==> StackDone(spec, old(State()), State(), stack)
    {
      StackPromises(spec, State(), p);
      stack := Stack(false, NoStore, NoOidc, NoFga);
      if !spec.lakekeeper {
        DisableLakekeeper(spec);
        return true, stack;
      }
      var store, storeReady;
      ok, store, storeReady := ReconcileStorage(p, spec);
      if !ok {
        return;
      }
      var oidc, authReady;
      ok, oidc, authReady := ReconcileAuth(p, spec);
      if !ok {
        return;
      }
      var fga, fgaReady;
      ok, fga, fgaReady := ReconcileAuthz(p, spec);
      if !ok {
        return;
      }
      ok := RunLakekeeper(p, spec, authReady, fgaReady);
      if !ok {
        return;
      }
      ok, stack := FinishStack(p, spec, (store, storeReady), (oidc, authReady), (fga, fgaReady));
    }

    // --- Trino ---

    method ReconcileOpa(p: Pass, spec: Spec, oidc: Oidc, fga: Fga) returns (ok: bool)
      modifies this
      ensures Ended(ok, State(), ()) == Reconcile.ReconcileOpa(old(State()), spec, oidc, fga, p)
      ensures Steps(spec, old(State()), State())
      ensures ok ==> Frame(old(State()), State()) && Grown(old(State()), State())
      ensures ok && spec.authz.EmbeddedOpenFga? && oidc.Oidc? && !fga.NoFga? ==>
                OpaRendered(State(), spec.authz.ns, oidc)
    {
      OpaPromises(spec, State(), oidc, fga, p);
      if fga.NoFga? || oidc.NoOidc? || !spec.authz.EmbeddedOpenFga? {
        return true;
      }
      var values, ready;
      ok, values := PerformAll(p, OpaActions(spec.authz.ns, oidc));
      if !ok {
        return;
      }
      ok, ready := CheckReady(p, Workload(spec.authz.ns, Opa));
    }

    method ReconcileTrinoWorkers(p: Pass, ns: string, workers: nat) returns (ok: bool)
      modifies this
      ensures Ended(ok, State(), ()) == Reconcile.ReconcileTrinoWorkers(old(State()), ns, workers, p)
    {
      var wl := Workload(ns, TrinoWorker);
      if workers > 0 {
        ok := ApplyWorkload(p, wl);
        return;
      }
      var o := Call(p);
      if !o.Done? {
        return false;
      }
      if wl !in workloads {
        return true;
      }
      o := Call(p);
      if !o.Lost? {
        workloads := workloads - {wl};
      }
      return o.Done?;
    }

    method ReconcileTrino(p: Pass, ns: string, hasPublicUrl: bool, workers: nat, store: Store, oidc: Oidc,
                          opa: OpaUse) returns (ok: bool)
      modifies this
      ensures Ended(ok, State(), ()) ==
              OnError(TrinoReady,
                      Reconcile.ReconcileTrino(old(State()), ns, hasPublicUrl, workers, store, oidc, opa, p))
    {
      var shared, values;
      ok, shared := PerformAll(p, SharedSecretActions(ns, oidc.Oidc? && hasPublicUrl));
      if !ok {
        SetCondition(TrinoReady, false);
        return;
      }
      ok, values := PerformAll(p, TrinoActions(ns, store, oidc, opa, shared));
      if !ok {
        SetCondition(TrinoReady, false);
        return;
      }
      ok := ReconcileTrinoWorkers(p, ns, workers);
      if !ok {
        SetCondition(TrinoReady, false);
        return;
      }
      var ready;
      ok, ready := CheckReady(p, Workload(ns, Trino));
      SetCondition(TrinoReady, ok && ready);
    }

    method ReconcileTrinoStack(p: Pass, spec: Spec, stack: Stack) returns (ok: bool, progressing: bool)
      modifies this
      ensures Ended(ok, State(), progressing) == Reconcile.ReconcileTrinoStack(old(State()), spec, stack, p)
      ensures stack.oidc.NoOidc? || DeploysOpa(spec) || !spec.authz.EmbeddedOpenFga? ==>
                Careful(spec, old(State()), State(), p)
      ensures ok ==> TrinoDone(old(State()), State(), spec, progressing)
      ensures ok && spec.trino.EmbeddedTrino? && stack.store.Store? ==>
                CatalogRendered(State(), spec.trino.ns, stack.store, stack.oidc)
    {
      TrinoStackPromises(spec, State(), stack, p);
      progressing := false;
      match spec.trino
      case NoTrino =>
        SetCondition(TrinoReady, true);
        return true, false;
      case EmbeddedTrino(ns, hasPublicUrl, workers) =>
        ok := EnsureNamespace(p, ns);
        if !ok {
          return;
        }
        ok := ReconcileOpa(p, spec, stack.oidc, stack.fga);
        if !ok {
          return;
        }
        var opa := OpaUseOf(spec.authz, stack.oidc, stack.fga);
        ok := ReconcileTrino(p, ns, hasPublicUrl, workers, stack.store, stack.oidc, opa);
        progressing := !(TrinoReady in conditions && conditions[TrinoReady]);
    }

    // --- The pass ---

    /** The pass up to the Ready condition of a successful one. */
    method RunStacks(p: Pass, spec: Spec) returns (ok: bool)
      modifies this
      ensures Ended(ok, State(), ()) == PassBody(old(State()), spec, p)
    {
      calls, log := 0, [];
      var stack, trinoProgressing;
      ok, stack := ReconcileLakekeeperStack(p, spec);
      if !ok {
        return;
      }
      ok, trinoProgressing := ReconcileTrinoStack(p, spec, stack);
      if !ok {
        return;
      }
      SetCondition(Ready, !(stack.progressing || trinoProgressing));
    }

    method RunPass(p: Pass, spec: Spec) returns (ok: bool)
      modifies this
      ensures Ended(ok, State(), ()) == Reconcile.RunPass(old(State()), spec, p)
    {
      ok := RunStacks(p, spec);
      if !ok {
        SetCondition(Ready, false);
      }
    }

    /** `reconcile`, with what every pass promises: Ready says exactly what it should, calls
        come in order, the catalog is filled when the stack is up,
          and no secret that is not rendered anew is touched. */
    method ReconcileOnce(p: Pass, spec: Spec) returns (ok: bool)
      modifies this
      ensures Ended(ok, State(), ()) == Reconcile.RunPass(old(State()), spec, p)
      ensures ok ==> ConditionTrue(State(), Ready) == PlatformUp(old(State()), spec)
      ensures ok && spec.lakekeeper ==> ConditionTrue(State(), Ready) == AllTrue(State())
      ensures !ok ==> !ConditionTrue(State(), Ready)
      ensures Ordered(spec, State().log) && CatalogLog(State().log) <= Filling(spec)
      ensures ok ==> CatalogLog(State().log) == if Fills(old(State()), spec) then Filling(spec) else []
      ensures forall k | !Rewritten(spec, k) :: Sown(old(State()), State(), k, p)
    {
      ghost var before := State();
      ok := RunPass(p, spec);
      PassPromises(before, spec, p, ok, State());
    }
  }

  lemma PassPromises(w: World, spec: Spec, p: Pass, ok: bool, w': World)
    requires Ended(ok, w', ()) == RunPass(w, spec, p)
    ensures ok ==> ConditionTrue(w', Ready) == PlatformUp(w, spec)
    ensures ok && spec.lakekeeper ==> ConditionTrue(w', Ready) == AllTrue(w')
    ensures !ok ==> !ConditionTrue(w', Ready)
    ensures Ordered(spec, w'.log) && CatalogLog(w'.log) <= Filling(spec)
    ensures ok ==> CatalogLog(w'.log) == if Fills(w, spec) then Filling(spec) else []
    ensures forall k | !Rewritten(spec, k) :: Sown(w, w', k, p)
  {
    if ok {
      PassConditions(w, spec, p);
    } else {
      ErrorsAreNotReady(w, spec, p);
    }
    PassOrdered(spec, w, p);
    PassFills(w, spec, p);
    forall k | !Rewritten(spec, k) ensures Sown(w, w', k, p) {
      PassKeeps(spec, w, p, k);
    }
  }
}
