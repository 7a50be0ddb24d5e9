/** In which order a pass may do things: what must have been seen or done before. */
module Ordering {
  import opened Strings
  import opened Cluster
  import opened Reconcile
  import opened Frames

  function PostgresSeen(spec: Spec): set<Event>
  {
    if spec.postgres.EmbeddedPostgres? then {Saw(Workload(spec.ns, Postgres), true)} else {}
  }

  function StoreSeen(spec: Spec): set<Event>
  {
    if spec.storage.EmbeddedMinio? then {Saw(Workload(spec.storage.ns, Minio), true), SawBucket} else {}
  }

  function AuthSeen(spec: Spec): set<Event>
  {
    if spec.auth.EmbeddedKeycloak? then {Saw(Workload(spec.auth.ns, Keycloak), true)} else {}
  }

  function FgaSeen(spec: Spec): set<Event>
  {
    if spec.authz.EmbeddedOpenFga?
      then {Saw(Workload(spec.authz.ns, Postgres), true), Saw(Workload(spec.authz.ns, OpenFga), true)} else {}
  }

  /** Everything that the catalog waits for. */
  function StackSeen(spec: Spec): set<Event>
  {
    PostgresSeen(spec) + StoreSeen(spec) + AuthSeen(spec) + FgaSeen(spec) + {Saw(Workload(spec.ns, Lakekeeper), true)}
  }

  /** The events that must come before an event in the same pass. */
  function Needs(spec: Spec, e: Event): set<Event>
  {
    match e
    case Applied(wl) =>
      if wl.component.OpenFga? then {Saw(Workload(wl.ns, Postgres), true)}
      else if wl.component.Lakekeeper? then AuthSeen(spec) + FgaSeen(spec)
      else {}
    case Bootstrapped =>
      StackSeen(spec) + if spec.auth.NoAuth? then {} else {TokenObtained}
    case StoreRequested(ns) => {Saw(Workload(ns, OpenFga), true)}
    case GrantsEnsured => {Bootstrapped}
    case WarehouseEnsured => {Bootstrapped} + (if spec.auth.EmbeddedKeycloak? then {GrantsEnsured} else {})
    case _ => {}
  }

  ghost predicate Ordered(spec: Spec, log: seq<Event>)
  {
    forall k | 0 <= k < |log| :: Needs(spec, log[k]) <= Elements(log[..k])
  }

  /** The log grows, and stays ordered. */
  ghost predicate Steps(spec: Spec, w: World, w': World)
  {
    w.log <= w'.log && (Ordered(spec, w.log) ==> Ordered(spec, w'.log))
  }

  lemma Append(spec: Spec, log: seq<Event>, e: Event)
    requires Needs(spec, e) <= Elements(log)
    ensures Ordered(spec, log) ==> Ordered(spec, log + [e])
  {
    var longer := log + [e];
    if Ordered(spec, log) {
      forall k | 0 <= k < |longer| ensures Needs(spec, longer[k]) <= Elements(longer[..k]) {
        assert longer[..k] == log[..k];
        assert log[..|log|] == log;
      }
    }
  }

  lemma PrefixElements(a: seq<Event>, b: seq<Event>)
    requires a <= b
    ensures Elements(a) <= Elements(b)
  {
  }

  lemma StepsTransitive(spec: Spec, a: World, b: World, c: World)
    requires Steps(spec, a, b) && Steps(spec, b, c)
    ensures Steps(spec, a, c) && Elements(a.log) <= Elements(b.log) <= Elements(c.log)
  {
  }

  lemma LogStep(spec: Spec, w: World, e: Event)
    requires Needs(spec, e) <= Elements(w.log)
    ensures Steps(spec, w, Log(w, e)) && e in Log(w, e).log
  {
    Append(spec, w.log, e);
  }

  /** What an action's own event needs. */
  function ActNeeds(spec: Spec, a: Action): set<Event>
  {
    if a.Apply? then Needs(spec, Applied(a.workload)) else {}
  }

  lemma ActSteps(spec: Spec, w: World, p: Pass, a: Action)
    requires ActNeeds(spec, a) <= Elements(w.log)
    ensures Steps(spec, w, Act(w, p, a).w)
  {
    if a.Apply? {
      Append(spec, w.log, Applied(a.workload));
    } else {
      ActUntouched(w, p, a);
    }
  }

  lemma {:induction false} ActsSteps(spec: Spec, w: World, p: Pass, actions: seq<Action>)
    requires forall a | a in actions :: ActNeeds(spec, a) <= Elements(w.log)
    ensures Steps(spec, w, Acts(w, p, actions).w)
  {
    if actions != [] {
      var n := |actions| - 1;
      ActsSteps(spec, w, p, actions[..n]);
      var r := Acts(w, p, actions[..n]);
      if r.Ok? {
        PrefixElements(w.log, r.w.log);
        assert actions[n] in actions;
        ActSteps(spec, r.w, p, actions[n]);
        StepsTransitive(spec, w, r.w, Act(r.w, p, actions[n]).w);
      }
    }
  }

  /** Asking for readiness records the answer. */
  lemma ReadySteps(spec: Spec, w: World, p: Pass, wl: Workload)
    ensures Steps(spec, w, WorkloadReady(w, p, wl).w)
    ensures var r := WorkloadReady(w, p, wl); r.Ok? && r.value ==> Saw(wl, true) in Elements(r.w.log)
  {
    var r := WorkloadReady(w, p, wl);
    if r.Ok? {
      LogStep(spec, w, Saw(wl, r.value));
    }
  }

  /** Actions whose workloads wait for nothing, then a readiness check. */
  lemma FreeSteps(spec: Spec, w: World, p: Pass, actions: seq<Action>, wl: Workload)
    requires forall a | a in actions :: ActNeeds(spec, a) <= Elements(w.log)
    ensures Steps(spec, w, Acts(w, p, actions).w)
    ensures Acts(w, p, actions).Ok? ==>
              var r := WorkloadReady(Acts(w, p, actions).w, p, wl);
              Steps(spec, w, r.w) && (r.Ok? && r.value ==> Saw(wl, true) in Elements(r.w.log))
  {
    ActsSteps(spec, w, p, actions);
    if Acts(w, p, actions).Ok? {
      ReadySteps(spec, Acts(w, p, actions).w, p, wl);
      StepsTransitive(spec, w, Acts(w, p, actions).w, WorkloadReady(Acts(w, p, actions).w, p, wl).w);
    }
  }

  // --- Components ---

  lemma PostgresSteps(spec: Spec, w: World, p: Pass)
    ensures var r := ReconcilePostgres(w, spec, p);
            Steps(spec, w, r.w)
              && (r.Ok? && ConditionTrue(r.w, PostgresReady) ==> PostgresSeen(spec) <= Elements(r.w.log))
  {
    match spec.postgres
    case EmbeddedPostgres(db) =>
      FreeSteps(spec, w, p, PostgresActions(spec.ns, db), Workload(spec.ns, Postgres));
    case ExternalPostgres(_, credentials) =>
      if credentials.Some? {
        var ref := credentials.value;
        ActsSteps(spec, w, p,
                  CredentialActions(SecretKey(if ref.ns == "" then spec.ns else ref.ns, ref.name), ref));
      }
  }

  lemma BucketSteps(spec: Spec, w: World, ns: string, store: Store, p: Pass)
    ensures var r := EnsureMinioBucket(w, ns, store, p);
            Steps(spec, w, r.w) && (r.Ok? && r.value ==> SawBucket in Elements(r.w.log))
  {
    Append(spec, w.log, SawBucket);
  }

  lemma MinioSteps(spec: Spec, w: World, ns: string, p: Pass)
    ensures var r := ReconcileMinio(w, ns, p);
            && Steps(spec, w, r.w)
            && (r.Ok? && r.value.1 ==>
                Saw(Workload(ns, Minio), true) in Elements(r.w.log) && SawBucket in Elements(r.w.log))
  {
    FreeSteps(spec, w, p, MinioActions(ns), Workload(ns, Minio));
    var r1 := Acts(w, p, MinioActions(ns));
    if r1.Ok? {
      var r2 := WorkloadReady(r1.w, p, Workload(ns, Minio));
      if r2.Ok? && r2.value {
        BucketSteps(spec, r2.w, ns, StoreOf(r1.value, false), p);
        StepsTransitive(spec, w, r2.w, EnsureMinioBucket(r2.w, ns, StoreOf(r1.value, false), p).w);
      }
    }
  }

  lemma ObjectStoreSteps(spec: Spec, w: World, p: Pass)
    ensures var r := ReconcileObjectStore(w, spec, p);
            Steps(spec, w, r.w) && (r.Ok? && r.value.1 ==> StoreSeen(spec) <= Elements(r.w.log))
  {
    match spec.storage
    case EmbeddedMinio(ns) => MinioSteps(spec, w, ns, p);
    case ExternalS3(s3) =>
      if s3.Some? && s3.value.credentials.Some? {
        var ref := s3.value.credentials.value;
        ActsSteps(spec, w, p, CredentialActions(SecretKey(ref.ns, ref.name), ref));
      }
  }

  lemma AuthSteps(spec: Spec, w: World, p: Pass)
    ensures var r := ReconcileAuth(w, spec, p);
            Steps(spec, w, r.w) && (r.Ok? && r.value.1 ==> AuthSeen(spec) <= Elements(r.w.log))
  {
    match spec.auth
    case NoAuth =>
    case EmbeddedKeycloak(ns) => FreeSteps(spec, w, p, KeycloakActions(ns), Workload(ns, Keycloak));
    case ExternalOidc(_, _, credentials) =>
      if credentials.Some? {
        ActsSteps(spec, w, p, OidcActions(credentials.value));
      }
  }

  /** The access store is requested only once OpenFGA was seen ready. */
  lemma AccessStoreSteps(spec: Spec, w: World, ns: string, needsStore: bool, catalogClient: bool, p: Pass)
    requires Saw(Workload(ns, OpenFga), true) in Elements(w.log)
    ensures Steps(spec, w, ReconcileAccessStore(w, ns, needsStore, catalogClient, p).w)
  {
    LogStep(spec, w, StoreRequested(ns));
  }

  lemma RunOpenFgaSteps(spec: Spec, w: World, ns: string, needsStore: bool, catalogClient: bool, p: Pass)
    requires Saw(Workload(ns, Postgres), true) in Elements(w.log)
    ensures var r := RunOpenFga(w, ns, needsStore, catalogClient, p);
            Steps(spec, w, r.w) && (r.Ok? && r.value.1 ==> Saw(Workload(ns, OpenFga), true) in Elements(r.w.log))
  {
    FreeSteps(spec, w, p, RunOpenFgaActions(ns), Workload(ns, OpenFga));
    var r1 := Acts(w, p, RunOpenFgaActions(ns));
    if r1.Ok? {
      var r2 := WorkloadReady(r1.w, p, Workload(ns, OpenFga));
      if r2.Ok? && r2.value {
        AccessStoreSteps(spec, r2.w, ns, needsStore, catalogClient, p);
        StepsTransitive(spec, w, r2.w, ReconcileAccessStore(r2.w, ns, needsStore, catalogClient, p).w);
      }
    }
  }

  /** OpenFGA's Deployment is applied only after its database was seen ready. */
  lemma OpenFgaSteps(spec: Spec, w: World, ns: string, needsStore: bool, catalogClient: bool, p: Pass)
    ensures var r := ReconcileOpenFga(w, ns, needsStore, catalogClient, p);
            && Steps(spec, w, r.w)
            && (r.Ok? && r.value.1 ==>
                  Saw(Workload(ns, Postgres), true) in Elements(r.w.log)
                    && Saw(Workload(ns, OpenFga), true) in Elements(r.w.log))
  {
    FreeSteps(spec, w, p, OpenFgaActions(ns), Workload(ns, Postgres));
    var r1 := Acts(w, p, OpenFgaActions(ns));
    if r1.Ok? {
      var r2 := WorkloadReady(r1.w, p, Workload(ns, Postgres));
      if r2.Ok? && r2.value {
        RunOpenFgaSteps(spec, r2.w, ns, needsStore, catalogClient, p);
        StepsTransitive(spec, w, r2.w, RunOpenFga(r2.w, ns, needsStore, catalogClient, p).w);
      }
    }
  }

  lemma AuthzSteps(spec: Spec, w: World, p: Pass)
    ensures var r := ReconcileAuthz(w, spec, p);
            Steps(spec, w, r.w) && (r.Ok? && r.value.1 ==> FgaSeen(spec) <= Elements(r.w.log))
  {
    if spec.authz.EmbeddedOpenFga? {
      OpenFgaSteps(spec, w, spec.authz.ns, NeedsStore(spec), spec.catalogClient, p);
    }
  }

  lemma RunLakekeeperSteps(spec: Spec, w: World, authReady: bool, fgaReady: bool, p: Pass)
    requires authReady ==> AuthSeen(spec) <= Elements(w.log)
    requires fgaReady ==> FgaSeen(spec) <= Elements(w.log)
    ensures var r := RunLakekeeper(w, spec, authReady, fgaReady, p);
            && Steps(spec, w, r.w)
            && (r.Ok? && ConditionTrue(r.w, LakekeeperReady) ==>
                Saw(Workload(spec.ns, Lakekeeper), true) in Elements(r.w.log))
  {
    if authReady && fgaReady {
      FreeSteps(spec, w, p, LakekeeperActions(spec.ns), Workload(spec.ns, Lakekeeper));
    }
  }

  /** A catalog call keeps the order when what it needs is there, and is there afterwards. */
  lemma CatalogSteps(spec: Spec, w: World, p: Pass, e: Event)
    requires Needs(spec, e) <= Elements(w.log)
    ensures Steps(spec, w, CatalogCall(w, p, e).w)
    ensures CatalogCall(w, p, e).Ok? ==> e in Elements(CatalogCall(w, p, e).w.log)
  {
    LogStep(spec, w, e);
  }

  lemma FillCatalogSteps(spec: Spec, w: World, oidc: Oidc, p: Pass)
    requires Bootstrapped in Elements(w.log)
    requires spec.auth.EmbeddedKeycloak? ==> oidc.Oidc? && oidc.managed
    ensures Steps(spec, w, FillCatalog(w, oidc, p).w)
  {
    CatalogSteps(spec, w, p, GrantsEnsured);
    var r1 := if oidc.Oidc? && oidc.managed then CatalogCall(w, p, GrantsEnsured) else Ok(w, ());
    if r1.Ok? {
      CatalogSteps(spec, r1.w, p, WarehouseEnsured);
      StepsTransitive(spec, w, r1.w, CatalogCall(r1.w, p, WarehouseEnsured).w);
    }
  }

  /** The token, then bootstrap, then grants, then the warehouse. */
  lemma WarehouseSteps(spec: Spec, w: World, oidc: Oidc, p: Pass)
    requires StackSeen(spec) <= Elements(w.log)
    requires (oidc.Oidc? <==> !spec.auth.NoAuth?) && (spec.auth.EmbeddedKeycloak? ==> oidc.managed)
    ensures Steps(spec, w, ReconcileWarehouse(w, spec, oidc, p).w)
  {
    var r1 := if oidc.NoOidc? then Ok(w, ()) else ObtainToken(w, p);
    LogStep(spec, w, TokenObtained);
    if spec.catalogClient && r1.Ok? {
      CatalogSteps(spec, r1.w, p, Bootstrapped);
      var r2 := CatalogCall(r1.w, p, Bootstrapped);
      if r2.Ok? {
        FillCatalogSteps(spec, r2.w, oidc, p);
        StepsTransitive(spec, w, r1.w, r2.w);
        StepsTransitive(spec, w, r2.w, FillCatalog(r2.w, oidc, p).w);
      }
    }
  }

  // --- The pass ---

  lemma StorageSteps(spec: Spec, w: World, p: Pass)
    ensures var r := ReconcileStorage(w, spec, p);
            && Steps(spec, w, r.w)
            && (r.Ok? && ConditionTrue(r.w, PostgresReady) ==> PostgresSeen(spec) <= Elements(r.w.log))
            && (r.Ok? && r.value.1 ==> StoreSeen(spec) <= Elements(r.w.log))
  {
    var r1 := Act(w, p, EnsureNamespace(spec.ns));
    ActSteps(spec, w, p, EnsureNamespace(spec.ns));
    if r1.Ok? {
      PostgresSteps(spec, r1.w, p);
      var r2 := ReconcilePostgres(r1.w, spec, p);
      StepsTransitive(spec, w, r1.w, r2.w);
      if r2.Ok? {
        ObjectStoreSteps(spec, r2.w, p);
        var r3 := ReconcileObjectStore(r2.w, spec, p);
        StepsTransitive(spec, w, r2.w, r3.w);
        if r3.Ok? {
          ObjectStoreResult(r2.w, spec, p);
        }
      }
    }
  }

  lemma FinishSteps(spec: Spec, w: World, store: (Store, bool), auth: (Oidc, bool), fga: (Fga, bool), p: Pass)
    requires ConditionTrue(w, PostgresReady) ==> PostgresSeen(spec) <= Elements(w.log)
    requires ConditionTrue(w, LakekeeperReady) ==> Saw(Workload(spec.ns, Lakekeeper), true) in Elements(w.log)
    requires store.1 ==> StoreSeen(spec) <= Elements(w.log)
    requires auth.1 ==> AuthSeen(spec) <= Elements(w.log)
    requires fga.1 ==> FgaSeen(spec) <= Elements(w.log)
    requires (auth.0.Oidc? <==> !spec.auth.NoAuth?) && (spec.auth.EmbeddedKeycloak? ==> auth.0.managed)
    ensures Steps(spec, w, FinishStack(w, spec, store, auth, fga, p).w)
  {
    if ConditionTrue(w, PostgresReady) && ConditionTrue(w, LakekeeperReady) && auth.1 && fga.1 && store.1 {
      WarehouseSteps(spec, w, auth.0, p);
    }
  }

  lemma ManagedOidc(spec: Spec, w: World, p: Pass)
    requires ReconcileAuth(w, spec, p).Ok?
    ensures var oidc := ReconcileAuth(w, spec, p).value.0;
            (oidc.Oidc? <==> !spec.auth.NoAuth?) && (spec.auth.EmbeddedKeycloak? ==> oidc.managed)
  {
  }

  /** From the identity provider on. */
  lemma StackTail(spec: Spec, w: World, w1: World, store: (Store, bool), p: Pass)
    requires spec.lakekeeper && ReconcileStorage(w, spec, p) == Ok(w1, store) && Steps(spec, w, w1)
    requires ConditionTrue(w1, PostgresReady) ==> PostgresSeen(spec) <= Elements(w1.log)
    requires store.1 ==> StoreSeen(spec) <= Elements(w1.log)
    ensures Steps(spec, w, ReconcileLakekeeperStack(w, spec, p).w)
    ensures var r2 := ReconcileAuth(w1, spec, p);
            r2.Ok? && ReconcileAuthz(r2.w, spec, p).Ok? ==>
              Steps(spec, ReconcileAuthz(r2.w, spec, p).w, ReconcileLakekeeperStack(w, spec, p).w)
  {
    AuthSteps(spec, w1, p);
    var r2 := ReconcileAuth(w1, spec, p);
    StepsTransitive(spec, w, w1, r2.w);
    if r2.Ok? {
      AuthResult(w1, spec, p);
      ManagedOidc(spec, w1, p);
      AuthzSteps(spec, r2.w, p);
      var r3 := ReconcileAuthz(r2.w, spec, p);
      StepsTransitive(spec, w, r2.w, r3.w);
      StepsTransitive(spec, w1, r2.w, r3.w);
      if r3.Ok? {
        AuthzResult(r2.w, spec, p);
        LakekeeperTail(spec, r3.w, r3.w, store, r2.value, r3.value, p);
        StepsTransitive(spec, w, r3.w, ReconcileLakekeeperStack(w, spec, p).w);
      }
    }
  }

  lemma LakekeeperTail(spec: Spec, w: World, w3: World, store: (Store, bool), auth: (Oidc, bool), fga: (Fga, bool),
                       p: Pass)
    requires Steps(spec, w, w3)
    requires ConditionTrue(w3, PostgresReady) ==> PostgresSeen(spec) <= Elements(w3.log)
    requires store.1 ==> StoreSeen(spec) <= Elements(w3.log)
    requires auth.1 ==> AuthSeen(spec) <= Elements(w3.log)
    requires fga.1 ==> FgaSeen(spec) <= Elements(w3.log)
    requires (auth.0.Oidc? <==> !spec.auth.NoAuth?) && (spec.auth.EmbeddedKeycloak? ==> auth.0.managed)
    ensures var r4 := RunLakekeeper(w3, spec, auth.1, fga.1, p);
            Steps(spec, w, r4.w) && (r4.Ok? ==> Steps(spec, w, FinishStack(r4.w, spec, store, auth, fga, p).w))
  {
    RunLakekeeperSteps(spec, w3, auth.1, fga.1, p);
    var r4 := RunLakekeeper(w3, spec, auth.1, fga.1, p);
    StepsTransitive(spec, w, w3, r4.w);
    if r4.Ok? {
      RunLakekeeperResult(w3, spec, auth.1, fga.1, p);
      FinishSteps(spec, r4.w, store, auth, fga, p);
      StepsTransitive(spec, w, r4.w, FinishStack(r4.w, spec, store, auth, fga, p).w);
    }
  }

  lemma StackSteps(spec: Spec, w: World, p: Pass)
    ensures Steps(spec, w, ReconcileLakekeeperStack(w, spec, p).w)
    ensures var r1 := ReconcileStorage(w, spec, p);
            spec.lakekeeper && r1.Ok? && ReconcileAuth(r1.w, spec, p).Ok? ==>
              var r3 := ReconcileAuthz(ReconcileAuth(r1.w, spec, p).w, spec, p);
              r3.Ok? ==> Steps(spec, r3.w, ReconcileLakekeeperStack(w, spec, p).w)
  {
    if spec.lakekeeper {
      StorageSteps(spec, w, p);
      var r1 := ReconcileStorage(w, spec, p);
      if r1.Ok? {
        StackTail(spec, w, r1.w, r1.value, p);
      }
    }
  }

  lemma OpaSteps(spec: Spec, w: World, oidc: Oidc, fga: Fga, p: Pass)
    ensures Steps(spec, w, ReconcileOpa(w, spec, oidc, fga, p).w)
  {
    if !(fga.NoFga? || oidc.NoOidc? || !spec.authz.EmbeddedOpenFga?) {
      FreeSteps(spec, w, p, OpaActions(spec.authz.ns, oidc), Workload(spec.authz.ns, Opa));
    }
  }

  lemma WorkersSteps(spec: Spec, w: World, ns: string, workers: nat, p: Pass)
    ensures Steps(spec, w, ReconcileTrinoWorkers(w, ns, workers, p).w)
  {
    Append(spec, w.log, Applied(Workload(ns, TrinoWorker)));
  }

  lemma TrinoSteps(spec: Spec, w: World, ns: string, hasPublicUrl: bool, workers: nat, store: Store, oidc: Oidc,
                   opa: OpaUse, p: Pass)
    ensures Steps(spec, w, ReconcileTrino(w, ns, hasPublicUrl, workers, store, oidc, opa, p).w)
  {
    var acts := SharedSecretActions(ns, oidc.Oidc? && hasPublicUrl);
    ActsSteps(spec, w, p, acts);
    var r1 := Acts(w, p, acts);
    if r1.Ok? {
      ActsSteps(spec, r1.w, p, TrinoActions(ns, store, oidc, opa, r1.value));
      var r2 := Acts(r1.w, p, TrinoActions(ns, store, oidc, opa, r1.value));
      StepsTransitive(spec, w, r1.w, r2.w);
      if r2.Ok? {
        WorkersSteps(spec, r2.w, ns, workers, p);
        var r3 := ReconcileTrinoWorkers(r2.w, ns, workers, p);
        StepsTransitive(spec, w, r2.w, r3.w);
        if r3.Ok? {
          ReadySteps(spec, r3.w, p, Workload(ns, Trino));
          StepsTransitive(spec, w, r3.w, WorkloadReady(r3.w, p, Workload(ns, Trino)).w);
        }
      }
    }
  }

  lemma TrinoStackSteps(spec: Spec, w: World, stack: Stack, p: Pass)
    ensures Steps(spec, w, ReconcileTrinoStack(w, spec, stack, p).w)
  {
    if spec.trino.EmbeddedTrino? {
      var t := spec.trino;
      ActSteps(spec, w, p, EnsureNamespace(t.ns));
      var r1 := Act(w, p, EnsureNamespace(t.ns));
      if r1.Ok? {
        OpaSteps(spec, r1.w, stack.oidc, stack.fga, p);
        var r2 := ReconcileOpa(r1.w, spec, stack.oidc, stack.fga, p);
        StepsTransitive(spec, w, r1.w, r2.w);
        if r2.Ok? {
          var opa := OpaUseOf(spec.authz, stack.oidc, stack.fga);
          TrinoSteps(spec, r2.w, t.ns, t.hasPublicUrl, t.workers, stack.store, stack.oidc, opa, p);
          StepsTransitive(spec, w, r2.w,
                          ReconcileTrino(r2.w, t.ns, t.hasPublicUrl, t.workers, stack.store, stack.oidc, opa, p).w);
        }
      }
    }
  }

  /** Every pass, with or without error, does things in order: OpenFGA after its database,
      LakeKeeper after identity provider and OpenFGA, and bootstrap, grants and warehouse in
      this order and only after database, object store, identity, authorization and
      LakeKeeper were all seen ready. */
  lemma PassOrdered(spec: Spec, w: World, p: Pass)
    ensures Ordered(spec, RunPass(w, spec, p).w.log)
  {
    var s := Start(w);
    assert Ordered(spec, s.log);
    StackSteps(spec, s, p);
    var r := ReconcileLakekeeperStack(s, spec, p);
    if r.Ok? {
      TrinoStackSteps(spec, r.w, r.value, p);
      StepsTransitive(spec, s, r.w, ReconcileTrinoStack(r.w, spec, r.value, p).w);
    }
  }
}
