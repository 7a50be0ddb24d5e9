/** Once the generated secrets exist, a pass does not depend on the random candidates that
    it draws: two passes that differ only in their draws do the same and read the same. */
module Draws {
  import opened Cluster
  import opened Reconcile
  import opened Frames
  import opened ReadyTheorems
  import opened SecretTheorems

  /** The secret exists and needs no completion. */
  predicate Stocked(w: World, k: SecretKey)
  {
    k in w.objects.secrets
      && (k.name.SecretOidc? ==> OpaClientId in w.objects.secrets[k] && OpaClientSecret in w.objects.secrets[k])
  }

  /** Every secret that the spec makes the operator generate is stocked. */
  ghost predicate AllStocked(w: World, spec: Spec)
  {
    forall k | Generated(spec, k) :: Stocked(w, k)
  }

  lemma KeptStocked(w: World, w': World, k: SecretKey)
    requires Kept(w, w', k) && Stocked(w, k)
    ensures Stocked(w', k)
  {
  }

  /** Same calls and answers, other draws. */
  ghost predicate SameButDraws(p: Pass, q: Pass)
  {
    p.outcome == q.outcome && p.provisioned == q.provisioned
  }

  lemma ActDraws(w: World, p: Pass, q: Pass, a: Action)
    requires SameButDraws(p, q)
    requires Generates(a) ==> Stocked(w, a.key) && (a.EnsureOidc? ==> a.key.name.SecretOidc?)
    ensures Act(w, p, a) == Act(w, q, a)
  {
  }

  /** Every secret that the list generates is stocked; no list both generates and rewrites. */
  ghost predicate Supplied(w: World, actions: seq<Action>)
  {
    && (forall a | a in actions && Generates(a) :: Stocked(w, a.key) && (a.EnsureOidc? ==> a.key.name.SecretOidc?))
    && ((forall a | a in actions :: !a.Rewrite?) || (forall a | a in actions :: !Generates(a)))
  }

  lemma {:induction false} ActsDraws(w: World, p: Pass, q: Pass, actions: seq<Action>)
    requires SameButDraws(p, q) && Supplied(w, actions)
    ensures Acts(w, p, actions) == Acts(w, q, actions)
  {
    if actions != [] {
      var n := |actions| - 1;
      var a := actions[n];
      assert a in actions && forall b | b in actions[..n] :: b in actions;
      ActsDraws(w, p, q, actions[..n]);
      var r := Acts(w, p, actions[..n]);
      if r.Ok? {
        if Generates(a) {
          ActsKeep(w, p, actions[..n], a.key);
          KeptStocked(w, r.w, a.key);
        }
        ActDraws(r.w, p, q, a);
      }
    }
  }

  // --- Components ---

  lemma PostgresDraws(spec: Spec, w: World, p: Pass, q: Pass)
    requires SameButDraws(p, q) && (spec.postgres.EmbeddedPostgres? ==> Stocked(w, SecretKey(spec.ns, SecretPostgres)))
    ensures ReconcilePostgres(w, spec, p) == ReconcilePostgres(w, spec, q)
  {
    match spec.postgres
    case EmbeddedPostgres(db) => ActsDraws(w, p, q, PostgresActions(spec.ns, db));
    case ExternalPostgres(_, credentials) =>
      if credentials.Some? {
        var ref := credentials.value;
        ActsDraws(w, p, q,
                  CredentialActions(SecretKey(if ref.ns == "" then spec.ns else ref.ns, ref.name), ref));
      }
  }

  lemma MinioDraws(w: World, ns: string, p: Pass, q: Pass)
    requires SameButDraws(p, q) && Stocked(w, SecretKey(ns, SecretMinio))
    ensures ReconcileMinio(w, ns, p) == ReconcileMinio(w, ns, q)
  {
    ActsDraws(w, p, q, MinioActions(ns));
    var r1 := Acts(w, p, MinioActions(ns));
    if r1.Ok? {
      var r2 := WorkloadReady(r1.w, p, Workload(ns, Minio));
      assert r2 == WorkloadReady(r1.w, q, Workload(ns, Minio));
      if r2.Ok? {
        BucketDraws(r2.w, ns, StoreOf(r1.value, false), p, q);
      }
    }
  }

  lemma BucketDraws(w: World, ns: string, store: Store, p: Pass, q: Pass)
    requires SameButDraws(p, q)
    ensures EnsureMinioBucket(w, ns, store, p) == EnsureMinioBucket(w, ns, store, q)
  {
  }

  lemma ObjectStoreDraws(spec: Spec, w: World, p: Pass, q: Pass)
    requires SameButDraws(p, q) && (spec.storage.EmbeddedMinio? ==> Stocked(w, SecretKey(spec.storage.ns, SecretMinio)))
    ensures ReconcileObjectStore(w, spec, p) == ReconcileObjectStore(w, spec, q)
  {
    match spec.storage
    case EmbeddedMinio(ns) => MinioDraws(w, ns, p, q);
    case ExternalS3(s3) =>
      if s3.Some? && s3.value.credentials.Some? {
        var ref := s3.value.credentials.value;
        ActsDraws(w, p, q, CredentialActions(SecretKey(ref.ns, ref.name), ref));
      }
  }

  lemma KeycloakSupplied(w: World, ns: string)
    requires Stocked(w, SecretKey(ns, SecretRealmKey)) && Stocked(w, SecretKey(ns, SecretKeycloakAdmin))
              && Stocked(w, SecretKey(ns, SecretOidc))
    ensures Supplied(w, KeycloakActions(ns))
  {
    KeycloakRewritesNothing(ns);
  }

  lemma KeycloakDraws(w: World, ns: string, p: Pass, q: Pass)
    requires SameButDraws(p, q) && Supplied(w, KeycloakActions(ns))
    ensures ReconcileKeycloak(w, ns, p) == ReconcileKeycloak(w, ns, q)
  {
    ActsDraws(w, p, q, KeycloakActions(ns));
  }

  lemma OidcSupplied(w: World, ref: OidcRef)
    ensures Supplied(w, OidcActions(ref))
  {
  }

  lemma AuthDraws(spec: Spec, w: World, p: Pass, q: Pass)
    requires SameButDraws(p, q)
    requires spec.auth.EmbeddedKeycloak? ==> Supplied(w, KeycloakActions(spec.auth.ns))
    ensures ReconcileAuth(w, spec, p) == ReconcileAuth(w, spec, q)
  {
    match spec.auth
    case NoAuth =>
    case EmbeddedKeycloak(ns) => KeycloakDraws(w, ns, p, q);
    case ExternalOidc(_, _, credentials) =>
      if credentials.Some? {
        OidcSupplied(w, credentials.value);
        ActsDraws(w, p, q, OidcActions(credentials.value));
      }
  }

  lemma RunOpenFgaDraws(w: World, ns: string, needsStore: bool, catalogClient: bool, p: Pass, q: Pass)
    requires SameButDraws(p, q)
    ensures RunOpenFga(w, ns, needsStore, catalogClient, p) == RunOpenFga(w, ns, needsStore, catalogClient, q)
  {
    ActsDraws(w, p, q, RunOpenFgaActions(ns));
  }

  lemma AuthzDraws(spec: Spec, w: World, p: Pass, q: Pass)
    requires SameButDraws(p, q)
    requires spec.authz.EmbeddedOpenFga? ==>
               Stocked(w, SecretKey(spec.authz.ns, SecretOpenFga))
                 && Stocked(w, SecretKey(spec.authz.ns, SecretPostgres))
    ensures ReconcileAuthz(w, spec, p) == ReconcileAuthz(w, spec, q)
  {
    if spec.authz.EmbeddedOpenFga? {
      var ns := spec.authz.ns;
      ActsDraws(w, p, q, OpenFgaActions(ns));
      var r1 := Acts(w, p, OpenFgaActions(ns));
      if r1.Ok? {
        var r2 := WorkloadReady(r1.w, p, Workload(ns, Postgres));
        assert r2 == WorkloadReady(r1.w, q, Workload(ns, Postgres));
        if r2.Ok? {
          RunOpenFgaDraws(r2.w, ns, NeedsStore(spec), spec.catalogClient, p, q);
        }
      }
    }
  }

  lemma RunLakekeeperDraws(spec: Spec, w: World, authReady: bool, fgaReady: bool, p: Pass, q: Pass)
    requires SameButDraws(p, q) && Stocked(w, SecretKey(spec.ns, SecretEncryption))
    ensures RunLakekeeper(w, spec, authReady, fgaReady, p) == RunLakekeeper(w, spec, authReady, fgaReady, q)
  {
    ActsDraws(w, p, q, LakekeeperActions(spec.ns));
  }

  lemma FinishDraws(spec: Spec, w: World, store: (Store, bool), auth: (Oidc, bool), fga: (Fga, bool), p: Pass, q: Pass)
    requires SameButDraws(p, q)
    ensures FinishStack(w, spec, store, auth, fga, p) == FinishStack(w, spec, store, auth, fga, q)
  {
  }

  lemma StorageDraws(spec: Spec, w: World, p: Pass, q: Pass)
    requires SameButDraws(p, q) && spec.lakekeeper && AllStocked(w, spec)
    ensures ReconcileStorage(w, spec, p) == ReconcileStorage(w, spec, q)
  {
    var r1 := Act(w, p, EnsureNamespace(spec.ns));
    ActDraws(w, p, q, EnsureNamespace(spec.ns));
    if r1.Ok? {
      forall k | Generated(spec, k) ensures Stocked(r1.w, k) { ActKeeps(w, p, EnsureNamespace(spec.ns), k); }
      PostgresDraws(spec, r1.w, p, q);
      var r2 := ReconcilePostgres(r1.w, spec, p);
      if r2.Ok? {
        forall k | Generated(spec, k) ensures Stocked(r2.w, k) { PostgresKeeps(spec, r1.w, p, k); }
        ObjectStoreDraws(spec, r2.w, p, q);
      }
    }
  }

  lemma StackDraws(spec: Spec, w: World, p: Pass, q: Pass)
    requires SameButDraws(p, q) && AllStocked(w, spec)
    ensures ReconcileLakekeeperStack(w, spec, p) == ReconcileLakekeeperStack(w, spec, q)
  {
    if spec.lakekeeper {
      StorageDraws(spec, w, p, q);
      var r1 := ReconcileStorage(w, spec, p);
      if r1.Ok? {
        forall k | Generated(spec, k) ensures Stocked(r1.w, k) { StorageKeeps(spec, w, p, k); }
        if spec.auth.EmbeddedKeycloak? { KeycloakSupplied(r1.w, spec.auth.ns); }
        AuthDraws(spec, r1.w, p, q);
        var r2 := ReconcileAuth(r1.w, spec, p);
        if r2.Ok? {
          forall k | Generated(spec, k) ensures Stocked(r2.w, k) { AuthKeeps(spec, r1.w, p, k); }
          AuthzDraws(spec, r2.w, p, q);
          var r3 := ReconcileAuthz(r2.w, spec, p);
          if r3.Ok? {
            forall k | Generated(spec, k) ensures Stocked(r3.w, k) { AuthzKeeps(spec, r2.w, p, k); }
            RunLakekeeperDraws(spec, r3.w, r2.value.1, r3.value.1, p, q);
            var r4 := RunLakekeeper(r3.w, spec, r2.value.1, r3.value.1, p);
            if r4.Ok? {
              FinishDraws(spec, r4.w, r1.value, r2.value, r3.value, p, q);
            }
          }
        }
      }
    }
  }

  lemma OpaDraws(spec: Spec, w: World, oidc: Oidc, fga: Fga, p: Pass, q: Pass)
    requires SameButDraws(p, q)
    ensures ReconcileOpa(w, spec, oidc, fga, p) == ReconcileOpa(w, spec, oidc, fga, q)
  {
    if !(fga.NoFga? || oidc.NoOidc? || !spec.authz.EmbeddedOpenFga?) {
      ActsDraws(w, p, q, OpaActions(spec.authz.ns, oidc));
    }
  }

  lemma WorkersDraws(w: World, ns: string, workers: nat, p: Pass, q: Pass)
    requires SameButDraws(p, q)
    ensures ReconcileTrinoWorkers(w, ns, workers, p) == ReconcileTrinoWorkers(w, ns, workers, q)
  {
  }

  lemma TrinoActionsDraws(w: World, ns: string, store: Store, oidc: Oidc, opa: OpaUse, shared: seq<Value>, p: Pass,
                          q: Pass)
    requires SameButDraws(p, q)
    ensures Acts(w, p, TrinoActions(ns, store, oidc, opa, shared)) ==
              Acts(w, q, TrinoActions(ns, store, oidc, opa, shared))
  {
    ActsDraws(w, p, q, TrinoActions(ns, store, oidc, opa, shared));
  }

  lemma SharedSecretDraws(w: World, ns: string, uiAuth: bool, p: Pass, q: Pass)
    requires SameButDraws(p, q) && (uiAuth ==> Stocked(w, SecretKey(ns, SecretTrinoInternal)))
    ensures Acts(w, p, SharedSecretActions(ns, uiAuth)) == Acts(w, q, SharedSecretActions(ns, uiAuth))
  {
    ActsDraws(w, p, q, SharedSecretActions(ns, uiAuth));
  }

  lemma TrinoDraws(w: World, ns: string, hasPublicUrl: bool, workers: nat, store: Store, oidc: Oidc, opa: OpaUse,
                   p: Pass, q: Pass)
    requires SameButDraws(p, q) && (oidc.Oidc? && hasPublicUrl ==> Stocked(w, SecretKey(ns, SecretTrinoInternal)))
    ensures ReconcileTrino(w, ns, hasPublicUrl, workers, store, oidc, opa, p) ==
              ReconcileTrino(w, ns, hasPublicUrl, workers, store, oidc, opa, q)
  {
    SharedSecretDraws(w, ns, oidc.Oidc? && hasPublicUrl, p, q);
    var r1 := Acts(w, p, SharedSecretActions(ns, oidc.Oidc? && hasPublicUrl));
    if r1.Ok? {
      TrinoActionsDraws(r1.w, ns, store, oidc, opa, r1.value, p, q);
      var r2 := Acts(r1.w, p, TrinoActions(ns, store, oidc, opa, r1.value));
      if r2.Ok? {
        WorkersDraws(r2.w, ns, workers, p, q);
        var r3 := ReconcileTrinoWorkers(r2.w, ns, workers, p);
        assert WorkloadReady(r3.w, p, Workload(ns, Trino)) == WorkloadReady(r3.w, q, Workload(ns, Trino));
      }
    }
  }

  lemma TrinoStackDraws(spec: Spec, w: World, stack: Stack, p: Pass, q: Pass)
    requires SameButDraws(p, q)
    requires spec.trino.EmbeddedTrino? && stack.oidc.Oidc? && spec.trino.hasPublicUrl ==>
              Stocked(w, SecretKey(spec.trino.ns, SecretTrinoInternal))
    ensures ReconcileTrinoStack(w, spec, stack, p) == ReconcileTrinoStack(w, spec, stack, q)
  {
    if spec.trino.EmbeddedTrino? {
      var t, k := spec.trino, SecretKey(spec.trino.ns, SecretTrinoInternal);
      var r1 := Act(w, p, EnsureNamespace(t.ns));
      ActDraws(w, p, q, EnsureNamespace(t.ns));
      if r1.Ok? {
        ActKeeps(w, p, EnsureNamespace(t.ns), k);
        OpaDraws(spec, r1.w, stack.oidc, stack.fga, p, q);
        OpaKeeps(spec, r1.w, stack.oidc, stack.fga, p, k);
        var r2 := ReconcileOpa(r1.w, spec, stack.oidc, stack.fga, p);
        if r2.Ok? {
          var opa := OpaUseOf(spec.authz, stack.oidc, stack.fga);
          TrinoDraws(r2.w, t.ns, t.hasPublicUrl, t.workers, stack.store, stack.oidc, opa, p, q);
        }
      }
    }
  }

  /** The whole pass, its writes, its errors and the values it reads back included. */
  lemma DrawsIrrelevant(spec: Spec, w: World, p: Pass, q: Pass)
    requires SameButDraws(p, q) && AllStocked(w, spec)
    ensures RunPass(w, spec, p) == RunPass(w, spec, q)
  {
    var s := Start(w);
    assert AllStocked(s, spec);
    StackDraws(spec, s, p, q);
    var r := ReconcileLakekeeperStack(s, spec, p);
    if r.Ok? {
      if !spec.lakekeeper || spec.auth.NoAuth? {
        StackOidc(spec, s, p);
      } else if spec.trino.EmbeddedTrino? && spec.trino.hasPublicUrl {
        var k := SecretKey(spec.trino.ns, SecretTrinoInternal);
        assert TrinoGenerates(spec, k) && Generated(spec, k);
        StackKeeps(spec, s, p, k);
        KeptStocked(s, r.w, k);
      }
      TrinoStackDraws(spec, r.w, r.value, p, q);
    }
  }

  // --- How the secrets come to exist ---

  lemma ActStocks(w: World, p: Pass, a: Action)
    requires Generates(a) && (a.EnsureOidc? <==> a.key.name.SecretOidc?) && Act(w, p, a).Ok?
    ensures Stocked(Act(w, p, a).w, a.key)
  {
  }

  lemma {:induction false} ActsStock(w: World, p: Pass, actions: seq<Action>, a: Action)
    requires a in actions && Generates(a) && (a.EnsureOidc? <==> a.key.name.SecretOidc?) && Acts(w, p, actions).Ok?
    requires forall b | b in actions :: !b.Rewrite?
    ensures Stocked(Acts(w, p, actions).w, a.key)
  {
    var n := |actions| - 1;
    var r := Acts(w, p, actions[..n]);
    if actions[n] == a {
      ActStocks(r.w, p, a);
    } else {
      ActsStock(w, p, actions[..n], a);
      ActKeeps(r.w, p, actions[n], a.key);
      KeptStocked(r.w, Act(r.w, p, actions[n]).w, a.key);
    }
  }

  lemma PostgresStocks(spec: Spec, w: World, p: Pass)
    requires ReconcilePostgres(w, spec, p).Ok? && spec.postgres.EmbeddedPostgres?
    ensures Stocked(ReconcilePostgres(w, spec, p).w, SecretKey(spec.ns, SecretPostgres))
  {
    var actions := PostgresActions(spec.ns, spec.postgres.database);
    ActsStock(w, p, actions, actions[0]);
  }

  lemma MinioStocks(w: World, ns: string, p: Pass)
    requires ReconcileMinio(w, ns, p).Ok?
    ensures Stocked(ReconcileMinio(w, ns, p).w, SecretKey(ns, SecretMinio))
  {
    var actions, k := MinioActions(ns), SecretKey(ns, SecretMinio);
    ActsStock(w, p, actions, actions[1]);
    var r1 := Acts(w, p, actions);
    var r2 := WorkloadReady(r1.w, p, Workload(ns, Minio));
    if r2.value {
      BucketKeeps(r2.w, ns, StoreOf(r1.value, false), p, k);
      KeptStocked(r2.w, EnsureMinioBucket(r2.w, ns, StoreOf(r1.value, false), p).w, k);
    }
  }

  lemma StorageStocks(spec: Spec, w: World, p: Pass, k: SecretKey)
    requires ReconcileStorage(w, spec, p).Ok? && StorageGenerates(spec, k)
    ensures Stocked(ReconcileStorage(w, spec, p).w, k)
  {
    var w1 := Act(w, p, EnsureNamespace(spec.ns)).w;
    var w2 := ReconcilePostgres(w1, spec, p).w;
    if k.name.SecretPostgres? {
      PostgresStocks(spec, w1, p);
      ObjectStoreKeeps(spec, w2, p, k);
      KeptStocked(w2, ReconcileObjectStore(w2, spec, p).w, k);
    } else {
      MinioStocks(w2, spec.storage.ns, p);
    }
  }

  lemma KeycloakGenerates(ns: string, n: SecretName) returns (a: Action)
    requires n in {SecretRealmKey, SecretKeycloakAdmin, SecretOidc}
    ensures a in KeycloakActions(ns) && Generates(a) && a.key == SecretKey(ns, n) && (a.EnsureOidc? <==> n.SecretOidc?)
  {
    a := KeycloakActions(ns)[if n.SecretRealmKey? then 1 else if n.SecretKeycloakAdmin? then 2 else 3];
  }

  lemma KeycloakStocks(w: World, ns: string, p: Pass, actions: seq<Action>, n: SecretName)
    requires n in {SecretRealmKey, SecretKeycloakAdmin, SecretOidc} && actions == KeycloakActions(ns)
              && Acts(w, p, actions).Ok?
    ensures Stocked(Acts(w, p, actions).w, SecretKey(ns, n))
  {
    KeycloakRewritesNothing(ns);
    var a := KeycloakGenerates(ns, n);
    ActsStock(w, p, actions, a);
  }

  lemma AuthStocks(spec: Spec, w: World, p: Pass, k: SecretKey)
    requires ReconcileAuth(w, spec, p).Ok? && AuthGenerates(spec, k)
    ensures Stocked(ReconcileAuth(w, spec, p).w, k)
  {
    KeycloakStocks(w, spec.auth.ns, p, KeycloakActions(spec.auth.ns), k.name);
  }

  lemma AuthzStocks(spec: Spec, w: World, p: Pass, k: SecretKey)
    requires ReconcileAuthz(w, spec, p).Ok? && AuthzGenerates(spec, k)
    ensures Stocked(ReconcileAuthz(w, spec, p).w, k)
  {
    var ns := spec.authz.ns;
    var actions := OpenFgaActions(ns);
    ActsStock(w, p, actions, if k.name.SecretOpenFga? then actions[1] else actions[2]);
    var r2 := WorkloadReady(Acts(w, p, actions).w, p, Workload(ns, Postgres));
    if r2.value {
      RunOpenFgaKeeps(r2.w, ns, NeedsStore(spec), spec.catalogClient, p, k);
      KeptStocked(r2.w,
                  RunOpenFga(r2.w, ns, NeedsStore(spec), spec.catalogClient, p).w, k);
    }
  }

  lemma LakekeeperStocks(spec: Spec, w: World, p: Pass)
    requires ReconcileLakekeeper(w, spec.ns, p).Ok?
    ensures Stocked(ReconcileLakekeeper(w, spec.ns, p).w, SecretKey(spec.ns, SecretEncryption))
  {
    var actions := LakekeeperActions(spec.ns);
    ActsStock(w, p, actions, actions[0]);
  }

  /** Each part of the stack stocks its own secrets and keeps those of the parts before it. */
  lemma StackStocks(spec: Spec, w: World, p: Pass, k: SecretKey)
    requires spec.lakekeeper && ReconcileLakekeeperStack(w, spec, p).Ok? && Generated(spec, k)
              && !TrinoGenerates(spec, k)
    requires AuthUp(w, spec) && FgaUp(w, spec)
    ensures Stocked(ReconcileLakekeeperStack(w, spec, p).w, k)
  {
    var r1 := ReconcileStorage(w, spec, p);
    var r2 := ReconcileAuth(r1.w, spec, p);
    var r3 := ReconcileAuthz(r2.w, spec, p);
    StorageResult(w, spec, p);
    AuthResult(r1.w, spec, p);
    AuthzResult(r2.w, spec, p);
    UpsKept(w, r1.w, spec);
    GrownTransitive(w, r1.w, r2.w);
    UpsKept(w, r2.w, spec);
    var r4 := RunLakekeeper(r3.w, spec, true, true, p);
    FinishKeepsSecrets(spec, r4.w, r1.value, r2.value, r3.value, p);
    if StorageGenerates(spec, k) {
      StorageStocks(spec, w, p, k);
      AuthKeeps(spec, r1.w, p, k);
      AuthzKeeps(spec, r2.w, p, k);
      RunLakekeeperKeeps(spec, r3.w, true, true, p, k);
    } else if AuthGenerates(spec, k) {
      AuthStocks(spec, r1.w, p, k);
      AuthzKeeps(spec, r2.w, p, k);
      RunLakekeeperKeeps(spec, r3.w, true, true, p, k);
    } else if AuthzGenerates(spec, k) {
      AuthzStocks(spec, r2.w, p, k);
      RunLakekeeperKeeps(spec, r3.w, true, true, p, k);
    } else {
      LakekeeperStocks(spec, r3.w, p);
    }
  }

  lemma TrinoStocks(w: World, ns: string, workers: nat, store: Store, oidc: Oidc, opa: OpaUse, p: Pass)
    requires oidc.Oidc? && ReconcileTrino(w, ns, true, workers, store, oidc, opa, p).Ok?
    ensures Stocked(ReconcileTrino(w, ns, true, workers, store, oidc, opa, p).w, SecretKey(ns, SecretTrinoInternal))
  {
    var k, actions := SecretKey(ns, SecretTrinoInternal), SharedSecretActions(ns, true);
    var r1 := Acts(w, p, actions);
    ActsStock(w, p, actions, actions[0]);
    var r2 := Acts(r1.w, p, TrinoActions(ns, store, oidc, opa, r1.value));
    ActsKeep(r1.w, p, TrinoActions(ns, store, oidc, opa, r1.value), k);
    KeptStocked(r1.w, r2.w, k);
    WorkersKeepSecrets(r2.w, ns, workers, p);
  }

  lemma TrinoStackStocks(spec: Spec, w: World, stack: Stack, p: Pass, k: SecretKey)
    requires stack.oidc.Oidc? && TrinoGenerates(spec, k) && ReconcileTrinoStack(w, spec, stack, p).Ok?
    ensures Stocked(ReconcileTrinoStack(w, spec, stack, p).w, k)
  {
    var t, opa := spec.trino, OpaUseOf(spec.authz, stack.oidc, stack.fga);
    var w1 := Act(w, p, EnsureNamespace(t.ns)).w;
    var w2 := ReconcileOpa(w1, spec, stack.oidc, stack.fga, p).w;
    TrinoStocks(w2, t.ns, t.workers, stack.store, stack.oidc, opa, p);
  }

  lemma StackClient(spec: Spec, w: World, p: Pass)
    requires spec.lakekeeper && ReconcileLakekeeperStack(w, spec, p).Ok? && !spec.auth.NoAuth?
    ensures ReconcileLakekeeperStack(w, spec, p).value.oidc.Oidc?
  {
    var r1 := ReconcileStorage(w, spec, p);
    var r2 := ReconcileAuth(r1.w, spec, p);
    AuthClient(spec, r1.w, p);
    var r3 := ReconcileAuthz(r2.w, spec, p);
    var r4 := RunLakekeeper(r3.w, spec, r2.value.1, r3.value.1, p);
    FinishHandsOn(spec, r4.w, r1.value, r2.value, r3.value, p);
  }

  /** A pass without error that finds identity provider and OpenFGA up leaves every generated
      secret in place. */
  lemma RunningStocks(spec: Spec, w: World, p: Pass)
    requires RunPass(w, spec, p).Ok? && AuthUp(w, spec) && FgaUp(w, spec)
              && !(spec.auth.EmbeddedKeycloak? && Clash(spec))
    ensures AllStocked(RunPass(w, spec, p).w, spec)
  {
    var s, w' := Start(w), RunPass(w, spec, p).w;
    forall k | Generated(spec, k) ensures Stocked(w', k) {
      var r := ReconcileLakekeeperStack(s, spec, p);
      if TrinoGenerates(spec, k) {
        StackClient(spec, s, p);
        TrinoStackStocks(spec, r.w, r.value, p, k);
      } else {
        StackStocks(spec, s, p, k);
        GeneratedRewritten(spec, k);
        TrinoStackKeeps(spec, r.w, r.value, p, k);
        KeptStocked(r.w, ReconcileTrinoStack(r.w, spec, r.value, p).w, k);
      }
    }
  }
}
