/** When a pass has no error: every call answered, and every secret that it reads complete. */
module Success {
  import opened Cluster
  import opened Reconcile
  import opened Frames
  import opened SecretTheorems
  import opened Draws

  ghost predicate Answered(p: Pass)
  {
    p.provisioned.Some? && forall n :: p.outcome(n).Done?
  }

  predicate Has(w: World, k: SecretKey, f: Field)
  {
    k in w.objects.secrets && f in w.objects.secrets[k]
  }

  /** Missing, or complete. */
  predicate Whole(w: World, k: SecretKey)
  {
    k in w.objects.secrets ==> FieldsOf(k.name) <= w.objects.secrets[k].Keys
  }

  lemma TendedWhole(w: World, w': World, k: SecretKey)
    requires Tended(w, w', k)
    ensures Whole(w, k) ==> Whole(w', k)
    ensures forall f | Has(w, k, f) :: Has(w', k, f)
  {
  }

  // --- Lists of actions ---

  /** What is sure to be in a secret once the action has made or completed it. */
  function Yields(a: Action): set<Field>
    requires Generates(a)
  {
    FieldsOf(a.key.name) + if a.EnsureOidc? then {OpaClientId, OpaClientSecret} else {}
  }

  lemma ActYields(w: World, p: Pass, a: Action, f: Field)
    requires Generates(a) && Tends(a, a.key) && Whole(w, a.key) && Act(w, p, a).Ok? && f in Yields(a)
    ensures Has(Act(w, p, a).w, a.key, f)
  {
    ActTends(w, p, a, a.key);
    TendedWhole(w, Act(w, p, a).w, a.key);
    if a.EnsureOidc? {
      ActStocks(w, p, a);
    }
  }

  lemma {:induction false} ActsYield(w: World, p: Pass, actions: seq<Action>, j: nat, f: Field)
    requires j < |actions| && Generates(actions[j]) && f in Yields(actions[j]) && Acts(w, p, actions).Ok?
    requires Whole(w, actions[j].key) && forall a | a in actions :: Tends(a, actions[j].key)
    ensures Has(Acts(w, p, actions).w, actions[j].key, f)
  {
    var n, k := |actions| - 1, actions[j].key;
    var r := Acts(w, p, actions[..n]);
    assert actions[n] in actions;
    if j == n {
      ActsTend(w, p, actions[..n], k);
      TendedWhole(w, r.w, k);
      ActYields(r.w, p, actions[n], f);
    } else {
      ActsYield(w, p, actions[..n], j, f);
      ActTends(r.w, p, actions[n], k);
      TendedWhole(r.w, Act(r.w, p, actions[n]).w, k);
    }
  }

  /** The value that the i-th action reads is there, or an earlier action has provided it. */
  ghost predicate Provided(w: World, actions: seq<Action>, i: nat)
    requires i < |actions| && actions[i].Get?
  {
    var k, f := actions[i].key, actions[i].field;
    && (forall a | a in actions :: Tends(a, k))
    && (Has(w, k, f)
        || (Whole(w, k)
            && exists j | 0 <= j < i :: Generates(actions[j]) && actions[j].key == k && f in Yields(actions[j])))
  }

  lemma ActAnswered(w: World, p: Pass, a: Action)
    requires Answered(p) && (a.Get? ==> Has(w, a.key, a.field))
    ensures Act(w, p, a).Ok?
  {
  }

  lemma {:induction false} ActsAnswered(w: World, p: Pass, actions: seq<Action>)
    requires Answered(p) && forall i | 0 <= i < |actions| && actions[i].Get? :: Provided(w, actions, i)
    ensures Acts(w, p, actions).Ok?
  {
    if actions != [] {
      var n := |actions| - 1;
      var init := actions[..n];
      forall i | 0 <= i < n && init[i].Get? ensures Provided(w, init, i) {
        ProvidedEarlier(w, actions, n, i);
      }
      ActsAnswered(w, p, init);
      var r := Acts(w, p, init);
      if actions[n].Get? {
        assert Provided(w, actions, n);
        LastProvided(w, p, actions);
      }
      ActAnswered(r.w, p, actions[n]);
    }
  }

  lemma ProvidedEarlier(w: World, actions: seq<Action>, n: nat, i: nat)
    requires i < n <= |actions| && actions[i].Get? && Provided(w, actions, i)
    ensures Provided(w, actions[..n], i)
  {
    var k, f := actions[i].key, actions[i].field;
    if !Has(w, k, f) {
      var j :| 0 <= j < i && Generates(actions[j]) && actions[j].key == k && f in Yields(actions[j]);
      assert actions[..n][j] == actions[j];
    }
  }

  lemma LastProvided(w: World, p: Pass, actions: seq<Action>)
    requires actions != [] && actions[|actions| - 1].Get? && Provided(w, actions, |actions| - 1)
    requires Acts(w, p, actions[..|actions| - 1]).Ok?
    ensures var n := |actions| - 1; Has(Acts(w, p, actions[..n]).w, actions[n].key, actions[n].field)
  {
    var n := |actions| - 1;
    var k, f, init := actions[n].key, actions[n].field, actions[..n];
    if Has(w, k, f) {
      ActsTend(w, p, init, k);
      TendedWhole(w, Acts(w, p, init).w, k);
    } else {
      var j :| 0 <= j < n && Generates(actions[j]) && actions[j].key == k && f in Yields(actions[j]);
      ActsYield(w, p, init, j, f);
    }
  }

  /** Calls, then a look at a workload that they have applied. */
  lemma ReadyAnswered(w: World, p: Pass, actions: seq<Action>, wl: Workload)
    requires Answered(p) && forall i | 0 <= i < |actions| && actions[i].Get? :: Provided(w, actions, i)
    requires Apply(wl) in actions && !wl.component.TrinoWorker?
    ensures Acts(w, p, actions).Ok? && WorkloadReady(Acts(w, p, actions).w, p, wl).Ok?
  {
    ActsAnswered(w, p, actions);
    ActsFrame(w, p, actions);
  }

  // --- What each component needs ---

  /** A user's secret with two keys. */
  predicate Credentialed(w: World, ns: string, ref: CredentialsRef)
  {
    var k := SecretKey(ns, ref.name);
    ref.name != UserSecret("") && Has(w, k, ref.first) && Has(w, k, ref.second)
  }

  predicate PostgresConfigured(w: World, spec: Spec)
  {
    match spec.postgres
    case EmbeddedPostgres(_) => true
    case ExternalPostgres(host, credentials) =>
      host != "" && credentials.Some?
        && Credentialed(w, if credentials.value.ns == "" then spec.ns else credentials.value.ns, credentials.value)
  }

  predicate StorageConfigured(w: World, spec: Spec)
  {
    match spec.storage
    case EmbeddedMinio(ns) => Whole(w, SecretKey(ns, SecretMinio))
    case ExternalS3(s3) =>
      && s3.Some? && s3.value.credentials.Some?
      && Credentialed(w, s3.value.credentials.value.ns, s3.value.credentials.value)
  }

  /** An optional key is either unset or there. */
  predicate Optional(w: World, k: SecretKey, key: Field)
  {
    key != UserField("") ==> Has(w, k, key)
  }

  predicate AuthConfigured(w: World, spec: Spec)
  {
    match spec.auth
    case NoAuth => true
    case EmbeddedKeycloak(ns) =>
      Whole(w, SecretKey(ns, SecretRealmKey)) && Whole(w, SecretKey(ns, SecretKeycloakAdmin))
        && Whole(w, SecretKey(ns, SecretOidc))
    case ExternalOidc(issuer, _, credentials) =>
      && issuer != "" && credentials.Some? && credentials.value.name != UserSecret("")
      && var ref := credentials.value;
      && var k := SecretKey(ref.ns, ref.name);
      && Has(w, k, ref.clientSecretKey)
      && Optional(w, k, ref.clientIdKey) && Optional(w, k, ref.trinoIdKey) && Optional(w, k, ref.trinoSecretKey)
  }

  predicate AuthzConfigured(w: World, spec: Spec)
  {
    match spec.authz
    case NoAuthz => true
    case ExternalOpenFga => false
    case EmbeddedOpenFga(ns, _, _, _) =>
      && Whole(w, SecretKey(ns, SecretOpenFga)) && Whole(w, SecretKey(ns, SecretPostgres))
      && (NeedsStore(spec) ==> spec.catalogClient)
  }

  predicate TrinoConfigured(w: World, spec: Spec)
  {
    spec.trino.EmbeddedTrino? ==> Whole(w, SecretKey(spec.trino.ns, SecretTrinoInternal))
  }

  lemma PostgresAnswered(spec: Spec, w: World, p: Pass)
    requires Answered(p) && PostgresConfigured(w, spec)
    ensures ReconcilePostgres(w, spec, p).Ok?
  {
    match spec.postgres
    case EmbeddedPostgres(db) =>
      var list := PostgresActions(spec.ns, db);
      assert list[2] == Apply(Workload(spec.ns, Postgres));
      ReadyAnswered(w, p, list, Workload(spec.ns, Postgres));
    case ExternalPostgres(_, credentials) =>
      var ref := credentials.value;
      ActsAnswered(w, p,
                   CredentialActions(SecretKey(if ref.ns == "" then spec.ns else ref.ns, ref.name), ref));
  }

  lemma MinioProvided(w: World, ns: string)
    requires Whole(w, SecretKey(ns, SecretMinio))
    ensures forall i | 0 <= i < |MinioActions(ns)| && MinioActions(ns)[i].Get? :: Provided(w, MinioActions(ns), i)
  {
    var list, k := MinioActions(ns), SecretKey(ns, SecretMinio);
    assert Generates(list[1]) && list[1].key == k && AccessKey in Yields(list[1]) && SecretAccessKey in Yields(list[1]);
  }

  lemma MinioAnswered(w: World, ns: string, p: Pass)
    requires Answered(p) && Whole(w, SecretKey(ns, SecretMinio))
    ensures ReconcileMinio(w, ns, p).Ok?
  {
    MinioProvided(w, ns);
    assert MinioActions(ns)[3] == Apply(Workload(ns, Minio));
    ReadyAnswered(w, p, MinioActions(ns), Workload(ns, Minio));
  }

  lemma ObjectStoreAnswered(spec: Spec, w: World, p: Pass)
    requires Answered(p) && StorageConfigured(w, spec)
    ensures ReconcileObjectStore(w, spec, p).Ok?
  {
    match spec.storage
    case EmbeddedMinio(ns) => MinioAnswered(w, ns, p);
    case ExternalS3(s3) =>
      var ref := s3.value.credentials.value;
      ActsAnswered(w, p, CredentialActions(SecretKey(ref.ns, ref.name), ref));
  }

  /** Where Keycloak's actions make the secret that a later one reads. */
  function MadeAt(n: SecretName): nat
  {
    if n.SecretRealmKey? then 1 else if n.SecretKeycloakAdmin? then 2 else 3
  }

  lemma KeycloakMakes(ns: string)
    ensures var list := KeycloakActions(ns);
            forall i | 0 <= i < |list| && list[i].Get? ::
              var j := MadeAt(list[i].key.name);
              && j < i && Generates(list[j]) && list[j].key == list[i].key && list[i].field in Yields(list[j])
              && list[i].key.ns == ns && list[i].key.name in {SecretRealmKey, SecretKeycloakAdmin, SecretOidc}
  {
  }

  lemma KeycloakProvided(w: World, ns: string)
    requires Whole(w, SecretKey(ns, SecretRealmKey)) && Whole(w, SecretKey(ns, SecretKeycloakAdmin))
              && Whole(w, SecretKey(ns, SecretOidc))
    ensures forall i | 0 <= i < |KeycloakActions(ns)|
              && KeycloakActions(ns)[i].Get? :: Provided(w, KeycloakActions(ns), i)
  {
    KeycloakMakes(ns);
    forall a, k | a in KeycloakActions(ns) ensures Tends(a, k) {
      KeycloakTends(ns, k);
    }
    MadeProvides(w, KeycloakActions(ns), ns);
  }

  lemma MadeProvides(w: World, list: seq<Action>, ns: string)
    requires Whole(w, SecretKey(ns, SecretRealmKey)) && Whole(w, SecretKey(ns, SecretKeycloakAdmin))
              && Whole(w, SecretKey(ns, SecretOidc))
    requires forall a, k | a in list :: Tends(a, k)
    requires forall i | 0 <= i < |list| && list[i].Get? ::
               var j := MadeAt(list[i].key.name);
               && j < i && Generates(list[j]) && list[j].key == list[i].key && list[i].field in Yields(list[j])
               && list[i].key.ns == ns && list[i].key.name in {SecretRealmKey, SecretKeycloakAdmin, SecretOidc}
    ensures forall i | 0 <= i < |list| && list[i].Get? :: Provided(w, list, i)
  {
    forall i | 0 <= i < |list| && list[i].Get? ensures Provided(w, list, i) {
      var j, k := MadeAt(list[i].key.name), list[i].key;
      assert k == SecretKey(ns, k.name);
      assert Generates(list[j]) && list[j].key == k && list[i].field in Yields(list[j]);
    }
  }

  lemma KeycloakAnswered(w: World, ns: string, p: Pass)
    requires Answered(p) && forall i | 0 <= i < |KeycloakActions(ns)|
              && KeycloakActions(ns)[i].Get? :: Provided(w, KeycloakActions(ns), i)
    ensures ReconcileKeycloak(w, ns, p).Ok?
  {
    assert KeycloakActions(ns)[12] == Apply(Workload(ns, Keycloak));
    ReadyAnswered(w, p, KeycloakActions(ns), Workload(ns, Keycloak));
  }

  lemma AuthAnswered(spec: Spec, w: World, p: Pass)
    requires Answered(p) && AuthConfigured(w, spec)
    ensures ReconcileAuth(w, spec, p).Ok?
  {
    match spec.auth
    case NoAuth =>
    case EmbeddedKeycloak(ns) =>
      KeycloakProvided(w, ns);
      KeycloakAnswered(w, ns, p);
    case ExternalOidc(_, _, credentials) => ActsAnswered(w, p, OidcActions(credentials.value));
  }

  lemma RunOpenFgaAnswered(w: World, ns: string, needsStore: bool, catalogClient: bool, p: Pass)
    requires Answered(p) && Has(w, SecretKey(ns, SecretPostgres), Password)
              && Has(w, SecretKey(ns, SecretOpenFga), ApiKey)
    requires needsStore ==> catalogClient
    ensures RunOpenFga(w, ns, needsStore, catalogClient, p).Ok?
  {
    assert RunOpenFgaActions(ns)[1] == Apply(Workload(ns, OpenFga));
    ReadyAnswered(w, p, RunOpenFgaActions(ns), Workload(ns, OpenFga));
  }

  lemma OpenFgaCalls(w: World, ns: string, p: Pass)
    requires Answered(p)
    ensures var r := Acts(w, p, OpenFgaActions(ns)); r.Ok? && WorkloadReady(r.w, p, Workload(ns, Postgres)).Ok?
  {
    assert OpenFgaActions(ns)[4] == Apply(Workload(ns, Postgres));
    ReadyAnswered(w, p, OpenFgaActions(ns), Workload(ns, Postgres));
  }

  lemma OpenFgaSecrets(w: World, ns: string, p: Pass, list: seq<Action>)
    requires Whole(w, SecretKey(ns, SecretPostgres)) && Whole(w, SecretKey(ns, SecretOpenFga))
    requires |list| > 2 && Acts(w, p, list).Ok? && forall a, k | a in list :: Tends(a, k)
    requires list[1].Generate? && list[1].key == SecretKey(ns, SecretOpenFga)
    requires list[2].Generate? && list[2].key == SecretKey(ns, SecretPostgres)
    ensures Has(Acts(w, p, list).w, SecretKey(ns, SecretPostgres), Password)
              && Has(Acts(w, p, list).w, SecretKey(ns, SecretOpenFga), ApiKey)
  {
    ActsYield(w, p, list, 1, ApiKey);
    ActsYield(w, p, list, 2, Password);
  }

  lemma OpenFgaAnswered(w: World, ns: string, needsStore: bool, catalogClient: bool, p: Pass)
    requires Answered(p) && Whole(w, SecretKey(ns, SecretPostgres)) && Whole(w, SecretKey(ns, SecretOpenFga))
    requires needsStore ==> catalogClient
    ensures ReconcileOpenFga(w, ns, needsStore, catalogClient, p).Ok?
  {
    var list := OpenFgaActions(ns);
    OpenFgaCalls(w, ns, p);
    forall a, k | a in list ensures Tends(a, k) {
      OpenFgaTends(ns, k);
    }
    OpenFgaSecrets(w, ns, p, list);
    var r2 := WorkloadReady(Acts(w, p, list).w, p, Workload(ns, Postgres));
    if r2.value {
      RunOpenFgaAnswered(r2.w, ns, needsStore, catalogClient, p);
    }
  }

  lemma AuthzAnswered(spec: Spec, w: World, p: Pass)
    requires Answered(p) && AuthzConfigured(w, spec)
    ensures ReconcileAuthz(w, spec, p).Ok?
  {
    if spec.authz.EmbeddedOpenFga? {
      OpenFgaAnswered(w, spec.authz.ns, NeedsStore(spec), spec.catalogClient, p);
    }
  }

  lemma RunLakekeeperAnswered(spec: Spec, w: World, authReady: bool, fgaReady: bool, p: Pass)
    requires Answered(p)
    ensures RunLakekeeper(w, spec, authReady, fgaReady, p).Ok?
  {
    assert LakekeeperActions(spec.ns)[2] == Apply(Workload(spec.ns, Lakekeeper));
    ReadyAnswered(w, p, LakekeeperActions(spec.ns), Workload(spec.ns, Lakekeeper));
  }

  lemma FinishAnswered(spec: Spec, w: World, store: (Store, bool), auth: (Oidc, bool), fga: (Fga, bool), p: Pass)
    requires Answered(p)
    ensures FinishStack(w, spec, store, auth, fga, p).Ok?
  {
  }

  lemma OpaAnswered(spec: Spec, w: World, oidc: Oidc, fga: Fga, p: Pass)
    requires Answered(p)
    ensures ReconcileOpa(w, spec, oidc, fga, p).Ok?
  {
    if !(fga.NoFga? || oidc.NoOidc? || !spec.authz.EmbeddedOpenFga?) {
      var list := OpaActions(spec.authz.ns, oidc);
      assert list[3] == Apply(Workload(spec.authz.ns, Opa));
      ReadyAnswered(w, p, list, Workload(spec.authz.ns, Opa));
    }
  }

  lemma TrinoActionsAnswered(w: World, ns: string, store: Store, oidc: Oidc, opa: OpaUse, shared: seq<Value>,
                             workers: nat, p: Pass)
    requires Answered(p)
    ensures var r := Acts(w, p, TrinoActions(ns, store, oidc, opa, shared));
            && r.Ok? && ReconcileTrinoWorkers(r.w, ns, workers, p).Ok?
            && WorkloadReady(ReconcileTrinoWorkers(r.w, ns, workers, p).w, p, Workload(ns, Trino)).Ok?
  {
    var list := TrinoActions(ns, store, oidc, opa, shared);
    assert list[4] == Apply(Workload(ns, Trino));
    ReadyAnswered(w, p, list, Workload(ns, Trino));
    WorkersResult(Acts(w, p, list).w, ns, workers, p);
  }

  lemma TrinoAnswered(w: World, ns: string, hasPublicUrl: bool, workers: nat, store: Store, oidc: Oidc, opa: OpaUse,
                      p: Pass)
    requires Answered(p) && Whole(w, SecretKey(ns, SecretTrinoInternal))
    ensures ReconcileTrino(w, ns, hasPublicUrl, workers, store, oidc, opa, p).Ok?
  {
    var list := SharedSecretActions(ns, oidc.Oidc? && hasPublicUrl);
    if list != [] {
      assert Generates(list[0]) && SharedSecret in Yields(list[0]);
    }
    ActsAnswered(w, p, list);
    var r := Acts(w, p, list);
    TrinoActionsAnswered(r.w, ns, store, oidc, opa, r.value, workers, p);
  }

  // --- The pass ---

  /** The spec is complete, and so is every secret that the pass may read. */
  predicate Configured(w: World, spec: Spec)
  {
    && (spec.lakekeeper ==>
          PostgresConfigured(w, spec) && StorageConfigured(w, spec) && AuthConfigured(w, spec)
            && AuthzConfigured(w, spec))
    && TrinoConfigured(w, spec)
  }

  lemma CredentialedKept(w: World, w': World, ns: string, ref: CredentialsRef)
    requires Credentialed(w, ns, ref) && Tended(w, w', SecretKey(ns, ref.name))
    ensures Credentialed(w', ns, ref)
  {
  }

  lemma StorageKept(spec: Spec, w: World, w': World)
    requires PostgresConfigured(w, spec) && StorageConfigured(w, spec)
    requires forall k | StorageReads(spec, k) :: Tended(w, w', k)
    ensures PostgresConfigured(w', spec) && StorageConfigured(w', spec)
  {
    if spec.postgres.ExternalPostgres? {
      var ref := spec.postgres.credentials.value;
      var ns := if ref.ns == "" then spec.ns else ref.ns;
      assert StorageReads(spec, SecretKey(ns, ref.name));
      CredentialedKept(w, w', ns, ref);
    }
    match spec.storage
    case EmbeddedMinio(ns) =>
      assert StorageReads(spec, SecretKey(ns, SecretMinio));
    case ExternalS3(s3) =>
      var ref := s3.value.credentials.value;
      assert StorageReads(spec, SecretKey(ref.ns, ref.name));
      CredentialedKept(w, w', ref.ns, ref);
  }

  lemma AuthConfigKept(spec: Spec, w: World, w': World)
    requires AuthConfigured(w, spec) && forall k | AuthReads(spec, k) :: Tended(w, w', k)
    ensures AuthConfigured(w', spec)
  {
    match spec.auth
    case NoAuth =>
    case EmbeddedKeycloak(ns) =>
      assert AuthReads(spec, SecretKey(ns, SecretRealmKey)) && AuthReads(spec, SecretKey(ns, SecretKeycloakAdmin));
      assert AuthReads(spec, SecretKey(ns, SecretOidc));
    case ExternalOidc(_, _, credentials) =>
      var k := SecretKey(credentials.value.ns, credentials.value.name);
      assert AuthReads(spec, k);
      TendedWhole(w, w', k);
  }

  lemma AuthzConfigKept(spec: Spec, w: World, w': World)
    requires AuthzConfigured(w, spec) && forall k | AuthzGenerates(spec, k) :: Tended(w, w', k)
    ensures AuthzConfigured(w', spec)
  {
    if spec.authz.EmbeddedOpenFga? {
      assert AuthzGenerates(spec, SecretKey(spec.authz.ns, SecretOpenFga))
        && AuthzGenerates(spec, SecretKey(spec.authz.ns, SecretPostgres));
    }
  }

  lemma StorageAnswered(spec: Spec, w: World, p: Pass)
    requires Answered(p) && PostgresConfigured(w, spec) && StorageConfigured(w, spec)
    ensures ReconcileStorage(w, spec, p).Ok?
  {
    var a := EnsureNamespace(spec.ns);
    ActAnswered(w, p, a);
    var w1 := Act(w, p, a).w;
    forall k | StorageReads(spec, k) ensures Tended(w, w1, k) { ActTends(w, p, a, k); }
    StorageKept(spec, w, w1);
    PostgresAnswered(spec, w1, p);
    var w2 := ReconcilePostgres(w1, spec, p).w;
    forall k | StorageReads(spec, k) ensures Tended(w1, w2, k) { PostgresKeeps(spec, w1, p, k); }
    StorageKept(spec, w1, w2);
    ObjectStoreAnswered(spec, w2, p);
  }

  /** The identity provider's clients are not read from the bucket step's secret, which the
      same pass has just written. */
  ghost predicate ClientApart(spec: Spec)
  {
    forall k | ClientKey(spec.auth, k) :: !BucketWrites(spec, k)
  }

  lemma StackAnswered(spec: Spec, w: World, p: Pass)
    requires Answered(p) && Configured(w, spec) && (spec.lakekeeper ==> ClientApart(spec))
    ensures ReconcileLakekeeperStack(w, spec, p).Ok?
  {
    if spec.lakekeeper {
      StorageAnswered(spec, w, p);
      var r1 := ReconcileStorage(w, spec, p);
      forall k | AuthReads(spec, k) || AuthzGenerates(spec, k) ensures Tended(w, r1.w, k) {
        StorageKeeps(spec, w, p, k);
      }
      AuthConfigKept(spec, w, r1.w);
      AuthzConfigKept(spec, w, r1.w);
      AuthAnswered(spec, r1.w, p);
      var r2 := ReconcileAuth(r1.w, spec, p);
      forall k | AuthzGenerates(spec, k) ensures Tended(r1.w, r2.w, k) { AuthKeeps(spec, r1.w, p, k); }
      AuthzConfigKept(spec, r1.w, r2.w);
      AuthzAnswered(spec, r2.w, p);
      var r3 := ReconcileAuthz(r2.w, spec, p);
      RunLakekeeperAnswered(spec, r3.w, r2.value.1, r3.value.1, p);
      var r4 := RunLakekeeper(r3.w, spec, r2.value.1, r3.value.1, p);
      FinishAnswered(spec, r4.w, r1.value, r2.value, r3.value, p);
    }
  }

  lemma TrinoStackAnswered(spec: Spec, w: World, stack: Stack, p: Pass)
    requires Answered(p) && TrinoConfigured(w, spec)
    ensures ReconcileTrinoStack(w, spec, stack, p).Ok?
  {
    if spec.trino.EmbeddedTrino? {
      var t, k, a := spec.trino, SecretKey(spec.trino.ns, SecretTrinoInternal), EnsureNamespace(spec.trino.ns);
      ActAnswered(w, p, a);
      var w1 := Act(w, p, a).w;
      ActTends(w, p, a, k);
      TendedWhole(w, w1, k);
      OpaAnswered(spec, w1, stack.oidc, stack.fga, p);
      var w2 := ReconcileOpa(w1, spec, stack.oidc, stack.fga, p).w;
      OpaKeeps(spec, w1, stack.oidc, stack.fga, p, k);
      TendedWhole(w1, w2, k);
      var opa := OpaUseOf(spec.authz, stack.oidc, stack.fga);
      TrinoAnswered(w2, t.ns, t.hasPublicUrl, t.workers, stack.store, stack.oidc, opa, p);
    }
  }

  /** A pass whose calls are all answered has no error when the spec is complete and every
      secret that it reads is either missing, where the operator makes it, or complete. */
  lemma PassAnswered(spec: Spec, w: World, p: Pass)
    requires Answered(p) && Configured(w, spec) && (spec.lakekeeper ==> ClientApart(spec))
    ensures RunPass(w, spec, p).Ok?
  {
    var s := Start(w);
    assert Configured(s, spec);
    StackAnswered(spec, s, p);
    var r := ReconcileLakekeeperStack(s, spec, p);
    if spec.trino.EmbeddedTrino? {
      var k := SecretKey(spec.trino.ns, SecretTrinoInternal);
      StackKeeps(spec, s, p, k);
      TendedWhole(s, r.w, k);
    }
    TrinoStackAnswered(spec, r.w, r.value, p);
  }

  /** Answered, the deletion takes effect, and nothing in the list makes the object anew. */
  lemma {:induction false} ActsDiscard(w: World, p: Pass, actions: seq<Action>, ns: string)
    requires Answered(p) && DiscardOldConfig(ns) in actions && ApplyPlain(OldTrinoConfig(ns)) !in actions
    requires Acts(w, p, actions).Ok?
    ensures OldTrinoConfig(ns) !in Acts(w, p, actions).w.objects.plain
  {
    var n := |actions| - 1;
    var r := Acts(w, p, actions[..n]);
    assert actions[n] in actions;
    if actions[n] != DiscardOldConfig(ns) {
      ActsDiscard(w, p, actions[..n], ns);
      ActAddsNothing(r.w, p, actions[n], OldTrinoConfig(ns));
    }
  }

  lemma ActAddsNothing(w: World, p: Pass, a: Action, o: Plain)
    requires o !in w.objects.plain && a != ApplyPlain(o)
    ensures o !in Act(w, p, a).w.objects.plain
  {
  }

  /** After an answered pass Trino's configuration is no longer in the ConfigMap of old. */
  lemma OldConfigGone(spec: Spec, w: World, stack: Stack, p: Pass)
    requires Answered(p) && spec.trino.EmbeddedTrino? && ReconcileTrinoStack(w, spec, stack, p).Ok?
    ensures OldTrinoConfig(spec.trino.ns) !in ReconcileTrinoStack(w, spec, stack, p).w.objects.plain
  {
    var t, opa := spec.trino, OpaUseOf(spec.authz, stack.oidc, stack.fga);
    var w1 := Act(w, p, EnsureNamespace(t.ns)).w;
    var w2 := ReconcileOpa(w1, spec, stack.oidc, stack.fga, p).w;
    var r3 := Acts(w2, p, SharedSecretActions(t.ns, stack.oidc.Oidc? && t.hasPublicUrl));
    var list := TrinoActions(t.ns, stack.store, stack.oidc, opa, r3.value);
    assert list[0] == DiscardOldConfig(t.ns);
    ActsDiscard(r3.w, p, list, t.ns);
  }
}
