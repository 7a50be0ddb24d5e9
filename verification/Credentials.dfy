/** Credentials agree: what a pass renders into the secrets of consumers is what it finds in
    the secrets of the components that own the credentials. */
module Credentials {
  import opened Wrappers
  import opened Cluster
  import opened Reconcile
  import opened Frames
  import opened SecretTheorems

  ghost predicate Holds(w: World, k: SecretKey, f: Field, v: Value)
  {
    k in w.objects.secrets && f in w.objects.secrets[k] && w.objects.secrets[k][f] == v
  }

  lemma KeptHolds(w: World, w': World, k: SecretKey, f: Field, v: Value)
    requires Kept(w, w', k) && Holds(w, k, f, v)
    ensures Holds(w', k, f, v)
  {
  }

  // --- The values that a list of actions reads ---

  /** How many values the first i actions read. */
  function Reads(actions: seq<Action>, i: nat): nat
    requires i <= |actions|
  {
    if i == 0 then 0 else Reads(actions, i - 1) + if actions[i - 1].Get? then 1 else 0
  }

  lemma {:induction false} ReadsPrefix(actions: seq<Action>, n: nat, i: nat)
    requires i <= n <= |actions|
    ensures Reads(actions[..n], i) == Reads(actions, i)
  {
    if i > 0 {
      ReadsPrefix(actions, n, i - 1);
    }
  }

  /** Over a stretch that reads at every step, or at none. */
  lemma {:induction false} ReadsStretch(actions: seq<Action>, i: nat, j: nat, reading: bool)
    requires i <= j <= |actions| && forall n | i <= n < j :: actions[n].Get? == reading
    ensures Reads(actions, j) == Reads(actions, i) + if reading then j - i else 0
    decreases j
  {
    if i < j {
      ReadsStretch(actions, i, j - 1, reading);
    }
  }

  lemma ActReads(w: World, p: Pass, a: Action)
    requires Act(w, p, a).Ok?
    ensures |Act(w, p, a).value| == if a.Get? then 1 else 0
    ensures a.Get? ==> Holds(Act(w, p, a).w, a.key, a.field, Act(w, p, a).value[0])
  {
  }

  lemma {:induction false} ActsReadAll(w: World, p: Pass, actions: seq<Action>)
    requires Acts(w, p, actions).Ok?
    ensures |Acts(w, p, actions).value| == Reads(actions, |actions|)
  {
    if actions != [] {
      var n := |actions| - 1;
      ActsReadAll(w, p, actions[..n]);
      ReadsPrefix(actions, n, n);
      ActReads(Acts(w, p, actions[..n]).w, p, actions[n]);
    }
  }

  /** The value of the i-th action, if it is a `Get`, is in the secret when the list ends. */
  lemma {:induction false} ActsRead(w: World, p: Pass, actions: seq<Action>, i: nat)
    requires Acts(w, p, actions).Ok? && i < |actions| && actions[i].Get?
    requires forall a | a in actions && a.Rewrite? :: a.key != actions[i].key
    ensures Reads(actions, i) < |Acts(w, p, actions).value|
    ensures Holds(Acts(w, p, actions).w, actions[i].key, actions[i].field, Acts(w, p, actions).value[Reads(actions, i)])
  {
    var n := |actions| - 1;
    var r := Acts(w, p, actions[..n]);
    ReadsPrefix(actions, n, i);
    ActReads(r.w, p, actions[n]);
    if i == n {
      ActsReadAll(w, p, actions[..n]);
    } else {
      assert actions[..n][i] == actions[i];
      ActsRead(w, p, actions[..n], i);
      assert actions[n] in actions;
      ActKeeps(r.w, p, actions[n], actions[i].key);
      KeptHolds(r.w, Act(r.w, p, actions[n]).w, actions[i].key, actions[i].field, r.value[Reads(actions, i)]);
    }
  }

  /** What a list writes last is there when it ends. */
  lemma {:induction false} ActsWrite(w: World, p: Pass, actions: seq<Action>, k: SecretKey, data: SecretData)
    requires Rewrite(k, data) in actions && Acts(w, p, actions).Ok?
    requires forall a | a in actions && a.Rewrite? && a.key == k :: a.data == data
    requires forall a | a in actions :: !Generates(a)
    ensures k in Acts(w, p, actions).w.objects.secrets && Acts(w, p, actions).w.objects.secrets[k] == data
  {
    var n := |actions| - 1;
    var r := Acts(w, p, actions[..n]);
    if actions[n] != Rewrite(k, data) {
      ActsWrite(w, p, actions[..n], k, data);
      assert actions[n] in actions;
      ActLeaves(r.w, p, actions[n], k);
    }
  }

  lemma ActLeaves(w: World, p: Pass, a: Action, k: SecretKey)
    requires k in w.objects.secrets && !Generates(a) && (a.Rewrite? ==> a.key != k)
    ensures k in Act(w, p, a).w.objects.secrets && Act(w, p, a).w.objects.secrets[k] == w.objects.secrets[k]
  {
  }

  // --- Owners of credentials ---

  lemma MinioReads(w: World, ns: string, p: Pass)
    requires Acts(w, p, MinioActions(ns)).Ok?
    ensures var r := Acts(w, p, MinioActions(ns));
            var k := SecretKey(ns, SecretMinio);
            Holds(r.w, k, AccessKey, StoreOf(r.value, false).access)
              && Holds(r.w, k, SecretAccessKey, StoreOf(r.value, false).secret)
  {
    var list := MinioActions(ns);
    ReadsStretch(list, 0, 4, false);
    ReadsStretch(list, 4, 5, true);
    ActsRead(w, p, list, 4);
    ActsRead(w, p, list, 5);
  }

  /** The bucket step's client is given the store's keys. */
  ghost predicate McRendered(w: World, ns: string, store: Store)
    requires store.Store?
  {
    Holds(w, SecretKey(ns, SecretMinioMc), McHost, Built(McHost, [store.access, store.secret]))
  }

  lemma BucketRenders(w: World, ns: string, store: Store, p: Pass)
    requires EnsureMinioBucket(w, ns, store, p).Ok? && store.Store?
    ensures McRendered(EnsureMinioBucket(w, ns, store, p).w, ns, store)
  {
  }

  lemma MinioStore(w: World, ns: string, p: Pass)
    requires ReconcileMinio(w, ns, p).Ok?
    ensures var r := ReconcileMinio(w, ns, p);
            var k := SecretKey(ns, SecretMinio);
            && r.value.0.Store? && !r.value.0.sts
            && Holds(r.w, k, AccessKey, r.value.0.access) && Holds(r.w, k, SecretAccessKey, r.value.0.secret)
            && (Up(w, Workload(ns, Minio)) ==> McRendered(r.w, ns, r.value.0))
  {
    ReadyAfter(w, p, MinioActions(ns), Workload(ns, Minio));
    var k, r1 := SecretKey(ns, SecretMinio), Acts(w, p, MinioActions(ns));
    MinioReads(w, ns, p);
    var r2 := WorkloadReady(r1.w, p, Workload(ns, Minio));
    if r2.value {
      BucketKeeps(r2.w, ns, StoreOf(r1.value, false), p, k);
      BucketRenders(r2.w, ns, StoreOf(r1.value, false), p);
    }
  }

  lemma KeycloakReads(ns: string)
    ensures var list := KeycloakActions(ns);
            forall i | 13 <= i < 20 :: list[i].Get? && Reads(list, i) == i - 7
  {
    var list := KeycloakActions(ns);
    ReadsStretch(list, 0, 4, false);
    ReadsStretch(list, 4, 10, true);
    ReadsStretch(list, 10, 13, false);
    forall i | 13 <= i < 20 ensures list[i].Get? && Reads(list, i) == i - 7 {
      ReadsStretch(list, 13, i, true);
    }
  }

  /** The clients that the identity provider's secret holds. */
  ghost predicate ClientsOf(w: World, k: SecretKey, oidc: Oidc)
  {
    && oidc.Oidc?
    && Holds(w, k, ClientId, oidc.ui)
    && Holds(w, k, OperatorClientId, oidc.operator.id) && Holds(w, k, OperatorClientSecret, oidc.operator.secret)
    && Holds(w, k, TrinoClientId, oidc.trino.id) && Holds(w, k, TrinoClientSecret, oidc.trino.secret)
    && Holds(w, k, OpaClientId, oidc.opa.id) && Holds(w, k, OpaClientSecret, oidc.opa.secret)
  }

  lemma ClientFields(ns: string)
    ensures var list, k := KeycloakActions(ns), SecretKey(ns, SecretOidc);
            && list[13..17] ==
              [Get(k, OperatorClientId), Get(k, OperatorClientSecret), Get(k, TrinoClientId), Get(k, TrinoClientSecret)]
            && list[17..20] == [Get(k, ClientId), Get(k, OpaClientId), Get(k, OpaClientSecret)]
  {
  }

  /** The entry is there, whatever it is. */
  ghost predicate Present(w: World, k: SecretKey, f: Field)
  {
    k in w.objects.secrets && f in w.objects.secrets[k]
  }

  /** A success has found the admin's password and the realm's key pair as well. */
  lemma RealmPresent(w: World, ns: string, p: Pass)
    requires ReconcileKeycloak(w, ns, p).Ok?
    ensures var w' := ReconcileKeycloak(w, ns, p).w;
            && Present(w', SecretKey(ns, SecretKeycloakAdmin), Password)
            && Present(w', SecretKey(ns, SecretRealmKey), PrivateKey)
            && Present(w', SecretKey(ns, SecretRealmKey), Certificate)
  {
    var list := KeycloakActions(ns);
    KeycloakRewritesNothing(ns);
    RealmFields(ns);
    ActsRead(w, p, list, 4);
    ActsRead(w, p, list, 8);
    ActsRead(w, p, list, 9);
  }

  lemma RealmFields(ns: string)
    ensures var list := KeycloakActions(ns);
            && list[4] == Get(SecretKey(ns, SecretKeycloakAdmin), Password)
            && list[8] == Get(SecretKey(ns, SecretRealmKey), PrivateKey)
            && list[9] == Get(SecretKey(ns, SecretRealmKey), Certificate)
  {
  }

  lemma KeycloakClients(w: World, ns: string, p: Pass)
    requires ReconcileKeycloak(w, ns, p).Ok?
    ensures ClientsOf(ReconcileKeycloak(w, ns, p).w, SecretKey(ns, SecretOidc), ReconcileKeycloak(w, ns, p).value.0)
  {
    var list := KeycloakActions(ns);
    KeycloakReads(ns);
    KeycloakRewritesNothing(ns);
    forall i | 13 <= i < 20
      ensures i - 7 < |Acts(w, p, list).value|
                && Holds(Acts(w, p, list).w, list[i].key, list[i].field, Acts(w, p, list).value[i - 7])
    {
      ActsRead(w, p, list, i);
    }
    ClientFields(ns);
  }

  /** OpenFGA's configuration carries the key that its secret holds, and its database's password
      is there. */
  lemma OpenFgaKey(w: World, ns: string, needsStore: bool, catalogClient: bool, p: Pass)
    requires RunOpenFga(w, ns, needsStore, catalogClient, p).Ok?
    ensures var r := RunOpenFga(w, ns, needsStore, catalogClient, p);
            && r.value.0.Fga? && Holds(r.w, SecretKey(ns, SecretOpenFga), ApiKey, r.value.0.apiKey)
            && Present(r.w, SecretKey(ns, SecretPostgres), Password)
  {
    var list := RunOpenFgaActions(ns);
    ReadsStretch(list, 0, 1, true);
    ReadsStretch(list, 1, 2, false);
    ActsRead(w, p, list, 0);
    ActsRead(w, p, list, 2);
  }

  /** A database that the operator runs has the name of the spec from the start, and the
      credentials of an external one are there. */
  lemma DatabaseSecrets(spec: Spec, w: World, p: Pass)
    requires ReconcilePostgres(w, spec, p).Ok?
    ensures var w' := ReconcilePostgres(w, spec, p).w;
            match spec.postgres
            case EmbeddedPostgres(db) =>
              var k := SecretKey(spec.ns, SecretPostgres);
              k !in w.objects.secrets ==> Holds(w', k, Database, Text(db))
            case ExternalPostgres(host, credentials) =>
              && host != "" && credentials.Some? && credentials.value.name != UserSecret("")
              && var ref := credentials.value;
              && var k := SecretKey(if ref.ns == "" then spec.ns else ref.ns, ref.name);
              && Present(w', k, ref.first) && Present(w', k, ref.second)
  {
    match spec.postgres
    case EmbeddedPostgres(db) =>
      if SecretKey(spec.ns, SecretPostgres) !in w.objects.secrets { DatabaseNamed(w, spec.ns, db, p); }
    case ExternalPostgres(_, credentials) =>
      var ref := credentials.value;
      var list := CredentialActions(SecretKey(if ref.ns == "" then spec.ns else ref.ns, ref.name), ref);
      ActsRead(w, p, list, 0);
      ActsRead(w, p, list, 1);
  }

  lemma DatabaseNamed(w: World, ns: string, db: string, p: Pass)
    requires Acts(w, p, PostgresActions(ns, db)).Ok? && SecretKey(ns, SecretPostgres) !in w.objects.secrets
    ensures Holds(Acts(w, p, PostgresActions(ns, db)).w, SecretKey(ns, SecretPostgres), Database, Text(db))
  {
    var k, list := SecretKey(ns, SecretPostgres), PostgresActions(ns, db);
    FirstGenerates(w, p, list, k);
    var template := list[0].template;
    assert Database in template && template[Database] == Fixed(db);
    assert Instantiate(k, template, p)[Database] == Text(db);
  }

  /** A secret that the list's first action generates holds what its template says. */
  lemma {:induction false} FirstGenerates(w: World, p: Pass, list: seq<Action>, k: SecretKey)
    requires list != [] && list[0].GenerateOnce? && list[0].key == k && k !in w.objects.secrets
    requires Acts(w, p, list).Ok? && forall a | a in list :: !a.Rewrite?
    ensures forall f | f in list[0].template ::
              Holds(Acts(w, p, list).w, k, f, Instantiate(k, list[0].template, p)[f])
  {
    var n := |list| - 1;
    var r := Acts(w, p, list[..n]);
    if n == 0 {
      assert list[..0] == [];
    } else {
      FirstGenerates(w, p, list[..n], k);
      assert list[n] in list;
      ActKeeps(r.w, p, list[n], k);
    }
  }

  /** LakeKeeper vends temporary credentials, so that engines get no keys of their own. */
  predicate VendsCredentials(spec: Spec)
  {
    spec.storage.ExternalS3? && spec.storage.s3.Some? && spec.storage.s3.value.sts
  }

  /** Where the object store's credentials come from. */
  ghost predicate StoreOwned(spec: Spec, w: World, store: Store)
  {
    store.Store? && store.sts == VendsCredentials(spec) &&
    match spec.storage
    case EmbeddedMinio(ns) =>
      Holds(w, SecretKey(ns, SecretMinio), AccessKey, store.access)
        && Holds(w, SecretKey(ns, SecretMinio), SecretAccessKey, store.secret)
    case ExternalS3(s3) =>
      && s3.Some? && s3.value.credentials.Some? && s3.value.credentials.value.name != UserSecret("")
      && var ref := s3.value.credentials.value;
      && Holds(w, SecretKey(ref.ns, ref.name), ref.first, store.access)
      && Holds(w, SecretKey(ref.ns, ref.name), ref.second, store.secret)
  }

  lemma ExternalStore(w: World, s3: Option<S3Spec>, p: Pass)
    requires ExternalObjectStore(w, s3, p).Ok?
    ensures s3.Some? && s3.value.credentials.Some? && s3.value.credentials.value.name != UserSecret("")
    ensures var r := ExternalObjectStore(w, s3, p);
            var ref := s3.value.credentials.value;
            && r.value.0.Store? && r.value.0.sts == s3.value.sts
            && Holds(r.w, SecretKey(ref.ns, ref.name), ref.first, r.value.0.access)
            && Holds(r.w, SecretKey(ref.ns, ref.name), ref.second, r.value.0.secret)
  {
    var ref := s3.value.credentials.value;
    var list := CredentialActions(SecretKey(ref.ns, ref.name), ref);
    ReadsStretch(list, 0, 1, true);
    ActsRead(w, p, list, 0);
    ActsRead(w, p, list, 1);
  }

  lemma ObjectStoreOwned(spec: Spec, w: World, p: Pass)
    requires ReconcileObjectStore(w, spec, p).Ok?
    ensures StoreOwned(spec, ReconcileObjectStore(w, spec, p).w, ReconcileObjectStore(w, spec, p).value.0)
  {
    match spec.storage
    case EmbeddedMinio(ns) => MinioStore(w, ns, p);
    case ExternalS3(s3) => ExternalStore(w, s3, p);
  }

  /** The keys of an external provider's secret that Trino and OPA use: their own, or the
      primary client's when those are unset. */
  function TrinoSecretKey(ref: OidcRef): Field
  {
    if ref.trinoSecretKey == UserField("") then ref.clientSecretKey else ref.trinoSecretKey
  }

  function TrinoIdKey(ref: OidcRef): Field { if ref.trinoIdKey == UserField("") then ref.clientIdKey
                                            else ref.trinoIdKey }

  ghost predicate ExternalClientsOf(w: World, ref: OidcRef, clientId: string, oidc: Oidc)
  {
    var k := SecretKey(ref.ns, ref.name);
    && oidc.Oidc?
    && Holds(w, k, ref.clientSecretKey, oidc.operator.secret)
    && (if ref.clientIdKey == UserField("") then oidc.operator.id == Text(clientId)
        else Holds(w, k, ref.clientIdKey, oidc.operator.id))
    && oidc.ui == oidc.operator.id
    && Holds(w, k, TrinoSecretKey(ref), oidc.trino.secret)
    && (if TrinoIdKey(ref) == UserField("") then oidc.trino.id == Text(clientId)
        else Holds(w, k, TrinoIdKey(ref), oidc.trino.id))
    && oidc.opa == oidc.trino
  }

  /** In a list that only reads, the i-th value is the i-th entry's. */
  lemma AllRead(w: World, p: Pass, list: seq<Action>)
    requires Acts(w, p, list).Ok? && forall a | a in list :: a.Get?
    ensures |Acts(w, p, list).value| == |list|
    ensures forall i | 0 <= i < |list| ::
              Holds(Acts(w, p, list).w, list[i].key, list[i].field, Acts(w, p, list).value[i])
  {
    ActsReadAll(w, p, list);
    ReadsStretch(list, 0, |list|, true);
    forall i | 0 <= i < |list|
      ensures Holds(Acts(w, p, list).w, list[i].key, list[i].field, Acts(w, p, list).value[i])
    {
      ReadsStretch(list, 0, i, true);
      ActsRead(w, p, list, i);
    }
  }

  lemma OidcOnlyReads(ref: OidcRef)
    ensures forall a | a in OidcActions(ref) :: a.Get?
  {
  }

  lemma ExternalClients(w: World, ref: OidcRef, clientId: string, p: Pass)
    requires Acts(w, p, OidcActions(ref)).Ok?
    ensures ExternalClientsOf(Acts(w, p, OidcActions(ref)).w, ref, clientId,
                              ExternalOidcOf(ref, clientId, Acts(w, p, OidcActions(ref)).value))
  {
    OidcOnlyReads(ref);
    AllRead(w, p, OidcActions(ref));
    ExternalIndices(ref);
  }

  /** Where the optional keys are in the list. */
  lemma ExternalIndices(ref: OidcRef)
    ensures var list, k := OidcActions(ref), SecretKey(ref.ns, ref.name);
            var i := if ref.clientIdKey == UserField("") then 0 else 1;
            var j := if ref.trinoIdKey == UserField("") then i else i + 1;
            && |list| == j + 1 + (if ref.trinoSecretKey == UserField("") then 0 else 1)
            && (ref.clientIdKey != UserField("") ==> list[0] == Get(k, ref.clientIdKey))
            && list[i] == Get(k, ref.clientSecretKey)
            && (ref.trinoIdKey != UserField("") ==> list[j] == Get(k, ref.trinoIdKey))
            && (ref.trinoSecretKey != UserField("") ==> list[j + 1] == Get(k, ref.trinoSecretKey))
  {
  }

  ghost predicate OidcOwned(spec: Spec, w: World, oidc: Oidc)
  {
    match spec.auth
    case NoAuth => oidc.NoOidc?
    case EmbeddedKeycloak(ns) => ClientsOf(w, SecretKey(ns, SecretOidc), oidc)
    case ExternalOidc(issuer, clientId, credentials) =>
      && issuer != "" && credentials.Some? && credentials.value.name != UserSecret("")
      && ExternalClientsOf(w, credentials.value, clientId, oidc)
  }

  lemma AuthOwned(spec: Spec, w: World, p: Pass)
    requires ReconcileAuth(w, spec, p).Ok?
    ensures OidcOwned(spec, ReconcileAuth(w, spec, p).w, ReconcileAuth(w, spec, p).value.0)
  {
    match spec.auth
    case NoAuth =>
    case EmbeddedKeycloak(ns) => KeycloakClients(w, ns, p);
    case ExternalOidc(_, clientId, credentials) => ExternalClients(w, credentials.value, clientId, p);
  }

  // --- Owners keep their credentials ---

  /** The secrets that hold the credentials. */
  ghost predicate Owner(spec: Spec, k: SecretKey)
  {
    || (spec.storage.EmbeddedMinio? && k == SecretKey(spec.storage.ns, SecretMinio))
    || (spec.auth.EmbeddedKeycloak? && k == SecretKey(spec.auth.ns, SecretOidc))
    || (spec.storage.ExternalS3? && StorageReads(spec, k))
    || (spec.auth.ExternalOidc? && AuthReads(spec, k))
  }

  /** No pass renders a secret that holds the credentials. */
  ghost predicate OwnersApart(spec: Spec)
  {
    forall k | Owner(spec, k) :: !Rewritten(spec, k)
  }

  /** With embedded owners that is the absence of the clash. */
  lemma EmbeddedOwners(spec: Spec)
    requires spec.lakekeeper && spec.trino.EmbeddedTrino? && spec.storage.EmbeddedMinio? && !spec.auth.ExternalOidc?
    ensures OwnersApart(spec) <==> !Clash(spec)
  {
    if Clash(spec) {
      assert Owner(spec, SecretKey(spec.auth.ns, SecretOidc));
    }
  }

  lemma StoreKept(spec: Spec, w: World, w': World, store: Store)
    requires StoreOwned(spec, w, store) && forall k | Owner(spec, k) :: Kept(w, w', k)
    ensures StoreOwned(spec, w', store)
  {
    match spec.storage
    case EmbeddedMinio(ns) => assert Owner(spec, SecretKey(ns, SecretMinio));
    case ExternalS3(s3) =>
      var ref := s3.value.credentials.value;
      assert Owner(spec, SecretKey(ref.ns, ref.name));
  }

  lemma OidcKept(spec: Spec, w: World, w': World, oidc: Oidc)
    requires OidcOwned(spec, w, oidc) && forall k | Owner(spec, k) :: Kept(w, w', k)
    ensures OidcOwned(spec, w', oidc)
  {
    match spec.auth
    case NoAuth =>
    case EmbeddedKeycloak(ns) => assert Owner(spec, SecretKey(ns, SecretOidc));
    case ExternalOidc(_, clientId, credentials) =>
      assert Owner(spec, SecretKey(credentials.value.ns, credentials.value.name));
  }

  lemma StorageOwned(spec: Spec, w: World, p: Pass)
    requires ReconcileStorage(w, spec, p).Ok?
    ensures StoreOwned(spec, ReconcileStorage(w, spec, p).w, ReconcileStorage(w, spec, p).value.0)
  {
    var w1 := Act(w, p, EnsureNamespace(spec.ns)).w;
    ObjectStoreOwned(spec, ReconcilePostgres(w1, spec, p).w, p);
  }

  lemma FinishHandsOnStore(spec: Spec, w: World, store: (Store, bool), auth: (Oidc, bool), fga: (Fga, bool), p: Pass)
    requires FinishStack(w, spec, store, auth, fga, p).Ok?
    ensures FinishStack(w, spec, store, auth, fga, p).value.store == store.0
  {
  }

  /** What the stack hands to Trino is what the owners hold. */
  lemma StackOwned(spec: Spec, w: World, p: Pass)
    requires spec.lakekeeper && ReconcileLakekeeperStack(w, spec, p).Ok?
    ensures var r := ReconcileLakekeeperStack(w, spec, p);
            StoreOwned(spec, r.w, r.value.store) && OidcOwned(spec, r.w, r.value.oidc)
  {
    var r1 := ReconcileStorage(w, spec, p);
    var r2 := ReconcileAuth(r1.w, spec, p);
    var r3 := ReconcileAuthz(r2.w, spec, p);
    var r4 := RunLakekeeper(r3.w, spec, r2.value.1, r3.value.1, p);
    StorageOwned(spec, w, p);
    AuthOwned(spec, r1.w, p);
    forall k | Owner(spec, k) ensures Kept(r1.w, r2.w, k) && Kept(r2.w, r4.w, k) {
      AuthKeeps(spec, r1.w, p, k);
      AuthzKeeps(spec, r2.w, p, k);
      RunLakekeeperKeeps(spec, r3.w, r2.value.1, r3.value.1, p, k);
      KeptTransitive(r2.w, r3.w, r4.w, k);
    }
    StoreKept(spec, r1.w, r2.w, r1.value.0);
    StoreKept(spec, r2.w, r4.w, r1.value.0);
    OidcKept(spec, r2.w, r4.w, r2.value.0);
    FinishHandsOn(spec, r4.w, r1.value, r2.value, r3.value, p);
    FinishHandsOnStore(spec, r4.w, r1.value, r2.value, r3.value, p);
    FinishKeepsSecrets(spec, r4.w, r1.value, r2.value, r3.value, p);
    SameSecrets(spec, r4.w, FinishStack(r4.w, spec, r1.value, r2.value, r3.value, p).w, r1.value.0, r2.value.0);
  }

  lemma StorageMc(spec: Spec, w: World, p: Pass)
    requires spec.storage.EmbeddedMinio? && Up(w, Workload(spec.storage.ns, Minio)) && ReconcileStorage(w, spec, p).Ok?
    ensures var r := ReconcileStorage(w, spec, p);
            r.value.0.Store? && McRendered(r.w, spec.storage.ns, r.value.0)
  {
    var w1 := Act(w, p, EnsureNamespace(spec.ns)).w;
    ActFrame(w, p, EnsureNamespace(spec.ns));
    var w2 := ReconcilePostgres(w1, spec, p).w;
    PostgresResult(w1, spec, p);
    MinioStore(w2, spec.storage.ns, p);
  }

  lemma StackMc(spec: Spec, w: World, p: Pass)
    requires spec.lakekeeper && ReconcileLakekeeperStack(w, spec, p).Ok?
    requires spec.storage.EmbeddedMinio? && Up(w, Workload(spec.storage.ns, Minio))
    ensures var r := ReconcileLakekeeperStack(w, spec, p);
            r.value.store.Store? && McRendered(r.w, spec.storage.ns, r.value.store)
  {
    var k := SecretKey(spec.storage.ns, SecretMinioMc);
    StorageMc(spec, w, p);
    var r1 := ReconcileStorage(w, spec, p);
    var r2 := ReconcileAuth(r1.w, spec, p);
    AuthKeeps(spec, r1.w, p, k);
    var r3 := ReconcileAuthz(r2.w, spec, p);
    AuthzKeeps(spec, r2.w, p, k);
    var r4 := RunLakekeeper(r3.w, spec, r2.value.1, r3.value.1, p);
    RunLakekeeperKeeps(spec, r3.w, r2.value.1, r3.value.1, p, k);
    FinishHandsOnStore(spec, r4.w, r1.value, r2.value, r3.value, p);
    FinishKeepsSecrets(spec, r4.w, r1.value, r2.value, r3.value, p);
    KeptTransitive(r1.w, r2.w, r3.w, k);
    KeptTransitive(r1.w, r3.w, r4.w, k);
  }

  lemma SameSecrets(spec: Spec, w: World, w': World, store: Store, oidc: Oidc)
    requires w'.objects == w.objects && StoreOwned(spec, w, store) && OidcOwned(spec, w, oidc)
    ensures StoreOwned(spec, w', store) && OidcOwned(spec, w', oidc)
  {
  }

  // --- Consumers ---

  /** Trino's catalog file, made of the store's keys and Trino's client. */
  ghost predicate CatalogRendered(w: World, ns: string, store: Store, oidc: Oidc)
    requires store.Store?
  {
    Holds(w, SecretKey(ns, SecretTrinoCatalog), CatalogFile, Built(CatalogFile, KeyParts(store) + OidcParts(oidc)))
  }

  /** The property of the file with these values, if any. */
  ghost predicate Carries(parts: seq<Value>, use: Field, values: seq<Value>)
  {
    Built(use, values) in parts
  }

  ghost predicate CarriesAny(parts: seq<Value>, use: Field)
  {
    exists v | v in parts :: v.Built? && v.use == use
  }

  /** What stands in the file: the keys exactly without vended credentials, Trino's client
      exactly with an identity provider. */
  ghost predicate FileSays(parts: seq<Value>, vends: bool, store: Store, oidc: Oidc)
    requires store.Store?
  {
    && (CarriesAny(parts, AccessKey) <==> !vends) && (CarriesAny(parts, SecretAccessKey) <==> !vends)
    && (!vends ==> Carries(parts, AccessKey, [store.access]) && Carries(parts, SecretAccessKey, [store.secret]))
    && (CarriesAny(parts, TrinoClientId) <==> oidc.Oidc?)
    && (oidc.Oidc? ==> Carries(parts, TrinoClientId, [oidc.trino.id, oidc.trino.secret]))
  }

  lemma FileParts(store: Store, oidc: Oidc)
    requires store.Store?
    ensures FileSays(KeyParts(store) + OidcParts(oidc), store.sts, store, oidc)
  {
    var keys, client := KeyParts(store), OidcParts(oidc);
    assert forall v :: v in keys + client <==> v in keys || v in client;
    if !store.sts {
      assert keys[0] in keys && keys[1] in keys;
    }
    if oidc.Oidc? {
      assert client[0] in client;
    }
  }

  /** OPA's secret carries OPA's client. */
  ghost predicate OpaRendered(w: World, ns: string, oidc: Oidc)
    requires oidc.Oidc?
  {
    Holds(w, SecretKey(ns, SecretOidc), OpaClientId, oidc.opa.id)
      && Holds(w, SecretKey(ns, SecretOidc), OpaClientSecret, oidc.opa.secret)
  }

  lemma CatalogWritten(w: World, ns: string, store: Store, oidc: Oidc, opa: OpaUse, shared: seq<Value>, p: Pass)
    requires Acts(w, p, TrinoActions(ns, store, oidc, opa, shared)).Ok? && store.Store?
    ensures CatalogRendered(Acts(w, p, TrinoActions(ns, store, oidc, opa, shared)).w, ns, store, oidc)
  {
    var list := TrinoActions(ns, store, oidc, opa, shared);
    ActsWrite(w, p, list, SecretKey(ns, SecretTrinoCatalog), list[2].data);
  }

  /** Trino's configuration: with a public address and an identity provider its client and the
      secret that coordinator and workers share, and neither otherwise. */
  ghost predicate ConfigSays(w: World, ns: string, oidc: Oidc, uiAuth: bool, shared: seq<Value>)
    requires uiAuth ==> oidc.Oidc?
  {
    var k := SecretKey(ns, SecretTrinoConfig);
    var client := if uiAuth then [Built(TrinoClientId, [oidc.trino.id, oidc.trino.secret])] else [];
    && |shared| == (if uiAuth then 1 else 0)
    && (uiAuth ==> Holds(w, SecretKey(ns, SecretTrinoInternal), SharedSecret, shared[0]))
    && Holds(w, k, CoordinatorConfig, Built(CoordinatorConfig, client + shared))
    && Holds(w, k, WorkerConfig, Built(WorkerConfig, shared))
  }

  lemma SharedRead(w: World, ns: string, uiAuth: bool, p: Pass)
    requires Acts(w, p, SharedSecretActions(ns, uiAuth)).Ok?
    ensures var r := Acts(w, p, SharedSecretActions(ns, uiAuth));
            && |r.value| == (if uiAuth then 1 else 0)
            && (uiAuth ==> Holds(r.w, SecretKey(ns, SecretTrinoInternal), SharedSecret, r.value[0]))
  {
    var list := SharedSecretActions(ns, uiAuth);
    ActsReadAll(w, p, list);
    if uiAuth {
      ReadsStretch(list, 0, 1, false);
      ReadsStretch(list, 1, 2, true);
      ActsRead(w, p, list, 1);
    }
  }

  lemma ConfigDataSays(w: World, ns: string, store: Store, oidc: Oidc, opa: OpaUse, shared: seq<Value>, uiAuth: bool,
                       p: Pass)
    requires Acts(w, p, TrinoActions(ns, store, oidc, opa, shared)).Ok? && (uiAuth ==> oidc.Oidc?)
    requires |shared| == (if uiAuth then 1 else 0)
    requires uiAuth ==> Holds(w, SecretKey(ns, SecretTrinoInternal), SharedSecret, shared[0])
    ensures ConfigSays(Acts(w, p, TrinoActions(ns, store, oidc, opa, shared)).w, ns, oidc, uiAuth, shared)
  {
    var list := TrinoActions(ns, store, oidc, opa, shared);
    ActsWrite(w, p, list, SecretKey(ns, SecretTrinoConfig), list[1].data);
    ActsKeep(w, p, list, SecretKey(ns, SecretTrinoInternal));
  }

  lemma TrinoRenders(w: World, ns: string, hasPublicUrl: bool, workers: nat, store: Store, oidc: Oidc, opa: OpaUse,
                     p: Pass) returns (shared: seq<Value>)
    requires ReconcileTrino(w, ns, hasPublicUrl, workers, store, oidc, opa, p).Ok? && store.Store?
    ensures var w' := ReconcileTrino(w, ns, hasPublicUrl, workers, store, oidc, opa, p).w;
            CatalogRendered(w', ns, store, oidc) && ConfigSays(w', ns, oidc, oidc.Oidc? && hasPublicUrl, shared)
  {
    var uiAuth := oidc.Oidc? && hasPublicUrl;
    SharedRead(w, ns, uiAuth, p);
    var r1 := Acts(w, p, SharedSecretActions(ns, uiAuth));
    shared := r1.value;
    CatalogWritten(r1.w, ns, store, oidc, opa, shared, p);
    ConfigDataSays(r1.w, ns, store, oidc, opa, shared, uiAuth, p);
    WorkersKeepSecrets(Acts(r1.w, p, TrinoActions(ns, store, oidc, opa, shared)).w, ns, workers, p);
  }

  lemma OpaRenders(spec: Spec, w: World, oidc: Oidc, fga: Fga, p: Pass)
    requires spec.authz.EmbeddedOpenFga? && oidc.Oidc? && !fga.NoFga? && ReconcileOpa(w, spec, oidc, fga, p).Ok?
    ensures OpaRendered(ReconcileOpa(w, spec, oidc, fga, p).w, spec.authz.ns, oidc)
  {
    var list := OpaActions(spec.authz.ns, oidc);
    ActsWrite(w, p, list, SecretKey(spec.authz.ns, SecretOidc), list[0].data);
  }

  lemma TrinoStackRenders(spec: Spec, w: World, stack: Stack, p: Pass) returns (shared: seq<Value>)
    requires spec.trino.EmbeddedTrino? && ReconcileTrinoStack(w, spec, stack, p).Ok? && stack.store.Store?
    ensures var w' := ReconcileTrinoStack(w, spec, stack, p).w;
            && CatalogRendered(w', spec.trino.ns, stack.store, stack.oidc)
            && ConfigSays(w', spec.trino.ns, stack.oidc, stack.oidc.Oidc? && spec.trino.hasPublicUrl, shared)
            && (spec.authz.EmbeddedOpenFga? && stack.oidc.Oidc? && !stack.fga.NoFga? ==>
                OpaRendered(w', spec.authz.ns, stack.oidc))
  {
    var t, opa := spec.trino, OpaUseOf(spec.authz, stack.oidc, stack.fga);
    var w1 := Act(w, p, EnsureNamespace(t.ns)).w;
    var w2 := ReconcileOpa(w1, spec, stack.oidc, stack.fga, p).w;
    shared := TrinoRenders(w2, t.ns, t.hasPublicUrl, t.workers, stack.store, stack.oidc, opa, p);
    if spec.authz.EmbeddedOpenFga? && stack.oidc.Oidc? && !stack.fga.NoFga? {
      OpaRenders(spec, w1, stack.oidc, stack.fga, p);
      TrinoKeeps(w2, t.ns, t.hasPublicUrl, t.workers, stack.store, stack.oidc, opa, p,
                 SecretKey(spec.authz.ns, SecretOidc));
    }
  }

  /** OPA's secret has OPA's two entries after a pass without error. */
  lemma OpaSecret(spec: Spec, w: World, p: Pass)
    requires DeploysOpa(spec) && RunPass(w, spec, p).Ok?
    ensures var secrets, k := RunPass(w, spec, p).w.objects.secrets, SecretKey(spec.authz.ns, SecretOidc);
            k in secrets && OpaClientId in secrets[k] && OpaClientSecret in secrets[k]
  {
    var s := Start(w);
    var r := ReconcileLakekeeperStack(s, spec, p);
    StackOwned(spec, s, p);
    StackClients(spec, s, p);
    var shared := TrinoStackRenders(spec, r.w, r.value, p);
    assert RunPass(w, spec, p).w.objects == ReconcileTrinoStack(r.w, spec, r.value, p).w.objects;
  }

  /** What the pass hands from one stack to the other. */
  function HandedOn(spec: Spec, w: World, p: Pass): Stack
    requires ReconcileLakekeeperStack(Start(w), spec, p).Ok?
  {
    ReconcileLakekeeperStack(Start(w), spec, p).value
  }

  lemma PassOwned(spec: Spec, w: World, p: Pass)
    requires spec.lakekeeper && OwnersApart(spec) && RunPass(w, spec, p).Ok?
    ensures var w', stack := RunPass(w, spec, p).w, HandedOn(spec, w, p);
            StoreOwned(spec, w', stack.store) && OidcOwned(spec, w', stack.oidc)
  {
    var s := Start(w);
    var r := ReconcileLakekeeperStack(s, spec, p);
    var t := ReconcileTrinoStack(r.w, spec, r.value, p);
    StackOwned(spec, s, p);
    forall k | Owner(spec, k) ensures Kept(r.w, t.w, k) {
      if spec.auth.NoAuth? { StackOidc(spec, s, p); }
      TrinoStackKeeps(spec, r.w, r.value, p, k);
    }
    StoreKept(spec, r.w, t.w, r.value.store);
    OidcKept(spec, r.w, t.w, r.value.oidc);
    assert RunPass(w, spec, p).w.objects == t.w.objects;
    SameSecrets(spec, t.w, RunPass(w, spec, p).w, r.value.store, r.value.oidc);
  }

  lemma PassMc(spec: Spec, w: World, p: Pass)
    requires spec.lakekeeper && RunPass(w, spec, p).Ok?
    requires spec.storage.EmbeddedMinio? && Up(w, Workload(spec.storage.ns, Minio))
    ensures var stack := HandedOn(spec, w, p);
            stack.store.Store? && McRendered(RunPass(w, spec, p).w, spec.storage.ns, stack.store)
  {
    var s, k := Start(w), SecretKey(spec.storage.ns, SecretMinioMc);
    var r := ReconcileLakekeeperStack(s, spec, p);
    StackMc(spec, s, p);
    TrinoStackKeeps(spec, r.w, r.value, p, k);
    assert RunPass(w, spec, p).w.objects == ReconcileTrinoStack(r.w, spec, r.value, p).w.objects;
  }

  lemma PassRenders(spec: Spec, w: World, p: Pass) returns (shared: seq<Value>)
    requires spec.lakekeeper && spec.trino.EmbeddedTrino? && RunPass(w, spec, p).Ok?
    ensures var w', stack := RunPass(w, spec, p).w, HandedOn(spec, w, p);
            && stack.store.Store? && (stack.oidc.Oidc? <==> !spec.auth.NoAuth?)
            && CatalogRendered(w', spec.trino.ns, stack.store, stack.oidc)
            && ConfigSays(w', spec.trino.ns, stack.oidc, stack.oidc.Oidc? && spec.trino.hasPublicUrl, shared)
            && (DeploysOpa(spec) ==> OpaRendered(w', spec.authz.ns, stack.oidc))
  {
    var s := Start(w);
    var r := ReconcileLakekeeperStack(s, spec, p);
    StackOwned(spec, s, p);
    shared := TrinoStackRenders(spec, r.w, r.value, p);
    if DeploysOpa(spec) { StackClients(spec, s, p); }
    assert RunPass(w, spec, p).w.objects == ReconcileTrinoStack(r.w, spec, r.value, p).w.objects;
  }

  /** After every pass without error that runs both stacks, Trino's catalog file, Trino's
      configuration, the bucket step's client and OPA's secret carry the credentials that, in
      the same cluster, the object store's and the identity provider's own secrets hold. The
      store's keys are in the file exactly when LakeKeeper does not vend temporary ones. */
  lemma CredentialsAgree(spec: Spec, w: World, p: Pass)
    returns (store: Store, oidc: Oidc, parts: seq<Value>, shared: seq<Value>)
    requires spec.lakekeeper && spec.trino.EmbeddedTrino? && OwnersApart(spec) && RunPass(w, spec, p).Ok?
    ensures var w' := RunPass(w, spec, p).w;
            && StoreOwned(spec, w', store) && OidcOwned(spec, w', oidc) && (oidc.Oidc? <==> !spec.auth.NoAuth?)
            && Holds(w', SecretKey(spec.trino.ns, SecretTrinoCatalog), CatalogFile, Built(CatalogFile, parts))
            && FileSays(parts, VendsCredentials(spec), store, oidc)
            && ConfigSays(w', spec.trino.ns, oidc, oidc.Oidc? && spec.trino.hasPublicUrl, shared)
            && (spec.storage.EmbeddedMinio? && Up(w, Workload(spec.storage.ns, Minio)) ==>
                  McRendered(w', spec.storage.ns, store))
            && (DeploysOpa(spec) ==> OpaRendered(w', spec.authz.ns, oidc))
  {
    PassOwned(spec, w, p);
    shared := PassRenders(spec, w, p);
    store, oidc := HandedOn(spec, w, p).store, HandedOn(spec, w, p).oidc;
    parts := KeyParts(store) + OidcParts(oidc);
    FileParts(store, oidc);
    if spec.storage.EmbeddedMinio? && Up(w, Workload(spec.storage.ns, Minio)) { PassMc(spec, w, p); }
  }
}
