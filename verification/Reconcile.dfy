/** One reconcile pass as a function of the world: component by component, in the order of
    the controller, with its early returns. */
module Reconcile {
  import opened Wrappers
  import opened Cluster

  // --- The DataPlatform spec, defaults resolved ---

  /** A secret that the user names, which may be one that the operator makes. */
  datatype CredentialsRef = CredentialsRef(ns: string, name: SecretName, first: Field, second: Field)

  datatype PostgresSpec =
    | EmbeddedPostgres(database: string)
    | ExternalPostgres(host: string, credentials: Option<CredentialsRef>)

  /** `sts`: LakeKeeper vends temporary credentials to the engines. */
  datatype S3Spec = S3Spec(credentials: Option<CredentialsRef>, sts: bool)

  datatype StorageSpec = EmbeddedMinio(ns: string) | ExternalS3(s3: Option<S3Spec>)

  /** Keys of the user's secret; an optional key is `NO_KEY` when unset. */
  datatype OidcRef = OidcRef(ns: string, name: SecretName, clientIdKey: Field, clientSecretKey: Field,
                             trinoIdKey: Field, trinoSecretKey: Field)

  datatype AuthSpec =
    | NoAuth
    | EmbeddedKeycloak(ns: string)
    | ExternalOidc(issuer: string, clientId: string, credentials: Option<OidcRef>)

  /** The access store's name, and whether row filters and column restrictions are configured. */
  datatype FgaSpec =
    | NoAuthz
    | EmbeddedOpenFga(ns: string, store: string, rowFilters: bool, columnAccess: bool)
    | ExternalOpenFga

  datatype TrinoSpec = NoTrino | EmbeddedTrino(ns: string, hasPublicUrl: bool, workers: nat)

  /** `catalogClient` tells whether the reconciler was built with a catalog client. */
  datatype Spec = Spec(
    lakekeeper: bool, ns: string, postgres: PostgresSpec, storage: StorageSpec,
    auth: AuthSpec, authz: FgaSpec, trino: TrinoSpec, catalogClient: bool
  )

  /** The access store is needed: there are access policies, and Trino to apply them. */
  predicate NeedsStore(spec: Spec)
  {
    spec.authz.EmbeddedOpenFga? && (spec.authz.rowFilters || spec.authz.columnAccess) && spec.trino.EmbeddedTrino?
  }

  // --- What components hand on ---

  /** No store is handed on when LakeKeeper is disabled. */
  datatype Store = NoStore | Store(access: Value, secret: Value, sts: bool)

  /** `managed` when the operator owns the identity provider and so knows its subjects. */
  datatype Oidc = NoOidc | Oidc(ui: Value, operator: Client, trino: Client, opa: Client, managed: bool)

  datatype Client = Client(id: Value, secret: Value)

  datatype Fga = NoFga | FgaStarting | Fga(apiKey: Value, storeId: string)

  /** What Trino's configuration says about access control. */
  datatype OpaUse = NoOpa | UseOpa(rowFilters: bool, columnMasks: bool)

  /** OPA's address is known once OpenFGA's database is ready. */
  function OpaUseOf(authz: FgaSpec, oidc: Oidc, fga: Fga): OpaUse
  {
    if authz.EmbeddedOpenFga? && fga.Fga? && oidc.Oidc? then UseOpa(authz.rowFilters, authz.columnAccess) else NoOpa
  }

  function StoreParts(store: Store): seq<Value>
  {
    if store.NoStore? then [] else [store.access, store.secret]
  }

  // --- Postgres ---

  function PostgresActions(ns: string, db: string): seq<Action>
  {
    [GenerateOnce(SecretKey(ns, SecretPostgres),
                  map[Username := Fixed("postgres"), Password := Random, Database := Fixed(db)]),
     ApplyPlain(ServiceOf(Workload(ns, Postgres))),
     Apply(Workload(ns, Postgres))]
  }

  function ReconcilePostgres(w: World, spec: Spec, p: Pass): Res<()>
  {
    OnError(PostgresReady,
            match spec.postgres
            case EmbeddedPostgres(db) => PostgresEmbedded(w, spec.ns, db, p)
            case ExternalPostgres(host, credentials) => PostgresExternal(w, spec.ns, host, credentials, p))
  }

  function PostgresEmbedded(w: World, ns: string, db: string, p: Pass): Res<()>
  {
    var (w1, _) :- Acts(w, p, PostgresActions(ns, db));
    var (w2, ready) :- WorkloadReady(w1, p, Workload(ns, Postgres));
    Ok(Set(w2, PostgresReady, ready), ())
  }

  function CredentialActions(key: SecretKey, ref: CredentialsRef): seq<Action>
  {
    [Get(key, ref.first), Get(key, ref.second)]
  }

  function PostgresExternal(w: World, ns: string, host: string, credentials: Option<CredentialsRef>, p: Pass): Res<()>
  {
    if host == "" || credentials.None? || credentials.value.name == NO_NAME then Err(w)
    else
      var ref := credentials.value;
      var key := SecretKey(if ref.ns == "" then ns else ref.ns, ref.name);
      var (w1, _) :- Acts(w, p, CredentialActions(key, ref));
      Ok(Set(w1, PostgresReady, true), ())
  }

  // --- Object store ---

  function ReconcileObjectStore(w: World, spec: Spec, p: Pass): Res<(Store, bool)>
  {
    OnError(MinioReady,
            match spec.storage
            case ExternalS3(s3) => ExternalObjectStore(w, s3, p)
            case EmbeddedMinio(ns) => ReconcileMinio(w, ns, p))
  }

  function StoreOf(vs: seq<Value>, sts: bool): Store { Store(ValueAt(vs, 0), ValueAt(vs, 1), sts) }

  function ExternalObjectStore(w: World, s3: Option<S3Spec>, p: Pass): Res<(Store, bool)>
  {
    if s3.None? || s3.value.credentials.None? || s3.value.credentials.value.name == NO_NAME then Err(w)
    else
      var ref := s3.value.credentials.value;
      var (w1, vs) :- Acts(w, p, CredentialActions(SecretKey(ref.ns, ref.name), ref));
      Ok(Set(w1, MinioReady, true), (StoreOf(vs, s3.value.sts), true))
  }

  function MinioActions(ns: string): seq<Action>
  {
    var key := SecretKey(ns, SecretMinio);
    [EnsureNamespace(ns),
     GenerateOnce(key, map[AccessKey := Random, SecretAccessKey := Random]),
     ApplyPlain(ServiceOf(Workload(ns, Minio))),
     Apply(Workload(ns, Minio)),
     Get(key, AccessKey),
     Get(key, SecretAccessKey)]
  }

  function ReconcileMinio(w: World, ns: string, p: Pass): Res<(Store, bool)>
  {
    var (w1, vs) :- Acts(w, p, MinioActions(ns));
    var (w2, ready) :- WorkloadReady(w1, p, Workload(ns, Minio));
    if !ready then Ok(Set(w2, MinioReady, false), (StoreOf(vs, false), false))
    else
      var (w3, bucket) :- EnsureMinioBucket(w2, ns, StoreOf(vs, false), p);
      Ok(Set(w3, MinioReady, bucket), (StoreOf(vs, false), bucket))
  }

  /** `ensureMinioBucket`: false until the job has succeeded; a failed job is deleted and
      made anew in a later pass. */
  function EnsureMinioBucket(w: World, ns: string, store: Store, p: Pass): Res<bool>
  {
    var (w1, _) :- Act(w, p, Rewrite(SecretKey(ns, SecretMinioMc), map[McHost := Built(McHost, StoreParts(store))]));
    var (w2, _) :- Read(w1, p);
    if ns !in w2.objects.jobs then
      var (w3, _) :- Write(w2, p, WithJob(w2, ns, NEW_JOB));
      Ok(w3, false)
    else
      var job := w2.objects.jobs[ns];
      if job.deleting then Ok(w2, false)
      else if JobSucceeded(job) then Ok(Log(w2, SawBucket), true)
      else if JobFailed(job) || !WritableConfig(job) then
        var (w3, _) :- Write(w2, p, WithJob(w2, ns, job.(deleting := true)));
        Ok(w3, false)
      else Ok(w2, false)
  }

  // --- Identity provider ---

  function ReconcileAuth(w: World, spec: Spec, p: Pass): Res<(Oidc, bool)>
  {
    match spec.auth
    case NoAuth => Ok(Set(w, AuthReady, true), (NoOidc, true))
    case EmbeddedKeycloak(ns) => OnError(AuthReady, ReconcileKeycloak(w, ns, p))
    case ExternalOidc(issuer, clientId, credentials) =>
      OnError(AuthReady, ExternalOidcConfig(w, issuer, clientId, credentials, p))
  }

  /** Secrets, the realm document and the values it reads, Service, Deployment, and the
      client settings read back. */
  function KeycloakActions(ns: string): seq<Action>
  {
    var realm, admin, oidc := SecretKey(ns, SecretRealmKey), SecretKey(ns, SecretKeycloakAdmin),
      SecretKey(ns, SecretOidc);
    [EnsureNamespace(ns),
     GenerateChecked(realm, map[PrivateKey := Random, Certificate := Random]),
     GenerateChecked(admin, map[Username := Fixed("admin"), Password := Random]),
     EnsureOidc(oidc),
     Get(admin, Password), Get(oidc, TrinoClientSecret), Get(oidc, OperatorClientSecret), Get(oidc, OpaClientSecret),
     Get(realm, PrivateKey), Get(realm, Certificate),
     ApplyPlain(RealmConfig(ns)),
     ApplyPlain(ServiceOf(Workload(ns, Keycloak))),
     Apply(Workload(ns, Keycloak)),
     Get(oidc, OperatorClientId), Get(oidc, OperatorClientSecret),
     Get(oidc, TrinoClientId), Get(oidc, TrinoClientSecret),
     Get(oidc, ClientId), Get(oidc, OpaClientId), Get(oidc, OpaClientSecret)]
  }

  function EmbeddedOidcOf(vs: seq<Value>): Oidc
  {
    Oidc(ValueAt(vs, 10), Client(ValueAt(vs, 6), ValueAt(vs, 7)), Client(ValueAt(vs, 8), ValueAt(vs, 9)),
         Client(ValueAt(vs, 11), ValueAt(vs, 12)), true)
  }

  function ReconcileKeycloak(w: World, ns: string, p: Pass): Res<(Oidc, bool)>
  {
    var (w1, vs) :- Acts(w, p, KeycloakActions(ns));
    var (w2, ready) :- WorkloadReady(w1, p, Workload(ns, Keycloak));
    Ok(Set(w2, AuthReady, ready), (EmbeddedOidcOf(vs), ready))
  }

  /** An optional key of the user's secret. */
  function OptionalGet(key: SecretKey, field: Field): seq<Action>
  {
    if field == NO_KEY then [] else [Get(key, field)]
  }

  function OidcActions(ref: OidcRef): seq<Action>
  {
    var key := SecretKey(ref.ns, ref.name);
    OptionalGet(key, ref.clientIdKey) + [Get(key, ref.clientSecretKey)]
    + OptionalGet(key, ref.trinoIdKey) + OptionalGet(key, ref.trinoSecretKey)
  }

  /** Trino and OPA fall back to the primary client. */
  function ExternalOidcOf(ref: OidcRef, clientId: string, vs: seq<Value>): Oidc
  {
    var i := if ref.clientIdKey == NO_KEY then 0 else 1;
    var id := if ref.clientIdKey == NO_KEY then Text(clientId) else ValueAt(vs, 0);
    var secret := ValueAt(vs, i);
    var j := if ref.trinoIdKey == NO_KEY then i else i + 1;
    var trinoId := if ref.trinoIdKey == NO_KEY then id else ValueAt(vs, j);
    var trinoSecret := if ref.trinoSecretKey == NO_KEY then secret else ValueAt(vs, j + 1);
    Oidc(id, Client(id, secret), Client(trinoId, trinoSecret), Client(trinoId, trinoSecret), false)
  }

  function ExternalOidcConfig(w: World, issuer: string, clientId: string, credentials: Option<OidcRef>,
                              p: Pass): Res<(Oidc, bool)>
  {
    if issuer == "" || credentials.None? || credentials.value.name == NO_NAME then Err(w)
    else
      var (w1, vs) :- Acts(w, p, OidcActions(credentials.value));
      Ok(Set(w1, AuthReady, true), (ExternalOidcOf(credentials.value, clientId, vs), true))
  }

  // --- OpenFGA ---

  function ReconcileAuthz(w: World, spec: Spec, p: Pass): Res<(Fga, bool)>
  {
    match spec.authz
    case NoAuthz => Ok(Set(w, OpenFgaReady, true), (NoFga, true))
    case ExternalOpenFga => Err(Set(w, OpenFgaReady, false))
    case EmbeddedOpenFga(ns, _, _, _) =>
      OnError(OpenFgaReady, ReconcileOpenFga(w, ns, NeedsStore(spec), spec.catalogClient, p))
  }

  function OpenFgaActions(ns: string): seq<Action>
  {
    [EnsureNamespace(ns),
     Generate(SecretKey(ns, SecretOpenFga), map[ApiKey := Random]),
     Generate(SecretKey(ns, SecretPostgres),
              map[Username := Fixed("postgres"), Password := Random,
                  Database := Fixed("postgres")]),
     ApplyPlain(ServiceOf(Workload(ns, Postgres))),
     Apply(Workload(ns, Postgres)),
     ApplyPlain(ServiceOf(Workload(ns, OpenFga)))]
  }

  function ReconcileOpenFga(w: World, ns: string, needsStore: bool, catalogClient: bool, p: Pass): Res<(Fga, bool)>
  {
    var (w1, _) :- Acts(w, p, OpenFgaActions(ns));
    var (w2, pgReady) :- WorkloadReady(w1, p, Workload(ns, Postgres));
    if !pgReady then Ok(Set(w2, OpenFgaReady, false), (FgaStarting, false))
    else RunOpenFga(w2, ns, needsStore, catalogClient, p)
  }

  function RunOpenFgaActions(ns: string): seq<Action>
  {
    [Get(SecretKey(ns, SecretPostgres), Password),
     Apply(Workload(ns, OpenFga)),
     Get(SecretKey(ns, SecretOpenFga), ApiKey)]
  }

  /** The half of `reconcileOpenFGA` after its database is ready. */
  function RunOpenFga(w: World, ns: string, needsStore: bool, catalogClient: bool, p: Pass): Res<(Fga, bool)>
  {
    var (w1, vs) :- Acts(w, p, RunOpenFgaActions(ns));
    var (w2, ready) :- WorkloadReady(w1, p, Workload(ns, OpenFga));
    if !ready then Ok(Set(w2, OpenFgaReady, false), (Fga(ValueAt(vs, 1), ""), false))
    else
      var (w3, id) :- ReconcileAccessStore(w2, ns, needsStore, catalogClient, p);
      Ok(Set(w3, OpenFgaReady, true), (Fga(ValueAt(vs, 1), id), true))
  }

  /** `reconcileAccessStore`; what the request does on the server is in `Provisioning`. */
  function ReconcileAccessStore(w: World, ns: string, needsStore: bool, catalogClient: bool, p: Pass): Res<string>
  {
    if !needsStore then Ok(WithStoreId(w, ""), "")
    else if !catalogClient then Err(w)
    else
      var w1 := Log(Tick(w), StoreRequested(ns));
      match p.provisioned
      case None => Err(w1)
      case Some(id) => Ok(WithStoreId(w1, id), id)
  }

  // --- LakeKeeper and its warehouse ---

  function LakekeeperActions(ns: string): seq<Action>
  {
    [GenerateOnce(SecretKey(ns, SecretEncryption), map[EncryptionKey := Random]),
     ApplyPlain(ServiceOf(Workload(ns, Lakekeeper))),
     Apply(Workload(ns, Lakekeeper))]
  }

  function ReconcileLakekeeper(w: World, ns: string, p: Pass): Res<()>
  {
    OnError(LakekeeperReady, LakekeeperBody(w, ns, p))
  }

  function LakekeeperBody(w: World, ns: string, p: Pass): Res<()>
  {
    var (w1, _) :- Acts(w, p, LakekeeperActions(ns));
    var (w2, ready) :- WorkloadReady(w1, p, Workload(ns, Lakekeeper));
    Ok(Set(w2, LakekeeperReady, ready), ())
  }

  function ReconcileWarehouse(w: World, spec: Spec, oidc: Oidc, p: Pass): Res<()>
  {
    if !spec.catalogClient then Ok(Set(w, WarehouseReady, false), ())
    else OnError(WarehouseReady, WarehouseBody(w, oidc, p))
  }

  /** A call to the catalog, which leaves its event in the log when it takes effect. */
  function CatalogCall(w: World, p: Pass, e: Event): Res<()>
  {
    Write(w, p, Log(w, e))
  }

  /** `oidcAccessToken`, with which the catalog is called when auth is enabled. */
  function ObtainToken(w: World, p: Pass): Res<()>
  {
    var (w1, _) :- Read(w, p);
    Ok(Log(w1, TokenObtained), ())
  }

  function WarehouseBody(w: World, oidc: Oidc, p: Pass): Res<()>
  {
    var (w1, _) :- (if oidc.NoOidc? then Ok(w, ()) else ObtainToken(w, p));
    var (w2, _) :- CatalogCall(w1, p, Bootstrapped);
    FillCatalog(w2, oidc, p)
  }

  /** Grants for the principals that the operator knows, then the warehouse. */
  function FillCatalog(w: World, oidc: Oidc, p: Pass): Res<()>
  {
    var (w1, _) :- (if oidc.Oidc? && oidc.managed then CatalogCall(w, p, GrantsEnsured) else Ok(w, ()));
    var (w2, _) :- CatalogCall(w1, p, WarehouseEnsured);
    Ok(Set(w2, WarehouseReady, true), ())
  }

  datatype Stack = Stack(progressing: bool, store: Store, oidc: Oidc, fga: Fga)

  function LakekeeperDisabled(w: World, spec: Spec): World
  {
    var w0 := Set(Set(Set(w, MinioReady, true), PostgresReady, true), LakekeeperReady, true);
    var w1 := Set(Set(w0, WarehouseReady, true), OpenFgaReady, true);
    if spec.auth.NoAuth? then Set(w1, AuthReady, true) else w1
  }

  /** The first steps of `reconcileLakekeeperStack`: namespace, database, object store. */
  function ReconcileStorage(w: World, spec: Spec, p: Pass): Res<(Store, bool)>
  {
    var (w1, _) :- Act(w, p, EnsureNamespace(spec.ns));
    var (w2, _) :- ReconcilePostgres(w1, spec, p);
    ReconcileObjectStore(w2, spec, p)
  }

  /** `reconcileLakekeeperStack`. */
  function ReconcileLakekeeperStack(w: World, spec: Spec, p: Pass): Res<Stack>
  {
    if !spec.lakekeeper then Ok(LakekeeperDisabled(w, spec), Stack(false, NoStore, NoOidc, NoFga))
    else
      var (w1, store) :- ReconcileStorage(w, spec, p);
      var (w2, auth) :- ReconcileAuth(w1, spec, p);
      var (w3, fga) :- ReconcileAuthz(w2, spec, p);
      var (w4, _) :- RunLakekeeper(w3, spec, auth.1, fga.1, p);
      FinishStack(w4, spec, store, auth, fga, p)
  }

  /** LakeKeeper is applied only once the identity provider and OpenFGA are ready. */
  function RunLakekeeper(w: World, spec: Spec, authReady: bool, fgaReady: bool, p: Pass): Res<()>
  {
    if authReady && fgaReady then ReconcileLakekeeper(w, spec.ns, p)
    else Ok(Set(w, LakekeeperReady, false), ())
  }

  function FinishStack(w: World, spec: Spec, store: (Store, bool), auth: (Oidc, bool), fga: (Fga, bool),
                       p: Pass): Res<Stack>
  {
    if !ConditionTrue(w, PostgresReady) || !ConditionTrue(w, LakekeeperReady) || !auth.1 || !fga.1 || !store.1 then
      Ok(w, Stack(true, store.0, auth.0, fga.0))
    else
      var (w1, _) :- ReconcileWarehouse(w, spec, auth.0, p);
      Ok(w1, Stack(!ConditionTrue(w1, WarehouseReady), store.0, auth.0, fga.0))
  }

  // --- Trino ---

  function OpaActions(ns: string, oidc: Oidc): seq<Action>
    requires oidc.Oidc?
  {
    [Rewrite(SecretKey(ns, SecretOidc), map[OpaClientId := oidc.opa.id, OpaClientSecret := oidc.opa.secret]),
     ApplyPlain(PolicyConfig(ns)),
     ApplyPlain(ServiceOf(Workload(ns, Opa))),
     Apply(Workload(ns, Opa))]
  }

  function ReconcileOpa(w: World, spec: Spec, oidc: Oidc, fga: Fga, p: Pass): Res<()>
  {
    if fga.NoFga? || oidc.NoOidc? || !spec.authz.EmbeddedOpenFga? then Ok(w, ())
    else
      var (w1, _) :- Acts(w, p, OpaActions(spec.authz.ns, oidc));
      var (w2, _) :- WorkloadReady(w1, p, Workload(spec.authz.ns, Opa));
      Ok(w2, ())
  }

  /** `trinoSharedSecret`. */
  function SharedSecretActions(ns: string, uiAuth: bool): seq<Action>
  {
    var key := SecretKey(ns, SecretTrinoInternal);
    if uiAuth then [Generate(key, map[SharedSecret := Random]), Get(key, SharedSecret)] else []
  }

  /** Trino's client, as one property made of id and secret. */
  function OidcParts(oidc: Oidc): seq<Value>
  {
    if oidc.NoOidc? then [] else [Built(TrinoClientId, [oidc.trino.id, oidc.trino.secret])]
  }

  /** The store's keys, each as a property of its own, unless temporary ones are vended. */
  function KeyParts(store: Store): seq<Value>
    requires store.Store?
  {
    if store.sts then [] else [Built(AccessKey, [store.access]), Built(SecretAccessKey, [store.secret])]
  }

  /** The operator's own catalog file, which only LakeKeeper gives. */
  function CatalogData(store: Store, oidc: Oidc): SecretData
  {
    if store.NoStore? then map[] else map[CatalogFile := Built(CatalogFile, KeyParts(store) + OidcParts(oidc))]
  }

  /** The addresses at which Trino asks for row filters and column masks. */
  function OpaParts(opa: OpaUse): seq<Value>
    requires opa.UseOpa?
  {
    (if opa.rowFilters then [Built(RowFiltersUri, [])] else [])
    + (if opa.columnMasks then [Built(ColumnMasksUri, [])] else [])
  }

  /** The secret of `applyTrinoConfigMap`, with an access control file only if there is OPA. */
  function ConfigData(oidc: Oidc, opa: OpaUse, shared: seq<Value>): SecretData
  {
    var data: SecretData :=
      map[CoordinatorConfig := Built(CoordinatorConfig, (if shared == [] then [] else OidcParts(oidc)) + shared),
          WorkerConfig := Built(WorkerConfig, shared)];
    if opa.NoOpa? then data else data[AccessControl := Built(AccessControl, OpaParts(opa))]
  }

  function TrinoActions(ns: string, store: Store, oidc: Oidc, opa: OpaUse, shared: seq<Value>): seq<Action>
  {
    [DiscardOldConfig(ns),
     Rewrite(SecretKey(ns, SecretTrinoConfig), ConfigData(oidc, opa, shared)),
     Rewrite(SecretKey(ns, SecretTrinoCatalog), CatalogData(store, oidc)),
     ApplyPlain(ServiceOf(Workload(ns, Trino))),
     Apply(Workload(ns, Trino))]
  }

  /** `reconcileTrinoWorkers`. */
  function ReconcileTrinoWorkers(w: World, ns: string, workers: nat, p: Pass): Res<()>
  {
    var wl := Workload(ns, TrinoWorker);
    if workers > 0 then Write(w, p, WithWorkload(w, wl))
    else
      var (w1, _) :- Read(w, p);
      if wl in w1.objects.workloads then Write(w1, p, WithoutWorkload(w1, wl)) else Ok(w1, ())
  }

  function ReconcileTrino(w: World, ns: string, hasPublicUrl: bool, workers: nat, store: Store, oidc: Oidc,
                          opa: OpaUse, p: Pass): Res<()>
  {
    var (w1, shared) :- Acts(w, p, SharedSecretActions(ns, oidc.Oidc? && hasPublicUrl));
    var (w2, _) :- Acts(w1, p, TrinoActions(ns, store, oidc, opa, shared));
    var (w3, _) :- ReconcileTrinoWorkers(w2, ns, workers, p);
    var (w4, ready) :- WorkloadReady(w3, p, Workload(ns, Trino));
    Ok(Set(w4, TrinoReady, ready), ())
  }

  /** `reconcileTrinoStack`. */
  function ReconcileTrinoStack(w: World, spec: Spec, stack: Stack, p: Pass): Res<bool>
  {
    match spec.trino
    case NoTrino => Ok(Set(w, TrinoReady, true), false)
    case EmbeddedTrino(ns, hasPublicUrl, workers) =>
      var (w1, _) :- Act(w, p, EnsureNamespace(ns));
      var (w2, _) :- ReconcileOpa(w1, spec, stack.oidc, stack.fga, p);
      var opa := OpaUseOf(spec.authz, stack.oidc, stack.fga);
      var (w3, _) :- OnError(TrinoReady,
                             ReconcileTrino(w2, ns, hasPublicUrl, workers, stack.store, stack.oidc, opa, p));
      Ok(w3, !ConditionTrue(w3, TrinoReady))
  }

  // --- The pass ---

  function Start(w: World): World { w.(calls := 0, log := []) }

  function PassBody(w: World, spec: Spec, p: Pass): Res<()>
  {
    var (w1, stack) :- ReconcileLakekeeperStack(Start(w), spec, p);
    var (w2, trinoProgressing) :- ReconcileTrinoStack(w1, spec, stack, p);
    Ok(Set(w2, Ready, !(stack.progressing || trinoProgressing)), ())
  }

  /** `reconcile`: Ok for a pass without error. */
  function RunPass(w: World, spec: Spec, p: Pass): Res<()>
  {
    OnError(Ready, PassBody(w, spec, p))
  }
}
