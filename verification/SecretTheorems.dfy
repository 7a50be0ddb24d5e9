/** Generated secrets are stable: no pass changes or removes an entry that is already there. */
module SecretTheorems {
  import opened Wrappers
  import opened Cluster
  import opened Reconcile

  /** Every entry is still there, unchanged, and at most OPA's client was added. */
  ghost predicate Extends(before: SecretData, after: SecretData)
  {
    && (forall f | f in before :: f in after && after[f] == before[f])
    && (forall f | f in after :: f in before || OpasOwn(f))
  }

  /** The secret, if it is there before, is there afterwards with all its entries. */
  ghost predicate Kept(w: World, w': World, k: SecretKey)
  {
    k in w.objects.secrets ==> k in w'.objects.secrets && Extends(w.objects.secrets[k], w'.objects.secrets[k])
  }

  /** OPA is deployed, and with it the secret that it reads. */
  predicate DeploysOpa(spec: Spec)
  {
    spec.lakekeeper && spec.trino.EmbeddedTrino? && !spec.auth.NoAuth? && spec.authz.EmbeddedOpenFga?
  }

  predicate OpasOwn(f: Field) { f.OpaClientId? || f.OpaClientSecret? }

  /** The bucket step's secret. */
  predicate BucketWrites(spec: Spec, k: SecretKey)
  {
    spec.storage.EmbeddedMinio? && k == SecretKey(spec.storage.ns, SecretMinioMc)
  }

  predicate TrinoWrites(spec: Spec, k: SecretKey)
  {
    spec.trino.EmbeddedTrino? && k.ns == spec.trino.ns && k.name in {SecretTrinoConfig, SecretTrinoCatalog}
  }

  /** The secrets that the operator renders anew in every pass. */
  predicate Rewritten(spec: Spec, k: SecretKey)
  {
    BucketWrites(spec, k) || TrinoWrites(spec, k) || (DeploysOpa(spec) && k == SecretKey(spec.authz.ns, SecretOidc))
  }

  /** An entry that is read from the identity provider's client secret and that OPA's secret
      does not have, if there is one. */
  function ClientField(auth: AuthSpec): Field
  {
    match auth
    case NoAuth => OpaClientId
    case EmbeddedKeycloak(_) => TrinoClientSecret
    case ExternalOidc(_, _, credentials) => if credentials.None? then OpaClientId else ForeignField(credentials.value)
  }

  predicate Foreign(key: Field) { key != UserField("") && !OpasOwn(key) }

  function ForeignField(ref: OidcRef): Field
  {
    if Foreign(ref.clientIdKey) then ref.clientIdKey
    else if Foreign(ref.trinoIdKey) then ref.trinoIdKey
    else if Foreign(ref.trinoSecretKey) then ref.trinoSecretKey
    else ref.clientSecretKey
  }

  /** The secret that the identity provider's clients are read from. */
  predicate ClientKey(auth: AuthSpec, k: SecretKey)
  {
    match auth
    case NoAuth => false
    case EmbeddedKeycloak(ns) => k == SecretKey(ns, SecretOidc)
    case ExternalOidc(_, _, credentials) =>
      credentials.Some? && k == SecretKey(credentials.value.ns, credentials.value.name)
  }

  /** OPA's client secret overwrites the one that the identity provider's clients are read
      from, and leaves out an entry that is read there: Keycloak and OpenFGA share a namespace,
      or the user's own secret is called like OPA's. */
  predicate Clash(spec: Spec)
  {
    && DeploysOpa(spec) && ClientKey(spec.auth, SecretKey(spec.authz.ns, SecretOidc))
    && !OpasOwn(ClientField(spec.auth))
  }

  // --- The secrets that the operator generates for a spec, by component ---

  predicate StorageGenerates(spec: Spec, k: SecretKey)
  {
    || (spec.postgres.EmbeddedPostgres? && k == SecretKey(spec.ns, SecretPostgres))
    || (spec.storage.EmbeddedMinio? && k == SecretKey(spec.storage.ns, SecretMinio))
  }

  predicate AuthGenerates(spec: Spec, k: SecretKey)
  {
    spec.auth.EmbeddedKeycloak? && k.ns == spec.auth.ns && k.name in {SecretRealmKey, SecretKeycloakAdmin, SecretOidc}
  }

  predicate AuthzGenerates(spec: Spec, k: SecretKey)
  {
    spec.authz.EmbeddedOpenFga? && k.ns == spec.authz.ns && k.name in {SecretOpenFga, SecretPostgres}
  }

  predicate TrinoGenerates(spec: Spec, k: SecretKey)
  {
    !spec.auth.NoAuth? && spec.trino.EmbeddedTrino? && spec.trino.hasPublicUrl
      && k == SecretKey(spec.trino.ns, SecretTrinoInternal)
  }

  predicate Generated(spec: Spec, k: SecretKey)
  {
    && spec.lakekeeper
    && (|| StorageGenerates(spec, k) || AuthGenerates(spec, k) || AuthzGenerates(spec, k)
        || k == SecretKey(spec.ns, SecretEncryption) || TrinoGenerates(spec, k))
  }

  // --- The secrets that a pass reads, generated or named by the user ---

  predicate StorageReads(spec: Spec, k: SecretKey)
  {
    || StorageGenerates(spec, k)
    || (spec.postgres.ExternalPostgres? && spec.postgres.credentials.Some?
        && var ref := spec.postgres.credentials.value;
           k == SecretKey(if ref.ns == "" then spec.ns else ref.ns, ref.name))
    || (spec.storage.ExternalS3? && spec.storage.s3.Some? && spec.storage.s3.value.credentials.Some?
        && var ref := spec.storage.s3.value.credentials.value; k == SecretKey(ref.ns, ref.name))
  }

  predicate AuthReads(spec: Spec, k: SecretKey)
  {
    AuthGenerates(spec, k) || ClientKey(spec.auth, k)
  }

  lemma WriteKeeps(w: World, p: Pass, key: SecretKey, data: SecretData, k: SecretKey)
    requires key in w.objects.secrets ==> Extends(w.objects.secrets[key], data)
    ensures Kept(w, Write(w, p, WithSecret(w, key, data)).w, k)
  {
  }

  lemma EnsureKeeps(w: World, p: Pass, key: SecretKey, data: SecretData, k: SecretKey)
    ensures Kept(w, EnsureGenerated(w, p, key, data).w, k)
  {
    if key !in w.objects.secrets {
      WriteKeeps(Tick(w), p, key, data, k);
    }
  }

  lemma RepairExtends(key: SecretKey, data: SecretData, p: Pass)
    ensures Extends(data, RepairedOidcData(key, data, p))
  {
  }

  lemma OidcKeeps(w: World, p: Pass, key: SecretKey, k: SecretKey)
    ensures Kept(w, EnsureOidcSecret(w, p, key).w, k)
  {
    var w1 := Tick(w);
    if key in w.objects.secrets {
      RepairExtends(key, w.objects.secrets[key], p);
      WriteKeeps(w1, p, key, RepairedOidcData(key, w1.objects.secrets[key], p), k);
    } else {
      EnsureKeeps(w1, p, key, Instantiate(key, NEW_OIDC_TEMPLATE, p), k);
    }
  }

  lemma GenerateKeeps(w: World, p: Pass, a: Action, k: SecretKey)
    requires Generates(a)
    ensures Kept(w, ActGenerate(w, p, a).w, k)
  {
    match a
    case Generate(key, template) => EnsureKeeps(w, p, key, Instantiate(key, template, p), k);
    case GenerateOnce(key, template) => EnsureKeeps(Tick(w), p, key, Instantiate(key, template, p), k);
    case GenerateChecked(key, template) => EnsureKeeps(Tick(w), p, key, Instantiate(key, template, p), k);
    case EnsureOidc(key) => OidcKeeps(w, p, key, k);
  }

  /** Only a rewrite of the very secret can touch an entry. */
  lemma ActKeeps(w: World, p: Pass, a: Action, k: SecretKey)
    requires a.Rewrite? ==> a.key != k
    ensures Kept(w, Act(w, p, a).w, k)
  {
    if Generates(a) {
      GenerateKeeps(w, p, a, k);
    }
  }

  lemma {:induction false} ActsKeep(w: World, p: Pass, actions: seq<Action>, k: SecretKey)
    requires forall a | a in actions && a.Rewrite? :: a.key != k
    ensures Kept(w, Acts(w, p, actions).w, k)
  {
    if actions != [] {
      var n := |actions| - 1;
      ActsKeep(w, p, actions[..n], k);
      var r := Acts(w, p, actions[..n]);
      if r.Ok? {
        assert actions[n] in actions;
        ActKeeps(r.w, p, actions[n], k);
      }
    }
  }

  // --- Secrets that are created are created whole ---

  /** What later code reads from a generated secret. */
  function FieldsOf(name: SecretName): set<Field>
  {
    match name
    case SecretPostgres => {Username, Password, Database}
    case SecretMinio => {AccessKey, SecretAccessKey}
    case SecretRealmKey => {PrivateKey, Certificate}
    case SecretKeycloakAdmin => {Username, Password}
    case SecretOidc => {ClientId, TrinoClientId, TrinoClientSecret, OperatorClientId, OperatorClientSecret}
    case SecretOpenFga => {ApiKey}
    case SecretEncryption => {EncryptionKey}
    case SecretTrinoInternal => {SharedSecret}
    case _ => {}
  }

  /** Kept and, if it is new, complete. */
  ghost predicate Tended(w: World, w': World, k: SecretKey)
  {
    && Kept(w, w', k)
    && (k !in w.objects.secrets && k in w'.objects.secrets ==> FieldsOf(k.name) <= w'.objects.secrets[k].Keys)
  }

  /** Entries of generated secrets that are not drawn at random. */
  function Conventional(name: SecretName, f: Field): Option<string>
  {
    match f
    case Username => Some(if name.SecretKeycloakAdmin? then "admin" else "postgres")
    case ClientId => Some("lakekeeper")
    case TrinoClientId => Some("trino")
    case OperatorClientId => Some("operator")
    case OpaClientId => Some("opa")
    case _ => None
  }

  /** What a new entry is: a conventional name, a database's name, or its own random draw. */
  ghost predicate Expected(p: Pass, k: SecretKey, f: Field, v: Value)
  {
    if Conventional(k.name, f).Some? then v == Text(Conventional(k.name, f).value)
    else if f.Database? then v.Text?
    else v == Text(p.random(k, f))
  }

  /** Tended, and every entry that is new is as it should be. */
  ghost predicate Sown(w: World, w': World, k: SecretKey, p: Pass)
  {
    && Tended(w, w', k)
    && (k in w'.objects.secrets ==>
          forall f | f in w'.objects.secrets[k] && !(k in w.objects.secrets && f in w.objects.secrets[k]) ::
            Expected(p, k, f, w'.objects.secrets[k][f]))
  }

  predicate Draws(name: SecretName, f: Field, source: Source)
  {
    if Conventional(name, f).Some? then source == Fixed(Conventional(name, f).value)
    else if f.Database? then source.Fixed?
    else source.Random?
  }

  /** An action that, if it creates a secret, creates it complete and with the right entries,
      and that does not rewrite k. */
  predicate Tends(a: Action, k: SecretKey)
  {
    && (a.Rewrite? ==> a.key != k)
    && (a.Generate? || a.GenerateOnce? || a.GenerateChecked? ==>
          FieldsOf(a.key.name) <= a.template.Keys && forall f | f in a.template :: Draws(a.key.name, f, a.template[f]))
    && (a.EnsureOidc? ==> a.key.name.SecretOidc?)
  }

  lemma EnsureCreates(w: World, p: Pass, key: SecretKey, template: Template, k: SecretKey)
    requires FieldsOf(key.name) <= template.Keys && forall f | f in template :: Draws(key.name, f, template[f])
    ensures Sown(w, EnsureGenerated(w, p, key, Instantiate(key, template, p)).w, k, p)
  {
    EnsureKeeps(w, p, key, Instantiate(key, template, p), k);
    assert Instantiate(key, template, p).Keys == template.Keys;
  }

  /** What the repair adds. */
  lemma RepairAdds(key: SecretKey, data: SecretData, p: Pass)
    ensures forall f | f in RepairedOidcData(key, data, p) && f !in data ::
              Expected(p, key, f, RepairedOidcData(key, data, p)[f])
  {
  }

  lemma RepairSown(w: World, p: Pass, key: SecretKey, k: SecretKey)
    requires key in w.objects.secrets
    ensures Sown(w, Write(w, p, WithSecret(w, key, RepairedOidcData(key, w.objects.secrets[key], p))).w, k, p)
  {
    var data := w.objects.secrets[key];
    RepairExtends(key, data, p);
    RepairAdds(key, data, p);
    WriteKeeps(w, p, key, RepairedOidcData(key, data, p), k);
  }

  lemma NewClientsDrawn()
    ensures FieldsOf(SecretOidc) <= NEW_OIDC_TEMPLATE.Keys
    ensures forall f | f in NEW_OIDC_TEMPLATE :: Draws(SecretOidc, f, NEW_OIDC_TEMPLATE[f])
  {
  }

  lemma OidcCreates(w: World, p: Pass, key: SecretKey, k: SecretKey)
    requires key.name.SecretOidc?
    ensures Sown(w, EnsureOidcSecret(w, p, key).w, k, p)
  {
    NewClientsDrawn();
    OidcSown(w, p, key, NEW_OIDC_TEMPLATE, k);
  }

  lemma OidcSown(w: World, p: Pass, key: SecretKey, template: Template, k: SecretKey)
    requires key.name.SecretOidc? && template == NEW_OIDC_TEMPLATE && FieldsOf(SecretOidc) <= template.Keys
    requires forall f | f in template :: Draws(SecretOidc, f, template[f])
    ensures Sown(w, EnsureOidcSecret(w, p, key).w, k, p)
  {
    var w1 := Tick(w);
    EnsureCreates(w1, p, key, template, k);
    if key in w.objects.secrets { RepairSown(w1, p, key, k); }
  }

  lemma ActTends(w: World, p: Pass, a: Action, k: SecretKey)
    requires Tends(a, k)
    ensures Sown(w, Act(w, p, a).w, k, p)
  {
    ActKeeps(w, p, a, k);
    match a
    case Generate(key, template) => EnsureCreates(w, p, key, template, k);
    case GenerateOnce(key, template) => EnsureCreates(Tick(w), p, key, template, k);
    case GenerateChecked(key, template) => EnsureCreates(Tick(w), p, key, template, k);
    case EnsureOidc(key) => OidcCreates(w, p, key, k);
    case _ =>
  }

  lemma {:induction false} ActsTend(w: World, p: Pass, actions: seq<Action>, k: SecretKey)
    requires forall a | a in actions :: Tends(a, k)
    ensures Sown(w, Acts(w, p, actions).w, k, p)
  {
    if actions != [] {
      var n := |actions| - 1;
      ActsTend(w, p, actions[..n], k);
      var r := Acts(w, p, actions[..n]);
      if r.Ok? {
        assert actions[n] in actions;
        ActTends(r.w, p, actions[n], k);
        SownTransitive(w, r.w, Act(r.w, p, actions[n]).w, k, p);
      }
    }
  }

  lemma PostgresKeeps(spec: Spec, w: World, p: Pass, k: SecretKey)
    ensures Sown(w, ReconcilePostgres(w, spec, p).w, k, p)
  {
    match spec.postgres
    case EmbeddedPostgres(db) => ActsTend(w, p, PostgresActions(spec.ns, db), k);
    case ExternalPostgres(_, credentials) =>
      if credentials.Some? {
        var ref := credentials.value;
        ActsTend(w, p,
                 CredentialActions(SecretKey(if ref.ns == "" then spec.ns else ref.ns, ref.name), ref), k);
      }
  }

  lemma BucketKeeps(w: World, ns: string, store: Store, p: Pass, k: SecretKey)
    requires k != SecretKey(ns, SecretMinioMc)
    ensures Sown(w, EnsureMinioBucket(w, ns, store, p).w, k, p)
  {
    var a := Rewrite(SecretKey(ns, SecretMinioMc), map[McHost := Built(McHost, StoreParts(store))]);
    ActTends(w, p, a, k);
    BucketSecrets(w, ns, store, p);
    SownSame(w, Act(w, p, a).w, EnsureMinioBucket(w, ns, store, p).w, k, p);
  }

  /** After its secret is written the bucket step touches no other. */
  lemma BucketSecrets(w: World, ns: string, store: Store, p: Pass)
    ensures var a := Rewrite(SecretKey(ns, SecretMinioMc), map[McHost := Built(McHost, StoreParts(store))]);
            EnsureMinioBucket(w, ns, store, p).w.objects.secrets == Act(w, p, a).w.objects.secrets
  {
  }

  lemma SownSame(w: World, w1: World, w2: World, k: SecretKey, p: Pass)
    requires Sown(w, w1, k, p) && w2.objects.secrets == w1.objects.secrets
    ensures Sown(w, w2, k, p)
  {
  }

  lemma ObjectStoreKeeps(spec: Spec, w: World, p: Pass, k: SecretKey)
    requires !BucketWrites(spec, k)
    ensures Sown(w, ReconcileObjectStore(w, spec, p).w, k, p)
  {
    match spec.storage
    case EmbeddedMinio(ns) =>
      ActsTend(w, p, MinioActions(ns), k);
      var r1 := Acts(w, p, MinioActions(ns));
      if r1.Ok? {
        var r2 := WorkloadReady(r1.w, p, Workload(ns, Minio));
        if r2.Ok? {
          BucketKeeps(r2.w, ns, StoreOf(r1.value, false), p, k);
        }
      }
    case ExternalS3(s3) =>
      if s3.Some? && s3.value.credentials.Some? {
        var ref := s3.value.credentials.value;
        ActsTend(w, p, CredentialActions(SecretKey(ref.ns, ref.name), ref), k);
      }
  }

  lemma KeycloakRewritesNothing(ns: string)
    ensures forall a | a in KeycloakActions(ns) :: !a.Rewrite?
  {
  }

  lemma KeycloakTends(ns: string, k: SecretKey)
    ensures forall a | a in KeycloakActions(ns) :: Tends(a, k)
  {
  }

  lemma KeycloakKeeps(w: World, ns: string, p: Pass, k: SecretKey)
    ensures Sown(w, ReconcileKeycloak(w, ns, p).w, k, p)
  {
    KeycloakTends(ns, k);
    ActsTend(w, p, KeycloakActions(ns), k);
  }

  lemma AuthKeeps(spec: Spec, w: World, p: Pass, k: SecretKey)
    ensures Sown(w, ReconcileAuth(w, spec, p).w, k, p)
  {
    match spec.auth
    case NoAuth =>
    case EmbeddedKeycloak(ns) => KeycloakKeeps(w, ns, p, k);
    case ExternalOidc(_, _, credentials) =>
      if credentials.Some? {
        ActsTend(w, p, OidcActions(credentials.value), k);
      }
  }

  lemma OpenFgaTends(ns: string, k: SecretKey)
    ensures forall a | a in OpenFgaActions(ns) :: Tends(a, k)
  {
  }

  lemma RunOpenFgaTends(ns: string, k: SecretKey)
    ensures forall a | a in RunOpenFgaActions(ns) :: Tends(a, k)
  {
  }

  lemma AuthzKeeps(spec: Spec, w: World, p: Pass, k: SecretKey)
    ensures Sown(w, ReconcileAuthz(w, spec, p).w, k, p)
  {
    if spec.authz.EmbeddedOpenFga? {
      var ns := spec.authz.ns;
      OpenFgaTends(ns, k);
      ActsTend(w, p, OpenFgaActions(ns), k);
      var r1 := Acts(w, p, OpenFgaActions(ns));
      if r1.Ok? {
        var r2 := WorkloadReady(r1.w, p, Workload(ns, Postgres));
        if r2.Ok? && r2.value {
          RunOpenFgaKeeps(r2.w, ns, NeedsStore(spec), spec.catalogClient, p, k);
        }
      }
    }
  }

  lemma RunOpenFgaKeeps(w: World, ns: string, needsStore: bool, catalogClient: bool, p: Pass, k: SecretKey)
    ensures Sown(w, RunOpenFga(w, ns, needsStore, catalogClient, p).w, k, p)
  {
    RunOpenFgaTends(ns, k);
    ActsTend(w, p, RunOpenFgaActions(ns), k);
  }

  lemma RunLakekeeperKeeps(spec: Spec, w: World, authReady: bool, fgaReady: bool, p: Pass, k: SecretKey)
    ensures Sown(w, RunLakekeeper(w, spec, authReady, fgaReady, p).w, k, p)
  {
    ActsTend(w, p, LakekeeperActions(spec.ns), k);
  }

  lemma FinishKeepsSecrets(spec: Spec, w: World, store: (Store, bool), auth: (Oidc, bool), fga: (Fga, bool), p: Pass)
    ensures FinishStack(w, spec, store, auth, fga, p).w.objects == w.objects
  {
  }

  lemma StorageKeeps(spec: Spec, w: World, p: Pass, k: SecretKey)
    requires !BucketWrites(spec, k)
    ensures Sown(w, ReconcileStorage(w, spec, p).w, k, p)
  {
    ActTends(w, p, EnsureNamespace(spec.ns), k);
    var r1 := Act(w, p, EnsureNamespace(spec.ns));
    if r1.Ok? {
      PostgresKeeps(spec, r1.w, p, k);
      var r2 := ReconcilePostgres(r1.w, spec, p);
      if r2.Ok? {
        ObjectStoreKeeps(spec, r2.w, p, k);
      }
    }
  }

  lemma StackKeeps(spec: Spec, w: World, p: Pass, k: SecretKey)
    requires !BucketWrites(spec, k)
    ensures Sown(w, ReconcileLakekeeperStack(w, spec, p).w, k, p)
  {
    if spec.lakekeeper {
      StorageKeeps(spec, w, p, k);
      var r1 := ReconcileStorage(w, spec, p);
      if r1.Ok? {
        AuthKeeps(spec, r1.w, p, k);
        var r2 := ReconcileAuth(r1.w, spec, p);
        if r2.Ok? {
          AuthzKeeps(spec, r2.w, p, k);
          var r3 := ReconcileAuthz(r2.w, spec, p);
          if r3.Ok? {
            RunLakekeeperKeeps(spec, r3.w, r2.value.1, r3.value.1, p, k);
            var r4 := RunLakekeeper(r3.w, spec, r2.value.1, r3.value.1, p);
            if r4.Ok? {
              FinishKeepsSecrets(spec, r4.w, r1.value, r2.value, r3.value, p);
            }
          }
        }
      }
    }
  }

  lemma OpaKeeps(spec: Spec, w: World, oidc: Oidc, fga: Fga, p: Pass, k: SecretKey)
    requires oidc.NoOidc? || !spec.authz.EmbeddedOpenFga? || k != SecretKey(spec.authz.ns, SecretOidc)
    ensures Sown(w, ReconcileOpa(w, spec, oidc, fga, p).w, k, p)
  {
    if !(fga.NoFga? || oidc.NoOidc? || !spec.authz.EmbeddedOpenFga?) {
      ActsTend(w, p, OpaActions(spec.authz.ns, oidc), k);
    }
  }

  lemma KeptTransitive(a: World, b: World, c: World, k: SecretKey)
    requires Kept(a, b, k) && Kept(b, c, k)
    ensures Kept(a, c, k)
  {
  }

  lemma SownTransitive(a: World, b: World, c: World, k: SecretKey, p: Pass)
    requires Sown(a, b, k, p) && Sown(b, c, k, p)
    ensures Sown(a, c, k, p)
  {
  }

  /** Nothing after Trino's configuration touches secrets. */
  lemma WorkersKeepSecrets(w: World, ns: string, workers: nat, p: Pass)
    ensures var r := ReconcileTrinoWorkers(w, ns, workers, p);
            && r.w.objects.secrets == w.objects.secrets
            && WorkloadReady(r.w, p, Workload(ns, Trino)).w.objects.secrets == w.objects.secrets
  {
  }

  lemma SharedTends(ns: string, uiAuth: bool, k: SecretKey)
    ensures forall a | a in SharedSecretActions(ns, uiAuth) :: Tends(a, k)
  {
  }

  lemma TrinoTends(ns: string, store: Store, oidc: Oidc, opa: OpaUse, shared: seq<Value>, k: SecretKey)
    requires k.ns != ns || k.name !in {SecretTrinoConfig, SecretTrinoCatalog}
    ensures forall a | a in TrinoActions(ns, store, oidc, opa, shared) :: Tends(a, k)
  {
  }

  lemma TrinoKeeps(w: World, ns: string, hasPublicUrl: bool, workers: nat, store: Store, oidc: Oidc, opa: OpaUse,
                   p: Pass, k: SecretKey)
    requires k.ns != ns || k.name !in {SecretTrinoConfig, SecretTrinoCatalog}
    ensures Sown(w, ReconcileTrino(w, ns, hasPublicUrl, workers, store, oidc, opa, p).w, k, p)
  {
    var acts := SharedSecretActions(ns, oidc.Oidc? && hasPublicUrl);
    SharedTends(ns, oidc.Oidc? && hasPublicUrl, k);
    ActsTend(w, p, acts, k);
    var r1 := Acts(w, p, acts);
    if r1.Ok? {
      TrinoTends(ns, store, oidc, opa, r1.value, k);
      var r2 := Acts(r1.w, p, TrinoActions(ns, store, oidc, opa, r1.value));
      ActsTend(r1.w, p, TrinoActions(ns, store, oidc, opa, r1.value), k);
      SownTransitive(w, r1.w, r2.w, k, p);
      if r2.Ok? {
        WorkersKeepSecrets(r2.w, ns, workers, p);
        SownSame(w, r2.w, ReconcileTrino(w, ns, hasPublicUrl, workers, store, oidc, opa, p).w, k, p);
      }
    }
  }

  lemma TrinoStackKeeps(spec: Spec, w: World, stack: Stack, p: Pass, k: SecretKey)
    requires !TrinoWrites(spec, k)
    requires stack.oidc.NoOidc? || !spec.trino.EmbeddedTrino? || !spec.authz.EmbeddedOpenFga?
              || k != SecretKey(spec.authz.ns, SecretOidc)
    ensures Sown(w, ReconcileTrinoStack(w, spec, stack, p).w, k, p)
  {
    if spec.trino.EmbeddedTrino? {
      var t := spec.trino;
      ActTends(w, p, EnsureNamespace(t.ns), k);
      var r1 := Act(w, p, EnsureNamespace(t.ns));
      if r1.Ok? {
        OpaKeeps(spec, r1.w, stack.oidc, stack.fga, p, k);
        var r2 := ReconcileOpa(r1.w, spec, stack.oidc, stack.fga, p);
        SownTransitive(w, r1.w, r2.w, k, p);
        if r2.Ok? {
          var opa := OpaUseOf(spec.authz, stack.oidc, stack.fga);
          TrinoKeeps(r2.w, t.ns, t.hasPublicUrl, t.workers, stack.store, stack.oidc, opa, p, k);
          SownTransitive(w, r2.w,
                           ReconcileTrino(r2.w, t.ns, t.hasPublicUrl, t.workers, stack.store, stack.oidc, opa, p).w,
                             k, p);
        }
      }
    }
  }

  /** Without LakeKeeper or without auth there is no client to hand to OPA. */
  lemma StackOidc(spec: Spec, w: World, p: Pass)
    requires ReconcileLakekeeperStack(w, spec, p).Ok? && (!spec.lakekeeper || spec.auth.NoAuth?)
    ensures ReconcileLakekeeperStack(w, spec, p).value.oidc.NoOidc?
  {
  }

  /** No pass, failing or not, changes or removes an entry of a secret that it does not
      render anew. */
  lemma PassKeeps(spec: Spec, w: World, p: Pass, k: SecretKey)
    requires !Rewritten(spec, k)
    ensures Sown(w, RunPass(w, spec, p).w, k, p)
  {
    var s := Start(w);
    StackKeeps(spec, s, p, k);
    var r := ReconcileLakekeeperStack(s, spec, p);
    if r.Ok? {
      if !spec.lakekeeper || spec.auth.NoAuth? { StackOidc(spec, s, p); }
      TrinoStackKeeps(spec, r.w, r.value, p, k);
      SownTransitive(s, r.w, ReconcileTrinoStack(r.w, spec, r.value, p).w, k, p);
    }
  }

  /** A generated secret is rendered anew exactly when the two namespaces clash, and then it
      is Keycloak's client secret. */
  lemma GeneratedRewritten(spec: Spec, k: SecretKey)
    requires Generated(spec, k)
    ensures Rewritten(spec, k) <==>
              spec.auth.EmbeddedKeycloak? && Clash(spec) && k == SecretKey(spec.auth.ns, SecretOidc)
  {
  }

  // --- The clash ---

  /** The secret is there without an entry that the identity provider's step reads. */
  predicate Broken(w: World, k: SecretKey, f: Field)
  {
    k in w.objects.secrets && f !in w.objects.secrets[k]
  }

  lemma KeptBroken(w: World, w': World, k: SecretKey, f: Field)
    requires Kept(w, w', k) && Broken(w, k, f) && !OpasOwn(f)
    ensures Broken(w', k, f)
  {
  }

  /** A write in the list that leaves the entry out breaks the secret. */
  lemma {:induction false} ActsBreak(w: World, p: Pass, actions: seq<Action>, k: SecretKey, data: SecretData, f: Field)
    requires f !in data && !OpasOwn(f) && Rewrite(k, data) in actions && Acts(w, p, actions).Ok?
    requires forall a | a in actions && a.Rewrite? && a.key == k :: a.data == data
    ensures Broken(Acts(w, p, actions).w, k, f)
  {
    var n := |actions| - 1;
    var r := Acts(w, p, actions[..n]);
    if actions[n] != Rewrite(k, data) {
      ActsBreak(w, p, actions[..n], k, data, f);
      assert actions[n] in actions;
      ActKeeps(r.w, p, actions[n], k);
      KeptBroken(r.w, Act(r.w, p, actions[n]).w, k, f);
    }
  }

  /** A broken secret cannot be read. */
  lemma {:induction false} BrokenStops(w: World, p: Pass, actions: seq<Action>, k: SecretKey, f: Field)
    requires Broken(w, k, f) && !OpasOwn(f) && Get(k, f) in actions && forall a | a in actions :: !a.Rewrite?
    ensures Acts(w, p, actions).Err?
  {
    var n := |actions| - 1;
    var r := Acts(w, p, actions[..n]);
    if r.Ok? {
      ActsKeep(w, p, actions[..n], k);
      if actions[n] != Get(k, f) {
        BrokenStops(w, p, actions[..n], k, f);
      }
    }
  }

  lemma OpaBreaks(spec: Spec, w: World, oidc: Oidc, fga: Fga, p: Pass, f: Field)
    requires spec.authz.EmbeddedOpenFga? && oidc.Oidc? && !fga.NoFga? && ReconcileOpa(w, spec, oidc, fga, p).Ok?
    requires !OpasOwn(f)
    ensures Broken(ReconcileOpa(w, spec, oidc, fga, p).w, SecretKey(spec.authz.ns, SecretOidc), f)
  {
    var k, data := SecretKey(spec.authz.ns, SecretOidc),
      map[OpaClientId := oidc.opa.id, OpaClientSecret := oidc.opa.secret];
    assert OpaActions(spec.authz.ns, oidc)[0] == Rewrite(k, data);
    ActsBreak(w, p, OpaActions(spec.authz.ns, oidc), k, data, f);
  }

  lemma TrinoStackBreaks(spec: Spec, w: World, stack: Stack, p: Pass, f: Field)
    requires spec.authz.EmbeddedOpenFga? && spec.trino.EmbeddedTrino? && stack.oidc.Oidc? && !stack.fga.NoFga?
    requires ReconcileTrinoStack(w, spec, stack, p).Ok? && !OpasOwn(f)
    ensures Broken(ReconcileTrinoStack(w, spec, stack, p).w, SecretKey(spec.authz.ns, SecretOidc), f)
  {
    var t, k, opa := spec.trino, SecretKey(spec.authz.ns, SecretOidc), OpaUseOf(spec.authz, stack.oidc, stack.fga);
    var w1 := Act(w, p, EnsureNamespace(t.ns)).w;
    OpaBreaks(spec, w1, stack.oidc, stack.fga, p, f);
    var w2 := ReconcileOpa(w1, spec, stack.oidc, stack.fga, p).w;
    TrinoKeeps(w2, t.ns, t.hasPublicUrl, t.workers, stack.store, stack.oidc, opa, p, k);
    KeptBroken(w2, ReconcileTrino(w2, t.ns, t.hasPublicUrl, t.workers, stack.store, stack.oidc, opa, p).w, k, f);
  }

  lemma AuthClient(spec: Spec, w: World, p: Pass)
    requires ReconcileAuth(w, spec, p).Ok? && !spec.auth.NoAuth?
    ensures ReconcileAuth(w, spec, p).value.0.Oidc?
  {
  }

  lemma AuthzClient(spec: Spec, w: World, p: Pass)
    requires ReconcileAuthz(w, spec, p).Ok? && spec.authz.EmbeddedOpenFga?
    ensures !ReconcileAuthz(w, spec, p).value.0.NoFga?
  {
  }

  lemma FinishHandsOn(spec: Spec, w: World, store: (Store, bool), auth: (Oidc, bool), fga: (Fga, bool), p: Pass)
    requires FinishStack(w, spec, store, auth, fga, p).Ok?
    ensures var s := FinishStack(w, spec, store, auth, fga, p).value; s.oidc == auth.0 && s.fga == fga.0
  {
  }

  lemma StackClients(spec: Spec, w: World, p: Pass)
    requires ReconcileLakekeeperStack(w, spec, p).Ok? && DeploysOpa(spec)
    ensures var s := ReconcileLakekeeperStack(w, spec, p).value; s.oidc.Oidc? && !s.fga.NoFga?
  {
    var r1 := ReconcileStorage(w, spec, p);
    var r2 := ReconcileAuth(r1.w, spec, p);
    AuthClient(spec, r1.w, p);
    var r3 := ReconcileAuthz(r2.w, spec, p);
    AuthzClient(spec, r2.w, p);
    var r4 := RunLakekeeper(r3.w, spec, r2.value.1, r3.value.1, p);
    FinishHandsOn(spec, r4.w, r1.value, r2.value, r3.value, p);
  }

  /** A pass without error breaks the secret that OPA reads, for all but OPA. */
  lemma PassBreaks(spec: Spec, w: World, p: Pass, f: Field)
    requires DeploysOpa(spec) && RunPass(w, spec, p).Ok? && !OpasOwn(f)
    ensures Broken(RunPass(w, spec, p).w, SecretKey(spec.authz.ns, SecretOidc), f)
  {
    var s := Start(w);
    var r := ReconcileLakekeeperStack(s, spec, p);
    StackClients(spec, s, p);
    TrinoStackBreaks(spec, r.w, r.value, p, f);
  }

  /** Keycloak's client secret survives a pass without error exactly when its namespace is
      not OpenFGA's. */
  lemma OidcKeptIff(spec: Spec, w: World, p: Pass)
    requires spec.auth.EmbeddedKeycloak? && RunPass(w, spec, p).Ok?
    requires var k := SecretKey(spec.auth.ns, SecretOidc);
             k in w.objects.secrets && TrinoClientSecret in w.objects.secrets[k]
    ensures Kept(w, RunPass(w, spec, p).w, SecretKey(spec.auth.ns, SecretOidc)) <==> !Clash(spec)
  {
    if Clash(spec) {
      PassBreaks(spec, w, p, TrinoClientSecret);
    } else {
      PassKeeps(spec, w, p, SecretKey(spec.auth.ns, SecretOidc));
    }
  }

  lemma KeycloakReadsClient(ns: string)
    ensures Get(SecretKey(ns, SecretOidc), TrinoClientSecret) in KeycloakActions(ns)
  {
    assert KeycloakActions(ns)[5] == Get(SecretKey(ns, SecretOidc), TrinoClientSecret);
  }

  lemma ExternalReadsClient(ref: OidcRef)
    ensures Get(SecretKey(ref.ns, ref.name), ForeignField(ref)) in OidcActions(ref)
    ensures forall a | a in OidcActions(ref) :: !a.Rewrite?
  {
    var key := SecretKey(ref.ns, ref.name);
    var first, second, third, last := OptionalGet(key, ref.clientIdKey), [Get(key, ref.clientSecretKey)],
      OptionalGet(key, ref.trinoIdKey), OptionalGet(key, ref.trinoSecretKey);
    assert OidcActions(ref) == first + second + third + last;
    assert second[0] in second;
    if ref.clientIdKey != UserField("") { assert first[0] in first; }
    if ref.trinoIdKey != UserField("") { assert third[0] in third; }
    if ref.trinoSecretKey != UserField("") { assert last[0] in last; }
  }

  lemma KeycloakStops(w: World, ns: string, p: Pass)
    requires Broken(w, SecretKey(ns, SecretOidc), TrinoClientSecret)
    ensures ReconcileKeycloak(w, ns, p).Err?
  {
    KeycloakReadsClient(ns);
    KeycloakRewritesNothing(ns);
    BrokenStops(w, p, KeycloakActions(ns), SecretKey(ns, SecretOidc), TrinoClientSecret);
  }

  lemma ExternalStops(w: World, issuer: string, clientId: string, ref: OidcRef, p: Pass)
    requires Broken(w, SecretKey(ref.ns, ref.name), ForeignField(ref)) && !OpasOwn(ForeignField(ref))
    ensures ExternalOidcConfig(w, issuer, clientId, Some(ref), p).Err?
  {
    ExternalReadsClient(ref);
    BrokenStops(w, p, OidcActions(ref), SecretKey(ref.ns, ref.name), ForeignField(ref));
  }

  /** The identity provider's step cannot read a broken client secret, and leaves it broken. */
  lemma AuthStops(spec: Spec, w: World, p: Pass, k: SecretKey)
    requires ClientKey(spec.auth, k) && Broken(w, k, ClientField(spec.auth)) && !OpasOwn(ClientField(spec.auth))
    ensures ReconcileAuth(w, spec, p).Err? && Broken(ReconcileAuth(w, spec, p).w, k, ClientField(spec.auth))
  {
    AuthKeeps(spec, w, p, k);
    KeptBroken(w, ReconcileAuth(w, spec, p).w, k, ClientField(spec.auth));
    match spec.auth
    case EmbeddedKeycloak(ns) => KeycloakStops(w, ns, p);
    case ExternalOidc(issuer, clientId, credentials) => ExternalStops(w, issuer, clientId, credentials.value, p);
  }

  /** A broken client secret is never repaired: every pass over it errors and leaves it so. */
  lemma BrokenSticks(spec: Spec, w: World, p: Pass, k: SecretKey)
    requires spec.lakekeeper && ClientKey(spec.auth, k) && !BucketWrites(spec, k)
    requires Broken(w, k, ClientField(spec.auth)) && !OpasOwn(ClientField(spec.auth))
    ensures RunPass(w, spec, p).Err? && Broken(RunPass(w, spec, p).w, k, ClientField(spec.auth))
  {
    var s, f := Start(w), ClientField(spec.auth);
    var r1 := ReconcileStorage(s, spec, p);
    StorageKeeps(spec, s, p, k);
    KeptBroken(s, r1.w, k, f);
    if r1.Ok? {
      AuthStops(spec, r1.w, p, k);
    }
  }
}
