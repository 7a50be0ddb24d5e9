/** Where the reconciler falls short of what its conditions and secrets promise, exactly when,
    and inputs on which it does. */
module ReconcilerGaps {
  import opened Wrappers
  import opened Cluster
  import opened Reconcile
  import opened ReadyTheorems
  import opened SecretTheorems
  import opened Success
  import opened AnsweredRuns
  import opened Enforcement

  // --- Ready does not look at OPA or at Trino's workers ---

  predicate OpaUp(w: World, spec: Spec)
  {
    DeploysOpa(spec) ==> Up(w, Workload(spec.authz.ns, Opa))
  }

  predicate WorkersUp(w: World, spec: Spec)
  {
    spec.trino.EmbeddedTrino? && spec.trino.workers > 0 ==> Up(w, Workload(spec.trino.ns, TrinoWorker))
  }

  /** Every workload that this spec makes the operator deploy is up. */
  predicate EverythingUp(w: World, spec: Spec)
  {
    PlatformUp(w, spec) && OpaUp(w, spec) && WorkersUp(w, spec)
  }

  /** After a pass without error Ready says that everything was up, exactly unless only OPA
      or the workers were down. */
  lemma ReadyCoversExact(w: World, spec: Spec, p: Pass)
    requires RunPass(w, spec, p).Ok?
    ensures (ConditionTrue(RunPass(w, spec, p).w, Ready) <==> EverythingUp(w, spec)) <==>
              !(PlatformUp(w, spec) && !(OpaUp(w, spec) && WorkersUp(w, spec)))
  {
    PassConditions(w, spec, p);
  }

  // --- Inputs ---

  /** A spec in which everything is embedded and two namespaces are one. */
  const CLASHING := Spec(true, "lakekeeper", EmbeddedPostgres("lakekeeper"), EmbeddedMinio("minio"),
                         EmbeddedKeycloak("auth"), EmbeddedOpenFga("auth", "rowfilters", false, false),
                           EmbeddedTrino("trino", true, 2),
                         true)

  lemma ClashingSpec()
    ensures AllEmbedded(CLASHING) && Clash(CLASHING) && DeploysOpa(CLASHING) && CLASHING.trino.workers > 0
  {
  }

  /** The workloads that Ready waits for. */
  function Awaited(spec: Spec): set<Workload>
    requires AllEmbedded(spec)
  {
    {Workload(spec.ns, Postgres), Workload(spec.ns, Lakekeeper), Workload(spec.storage.ns, Minio)}
    + (if spec.auth.EmbeddedKeycloak? then {Workload(spec.auth.ns, Keycloak)} else {})
    + (if spec.authz.EmbeddedOpenFga? then {Workload(spec.authz.ns, Postgres), Workload(spec.authz.ns, OpenFga)}
       else {})
    + (if spec.trino.EmbeddedTrino? then {Workload(spec.trino.ns, Trino)} else {})
  }

  /** Just those are up, and the bucket is made. */
  function OnlyAwaited(spec: Spec): World
    requires AllEmbedded(spec)
  {
    var workloads := map wl | wl in Awaited(spec) :: true;
    EMPTY.(objects := Objects({}, map[], workloads, map[spec.storage.ns := NEW_JOB.(succeededPods := 1)], {}))
  }

  lemma OnlyAwaitedUp(spec: Spec)
    requires AllEmbedded(spec)
    ensures PlatformUp(OnlyAwaited(spec), spec) && Configured(OnlyAwaited(spec), spec)
    ensures forall ns :: !Up(OnlyAwaited(spec), Workload(ns, Opa)) && !Up(OnlyAwaited(spec), Workload(ns, TrinoWorker))
  {
  }

  /** Ready with OPA down, or with every worker down: for every embedded spec that deploys
      them there is a cluster in which an answered pass reports it. */
  lemma ReadyOverlooks(spec: Spec, p: Pass)
    requires AllEmbedded(spec) && Answered(p)
    ensures var w := OnlyAwaited(spec);
            && ConditionTrue(RunPass(w, spec, p).w, Ready)
            && (DeploysOpa(spec) ==> !OpaUp(w, spec))
            && (spec.trino.EmbeddedTrino? && spec.trino.workers > 0 ==> !WorkersUp(w, spec))
  {
    var w := OnlyAwaited(spec);
    OnlyAwaitedUp(spec);
    PassAnswered(spec, w, p);
    PassConditions(w, spec, p);
  }

  /** The same with OpenFGA's database down, and Trino asking OPA. */
  function DatabaseDown(spec: Spec): World
    requires AllEmbedded(spec) && DeploysOpa(spec)
  {
    var w, db := OnlyAwaited(spec), Workload(spec.authz.ns, Postgres);
    WithSecret(w.(objects := w.objects.(workloads := w.objects.workloads[db := false])),
               SecretKey(spec.trino.ns, SecretTrinoConfig), map[AccessControl := Built(AccessControl, [])])
  }

  lemma DownConfigured(spec: Spec)
    requires AllEmbedded(spec) && DeploysOpa(spec)
    ensures var w := DatabaseDown(spec);
            && Configured(w, spec) && !DatabaseUp(w, spec)
            && Up(w, Workload(spec.trino.ns, Trino)) && NamesOpa(w, spec.trino.ns)
  {
    assert Workload(spec.trino.ns, Trino) in Awaited(spec);
  }

  /** A running Trino loses its access control: for every embedded spec that deploys OPA there
      is a cluster with Trino up and asking OPA in which an answered pass succeeds and
      configures Trino without it. */
  lemma AccessControlDropped(spec: Spec, p: Pass)
    requires AllEmbedded(spec) && DeploysOpa(spec) && Answered(p)
    ensures var w := DatabaseDown(spec);
            && Up(w, Workload(spec.trino.ns, Trino)) && NamesOpa(w, spec.trino.ns)
            && RunPass(w, spec, p).Ok? && !NamesOpa(RunPass(w, spec, p).w, spec.trino.ns)
  {
    DownConfigured(spec);
    EmbeddedApart(spec);
    DownUnenforced(spec, DatabaseDown(spec), p);
  }

  /** Ready without AuthReady: from the empty cluster, with LakeKeeper and Trino disabled and
      auth enabled. */
  lemma AuthReadyUntouched(spec: Spec, p: Pass)
    requires !spec.lakekeeper && !spec.auth.NoAuth? && spec.trino.NoTrino? && Answered(p)
    ensures var w' := RunPass(EMPTY, spec, p).w; ConditionTrue(w', Ready) && !AllTrue(w')
  {
    PassAnswered(spec, EMPTY, p);
    PassConditions(EMPTY, spec, p);
  }

  // --- The clash over the client secret ---

  /** In one namespace, from the empty cluster. */
  lemma ClashFails(spec: Spec, p: Pass, q: Pass)
    requires AllEmbedded(spec) && Clash(spec) && Answered(p)
    ensures RunPass(EMPTY, spec, p).Ok? && RunPass(RunPass(EMPTY, spec, p).w, spec, q).Err?
  {
    EmptyConfigured(spec);
    ClashFailsFrom(spec, EMPTY, p, q);
  }

  /** An external provider whose secret the user has called like OPA's, in its namespace. */
  function ExternalClash(issuer: string, entry: Field): Spec
  {
    CLASHING.(auth := ExternalOidc(issuer, "lakekeeper",
                                   Some(OidcRef("auth", SecretOidc, UserField(""), entry, UserField(""),
                                                UserField("")))))
  }

  /** The user's secret is lost in the first pass. */
  lemma UserSecretLost(issuer: string, entry: Field, secret: Value, p: Pass, q: Pass)
    requires issuer != "" && !OpasOwn(entry) && Answered(p)
    ensures var spec, w := ExternalClash(issuer, entry),
              WithSecret(EMPTY, SecretKey("auth", SecretOidc), map[entry := secret]);
            RunPass(w, spec, p).Ok? && RunPass(RunPass(w, spec, p).w, spec, q).Err?
  {
    var spec, w := ExternalClash(issuer, entry), WithSecret(EMPTY, SecretKey("auth", SecretOidc), map[entry := secret]);
    assert Configured(w, spec);
    ClashFailsFrom(spec, w, p, q);
  }

  function WithOidc(spec: Spec, data: SecretData): World
    requires spec.auth.EmbeddedKeycloak?
  {
    WithSecret(EMPTY, SecretKey(spec.auth.ns, SecretOidc), data)
  }

  lemma OidcConfigured(spec: Spec, data: SecretData)
    requires AllEmbedded(spec) && spec.auth.EmbeddedKeycloak? && FieldsOf(SecretOidc) <= data.Keys
    ensures Configured(WithOidc(spec, data), spec)
  {
  }

  /** In one namespace: whatever complete client secret Keycloak has, the first answered pass
      succeeds and destroys it. */
  lemma ClashDestroys(spec: Spec, data: SecretData, p: Pass)
    requires AllEmbedded(spec) && Clash(spec) && Answered(p) && FieldsOf(SecretOidc) <= data.Keys
    ensures var w, k := WithOidc(spec, data), SecretKey(spec.auth.ns, SecretOidc);
            RunPass(w, spec, p).Ok? && !Kept(w, RunPass(w, spec, p).w, k)
  {
    OidcConfigured(spec, data);
    assert TrinoClientSecret in FieldsOf(SecretOidc);
    DestroysAt(spec, WithOidc(spec, data), p);
  }

  lemma DestroysAt(spec: Spec, w: World, p: Pass)
    requires AllEmbedded(spec) && Clash(spec) && Answered(p) && Configured(w, spec)
    requires Has(w, SecretKey(spec.auth.ns, SecretOidc), TrinoClientSecret)
    ensures RunPass(w, spec, p).Ok? && !Kept(w, RunPass(w, spec, p).w, SecretKey(spec.auth.ns, SecretOidc))
  {
    EmbeddedApart(spec);
    PassAnswered(spec, w, p);
    OidcKeptIff(spec, w, p);
  }
}
