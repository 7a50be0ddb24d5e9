/** When Trino asks OPA: what the configuration that a pass renders says about access control. */
module Enforcement {
  import opened Cluster
  import opened Reconcile
  import opened Frames
  import opened ReadyTheorems
  import opened SecretTheorems
  import opened Credentials
  import opened Success

  /** The access control file of Trino's configuration, if there is one, is the given one. */
  ghost predicate Says(w: World, ns: string, opa: OpaUse)
  {
    var k := SecretKey(ns, SecretTrinoConfig);
    && k in w.objects.secrets && (AccessControl in w.objects.secrets[k] <==> opa.UseOpa?)
    && (opa.UseOpa? ==> w.objects.secrets[k][AccessControl] == Built(AccessControl, OpaParts(opa)))
  }

  /** Trino's configuration names OPA. */
  predicate NamesOpa(w: World, ns: string)
  {
    var k := SecretKey(ns, SecretTrinoConfig);
    k in w.objects.secrets && AccessControl in w.objects.secrets[k]
  }

  /** The file gives an address for row filters or for column masks. */
  predicate AsksFor(w: World, ns: string, uri: Field)
    requires NamesOpa(w, ns)
  {
    var file := w.objects.secrets[SecretKey(ns, SecretTrinoConfig)][AccessControl];
    file.Built? && Built(uri, []) in file.parts
  }

  lemma ConfigWritten(w: World, ns: string, store: Store, oidc: Oidc, opa: OpaUse, shared: seq<Value>, p: Pass)
    requires Acts(w, p, TrinoActions(ns, store, oidc, opa, shared)).Ok?
    ensures Says(Acts(w, p, TrinoActions(ns, store, oidc, opa, shared)).w, ns, opa)
  {
    var list := TrinoActions(ns, store, oidc, opa, shared);
    ActsWrite(w, p, list, SecretKey(ns, SecretTrinoConfig), list[1].data);
  }

  lemma TrinoConfigures(w: World, ns: string, hasPublicUrl: bool, workers: nat, store: Store, oidc: Oidc, opa: OpaUse,
                        p: Pass)
    requires ReconcileTrino(w, ns, hasPublicUrl, workers, store, oidc, opa, p).Ok?
    ensures Says(ReconcileTrino(w, ns, hasPublicUrl, workers, store, oidc, opa, p).w, ns, opa)
  {
    var r1 := Acts(w, p, SharedSecretActions(ns, oidc.Oidc? && hasPublicUrl));
    ConfigWritten(r1.w, ns, store, oidc, opa, r1.value, p);
    WorkersKeepSecrets(Acts(r1.w, p, TrinoActions(ns, store, oidc, opa, r1.value)).w, ns, workers, p);
  }

  lemma TrinoStackConfigures(spec: Spec, w: World, stack: Stack, p: Pass)
    requires spec.trino.EmbeddedTrino? && ReconcileTrinoStack(w, spec, stack, p).Ok?
    ensures Says(ReconcileTrinoStack(w, spec, stack, p).w, spec.trino.ns, OpaUseOf(spec.authz, stack.oidc, stack.fga))
  {
    var t, opa := spec.trino, OpaUseOf(spec.authz, stack.oidc, stack.fga);
    var w1 := Act(w, p, EnsureNamespace(t.ns)).w;
    var w2 := ReconcileOpa(w1, spec, stack.oidc, stack.fga, p).w;
    TrinoConfigures(w2, t.ns, t.hasPublicUrl, t.workers, stack.store, stack.oidc, opa, p);
  }

  /** OpenFGA's database, without which OPA's address is not handed on. */
  predicate DatabaseUp(w: World, spec: Spec)
  {
    spec.authz.EmbeddedOpenFga? && Up(w, Workload(spec.authz.ns, Postgres))
  }

  lemma AuthzAddress(spec: Spec, w: World, p: Pass)
    requires ReconcileAuthz(w, spec, p).Ok?
    ensures ReconcileAuthz(w, spec, p).value.0.Fga? <==> DatabaseUp(w, spec)
  {
    if spec.authz.EmbeddedOpenFga? {
      ReadyAfter(w, p, OpenFgaActions(spec.authz.ns), Workload(spec.authz.ns, Postgres));
    }
  }

  lemma StackAddress(spec: Spec, w: World, p: Pass)
    requires spec.lakekeeper && ReconcileLakekeeperStack(w, spec, p).Ok?
    ensures var s := ReconcileLakekeeperStack(w, spec, p).value;
            (s.fga.Fga? <==> DatabaseUp(w, spec)) && (s.oidc.Oidc? <==> !spec.auth.NoAuth?)
  {
    var r1 := ReconcileStorage(w, spec, p);
    StorageResult(w, spec, p);
    var r2 := ReconcileAuth(r1.w, spec, p);
    AuthResult(r1.w, spec, p);
    if !spec.auth.NoAuth? { AuthClient(spec, r1.w, p); }
    var r3 := ReconcileAuthz(r2.w, spec, p);
    AuthzAddress(spec, r2.w, p);
    GrownTransitive(w, r1.w, r2.w);
    var r4 := RunLakekeeper(r3.w, spec, r2.value.1, r3.value.1, p);
    FinishHandsOn(spec, r4.w, r1.value, r2.value, r3.value, p);
  }

  function Expected(spec: Spec, databaseUp: bool): OpaUse
  {
    if DeploysOpa(spec) && databaseUp then UseOpa(spec.authz.rowFilters, spec.authz.columnAccess) else NoOpa
  }

  lemma PassConfigures(spec: Spec, w: World, p: Pass)
    requires spec.trino.EmbeddedTrino? && RunPass(w, spec, p).Ok?
    ensures Says(RunPass(w, spec, p).w, spec.trino.ns, Expected(spec, DatabaseUp(w, spec)))
  {
    var s := Start(w);
    var r := ReconcileLakekeeperStack(s, spec, p);
    if spec.lakekeeper { StackAddress(spec, s, p); }
    assert OpaUseOf(spec.authz, r.value.oidc, r.value.fga) == Expected(spec, DatabaseUp(w, spec));
    TrinoStackConfigures(spec, r.w, r.value, p);
    assert RunPass(w, spec, p).w.objects == ReconcileTrinoStack(r.w, spec, r.value, p).w.objects;
  }

  /** After every pass without error Trino's configuration names OPA exactly when the spec
      deploys OPA and OpenFGA's database was up, and it then asks for row filters and column
      masks exactly when the spec has them. */
  lemma EnforcedIff(spec: Spec, w: World, p: Pass)
    requires spec.trino.EmbeddedTrino? && RunPass(w, spec, p).Ok?
    ensures var w', ns := RunPass(w, spec, p).w, spec.trino.ns;
            && (NamesOpa(w', ns) <==> DeploysOpa(spec) && DatabaseUp(w, spec))
            && (NamesOpa(w', ns) ==>
                  && (AsksFor(w', ns, RowFiltersUri) <==> spec.authz.rowFilters)
                  && (AsksFor(w', ns, ColumnMasksUri) <==> spec.authz.columnAccess))
  {
    PassConfigures(spec, w, p);
    SaysAsks(RunPass(w, spec, p).w, spec.trino.ns, Expected(spec, DatabaseUp(w, spec)));
  }

  lemma SaysAsks(w: World, ns: string, opa: OpaUse)
    requires Says(w, ns, opa)
    ensures NamesOpa(w, ns) <==> opa.UseOpa?
    ensures opa.UseOpa? ==>
              (AsksFor(w, ns, RowFiltersUri) <==> opa.rowFilters)
                && (AsksFor(w, ns, ColumnMasksUri) <==> opa.columnMasks)
  {
    if opa.UseOpa? {
      var rows, columns := if opa.rowFilters then [Built(RowFiltersUri, [])] else [],
        if opa.columnMasks then [Built(ColumnMasksUri, [])] else [];
      assert OpaParts(opa) == rows + columns;
      assert forall v :: v in rows + columns <==> v in rows || v in columns;
    }
  }

  /** A platform that is Ready enforces the policies. */
  lemma ReadyEnforces(spec: Spec, w: World, p: Pass)
    requires DeploysOpa(spec) && ConditionTrue(RunPass(w, spec, p).w, Ready)
    ensures NamesOpa(RunPass(w, spec, p).w, spec.trino.ns)
  {
    ReadyMeansUp(w, spec, p);
    EnforcedIff(spec, w, p);
  }

  /** With OpenFGA's database down an answered pass succeeds and takes OPA out of Trino's
      configuration, whatever that said before. */
  lemma DownUnenforced(spec: Spec, w: World, p: Pass)
    requires spec.trino.EmbeddedTrino? && Answered(p) && Configured(w, spec) && (spec.lakekeeper ==> ClientApart(spec))
    requires !DatabaseUp(w, spec)
    ensures RunPass(w, spec, p).Ok? && !NamesOpa(RunPass(w, spec, p).w, spec.trino.ns)
  {
    PassAnswered(spec, w, p);
    EnforcedIff(spec, w, p);
  }
}
