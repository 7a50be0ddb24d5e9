/** Which calls a pass makes to the catalog: all of them in a pass that finds the stack up, and
    never another one, or one twice. */
module CatalogCalls {
  import opened Cluster
  import opened Reconcile
  import opened Frames
  import opened ReadyTheorems

  predicate CatalogEvent(e: Event) 
  {
    e.TokenObtained? || e.Bootstrapped? || e.GrantsEnsured? || e.WarehouseEnsured?
  }

  /** The catalog's part of a log. */
  function CatalogLog(log: seq<Event>): seq<Event>
  {
    if log == [] then []
    else
      var n := |log| - 1;
      CatalogLog(log[..n]) + if CatalogEvent(log[n]) then [log[n]] else []
  }

  /** Everything that fills the catalog: a token only with auth, grants only for principals that
      the operator knows. */
  function Filling(spec: Spec): seq<Event>
  {
    (if spec.auth.NoAuth? then [] else [TokenObtained]) + Calls(spec)
  }

  function Calls(spec: Spec): seq<Event>
  {
    [Bootstrapped] + (if spec.auth.EmbeddedKeycloak? then [GrantsEnsured] else []) + [WarehouseEnsured]
  }

  ghost predicate Quiet(w: World, w': World)
  {
    CatalogLog(w'.log) == CatalogLog(w.log)
  }

  lemma LogSnoc(w: World, e: Event)
    ensures CatalogLog(Log(w, e).log) == CatalogLog(w.log) + if CatalogEvent(e) then [e] else []
  {
    assert (w.log + [e])[..|w.log|] == w.log;
  }

  // --- Everything but the warehouse step is quiet ---

  lemma ApplyQuiet(w: World, p: Pass, wl: Workload)
    ensures Quiet(w, Act(w, p, Apply(wl)).w)
  {
    LogSnoc(w, Applied(wl));
    var log := Act(w, p, Apply(wl)).w.log;
    assert log == w.log || log == w.log + [Applied(wl)];
  }

  lemma ActQuiet(w: World, p: Pass, a: Action)
    ensures Quiet(w, Act(w, p, a).w)
  {
    if a.Apply? {
      ApplyQuiet(w, p, a.workload);
    } else {
      ActUntouched(w, p, a);
    }
  }

  lemma {:induction false} ActsQuiet(w: World, p: Pass, actions: seq<Action>)
    ensures Quiet(w, Acts(w, p, actions).w)
  {
    if actions != [] {
      var n := |actions| - 1;
      ActsQuiet(w, p, actions[..n]);
      var r := Acts(w, p, actions[..n]);
      if r.Ok? { ActQuiet(r.w, p, actions[n]); }
    }
  }

  lemma ReadyQuiet(w: World, p: Pass, wl: Workload)
    ensures Quiet(w, WorkloadReady(w, p, wl).w)
  {
    LogSnoc(w, Saw(wl, wl in w.objects.workloads && w.objects.workloads[wl]));
  }

  /** Calls, then a look at a workload. */
  lemma StepQuiet(w: World, p: Pass, actions: seq<Action>, wl: Workload)
    ensures Quiet(w, Acts(w, p, actions).w)
    ensures Acts(w, p, actions).Ok? ==> Quiet(w, WorkloadReady(Acts(w, p, actions).w, p, wl).w)
  {
    ActsQuiet(w, p, actions);
    if Acts(w, p, actions).Ok? { ReadyQuiet(Acts(w, p, actions).w, p, wl); }
  }

  lemma PostgresQuiet(w: World, spec: Spec, p: Pass)
    ensures Quiet(w, ReconcilePostgres(w, spec, p).w)
  {
    match spec.postgres
    case EmbeddedPostgres(db) => StepQuiet(w, p, PostgresActions(spec.ns, db), Workload(spec.ns, Postgres));
    case ExternalPostgres(_, credentials) =>
      if credentials.Some? {
        var ref := credentials.value;
        ActsQuiet(w, p, CredentialActions(SecretKey(if ref.ns == "" then spec.ns else ref.ns, ref.name), ref));
      }
  }

  lemma BucketQuiet(w: World, ns: string, store: Store, p: Pass)
    ensures Quiet(w, EnsureMinioBucket(w, ns, store, p).w)
  {
    LogSnoc(w, SawBucket);
  }

  lemma ObjectStoreQuiet(w: World, spec: Spec, p: Pass)
    ensures Quiet(w, ReconcileObjectStore(w, spec, p).w)
  {
    match spec.storage
    case EmbeddedMinio(ns) =>
      StepQuiet(w, p, MinioActions(ns), Workload(ns, Minio));
      var r1 := Acts(w, p, MinioActions(ns));
      if r1.Ok? {
        var r2 := WorkloadReady(r1.w, p, Workload(ns, Minio));
        if r2.Ok? { BucketQuiet(r2.w, ns, StoreOf(r1.value, false), p); }
      }
    case ExternalS3(s3) =>
      if s3.Some? && s3.value.credentials.Some? {
        var ref := s3.value.credentials.value;
        ActsQuiet(w, p, CredentialActions(SecretKey(ref.ns, ref.name), ref));
      }
  }

  lemma StorageQuiet(w: World, spec: Spec, p: Pass)
    ensures Quiet(w, ReconcileStorage(w, spec, p).w)
  {
    var r1 := Act(w, p, EnsureNamespace(spec.ns));
    ActQuiet(w, p, EnsureNamespace(spec.ns));
    if r1.Ok? {
      PostgresQuiet(r1.w, spec, p);
      var r2 := ReconcilePostgres(r1.w, spec, p);
      if r2.Ok? { ObjectStoreQuiet(r2.w, spec, p); }
    }
  }

  lemma AuthQuiet(w: World, spec: Spec, p: Pass)
    ensures Quiet(w, ReconcileAuth(w, spec, p).w)
  {
    match spec.auth
    case NoAuth =>
    case EmbeddedKeycloak(ns) => StepQuiet(w, p, KeycloakActions(ns), Workload(ns, Keycloak));
    case ExternalOidc(_, _, credentials) =>
      if credentials.Some? { ActsQuiet(w, p, OidcActions(credentials.value)); }
  }

  lemma AccessStoreQuiet(w: World, ns: string, needsStore: bool, catalogClient: bool, p: Pass)
    ensures Quiet(w, ReconcileAccessStore(w, ns, needsStore, catalogClient, p).w)
  {
    LogSnoc(w, StoreRequested(ns));
  }

  lemma RunOpenFgaQuiet(w: World, ns: string, needsStore: bool, catalogClient: bool, p: Pass)
    ensures Quiet(w, RunOpenFga(w, ns, needsStore, catalogClient, p).w)
  {
    StepQuiet(w, p, RunOpenFgaActions(ns), Workload(ns, OpenFga));
    var r1 := Acts(w, p, RunOpenFgaActions(ns));
    if r1.Ok? {
      var r2 := WorkloadReady(r1.w, p, Workload(ns, OpenFga));
      AccessStoreQuiet(r2.w, ns, needsStore, catalogClient, p);
    }
  }

  lemma AuthzQuiet(w: World, spec: Spec, p: Pass)
    ensures Quiet(w, ReconcileAuthz(w, spec, p).w)
  {
    if spec.authz.EmbeddedOpenFga? {
      var ns := spec.authz.ns;
      StepQuiet(w, p, OpenFgaActions(ns), Workload(ns, Postgres));
      var r1 := Acts(w, p, OpenFgaActions(ns));
      if r1.Ok? {
        var r2 := WorkloadReady(r1.w, p, Workload(ns, Postgres));
        if r2.Ok? { RunOpenFgaQuiet(r2.w, ns, NeedsStore(spec), spec.catalogClient, p); }
      }
    }
  }

  lemma LakekeeperQuiet(w: World, spec: Spec, authReady: bool, fgaReady: bool, p: Pass)
    ensures Quiet(w, RunLakekeeper(w, spec, authReady, fgaReady, p).w)
  {
    StepQuiet(w, p, LakekeeperActions(spec.ns), Workload(spec.ns, Lakekeeper));
  }

  lemma OpaQuiet(w: World, spec: Spec, oidc: Oidc, fga: Fga, p: Pass)
    ensures Quiet(w, ReconcileOpa(w, spec, oidc, fga, p).w)
  {
    if !(fga.NoFga? || oidc.NoOidc? || !spec.authz.EmbeddedOpenFga?) {
      StepQuiet(w, p, OpaActions(spec.authz.ns, oidc), Workload(spec.authz.ns, Opa));
    }
  }

  lemma WorkersQuiet(w: World, ns: string, workers: nat, p: Pass)
    ensures Quiet(w, ReconcileTrinoWorkers(w, ns, workers, p).w)
  {
    LogSnoc(w, Applied(Workload(ns, TrinoWorker)));
  }

  lemma TrinoQuiet(w: World, ns: string, hasPublicUrl: bool, workers: nat, store: Store, oidc: Oidc, opa: OpaUse,
                   p: Pass)
    ensures Quiet(w, ReconcileTrino(w, ns, hasPublicUrl, workers, store, oidc, opa, p).w)
  {
    var acts := SharedSecretActions(ns, oidc.Oidc? && hasPublicUrl);
    var r1 := Acts(w, p, acts);
    ActsQuiet(w, p, acts);
    if r1.Ok? {
      ActsQuiet(r1.w, p, TrinoActions(ns, store, oidc, opa, r1.value));
      var r2 := Acts(r1.w, p, TrinoActions(ns, store, oidc, opa, r1.value));
      if r2.Ok? {
        WorkersQuiet(r2.w, ns, workers, p);
        ReadyQuiet(ReconcileTrinoWorkers(r2.w, ns, workers, p).w, p, Workload(ns, Trino));
      }
    }
  }

  lemma TrinoStackQuiet(w: World, spec: Spec, stack: Stack, p: Pass)
    ensures Quiet(w, ReconcileTrinoStack(w, spec, stack, p).w)
  {
    if spec.trino.EmbeddedTrino? {
      var t, opa := spec.trino, OpaUseOf(spec.authz, stack.oidc, stack.fga);
      var r1 := Act(w, p, EnsureNamespace(t.ns));
      ActQuiet(w, p, EnsureNamespace(t.ns));
      if r1.Ok? {
        OpaQuiet(r1.w, spec, stack.oidc, stack.fga, p);
        var r2 := ReconcileOpa(r1.w, spec, stack.oidc, stack.fga, p);
        if r2.Ok? { TrinoQuiet(r2.w, t.ns, t.hasPublicUrl, t.workers, stack.store, stack.oidc, opa, p); }
      }
    }
  }

  // --- The warehouse step ---

  /** The principals are the operator's own exactly when it runs the identity provider. */
  ghost predicate Known(spec: Spec, oidc: Oidc)
  {
    (oidc.Oidc? <==> !spec.auth.NoAuth?) && (oidc.Oidc? && oidc.managed <==> spec.auth.EmbeddedKeycloak?)
  }

  /** What a step has added: on success all calls, else a front part of them. */
  ghost predicate Adds(before: World, after: World, ok: bool, calls: seq<Event>)
  {
    exists done: seq<Event> ::
      done <= calls && (ok ==> done == calls) && CatalogLog(after.log) == CatalogLog(before.log) + done
  }

  lemma CallAdds(w: World, p: Pass, e: Event)
    requires CatalogEvent(e)
    ensures Adds(w, CatalogCall(w, p, e).w, CatalogCall(w, p, e).Ok?, [e])
  {
    LogSnoc(w, e);
    var done := if p.outcome(w.calls).Lost? then [] else [e];
    assert CatalogLog(CatalogCall(w, p, e).w.log) == CatalogLog(w.log) + done;
    assert done <= [e];
  }

  /** An error keeps what was added before it. */
  lemma FrontAdds(before: World, after: World, front: seq<Event>, all: seq<Event>)
    requires Adds(before, after, false, front) && front <= all
    ensures Adds(before, after, false, all)
  {
    var done: seq<Event> :| done <= front && CatalogLog(after.log) == CatalogLog(before.log) + done;
    assert done <= all;
  }

  lemma TwoAdd(w: World, w1: World, w2: World, ok: bool, first: seq<Event>, second: seq<Event>, all: seq<Event>)
    requires Adds(w, w1, true, first) && Adds(w1, w2, ok, second) && all == first + second
    ensures Adds(w, w2, ok, all)
  {
    var done: seq<Event> :| done <= second && (ok ==> done == second)
      && CatalogLog(w2.log) == CatalogLog(w1.log) + done;
    assert first + done <= all;
    assert CatalogLog(w2.log) == CatalogLog(w.log) + (first + done);
  }

  lemma FillAdds(w: World, oidc: Oidc, p: Pass, spec: Spec)
    requires Known(spec, oidc)
    ensures Adds(w, FillCatalog(w, oidc, p).w, FillCatalog(w, oidc, p).Ok?, Calls(spec)[1..])
  {
    var rest := Calls(spec)[1..];
    if spec.auth.EmbeddedKeycloak? {
      assert rest == [GrantsEnsured] + [WarehouseEnsured];
      CallAdds(w, p, GrantsEnsured);
      var r1 := CatalogCall(w, p, GrantsEnsured);
      if r1.Ok? {
        CallAdds(r1.w, p, WarehouseEnsured);
        var r2 := CatalogCall(r1.w, p, WarehouseEnsured);
        TwoAdd(w, r1.w, r2.w, r2.Ok?, [GrantsEnsured], [WarehouseEnsured], rest);
      } else {
        FrontAdds(w, r1.w, [GrantsEnsured], rest);
      }
    } else {
      assert rest == [WarehouseEnsured];
      CallAdds(w, p, WarehouseEnsured);
    }
  }

  lemma CallsAdd(w: World, spec: Spec, oidc: Oidc, p: Pass)
    requires Known(spec, oidc)
    ensures var r := CatalogCall(w, p, Bootstrapped);
            && (r.Err? ==> Adds(w, r.w, false, Calls(spec)))
            && (r.Ok? ==> var r' := FillCatalog(r.w, oidc, p); Adds(w, r'.w, r'.Ok?, Calls(spec)))
  {
    var all := Calls(spec);
    assert all == [Bootstrapped] + all[1..];
    CallAdds(w, p, Bootstrapped);
    var r := CatalogCall(w, p, Bootstrapped);
    if r.Ok? {
      FillAdds(r.w, oidc, p, spec);
      var r' := FillCatalog(r.w, oidc, p);
      TwoAdd(w, r.w, r'.w, r'.Ok?, [Bootstrapped], all[1..], all);
    } else {
      FrontAdds(w, r.w, [Bootstrapped], all);
    }
  }

  /** The token comes first, if there is one. */
  lemma TokenAdds(w: World, spec: Spec, oidc: Oidc, p: Pass)
    requires Known(spec, oidc)
    ensures var r := if oidc.NoOidc? then Ok(w, ()) else ObtainToken(w, p);
            var token := if spec.auth.NoAuth? then [] else [TokenObtained];
            if r.Ok? then Adds(w, r.w, true, token) else Adds(w, r.w, false, Filling(spec))
  {
    LogSnoc(w, TokenObtained);
    assert CatalogLog(w.log) == CatalogLog(w.log) + [] && [] <= Filling(spec);
  }

  lemma BodyAdds(w: World, spec: Spec, oidc: Oidc, p: Pass)
    requires Known(spec, oidc)
    ensures Adds(w, WarehouseBody(w, oidc, p).w, WarehouseBody(w, oidc, p).Ok?, Filling(spec))
  {
    TokenAdds(w, spec, oidc, p);
    var r1 := if oidc.NoOidc? then Ok(w, ()) else ObtainToken(w, p);
    if r1.Ok? {
      CallsAdd(r1.w, spec, oidc, p);
      var r := WarehouseBody(w, oidc, p);
      var token := if spec.auth.NoAuth? then [] else [TokenObtained];
      TwoAdd(w, r1.w, r.w, r.Ok?, token, Calls(spec), Filling(spec));
    }
  }

  /** Token, bootstrap, grants where they apply, warehouse: a success makes them all, in order. */
  lemma WarehouseAdds(w: World, spec: Spec, oidc: Oidc, p: Pass)
    requires Known(spec, oidc)
    ensures var r := ReconcileWarehouse(w, spec, oidc, p);
            Adds(w, r.w, r.Ok?, if spec.catalogClient then Filling(spec) else [])
  {
    if spec.catalogClient {
      BodyAdds(w, spec, oidc, p);
    } else {
      assert CatalogLog(w.log) == CatalogLog(w.log) + [];
    }
  }

  // --- The pass ---

  lemma AuthKnown(w: World, spec: Spec, p: Pass)
    requires ReconcileAuth(w, spec, p).Ok?
    ensures Known(spec, ReconcileAuth(w, spec, p).value.0)
  {
  }

  /** Whether a pass without error fills the catalog. */
  predicate Fills(w: World, spec: Spec)
  {
    spec.lakekeeper && StackUp(w, spec) && spec.catalogClient
  }

  lemma FinishAdds(w: World, spec: Spec, store: (Store, bool), auth: (Oidc, bool), fga: (Fga, bool), p: Pass)
    requires Known(spec, auth.0) && CatalogLog(w.log) == []
    ensures var r := FinishStack(w, spec, store, auth, fga, p);
            var up := ConditionTrue(w, PostgresReady) && ConditionTrue(w, LakekeeperReady) && auth.1 && fga.1
              && store.1;
            && CatalogLog(r.w.log) <= Filling(spec)
            && (r.Ok? ==> CatalogLog(r.w.log) == if up && spec.catalogClient then Filling(spec) else [])
  {
    WarehouseAdds(w, spec, auth.0, p);
  }

  lemma StackFills(w: World, spec: Spec, p: Pass)
    requires CatalogLog(w.log) == []
    ensures var r := ReconcileLakekeeperStack(w, spec, p);
            && CatalogLog(r.w.log) <= Filling(spec)
            && (r.Ok? ==> CatalogLog(r.w.log) == if Fills(w, spec) then Filling(spec) else [])
  {
    if spec.lakekeeper {
      var r1 := ReconcileStorage(w, spec, p);
      StorageQuiet(w, spec, p);
      if r1.Ok? {
        var r2 := ReconcileAuth(r1.w, spec, p);
        AuthQuiet(r1.w, spec, p);
        if r2.Ok? {
          AuthKnown(r1.w, spec, p);
          var r3 := ReconcileAuthz(r2.w, spec, p);
          AuthzQuiet(r2.w, spec, p);
          if r3.Ok? {
            var r4 := RunLakekeeper(r3.w, spec, r2.value.1, r3.value.1, p);
            LakekeeperQuiet(r3.w, spec, r2.value.1, r3.value.1, p);
            if r4.Ok? {
              FinishAdds(r4.w, spec, r1.value, r2.value, r3.value, p);
              PrefixUp(w, spec, p, r1, r2, r3, r4);
            }
          }
        }
      }
    }
  }

  /** What the steps before the warehouse have found, in terms of the first cluster. */
  lemma PrefixUp(w: World, spec: Spec, p: Pass, r1: Res<(Store, bool)>, r2: Res<(Oidc, bool)>, r3: Res<(Fga, bool)>,
                 r4: Res<()>)
    requires r1 == ReconcileStorage(w, spec, p) && r1.Ok? && r2 == ReconcileAuth(r1.w, spec, p) && r2.Ok?
    requires r3 == ReconcileAuthz(r2.w, spec, p) && r3.Ok?
    requires r4 == RunLakekeeper(r3.w, spec, r2.value.1, r3.value.1, p) && r4.Ok?
    ensures StackUp(w, spec) <==> ConditionTrue(r4.w, PostgresReady) && ConditionTrue(r4.w, LakekeeperReady)
                                    && r2.value.1 && r3.value.1 && r1.value.1
  {
    StorageResult(w, spec, p);
    AuthResult(r1.w, spec, p);
    AuthzResult(r2.w, spec, p);
    RunLakekeeperResult(r3.w, spec, r2.value.1, r3.value.1, p);
    PrefixTells(spec, w, r1.w, r2.w, r3.w, r4.w, r1.value.1, r2.value.1, r3.value.1);
  }

  /** Every pass, failing or not, makes a front part of bootstrap, grants and warehouse, each at
      most once; a pass without error makes them all when it finds the stack up and has a
      catalog client, and none otherwise. */
  lemma PassFills(w: World, spec: Spec, p: Pass)
    ensures var r := RunPass(w, spec, p);
            && CatalogLog(r.w.log) <= Filling(spec)
            && (r.Ok? ==> CatalogLog(r.w.log) == if Fills(w, spec) then Filling(spec) else [])
  {
    var s := Start(w);
    StackFills(s, spec, p);
    assert Fills(s, spec) == Fills(w, spec) by { StartSame(w, spec); }
    var r := ReconcileLakekeeperStack(s, spec, p);
    if r.Ok? { TrinoStackQuiet(r.w, spec, r.value, p); }
  }

  lemma {:induction false} CatalogLogHolds(log: seq<Event>, e: Event)
    requires CatalogEvent(e)
    ensures e in CatalogLog(log) <==> e in log
  {
    if log != [] {
      CatalogLogHolds(log[..|log| - 1], e);
    }
  }

  /** Ready with LakeKeeper means that this very pass has bootstrapped the catalog, granted the
      operator's own principals their rights, if there are any, and ensured the warehouse. */
  lemma ReadyMeansFilled(w: World, spec: Spec, p: Pass)
    requires spec.lakekeeper && ConditionTrue(RunPass(w, spec, p).w, Ready)
    ensures var log := RunPass(w, spec, p).w.log;
            && CatalogLog(log) == Filling(spec) && Bootstrapped in log && WarehouseEnsured in log
            && (TokenObtained in log <==> !spec.auth.NoAuth?) && (GrantsEnsured in log <==> spec.auth.EmbeddedKeycloak?)
  {
    ReadyMeansUp(w, spec, p);
    PassFills(w, spec, p);
    var log := RunPass(w, spec, p).w.log;
    FillingHolds(spec);
    CatalogLogHolds(log, TokenObtained);
    CatalogLogHolds(log, Bootstrapped);
    CatalogLogHolds(log, GrantsEnsured);
    CatalogLogHolds(log, WarehouseEnsured);
  }

  lemma FillingHolds(spec: Spec)
    ensures var calls := Filling(spec);
            && Bootstrapped in calls && WarehouseEnsured in calls
            && (TokenObtained in calls <==> !spec.auth.NoAuth?)
              && (GrantsEnsured in calls <==> spec.auth.EmbeddedKeycloak?)
  {
    var calls := Calls(spec);
    assert calls[0] == Bootstrapped && calls[|calls| - 1] == WarehouseEnsured;
    if spec.auth.EmbeddedKeycloak? { assert calls[1] == GrantsEnsured; }
    if !spec.auth.NoAuth? { assert Filling(spec)[0] == TokenObtained; }
    assert forall e :: e in Filling(spec) <==> e in calls || (!spec.auth.NoAuth? && e == TokenObtained);
  }
}
