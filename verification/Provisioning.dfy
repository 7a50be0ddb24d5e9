/** The access store over whole runs: passes that take the store's id from `EnsureAuthzStore`,
    and the OpenFGA server that those requests change. */
module Provisioning {
  import opened Wrappers
  import opened Cluster
  import opened Reconcile
  import opened Frames
  import opened ReadyTheorems
  import opened Ordering
  import opened SecretTheorems
  import opened Success
  import opened AccessSpec
  import opened AuthzModel
  import AuthzStore
  import opened AuthzHistory

  // --- What one pass reports ---

  /** The status names the store that is handed to OPA, and the request was made. */
  ghost predicate Names(spec: Spec, w: World, fga: Fga, p: Pass)
  {
    && fga.Fga? && w.status.rowFilterStoreId == fga.storeId
    && (!NeedsStore(spec) ==> fga.storeId == "")
    && (NeedsStore(spec) ==> p.provisioned == Some(fga.storeId) && StoreRequested(spec.authz.ns) in w.log)
  }

  lemma AuthzNames(spec: Spec, w: World, p: Pass)
    requires spec.authz.EmbeddedOpenFga? && ReconcileAuthz(w, spec, p).Ok? && ReconcileAuthz(w, spec, p).value.1
    ensures Names(spec, ReconcileAuthz(w, spec, p).w, ReconcileAuthz(w, spec, p).value.0, p)
  {
  }

  ghost predicate SameStoreId(w: World, w': World)
  {
    w'.status.rowFilterStoreId == w.status.rowFilterStoreId
  }

  lemma LakekeeperSameId(spec: Spec, w: World, authReady: bool, fgaReady: bool, p: Pass)
    ensures SameStoreId(w, RunLakekeeper(w, spec, authReady, fgaReady, p).w)
  {
    ActsFrame(w, p, LakekeeperActions(spec.ns));
  }

  lemma FinishSameId(spec: Spec, w: World, store: (Store, bool), auth: (Oidc, bool), fga: (Fga, bool), p: Pass)
    ensures SameStoreId(w, FinishStack(w, spec, store, auth, fga, p).w)
  {
  }

  lemma TrinoSameId(w: World, ns: string, hasPublicUrl: bool, workers: nat, store: Store, oidc: Oidc, opa: OpaUse,
                    p: Pass)
    requires ReconcileTrino(w, ns, hasPublicUrl, workers, store, oidc, opa, p).Ok?
    ensures SameStoreId(w, ReconcileTrino(w, ns, hasPublicUrl, workers, store, oidc, opa, p).w)
  {
    var acts := SharedSecretActions(ns, oidc.Oidc? && hasPublicUrl);
    var r1 := Acts(w, p, acts);
    ActsFrame(w, p, acts);
    ActsFrame(r1.w, p, TrinoActions(ns, store, oidc, opa, r1.value));
    WorkersResult(Acts(r1.w, p, TrinoActions(ns, store, oidc, opa, r1.value)).w, ns, workers, p);
  }

  lemma TrinoStackSameId(spec: Spec, w: World, stack: Stack, p: Pass)
    requires ReconcileTrinoStack(w, spec, stack, p).Ok?
    ensures SameStoreId(w, ReconcileTrinoStack(w, spec, stack, p).w)
  {
    if spec.trino.EmbeddedTrino? {
      var t, opa := spec.trino, OpaUseOf(spec.authz, stack.oidc, stack.fga);
      ActFrame(w, p, EnsureNamespace(t.ns));
      var w1 := Act(w, p, EnsureNamespace(t.ns)).w;
      OpaResult(w1, spec, stack.oidc, stack.fga, p);
      var w2 := ReconcileOpa(w1, spec, stack.oidc, stack.fga, p).w;
      TrinoSameId(w2, t.ns, t.hasPublicUrl, t.workers, stack.store, stack.oidc, opa, p);
    }
  }

  lemma StackNames(spec: Spec, w: World, p: Pass)
    requires spec.lakekeeper && spec.authz.EmbeddedOpenFga? && FgaUp(w, spec)
              && ReconcileLakekeeperStack(w, spec, p).Ok?
    ensures var r := ReconcileLakekeeperStack(w, spec, p); Names(spec, r.w, r.value.fga, p)
  {
    var r1 := ReconcileStorage(w, spec, p);
    StorageResult(w, spec, p);
    var r2 := ReconcileAuth(r1.w, spec, p);
    AuthResult(r1.w, spec, p);
    var r3 := ReconcileAuthz(r2.w, spec, p);
    AuthzResult(r2.w, spec, p);
    GrownTransitive(w, r1.w, r2.w);
    AuthzNames(spec, r2.w, p);
    var r4 := RunLakekeeper(r3.w, spec, r2.value.1, r3.value.1, p);
    LakekeeperSameId(spec, r3.w, r2.value.1, r3.value.1, p);
    FinishSameId(spec, r4.w, r1.value, r2.value, r3.value, p);
    FinishHandsOn(spec, r4.w, r1.value, r2.value, r3.value, p);
    StackSteps(spec, w, p);
  }

  /** A pass without error over a running OpenFGA names in the status the store that it has
      just requested, and no store without policies. */
  lemma PassNames(spec: Spec, w: World, p: Pass)
    requires spec.lakekeeper && spec.authz.EmbeddedOpenFga? && FgaUp(w, spec) && RunPass(w, spec, p).Ok?
    ensures var w' := RunPass(w, spec, p).w;
            if (spec.authz.rowFilters || spec.authz.columnAccess) && spec.trino.EmbeddedTrino? then
              p.provisioned == Some(w'.status.rowFilterStoreId) && StoreRequested(spec.authz.ns) in w'.log
            else w'.status.rowFilterStoreId == ""
  {
    var s := Start(w);
    var r := ReconcileLakekeeperStack(s, spec, p);
    StackNames(spec, s, p);
    TrinoStackSameId(spec, r.w, r.value, p);
    TrinoStackSteps(spec, r.w, r.value, p);
  }

  /** Until OpenFGA is up the stack hands on no store id, so that row filters and column masks
      hide everything; from then on it hands on the provisioned one, if policies need it. */
  lemma AuthzHandsOnStore(spec: Spec, w: World, p: Pass)
    requires ReconcileAuthz(w, spec, p).Ok? && ReconcileAuthz(w, spec, p).value.0.Fga?
    ensures ReconcileAuthz(w, spec, p).value.0.storeId ==
              if FgaUp(w, spec) && NeedsStore(spec) && p.provisioned.Some? then p.provisioned.value else ""
  {
    AuthzResult(w, spec, p);
  }

  lemma HandsOnStore(spec: Spec, w: World, p: Pass)
    requires spec.lakekeeper && ReconcileLakekeeperStack(w, spec, p).Ok?
    requires ReconcileLakekeeperStack(w, spec, p).value.fga.Fga?
    ensures spec.authz.EmbeddedOpenFga?
    ensures var wanted := (spec.authz.rowFilters || spec.authz.columnAccess) && spec.trino.EmbeddedTrino?;
            ReconcileLakekeeperStack(w, spec, p).value.fga.storeId ==
              if FgaUp(w, spec) && wanted && p.provisioned.Some? then p.provisioned.value else ""
  {
    var r1 := ReconcileStorage(w, spec, p);
    StorageResult(w, spec, p);
    var r2 := ReconcileAuth(r1.w, spec, p);
    AuthResult(r1.w, spec, p);
    GrownTransitive(w, r1.w, r2.w);
    UpsKept(w, r2.w, spec);
    var r3 := ReconcileAuthz(r2.w, spec, p);
    var r4 := RunLakekeeper(r3.w, spec, r2.value.1, r3.value.1, p);
    FinishHandsOn(spec, r4.w, r1.value, r2.value, r3.value, p);
    AuthzHandsOnStore(spec, r2.w, p);
  }

  // --- Runs against one server ---

  /** The cluster, and the OpenFGA server that runs in it. */
  datatype Platform = Platform(world: World, server: AuthzStore.Server)

  /** A pass, with how the requests end by which it may provision the store, or anything else
      that happens in the cluster. The server has no other clients. */
  datatype Move = Round(pass: Pass, attempt: AuthzStore.Attempt) | Elapsed(next: World)

  function IdOf(f: AuthzStore.Found): Option<string>
  {
    match f
    case Found(id) => Some(id)
    case Error => None
  }

  /** The pass that gets its store id from the server. */
  function Served(x: Platform, name: string, desired: Model, m: Move): Pass
    requires m.Round?
  {
    m.pass.(provisioned := IdOf(AuthzStore.Ensure(x.server, name, desired, m.attempt).1))
  }

  function WorldAfter(x: Platform, spec: Spec, name: string, desired: Model, m: Move): World
  {
    if m.Elapsed? then m.next else RunPass(x.world, spec, Served(x, name, desired, m)).w
  }

  /** The move is a pass that asks for the store, whether or not it then fails. */
  predicate Requests(x: Platform, spec: Spec, name: string, desired: Model, m: Move)
  {
    m.Round? && spec.authz.EmbeddedOpenFga?
      && StoreRequested(spec.authz.ns) in WorldAfter(x, spec, name, desired, m).log
  }

  function Next(x: Platform, spec: Spec, name: string, desired: Model, m: Move): Platform
  {
    Platform(WorldAfter(x, spec, name, desired, m),
             if Requests(x, spec, name, desired, m)
             then AuthzStore.Ensure(x.server, name, desired, m.attempt).0 else x.server)
  }

  ghost predicate Run(xs: seq<Platform>, spec: Spec, name: string, desired: Model, moves: seq<Move>)
  {
    |xs| == |moves| + 1 && forall i | 0 <= i < |moves| :: xs[i + 1] == Next(xs[i], spec, name, desired, moves[i])
  }

  /** The attempt that a move makes, if it does. */
  function Asked(x: Platform, spec: Spec, name: string, desired: Model, m: Move): Option<AuthzStore.Attempt>
  {
    if Requests(x, spec, name, desired, m) then Some(m.attempt) else None
  }

  // --- The history of a run ---

  /** The server never gives out an id twice. */
  ghost predicate FreshRun(xs: seq<Platform>, moves: seq<Move>)
    requires |xs| == |moves| + 1
  {
    forall i | 0 <= i < |moves| && moves[i].Round? :: AuthzStore.Fresh(xs[i].server, moves[i].attempt.newId)
  }

  lemma NextServer(x: Platform, spec: Spec, name: string, desired: Model, m: Move)
    ensures Next(x, spec, name, desired, m).server ==
              ServerStep(x.server, name, desired, Asked(x, spec, name, desired, m))
    ensures Asked(x, spec, name, desired, m).Some? ==> m.Round? && Asked(x, spec, name, desired, m).value == m.attempt
  {
  }

  function ServersOf(xs: seq<Platform>): seq<AuthzStore.Server>
  {
    seq(|xs|, i requires 0 <= i < |xs| => xs[i].server)
  }

  function AskedAlong(xs: seq<Platform>, spec: Spec, name: string, desired: Model, moves: seq<Move>)
    : seq<Option<AuthzStore.Attempt>>
    requires |xs| == |moves| + 1
  {
    seq(|moves|, i requires 0 <= i < |moves| => Asked(xs[i], spec, name, desired, moves[i]))
  }

  lemma RunHistory(xs: seq<Platform>, spec: Spec, name: string, desired: Model, moves: seq<Move>)
    requires Run(xs, spec, name, desired, moves) && FreshRun(xs, moves) && AuthzStore.WellFormed(xs[0].server)
    ensures History(ServersOf(xs), AskedAlong(xs, spec, name, desired, moves), name, desired)
  {
    var asked := AskedAlong(xs, spec, name, desired, moves);
    forall i | 0 <= i < |moves|
      ensures xs[i + 1].server == ServerStep(xs[i].server, name, desired, asked[i])
      ensures asked[i].Some? ==> AuthzStore.Fresh(xs[i].server, asked[i].value.newId)
    {
      NextServer(xs[i], spec, name, desired, moves[i]);
    }
  }

  /** A pass without error over a running OpenFGA. */
  ghost predicate Succeeds(x: Platform, spec: Spec, name: string, desired: Model, m: Move)
  {
    m.Round? && FgaUp(x.world, spec) && RunPass(x.world, spec, Served(x, name, desired, m)).Ok?
  }

  lemma SuccessNames(x: Platform, spec: Spec, name: string, desired: Model, m: Move)
    requires spec.lakekeeper && NeedsStore(spec) && Succeeds(x, spec, name, desired, m)
    ensures Asked(x, spec, name, desired, m) == Some(m.attempt)
    ensures AuthzStore.Ensure(x.server, name, desired, m.attempt).1 ==
              AuthzStore.Found(Next(x, spec, name, desired, m).world.status.rowFilterStoreId)
  {
    PassNames(spec, x.world, Served(x, name, desired, m));
  }

  /** The id that a successful pass leaves in the status is what its attempt returned. */
  lemma SuccessReturns(xs: seq<Platform>, spec: Spec, name: string, desired: Model, moves: seq<Move>, i: nat)
    requires Run(xs, spec, name, desired, moves) && spec.lakekeeper && NeedsStore(spec) && i < |moves|
    requires Succeeds(xs[i], spec, name, desired, moves[i])
    ensures AskedAlong(xs, spec, name, desired, moves)[i].Some?
    ensures Returned(ServersOf(xs), AskedAlong(xs, spec, name, desired, moves), name, desired, i) ==
              AuthzStore.Found(xs[i + 1].world.status.rowFilterStoreId)
  {
    SuccessNames(xs[i], spec, name, desired, moves[i]);
  }

  /** Over any run, whatever fails and whatever else happens in the cluster: at most one store
      is created and at most one model written, and every successful pass names the same
      store. */
  lemma RunNamesOneStore(xs: seq<Platform>, spec: Spec, name: string, desired: Model, moves: seq<Move>, i: nat, j: nat)
    requires Run(xs, spec, name, desired, moves) && FreshRun(xs, moves) && AuthzStore.WellFormed(xs[0].server)
    requires spec.lakekeeper && NeedsStore(spec) && i <= j < |moves|
    requires Succeeds(xs[i], spec, name, desired, moves[i]) && Succeeds(xs[j], spec, name, desired, moves[j])
    ensures var id := xs[j + 1].world.status.rowFilterStoreId;
            && xs[i + 1].world.status.rowFilterStoreId == id && id != ""
            && id == AuthzStore.FirstLive(xs[j + 1].server.stores, name)
            && Matches(AuthzStore.Latest(xs[j + 1].server, id), desired)
            && AuthzStore.AtMostOnce(xs[0].server, xs[j + 1].server, name, desired)
  {
    RunHistory(xs, spec, name, desired, moves);
    SuccessReturns(xs, spec, name, desired, moves, i);
    SuccessReturns(xs, spec, name, desired, moves, j);
    HistoryNamesOneStore(ServersOf(xs), AskedAlong(xs, spec, name, desired, moves), name, desired, i, j);
  }

  // --- What the spec asks for ---

  /** The policies of the spec. */
  ghost predicate Describes(access: AuthzSpec, spec: Spec)
  {
    && spec.authz.EmbeddedOpenFga? && IsEnabled(access)
    && spec.authz.rowFilters == HasRowFilters(access) && spec.authz.columnAccess == HasColumnAccess(access)
  }

  /** The model with just the types and relations of the policies. */
  function Wanted(access: AuthzSpec): Model { ModelOf(Canonical(Pairs(access))) }

  /** Every successful pass of a run names the same store, the one of the spec's name on the
      server, whose newest model has the shape that the spec's policies ask for. */
  lemma PoliciesNameOneStore(xs: seq<Platform>, spec: Spec, access: AuthzSpec, moves: seq<Move>, i: nat, j: nat)
    requires Describes(access, spec) && HasAccessPolicies(access) && spec.trino.EmbeddedTrino? && spec.lakekeeper
    requires Run(xs, spec, spec.authz.store, Wanted(access), moves) && FreshRun(xs, moves)
    requires AuthzStore.WellFormed(xs[0].server) && i <= j < |moves|
    requires Succeeds(xs[i], spec, spec.authz.store, Wanted(access), moves[i])
    requires Succeeds(xs[j], spec, spec.authz.store, Wanted(access), moves[j])
    ensures var id := xs[j + 1].world.status.rowFilterStoreId;
            && xs[i + 1].world.status.rowFilterStoreId == id && id != ""
            && id == AuthzStore.FirstLive(xs[j + 1].server.stores, spec.authz.store)
            && Matches(AuthzStore.Latest(xs[j + 1].server, id), Wanted(access))
            && AuthzStore.AtMostOnce(xs[0].server, xs[j + 1].server, spec.authz.store, Wanted(access))
  {
    RunNamesOneStore(xs, spec, spec.authz.store, Wanted(access), moves, i, j);
  }

  /** All requests of the attempt are answered. */
  ghost predicate FullyServed(a: AuthzStore.Attempt)
  {
    (forall n :: a.pageServed(n)) && a.create.Done? && a.latestServed && a.write.Done?
  }

  lemma ServedReturns(s: AuthzStore.Server, name: string, desired: Model, a: AuthzStore.Attempt)
    requires FullyServed(a)
    ensures AuthzStore.Ensure(s, name, desired, a).1.Found?
  {
    AuthzStore.SearchServed(s, name, a);
  }

  /** Such successes come about: a pass over a configured platform with OpenFGA up succeeds when
      every call is answered, those to OpenFGA included. */
  lemma ServedSucceeds(x: Platform, spec: Spec, name: string, desired: Model, m: Move)
    requires m.Round? && FullyServed(m.attempt) && (forall n :: m.pass.outcome(n).Done?)
    requires Configured(x.world, spec) && (spec.lakekeeper ==> ClientApart(spec)) && FgaUp(x.world, spec)
    ensures Succeeds(x, spec, name, desired, m)
  {
    ServedReturns(x.server, name, desired, m.attempt);
    PassAnswered(spec, x.world, Served(x, name, desired, m));
  }
}
