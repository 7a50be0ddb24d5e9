/** Runs of passes whose calls are all answered: exactly when none of them has an error, and
    when they lead to Ready. */
module AnsweredRuns {
  import opened Cluster
  import opened Reconcile
  import opened Convergence
  import opened SecretTheorems
  import opened Credentials
  import opened Success

  // --- Can the identity provider's clients be read again? ---

  /** The identity provider's step cannot be done over a broken secret. */
  lemma BrokenUnreadable(spec: Spec, w: World, k: SecretKey)
    requires ClientKey(spec.auth, k) && Broken(w, k, ClientField(spec.auth)) && !OpasOwn(ClientField(spec.auth))
    ensures !AuthConfigured(w, spec)
  {
    assert TrinoClientSecret in FieldsOf(SecretOidc);
  }

  lemma ClashUnreadable(spec: Spec, w: World, p: Pass)
    requires Clash(spec) && RunPass(w, spec, p).Ok?
    ensures !AuthConfigured(RunPass(w, spec, p).w, spec)
  {
    PassBreaks(spec, w, p, ClientField(spec.auth));
    BrokenUnreadable(spec, RunPass(w, spec, p).w, SecretKey(spec.authz.ns, SecretOidc));
  }

  /** Entries that are all OPA's own are rendered anew, but stay. */
  lemma OwnEntriesStay(spec: Spec, w: World, w': World, k: SecretKey)
    requires spec.auth.ExternalOidc? && AuthConfigured(w, spec) && ClientKey(spec.auth, k)
    requires OpasOwn(ClientField(spec.auth)) && Has(w', k, OpaClientId) && Has(w', k, OpaClientSecret)
    ensures AuthConfigured(w', spec)
  {
    var ref := spec.auth.credentials.value;
    assert !Foreign(ref.clientIdKey) && !Foreign(ref.trinoIdKey) && !Foreign(ref.trinoSecretKey);
    assert OpasOwn(ref.clientSecretKey);
  }

  lemma OwnReadable(spec: Spec, w: World, p: Pass)
    requires DeploysOpa(spec) && ClientKey(spec.auth, SecretKey(spec.authz.ns, SecretOidc)) && !Clash(spec)
    requires AuthConfigured(w, spec) && RunPass(w, spec, p).Ok?
    ensures AuthConfigured(RunPass(w, spec, p).w, spec)
  {
    OpaSecret(spec, w, p);
    OwnEntriesStay(spec, w, RunPass(w, spec, p).w, SecretKey(spec.authz.ns, SecretOidc));
  }

  lemma ReadsNotRewritten(spec: Spec)
    requires forall k | ClientKey(spec.auth, k) :: !BucketWrites(spec, k) && !TrinoWrites(spec, k)
    requires !(DeploysOpa(spec) && ClientKey(spec.auth, SecretKey(spec.authz.ns, SecretOidc)))
    ensures forall k | AuthReads(spec, k) :: !Rewritten(spec, k)
  {
  }

  /** After a pass without error the identity provider's clients can be read again exactly when
      OPA's secret does not clash with theirs. */
  lemma ClientsReadableIff(spec: Spec, w: World, p: Pass)
    requires spec.lakekeeper && AuthConfigured(w, spec) && RunPass(w, spec, p).Ok?
    requires forall k | ClientKey(spec.auth, k) :: !BucketWrites(spec, k) && !TrinoWrites(spec, k)
    ensures AuthConfigured(RunPass(w, spec, p).w, spec) <==> !Clash(spec)
  {
    if Clash(spec) {
      ClashUnreadable(spec, w, p);
    } else if DeploysOpa(spec) && ClientKey(spec.auth, SecretKey(spec.authz.ns, SecretOidc)) {
      OwnReadable(spec, w, p);
    } else {
      ReadsNotRewritten(spec);
      ClientsKept(spec, w, p);
    }
  }

  lemma ClientsKept(spec: Spec, w: World, p: Pass)
    requires AuthConfigured(w, spec) && forall k | AuthReads(spec, k) :: !Rewritten(spec, k)
    ensures AuthConfigured(RunPass(w, spec, p).w, spec)
  {
    var w' := RunPass(w, spec, p).w;
    forall k | AuthReads(spec, k) ensures Tended(w, w', k) { PassKeeps(spec, w, p, k); }
    AuthConfigKept(spec, w, w');
  }

  /** From any configured cluster: the first answered pass succeeds, and the next one fails
      whatever its calls do. */
  lemma ClashFailsFrom(spec: Spec, w: World, p: Pass, q: Pass)
    requires Clash(spec) && Configured(w, spec) && Answered(p)
    ensures RunPass(w, spec, p).Ok? && RunPass(RunPass(w, spec, p).w, spec, q).Err?
  {
    PassAnswered(spec, w, p);
    PassBreaks(spec, w, p, ClientField(spec.auth));
    BrokenSticks(spec, RunPass(w, spec, p).w, q, SecretKey(spec.authz.ns, SecretOidc));
  }

  // --- A pass over a configured platform leaves it configured ---

  /** No pass renders a secret from which database or object store credentials are read, and
      only OPA's secret may be the one that the identity provider's clients are read from. */
  ghost predicate Apart(spec: Spec)
  {
    spec.lakekeeper ==>
      && (forall k | StorageReads(spec, k) :: !Rewritten(spec, k))
      && (forall k | ClientKey(spec.auth, k) :: !BucketWrites(spec, k) && !TrinoWrites(spec, k))
  }

  lemma EmbeddedApart(spec: Spec)
    requires spec.postgres.EmbeddedPostgres? && spec.storage.EmbeddedMinio? && !spec.auth.ExternalOidc?
    ensures Apart(spec) && ClientApart(spec)
  {
  }

  lemma StackStays(spec: Spec, w: World, p: Pass)
    requires spec.lakekeeper && Configured(w, spec) && Apart(spec) && !Clash(spec) && RunPass(w, spec, p).Ok?
    ensures var w' := RunPass(w, spec, p).w;
            && PostgresConfigured(w', spec) && StorageConfigured(w', spec) && AuthConfigured(w', spec)
            && AuthzConfigured(w', spec)
  {
    var w' := RunPass(w, spec, p).w;
    forall k | StorageReads(spec, k) || AuthzGenerates(spec, k) ensures Tended(w, w', k) { PassKeeps(spec, w, p, k); }
    StorageKept(spec, w, w');
    AuthzConfigKept(spec, w, w');
    ClientsReadableIff(spec, w, p);
  }

  lemma ConfiguredStays(spec: Spec, w: World, p: Pass)
    requires Configured(w, spec) && Apart(spec) && !Clash(spec) && RunPass(w, spec, p).Ok?
    ensures Configured(RunPass(w, spec, p).w, spec)
  {
    if spec.lakekeeper {
      StackStays(spec, w, p);
    }
    if spec.trino.EmbeddedTrino? {
      var k := SecretKey(spec.trino.ns, SecretTrinoInternal);
      PassKeeps(spec, w, p, k);
      TendedWhole(w, RunPass(w, spec, p).w, k);
    }
  }

  // --- Runs ---

  lemma SettleConfigured(w: World, spec: Spec)
    requires Configured(w, spec)
    ensures Configured(Settle(w), spec)
  {
  }

  lemma ConfiguredNext(spec: Spec, w: World, p: Pass)
    requires Configured(w, spec) && Apart(spec) && !Clash(spec) && Answered(p)
    ensures RunPass(w, spec, p).Ok? && Configured(Settle(RunPass(w, spec, p).w), spec)
  {
    PassAnswered(spec, w, p);
    ConfiguredStays(spec, w, p);
    SettleConfigured(RunPass(w, spec, p).w, spec);
  }

  /** Every call is answered, and no pass takes from a later one what it reads. */
  ghost predicate Smooth(spec: Spec, passes: seq<Pass>)
  {
    Apart(spec) && !Clash(spec) && forall p | p in passes :: Answered(p)
  }

  lemma ConfiguredStep(w0: World, spec: Spec, passes: seq<Pass>, k: nat, w: World, w': World)
    requires Configured(w, spec) && Smooth(spec, passes) && k < |passes|
    requires w == WorldAt(w0, spec, passes, k) && w' == WorldAt(w0, spec, passes, k + 1)
    ensures Configured(w', spec)
  {
    ConfiguredNext(spec, w, passes[k]);
  }

  lemma {:induction false} AlwaysConfigured(spec: Spec, worlds: seq<World>, k: nat)
    requires k < |worlds| && Configured(worlds[0], spec)
    requires forall i | 0 <= i < |worlds| - 1 && Configured(worlds[i], spec) :: Configured(worlds[i + 1], spec)
    ensures Configured(worlds[k], spec)
  {
    if k > 0 {
      AlwaysConfigured(spec, worlds, k - 1);
      assert Configured(worlds[k - 1 + 1], spec);
    }
  }

  ghost predicate WorldsOf(w0: World, spec: Spec, passes: seq<Pass>, worlds: seq<World>)
  {
    |worlds| == |passes| + 1 && forall i | 0 <= i <= |passes| :: worlds[i] == WorldAt(w0, spec, passes, i)
  }

  lemma StepAmong(w0: World, spec: Spec, passes: seq<Pass>, worlds: seq<World>, i: nat)
    requires WorldsOf(w0, spec, passes, worlds) && Smooth(spec, passes) && i < |passes| && Configured(worlds[i], spec)
    ensures Configured(worlds[i + 1], spec)
  {
    ConfiguredStep(w0, spec, passes, i, worlds[i], worlds[i + 1]);
  }

  lemma AllAmong(w0: World, spec: Spec, passes: seq<Pass>, worlds: seq<World>, k: nat)
    requires WorldsOf(w0, spec, passes, worlds) && Smooth(spec, passes) && k <= |passes| && Configured(worlds[0], spec)
    ensures Configured(worlds[k], spec)
  {
    forall i | 0 <= i < |worlds| - 1 && Configured(worlds[i], spec) ensures Configured(worlds[i + 1], spec) {
      StepAmong(w0, spec, passes, worlds, i);
    }
    AlwaysConfigured(spec, worlds, k);
  }

  /** Every world of the run is configured when the first one is. */
  lemma StaysConfigured(w0: World, spec: Spec, passes: seq<Pass>, k: nat)
    requires Configured(w0, spec) && Smooth(spec, passes) && k <= |passes|
    ensures Configured(WorldAt(w0, spec, passes, k), spec)
  {
    var worlds := seq(|passes| + 1, i requires 0 <= i <= |passes| => WorldAt(w0, spec, passes, i));
    AllAmong(w0, spec, passes, worlds, k);
  }

  lemma AnsweredErrorFree(w0: World, spec: Spec, passes: seq<Pass>)
    requires Configured(w0, spec) && Smooth(spec, passes)
    ensures ErrorFree(w0, spec, passes)
  {
    forall k | 0 <= k < |passes| ensures RunPass(WorldAt(w0, spec, passes, k), spec, passes[k]).Ok? {
      StaysConfigured(w0, spec, passes, k);
      PassAnswered(spec, WorldAt(w0, spec, passes, k), passes[k]);
    }
  }

  /** The second pass fails. */
  lemma ClashStops(w0: World, spec: Spec, passes: seq<Pass>)
    requires Clash(spec) && |passes| >= 2 && RunPass(w0, spec, passes[0]).Ok?
    ensures RunPass(WorldAt(w0, spec, passes, 1), spec, passes[1]).Err?
  {
    var w, k := RunPass(w0, spec, passes[0]).w, SecretKey(spec.authz.ns, SecretOidc);
    PassBreaks(spec, w0, passes[0], ClientField(spec.auth));
    assert WorldAt(w0, spec, passes, 1) == Settle(w);
    BrokenSticks(spec, Settle(w), passes[1], k);
  }

  /** With every call answered, a run of two or more passes over a configured platform has no
      error exactly when OPA's client secret does not overwrite the identity provider's. */
  lemma AnsweredRunsAreErrorFree(w0: World, spec: Spec, passes: seq<Pass>)
    requires Configured(w0, spec) && Apart(spec) && (forall p | p in passes :: Answered(p)) && |passes| >= 2
    ensures ErrorFree(w0, spec, passes) <==> !Clash(spec)
  {
    if Clash(spec) {
      if ErrorFree(w0, spec, passes) {
        assert WorldAt(w0, spec, passes, 0) == w0;
        ClashStops(w0, spec, passes);
      }
    } else {
      AnsweredErrorFree(w0, spec, passes);
    }
  }

  // --- From the empty cluster ---

  /** Everything is operated by the platform itself, and there is a catalog client. */
  predicate AllEmbedded(spec: Spec)
  {
    && spec.postgres.EmbeddedPostgres? && spec.storage.EmbeddedMinio? && !spec.auth.ExternalOidc?
      && !spec.authz.ExternalOpenFga?
    && spec.catalogClient
  }

  const EMPTY := World(Objects({}, map[], map[], map[], {}), Status(map[], ""), 0, [])

  lemma EmptyConfigured(spec: Spec)
    requires AllEmbedded(spec)
    ensures Configured(EMPTY, spec)
  {
  }

  /** From the empty cluster, with every call answered and everything settling between
      passes, the fourth pass and every later one reports Ready. */
  lemma ReadyFromEmpty(spec: Spec, passes: seq<Pass>, k: nat)
    requires AllEmbedded(spec) && !Clash(spec) && (forall p | p in passes :: Answered(p)) && 3 <= k < |passes|
    ensures ConditionTrue(RunPass(WorldAt(EMPTY, spec, passes, k), spec, passes[k]).w, Ready)
  {
    EmptyConfigured(spec);
    EmbeddedApart(spec);
    AnsweredRunsAreErrorFree(EMPTY, spec, passes);
    ReadyByFourthPass(EMPTY, spec, passes, k);
  }
}
