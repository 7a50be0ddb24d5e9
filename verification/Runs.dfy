/** Whole runs: reconcile passes, failing or not and under any spec, interleaved with
    whatever else happens in the cluster. */
module Runs {
  import opened Cluster
  import opened Reconcile
  import opened ReadyTheorems
  import opened Ordering
  import opened SecretTheorems
  import opened Draws

  /** A pass, or anything else that leads to another state: workloads starting, jobs ending,
      users editing, objects deleted. */
  datatype Move = Reconciled(spec: Spec, pass: Pass) | Elapsed(next: World)

  function After(w: World, m: Move): World
  {
    match m
    case Reconciled(spec, pass) => RunPass(w, spec, pass).w
    case Elapsed(next) => next
  }

  function StateAt(w0: World, moves: seq<Move>, i: nat): World
    requires i <= |moves|
  {
    if i == 0 then w0 else After(StateAt(w0, moves, i - 1), moves[i - 1])
  }

  /** The environment leaves the secret alone, and no spec of the run renders it anew. */
  ghost predicate Guarded(w0: World, moves: seq<Move>, k: SecretKey, i: nat)
    requires i < |moves|
  {
    match moves[i]
    case Reconciled(spec, _) => !Rewritten(spec, k)
    case Elapsed(next) => Kept(StateAt(w0, moves, i), next, k)
  }

  /** Over any run, no entry of a generated secret is ever changed or removed: what is there
      at state i is there, unchanged, at every later state j. */
  lemma {:induction false} SecretsStable(w0: World, moves: seq<Move>, k: SecretKey, i: nat, j: nat)
    requires i <= j <= |moves| && forall n | i <= n < j :: Guarded(w0, moves, k, n)
    ensures Kept(StateAt(w0, moves, i), StateAt(w0, moves, j), k)
    decreases j
  {
    if i < j {
      SecretsStable(w0, moves, k, i, j - 1);
      var w := StateAt(w0, moves, j - 1);
      assert Guarded(w0, moves, k, j - 1);
      if moves[j - 1].Reconciled? {
        PassKeeps(moves[j - 1].spec, w, moves[j - 1].pass, k);
      }
      KeptTransitive(StateAt(w0, moves, i), w, StateAt(w0, moves, j), k);
    }
  }

  /** Each pass of any run does things in order, and reports Ready only if it had no error
      and found up everything that Ready waits for. */
  lemma EveryPassSafe(w0: World, moves: seq<Move>, i: nat)
    requires i < |moves| && moves[i].Reconciled?
    ensures Ordered(moves[i].spec, StateAt(w0, moves, i + 1).log)
    ensures ConditionTrue(StateAt(w0, moves, i + 1), Ready) ==>
              RunPass(StateAt(w0, moves, i), moves[i].spec, moves[i].pass).Ok?
                && PlatformUp(StateAt(w0, moves, i), moves[i].spec)
  {
    var w := StateAt(w0, moves, i);
    PassOrdered(moves[i].spec, w, moves[i].pass);
    if ConditionTrue(StateAt(w0, moves, i + 1), Ready) {
      ReadyMeansUp(w, moves[i].spec, moves[i].pass);
    }
  }

  // --- Other draws, same run ---

  ghost predicate SameMove(m: Move, n: Move)
  {
    match m
    case Reconciled(spec, pass) => n.Reconciled? && n.spec == spec && SameButDraws(pass, n.pass)
    case Elapsed(_) => m == n
  }

  ghost predicate SameMoves(a: seq<Move>, b: seq<Move>)
  {
    |a| == |b| && forall i | 0 <= i < |a| :: SameMove(a[i], b[i])
  }

  /** The run's passes all follow one spec, and its environment keeps the generated secrets. */
  ghost predicate Steady(w0: World, moves: seq<Move>, spec: Spec)
  {
    && (forall i | 0 <= i < |moves| && moves[i].Reconciled? :: moves[i].spec == spec)
    && (forall i, k | 0 <= i < |moves| && moves[i].Elapsed? && Generated(spec, k) ::
          Kept(StateAt(w0, moves, i), moves[i].next, k))
  }

  lemma StaysStocked(w0: World, moves: seq<Move>, spec: Spec, j: nat)
    requires AllStocked(w0, spec) && Steady(w0, moves, spec) && !(spec.auth.EmbeddedKeycloak? && Clash(spec))
              && j <= |moves|
    ensures AllStocked(StateAt(w0, moves, j), spec)
  {
    forall k | Generated(spec, k) ensures Stocked(StateAt(w0, moves, j), k) {
      GeneratedRewritten(spec, k);
      forall n | 0 <= n < j ensures Guarded(w0, moves, k, n) {
      }
      SecretsStable(w0, moves, k, 0, j);
      KeptStocked(w0, StateAt(w0, moves, j), k);
    }
  }

  lemma MovesAgree(w: World, m: Move, n: Move, spec: Spec)
    requires SameMove(m, n) && (m.Reconciled? ==> m.spec == spec && AllStocked(w, spec))
    ensures After(w, m) == After(w, n)
  {
    if m.Reconciled? {
      DrawsIrrelevant(spec, w, m.pass, n.pass);
    }
  }

  ghost predicate AgreeAt(w0: World, moves: seq<Move>, others: seq<Move>, i: nat)
    requires i < |moves| == |others|
  {
    After(StateAt(w0, moves, i), moves[i]) == After(StateAt(w0, moves, i), others[i])
  }

  lemma AgreeStep(w0: World, moves: seq<Move>, others: seq<Move>, i: nat)
    requires i < |moves| == |others| && AgreeAt(w0, moves, others, i) && StateAt(w0, moves, i) == StateAt(w0, others, i)
    ensures StateAt(w0, moves, i + 1) == StateAt(w0, others, i + 1)
  {
  }

  lemma {:induction false} StatesAgree(w0: World, moves: seq<Move>, others: seq<Move>, j: nat)
    requires j <= |moves| == |others| && forall i | 0 <= i < j :: AgreeAt(w0, moves, others, i)
    ensures StateAt(w0, moves, j) == StateAt(w0, others, j)
  {
    if j > 0 {
      StatesAgree(w0, moves, others, j - 1);
      AgreeStep(w0, moves, others, j - 1);
    }
  }

  /** Once the generated secrets exist, two runs that differ only in what their passes draw
      at random go through the very same states. */
  lemma RunsAgree(w0: World, moves: seq<Move>, others: seq<Move>, spec: Spec, j: nat)
    requires AllStocked(w0, spec) && Steady(w0, moves, spec) && !(spec.auth.EmbeddedKeycloak? && Clash(spec))
    requires SameMoves(moves, others) && j <= |moves|
    ensures StateAt(w0, moves, j) == StateAt(w0, others, j)
  {
    forall i | 0 <= i < j ensures AgreeAt(w0, moves, others, i) {
      StaysStocked(w0, moves, spec, i);
      MovesAgree(StateAt(w0, moves, i), moves[i], others[i], spec);
    }
    StatesAgree(w0, moves, others, j);
  }

  // --- The clash over runs ---

  ghost predicate Succeeded(w0: World, moves: seq<Move>, i: nat)
    requires i < |moves|
  {
    moves[i].Reconciled? && RunPass(StateAt(w0, moves, i), moves[i].spec, moves[i].pass).Ok?
  }

  /** A pass of this spec, or a step that leaves the client secret alone. */
  ghost predicate LeavesClient(w0: World, moves: seq<Move>, spec: Spec, i: nat)
    requires i < |moves| && spec.authz.EmbeddedOpenFga?
  {
    match moves[i]
    case Reconciled(s, _) => s == spec
    case Elapsed(next) => Kept(StateAt(w0, moves, i), next, SecretKey(spec.authz.ns, SecretOidc))
  }

  /** How many of the first j moves are passes without error. */
  ghost function Successes(w0: World, moves: seq<Move>, j: nat): nat
    requires j <= |moves|
  {
    if j == 0 then 0 else Successes(w0, moves, j - 1) + if Succeeded(w0, moves, j - 1) then 1 else 0
  }

  /** A broken client secret stays broken. */
  lemma BrokenStays(w0: World, moves: seq<Move>, spec: Spec, i: nat)
    requires Clash(spec) && i < |moves| && LeavesClient(w0, moves, spec, i)
    requires Broken(StateAt(w0, moves, i), SecretKey(spec.authz.ns, SecretOidc), ClientField(spec.auth))
    ensures Broken(StateAt(w0, moves, i + 1), SecretKey(spec.authz.ns, SecretOidc), ClientField(spec.auth))
              && !Succeeded(w0, moves, i)
  {
    var w := StateAt(w0, moves, i);
    match moves[i]
    case Reconciled(_, pass) => BrokenSticks(spec, w, pass, SecretKey(spec.authz.ns, SecretOidc));
    case Elapsed(next) => KeptBroken(w, next, SecretKey(spec.authz.ns, SecretOidc), ClientField(spec.auth));
  }

  lemma SuccessBreaks(w0: World, moves: seq<Move>, spec: Spec, i: nat)
    requires Clash(spec) && i < |moves| && LeavesClient(w0, moves, spec, i) && Succeeded(w0, moves, i)
    ensures Broken(StateAt(w0, moves, i + 1), SecretKey(spec.authz.ns, SecretOidc), ClientField(spec.auth))
  {
    PassBreaks(spec, StateAt(w0, moves, i), moves[i].pass, ClientField(spec.auth));
  }

  lemma ClashStep(w0: World, moves: seq<Move>, spec: Spec, i: nat)
    requires Clash(spec) && i < |moves| && LeavesClient(w0, moves, spec, i) && Successes(w0, moves, i) <= 1
    requires Successes(w0, moves, i) == 1 ==>
               Broken(StateAt(w0, moves, i), SecretKey(spec.authz.ns, SecretOidc), ClientField(spec.auth))
    ensures Successes(w0, moves, i + 1) <= 1
    ensures Successes(w0, moves, i + 1) == 1 ==>
              Broken(StateAt(w0, moves, i + 1), SecretKey(spec.authz.ns, SecretOidc), ClientField(spec.auth))
  {
    if Successes(w0, moves, i) == 1 {
      BrokenStays(w0, moves, spec, i);
    } else if Succeeded(w0, moves, i) {
      SuccessBreaks(w0, moves, spec, i);
    }
  }

  /** When OPA's client secret overwrites the identity provider's, at most one pass of a run
      succeeds while the spec stays as it is and nothing but the operator repairs the secret. */
  lemma {:induction false} ClashSucceedsOnce(w0: World, moves: seq<Move>, spec: Spec, j: nat)
    requires Clash(spec) && j <= |moves| && forall n | 0 <= n < j :: LeavesClient(w0, moves, spec, n)
    ensures Successes(w0, moves, j) <= 1
    ensures Successes(w0, moves, j) == 1 ==>
              Broken(StateAt(w0, moves, j), SecretKey(spec.authz.ns, SecretOidc), ClientField(spec.auth))
  {
    if j > 0 {
      ClashSucceedsOnce(w0, moves, spec, j - 1);
      ClashStep(w0, moves, spec, j - 1);
    }
  }
}
