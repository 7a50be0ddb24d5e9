/** The cluster as the operator sees it, and the API calls that a reconcile pass makes.
    Every call may fail, and a failed write may or may not have taken effect. */
module Cluster {
  import opened Wrappers

  // --- Names ---

  datatype SecretName =
    | SecretPostgres | SecretMinio | SecretMinioMc | SecretRealmKey | SecretKeycloakAdmin | SecretOidc
    | SecretOpenFga | SecretEncryption | SecretTrinoInternal | SecretTrinoConfig | SecretTrinoCatalog
    | UserSecret(name: string)  // any other name

  /** A reference that names no secret, and an entry of it that is not set. */
  const NO_NAME := UserSecret("")
  const NO_KEY := UserField("")

  datatype SecretKey = SecretKey(ns: string, name: SecretName)

  datatype Field =
    | Username | Password | Database | AccessKey | SecretAccessKey | McHost | PrivateKey | Certificate
    | ClientId | TrinoClientId | TrinoClientSecret | OperatorClientId | OperatorClientSecret
    | OpaClientId | OpaClientSecret | ApiKey | EncryptionKey | SharedSecret
    | CoordinatorConfig | WorkerConfig | CatalogFile | AccessControl | RowFiltersUri | ColumnMasksUri
    | UserField(name: string)  // any other entry

  /** A secret's value: given or generated text, or text built from other values. */
  datatype Value = Text(text: string) | Built(use: Field, parts: seq<Value>)

  type SecretData = map<Field, Value>

  datatype Component = Postgres | Minio | Keycloak | OpenFga | Lakekeeper | Opa | Trino | TrinoWorker

  /** A StatefulSet or Deployment; OpenFGA's database is a Postgres in OpenFGA's namespace. */
  datatype Workload = Workload(ns: string, component: Component)

  /** Objects without a status that the pass looks at. */
  datatype Plain =
    | ServiceOf(workload: Workload)
    | RealmConfig(ns: string)
    | PolicyConfig(ns: string)
    | OldTrinoConfig(ns: string)  // the ConfigMap that held Trino's configuration before the Secret did

  // --- The bucket job ---

  datatype JobConditionType = JobComplete | JobFailure

  datatype JobCondition = JobCondition(kind: JobConditionType, status: bool)

  datatype EnvVar = EnvVar(name: string, value: string)

  datatype Job = Job(deleting: bool, conditions: seq<JobCondition>, succeededPods: nat, containers: seq<seq<EnvVar>>)

  predicate JobSucceeded(job: Job)
  {
    job.succeededPods > 0 || exists c | c in job.conditions :: c.kind.JobComplete? && c.status
  }

  predicate JobFailed(job: Job)
  {
    exists c | c in job.conditions :: c.kind.JobFailure? && c.status
  }

  const HOME_KEY := "HOME"
  const MC_HOME := "/tmp"

  /** The first container gives `mc` a writable home. */
  predicate WritableConfig(job: Job)
  {
    job.containers != [] && EnvVar(HOME_KEY, MC_HOME) in job.containers[0]
  }

  const NEW_JOB := Job(false, [], 0, [[EnvVar(HOME_KEY, MC_HOME), EnvVar("MC_CONFIG_DIR", "/tmp/.mc")]])

  /** `jobSucceeded`. */
  method CheckJobSucceeded(job: Job) returns (b: bool)
    ensures b <==> job.succeededPods > 0 || exists c | c in job.conditions :: c.kind.JobComplete? && c.status
  {
    for i := 0 to |job.conditions|
      invariant forall c | c in job.conditions[..i] :: !(c.kind.JobComplete? && c.status)
    {
      var c := job.conditions[i];
      if c.kind.JobComplete? && c.status {
        assert c in job.conditions;
        return true;
      }
      assert job.conditions[..i + 1] == job.conditions[..i] + [c];
    }
    assert job.conditions[..|job.conditions|] == job.conditions;
    return job.succeededPods > 0;
  }

  /** `jobFailed`. */
  method CheckJobFailed(job: Job) returns (b: bool)
    ensures b <==> exists c | c in job.conditions :: c.kind.JobFailure? && c.status
  {
    for i := 0 to |job.conditions|
      invariant forall c | c in job.conditions[..i] :: !(c.kind.JobFailure? && c.status)
    {
      var c := job.conditions[i];
      if c.kind.JobFailure? && c.status {
        assert c in job.conditions;
        return true;
      }
      assert job.conditions[..i + 1] == job.conditions[..i] + [c];
    }
    assert job.conditions[..|job.conditions|] == job.conditions;
    return false;
  }

  /** `mcJobWritableConfig`. */
  method CheckWritableConfig(job: Job) returns (b: bool)
    ensures b <==> job.containers != [] && EnvVar("HOME", "/tmp") in job.containers[0]
  {
    if |job.containers| == 0 {
      return false;
    }
    var env := job.containers[0];
    for i := 0 to |env|
      invariant EnvVar(HOME_KEY, MC_HOME) !in env[..i]
    {
      if env[i].name == HOME_KEY && env[i].value == MC_HOME {
        assert env[i] == EnvVar(HOME_KEY, MC_HOME);
        return true;
      }
      assert env[..i + 1] == env[..i] + [env[i]];
    }
    assert env[..|env|] == env;
    return false;
  }

  // --- State ---

  datatype Condition =
    | PostgresReady | MinioReady | AuthReady | OpenFgaReady | LakekeeperReady | WarehouseReady | TrinoReady | Ready

  /** What a pass observed and did, in order. */
  datatype Event =
    | Saw(workload: Workload, ready: bool)
    | SawBucket
    | Applied(workload: Workload)
    | StoreRequested(ns: string)
    | TokenObtained
    | Bootstrapped
    | GrantsEnsured
    | WarehouseEnsured

  datatype Objects = Objects(
    namespaces: set<string>,
    secrets: map<SecretKey, SecretData>,
    workloads: map<Workload, bool>,
    jobs: map<string, Job>,
    plain: set<Plain>
  )

  /** The DataPlatform's status; a condition that is not set is absent. */
  datatype Status = Status(conditions: map<Condition, bool>, rowFilterStoreId: string)

  /** Cluster objects and status, and the current pass's count of API calls and log. */
  datatype World = World(objects: Objects, status: Status, calls: nat, log: seq<Event>)

  function Set(w: World, c: Condition, isTrue: bool): World
  {
    w.(status := w.status.(conditions := w.status.conditions[c := isTrue]))
  }

  predicate ConditionTrue(w: World, c: Condition)
  {
    c in w.status.conditions && w.status.conditions[c]
  }

  predicate Up(w: World, wl: Workload)
  {
    wl in w.objects.workloads && w.objects.workloads[wl]
  }

  function WithNamespace(w: World, ns: string): World
  {
    w.(objects := w.objects.(namespaces := w.objects.namespaces + {ns}))
  }

  function WithSecret(w: World, key: SecretKey, data: SecretData): World
  {
    w.(objects := w.objects.(secrets := w.objects.secrets[key := data]))
  }

  function WithPlain(w: World, o: Plain): World
  {
    w.(objects := w.objects.(plain := w.objects.plain + {o}))
  }

  function WithoutPlain(w: World, o: Plain): World
  {
    w.(objects := w.objects.(plain := w.objects.plain - {o}))
  }

  function WithJob(w: World, ns: string, job: Job): World
  {
    w.(objects := w.objects.(jobs := w.objects.jobs[ns := job]))
  }

  function WithStoreId(w: World, id: string): World
  {
    w.(status := w.status.(rowFilterStoreId := id))
  }

  /** An applied workload: a new one is not ready, an old one keeps its status. */
  function WithWorkload(w: World, wl: Workload): World
  {
    Log(w.(objects := w.objects.(workloads := w.objects.workloads[wl := Up(w, wl)])), Applied(wl))
  }

  function WithoutWorkload(w: World, wl: Workload): World
  {
    w.(objects := w.objects.(workloads := w.objects.workloads - {wl}))
  }

  function Log(w: World, e: Event): World { w.(log := w.log + [e]) }

  // --- One pass's environment ---

  datatype Outcome = Done | Lost | Landed

  /** How the n-th API call of the pass ends, the random candidate for each entry of a secret,
      and the id, if any, that provisioning the access store returns. */
  datatype Pass = Pass(outcome: nat -> Outcome, random: (SecretKey, Field) -> string, provisioned: Option<string>)

  /** A generated secret's contents before the draws are made. */
  datatype Source = Fixed(text: string) | Random

  type Template = map<Field, Source>

  function Instantiate(key: SecretKey, t: Template, p: Pass): SecretData
  {
    map f | f in t :: Text(if t[f].Fixed? then t[f].text else p.random(key, f))
  }

  /** The result of a piece of a pass; an error keeps the world it left behind. */
  datatype Res<+T> = Ok(w: World, value: T) | Err(w: World) {
    predicate IsFailure() { Err? }

    function PropagateFailure<U>(): Res<U>
      requires Err?
    {
      Err(w)
    }

    function Extract(): (World, T)
      requires Ok?
    {
      (w, value)
    }
  }

  function Tick(w: World): World { w.(calls := w.calls + 1) }

  /** A call that only reads. */
  function Read(w: World, p: Pass): Res<()>
  {
    if p.outcome(w.calls).Done? then Ok(Tick(w), ()) else Err(Tick(w))
  }

  /** A call that turns the world into `w'`. */
  function Write(w: World, p: Pass, w': World): Res<()>
    requires w'.calls == w.calls
  {
    match p.outcome(w.calls)
    case Done => Ok(Tick(w'), ())
    case Lost => Err(Tick(w))
    case Landed => Err(Tick(w'))
  }

  // --- Secrets ---

  /** `ensureGeneratedSecret`: an existing secret is left alone. */
  function EnsureGenerated(w: World, p: Pass, key: SecretKey, data: SecretData): Res<()>
  {
    var (w1, _) :- Read(w, p);
    if key in w1.objects.secrets then Ok(w1, ()) else Write(w1, p, WithSecret(w1, key, data))
  }

  const NEW_OIDC_TEMPLATE: Template := map[
    ClientId := Fixed("lakekeeper"),
    TrinoClientId := Fixed("trino"), TrinoClientSecret := Random,
    OperatorClientId := Fixed("operator"), OperatorClientSecret := Random,
    OpaClientId := Fixed("opa"), OpaClientSecret := Random
  ]

  /** `ensureOIDCSecretKeys` adds what is missing and touches nothing else. */
  function RepairedOidcData(key: SecretKey, data: SecretData, p: Pass): SecretData
  {
    var d1 := if OpaClientId in data then data else data[OpaClientId := Text("opa")];
    if OpaClientSecret in d1 then d1 else d1[OpaClientSecret := Text(p.random(key, OpaClientSecret))]
  }

  /** The identity provider's client secrets: created whole, or completed. */
  function EnsureOidcSecret(w: World, p: Pass, key: SecretKey): Res<()>
  {
    var (w1, _) :- Read(w, p);
    if key !in w1.objects.secrets then EnsureGenerated(w1, p, key, Instantiate(key, NEW_OIDC_TEMPLATE, p))
    else if OpaClientId in w1.objects.secrets[key] && OpaClientSecret in w1.objects.secrets[key] then Ok(w1, ())
    else Write(w1, p, WithSecret(w1, key, RepairedOidcData(key, w1.objects.secrets[key], p)))
  }

  // --- Actions: the calls that every component strings together ---

  datatype Action =
    | EnsureNamespace(ns: string)
    | Generate(key: SecretKey, template: Template)
    | GenerateOnce(key: SecretKey, template: Template)     // a look first, any error of which falls through
    | GenerateChecked(key: SecretKey, template: Template)  // a look first, any error of which is returned
    | EnsureOidc(key: SecretKey)
    | Rewrite(key: SecretKey, data: SecretData)            // `apply` on a Secret
    | Apply(workload: Workload)                            // `apply` on a StatefulSet or Deployment
    | ApplyPlain(plain: Plain)                             // `apply` on a Service or ConfigMap
    | DiscardOldConfig(ns: string)                         // a deletion whose error is ignored
    | Get(key: SecretKey, field: Field)                    // `getSecretData`

  /** Actions other than `Get` yield no value. */
  function NoValue(r: Res<()>): Res<seq<Value>>
  {
    match r
    case Ok(w, _) => Ok(w, [])
    case Err(w) => Err(w)
  }

  predicate Generates(a: Action)
  {
    a.Generate? || a.GenerateOnce? || a.GenerateChecked? || a.EnsureOidc?
  }

  function ActGenerate(w: World, p: Pass, a: Action): Res<()>
    requires Generates(a)
  {
    match a
    case Generate(key, template) => EnsureGenerated(w, p, key, Instantiate(key, template, p))
    case GenerateOnce(key, template) =>
      if p.outcome(w.calls).Done? && key in w.objects.secrets then Ok(Tick(w), ())
      else EnsureGenerated(Tick(w), p, key, Instantiate(key, template, p))
    case GenerateChecked(key, template) =>
      var (w1, _) :- Read(w, p);
      if key in w1.objects.secrets then Ok(w1, ()) else EnsureGenerated(w1, p, key, Instantiate(key, template, p))
    case EnsureOidc(key) => EnsureOidcSecret(w, p, key)
  }

  /** `ensureNamespace`. */
  function ActNamespace(w: World, p: Pass, ns: string): Res<()>
  {
    var (w1, _) :- Read(w, p);
    if ns in w1.objects.namespaces then Ok(w1, ()) else Write(w1, p, WithNamespace(w1, ns))
  }

  /** `getSecretData`. */
  function ActGet(w: World, p: Pass, key: SecretKey, field: Field): Res<seq<Value>>
  {
    var (w1, _) :- Read(w, p);
    if key in w1.objects.secrets
      && field in w1.objects.secrets[key] then Ok(w1, [w1.objects.secrets[key][field]]) else Err(w1)
  }

  function Act(w: World, p: Pass, a: Action): Res<seq<Value>>
  {
    match a
    case Get(key, field) => ActGet(w, p, key, field)
    case DiscardOldConfig(ns) =>
      Ok(Tick(if p.outcome(w.calls).Lost? then w else WithoutPlain(w, OldTrinoConfig(ns))), [])
    case EnsureNamespace(ns) => NoValue(ActNamespace(w, p, ns))
    case Rewrite(key, data) => NoValue(Write(w, p, WithSecret(w, key, data)))
    case Apply(wl) => NoValue(Write(w, p, WithWorkload(w, wl)))
    case ApplyPlain(o) => NoValue(Write(w, p, WithPlain(w, o)))
    case _ => NoValue(ActGenerate(w, p, a))
  }

  /** Actions in order up to the first error, with the values that were read. */
  function Acts(w: World, p: Pass, actions: seq<Action>): Res<seq<Value>>
  {
    if actions == [] then Ok(w, [])
    else
      var n := |actions| - 1;
      var (w1, vs) :- Acts(w, p, actions[..n]);
      var (w2, v) :- Act(w1, p, actions[n]);
      Ok(w2, vs + v)
  }

  /** `statefulSetReady` and `deploymentReady`; a missing object is an error. */
  function WorkloadReady(w: World, p: Pass, wl: Workload): Res<bool>
  {
    var (w1, _) :- Read(w, p);
    if wl in w1.objects.workloads then Ok(Log(w1, Saw(wl, w1.objects.workloads[wl])), w1.objects.workloads[wl])
      else Err(w1)
  }

  /** A component's error handling: its condition becomes False. */
  function OnError<T>(c: Condition, r: Res<T>): Res<T>
  {
    match r
    case Ok(_, _) => r
    case Err(w) => Err(Set(w, c, false))
  }

  function ValueAt(vs: seq<Value>, i: nat): Value
  {
    if i < |vs| then vs[i] else Text("")
  }
}
