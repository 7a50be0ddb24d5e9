/** Provisioning the access store on an OpenFGA server that only ever grows: the paged store
    search, and `EnsureAuthzStore` under calls that may fail before or after they land. */
module AuthzStore {
  import opened Strings
  import opened Wrappers
  import opened Lakekeeper
  import opened AuthzModel

  datatype Store = Store(id: string, name: string, deleted: bool)

  datatype Page = Page(stores: seq<Store>, next: string)

  /** A request's result: an id, empty when there is none, or an error. */
  datatype Found = Found(id: string) | Error

  predicate Live(s: Store, name: string) { s.name == name && !s.deleted }

  /** The id of the first live store with the name, or "". */
  function FirstLive(stores: seq<Store>, name: string): string
  {
    if stores == [] then ""
    else if Live(stores[0], name) then stores[0].id
    else FirstLive(stores[1..], name)
  }

  ghost predicate HasLive(stores: seq<Store>, name: string)
  {
    exists s | s in stores :: Live(s, name)
  }

  lemma {:induction false} FirstLiveAppend(a: seq<Store>, b: seq<Store>, name: string)
    ensures FirstLive(a + b, name) == if HasLive(a, name) then FirstLive(a, name) else FirstLive(b, name)
  {
    if a == [] {
      assert a + b == b;
    } else {
      FirstLiveAppend(a[1..], b, name);
      assert (a + b)[1..] == a[1..] + b;
      assert forall s :: s in a <==> s == a[0] || s in a[1..];
    }
  }

  lemma {:induction false} FirstLiveFound(stores: seq<Store>, name: string)
    requires forall s | s in stores :: s.id != ""
    ensures FirstLive(stores, name) != "" <==> HasLive(stores, name)
    ensures HasLive(stores, name) ==> exists s | s in stores :: Live(s, name) && s.id == FirstLive(stores, name)
  {
    if stores != [] {
      assert stores[0] in stores;
      FirstLiveFound(stores[1..], name);
      assert forall s :: s in stores <==> s == stores[0] || s in stores[1..];
    }
  }

  /** In terms of the stores' fields: the id of the first store of that name that is not
      deleted, or nothing when there is none. */
  lemma {:induction false} FirstLiveMeans(stores: seq<Store>, name: string) returns (i: nat)
    ensures i <= |stores| && forall j | 0 <= j < i :: stores[j].name != name || stores[j].deleted
    ensures i < |stores| ==> stores[i].name == name && !stores[i].deleted && FirstLive(stores, name) == stores[i].id
    ensures i == |stores| ==> FirstLive(stores, name) == ""
  {
    if stores == [] || Live(stores[0], name) {
      i := 0;
    } else {
      var k := FirstLiveMeans(stores[1..], name);
      i := k + 1;
      assert forall j | 0 <= j < k :: stores[1..][j] == stores[j + 1];
    }
  }

  // --- Paging ---

  type Fetch = string -> Option<Page>

  /** The tokens of a finite page chain, from the empty token to the page that names no
      successor. A request may fail, in which case its successor is never learnt. */
  ghost predicate Chain(fetch: Fetch, tokens: seq<string>)
  {
    && tokens != [] && tokens[0] == ""
    && (forall i | 0 < i < |tokens| :: tokens[i] != "")
    && forall i | 0 <= i < |tokens| && fetch(tokens[i]).Some? ::
         fetch(tokens[i]).value.next == if i + 1 < |tokens| then tokens[i + 1] else ""
  }

  /** The search along a chain: page after page until a match, a failure or the end. */
  function SearchAlong(fetch: Fetch, tokens: seq<string>, name: string): Found
  {
    if tokens == [] then Found("")
    else
      match fetch(tokens[0])
      case None => Error
      case Some(page) =>
        if exists s | s in page.stores :: Live(s, name) then Found(FirstLive(page.stores, name))
        else SearchAlong(fetch, tokens[1..], name)
  }

  /** `findAuthzStore`: the loop over continuation tokens ends on every finite chain. */
  method FindAuthzStore(fetch: Fetch, name: string, ghost tokens: seq<string>) returns (r: Found)
    requires Chain(fetch, tokens)
    ensures r == SearchAlong(fetch, tokens, name)
  {
    var token := "";
    ghost var k := 0;
    while true
      invariant 0 <= k < |tokens| && token == tokens[k]
      invariant SearchAlong(fetch, tokens, name) == SearchAlong(fetch, tokens[k..], name)
      decreases |tokens| - k
    {
      var response := fetch(token);
      if response.None? {
        return Error;
      }
      var page := response.value;
      assert page.next == if k + 1 < |tokens| then tokens[k + 1] else "";
      var i := 0;
      while i < |page.stores|
        invariant 0 <= i <= |page.stores|
        invariant forall j | 0 <= j < i :: !Live(page.stores[j], name)
        invariant FirstLive(page.stores, name) == FirstLive(page.stores[i..], name)
      {
        if Live(page.stores[i], name) {
          assert page.stores[i] in page.stores;
          return Found(page.stores[i].id);
        }
        assert page.stores[i..][1..] == page.stores[i + 1..];
        i := i + 1;
      }
      assert tokens[k..][1..] == tokens[k + 1..];
      if page.next == "" {
        assert k + 1 == |tokens|;
        return Found("");
      }
      token := page.next;
      k := k + 1;
    }
  }

  function PagesAlong(fetch: Fetch, tokens: seq<string>): seq<seq<Store>>
    requires forall t | t in tokens :: fetch(t).Some?
  {
    if tokens == [] then []
    else
      assert tokens[0] in tokens;
      [fetch(tokens[0]).value.stores] + PagesAlong(fetch, tokens[1..])
  }

  /** When every page is served, the search is the search over all pages put together. */
  lemma {:induction false} SearchIsWholeSearch(fetch: Fetch, tokens: seq<string>, name: string)
    requires forall t | t in tokens :: fetch(t).Some?
    ensures SearchAlong(fetch, tokens, name) == Found(FirstLive(Flatten(PagesAlong(fetch, tokens)), name))
  {
    if tokens != [] {
      assert tokens[0] in tokens;
      SearchIsWholeSearch(fetch, tokens[1..], name);
      var page := fetch(tokens[0]).value.stores;
      FirstLiveAppend(page, Flatten(PagesAlong(fetch, tokens[1..])), name);
      assert PagesAlong(fetch, tokens)[1..] == PagesAlong(fetch, tokens[1..]);
    }
  }

  /** With failures, the search still never returns a wrong id. */
  lemma {:induction false} SearchAgrees(good: Fetch, flaky: Fetch, tokens: seq<string>, name: string)
    requires forall t | t in tokens :: flaky(t) == None || flaky(t) == good(t)
    ensures SearchAlong(flaky, tokens, name) == Error
              || SearchAlong(flaky, tokens, name) == SearchAlong(good, tokens, name)
  {
    if tokens != [] {
      assert tokens[0] in tokens;
      SearchAgrees(good, flaky, tokens[1..], name);
    }
  }

  // --- The server's own listing: pages of one hundred ---

  const PAGE_SIZE := 100

  function TokenOf(k: nat): (t: string)
    ensures |t| == k
  {
    seq(k, _ => 'x')
  }

  function PageCount(stores: seq<Store>): (n: nat)
    ensures n >= 1
  {
    var n := |Chunks(stores, PAGE_SIZE)|;
    if n == 0 then 1 else n
  }

  /** Page number |token|; a later page carries on where it stops. */
  function ServePage(stores: seq<Store>, token: string): Option<Page>
  {
    var k, n := |token|, PageCount(stores);
    if k >= n then None
    else
      var chunks := Chunks(stores, PAGE_SIZE);
      Some(Page(if k < |chunks| then chunks[k] else [], if k + 1 < n then TokenOf(k + 1) else ""))
  }

  function ServerTokens(stores: seq<Store>): seq<string>
  {
    seq(PageCount(stores), k requires 0 <= k => TokenOf(k))
  }

  lemma {:induction false} ServedPages(stores: seq<Store>, k: nat)
    requires k <= |Chunks(stores, PAGE_SIZE)|
    requires Chunks(stores, PAGE_SIZE) != []
    ensures var tokens := ServerTokens(stores)[k..];
            && (forall t | t in tokens :: ServePage(stores, t).Some?)
            && PagesAlong(t => ServePage(stores, t), tokens) == Chunks(stores, PAGE_SIZE)[k..]
    decreases |Chunks(stores, PAGE_SIZE)| - k
  {
    var tokens := ServerTokens(stores)[k..];
    if k < |Chunks(stores, PAGE_SIZE)| {
      ServedPages(stores, k + 1);
      assert tokens[1..] == ServerTokens(stores)[k + 1..];
      assert tokens[0] == TokenOf(k);
    }
  }

  lemma ServerChain(stores: seq<Store>)
    ensures Chain(t => ServePage(stores, t), ServerTokens(stores))
  {
    var tokens := ServerTokens(stores);
    forall i | 0 <= i < |tokens|
      ensures tokens[i] == TokenOf(i) && (i > 0 ==> tokens[i] != "")
      ensures ServePage(stores, tokens[i]).Some?
      ensures ServePage(stores, tokens[i]).value.next == if i + 1 < |tokens| then tokens[i + 1] else ""
    {
    }
  }

  /** The server's pages hold at most a hundred stores. */
  lemma PagesBounded(stores: seq<Store>, token: string)
    ensures ServePage(stores, token).Some? ==> |ServePage(stores, token).value.stores| <= 100
  {
    ChunksPartition(stores, PAGE_SIZE);
    assert forall k | 0 <= k < |Chunks(stores, PAGE_SIZE)| :: Chunks(stores, PAGE_SIZE)[k] in Chunks(stores, PAGE_SIZE);
  }

  /** The server's listing is a finite chain that shows every store once, in order. */
  lemma ServerListing(stores: seq<Store>, name: string)
    ensures SearchAlong(t => ServePage(stores, t), ServerTokens(stores), name) == Found(FirstLive(stores, name))
  {
    var fetch: Fetch := t => ServePage(stores, t);
    var tokens := ServerTokens(stores);
    ChunksPartition(stores, PAGE_SIZE);
    if Chunks(stores, PAGE_SIZE) == [] {
      assert stores == [];
      assert tokens[1..] == [];
    } else {
      ServedPages(stores, 0);
      assert tokens[0..] == tokens;
      assert Chunks(stores, PAGE_SIZE)[0..] == Chunks(stores, PAGE_SIZE);
      SearchIsWholeSearch(fetch, tokens, name);
    }
  }

  // --- Ensuring the store and its model ---

  /** What the server holds. Stores and models are only ever added. */
  datatype Server = Server(stores: seq<Store>, models: map<string, seq<Model>>)

  function ModelsOf(s: Server, id: string): seq<Model>
  {
    if id in s.models then s.models[id] else []
  }

  /** The newest model; none for a store without models. */
  function Latest(s: Server, id: string): Option<Model>
  {
    var ms := ModelsOf(s, id);
    if ms == [] then None else Some(ms[|ms| - 1])
  }

  function WithStore(s: Server, id: string, name: string): Server
  {
    s.(stores := s.stores + [Store(id, name, false)])
  }

  function WithModel(s: Server, id: string, m: Model): Server
  {
    s.(models := s.models[id := ModelsOf(s, id) + [m]])
  }

  /** How a changing call ends: it succeeds, fails with no effect, or fails after its effect
      has landed on the server. */
  datatype Outcome = Done | Lost | Landed

  /** How the calls of one attempt end, and the id the server would give a new store. */
  datatype Attempt = Attempt(pageServed: nat -> bool, create: Outcome, newId: string, latestServed: bool,
                             write: Outcome)

  function FlakyFetch(stores: seq<Store>, a: Attempt): Fetch
  {
    t => if a.pageServed(|t|) then ServePage(stores, t) else None
  }

  function Search(s: Server, name: string, a: Attempt): Found
  {
    SearchAlong(FlakyFetch(s.stores, a), ServerTokens(s.stores), name)
  }

  /** The second half of an attempt: write the model unless the newest one matches. */
  function Provision(s: Server, id: string, desired: Model, a: Attempt): (Server, Found)
  {
    if !a.latestServed then (s, Error)
    else if Matches(Latest(s, id), desired) then (s, Found(id))
    else
      match a.write
      case Done => (WithModel(s, id, desired), Found(id))
      case Lost => (s, Error)
      case Landed => (WithModel(s, id, desired), Error)
  }

  /** One attempt as a step of the server. */
  function Ensure(s: Server, name: string, desired: Model, a: Attempt): (Server, Found)
  {
    match Search(s, name, a)
    case Error => (s, Error)
    case Found(id) =>
      if id != "" then Provision(s, id, desired, a)
      else
        match a.create
        case Done => Provision(WithStore(s, a.newId, name), a.newId, desired, a)
        case Lost => (s, Error)
        case Landed => (WithStore(s, a.newId, name), Error)
  }

  /** The OpenFGA server together with the client code that provisions it. */
  class AuthzServer {
    var stores: seq<Store>
    var models: map<string, seq<Model>>

    constructor ()
      ensures State() == Server([], map[])
    {
      stores, models := [], map[];
    }

    function State(): Server
      reads this
    {
      Server(stores, models)
    }

    /** `createAuthzStore`. */
    method CreateAuthzStore(name: string, newId: string, outcome: Outcome) returns (r: Found)
      modifies this
      ensures State() == if outcome.Lost? then old(State()) else WithStore(old(State()), newId, name)
      ensures r == if outcome.Done? then Found(newId) else Error
    {
      if outcome.Lost? {
        return Error;
      }
      stores := stores + [Store(newId, name, false)];
      r := if outcome.Done? then Found(newId) else Error;
    }

    /** The final POST of `EnsureAuthzStore`. */
    method WriteModel(id: string, m: Model, outcome: Outcome) returns (ok: bool)
      modifies this
      ensures State() == if outcome.Lost? then old(State()) else WithModel(old(State()), id, m)
      ensures ok == outcome.Done?
    {
      if outcome.Lost? {
        return false;
      }
      var current := if id in models then models[id] else [];
      models := models[id := current + [m]];
      ok := outcome.Done?;
    }

    /** `EnsureAuthzStore`: find or create the store, compare the newest model, write. */
    method EnsureAuthzStore(name: string, types: seq<AuthzType>, a: Attempt) returns (r: Found)
      modifies this
      ensures (State(), r) == Ensure(old(State()), name, ModelOf(types), a)
      ensures forall id :: ModelsOf(State(), id) == ModelsOf(old(State()), id)
                || exists m :: Document(m, types) && ModelsOf(State(), id) == ModelsOf(old(State()), id) + [m]
    {
      AppendsDocuments(State(), name, types, a);
      FlakyChain(stores, a);
      var found := FindAuthzStore(FlakyFetch(stores, a), name, ServerTokens(stores));
      if found.Error? {
        return Error;
      }
      var storeId := found.id;
      if storeId == "" {
        var created := CreateAuthzStore(name, a.newId, a.create);
        if created.Error? {
          return Error;
        }
        storeId := created.id;
      }
      var desired := AuthzModelJson(types);
      if !a.latestServed {
        return Error;
      }
      var current := Latest(State(), storeId);
      if current.Some? {
        var have := AuthzModelShape(current.value);
        var want := AuthzModelShape(desired);
        if have == want {
          return Found(storeId);
        }
      }
      var ok := WriteModel(storeId, desired, a.write);
      if !ok {
        return Error;
      }
      r := Found(storeId);
    }
  }

  /** Every model that an attempt appends is the document of its types. */
  lemma AppendsDocuments(s: Server, name: string, types: seq<AuthzType>, a: Attempt)
    ensures var s' := Ensure(s, name, ModelOf(types), a).0;
            forall id :: ModelsOf(s', id) == ModelsOf(s, id)
              || exists m :: Document(m, types) && ModelsOf(s', id) == ModelsOf(s, id) + [m]
  {
    var desired := ModelOf(types);
    ModelDocument(types);
    forall id ensures var s' := Ensure(s, name, desired, a).0;
                      ModelsOf(s', id) == ModelsOf(s, id) || ModelsOf(s', id) == ModelsOf(s, id) + [desired] {
    }
  }

  lemma FlakyChain(stores: seq<Store>, a: Attempt)
    ensures Chain(FlakyFetch(stores, a), ServerTokens(stores))
  {
    ServerChain(stores);
    var good: Fetch := t => ServePage(stores, t);
    var tokens := ServerTokens(stores);
    assert Chain(good, tokens);
    forall i | 0 <= i < |tokens| && FlakyFetch(stores, a)(tokens[i]).Some?
      ensures FlakyFetch(stores, a)(tokens[i]).value.next == if i + 1 < |tokens| then tokens[i + 1] else ""
    {
      assert good(tokens[i]).Some?;
    }
  }

  /** A search under failures finds the first live store, or reports an error. */
  lemma SearchSound(s: Server, name: string, a: Attempt)
    ensures Search(s, name, a) == Error || Search(s, name, a) == Found(FirstLive(s.stores, name))
  {
    ServerListing(s.stores, name);
    SearchAgrees(t => ServePage(s.stores, t), FlakyFetch(s.stores, a), ServerTokens(s.stores), name);
  }

  /** A search whose pages are all served finds the first live store. */
  lemma SearchServed(s: Server, name: string, a: Attempt)
    requires forall n :: a.pageServed(n)
    ensures Search(s, name, a) == Found(FirstLive(s.stores, name))
  {
    ServerListing(s.stores, name);
    SameSearch(t => ServePage(s.stores, t), FlakyFetch(s.stores, a), ServerTokens(s.stores), name);
  }

  lemma {:induction false} SameSearch(f: Fetch, g: Fetch, tokens: seq<string>, name: string)
    requires forall t | t in tokens :: f(t) == g(t)
    ensures SearchAlong(f, tokens, name) == SearchAlong(g, tokens, name)
  {
    if tokens != [] {
      assert tokens[0] in tokens;
      SameSearch(f, g, tokens[1..], name);
    }
  }

  // --- Whole runs of attempts ---

  /** The server after a sequence of attempts with one request. */
  function After(s0: Server, name: string, desired: Model, attempts: seq<Attempt>): Server
  {
    if attempts == [] then s0
    else
      var n := |attempts| - 1;
      Ensure(After(s0, name, desired, attempts[..n]), name, desired, attempts[n]).0
  }

  /** The result of attempt k. */
  function ResultOf(s0: Server, name: string, desired: Model, attempts: seq<Attempt>, k: nat): Found
    requires k < |attempts|
  {
    Ensure(After(s0, name, desired, attempts[..k]), name, desired, attempts[k]).1
  }

  ghost predicate Fresh(s: Server, id: string)
  {
    id != "" && id !in s.models && forall t | t in s.stores :: t.id != id
  }

  /** The server never gives out an id twice. */
  ghost predicate FreshIds(s0: Server, name: string, desired: Model, attempts: seq<Attempt>)
  {
    forall k | 0 <= k < |attempts| :: Fresh(After(s0, name, desired, attempts[..k]), attempts[k].newId)
  }

  ghost predicate WellFormed(s: Server)
  {
    forall t | t in s.stores :: t.id != ""
  }

  /** All that any number of attempts can have done: at most one new live store, and only if
      there was none, and at most one model appended, on the found store only, and only if
      its newest model did not match. */
  ghost predicate AtMostOnce(s0: Server, s: Server, name: string, desired: Model)
  {
    && (|| s.stores == s0.stores
        || (!HasLive(s0.stores, name)
            && exists id :: Fresh(s0, id) && s.stores == s0.stores + [Store(id, name, false)]))
    && forall id ::
         || ModelsOf(s, id) == ModelsOf(s0, id)
         || (&& id == FirstLive(s.stores, name) && id != ""
             && !Matches(Latest(s0, id), desired) && ModelsOf(s, id) == ModelsOf(s0, id) + [desired])
  }

  /** Once a live store exists, no attempt changes which one is found. */
  lemma TargetStable(s: Server, name: string, desired: Model, a: Attempt)
    requires WellFormed(s) && Fresh(s, a.newId)
    ensures WellFormed(Ensure(s, name, desired, a).0)
    ensures HasLive(s.stores, name) ==> Ensure(s, name, desired, a).0.stores == s.stores
    ensures var s' := Ensure(s, name, desired, a).0;
            s'.stores == s.stores
              || (s'.stores == s.stores + [Store(a.newId, name, false)] && FirstLive(s'.stores, name) == a.newId)
  {
    SearchSound(s, name, a);
    FirstLiveFound(s.stores, name);
    FirstLiveAppend(s.stores, [Store(a.newId, name, false)], name);
  }

  /** After a success the newest model of the returned store has the requested shape. */
  lemma SuccessMatches(s: Server, name: string, desired: Model, a: Attempt)
    requires WellFormed(s) && Fresh(s, a.newId) && Ensure(s, name, desired, a).1.Found?
    ensures var (s', r) := Ensure(s, name, desired, a);
            r.id != "" && r.id == FirstLive(s'.stores, name) && Matches(Latest(s', r.id), desired)
  {
    SearchSound(s, name, a);
    FirstLiveFound(s.stores, name);
    FirstLiveAppend(s.stores, [Store(a.newId, name, false)], name);
  }

  /** A success has had an answer to every request that it made: the listing up to the store,
      the creation if there was no live store, the newest model, and the write if that model did
      not match. */
  lemma SuccessNeedsAnswers(s: Server, name: string, desired: Model, a: Attempt)
    requires WellFormed(s) && Fresh(s, a.newId) && Ensure(s, name, desired, a).1.Found?
    ensures Search(s, name, a).Found? && a.latestServed
    ensures !HasLive(s.stores, name) ==> a.create.Done? && a.write.Done?
    ensures HasLive(s.stores, name) && !Matches(Latest(s, FirstLive(s.stores, name)), desired) ==> a.write.Done?
  {
    SearchSound(s, name, a);
    FirstLiveFound(s.stores, name);
    assert Latest(WithStore(s, a.newId, name), a.newId) == None;
  }

  /** The second half of an attempt touches no other store's models. */
  lemma ProvisionStep(s: Server, target: string, desired: Model, a: Attempt, id: string)
    ensures var s' := Provision(s, target, desired, a).0;
            && s'.stores == s.stores
            && (|| ModelsOf(s', id) == ModelsOf(s, id)
                || (&& id == target && !Matches(Latest(s, id), desired)
                    && ModelsOf(s', id) == ModelsOf(s, id) + [desired]))
  {
  }

  lemma ModelStep(s: Server, name: string, desired: Model, a: Attempt, id: string)
    requires WellFormed(s) && Fresh(s, a.newId)
    ensures var s' := Ensure(s, name, desired, a).0;
            || ModelsOf(s', id) == ModelsOf(s, id)
            || (&& id == FirstLive(s'.stores, name) && id != ""
                && !Matches(Latest(s, id), desired) && ModelsOf(s', id) == ModelsOf(s, id) + [desired])
  {
    SearchSound(s, name, a);
    FirstLiveFound(s.stores, name);
    var found := FirstLive(s.stores, name);
    var grown := WithStore(s, a.newId, name);
    FirstLiveAppend(s.stores, [Store(a.newId, name, false)], name);
    ProvisionStep(s, found, desired, a, id);
    ProvisionStep(grown, a.newId, desired, a, id);
    assert ModelsOf(grown, id) == ModelsOf(s, id);
  }

  lemma AtMostOnceStep(s0: Server, s: Server, name: string, desired: Model, a: Attempt)
    requires WellFormed(s0) && WellFormed(s) && Fresh(s, a.newId) && AtMostOnce(s0, s, name, desired)
    requires Fresh(s0, a.newId)
    ensures AtMostOnce(s0, Ensure(s, name, desired, a).0, name, desired)
  {
    var s' := Ensure(s, name, desired, a).0;
    TargetStable(s, name, desired, a);
    FirstLiveFound(s.stores, name);
    FirstLiveFound(s0.stores, name);
    if s.stores != s0.stores {
      var last := s.stores[|s.stores| - 1];
      assert Live(last, name) && last in s.stores;
    }
    forall id
      ensures || ModelsOf(s', id) == ModelsOf(s0, id)
              || (&& id == FirstLive(s'.stores, name) && id != ""
                  && !Matches(Latest(s0, id), desired) && ModelsOf(s', id) == ModelsOf(s0, id) + [desired])
    {
      ModelStep(s, name, desired, a, id);
    }
  }

  lemma {:induction false} StaysWellFormed(s0: Server, name: string, desired: Model, attempts: seq<Attempt>)
    requires WellFormed(s0) && FreshIds(s0, name, desired, attempts)
    ensures WellFormed(After(s0, name, desired, attempts))
    ensures forall id | Fresh(After(s0, name, desired, attempts), id) :: Fresh(s0, id)
    ensures AtMostOnce(s0, After(s0, name, desired, attempts), name, desired)
  {
    if attempts != [] {
      var n := |attempts| - 1;
      assert forall k | 0 <= k < n :: attempts[..n][..k] == attempts[..k];
      StaysWellFormed(s0, name, desired, attempts[..n]);
      var s := After(s0, name, desired, attempts[..n]);
      assert Fresh(s, attempts[n].newId);
      TargetStable(s, name, desired, attempts[n]);
      AtMostOnceStep(s0, s, name, desired, attempts[n]);
      KeepsKeys(s, name, desired, attempts[n]);
    }
  }

  ghost predicate DistinctIds(s: Server)
  {
    forall i, j | 0 <= i < j < |s.stores| :: s.stores[i].id != s.stores[j].id
  }

  /** No attempt makes two stores share an id. */
  lemma IdsStayDistinct(s0: Server, name: string, desired: Model, attempts: seq<Attempt>)
    requires WellFormed(s0) && DistinctIds(s0) && FreshIds(s0, name, desired, attempts)
    ensures DistinctIds(After(s0, name, desired, attempts))
  {
    StaysWellFormed(s0, name, desired, attempts);
    var s := After(s0, name, desired, attempts);
    if s.stores != s0.stores {
      var id :| Fresh(s0, id) && s.stores == s0.stores + [Store(id, name, false)];
      assert forall t | t in s0.stores :: t.id != id;
    }
  }

  lemma KeepsKeys(s: Server, name: string, desired: Model, a: Attempt)
    ensures s.stores <= Ensure(s, name, desired, a).0.stores
    ensures s.models.Keys <= Ensure(s, name, desired, a).0.models.Keys
  {
  }

  /** Whatever fails and however often the request is retried: at most one store is created
      and at most one model appended; after each success the newest model has the requested
      shape; and every success returns the same id. */
  lemma ProvisionedOnce(s0: Server, name: string, desired: Model, attempts: seq<Attempt>, j: nat, k: nat)
    requires WellFormed(s0) && FreshIds(s0, name, desired, attempts)
    requires j <= k < |attempts|
    requires ResultOf(s0, name, desired, attempts, j).Found? && ResultOf(s0, name, desired, attempts, k).Found?
    ensures AtMostOnce(s0, After(s0, name, desired, attempts), name, desired)
    ensures Matches(Latest(After(s0, name, desired, attempts[..k + 1]), ResultOf(s0, name, desired, attempts, k).id),
                    desired)
    ensures ResultOf(s0, name, desired, attempts, j) == ResultOf(s0, name, desired, attempts, k)
  {
    StaysWellFormed(s0, name, desired, attempts);
    SuccessAt(s0, name, desired, attempts, j);
    SuccessAt(s0, name, desired, attempts, k);
    TargetKept(s0, name, desired, attempts, j + 1, k + 1);
  }

  /** The state before attempt k, and the step that attempt k takes. */
  lemma StepAt(s0: Server, name: string, desired: Model, attempts: seq<Attempt>, k: nat)
    requires WellFormed(s0) && FreshIds(s0, name, desired, attempts) && k < |attempts|
    ensures var s := After(s0, name, desired, attempts[..k]);
            && WellFormed(s) && Fresh(s, attempts[k].newId)
            && After(s0, name, desired, attempts[..k + 1]) == Ensure(s, name, desired, attempts[k]).0
  {
    assert forall i | 0 <= i < k :: attempts[..k][..i] == attempts[..i];
    assert attempts[..k + 1][..k] == attempts[..k];
    StaysWellFormed(s0, name, desired, attempts[..k]);
  }

  lemma SuccessAt(s0: Server, name: string, desired: Model, attempts: seq<Attempt>, k: nat)
    requires WellFormed(s0) && FreshIds(s0, name, desired, attempts)
    requires k < |attempts| && ResultOf(s0, name, desired, attempts, k).Found?
    ensures var s, r := After(s0, name, desired, attempts[..k + 1]), ResultOf(s0, name, desired, attempts, k);
            r.id != "" && r.id == FirstLive(s.stores, name) && Matches(Latest(s, r.id), desired)
  {
    StepAt(s0, name, desired, attempts, k);
    SuccessMatches(After(s0, name, desired, attempts[..k]), name, desired, attempts[k]);
  }

  lemma TargetStep(s0: Server, name: string, desired: Model, attempts: seq<Attempt>, k: nat,
                   before: seq<Store>, after: seq<Store>)
    requires WellFormed(s0) && FreshIds(s0, name, desired, attempts) && k < |attempts|
    requires before == After(s0, name, desired, attempts[..k]).stores && FirstLive(before, name) != ""
    requires after == After(s0, name, desired, attempts[..k + 1]).stores
    ensures after == before
  {
    StepAt(s0, name, desired, attempts, k);
    var s := After(s0, name, desired, attempts[..k]);
    FirstLiveFound(s.stores, name);
    TargetStable(s, name, desired, attempts[k]);
  }

  /** A store that is found once stays the one that is found. */
  lemma {:induction false} FoundKept(history: seq<seq<Store>>, name: string, j: nat, k: nat)
    requires j <= k < |history| && FirstLive(history[j], name) != ""
    requires forall i | j <= i < k && FirstLive(history[i], name) != "" :: history[i + 1] == history[i]
    ensures history[k] == history[j]
  {
    if j < k {
      FoundKept(history, name, j, k - 1);
    }
  }

  lemma TargetKept(s0: Server, name: string, desired: Model, attempts: seq<Attempt>, j: nat, k: nat)
    requires WellFormed(s0) && FreshIds(s0, name, desired, attempts)
    requires j <= k <= |attempts|
    requires FirstLive(After(s0, name, desired, attempts[..j]).stores, name) != ""
    ensures After(s0, name, desired, attempts[..k]).stores == After(s0, name, desired, attempts[..j]).stores
  {
    var history := seq(|attempts| + 1,
                       i requires 0 <= i <= |attempts| => After(s0, name, desired, attempts[..i]).stores);
    forall i | j <= i < k && FirstLive(history[i], name) != "" ensures history[i + 1] == history[i] {
      TargetStep(s0, name, desired, attempts, i, history[i], history[i + 1]);
    }
    FoundKept(history, name, j, k);
  }
}
