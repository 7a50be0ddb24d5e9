/** The history of an OpenFGA server over moves of which only some make an attempt to provision
    the store. */
module AuthzHistory {
  import opened Wrappers
  import opened AuthzModel
  import opened AuthzStore

  function ServerStep(s: Server, name: string, desired: Model, a: Option<Attempt>): Server
  {
    if a.None? then s else Ensure(s, name, desired, a.value).0
  }

  /** The servers before and after each move, with ids that are never given out twice. */
  ghost predicate History(servers: seq<Server>, asked: seq<Option<Attempt>>, name: string, desired: Model)
  {
    && |servers| == |asked| + 1 && WellFormed(servers[0])
    && (forall i | 0 <= i < |asked| :: servers[i + 1] == ServerStep(servers[i], name, desired, asked[i]))
    && (forall i | 0 <= i < |asked| && asked[i].Some? :: Fresh(servers[i], asked[i].value.newId))
  }

  /** What is true of a server however many moves later. */
  ghost predicate Descends(s0: Server, s: Server, name: string, desired: Model)
  {
    WellFormed(s) && AtMostOnce(s0, s, name, desired) && forall id | Fresh(s, id) :: Fresh(s0, id)
  }

  lemma DescendsStep(s0: Server, s: Server, name: string, desired: Model, a: Attempt)
    requires WellFormed(s0) && Descends(s0, s, name, desired) && Fresh(s, a.newId)
    ensures Descends(s0, Ensure(s, name, desired, a).0, name, desired)
  {
    TargetStable(s, name, desired, a);
    AtMostOnceStep(s0, s, name, desired, a);
    KeepsKeys(s, name, desired, a);
  }

  lemma {:induction false} Descendants(servers: seq<Server>, asked: seq<Option<Attempt>>, name: string, desired: Model,
                                       i: nat)
    requires History(servers, asked, name, desired) && i <= |asked|
    ensures Descends(servers[0], servers[i], name, desired)
  {
    if i > 0 {
      Descendants(servers, asked, name, desired, i - 1);
      assert servers[i - 1 + 1] == ServerStep(servers[i - 1], name, desired, asked[i - 1]);
      if asked[i - 1].Some? {
        DescendsStep(servers[0], servers[i - 1], name, desired, asked[i - 1].value);
      }
    }
  }

  /** Once a live store exists the list of stores stays as it is. */
  lemma {:induction false} StoresKept(servers: seq<Server>, asked: seq<Option<Attempt>>, name: string, desired: Model,
                                      i: nat, j: nat)
    requires History(servers, asked, name, desired) && i <= j <= |asked| && HasLive(servers[i].stores, name)
    ensures servers[j].stores == servers[i].stores
    decreases j
  {
    if i < j {
      StoresKept(servers, asked, name, desired, i, j - 1);
      assert servers[j - 1 + 1] == ServerStep(servers[j - 1], name, desired, asked[j - 1]);
      if asked[j - 1].Some? {
        Descendants(servers, asked, name, desired, j - 1);
        TargetStable(servers[j - 1], name, desired, asked[j - 1].value);
      }
    }
  }

  /** What the attempt of move i returned. */
  function Returned(servers: seq<Server>, asked: seq<Option<Attempt>>, name: string, desired: Model, i: nat): Found
    requires i < |asked| < |servers| && asked[i].Some?
  {
    Ensure(servers[i], name, desired, asked[i].value).1
  }

  lemma ReturnedLive(servers: seq<Server>, asked: seq<Option<Attempt>>, name: string, desired: Model, i: nat)
    requires History(servers, asked, name, desired) && i < |asked| && asked[i].Some?
    requires Returned(servers, asked, name, desired, i).Found?
    ensures var s, id := servers[i + 1], Returned(servers, asked, name, desired, i).id;
            && id != "" && id == FirstLive(s.stores, name) && HasLive(s.stores, name)
            && Matches(Latest(s, id), desired)
  {
    Descendants(servers, asked, name, desired, i);
    Descendants(servers, asked, name, desired, i + 1);
    SuccessMatches(servers[i], name, desired, asked[i].value);
    FirstLiveFound(servers[i + 1].stores, name);
  }

  /** At most one store and one model are made, and all successes return the same id. */
  lemma HistoryNamesOneStore(servers: seq<Server>, asked: seq<Option<Attempt>>, name: string, desired: Model, i: nat,
                             j: nat)
    requires History(servers, asked, name, desired) && i <= j < |asked| && asked[i].Some? && asked[j].Some?
    requires Returned(servers, asked, name, desired, i).Found? && Returned(servers, asked, name, desired, j).Found?
    ensures Returned(servers, asked, name, desired, i) == Returned(servers, asked, name, desired, j)
    ensures var s, id := servers[j + 1], Returned(servers, asked, name, desired, j).id;
            && id != "" && id == FirstLive(s.stores, name) && Matches(Latest(s, id), desired)
            && AtMostOnce(servers[0], s, name, desired)
  {
    ReturnedLive(servers, asked, name, desired, i);
    ReturnedLive(servers, asked, name, desired, j);
    StoresKept(servers, asked, name, desired, i + 1, j + 1);
    Descendants(servers, asked, name, desired, j + 1);
  }
}
