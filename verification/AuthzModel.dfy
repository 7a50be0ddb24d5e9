/** The OpenFGA authorization model behind row filters and column access: the object types
    that a spec needs, the model document, and the shape by which models are compared. */
module AuthzModel {
  import opened Strings
  import opened Wrappers
  import opened AccessSpec

  datatype AuthzType = AuthzType(name: string, relations: seq<string>)

  type Pair = (string, string)

  /** The (type, relation) pairs that the spec's entries name. */
  function Pairs(spec: AuthzSpec): set<Pair>
  {
    FilterPairs(spec.rowFilters) + AccessPairs(spec.columnAccess)
  }

  function FilterPairs(filters: seq<RowFilterSpec>): set<Pair>
  {
    set f | f in filters :: (f.fgaType, OrDefault(f.relation, DEFAULT_RELATION))
  }

  function AccessPairs(access: seq<ColumnAccessSpec>): set<Pair>
  {
    set a | a in access :: (a.fgaType, OrDefault(a.relation, DEFAULT_RELATION))
  }

  function Names(pairs: set<Pair>): set<string>
  {
    set p | p in pairs :: p.0
  }

  function RelationsOf(pairs: set<Pair>, name: string): set<string>
  {
    set p | p in pairs && p.0 == name :: p.1
  }

  /** Types in order, each with its relations in order: nothing else about the entries is left. */
  function Canonical(pairs: set<Pair>): (types: seq<AuthzType>)
  {
    var names := SortSet(Names(pairs));
    seq(|names|, i requires 0 <= i < |names| => TypeOf(pairs, names[i]))
  }

  function TypeOf(pairs: set<Pair>, name: string): AuthzType
  {
    AuthzType(name, SortSet(RelationsOf(pairs, name)))
  }

  /** The map that the loops of `accessAuthzTypes` fill. */
  ghost predicate Collects(relations: map<string, seq<string>>, pairs: set<Pair>)
  {
    && relations.Keys == Names(pairs)
    && forall n | n in relations :: NoRepeats(relations[n]) && Elements(relations[n]) == RelationsOf(pairs, n)
  }

  /** The closure `add`: append the relation unless it is there. */
  method Add(relations: map<string, seq<string>>, name: string, relation: string, ghost pairs: set<Pair>)
    returns (r: map<string, seq<string>>)
    requires Collects(relations, pairs)
    ensures Collects(r, pairs + {(name, relation)})
  {
    var current := if name in relations then relations[name] else [];
    var updated := if relation in current then current else current + [relation];
    r := relations[name := updated];
    AddCollects(relations, r, name, relation, pairs, current, updated);
  }

  lemma AddCollects(relations: map<string, seq<string>>, r: map<string, seq<string>>, name: string, relation: string,
                    pairs: set<Pair>, current: seq<string>, updated: seq<string>)
    requires Collects(relations, pairs)
    requires current == if name in relations then relations[name] else []
    requires updated == if relation in current then current else current + [relation]
    requires r == relations[name := updated]
    ensures Collects(r, pairs + {(name, relation)})
  {
    var more := pairs + {(name, relation)};
    assert forall p :: p in more <==> p in pairs || p == (name, relation);
    assert (name, relation) in more;
    assert r.Keys == Names(more);
    assert forall n | n != name :: RelationsOf(more, n) == RelationsOf(pairs, n);
    assert RelationsOf(more, name) == RelationsOf(pairs, name) + {relation};
    if name !in relations {
      assert forall p | p in pairs :: p.0 in Names(pairs);
      assert RelationsOf(pairs, name) == {};
    }
    assert Elements(current) == RelationsOf(pairs, name);
    assert Elements(updated) == Elements(current) + {relation};
  }

  lemma SortedListing(xs: seq<string>, s: set<string>)
    requires NoRepeats(xs) && Elements(xs) == s
    ensures Sort(xs) == SortSet(s)
  {
    SortCanonical(xs);
    StrictlySortedUnique(Sort(xs), SortSet(s));
  }

  lemma FilterPairsStep(filters: seq<RowFilterSpec>, i: nat)
    requires i < |filters|
    ensures FilterPairs(filters[..i + 1]) ==
              FilterPairs(filters[..i]) + {(filters[i].fgaType, OrDefault(filters[i].relation, DEFAULT_RELATION))}
  {
    assert filters[..i + 1] == filters[..i] + [filters[i]];
  }

  lemma AccessPairsStep(access: seq<ColumnAccessSpec>, i: nat)
    requires i < |access|
    ensures AccessPairs(access[..i + 1]) ==
              AccessPairs(access[..i]) + {(access[i].fgaType, OrDefault(access[i].relation, DEFAULT_RELATION))}
  {
    assert access[..i + 1] == access[..i] + [access[i]];
  }

  /** The two collecting loops of `accessAuthzTypes`. */
  method CollectRelations(spec: AuthzSpec) returns (relations: map<string, seq<string>>)
    ensures Collects(relations, Pairs(spec))
  {
    relations := map[];
    var filters, access := spec.rowFilters, spec.columnAccess;
    for i := 0 to |filters|
      invariant Collects(relations, FilterPairs(filters[..i]))
    {
      FilterPairsStep(filters, i);
      relations := Add(relations, filters[i].fgaType, OrDefault(filters[i].relation, DEFAULT_RELATION),
                       FilterPairs(filters[..i]));
    }
    assert filters[..|filters|] == filters;
    ghost var first := FilterPairs(filters);
    assert first + AccessPairs(access[..0]) == first;
    for i := 0 to |access|
      invariant Collects(relations, first + AccessPairs(access[..i]))
    {
      AccessPairsStep(access, i);
      ghost var p: Pair := (access[i].fgaType, OrDefault(access[i].relation, DEFAULT_RELATION));
      assert (first + AccessPairs(access[..i])) + {p} == first + AccessPairs(access[..i + 1]);
      relations := Add(relations, access[i].fgaType, OrDefault(access[i].relation, DEFAULT_RELATION),
                       first + AccessPairs(access[..i]));
    }
    assert access[..|access|] == access;
  }

  /** The listing loop of `accessAuthzTypes`. */
  method ListTypes(relations: map<string, seq<string>>, ghost pairs: set<Pair>) returns (types: seq<AuthzType>)
    requires Collects(relations, pairs)
    ensures types == Canonical(pairs)
  {
    var names := SortSet(relations.Keys);
    AllListed(relations, pairs, names, Canonical(pairs));
    types := ListInOrder(relations, names, Canonical(pairs));
  }

  method ListInOrder(relations: map<string, seq<string>>, names: seq<string>, ghost all: seq<AuthzType>)
    returns (types: seq<AuthzType>)
    requires |all| == |names|
    requires forall i | 0 <= i < |names| ::
               names[i] in relations && all[i] == AuthzType(names[i], Sort(relations[names[i]]))
    ensures types == all
  {
    types := [];
    for i := 0 to |names|
      invariant types == all[..i]
    {
      types := types + [AuthzType(names[i], Sort(relations[names[i]]))];
    }
  }

  lemma AllListed(relations: map<string, seq<string>>, pairs: set<Pair>, names: seq<string>, all: seq<AuthzType>)
    requires Collects(relations, pairs) && names == SortSet(relations.Keys) && all == Canonical(pairs)
    ensures |all| == |names|
    ensures forall i | 0 <= i < |names| ::
              names[i] in relations && all[i] == AuthzType(names[i], Sort(relations[names[i]]))
  {
    forall i | 0 <= i < |names|
      ensures names[i] in relations && all[i] == AuthzType(names[i], Sort(relations[names[i]]))
    {
      ListedType(relations, pairs, names, i);
    }
  }

  lemma ListedType(relations: map<string, seq<string>>, pairs: set<Pair>, names: seq<string>, i: nat)
    requires Collects(relations, pairs) && names == SortSet(relations.Keys) && i < |names|
    ensures names[i] in relations && |Canonical(pairs)| == |names|
    ensures AuthzType(names[i], Sort(relations[names[i]])) == Canonical(pairs)[i]
  {
    assert names[i] in Elements(names);
    SortedListing(relations[names[i]], RelationsOf(pairs, names[i]));
  }

  /** `accessAuthzTypes`: the canonical form of the spec's pairs. */
  method AccessAuthzTypes(spec: AuthzSpec) returns (types: seq<AuthzType>)
    ensures types == Canonical(Pairs(spec))
  {
    var relations := CollectRelations(spec);
    types := ListTypes(relations, Pairs(spec));
  }

  /** The canonical form holds exactly the pairs it was made from. */
  lemma CanonicalPairs(pairs: set<Pair>, name: string, relation: string)
    ensures (name, relation) in pairs <==>
              exists t | t in Canonical(pairs) :: t.name == name && relation in t.relations
  {
    var names := SortSet(Names(pairs));
    var types := Canonical(pairs);
    if (name, relation) in pairs {
      assert name in Names(pairs);
      assert name in Elements(names);
      var i :| 0 <= i < |names| && names[i] == name;
      assert relation in RelationsOf(pairs, name);
      assert relation in Elements(types[i].relations);
      assert types[i] in types;
    }
    if exists t | t in types :: t.name == name && relation in t.relations {
      var t :| t in types && t.name == name && relation in t.relations;
      assert relation in Elements(t.relations);
    }
  }

  /** It is strictly sorted, in its names and in each type's relations, and no type is empty. */
  lemma CanonicalSorted(pairs: set<Pair>)
    ensures forall i, j | 0 <= i < j < |Canonical(pairs)| ::
              Leq(Canonical(pairs)[i].name, Canonical(pairs)[j].name)
                && Canonical(pairs)[i].name != Canonical(pairs)[j].name
    ensures forall t | t in Canonical(pairs) :: StrictlySorted(t.relations) && t.relations != []
  {
    var names := SortSet(Names(pairs));
    forall i | 0 <= i < |names| ensures Canonical(pairs)[i].relations != [] {
      assert names[i] in Elements(names);
      var p :| p in pairs && p.0 == names[i];
      assert p.1 in RelationsOf(pairs, names[i]);
      assert p.1 in Elements(Canonical(pairs)[i].relations);
    }
  }

  /** Permuting or repeating entries changes nothing. */
  lemma TypesIgnoreOrder(a: AuthzSpec, b: AuthzSpec)
    requires Elements(a.rowFilters) == Elements(b.rowFilters)
    requires Elements(a.columnAccess) == Elements(b.columnAccess)
    ensures Canonical(Pairs(a)) == Canonical(Pairs(b))
  {
    assert forall f :: f in a.rowFilters <==> f in Elements(b.rowFilters);
    assert forall c :: c in a.columnAccess <==> c in Elements(b.columnAccess);
    assert Pairs(a) == Pairs(b);
  }

  /** What OPA will ask OpenFGA, entry by entry, is what the model defines. */
  lemma QueriedPairs(spec: AuthzSpec, storeId: string, env: AccessEnv)
    requires EnvOf(spec, storeId, env) && On(spec)
    ensures Pairs(spec) ==
              (set f | f in env.filters :: (f.fgaType, f.relation))
              + (set a | a in env.access :: (a.fgaType, a.relation))
  {
    var asked := (set f | f in env.filters :: (f.fgaType, f.relation))
      + (set a | a in env.access :: (a.fgaType, a.relation));
    forall f | f in spec.rowFilters ensures (f.fgaType, OrDefault(f.relation, DEFAULT_RELATION)) in asked {
      var e := FilterEntry(spec, storeId, env, f);
    }
    forall a | a in spec.columnAccess ensures (a.fgaType, OrDefault(a.relation, DEFAULT_RELATION)) in asked {
      var e := AccessEntry(spec, storeId, env, a);
    }
    forall e | e in env.filters ensures (e.fgaType, e.relation) in Pairs(spec) {
      var f := FilterSource(spec, storeId, env, e);
    }
    forall e | e in env.access ensures (e.fgaType, e.relation) in Pairs(spec) {
      var a := AccessSource(spec, storeId, env, e);
    }
  }

  // --- The model document and its shape ---

  datatype Reference = Reference(fgaType: string, relation: string)

  /** Relations are all directly assignable (`this`); `assignable` is the type's metadata. */
  datatype TypeDefinition =
    TypeDefinition(name: string, relations: set<string>, assignable: map<string, seq<Reference>>)

  datatype Model = Model(schemaVersion: string, definitions: seq<TypeDefinition>)

  const USER_TYPE := "user"
  const GROUP_TYPE := "group"
  const GROUP_RELATION := "member"

  function DefinitionOf(name: string, relations: seq<string>, assignable: seq<Reference>): TypeDefinition
  {
    TypeDefinition(name, set r | r in relations, map r | r in relations :: assignable)
  }

  const ASSIGNABLE: seq<Reference> := [Reference(USER_TYPE, ""), Reference(GROUP_TYPE, GROUP_RELATION)]

  function BaseDefinitions(): seq<TypeDefinition>
  {
    [DefinitionOf(USER_TYPE, [], []), DefinitionOf(GROUP_TYPE, [GROUP_RELATION], [Reference(USER_TYPE, "")])]
  }

  function DefinitionsOf(types: seq<AuthzType>): seq<TypeDefinition>
  {
    if types == [] then BaseDefinitions()
    else
      var n := |types| - 1;
      DefinitionsOf(types[..n]) + [DefinitionOf(types[n].name, types[n].relations, ASSIGNABLE)]
  }

  /** The model document for a list of types. */
  function ModelOf(types: seq<AuthzType>): Model
  {
    Model("1.1", DefinitionsOf(types))
  }

  /** The definition has the listed relations, each of which may be granted to the references. */
  ghost predicate Defines(d: TypeDefinition, name: string, relations: seq<string>, assignable: seq<Reference>)
  {
    && d.name == name && d.relations == Elements(relations) && d.assignable.Keys == Elements(relations)
    && forall r | r in relations :: d.assignable[r] == assignable
  }

  /** The document: users, groups of users, then one definition per type in order, whose
      relations may be granted to a user or to the members of a group. */
  ghost predicate Document(m: Model, types: seq<AuthzType>)
  {
    && m.schemaVersion == "1.1" && |m.definitions| == |types| + 2
    && Defines(m.definitions[0], "user", [], [])
    && Defines(m.definitions[1], "group", ["member"], [Reference("user", "")])
    && forall i | 0 <= i < |types| ::
         Defines(m.definitions[i + 2], types[i].name, types[i].relations,
                 [Reference("user", ""), Reference("group", "member")])
  }

  lemma {:induction false} ModelDocument(types: seq<AuthzType>)
    ensures Document(ModelOf(types), types)
  {
    if types != [] {
      ModelDocument(types[..|types| - 1]);
    }
  }

  /** In terms of names: the last definition of a listed type lets every user, and every
      member of a group, be granted each of its relations, and nobody else. */
  lemma GrantableToUsersAndGroups(m: Model, types: seq<AuthzType>, t: AuthzType, r: string)
    returns (i: nat)
    requires Document(m, types) && t in types && r in t.relations
    requires forall j, k | 0 <= j < k < |types| :: types[j].name != types[k].name
    ensures i < |m.definitions| && m.definitions[i].name == t.name
    ensures forall j | i < j < |m.definitions| :: m.definitions[j].name != t.name
    ensures r in m.definitions[i].assignable
    ensures m.definitions[i].assignable[r] == [Reference("user", ""), Reference("group", "member")]
  {
    var k :| 0 <= k < |types| && types[k] == t;
    i := k + 2;
    forall j | i < j < |m.definitions| ensures m.definitions[j].name != t.name {
      assert Defines(m.definitions[j - 2 + 2], types[j - 2].name, types[j - 2].relations,
                     [Reference("user", ""), Reference("group", "member")]);
    }
  }

  /** `authzTypeJSON`. */
  method AuthzTypeJson(name: string, relations: seq<string>, assignable: seq<Reference>) returns (d: TypeDefinition)
    ensures d == DefinitionOf(name, relations, assignable) && Defines(d, name, relations, assignable)
  {
    if |relations| == 0 {
      return TypeDefinition(name, {}, map[]);
    }
    var names: set<string> := {};
    var metadata: map<string, seq<Reference>> := map[];
    for i := 0 to |relations|
      invariant names == set r | r in relations[..i]
      invariant metadata == map r | r in relations[..i] :: assignable
    {
      assert relations[..i + 1] == relations[..i] + [relations[i]];
      names := names + {relations[i]};
      metadata := metadata[relations[i] := assignable];
    }
    assert relations[..|relations|] == relations;
    d := TypeDefinition(name, names, metadata);
  }

  /** `authzModelJSON`: users, groups of users, then every type assignable to both. */
  method AuthzModelJson(types: seq<AuthzType>) returns (m: Model)
    ensures m == ModelOf(types) && Document(m, types)
  {
    var group := AuthzTypeJson(GROUP_TYPE, [GROUP_RELATION], [Reference(USER_TYPE, "")]);
    var user := AuthzTypeJson(USER_TYPE, [], []);
    var definitions := [user, group];
    for i := 0 to |types|
      invariant definitions == DefinitionsOf(types[..i])
    {
      var d := AuthzTypeJson(types[i].name, types[i].relations, ASSIGNABLE);
      definitions := definitions + [d];
      assert types[..i + 1][..i] == types[..i];
    }
    assert types[..|types|] == types;
    m := Model("1.1", definitions);
    ModelDocument(types);
  }

  /** Types and their sorted relations; a repeated definition replaces the earlier one. */
  function Shape(definitions: seq<TypeDefinition>): map<string, seq<string>>
  {
    if definitions == [] then map[]
    else
      var n := |definitions| - 1;
      Shape(definitions[..n])[definitions[n].name := SortSet(definitions[n].relations)]
  }

  /** `authzModelShape`. */
  method AuthzModelShape(m: Model) returns (shape: map<string, seq<string>>)
    ensures shape == Shape(m.definitions)
  {
    shape := map[];
    for i := 0 to |m.definitions|
      invariant shape == Shape(m.definitions[..i])
    {
      shape := shape[m.definitions[i].name := SortSet(m.definitions[i].relations)];
      assert m.definitions[..i + 1][..i] == m.definitions[..i];
    }
    assert m.definitions[..|m.definitions|] == m.definitions;
  }

  /** `authzModelMatches`; a store without a model matches nothing. */
  predicate Matches(current: Option<Model>, desired: Model)
  {
    current.Some? && Shape(current.value.definitions) == Shape(desired.definitions)
  }

  predicate Reserved(name: string) { name == USER_TYPE || name == GROUP_TYPE }

  lemma BaseShape()
    ensures Shape(BaseDefinitions()).Keys == {USER_TYPE, GROUP_TYPE}
    ensures Shape(BaseDefinitions())[USER_TYPE] == [] && Shape(BaseDefinitions())[GROUP_TYPE] == [GROUP_RELATION]
  {
    var base := BaseDefinitions();
    var first := base[..1];
    assert first[..0] == [] && first[0] == base[0];
    assert SortSet({}) == [];
    assert Shape(first) == map[USER_TYPE := []];
    assert USER_TYPE[0] != GROUP_TYPE[0];
    StrictlySortedUnique([GROUP_RELATION], SortSet({GROUP_RELATION}));
  }

  lemma ShapeSnoc(definitions: seq<TypeDefinition>, d: TypeDefinition)
    ensures Shape(definitions + [d]) == Shape(definitions)[d.name := SortSet(d.relations)]
  {
    assert (definitions + [d])[..|definitions|] == definitions;
  }

  lemma ShapeStep(types: seq<AuthzType>)
    requires types != []
    ensures var n := |types| - 1;
            Shape(DefinitionsOf(types)) ==
              Shape(DefinitionsOf(types[..n]))[types[n].name := SortSet(set r | r in types[n].relations)]
  {
    var n := |types| - 1;
    ShapeSnoc(DefinitionsOf(types[..n]), DefinitionOf(types[n].name, types[n].relations, ASSIGNABLE));
  }

  /** A listed type has its own sorted relations. */
  lemma {:induction false} ShapeListed(types: seq<AuthzType>, t: AuthzType)
    requires t in types && forall i, j | 0 <= i < j < |types| :: types[i].name != types[j].name
    ensures var shape := Shape(DefinitionsOf(types));
            t.name in shape && shape[t.name] == SortSet(set r | r in t.relations)
  {
    var n := |types| - 1;
    ShapeStep(types);
    if t != types[n] {
      var i :| 0 <= i < |types| && types[i] == t;
      assert t in types[..n] && t.name != types[n].name;
      ShapeListed(types[..n], t);
    }
  }

  /** Any other name has what the built-in definitions give it. */
  lemma {:induction false} ShapeUnlisted(types: seq<AuthzType>, name: string)
    requires forall t | t in types :: t.name != name
    ensures var shape, base := Shape(DefinitionsOf(types)), Shape(BaseDefinitions());
            (name in shape <==> name in base) && (name in base ==> shape[name] == base[name])
  {
    if types != [] {
      var n := |types| - 1;
      assert types[n] in types;
      ShapeUnlisted(types[..n], name);
      ShapeStep(types);
    }
  }

  /** The shape has the listed types, and the built-in ones that are not listed. */
  lemma ShapeOfModel(types: seq<AuthzType>, name: string)
    requires forall i, j | 0 <= i < j < |types| :: types[i].name != types[j].name
    ensures forall t | t in types && t.name == name ::
              name in Shape(DefinitionsOf(types))
                && Shape(DefinitionsOf(types))[name] == SortSet(set r | r in t.relations)
    ensures (forall t | t in types :: t.name != name) ==>
              && (name in Shape(DefinitionsOf(types)) <==> Reserved(name))
              && (Reserved(name) ==>
                  Shape(DefinitionsOf(types))[name] == if name == GROUP_TYPE then [GROUP_RELATION] else [])
  {
    forall t | t in types && t.name == name
      ensures name in Shape(DefinitionsOf(types))
      ensures Shape(DefinitionsOf(types))[name] == SortSet(set r | r in t.relations)
    {
      ShapeListed(types, t);
    }
    if forall t | t in types :: t.name != name {
      ShapeUnlisted(types, name);
      BaseShapeAt(name);
    }
  }

  lemma BaseShapeAt(name: string)
    ensures var base := Shape(BaseDefinitions());
            && (name in base <==> Reserved(name))
            && (Reserved(name) ==> base[name] == if name == GROUP_TYPE then [GROUP_RELATION] else [])
  {
    BaseShape();
    assert USER_TYPE[0] != GROUP_TYPE[0];
  }

  predicate HasType(pairs: set<Pair>, name: string) { exists p | p in pairs :: p.0 == name }

  /** What a model made for the pairs defines: a built-in `group` type has its one relation. */
  function Defined(pairs: set<Pair>): set<Pair>
  {
    if HasType(pairs, GROUP_TYPE) then pairs else pairs + {(GROUP_TYPE, GROUP_RELATION)}
  }

  lemma ListedIffNeeded(pairs: set<Pair>, name: string)
    ensures HasType(pairs, name) <==> exists t | t in Canonical(pairs) :: t.name == name
    ensures forall t | t in Canonical(pairs) && t.name == name :: (set r | r in t.relations) == RelationsOf(pairs, name)
  {
    var names := SortSet(Names(pairs));
    assert HasType(pairs, name) <==> name in Elements(names);
    if name in names {
      var i :| 0 <= i < |names| && names[i] == name;
      assert Canonical(pairs)[i] == TypeOf(pairs, name);
    }
    forall t | t in Canonical(pairs) && t.name == name
      ensures name in names && (set r | r in t.relations) == RelationsOf(pairs, name)
    {
      assert t.relations == SortSet(RelationsOf(pairs, name));
      assert (set r | r in t.relations) == Elements(t.relations);
    }
  }

  /** The shape of a canonical model tells exactly which pairs it defines. */
  lemma ShapeExact(pairs: set<Pair>, name: string)
    ensures var shape := Shape(ModelOf(Canonical(pairs)).definitions);
            && (name in shape <==> name == USER_TYPE || HasType(Defined(pairs), name))
            && (name in shape ==> shape[name] == SortSet(RelationsOf(Defined(pairs), name)))
  {
    var types := Canonical(pairs);
    CanonicalSorted(pairs);
    ShapeOfModel(types, name);
    ListedIffNeeded(pairs, name);
    DefinedAt(pairs, name);
    StrictlySortedUnique([GROUP_RELATION], SortSet({GROUP_RELATION}));
    assert SortSet({}) == [];
  }

  lemma DefinedAt(pairs: set<Pair>, name: string)
    ensures HasType(Defined(pairs), name) <==> HasType(pairs, name) || name == GROUP_TYPE
    ensures RelationsOf(Defined(pairs), name) ==
              if HasType(pairs, name) then RelationsOf(pairs, name) else if name == GROUP_TYPE then {GROUP_RELATION}
                else {}
  {
    if !HasType(pairs, GROUP_TYPE) {
      assert (GROUP_TYPE, GROUP_RELATION) in Defined(pairs);
    }
  }

  /** The models of any two sets of pairs match exactly when they define the same pairs. */
  lemma ModelsMatchDefined(p: set<Pair>, q: set<Pair>)
    ensures Matches(Some(ModelOf(Canonical(p))), ModelOf(Canonical(q))) <==> Defined(p) == Defined(q)
  {
    var a, b := Shape(ModelOf(Canonical(p)).definitions), Shape(ModelOf(Canonical(q)).definitions);
    if Defined(p) == Defined(q) {
      forall name ensures (name in a <==> name in b) && (name in a ==> a[name] == b[name]) {
        ShapeExact(p, name);
        ShapeExact(q, name);
      }
      assert a == b;
    }
    if a == b {
      forall x ensures x in Defined(p) <==> x in Defined(q) {
        ShapeHolds(p, x);
        ShapeHolds(q, x);
      }
    }
  }

  lemma ShapeHolds(pairs: set<Pair>, x: Pair)
    ensures var shape := Shape(ModelOf(Canonical(pairs)).definitions);
            x in Defined(pairs) <==> x.0 in shape && x.1 in shape[x.0]
  {
    var shape := Shape(ModelOf(Canonical(pairs)).definitions);
    ShapeExact(pairs, x.0);
    if x.0 in shape {
      assert x.1 in shape[x.0] <==> x.1 in Elements(shape[x.0]);
    }
  }

  /** The one way for a needed pair to go unnoticed: the relation of the built-in `group`
      type, asked for by a spec whose other pairs do not mention that type. */
  predicate Hidden(p: set<Pair>, q: set<Pair>)
  {
    !HasType(p, GROUP_TYPE) && q == p + {(GROUP_TYPE, GROUP_RELATION)}
  }

  /** Two specs' models match exactly when the specs need the same pairs or differ by a
      hidden one, so always as they should when no requested type is called `group`. */
  lemma ModelsMatchIff(p: set<Pair>, q: set<Pair>)
    ensures Matches(Some(ModelOf(Canonical(p))), ModelOf(Canonical(q))) <==> p == q || Hidden(p, q) || Hidden(q, p)
    ensures !HasType(p, GROUP_TYPE) && !HasType(q, GROUP_TYPE) ==>
              (Matches(Some(ModelOf(Canonical(p))), ModelOf(Canonical(q))) <==> p == q)
  {
    ModelsMatchDefined(p, q);
    var x := (GROUP_TYPE, GROUP_RELATION);
    assert HasType(p + {x}, GROUP_TYPE) && HasType(q + {x}, GROUP_TYPE) by {
      assert x in p + {x} && x in q + {x};
    }
    if Defined(p) == Defined(q) && !HasType(p, GROUP_TYPE) && !HasType(q, GROUP_TYPE) {
      assert x !in p && x !in q;
      assert p == Defined(p) - {x} && q == Defined(q) - {x};
    }
  }

  /** With a type called "group" a needed pair does go unnoticed. */
  lemma ReservedTypeHidesPair(p: set<Pair>)
    requires !HasType(p, GROUP_TYPE)
    ensures var q := p + {(GROUP_TYPE, GROUP_RELATION)};
            q != p && Matches(Some(ModelOf(Canonical(p))), ModelOf(Canonical(q)))
  {
    var q := p + {(GROUP_TYPE, GROUP_RELATION)};
    assert (GROUP_TYPE, GROUP_RELATION) in q;
    ModelsMatchIff(p, q);
  }
}
