/** Configuration text and the hashes that roll a Deployment when it changes: Go maps are
    iterated in no fixed order, so what must not depend on that order is stated for all
    orders. */
module Rendering {
  import opened Strings
  import opened Wrappers

  type Properties = map<string, string>

  /** One possible iteration order over a map: every key once. */
  ghost predicate IsOrder(order: seq<string>, keys: set<string>)
  {
    NoRepeats(order) && Elements(order) == keys
  }

  // --- renderProperties ---

  function RenderKeys(props: Properties, keys: seq<string>): string
    requires forall k | k in keys :: k in props
  {
    if keys == [] then ""
    else
      assert keys[0] in keys;
      keys[0] + "=" + props[keys[0]] + "\n" + RenderKeys(props, keys[1..])
  }

  /** One `key=value` line per property, in the order of the keys. */
  function Render(props: Properties): string
  {
    var keys := SortSet(props.Keys);
    assert forall k | k in keys :: k in Elements(keys);
    RenderKeys(props, keys)
  }

  lemma {:induction false} RenderKeysSnoc(props: Properties, keys: seq<string>, n: nat)
    requires n < |keys| && forall k | k in keys :: k in props
    ensures RenderKeys(props, keys[..n + 1]) == RenderKeys(props, keys[..n]) + keys[n] + "=" + props[keys[n]] + "\n"
  {
    if n == 0 {
      assert keys[..1][1..] == [];
    } else {
      RenderKeysSnoc(props, keys[1..], n - 1);
      assert keys[..n + 1][1..] == keys[1..][..n] && keys[..n][1..] == keys[1..][..n - 1];
    }
  }

  /** `renderProperties`: whatever order the map is iterated in, the text is the same. */
  method RenderProperties(props: Properties, order: seq<string>) returns (text: string)
    requires IsOrder(order, props.Keys)
    ensures text == Render(props)
  {
    var keys: seq<string> := [];
    for i := 0 to |order|
      invariant keys == order[..i]
    {
      keys := keys + [order[i]];
    }
    assert keys == order;
    keys := Sort(keys);
    SortCanonical(order);
    StrictlySortedUnique(keys, SortSet(props.Keys));
    assert forall k | k in keys :: k in Elements(keys);
    text := "";
    for i := 0 to |keys|
      invariant text == RenderKeys(props, keys[..i])
    {
      RenderKeysSnoc(props, keys, i);
      text := text + keys[i];
      text := text + "=";
      text := text + props[keys[i]];
      text := text + "\n";
    }
    assert keys[..|keys|] == keys;
  }

  function IndexOf(s: string, c: char): (i: nat)
    ensures i <= |s|
    ensures i < |s| ==> s[i] == c
    ensures c !in s[..i]
  {
    if s == [] || s[0] == c then 0
    else
      assert s[..1 + IndexOf(s[1..], c)] == [s[0]] + s[1..][..IndexOf(s[1..], c)];
      1 + IndexOf(s[1..], c)
  }

  lemma {:induction false} IndexOfPrefix(p: string, c: char, rest: string)
    requires c !in p
    ensures IndexOf(p + [c] + rest, c) == |p|
  {
    if p == [] {
      assert p + [c] + rest == [c] + rest;
    } else {
      IndexOfPrefix(p[1..], c, rest);
      assert (p + [c] + rest)[1..] == p[1..] + [c] + rest;
    }
  }

  /** A reader of property files: one property per line, split at the first '='. */
  function ReadProperties(text: string): Option<Properties>
    decreases |text|
  {
    if text == [] then Some(map[])
    else
      var n := IndexOf(text, '\n');
      if n == |text| then None
      else
        var line := text[..n];
        var e := IndexOf(line, '=');
        if e == |line| then None
        else
          match ReadProperties(text[n + 1..])
          case Some(m) => Some(m[line[..e] := line[e + 1..]])
          case None => None
  }

  lemma ReadLine(key: string, value: string, rest: string)
    requires '=' !in key && '\n' !in key && '\n' !in value
    ensures ReadProperties(key + "=" + value + "\n" + rest) ==
              match ReadProperties(rest) case Some(m) => Some(m[key := value]) case None => None
  {
    var line := key + "=" + value;
    var text := key + "=" + value + "\n" + rest;
    assert text == line + ['\n'] + rest;
    IndexOfPrefix(line, '\n', rest);
    assert text[..|line|] == line && text[|line| + 1..] == rest;
    assert line == key + ['='] + value;
    IndexOfPrefix(key, '=', value);
    assert line[..|key|] == key && line[|key| + 1..] == value;
  }

  /** The properties at the keys. */
  ghost function Restrict(props: Properties, keys: seq<string>): Properties
    requires forall k | k in keys :: k in props
  {
    map k | k in keys :: props[k]
  }

  lemma RestrictCons(props: Properties, keys: seq<string>)
    requires keys != [] && forall k | k in keys :: k in props
    ensures keys[0] in props && forall k | k in keys[1..] :: k in props
    ensures Restrict(props, keys[1..])[keys[0] := props[keys[0]]] == Restrict(props, keys)
  {
    assert forall k :: k in keys <==> k == keys[0] || k in keys[1..];
  }

  lemma {:induction false} ReadRenderKeys(props: Properties, keys: seq<string>)
    requires forall k | k in keys :: k in props && '=' !in k && '\n' !in k && '\n' !in props[k]
    requires NoRepeats(keys)
    ensures ReadProperties(RenderKeys(props, keys)) == Some(Restrict(props, keys))
  {
    if keys != [] {
      var k, rest := keys[0], keys[1..];
      assert k in keys;
      ReadRenderKeys(props, rest);
      ReadLine(k, props[k], RenderKeys(props, rest));
      RestrictCons(props, keys);
    }
  }

  /** Reading the rendered text gives the properties back. */
  lemma RenderRoundTrip(props: Properties)
    requires forall k | k in props :: '=' !in k && '\n' !in k && '\n' !in props[k]
    ensures ReadProperties(Render(props)) == Some(props)
  {
    var keys := SortSet(props.Keys);
    assert forall k :: k in keys <==> k in Elements(keys);
    ReadRenderKeys(props, keys);
    assert Restrict(props, keys) == props;
  }

  // --- hashData ---

  /** What is fed to the hash: each part, then a NUL. */
  function Frame(parts: seq<string>): string
  {
    if parts == [] then "" else parts[0] + ['\0'] + Frame(parts[1..])
  }

  lemma {:induction false} FrameSnoc(parts: seq<string>, n: nat)
    requires n < |parts|
    ensures Frame(parts[..n + 1]) == Frame(parts[..n]) + parts[n] + ['\0']
  {
    if n == 0 {
      assert parts[..1][1..] == [];
    } else {
      FrameSnoc(parts[1..], n - 1);
      assert parts[..n + 1][1..] == parts[1..][..n] && parts[..n][1..] == parts[1..][..n - 1];
    }
  }

  /** The write loop of `hashData`. */
  method HashInput(parts: seq<string>) returns (written: string)
    ensures written == Frame(parts)
  {
    written := "";
    for i := 0 to |parts|
      invariant written == Frame(parts[..i])
    {
      FrameSnoc(parts, i);
      written := written + parts[i];
      written := written + ['\0'];
    }
    assert parts[..|parts|] == parts;
  }

  /** The framing is injective on parts without NUL: different lists never feed the hash
      the same bytes. */
  lemma {:induction false} FrameInjective(a: seq<string>, b: seq<string>)
    requires forall p | p in a :: '\0' !in p
    requires forall p | p in b :: '\0' !in p
    requires Frame(a) == Frame(b)
    ensures a == b
  {
    if a != [] && b != [] {
      assert a[0] in a && b[0] in b;
      IndexOfPrefix(a[0], '\0', Frame(a[1..]));
      IndexOfPrefix(b[0], '\0', Frame(b[1..]));
      assert Frame(a)[..|a[0]|] == a[0] && Frame(b)[..|b[0]|] == b[0];
      assert Frame(a)[|a[0]| + 1..] == Frame(a[1..]) && Frame(b)[|b[0]| + 1..] == Frame(b[1..]);
      FrameInjective(a[1..], b[1..]);
      assert a == [a[0]] + a[1..] && b == [b[0]] + b[1..];
    }
  }

  // --- trinoCatalogData ---

  const RESERVED := "lakekeeper"
  const SUFFIX := ".properties"

  /** The operator's own catalog, when enabled. */
  function OwnData(own: Option<string>): Properties
  {
    if own.Some? then map[RESERVED + SUFFIX := own.value] else map[]
  }

  function OwnParts(own: Option<string>): seq<string>
  {
    if own.Some? then [own.value] else []
  }

  function ExtraParts(extras: Properties, order: seq<string>): seq<string>
    requires forall k | k in order :: k in extras
  {
    if order == [] then []
    else
      var n := |order| - 1;
      assert order[n] in order;
      ExtraParts(extras, order[..n]) + (if order[n] == RESERVED then [] else [order[n], extras[order[n]]])
  }

  /** Every extra catalog but the reserved one, under its file name. */
  ghost predicate CatalogFiles(own: Option<string>, extras: Properties, names: set<string>, data: Properties)
  {
    && data.Keys == (if own.Some? then {"lakekeeper.properties"} else {})
       + (set n | n in names && n != "lakekeeper" :: n + ".properties")
    && (forall n | n in names && n != "lakekeeper" :: n in extras && data[n + ".properties"] == extras[n])
    && (own.Some? ==> data["lakekeeper.properties"] == own.value)
  }

  lemma FileNamesDiffer(a: string, b: string)
    requires a + SUFFIX == b + SUFFIX
    ensures a == b
  {
    assert (a + SUFFIX)[..|a|] == a && (b + SUFFIX)[..|b|] == b;
  }

  lemma CatalogFilesAdd(own: Option<string>, extras: Properties, names: set<string>, data: Properties, n: string)
    requires CatalogFiles(own, extras, names, data) && n in extras && n != RESERVED
    ensures CatalogFiles(own, extras, names + {n}, data[n + SUFFIX := extras[n]])
  {
    assert "lakekeeper" + SUFFIX == "lakekeeper.properties";
    forall m | m + SUFFIX == n + SUFFIX ensures m == n {
      FileNamesDiffer(m, n);
    }
  }

  lemma CatalogFilesStart(own: Option<string>, extras: Properties)
    ensures CatalogFiles(own, extras, {}, OwnData(own))
  {
    assert RESERVED + SUFFIX == "lakekeeper.properties";
  }

  /** The loop of `trinoCatalogData` over the extra catalogs, in one iteration order. */
  method AddExtras(own: Option<string>, extras: Properties, order: seq<string>)
    returns (data: Properties, parts: seq<string>)
    requires forall k | k in order :: k in extras
    ensures CatalogFiles(own, extras, Elements(order), data)
    ensures parts == OwnParts(own) + ExtraParts(extras, order)
  {
    data, parts := OwnData(own), OwnParts(own);
    CatalogFilesStart(own, extras);
    assert Elements(order[..0]) == {};
    for i := 0 to |order|
      invariant CatalogFiles(own, extras, Elements(order[..i]), data)
      invariant parts == OwnParts(own) + ExtraParts(extras, order[..i])
    {
      PrefixStep(own, extras, order, i, data);
      if order[i] != RESERVED {
        data := data[order[i] + SUFFIX := extras[order[i]]];
        parts := parts + [order[i], extras[order[i]]];
      }
    }
    assert order[..|order|] == order;
  }

  /** `trinoCatalogData`: the files, and the parts that are hashed. */
  method TrinoCatalogData(own: Option<string>, extras: Properties, order: seq<string>)
    returns (data: Properties, parts: seq<string>)
    requires IsOrder(order, extras.Keys)
    ensures CatalogFiles(own, extras, extras.Keys, data)
    ensures (forall k | k in order :: k in extras) && parts == OwnParts(own) + ExtraParts(extras, order)
  {
    OrderKeys(order, extras);
    data, parts := AddExtras(own, extras, order);
  }

  lemma PrefixStep(own: Option<string>, extras: Properties, order: seq<string>, i: nat, data: Properties)
    requires i < |order| && (forall k | k in order :: k in extras)
    requires CatalogFiles(own, extras, Elements(order[..i]), data)
    ensures ExtraParts(extras, order[..i + 1]) ==
              ExtraParts(extras, order[..i]) + (if order[i] == RESERVED then [] else [order[i], extras[order[i]]])
    ensures CatalogFiles(own, extras, Elements(order[..i + 1]), if order[i] == RESERVED then data
                         else data[order[i] + SUFFIX := extras[order[i]]])
  {
    var name := order[i];
    assert order[..i + 1] == order[..i] + [name];
    assert order[..i + 1][..i] == order[..i];
    assert Elements(order[..i + 1]) == Elements(order[..i]) + {name};
    if name != RESERVED {
      CatalogFilesAdd(own, extras, Elements(order[..i]), data, name);
    }
  }

  /** The files are the same for every order. */
  lemma CatalogFilesUnique(own: Option<string>, extras: Properties, a: Properties, b: Properties)
    requires CatalogFiles(own, extras, extras.Keys, a) && CatalogFiles(own, extras, extras.Keys, b)
    ensures a == b
  {
  }

  lemma {:induction false} FewExtraParts(extras: Properties, order: seq<string>, k: string)
    requires NoRepeats(order) && forall n | n in order :: n in extras && (n == RESERVED || n == k)
    ensures ExtraParts(extras, order) == if k in order && k != RESERVED then [k, extras[k]] else []
  {
    if order != [] {
      var n := |order| - 1;
      var init, last := order[..n], order[n];
      assert forall x | x in init :: x in order;
      FewExtraParts(extras, init, k);
      assert ExtraParts(extras, order) == ExtraParts(extras, init) + if last == RESERVED then []
        else [last, extras[last]];
      if last == k {
        assert k !in init;
      } else {
        assert k in order <==> k in init;
      }
    }
  }

  lemma {:induction false} ExtraPartsHead(extras: Properties, order: seq<string>)
    requires order != [] && order[0] != RESERVED && forall n | n in order :: n in extras
    ensures ExtraParts(extras, order) != [] && ExtraParts(extras, order)[0] == order[0]
  {
    var n := |order| - 1;
    if n > 0 {
      ExtraPartsHead(extras, order[..n]);
    }
  }

  ghost predicate SameForAllOrders(extras: Properties)
  {
    forall o1, o2 | IsOrder(o1, extras.Keys) && IsOrder(o2, extras.Keys) ::
      (forall n | n in o1 :: n in extras) && (forall n | n in o2 :: n in extras)
        && ExtraParts(extras, o1) == ExtraParts(extras, o2)
  }

  lemma OrderKeys(order: seq<string>, extras: Properties)
    requires IsOrder(order, extras.Keys)
    ensures forall n | n in order :: n in extras
  {
    assert forall n | n in order :: n in Elements(order);
  }

  /** Two orders that begin with two different extra catalogs. */
  lemma TwoOrders(extras: Properties, a: string, b: string) returns (o1: seq<string>, o2: seq<string>)
    requires a in extras && b in extras && a != b && a != RESERVED && b != RESERVED
    ensures IsOrder(o1, extras.Keys) && IsOrder(o2, extras.Keys)
    ensures o1[..1] == [a] && o2[..1] == [b]
  {
    var rest := SortSet(extras.Keys - {a, b});
    assert forall n :: n in rest <==> n in Elements(rest);
    o1, o2 := [a, b] + rest, [b, a] + rest;
    assert Elements(o1) == extras.Keys && Elements(o2) == extras.Keys;
  }

  lemma FewSame(extras: Properties, k: string, o1: seq<string>, o2: seq<string>)
    requires IsOrder(o1, extras.Keys) && IsOrder(o2, extras.Keys)
    requires extras.Keys <= {RESERVED, k}
    ensures (forall n | n in o1 :: n in extras) && (forall n | n in o2 :: n in extras)
              && ExtraParts(extras, o1) == ExtraParts(extras, o2)
  {
    OrderKeys(o1, extras);
    OrderKeys(o2, extras);
    FewExtraParts(extras, o1, k);
    FewExtraParts(extras, o2, k);
    assert k in o1 <==> k in Elements(o1);
    assert k in o2 <==> k in Elements(o2);
  }

  lemma ManyDiffer(extras: Properties, a: string, b: string)
    requires a in extras && b in extras && a != b && a != RESERVED && b != RESERVED
    ensures !SameForAllOrders(extras)
  {
    var o1, o2 := TwoOrders(extras, a, b);
    OrderKeys(o1, extras);
    OrderKeys(o2, extras);
    assert o1[0] == o1[..1][0] && o2[0] == o2[..1][0];
    ExtraPartsHead(extras, o1);
    ExtraPartsHead(extras, o2);
  }

  /** The hashed parts do not depend on the iteration order exactly when at most one extra
      catalog is not the reserved one. */
  lemma HashOrderExact(extras: Properties)
    ensures SameForAllOrders(extras) <==> |extras.Keys - {RESERVED}| <= 1
  {
    var others := extras.Keys - {RESERVED};
    if others == {} {
      forall o1, o2 | IsOrder(o1, extras.Keys) && IsOrder(o2, extras.Keys)
        ensures (forall n | n in o1 :: n in extras) && (forall n | n in o2 :: n in extras)
                  && ExtraParts(extras, o1) == ExtraParts(extras, o2)
      {
        FewSame(extras, RESERVED, o1, o2);
      }
    } else {
      var a :| a in others;
      if others == {a} {
        assert |others| == 1;
        assert extras.Keys <= others + {RESERVED};
        forall o1, o2 | IsOrder(o1, extras.Keys) && IsOrder(o2, extras.Keys)
          ensures (forall n | n in o1 :: n in extras) && (forall n | n in o2 :: n in extras)
                    && ExtraParts(extras, o1) == ExtraParts(extras, o2)
        {
          FewSame(extras, a, o1, o2);
        }
      } else {
        assert others == (others - {a}) + {a};
        var b :| b in others - {a};
        assert |others| > 1 by {
          assert {a, b} <= others && |others| == |others - {a}| + 1 && |others - {a}| == |others - {a} - {b}| + 1;
        }
        ManyDiffer(extras, a, b);
      }
    }
  }
}
