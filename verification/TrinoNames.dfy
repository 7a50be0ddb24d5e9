/** Names as the Trino policies read them: Trino schemas against Iceberg namespaces, and
    Iceberg metadata tables such as `orders$history`. */
module TrinoNames {
  import opened Strings

  /** Iceberg namespaces are lists of parts; Trino spells them as one dotted schema name. */
  function NamespaceForSchema(schema: string): (ns: seq<string>)
  {
    Split(schema, '.')
  }

  predicate IsNestedSchema(schema: string)
  {
    |NamespaceForSchema(schema)| > 1
  }

  function ParentSchema(schema: string): string
  {
    var ns := NamespaceForSchema(schema);
    Join(ns[..|ns| - 1], ".")
  }

  function ChildSchemaName(schema: string): string
  {
    var parts := Split(schema, '.');
    parts[|parts| - 1]
  }

  lemma {:induction false} JoinSnoc(parts: seq<string>, last: string, sep: string)
    requires parts != []
    ensures Join(parts + [last], sep) == Join(parts, sep) + sep + last
  {
    if |parts| == 1 {
      assert (parts + [last])[1..] == [last];
    } else {
      JoinSnoc(parts[1..], last, sep);
      assert (parts + [last])[1..] == parts[1..] + [last];
    }
  }

  /** A schema is nested exactly when its name has a dot. */
  lemma NestedIffDotted(schema: string)
    ensures IsNestedSchema(schema) <==> '.' in schema
  {
    if '.' in schema {
      JoinSplit(schema, '.');
      SplitParts(schema, '.');
    } else {
      SplitPrefix(schema, [], '.');
      assert schema + [] == schema;
    }
  }

  /** For a nested schema, parent and child put together again give the schema, and the
      parent's namespace is the schema's namespace without its last part. */
  lemma NestedSchemaSplit(schema: string)
    requires IsNestedSchema(schema)
    ensures ParentSchema(schema) + "." + ChildSchemaName(schema) == schema
    ensures NamespaceForSchema(ParentSchema(schema)) + [ChildSchemaName(schema)] == NamespaceForSchema(schema)
  {
    var ns := NamespaceForSchema(schema);
    var front, last := ns[..|ns| - 1], ns[|ns| - 1];
    assert ns == front + [last];
    JoinSplit(schema, '.');
    JoinSnoc(front, last, ".");
    SplitParts(schema, '.');
    SplitJoin(front, '.');
  }

  /** Distinct schemas are distinct namespaces. */
  lemma NamespaceInjective(a: string, b: string)
    requires NamespaceForSchema(a) == NamespaceForSchema(b)
    ensures a == b
  {
    JoinSplit(a, '.');
    JoinSplit(b, '.');
  }

  const METADATA_SUFFIXES: seq<string> := [
    "$properties", "$history", "$metadata_log_entries",
    "$snapshots", "$manifests", "$all_manifests",
    "$partitions", "$files", "$entries", "$all_entries", "$refs"
  ]

  predicate EndsWithAny(table: string, suffixes: seq<string>)
  {
    exists suffix | suffix in suffixes :: EndsWith(table, suffix)
  }

  predicate IsMetadataTable(table: string)
  {
    EndsWithAny(table, METADATA_SUFFIXES)
  }

  /** What is left of the name after removing each suffix that matches. A Rego function
      whose body succeeds with two different values is an evaluation error. */
  function Bases(table: string, suffixes: seq<string>): set<string>
  {
    set suffix | suffix in suffixes && EndsWith(table, suffix) :: table[..|table| - |suffix|]
  }

  function MetadataBases(table: string): set<string>
  {
    Bases(table, METADATA_SUFFIXES)
  }

  predicate DollarOnlyFirst(s: string)
  {
    s != [] && s[0] == '$' && forall i | 0 < i < |s| :: s[i] != '$'
  }

  lemma MetadataSuffixShape()
    ensures forall suffix | suffix in METADATA_SUFFIXES :: DollarOnlyFirst(suffix)
  {
  }

  lemma DollarSuffixUnique(table: string, s: string, t: string)
    requires DollarOnlyFirst(s) && DollarOnlyFirst(t)
    requires EndsWith(table, s) && EndsWith(table, t)
    ensures s == t
  {
    var i, j := |table| - |s|, |table| - |t|;
    assert table[i] == s[0] && table[j] == t[0];
    assert forall k | i < k < |table| :: table[k] == s[k - i];
    assert forall k | j < k < |table| :: table[k] == t[k - j];
  }

  lemma BasesExact(table: string, suffixes: seq<string>)
    requires forall s | s in suffixes :: DollarOnlyFirst(s)
    ensures |Bases(table, suffixes)| <= 1
    ensures Bases(table, suffixes) != {} <==> EndsWithAny(table, suffixes)
    ensures forall base | base in Bases(table, suffixes) :: exists s | s in suffixes :: base + s == table
    ensures forall s, t | s in suffixes && t in suffixes && EndsWith(table, s) && EndsWith(table, t) :: s == t
  {
    forall s, t | s in suffixes && t in suffixes && EndsWith(table, s) && EndsWith(table, t) ensures s == t {
      DollarSuffixUnique(table, s, t);
    }
    if EndsWithAny(table, suffixes) {
      var s :| s in suffixes && EndsWith(table, s);
      var base := table[..|table| - |s|];
      assert base + s == table;
      assert Bases(table, suffixes) == {base};
    } else {
      assert Bases(table, suffixes) == {};
    }
  }

  /** At most one metadata suffix ends any table name, so the split never conflicts; it
      succeeds exactly on metadata tables, and base plus suffix restores the name. */
  lemma MetadataSplit(table: string)
    ensures |MetadataBases(table)| <= 1
    ensures MetadataBases(table) != {} <==> IsMetadataTable(table)
    ensures forall base | base in MetadataBases(table) ::
              exists suffix | suffix in METADATA_SUFFIXES :: base + suffix == table
  {
    MetadataSuffixShape();
    BasesExact(table, METADATA_SUFFIXES);
  }

  function FindSuffix(table: string, suffixes: seq<string>): (suffix: string)
    requires EndsWithAny(table, suffixes)
    ensures suffix in suffixes && EndsWith(table, suffix)
  {
    if EndsWith(table, suffixes[0]) then suffixes[0] else FindSuffix(table, suffixes[1..])
  }

  function SplitBy(table: string, suffixes: seq<string>): (base: string)
    requires EndsWithAny(table, suffixes)
    ensures base in Bases(table, suffixes)
  {
    var suffix := FindSuffix(table, suffixes);
    table[..|table| - |suffix|]
  }

  /** The one base table, when there is one. */
  function SplitMetadataTableName(table: string): (base: string)
    requires IsMetadataTable(table)
    ensures base in MetadataBases(table)
  {
    SplitBy(table, METADATA_SUFFIXES)
  }
}
