/** LakeKeeper's batch-check endpoint as the policies call it: check objects, chunking to
    the instance's limit, and the single-check `require_*` wrappers. */
module Lakekeeper {
  import opened Strings
  import opened Wrappers

  /** The LakeKeeper actions that the modelled operations ask for. */
  datatype Action = GetMetadata | ReadData | Select | ListEverything | GetConfig

  datatype Check =
    | WarehouseCheck(warehouse: string, user: string, action: Action)
    | NamespaceCheck(warehouse: string, namespace: seq<string>, user: string, action: Action)
    | TableCheck(warehouse: string, namespace: seq<string>, table: string, user: string, action: Action)
    | ViewCheck(warehouse: string, namespace: seq<string>, table: string, user: string, action: Action)

  /** What the policies see of the LakeKeeper instances. `maxBatch` holds the configured
      instances and their `max_batch_check_size`, if set; `warehouseId` is the lookup of a
      warehouse's id, and `send` one batch-check request. Either may be undefined. */
  datatype Service = Service(
    maxBatch: map<string, Option<int>>,
    warehouseId: (string, string) -> Option<string>,
    send: (string, seq<Check>) -> Option<seq<bool>>
  )

  const DEFAULT_MAX_BATCH := 1000

  /** The effective chunk size: never below one, whatever the setting. */
  function Limit(raw: Option<int>): (n: nat)
    ensures n >= 1
    ensures raw.None? ==> n == 1000
    ensures raw.Some? && raw.value >= 1 ==> n == raw.value
  {
    var size := if raw.Some? then raw.value else DEFAULT_MAX_BATCH;
    if size > 1 then size else 1
  }

  function CeilDiv(n: nat, m: nat): nat
    requires m > 0
  {
    (n + m - 1) / m
  }

  /** `array.slice`, which clamps both ends to the array. */
  function Slice<T>(xs: seq<T>, from: nat, to: nat): seq<T>
    requires from <= to
  {
    var lo := if from < |xs| then from else |xs|;
    var hi := if to < |xs| then to else |xs|;
    xs[lo..hi]
  }

  /** The slices that the comprehension over batch indices sends, in order. */
  function Chunks<T>(xs: seq<T>, size: nat): (r: seq<seq<T>>)
    requires size > 0
    ensures |r| == CeilDiv(|xs|, size)
  {
    seq(CeilDiv(|xs|, size), b requires 0 <= b => Slice(xs, b * size, b * size + size))
  }

  lemma CeilDivBounds(n: nat, m: nat)
    requires m > 0
    ensures n <= CeilDiv(n, m) * m < n + m
  {
    var q := CeilDiv(n, m);
    assert (n + m - 1) == m * q + (n + m - 1) % m;
  }

  lemma MulMono(a: nat, b: nat, m: nat)
    requires a <= b
    ensures a * m <= b * m
  {
  }

  lemma SliceSnoc<T>(xs: seq<T>, a: nat, size: nat)
    ensures Slice(xs, 0, a) + Slice(xs, a, a + size) == Slice(xs, 0, a + size)
  {
  }

  lemma ChunkAt<T>(xs: seq<T>, size: nat, b: nat, from: nat)
    requires size > 0 && b < |Chunks(xs, size)| && from == b * size
    ensures Chunks(xs, size)[b] == Slice(xs, from, from + size)
  {
  }

  lemma {:induction false} FlattenPrefix<T>(xs: seq<T>, size: nat, chunks: seq<seq<T>>, k: nat, upto: nat)
    requires size > 0 && chunks == Chunks(xs, size) && k <= |chunks| && upto == k * size
    ensures Flatten(chunks[..k]) == Slice(xs, 0, upto)
  {
    if k == 0 {
      assert chunks[..0] == [];
    } else {
      var from := (k - 1) * size;
      assert from + size == upto;
      FlattenPrefix(xs, size, chunks, k - 1, from);
      ChunkAt(xs, size, k - 1, from);
      SliceSnoc(xs, from, size);
      var last := chunks[k - 1];
      FlattenSnoc(chunks[..k - 1], last);
      assert chunks[..k] == chunks[..k - 1] + [last];
    }
  }

  lemma {:induction false} FlattenSnoc<T>(xss: seq<seq<T>>, last: seq<T>)
    ensures Flatten(xss + [last]) == Flatten(xss) + last
  {
    if xss == [] {
      assert [last][1..] == [];
    } else {
      FlattenSnoc(xss[1..], last);
      assert (xss + [last])[1..] == xss[1..] + [last];
      assert Flatten(xss + [last]) == xss[0] + (Flatten(xss[1..]) + last);
    }
  }

  lemma Distribute(a: nat, m: nat)
    ensures (a + 1) * m == a * m + m
  {
  }

  lemma ChunkFull<T>(xs: seq<T>, size: nat, b: nat)
    requires size > 0 && b + 1 < |Chunks(xs, size)|
    ensures |Chunks(xs, size)[b]| == size
  {
    var n := |Chunks(xs, size)|;
    CeilDivBounds(|xs|, size);
    MulMono(b + 1, n - 1, size);
    Distribute(b, size);
    Distribute(n - 1, size);
    ChunkAt(xs, size, b, b * size);
  }

  /** Chunking loses nothing and reorders nothing: the chunks are non-empty, within the
      size, full up to the last one, and concatenate to the original list. */
  lemma ChunksPartition<T>(xs: seq<T>, size: nat)
    requires size > 0
    ensures Flatten(Chunks(xs, size)) == xs
    ensures forall c | c in Chunks(xs, size) :: 1 <= |c| <= size
    ensures forall b | 0 <= b < |Chunks(xs, size)| - 1 :: |Chunks(xs, size)[b]| == size
  {
    var cs := Chunks(xs, size);
    CeilDivBounds(|xs|, size);
    FlattenPrefix(xs, size, cs, |cs|, |cs| * size);
    assert cs[..|cs|] == cs;
    assert Slice(xs, 0, |cs| * size) == xs;
    forall b | 0 <= b < |cs| ensures 1 <= |cs[b]| <= size {
      MulMono(b + 1, |cs|, size);
      assert (b + 1) * size == b * size + size;
      assert b * size < |xs|;
    }
    forall b | 0 <= b < |cs| - 1 ensures |cs[b]| == size {
      ChunkFull(xs, size, b);
    }
  }

  /** One request; undefined for an instance that is not configured. */
  function Send(lk: Service, id: string, checks: seq<Check>): Option<seq<bool>>
  {
    if id in lk.maxBatch then lk.send(id, checks) else None
  }

  /** The comprehension over chunks: a chunk whose request is undefined contributes nothing. */
  function CollectResults(lk: Service, id: string, chunks: seq<seq<Check>>): (r: seq<bool>)
  {
    if chunks == [] then []
    else
      var rest := CollectResults(lk, id, chunks[1..]);
      match Send(lk, id, chunks[0])
      case Some(results) => results + rest
      case None => rest
  }

  /** `batch_check_results`: undefined without checks or without a configured instance. */
  function BatchCheckResults(lk: Service, id: string, checks: seq<Check>): Option<seq<bool>>
  {
    if checks == [] || id !in lk.maxBatch then None
    else Some(CollectResults(lk, id, Chunks(checks, Limit(lk.maxBatch[id]))))
  }

  /** The body of every single-check `require_*` wrapper: one check, exactly one answer, true. */
  predicate Require(lk: Service, id: string, check: Check)
  {
    match Send(lk, id, [check])
    case Some(results) => |results| == 1 && results[0]
    case None => false
  }

  /** What LakeKeeper decides, per instance and check. */
  type Oracle = (string, Check) -> bool

  function Answers(oracle: Oracle, id: string, checks: seq<Check>): (r: seq<bool>)
    ensures |r| == |checks|
  {
    seq(|checks|, i requires 0 <= i < |checks| => oracle(id, checks[i]))
  }

  /** Every request that keeps to the instance's limit is answered in full. */
  ghost predicate AnsweredInFull(lk: Service, oracle: Oracle)
  {
    forall id, checks: seq<Check> | id in lk.maxBatch && 1 <= |checks| <= Limit(lk.maxBatch[id]) ::
      lk.send(id, checks) == Some(Answers(oracle, id, checks))
  }

  lemma {:induction false} CollectAnswers(lk: Service, oracle: Oracle, id: string, chunks: seq<seq<Check>>)
    requires AnsweredInFull(lk, oracle) && id in lk.maxBatch
    requires forall c | c in chunks :: 1 <= |c| <= Limit(lk.maxBatch[id])
    ensures CollectResults(lk, id, chunks) == Answers(oracle, id, Flatten(chunks))
  {
    if chunks != [] {
      assert chunks[0] in chunks;
      CollectAnswers(lk, oracle, id, chunks[1..]);
      var rest := Flatten(chunks[1..]);
      assert Answers(oracle, id, chunks[0] + rest) == Answers(oracle, id, chunks[0]) + Answers(oracle, id, rest);
    }
  }

  /** However the checks are cut into requests, result i answers check i. */
  lemma BatchAligned(lk: Service, oracle: Oracle, id: string, checks: seq<Check>)
    requires AnsweredInFull(lk, oracle) && id in lk.maxBatch && checks != []
    ensures BatchCheckResults(lk, id, checks) == Some(Answers(oracle, id, checks))
  {
    var size := Limit(lk.maxBatch[id]);
    ChunksPartition(checks, size);
    CollectAnswers(lk, oracle, id, Chunks(checks, size));
  }

  /** Whatever the instance answers, only a lone `true` is a yes. */
  lemma RequireNeedsOneTrue(lk: Service, id: string, check: Check)
    ensures Require(lk, id, check) <==> id in lk.maxBatch && lk.send(id, [check]) == Some([true])
  {
    if Require(lk, id, check) {
      assert lk.send(id, [check]).value == [true];
    }
  }

  /** A wrapper call says what the oracle says. */
  lemma RequireMeansOracle(lk: Service, oracle: Oracle, id: string, check: Check)
    requires AnsweredInFull(lk, oracle)
    ensures Require(lk, id, check) <==> id in lk.maxBatch && oracle(id, check)
  {
    assert id in lk.maxBatch ==> 1 <= |[check]| <= Limit(lk.maxBatch[id]);
  }

  /** An instance limited to single checks that only ever answers `c`. */
  function AnswersOnly(id: string, c: Check): Service
  {
    Service(map[id := Some(1)], (_, _) => None, (_, cs) => if cs == [c] then Some([true]) else None)
  }

  /** Without that premise alignment is lost: when the first of two chunks goes unanswered,
      the answer to the second check stands where the first one's should. */
  lemma UnansweredChunkShifts(id: string, c0: Check, c1: Check)
    requires c0 != c1
    ensures var lk := AnswersOnly(id, c1);
            BatchCheckResults(lk, id, [c0, c1]) == Some([true]) && !Require(lk, id, c0)
  {
    var lk := AnswersOnly(id, c1);
    assert [c0][0] != [c1][0];
    var cs: seq<seq<Check>> := Chunks([c0, c1], 1);
    assert CeilDiv(2, 1) == 2;
    assert cs[0] == [c0] && cs[1] == [c1];
    var rest := cs[1..];
    assert rest[1..] == [];
    assert CollectResults(lk, id, rest) == [true] + CollectResults(lk, id, rest[1..]);
    assert lk.send(id, [c0]) == None;
    assert CollectResults(lk, id, cs) == [true];
  }
}
