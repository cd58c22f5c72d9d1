/**
 * The vector store as the core sees it: records of (id, embedding, metadata),
 * an index that answers similarity queries, and upserts issued in contiguous
 * batches of at most 100 records. The store itself is an external service: its
 * query answer is a function given to the index, and upserts are recorded in a
 * ghost log of batches.
 */
module VectorStore {
  import opened Wrappers
  import opened Text

  /** A metadata value: the JSON scalars the core writes and reads. */
  datatype Value = Str(s: string) | Int(i: int) | Bool(b: bool) | Null

  type Metadata = map<string, Value>

  /** An embedding; its entries are floating-point numbers in the source. */
  type Vector = seq<real>

  datatype VectorRecord = VectorRecord(id: string, values: Vector, metadata: Metadata)

  /** One match of a query, as the store returns it. */
  datatype Match = Match(id: string, score: real, metadata: Metadata)

  /** What a query call yields: the matches, or the message of the exception it raised. */
  datatype QueryOutcome = Matches(matches: seq<Match>) | QueryError(message: string)

  /** Python truthiness of a metadata value. */
  predicate Truthy(v: Value) {
    match v
    case Str(s) => s != ""
    case Int(i) => i != 0
    case Bool(b) => b
    case Null => false
  }

  /** `str(v)`, as an f-string renders a metadata value. */
  function ValueText(v: Value): string {
    match v
    case Str(s) => s
    case Int(i) => IntText(i)
    case Bool(b) => if b then "True" else "False"
    case Null => "None"
  }

  /** `m.get(key, default)` */
  function Get(m: Metadata, key: string, default: Value): Value {
    if key in m then m[key] else default
  }

  const BatchSize: nat := 100

  /** The batches `vectors[i:i + 100]` for `i` in `range(from, len(vectors), 100)`. */
  function Batches(vectors: seq<VectorRecord>, from: nat): seq<seq<VectorRecord>>
    decreases |vectors| - from
  {
    if from >= |vectors| then []
    else
      var upto := if from + BatchSize <= |vectors| then from + BatchSize else |vectors|;
      [vectors[from..upto]] + Batches(vectors, from + BatchSize)
  }

  function Flatten(batches: seq<seq<VectorRecord>>): seq<VectorRecord> {
    if |batches| == 0 then [] else batches[0] + Flatten(batches[1..])
  }

  /** The batches cover `vectors[from..]` exactly once, in order, each holding between 1
      and 100 records, and there are ceil((|vectors| - from) / 100) of them. */
  lemma {:induction false} BatchesPartition(vectors: seq<VectorRecord>, from: nat)
    requires from <= |vectors|
    ensures Flatten(Batches(vectors, from)) == vectors[from..]
    ensures forall b :: b in Batches(vectors, from) ==> 0 < |b| <= BatchSize
    ensures |Batches(vectors, from)| == (|vectors| - from + BatchSize - 1) / BatchSize
    decreases |vectors| - from
  {
    if from < |vectors| {
      if from + BatchSize <= |vectors| {
        BatchesPartition(vectors, from + BatchSize);
        assert vectors[from..] == vectors[from..from + BatchSize] + vectors[from + BatchSize..];
      } else {
        assert Batches(vectors, from + BatchSize) == [];
      }
    }
  }

  /** A vector index. `query` is the store's answer to a similarity query; `upserts`
      records every batch written to it, in order. */
  class VectorIndex {
    const query: (Vector, nat, Option<Metadata>) -> QueryOutcome
    ghost var upserts: seq<seq<VectorRecord>>

    constructor (query: (Vector, nat, Option<Metadata>) -> QueryOutcome)
      ensures this.query == query && upserts == []
    {
      this.query := query;
      upserts := [];
    }

    /** `index.upsert(vectors=batch)` */
    method Upsert(batch: seq<VectorRecord>)
      modifies this
      ensures upserts == old(upserts) + [batch]
    {
      upserts := upserts + [batch];
    }
  }

  /** The batch loop shared by document ingestion and the seed script: upserts
      `vectors[i:i + 100]` for `i` in `range(0, len(vectors), 100)` and counts the
      records written. */
  method UpsertInBatches(index: VectorIndex, vectors: seq<VectorRecord>) returns (total: nat)
    modifies index
    ensures index.upserts == old(index.upserts) + Batches(vectors, 0)
    ensures total == |vectors|
  {
    total := 0;
    var i: nat := 0;
    while i < |vectors|
      invariant total == if i <= |vectors| then i else |vectors|
      invariant old(index.upserts) + Batches(vectors, 0) == index.upserts + Batches(vectors, i)
      decreases |vectors| - i
    {
      var upto := if i + BatchSize <= |vectors| then i + BatchSize else |vectors|;
      var batch := vectors[i..upto];
      assert Batches(vectors, i) == [batch] + Batches(vectors, i + BatchSize);
      index.Upsert(batch);
      total := total + |batch|;
      i := i + BatchSize;
    }
  }
}
