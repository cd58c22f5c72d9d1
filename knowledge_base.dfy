/**
 * The knowledge-base service: semantic search over the vector index, the
 * category-filtered search wrappers, the assembly of retrieved results into
 * the context handed to the language model, and document ingestion (chunk,
 * embed, upsert in batches).
 *
 * The embedding model is the function `embed`, the index is a `VectorIndex`
 * (or null when the service could not connect to it), the random 8-hex-digit
 * tag in each chunk id is drawn from `tags`, and the `:.2f` rendering of a
 * relevance score is the function `scoreText`.
 */
module KnowledgeBase {
  import opened Wrappers
  import opened Text
  import opened VectorStore
  import Chunker

  /** One entry of a search answer; the sentinel entries carry no id. */
  datatype SearchResult = SearchResult(content: Value, score: real, metadata: Metadata, id: Option<string>)

  const NotAvailableMessage := "Knowledge base not available. Please run the ingestion script first."
  const NoInformationMessage := "No relevant information found in knowledge base."
  const ContextHeader := "Here is relevant information from the knowledge base:\n"
  const IndexMissingMessage := "Pinecone index not available"
  const RelevanceThreshold: real := 0.3

  /** The single result returned when there is no index. */
  function NotAvailableResult(): SearchResult {
    SearchResult(Str(NotAvailableMessage), 0.0, map[], None)
  }

  /** The single result returned when the index query raised `message`. */
  function QueryErrorResult(message: string): SearchResult {
    SearchResult(Str("Error searching knowledge base: " + message), 0.0, map[], None)
  }

  /** A match reshaped as a result: the chunk text is the `content` metadata entry. */
  function FromMatch(m: Match): SearchResult {
    SearchResult(Get(m.metadata, "content", Str("")), m.score, m.metadata, Some(m.id))
  }

  /** The metadata filter `{"doc_type": docType}`. */
  function DocTypeFilter(docType: string): Option<Metadata> {
    Some(map["doc_type" := Str(docType)])
  }

  // ---------------------------------------------------------------------------
  // Context for the language model

  /** How many leading results reach the relevance threshold. */
  function RelevantCount(rs: seq<SearchResult>): (k: nat)
    ensures k <= |rs|
    ensures forall j :: 0 <= j < k ==> rs[j].score >= RelevanceThreshold
    ensures k < |rs| ==> rs[k].score < RelevanceThreshold
  {
    if |rs| == 0 || rs[0].score < RelevanceThreshold then 0 else 1 + RelevantCount(rs[1..])
  }

  /** The lines contributed by the `n`-th result (numbered from 1). */
  function SourceBlock(n: nat, r: SearchResult, scoreText: real -> string): seq<string> {
    var accessLevel := Get(r.metadata, "access_level", Null);
    ["\n[Source " + Decimal(n) + "] (Relevance: " + scoreText(r.score) + ")", ValueText(r.content)]
    + (if Truthy(accessLevel) then ["[Access Level: " + ValueText(accessLevel) + "]"] else [])
  }

  /** The blocks of `rs`, numbered 1 to |rs|. */
  function SourceBlocks(rs: seq<SearchResult>, scoreText: real -> string): seq<string> {
    if |rs| == 0 then []
    else SourceBlocks(rs[..|rs| - 1], scoreText) + SourceBlock(|rs|, rs[|rs| - 1], scoreText)
  }

  /** The context string for a list of search results. */
  function Context(results: seq<SearchResult>, scoreText: real -> string): string {
    if |results| == 0 || results[0].score < RelevanceThreshold then NoInformationMessage
    else Join("\n", [ContextHeader] + SourceBlocks(results[..RelevantCount(results)], scoreText))
  }

  /** The context is the "no information" message exactly when there is no result or
      the best (first) one is below the threshold; otherwise it opens with the header. */
  lemma ContextNoInformation(results: seq<SearchResult>, scoreText: real -> string)
    ensures Context(results, scoreText) == NoInformationMessage
            <==> |results| == 0 || results[0].score < RelevanceThreshold
    ensures !(|results| == 0 || results[0].score < RelevanceThreshold) ==>
            StartsWith(Context(results, scoreText), ContextHeader)
  {
    if !(|results| == 0 || results[0].score < RelevanceThreshold) {
      var parts := [ContextHeader] + SourceBlocks(results[..RelevantCount(results)], scoreText);
      JoinStartsWithFirst("\n", parts);
      var c := Join("\n", parts);
      assert |NoInformationMessage| < |ContextHeader| <= |c|;
    }
  }

  lemma RelevantCountAll(rs: seq<SearchResult>)
    requires forall j :: 0 <= j < |rs| ==> rs[j].score >= RelevanceThreshold
    ensures RelevantCount(rs) == |rs|
  {
  }

  /** A prefix whose results all reach the threshold, ending at the end or at a weak
      result, is the relevant prefix. */
  lemma RelevantCountUnique(rs: seq<SearchResult>, i: nat)
    requires i <= |rs| && forall j :: 0 <= j < i ==> rs[j].score >= RelevanceThreshold
    requires i < |rs| ==> rs[i].score < RelevanceThreshold
    ensures RelevantCount(rs) == i
  {
  }

  lemma SourceBlocksStep(rs: seq<SearchResult>, i: nat, scoreText: real -> string)
    requires i < |rs|
    ensures SourceBlocks(rs[..i + 1], scoreText) == SourceBlocks(rs[..i], scoreText) + SourceBlock(i + 1, rs[i], scoreText)
  {
    assert rs[..i + 1][..i] == rs[..i];
  }

  /** When every result reaches the threshold, each one gets its block, in order. */
  lemma ContextKeepsAllRelevant(results: seq<SearchResult>, scoreText: real -> string)
    requires |results| > 0
    requires forall j :: 0 <= j < |results| ==> results[j].score >= RelevanceThreshold
    ensures Context(results, scoreText) == Join("\n", [ContextHeader] + SourceBlocks(results, scoreText))
  {
    RelevantCountAll(results);
    assert results[..|results|] == results;
  }

  /** A block names its source number, and shows the access level exactly when it is set. */
  lemma SourceBlockShape(n: nat, r: SearchResult, scoreText: real -> string)
    ensures var b := SourceBlock(n, r, scoreText);
            StartsWith(b[0], "\n[Source " + Decimal(n) + "]") && b[1] == ValueText(r.content)
            && (|b| == 3 <==> "access_level" in r.metadata && Truthy(r.metadata["access_level"]))
  {
    var b := SourceBlock(n, r, scoreText);
    var head := "\n[Source " + Decimal(n) + "]";
    assert b[0] == head + (" (Relevance: " + scoreText(r.score) + ")");
    assert b[0][..|head|] == head;
  }

  lemma {:induction false} SourceBlocksCount(rs: seq<SearchResult>, scoreText: real -> string)
    ensures 2 * |rs| <= |SourceBlocks(rs, scoreText)| <= 3 * |rs|
  {
    if |rs| > 0 {
      SourceBlocksCount(rs[..|rs| - 1], scoreText);
    }
  }

  /** The loop of `get_context_for_llm` over the search results. */
  method AssembleContext(results: seq<SearchResult>, scoreText: real -> string) returns (context: string)
    ensures context == Context(results, scoreText)
  {
    if |results| == 0 || results[0].score < RelevanceThreshold {
      return NoInformationMessage;
    }
    var parts := [ContextHeader];
    var i := 0;
    while i < |results|
      invariant i <= |results|
      invariant forall j :: 0 <= j < i ==> results[j].score >= RelevanceThreshold
      invariant parts == [ContextHeader] + SourceBlocks(results[..i], scoreText)
    {
      if results[i].score < RelevanceThreshold {
        break;
      }
      SourceBlocksStep(results, i, scoreText);
      parts := parts + SourceBlock(i + 1, results[i], scoreText);
      i := i + 1;
    }
    RelevantCountUnique(results, i);
    context := Join("\n", parts);
  }

  // ---------------------------------------------------------------------------
  // Ingestion

  /** The eight lowercase hexadecimal digits `uuid.uuid4().hex[:8]`. */
  predicate IsHexDigit(c: char) {
    '0' <= c <= '9' || 'a' <= c <= 'f'
  }

  type Hex8 = s: string | |s| == 8 && forall k :: 0 <= k < |s| ==> IsHexDigit(s[k])
    witness "00000000"

  /** The id of chunk `i`: `{filename or "doc"}_{tag}_{i}`. */
  function ChunkId(metadata: Metadata, tag: Hex8, i: nat): string {
    ValueText(Get(metadata, "filename", Str("doc"))) + "_" + tag + "_" + Decimal(i)
  }

  /** The caller's metadata with `content`, `chunk_index` and `total_chunks` set. */
  function ChunkMetadata(metadata: Metadata, chunk: string, i: nat, total: nat): Metadata {
    metadata["content" := Str(chunk)]["chunk_index" := Int(i)]["total_chunks" := Int(total)]
  }

  function ChunkRecord(metadata: Metadata, chunks: seq<string>, i: nat, tag: Hex8,
                       embed: string -> Vector): VectorRecord
    requires i < |chunks|
  {
    VectorRecord(ChunkId(metadata, tag, i), embed(chunks[i]), ChunkMetadata(metadata, chunks[i], i, |chunks|))
  }

  function ChunkRecords(metadata: Metadata, chunks: seq<string>, tags: nat -> Hex8,
                        embed: string -> Vector): seq<VectorRecord>
  {
    seq(|chunks|, i requires 0 <= i < |chunks| => ChunkRecord(metadata, chunks, i, tags(i), embed))
  }

  datatype IngestSummary = IngestSummary(status: string, chunksCreated: nat, vectorsUpserted: nat,
                                         filename: Value)

  /** The ids of two different chunks of one document differ, whatever tags were drawn:
      they end in different chunk numbers after the same-length prefix. */
  lemma ChunkIdsDistinct(metadata: Metadata, tag1: Hex8, tag2: Hex8, i: nat, j: nat)
    requires i != j
    ensures ChunkId(metadata, tag1, i) != ChunkId(metadata, tag2, j)
  {
    var id1, id2 := ChunkId(metadata, tag1, i), ChunkId(metadata, tag2, j);
    var d1, d2 := Decimal(i), Decimal(j);
    if |d1| == |d2| && id1 == id2 {
      assert id1[|id1| - |d1|..] == d1;
      assert id2[|id2| - |d2|..] == d2;
      ParseDecimalOfDecimal(i);
      ParseDecimalOfDecimal(j);
    }
  }

  /** The chunk metadata keeps every caller key, overriding exactly the three it sets. */
  lemma ChunkMetadataOverrides(metadata: Metadata, chunk: string, i: nat, total: nat)
    ensures var m := ChunkMetadata(metadata, chunk, i, total);
            m.Keys == metadata.Keys + {"content", "chunk_index", "total_chunks"}
            && m["content"] == Str(chunk) && m["chunk_index"] == Int(i) && m["total_chunks"] == Int(total)
            && forall k :: k in metadata && k !in {"content", "chunk_index", "total_chunks"} ==> m[k] == metadata[k]
  {
  }

  /** The record of chunk `i` of `total` carries the chunk's embedding, and its metadata
      holds the chunk text, the position and the chunk count. */
  predicate DescribesChunk(r: VectorRecord, chunk: string, i: nat, total: nat, embed: string -> Vector) {
    r.values == embed(chunk)
    && "content" in r.metadata && r.metadata["content"] == Str(chunk)
    && "chunk_index" in r.metadata && r.metadata["chunk_index"] == Int(i)
    && "total_chunks" in r.metadata && r.metadata["total_chunks"] == Int(total)
  }

  /** One record per chunk, in chunk order, each describing its chunk; all ids differ. */
  lemma ChunkRecordsDescribeChunks(metadata: Metadata, chunks: seq<string>, tags: nat -> Hex8,
                                   embed: string -> Vector)
    ensures var rs := ChunkRecords(metadata, chunks, tags, embed);
            |rs| == |chunks|
            && (forall i :: 0 <= i < |rs| ==> DescribesChunk(rs[i], chunks[i], i, |chunks|, embed))
            && (forall i, j :: 0 <= i < j < |rs| ==> rs[i].id != rs[j].id)
  {
    var rs := ChunkRecords(metadata, chunks, tags, embed);
    forall i | 0 <= i < |rs| ensures DescribesChunk(rs[i], chunks[i], i, |chunks|, embed) {
      assert rs[i] == ChunkRecord(metadata, chunks, i, tags(i), embed);
      ChunkMetadataOverrides(metadata, chunks[i], i, |chunks|);
    }
    forall i, j | 0 <= i < j < |rs| ensures rs[i].id != rs[j].id {
      assert rs[i].id == ChunkId(metadata, tags(i), i) && rs[j].id == ChunkId(metadata, tags(j), j);
      ChunkIdsDistinct(metadata, tags(i), tags(j), i, j);
    }
  }

  /** What ingestion writes, batch after batch, is exactly the chunk records in order,
      in batches of 1 to 100 records. */
  lemma IngestedRecords(metadata: Metadata, chunks: seq<string>, tags: nat -> Hex8, embed: string -> Vector)
    ensures Flatten(Batches(ChunkRecords(metadata, chunks, tags, embed), 0)) == ChunkRecords(metadata, chunks, tags, embed)
    ensures forall b :: b in Batches(ChunkRecords(metadata, chunks, tags, embed), 0) ==> 0 < |b| <= BatchSize
  {
    var records := ChunkRecords(metadata, chunks, tags, embed);
    BatchesPartition(records, 0);
    assert records[0..] == records;
  }

  // ---------------------------------------------------------------------------
  // The service

  class KnowledgeBaseService {
    const index: VectorIndex?
    const embed: string -> Vector

    constructor (index: VectorIndex?, embed: string -> Vector)
      ensures this.index == index && this.embed == embed
    {
      this.index := index;
      this.embed := embed;
    }

    /** What a search answers: the not-available sentinel without an index, the error
        sentinel when the query raises, otherwise the matches reshaped in order. */
    function SearchResults(query: string, topK: nat, filters: Option<Metadata>): seq<SearchResult> {
      if index == null then [NotAvailableResult()]
      else match index.query(embed(query), topK, filters)
        case QueryError(message) => [QueryErrorResult(message)]
        case Matches(ms) => seq(|ms|, k requires 0 <= k < |ms| => FromMatch(ms[k]))
    }

    /** Every answer is non-empty unless the store returned no match; a result carries an
        id exactly when it comes from a match, and then its content is the match's
        `content` metadata (or the empty string). */
    lemma SearchResultsShape(query: string, topK: nat, filters: Option<Metadata>)
      ensures var rs := SearchResults(query, topK, filters);
              (index == null ==> rs == [NotAvailableResult()])
              && (index != null && index.query(embed(query), topK, filters).QueryError? ==>
                    rs == [QueryErrorResult(index.query(embed(query), topK, filters).message)])
              && (index != null && index.query(embed(query), topK, filters).Matches? ==>
                    var ms := index.query(embed(query), topK, filters).matches;
                    |rs| == |ms|
                    && forall k :: 0 <= k < |ms| ==>
                         rs[k].id == Some(ms[k].id) && rs[k].score == ms[k].score
                         && rs[k].metadata == ms[k].metadata
                         && rs[k].content == (if "content" in ms[k].metadata then ms[k].metadata["content"] else Str("")))
              && (forall r :: r in rs && r.id.None? ==> r.score == 0.0 && r.metadata == map[])
    {
    }

    /** A failed search (no index, or a raised query) never yields context. */
    lemma FailedSearchGivesNoContext(query: string, topK: nat, filters: Option<Metadata>,
                                     scoreText: real -> string)
      requires index == null || index.query(embed(query), topK, filters).QueryError?
      ensures Context(SearchResults(query, topK, filters), scoreText) == NoInformationMessage
    {
    }

    /** `search`: one query to the index, each match reshaped in order. */
    method Search(query: string, topK: nat, filters: Option<Metadata>) returns (results: seq<SearchResult>)
      ensures results == SearchResults(query, topK, filters)
    {
      if index == null {
        return [NotAvailableResult()];
      }
      var outcome := index.query(embed(query), topK, filters);
      match outcome {
        case QueryError(message) =>
          results := [QueryErrorResult(message)];
        case Matches(ms) =>
          results := [];
          var k := 0;
          while k < |ms|
            invariant k <= |ms| && |results| == k
            invariant forall j :: 0 <= j < k ==> results[j] == FromMatch(ms[j])
          {
            results := results + [FromMatch(ms[k])];
            k := k + 1;
          }
      }
    }

    method SearchEmployees(query: string) returns (results: seq<SearchResult>)
      ensures results == SearchResults(query, 5, DocTypeFilter("employee"))
    {
      results := Search(query, 5, DocTypeFilter("employee"));
    }

    method SearchCustomers(query: string) returns (results: seq<SearchResult>)
      ensures results == SearchResults(query, 5, DocTypeFilter("customer"))
    {
      results := Search(query, 5, DocTypeFilter("customer"));
    }

    method SearchFinancials(query: string) returns (results: seq<SearchResult>)
      ensures results == SearchResults(query, 5, DocTypeFilter("financial"))
    {
      results := Search(query, 5, DocTypeFilter("financial"));
    }

    method SearchProjects(query: string) returns (results: seq<SearchResult>)
      ensures results == SearchResults(query, 5, DocTypeFilter("project"))
    {
      results := Search(query, 5, DocTypeFilter("project"));
    }

    /** `get_context_for_llm`: search without a filter, then list the results up to the
        first one below the relevance threshold. */
    method GetContextForLlm(query: string, maxResults: nat, scoreText: real -> string) returns (context: string)
      ensures context == Context(SearchResults(query, maxResults, None), scoreText)
    {
      var results := Search(query, maxResults, None);
      context := AssembleContext(results, scoreText);
    }

    /** `ingest_document`: chunk the content, build one record per chunk, upsert them in
        batches of 100, and report the counts. */
    method IngestDocument(content: string, metadata: Metadata, chunkSize: nat, chunkOverlap: nat,
                          tags: nat -> Hex8) returns (r: Result<IngestSummary, string>)
      requires Chunker.Progresses(chunkSize, chunkOverlap)
      modifies index
      ensures index == null ==> r == Failure(IndexMissingMessage)
      ensures index != null ==>
                var chunks := Chunker.Chunks(content, chunkSize, chunkOverlap);
                r == Success(IngestSummary("success", |chunks|, |chunks|, Get(metadata, "filename", Str("unknown"))))
                && index.upserts == old(index.upserts) + Batches(ChunkRecords(metadata, chunks, tags, embed), 0)
    {
      if index == null {
        return Failure(IndexMissingMessage);
      }
      var chunks := Chunker.ChunkText(content, chunkSize, chunkOverlap);
      var vectors := [];
      var i := 0;
      while i < |chunks|
        invariant i <= |chunks| && |vectors| == i
        invariant forall j :: 0 <= j < i ==> vectors[j] == ChunkRecord(metadata, chunks, j, tags(j), embed)
      {
        var chunkId := ValueText(Get(metadata, "filename", Str("doc"))) + "_" + tags(i) + "_" + Decimal(i);
        var embedding := embed(chunks[i]);
        var chunkMetadata := metadata["content" := Str(chunks[i])]["chunk_index" := Int(i)]["total_chunks" := Int(|chunks|)];
        vectors := vectors + [VectorRecord(chunkId, embedding, chunkMetadata)];
        i := i + 1;
      }
      assert vectors == ChunkRecords(metadata, chunks, tags, embed);
      var _ := UpsertInBatches(index, vectors);
      r := Success(IngestSummary("success", |chunks|, |vectors|, Get(metadata, "filename", Str("unknown"))));
    }
  }
}
