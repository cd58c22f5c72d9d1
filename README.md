# FinStack knowledge-base backend, modelled in Dafny

FinStack is a chat assistant backend for a fictional fintech company. This
project models its core:

- The **knowledge base** (`knowledge_base.py`):
  - a character-window chunker that prefers to cut at a sentence or line break;
  - semantic search over a vector index, and four wrappers that filter by document type;
  - assembly of the search results into the context handed to the language model;
  - document ingestion: chunk, embed, then upsert in batches of 100.
- The **seed script** (`ingest_to_pinecone.py`), which renders each sample record
  (employee, customer, financial record, project, knowledge article) as one
  searchable text and writes it with its metadata to the index.
- The **Jira client** (`jira_client.py`):
  - the Basic authentication header;
  - the choice of JQL query and the checks made before any request;
  - turning issues into tickets, and the error reports of a failed request;
  - the chat listing and the Slack notice of tickets.
- The **file processor** (`file_processor.py`), which turns an uploaded file into
  text according to its extension:
  - plain text, with the encoding fallbacks;
  - PDF pages, Word paragraphs and table rows, Excel sheets and rows, PowerPoint slides and shapes.
- The **request handlers** of `main.py`:
  - the Stream webhook's decision to answer a message and the channel the answer goes to;
  - the fallback reply when the language model fails;
  - the user record sent with a Stream token;
  - the channel a chat clear targets.

External services are parameters of the model and are not modelled:

- the embedding model;
- the vector store's query answer;
- the language model;
- Stream's signature check and channel calls;
- the JSON decoder;
- the HTTP exchange with Jira;
- the document parsers.

What the core does with their answers is modelled, including a failed vector-store query, a failed Jira request, a failed parser and a failed language-model call. Exceptions the core lets propagate are not modelled; they are listed under "Left out".

Code that loops in the source is modelled as methods with loop invariants. Each
such method is proved equal to a specification function, and the properties are
proved as lemmas about that function. Straight-line code is modelled as
functions. The vector index is a class whose ghost log records every upserted
batch.

Files:

- `wrappers.dfy`: `Option` and `Result`.
- `text.dfy`: Python string behaviour. This covers `strip`, `join`, `rfind`, `str(n)` and the `:,` money format.
- `codecs.dfy`: UTF-8 and Latin-1.
- `base64.dfy`: Base64.
- `json_data.dfy`: decoded JSON values, with Python truthiness and `str()`.
- `chunker.dfy`, `vector_store.dfy`, `knowledge_base.dfy`: the knowledge base.
- `seed_ingest.dfy`: the seed script.
- `jira.dfy`, `jira_format.dfy`: the Jira client.
- `file_processor.dfy`: the file processor.
- `webhook.dfy`: the request handlers.

## Model

| member | source | states |
|---|---|---|
| Text.RFind | backend/app/knowledge_base.py:326-327 | the result is -1 or an index of the string that holds the character |
| Text.RFindLast | backend/app/knowledge_base.py:326-327 | no occurrence of the character follows the reported index |
| Text.StripEmpty | backend/app/knowledge_base.py:334-337 | a stripped text is empty exactly when the text is whitespace only |
| Text.GroupedWithoutCommas | backend/scripts/ingest_to_pinecone.py:77 | deleting the commas of the `:,` rendering of n gives the decimal digits of n |
| Text.MoneyReadsBack | backend/scripts/ingest_to_pinecone.py:77 | a `$` amount starts with `$` (then `-` when negative), and its digits without commas parse back to the amount's magnitude |
| Codecs.Latin1Decode | backend/app/file_processor.py:111-113 | Latin-1 decoding never fails and gives one character per byte, with the byte's value as code point |
| Codecs.Utf8RoundTrip | backend/app/jira_client.py:43-44 | strict UTF-8 decoding of the encoding of any text gives the text back |
| Base64.RoundTrip | backend/app/jira_client.py:44 | Base64 decoding of the encoding of any byte string gives the bytes back |
| Base64.EncodeAlphabet | backend/app/jira_client.py:44 | an encoding uses only the 64-letter alphabet and `=` |
| Chunker.LastBreak | backend/app/knowledge_base.py:326-328 | the result is -1 or the position of a `.` or newline in the window |
| Chunker.LastBreakIsLast | backend/app/knowledge_base.py:326-328 | no `.` or newline follows the reported break |
| Chunker.CutBack | backend/app/knowledge_base.py:325-332 | scanning the window back from its last position, the end it finds lies at least `min(size, size/2 + 2)` and at most `size` past the start |
| Chunker.CutBackFindsLastBreak | backend/app/knowledge_base.py:325-332 | the backward scan ends just after the window's last `.` or newline when that break lies past the middle, and at the full size otherwise: the end `max(rfind('.'), rfind('\n'))` gives |
| Chunker.WindowEnd | backend/app/knowledge_base.py:321-332 | a window's end lies at least `min(size, size/2 + 2)` past its start and at most `size` past it |
| Chunker.WindowEndSnaps | backend/app/knowledge_base.py:325-332 | a window that reaches the end of the text, or has no break in its second half, keeps its full size; otherwise it ends just after its last break, which lies past the middle |
| Chunker.CutWindow | backend/app/knowledge_base.py:321-332 | the loop body's end is `WindowEnd` and its chunk is the text from start to that end |
| Chunker.ChunkText | backend/app/knowledge_base.py:316-337 | the loop returns `Chunks`: the stripped windows with the empty ones filtered out |
| Chunker.Chunks | backend/app/knowledge_base.py:316-337 | what `_chunk_text` returns: the stripped pieces of the windows, the empty ones dropped; characterised by `Chunker.ChunkText`, `Chunker.ChunksAreStrippedWindows`, `Chunker.BlankTextHasNoChunks`, `Chunker.ShortTextOneChunk` and `Chunker.LongerTextTail` |
| Chunker.NonEmptyKeeps | backend/app/knowledge_base.py:337 | the filter keeps exactly the non-empty strings |
| Chunker.WindowBounds | backend/app/knowledge_base.py:320-335 | every window is non-empty, at most `size` long, starts inside the text and ends where `WindowEnd` puts it |
| Chunker.WindowsChain | backend/app/knowledge_base.py:320-335 | there is a window exactly when the text is non-empty; the first starts at 0, each next one starts `overlap` before the previous end, and the last reaches the end of the text |
| Chunker.WindowsCover | backend/app/knowledge_base.py:320-335 | every character of the text lies in some window |
| Chunker.ChunksAreStrippedWindows | backend/app/knowledge_base.py:334-337 | every chunk is non-empty and is the stripped text of one window |
| Chunker.BlankTextHasNoChunks | backend/app/knowledge_base.py:316-337 | an empty or whitespace-only text gives no chunk |
| Chunker.ShortTextOneChunk | backend/app/knowledge_base.py:320-337 | a text no longer than `size - overlap` is one window, and gives its stripped self, or nothing when blank |
| Chunker.LongerTextTail | backend/app/knowledge_base.py:320-337 | a text longer than `size - overlap` but no longer than `size` has the whole text as its first window and its tail from `size - overlap` as its second; when that tail is not blank, the returned chunks begin with the stripped text and the stripped tail |
| Chunker.StallingWindow | backend/app/knowledge_base.py:320-335 | with size 10 and overlap 7, the first window of `abcdef.xyzabcdefghij` is cut at 7, so the next window starts at 0 again and the loop never ends |
| VectorStore.BatchesPartition | backend/app/knowledge_base.py:282-287 | the batches cover the records exactly once, in order, each holding 1 to 100 records, and there are ceil(n/100) of them |
| VectorStore.VectorIndex.Upsert | backend/app/knowledge_base.py:286 | an upsert appends its batch to the index's log |
| VectorStore.UpsertInBatches | backend/app/knowledge_base.py:281-288 | the loop upserts exactly the batches of `BatchesPartition`, in order, and counts every record |
| KnowledgeBase.RelevantCount | backend/app/knowledge_base.py:220-222 | the relevant prefix holds the leading results scoring at least 0.3, and stops at the first one below |
| KnowledgeBase.RelevantCountUnique | backend/app/knowledge_base.py:220-222 | any prefix of results scoring at least 0.3 that ends at the end or at a weak result is the relevant prefix |
| KnowledgeBase.Context | backend/app/knowledge_base.py:214-231 | the context `get_context_for_llm` builds from the results; characterised by `KnowledgeBase.ContextNoInformation`, `KnowledgeBase.ContextKeepsAllRelevant` and `KnowledgeBase.AssembleContext` |
| KnowledgeBase.ContextNoInformation | backend/app/knowledge_base.py:214-218 | the context is the "no relevant information" message exactly when there is no result or the first one scores below 0.3; otherwise it opens with the header |
| KnowledgeBase.ContextKeepsAllRelevant | backend/app/knowledge_base.py:220-231 | when every result reaches the threshold, every result gets its block, in order |
| KnowledgeBase.SourceBlockShape | backend/app/knowledge_base.py:224-229 | the n-th block names source n and shows the result's content; it has an access-level line exactly when the metadata's access level is set and truthy |
| KnowledgeBase.SourceBlocksCount | backend/app/knowledge_base.py:220-229 | each listed result contributes two or three lines |
| KnowledgeBase.AssembleContext | backend/app/knowledge_base.py:214-231 | the loop with its early `break` returns `Context` |
| KnowledgeBase.ChunkIdsDistinct | backend/app/knowledge_base.py:265 | two chunks of one document get different ids, whatever random tags were drawn |
| KnowledgeBase.ChunkMetadataOverrides | backend/app/knowledge_base.py:268-273 | chunk metadata keeps every caller key, and sets exactly `content`, `chunk_index` and `total_chunks` to the chunk, its position and the count |
| KnowledgeBase.ChunkRecordsDescribeChunks | backend/app/knowledge_base.py:263-279 | there is one record per chunk, in order; each carries its chunk's embedding, text, position and count; all ids differ |
| KnowledgeBase.IngestedRecords | backend/app/knowledge_base.py:281-288 | what ingestion writes, batch after batch, is exactly the chunk records, in batches of 1 to 100 |
| KnowledgeBase.KnowledgeBaseService.SearchResultsShape | backend/app/knowledge_base.py:61-129 | without an index, or when the query raises, the answer is the single sentinel; otherwise it is one result per match, in order, with the match's id, score and metadata and its `content` metadata (else "") as content; a result without an id has score 0.0 and no metadata |
| KnowledgeBase.KnowledgeBaseService.FailedSearchGivesNoContext | backend/app/knowledge_base.py:195-215 | a search without an index, or whose query raised, yields the "no relevant information" context |
| KnowledgeBase.KnowledgeBaseService.Search | backend/app/knowledge_base.py:61-129 | the search returns `SearchResults` |
| KnowledgeBase.KnowledgeBaseService.SearchEmployees | backend/app/knowledge_base.py:131-146 | searches the top 5 with the filter `doc_type = employee` |
| KnowledgeBase.KnowledgeBaseService.SearchCustomers | backend/app/knowledge_base.py:148-163 | searches the top 5 with the filter `doc_type = customer` |
| KnowledgeBase.KnowledgeBaseService.SearchFinancials | backend/app/knowledge_base.py:165-180 | searches the top 5 with the filter `doc_type = financial` |
| KnowledgeBase.KnowledgeBaseService.SearchProjects | backend/app/knowledge_base.py:182-193 | searches the top 5 with the filter `doc_type = project` |
| KnowledgeBase.KnowledgeBaseService.GetContextForLlm | backend/app/knowledge_base.py:195-231 | the context is `Context` of an unfiltered search for `maxResults` matches |
| KnowledgeBase.KnowledgeBaseService.IngestDocument | backend/app/knowledge_base.py:233-297 | without an index it fails with "Pinecone index not available"; otherwise it writes the batches of the chunk records and reports the chunk count twice and the filename (else "unknown") |
| SeedIngest.EmployeeContentShape | backend/scripts/ingest_to_pinecone.py:70-95 | the part count grows by one for each set optional field; the headline, team and salary come first; the manager, equity, skills and current-project parts each sit at their fixed place when their field is set, with the rating and start date always between the equity and the skills; the text opens with the headline and contains the salary |
| SeedIngest.CustomerContactDefaults | backend/scripts/ingest_to_pinecone.py:98-120 | there are ten fixed parts plus the two optional ones; a missing primary contact reads "N/A" everywhere and a missing active-user count reads 0 |
| SeedIngest.CustomerContentShowsContact | backend/scripts/ingest_to_pinecone.py:100-106 | the contact's email and phone always appear in the customer text |
| SeedIngest.BreakdownItemsEach | backend/scripts/ingest_to_pinecone.py:136-138 | there is one `name: $amount` entry per breakdown item, in order |
| SeedIngest.FinancialContentShape | backend/scripts/ingest_to_pinecone.py:123-160 | the text starts with the record type, then has six, five, four or no type-specific parts (plus the breakdown for a budget), then the notes when set |
| SeedIngest.ProjectContentShape | backend/scripts/ingest_to_pinecone.py:163-188 | the part count grows by one for each set optional field; the five fixed parts come first, then the tech stack, launch date, budget, team size and risks parts, each at its place in that order when its field is set, the risks last; the text starts with the project name |
| SeedIngest.KnowledgeContentForm | backend/scripts/ingest_to_pinecone.py:191-203 | the article body appears verbatim as the fourth part, and the last-updated part appears only when set |
| SeedIngest.KnowledgeRecordAccess | backend/scripts/ingest_to_pinecone.py:361-381 | an article is confidential exactly when its category is `security_incident` or `technical`; its access level is its own, else `all_employees` |
| SeedIngest.RecordsWritten | backend/scripts/ingest_to_pinecone.py:216-240 | one record per item, in order, and an ingestion run writes exactly those records in batches of 1 to 100 |
| SeedIngest.IngestAll | backend/scripts/ingest_to_pinecone.py:214-240 | the shared loop upserts the batches of the items' records |
| SeedIngest.IngestEmployees | backend/scripts/ingest_to_pinecone.py:206-242 | upserts the batches of the employee records |
| SeedIngest.IngestCustomers | backend/scripts/ingest_to_pinecone.py:245-280 | upserts the batches of the customer records |
| SeedIngest.IngestFinancials | backend/scripts/ingest_to_pinecone.py:283-313 | upserts the batches of the financial records |
| SeedIngest.IngestProjects | backend/scripts/ingest_to_pinecone.py:316-348 | upserts the batches of the project records |
| SeedIngest.IngestCompanyKnowledge | backend/scripts/ingest_to_pinecone.py:351-387 | upserts the batches of the knowledge records |
| Jira.AuthHeader | backend/app/jira_client.py:38-45 | the Basic authentication header; characterised by `Jira.AuthHeaderDecodes` |
| Jira.AuthHeaderDecodes | backend/app/jira_client.py:38-45 | the header exists exactly when email and token are both set; it starts with `Basic `, and Base64-then-UTF-8 decoding of the rest gives `email:token` |
| Jira.SelectJql | backend/app/jira_client.py:81-89 | the JQL query sent; characterised by `Jira.SelectJqlChoice` |
| Jira.SelectJqlChoice | backend/app/jira_client.py:81-89 | a given query is used verbatim; the caller's project key wins over the configured one; the 30-day fallback is used exactly when neither is set |
| Jira.Normalize | backend/app/jira_client.py:118-142 | one issue turned into a ticket, or skipped; characterised by `Jira.NormalizeDefaults` and `Jira.TicketsCount` |
| Jira.NormalizeDefaults | backend/app/jira_client.py:118-142 | an issue is skipped exactly when its `fields` is a truthy non-object; a kept ticket falls back to "N/A", "No summary" and "Unassigned", and links to the raw key |
| Jira.TicketsCount | backend/app/jira_client.py:118-142 | there is at most one ticket per issue, and exactly one when no issue is malformed |
| Jira.NormalizeIssues | backend/app/jira_client.py:118-142 | the loop with its `continue` returns `Tickets` |
| Jira.SearchPreconditions | backend/app/jira_client.py:64-177 | no request is made without a domain, then without both credentials; a failure has no ticket and a total of 0; a search succeeds exactly when the request does; HTTP errors report "Jira API error" and other exceptions "Error querying Jira: " and their text |
| Jira.SearchTickets | backend/app/jira_client.py:48-177 | the search returns `SearchOutcome` |
| TicketFormat.DisplayEntriesNumbered | backend/app/jira_client.py:187-194 | entry i shows ticket i, numbered i + 1 |
| TicketFormat.DisplayHeaderFirst | backend/app/jira_client.py:182-185 | the listing is "No tickets found." exactly when there is no ticket; otherwise it starts with the header giving the count |
| TicketFormat.DisplayListsTicket | backend/app/jira_client.py:185-196 | every ticket's numbered entry occurs in the listing |
| TicketFormat.AppendDisplayEntries | backend/app/jira_client.py:187-194 | the loop appends the numbered entries of all tickets |
| TicketFormat.FormatTicketsForDisplay | backend/app/jira_client.py:180-196 | the listing is `Display` |
| TicketFormat.SlackCounts | backend/app/jira_client.py:199-217 | the notice states the full count, lists at most ten tickets, and has one more line exactly when there are more than ten |
| TicketFormat.SlackListsTicket | backend/app/jira_client.py:207-212 | the i-th of the first ten tickets is on line 3 + i |
| TicketFormat.SlackMore | backend/app/jira_client.py:214-215 | with more than ten tickets, the last line says how many were not listed |
| TicketFormat.AppendSlackEntries | backend/app/jira_client.py:207-212 | the loop appends one entry per ticket |
| TicketFormat.FormatTicketsForSlack | backend/app/jira_client.py:199-217 | the notice is the header, the first ten entries and the overflow line, joined by newlines |
| FileProcessor.ExtensionTypeListed | backend/app/file_processor.py:41-51 | an extension has a handler exactly when it is one of the nine listed |
| FileProcessor.SuffixShape | backend/app/file_processor.py:65 | a suffix is empty, or a dot and at least one further character, with no other dot, ending but not starting the name |
| FileProcessor.Lower | backend/app/file_processor.py:65 | lower-casing keeps the length and maps each character |
| FileProcessor.ExtensionIgnoresCase | backend/app/file_processor.py:65 | the extension is already lower case |
| FileProcessor.PlainTextReading | backend/app/file_processor.py:108-116 | any UTF-8-encoded text reads back unchanged; invalid UTF-8 is read one character per byte |
| FileProcessor.ExtractTextPlain | backend/app/file_processor.py:108-116 | the encoding loop returns the UTF-8 reading, else the Latin-1 reading, so it never reaches cp1252 or the error |
| FileProcessor.NonBlankMembers | backend/app/file_processor.py:144-154 | a text is kept exactly when it is listed and not blank |
| FileProcessor.RowOfCellsNotBlank | backend/app/file_processor.py:152-154 | a row of two or more cells joined by ` \| ` is never blank |
| FileProcessor.PdfKeepsPage | backend/app/file_processor.py:127-133 | every non-blank page appears, labelled with its number from 1 |
| FileProcessor.PdfPartIsPage | backend/app/file_processor.py:127-133 | every part is a non-blank page under its label |
| FileProcessor.ExtractTextPdf | backend/app/file_processor.py:119-133 | the page loop returns the labelled non-blank pages joined by blank lines |
| FileProcessor.WordParagraphsFirst | backend/app/file_processor.py:144-147 | the leading parts are exactly the non-blank paragraphs |
| FileProcessor.WordRowsKept | backend/app/file_processor.py:150-154 | no table row of two or more cells is dropped |
| FileProcessor.AppendWordRows | backend/app/file_processor.py:151-154 | the row loop appends the non-blank rows of one table |
| FileProcessor.ExtractTextDocx | backend/app/file_processor.py:136-156 | returns the non-blank paragraphs, then the non-blank table rows, joined by blank lines |
| FileProcessor.ExcelLabelsEverySheet | backend/app/file_processor.py:168-170 | every sheet's label appears, even for a sheet without rows |
| FileProcessor.SheetRowKept | backend/app/file_processor.py:172-175 | a row of two or more cells is kept even when every cell is empty |
| FileProcessor.AppendSheetRows | backend/app/file_processor.py:172-175 | the row loop appends the non-blank rows of one sheet |
| FileProcessor.ExtractTextExcel | backend/app/file_processor.py:159-177 | returns each sheet's label and its non-blank rows, joined by blank lines |
| FileProcessor.ShapePartsMembers | backend/app/file_processor.py:192-194 | a text is kept exactly when some shape has it and it is not blank |
| FileProcessor.PptxLabelsEverySlide | backend/app/file_processor.py:189-190 | every slide's label, numbered from 1, appears |
| FileProcessor.AppendShapeTexts | backend/app/file_processor.py:192-194 | the shape loop appends the non-blank shape texts of one slide |
| FileProcessor.ExtractTextPptx | backend/app/file_processor.py:180-196 | returns each slide's label and its non-blank shape texts, joined by blank lines |
| FileProcessor.Extract | backend/app/file_processor.py:54-105 | what `extract_text` returns for a file; characterised by `FileProcessor.ExtractOutcome` and `FileProcessor.ExtractText` |
| FileProcessor.ExtractOutcome | backend/app/file_processor.py:54-105 | a file is refused exactly when its extension is unlisted, and the refusal lists exactly the nine extensions; for a listed file, a handler that yields text gives an extraction reporting the name, the type and the text length, and a handler failure gives "Error processing " + the name + ": " + the handler's message |
| FileProcessor.ExtractText | backend/app/file_processor.py:54-105 | the dispatch returns `Extract` |
| Webhook.SplitCid | backend/app/main.py:193 | there is no split exactly when the cid has no colon; otherwise the channel type has no colon and type `:` id is the cid |
| Webhook.SplitCidJoined | backend/app/main.py:192-193 | splitting undoes joining a colon-free type to any id |
| Webhook.HandleWebhook | backend/app/main.py:150-241 | what `stream_webhook` does with a request; characterised by `Webhook.UnsignedRefused` and `Webhook.RepliesExactlyWhenAnswerable` |
| Webhook.UnsignedRefused | backend/app/main.py:165-166 | a request is refused with 401 exactly when its signature is missing, empty or invalid |
| Webhook.RepliesExactlyWhenAnswerable | backend/app/main.py:168-239 | a signed event is answered exactly when it is a new regular non-empty message with a user other than the bot and a `type:id` cid; the answer goes to that channel, with the model's reply to the stripped text; the bot is never answered |
| Webhook.FallbackEchoes | backend/app/main.py:217-222 | the fallback reply is the fixed apology followed by the user's text unchanged |
| Webhook.FailedModelStillAnswers | backend/app/main.py:206-222 | when the model call fails, the reply still ends with the user's text |
| Webhook.StreamUser | backend/app/main.py:114-118 | the user record has the id; it has the name and the image exactly when they are given and non-empty; it has no other key |
| Webhook.SupportChannels | backend/app/main.py:135-138 | different users have different support channels, and the cid `messaging:support-<user>` splits back into that channel |
| Webhook.ClearChat | backend/app/main.py:128-148 | the outcome of `clear_chat`; characterised by `Webhook.ClearChatTargetsSupportChannel` |
| Webhook.ClearChatTargetsSupportChannel | backend/app/main.py:133-148 | clearing succeeds exactly when truncating the user's `messaging` support channel does; otherwise the exception's text is reported |

## Left out

- Logging and `print` output everywhere, the startup banners and the environment checks at import time are not modelled.
- The embedding model is a parameter. Its numbers, normalisation and dimension are not modelled, and neither is index creation.
- The `user_id` argument of `search` and its wrappers is never used for access control in the source, so the model drops it.
- KnowledgeBase.KnowledgeBaseService.GetContextForLlm: the `:.2f` score rendering is a parameter, because the scores are floating point.
- KnowledgeBase.KnowledgeBaseService.IngestDocument: the source raises `ValueError` when there is no index; the model returns the same message as a `Failure`.
- The random 8-hex-digit tag of a chunk id is drawn by a parameter (`uuid4` is randomness). The running `total_upserted` only feeds a log line and is not modelled.
- Chunker.ChunkText: requires the overlap to be less than `min(size, size/2 + 2)`, which makes every window advance. Outside this bound the source loop may not terminate for some texts (see Findings), while it still terminates on others, such as texts with no break in a window's second half; those are not covered. The defaults (500, 50) satisfy the bound.
- KnowledgeBase.KnowledgeBaseService.Search: an exception from the embedding model propagates out of `search` and `get_context_for_llm`, because the query embedding is computed before the `try`. The model's `embed` is total, so it does not capture this exception.
- KnowledgeBase.KnowledgeBaseService.IngestDocument: an exception from the embedding model or from an `upsert` propagates. When an upsert fails, the earlier batches stay written. The model's `embed` is total and `Upsert` cannot fail, so neither exception nor the partial write is captured.
- SeedIngest.IngestAll: an exception from the embedding model or from an `upsert` propagates out of each seed loop and leaves the earlier batches written. This is not captured, for the same reason.
- KnowledgeBase.SourceBlock: a non-string `content` metadata value is rendered as text. The source appends it raw, and `"\n".join` then raises `TypeError`; the model does not capture that exception.
- VectorStore.Value: has no floating-point or list values. Metadata holding them, from the caller of `ingest_document` or from the store, is not covered.
- Chunker.ChunkText: `chunk_size * 0.5` is compared as a float; the model compares `2 * break_point > chunk_size`, which is the same test on integers.
- SeedIngest: the JSON files, `main()`, its index wait and its test query are not modelled. Records are typed datatypes rather than dictionaries, so a `KeyError` for a missing required key cannot arise. Numbers are integers, so float amounts are not covered.
- SeedIngest: a field read with `.get` that is present but null is not modelled.
- Jira: the HTTP exchange is the parameter `fetch`. The rendering of Jira's `errorMessages` list is given as text in `FetchError`. The HTTP timeout is not modelled.
- Jira: a non-object entry in `issues` makes the source's own error handler raise, and it becomes an "Error querying Jira" report. The model's issues are always objects.
- JsonData.Show renders lists and objects as placeholders, not Python's `repr`.
- JsonData.Json: numbers are integers only; a floating-point value from `json.loads`, such as a float-valued Jira field, is not covered.
- FileProcessor: `lower()` is modelled on ASCII letters only.
- FileProcessor: `Path` normalisation is modelled as dropping trailing slashes and taking the last `/` component; Windows separators are not modelled.
- FileProcessor: the cp1252 attempt is a parameter. It is unreachable because Latin-1 accepts every byte string, and so is the "Could not decode" error.
- FileProcessor: the "Handler not implemented" branch is unreachable because every listed extension maps to a handler.
- FileProcessor: the parsers are parameters. A missing library and a parser exception both become the parser's `Failure` message.
- FileProcessor: a PowerPoint shape without a `text` attribute is a `None` shape. An Excel cell's `str()` is given as text.
- Webhook: the HMAC signature check, the JSON decoder and the language model are parameters.
- Webhook: the typing-indicator events are not modelled; their failures are caught and only logged.
- Webhook: a failing `send_message` is a server error in the source and is not modelled.
- Webhook: `json.loads` failing, a non-object payload and a `cid` without a colon are all the single outcome `Raised` (HTTP 500).
- The `/chat` echo endpoint, the health check, CORS and the Stream token signing are not modelled. `slack_client.py` and `delete_by_filename.py` are not part of this model.

## Findings

| source | as written | input that shows it | evidently intended | confidence | as-written member | corrected member |
|---|---|---|---|---|---|---|
| backend/app/knowledge_base.py:320-335 | the next start is `end - chunk_overlap` with no check that it moved forward, so a window cut at a break can send the loop back to where it started | text `abcdef.xyzabcdefghij`, size 10, overlap 7: the first window ends at 7 and the next starts at 0 again, forever | parameters that cannot advance are refused rather than looping | high, not executed | Chunker.StallingWindow | Chunker.ChunkText |
