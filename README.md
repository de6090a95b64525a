# Code editor backend services — a Dafny model

This project models the Python backend services of a code-intelligence editor. The editor indexes
a project's Python and JavaScript sources and answers several kinds of question about them.

Indexing:
- The project tree is walked, skipping dependency and build directories.
- Every symbol in every source file is embedded.
- The vectors are appended to the project's flat vector index, together with an aligned metadata log.
- A call graph is built: symbols are numbered, and an edge is added for each call that resolves to
  a known symbol.

Answering:
- **Usage**: the symbols a given symbol calls, and the symbols that call it.
- **Impact**: all transitive callers of a symbol, a risk level, and a narrated analysis.
- **Chat**: the five nearest stored symbols become numbered context snippets for the language
  model, and the answer comes back with truncated references.
- **Explain**: a prompt around submitted code, plus keyword heuristics that label the answer's
  complexity and flag issues.

Modules, one per service:

| module | file | models |
|---|---|---|
| `Common` | common.dfy | Option/Result, provider errors, string helpers, decimal rendering, the language-model oracle type |
| `Graph` | graph.dfy | the persisted call graph, loading it, callee/caller selection |
| `Usage` | usage.dfy | `get_usage` |
| `Impact` | impact.dfy | symbol lookup, transitive callers, risk level, the impact-analysis context, `analyze_impact` |
| `Embedding` | embedding.dfy | the per-project vector store: lock map, index and metadata files, append, search |
| `Indexing` | indexing.dfy | the project walk, per-file embedding, the call-graph builder, `index_project` |
| `Chat` | chat.dfy | context snippets, the user prompt, references, `process_chat` |
| `Explain` | explain.dfy | the explain prompt, the complexity and issues heuristics, `explain_code` |

Some parts of the system become parameters:
- The language model, the sentence-embedding model, the code parser and the nearest-neighbour
  search are oracles, given as function-valued parameters.
- The file system becomes values. A stored graph is a `GraphFile`. The index and metadata files are
  optional `IndexFile` and `MetadataFile` values, held in the `VectorStore` object's maps keyed by
  project id.
- The directory walk arrives as a sequence of `WalkedFile`s, in the order the walk yields them.
- Each write of a store file has one of three outcomes, given as a `WriteOutcome` parameter:
  - it completes;
  - `open` raises, and the file is as before;
  - the write raises after `open` truncated the file, which then no longer reads back.

Imperative code is modelled as methods with loop invariants, each proved against a specification
function:
- the breadth-first caller search;
- the context builders;
- the numbering and edge loops of the graph builder;
- the file walk;
- the store's search loop.

The vector store, whose lock and file maps are updated in place, is a class.

Behaviours of the code that the model keeps, and proves consequences of:
- **Append is not atomic.** The code writes the metadata log first and the index second, each in
  a separate write.
  - A failed index write therefore leaves the log ahead of the index (`Embedding.IndexWriteFailureLeavesLogAhead`).
  - A log write that fails after truncating the file loses every record stored before
    (`Embedding.MetadataWriteFailureLosesLog`).
  - An unreadable metadata file is read as an empty log, and an unreadable index as a fresh index.
    So an append that succeeds can still leave the two misaligned (`Embedding.CorruptLogBreaksAlignment`).
- **A failed file is dropped, not counted as empty.** A parse failure is swallowed by the parser
  and yields no symbols. An embedding failure part-way through a file drops that file's entry from
  the file list. The vectors embedded before the failure still go to the store, but those symbols
  are not added to the graph (`Indexing.IncompleteBatchStopsAtFailure`, `Indexing.FailedFileSkipped`).
- **Lookups take the first match.** Usage and impact take the first symbol with the given name
  and path; nothing checks that it is unique.

## Model

| member | source | states |
|---|---|---|
| Common.NatToStringRoundTrip | backend/services/impact_service.py:190-191 | the decimal rendering used in the "... and N more" lines reads back as the number it renders |
| Graph.LoadGraph | backend/services/usage_service.py:35-50 | a missing graph file is "not found", an undecodable one "invalid", an unreadable one a read error; otherwise the symbols and edges, absent keys read as empty |
| Graph.Callees | backend/services/usage_service.py:67 | an id is listed exactly when an edge runs from the symbol to it, and there are no more ids than edges |
| Graph.Callers | backend/services/usage_service.py:71 | an id is listed exactly when an edge runs from it to the symbol, and there are no more ids than edges |
| Graph.SelectSymbols | backend/services/usage_service.py:68 | a symbol is selected exactly when its id is wanted; the selection keeps table order (a subsequence), and each symbol occurs in it exactly as often as in the table when its id is wanted, and not at all otherwise |
| Usage.GetUsage | backend/services/usage_service.py:16-78 | each graph-file failure maps to its error; "symbol not found" exactly when no entry has the name and path; otherwise the first such entry, the symbols it calls and the symbols calling it, each exactly those joined by an edge, in table order, each entry as often as the table holds it |
| Usage.SelectionKeepsIdsDistinct | backend/services/usage_service.py:68-72 | when the table's ids are distinct, the call lists have no duplicates, however often an edge repeats |
| Impact.FindSymbol | backend/services/impact_service.py:40-45 | the first symbol with the given name and path, or "not found" exactly when none has them |
| Impact.BuildReverseEdges | backend/services/impact_service.py:63-69 | for each callee, the list of its callers, one entry per edge, in edge order |
| Impact.ScheduleCallers | backend/services/impact_service.py:80-84 | direct callers not yet visited are added both to the caller set and to the work list, and nothing else is added |
| Impact.TransitiveCallers | backend/services/impact_service.py:48-86 | the result is exactly the set of symbols other than the target with a call path to it, even when the target lies on a cycle, and each is the caller in some edge |
| Impact.ReachesStep | backend/services/impact_service.py:80-84 | a caller of a symbol that reaches the target also reaches the target |
| Impact.ClosedSetHoldsReachers | backend/services/impact_service.py:73-84 | a set that holds the target and the caller of every edge into its members holds every symbol that reaches the target |
| Impact.ReacherIsCaller | backend/services/impact_service.py:63-69 | any symbol that reaches the target is the source of some edge |
| Impact.AssessRiskLevel | backend/services/impact_service.py:210-221 | low exactly when affected plus dependencies is under 5, medium exactly from 5 to 14, high exactly from 15 up |
| Impact.RiskMonotone | backend/services/impact_service.py:210-221 | more affected symbols or more dependencies never lowers the risk level |
| Impact.AppendListing | backend/services/impact_service.py:186-199 | appends the listing: at most the limit's first lines, then an "... and N more" line exactly when lines were hidden |
| Impact.AppendDependencySection | backend/services/impact_service.py:185-191 | appends the dependency count line, then, when there are dependencies, the "Dependencies:" line and their listing |
| Impact.AppendAffectedSection | backend/services/impact_service.py:193-199 | appends the affected count line, then, when there are affected symbols, the "Affected symbols:" line and their listing |
| Impact.BuildImpactContext | backend/services/impact_service.py:170-207 | the context is the header, the proposed change when given, the dependency section, the affected section, and the four-point request |
| Impact.ListingShowsOnlyLeadingLines | backend/services/impact_service.py:188-191 | two lists with the same first lines and the same length give the same listing: later entries are never shown |
| Impact.ContextShowsAtMostLimits | backend/services/impact_service.py:185-199 | the context depends only on the first 10 dependencies, the first 15 affected symbols, and the two counts |
| Impact.ListingWithinLimit | backend/services/impact_service.py:188-191 | a list within the limit is shown in full, with no "more" line |
| Impact.ListingPastLimit | backend/services/impact_service.py:188-191 | a list past the limit shows its first lines and ends with a "more" line giving the number hidden |
| Impact.ProposedChangeOnlyWithDescription | backend/services/impact_service.py:182-183 | the proposed-change line is in the context exactly when the description is non-empty, and holds the description verbatim |
| Impact.ContextFrame | backend/services/impact_service.py:177-205 | the context opens with the header naming the target and closes with the four-point request |
| Impact.AffectedAreTransitiveCallers | backend/services/impact_service.py:121-124 | the affected symbols are exactly the table entries whose ids reach the target through calls, the target excluded |
| Impact.ImpactOfMeaning | backend/services/impact_service.py:121-167 | a successful analysis reports the target, exactly the table entries that reach it and exactly those it calls, both in table order, their counts, the risk level from those counts, and the model's answer to the context built from them; a failed one is the model's failure on that same context |
| Impact.AnalyzeTarget | backend/services/impact_service.py:121-167 | once the target is found, the result is the analysis of that target: the search's callers are exactly the reachers |
| Impact.AnalyzeImpact | backend/services/impact_service.py:89-167 | a graph load error propagates; no symbol with the name and path gives "not found"; otherwise the result is the analysis of the first matching symbol, its model failure included; a loaded graph with a matching symbol always gives a success or a model failure, and either implies the graph loaded and a first match exists |
| Embedding.CreateOrLoadIndex | backend/services/embedding_service.py:57-82 | a stored index that reads back is used as is; a missing or unreadable one becomes an empty index of the requested dimension |
| Embedding.LoadMetadata | backend/services/embedding_service.py:90-103 | a readable log gives its records; a missing or unreadable one gives the empty log |
| Embedding.AppendRejectsMismatch | backend/services/embedding_service.py:135-136 | unequal vector and metadata counts are rejected and neither file changes |
| Embedding.AppendEmptyIsNoOp | backend/services/embedding_service.py:138-139 | an empty batch passes and changes neither file |
| Embedding.AppendSuccess | backend/services/embedding_service.py:147-168 | with both writes succeeding, the index gains the vectors and the log gains the records, each appended in order |
| Embedding.AppendKeepsAligned | backend/services/embedding_service.py:117-172 | over readable files whose counts agree, every append that reports success leaves them readable with counts still agreeing |
| Embedding.MetadataWriteFailureLosesLog | backend/services/embedding_service.py:106-114 | a failed log write leaves the index as it was; the log too when `open` raised, otherwise it is truncated and reads back as empty |
| Embedding.IndexWriteFailureLeavesLogAhead | backend/services/embedding_service.py:163-168 | a failed index write after a successful log write leaves the index as before (or truncated and unreadable), the log longer than the index by the batch size, and the files misaligned |
| Embedding.CorruptLogBreaksAlignment | backend/services/embedding_service.py:147-168 | over a non-empty index and an unreadable log, a successful append leaves a log holding only the new records, shorter than the index |
| Embedding.PyIndex | backend/services/embedding_service.py:224 | Python list indexing: an index in range names itself, a negative one down to minus the length names the length plus the index, and any other index fails |
| Embedding.Assemble | backend/services/embedding_service.py:221-226 | no more results than hits, each record taken from the log |
| Embedding.Kept | backend/services/embedding_service.py:222-223 | the rows kept are exactly the rows whose position is below the log's length |
| Embedding.AssembleKeepsRowsInOrder | backend/services/embedding_service.py:221-226 | when no row lies below minus the log's length, the results are the kept rows in row order, each the record its position names (counted from the end when negative) with the row's distance |
| Embedding.AssembleFailsOnFarNegative | backend/services/embedding_service.py:224 | a row below minus the log's length makes the whole result loop fail |
| Embedding.AssembleInRange | backend/services/embedding_service.py:221-226 | when every hit position names a log entry, the assembly succeeds with one result per hit, the record at that position and the hit's distance as score |
| Embedding.SearchEmptyWhenNotIndexed | backend/services/embedding_service.py:190-211 | with no index file, no metadata file, an empty or unreadable index, or an empty or unreadable log, the search returns nothing |
| Embedding.SearchBound | backend/services/embedding_service.py:218-226 | at most min(k, stored vectors) results, each a record of the log |
| Embedding.AssembleStaysFailed | backend/services/embedding_service.py:231-236 | once a row's lookup raises (a position below minus the log's length), the whole result loop fails whatever rows follow, and the search returns nothing |
| Embedding.VectorStore.constructor | backend/services/embedding_service.py:19-21 | a new store has no locks and no files |
| Embedding.VectorStore.GetLock | backend/services/embedding_service.py:24-29 | the project's existing lock, or a fresh lock that is then recorded; no other state changes |
| Embedding.VectorStore.AddEmbeddings | backend/services/embedding_service.py:117-172 | the project's two files become exactly what the append specification gives; other projects' files are untouched; a batch refused for its length or empty leaves the lock map unchanged; any other gives the project a lock and keeps every existing one |
| Embedding.VectorStore.Search | backend/services/embedding_service.py:175-236 | the results are exactly the search specification over the project's two files; the store is unchanged |
| Indexing.SymbolMap | backend/services/indexing_service.py:147-152 | every symbol's (name, path) key is in the map |
| Indexing.SymbolMapLast | backend/services/indexing_service.py:147-152 | a key's id is the 1-based position of its last occurrence, so a later duplicate overwrites an earlier one |
| Indexing.NumberSymbols | backend/services/indexing_service.py:146-159 | the symbols are numbered 1, 2, ... in input order, keeping name, path and kind, and the map is the last-occurrence map |
| Indexing.FirstTarget | backend/services/indexing_service.py:175-189 | a found target is an eligible symbol: known, not the caller, and named by the call exactly or as a dotted suffix |
| Indexing.FindTarget | backend/services/indexing_service.py:175-189 | the loop finds the first eligible target, or none |
| Indexing.FirstTargetIsFirst | backend/services/indexing_service.py:175-189 | a target is found exactly when an eligible one exists, and it is the first in table order |
| Indexing.FirstMatchWins | backend/services/indexing_service.py:175-189 | when two symbols both match a call, the edge goes to the earlier one only |
| Indexing.CallEdges | backend/services/indexing_service.py:172-189 | at most one edge per call, each from the caller to an eligible target of one of its calls |
| Indexing.CallerEdges | backend/services/indexing_service.py:172-189 | the loop over one symbol's calls yields exactly its call edges |
| Indexing.CallEdgesFollowFirstTarget | backend/services/indexing_service.py:172-189 | the edges of a symbol are, call by call, the edge to that call's first target |
| Indexing.CollectEdges | backend/services/indexing_service.py:162-189 | the loop over all inputs yields exactly their edges, in input order |
| Indexing.BuildCallGraph | backend/services/indexing_service.py:135-194 | the symbols are numbered in input order and the edges are exactly the edge specification |
| Indexing.EdgesUpToSound | backend/services/indexing_service.py:164-189 | every edge leaves a processed symbol's id for an eligible target of one of its calls |
| Indexing.EdgeEndpoints | backend/services/indexing_service.py:164-189 | every edge joins two different symbol ids in range, both last occurrences of their keys, and the target is named by a call of the caller's key |
| Indexing.EdgesUpToBound | backend/services/indexing_service.py:164-189 | the first n symbols contribute no more edges than they have calls |
| Indexing.EdgeCountBound | backend/services/indexing_service.py:172-189 | the graph has no more edges than there are calls in total |
| Indexing.LanguageOf | backend/services/indexing_service.py:98 | a file is parsed as Python exactly when its name ends in ".py", otherwise as JavaScript |
| Indexing.EmbedSymbols | backend/services/indexing_service.py:104-131 | vectors and records stay in lockstep, each vector the embedding of its symbol's text and each record that symbol's metadata; a complete batch covers every symbol |
| Indexing.IncompleteBatchStopsAtFailure | backend/services/indexing_service.py:104-131 | an incomplete batch holds exactly the symbols before the first embedding failure |
| Indexing.IncompleteBatchStays | backend/services/indexing_service.py:104-131 | once a symbol's embedding fails, the batch stays incomplete whatever symbols follow |
| Indexing.EmbedSymbolsStep | backend/services/indexing_service.py:104-131 | after a complete prefix, the next symbol either adds its vector and its record, or ends the batch, keeping what was added |
| Indexing.IndexFile | backend/services/indexing_service.py:89-133 | the loop yields exactly the batch specification for the file's symbols |
| Indexing.WalkCounts | backend/services/indexing_service.py:35-63 | vectors and metadata stay in lockstep; the symbol total is the number of graph inputs and the sum over file records; there are no more records than files |
| Indexing.WalkRecordsOnlySources | backend/services/indexing_service.py:35-61 | every file record names a ".py" or ".js" file outside the excluded directories |
| Indexing.FailedFileSkipped | backend/services/indexing_service.py:45-63 | a file whose embedding fails adds no record and no graph input, but keeps the vectors embedded before the failure |
| Indexing.WalkMetadataMatchesGraph | backend/services/indexing_service.py:46-61 | when no embedding fails, metadata record i and graph input i have the same name, path and kind |
| Indexing.StepKeepsMetadataMatch | backend/services/indexing_service.py:46-55 | a file whose symbols all embed keeps metadata record i and graph input i describing the same symbol |
| Indexing.IndexOne | backend/services/indexing_service.py:40-63 | one walk step yields exactly the step specification |
| Indexing.AppendWithCalls | backend/services/indexing_service.py:49-55 | the file's symbols are appended as graph inputs, in symbol order, each with the file's path and its calls |
| Indexing.CollectFiles | backend/services/indexing_service.py:35-63 | the walk loop yields exactly the walk specification |
| Indexing.IndexProject | backend/services/indexing_service.py:21-87 | the store's files for the project become the append of the walk's vectors and metadata; the summary gives the files, the symbol total and the graph; a store error propagates; when the walk embedded nothing the lock map is unchanged, otherwise the project has a lock and every existing one is kept |
| Indexing.IndexingNeverMismatches | backend/services/indexing_service.py:78-79 | indexing never hands the store unequal vector and metadata counts |
| Chat.SnippetFrame | backend/services/chat_service.py:51-56 | a snippet opens with the file line ("unknown" when absent) and closes with the code verbatim |
| Chat.BuildContextSnippets | backend/services/chat_service.py:47-58 | one snippet per result, in result order |
| Chat.BuildUserPrompt | backend/services/chat_service.py:60-73 | the question line, then the numbered snippet blocks or the no-snippets notice, then the closing request |
| Chat.PromptFrame | backend/services/chat_service.py:62-71 | every prompt opens with the question line and closes with the request to answer from the context |
| Chat.PromptWithoutSnippets | backend/services/chat_service.py:68-69 | without snippets the prompt carries the notice that none were found |
| Chat.PromptListsEverySnippet | backend/services/chat_service.py:64-67 | every snippet appears in the prompt under a header numbered with its 1-based position |
| Chat.ReferenceOf | backend/services/chat_service.py:36-41 | a reference's snippet is a prefix of the code of at most 200 characters: the whole code when it is short enough, exactly 200 characters otherwise |
| Chat.References | backend/services/chat_service.py:35-43 | one reference per result, in result order |
| Chat.ProcessChat | backend/services/chat_service.py:11-45 | retrieves with k = 5 from the project's store, prompts with those results' snippets, returns the model's answer verbatim with one reference per result; a model failure propagates |
| Explain.FileLineIffProvided | backend/services/explain_service.py:30-34 | the prompt opens with a "File: " line exactly when a non-empty file path is given |
| Explain.LanguageLineIffProvided | backend/services/explain_service.py:30-35 | after the optional file line comes the language line when a non-empty language is given, else the code introduction |
| Explain.CodeIsFenced | backend/services/explain_service.py:36-37 | the submitted code appears verbatim between triple-backtick fences |
| Explain.Lower | backend/services/explain_service.py:52 | lowercasing keeps the length and maps each character on its own |
| Explain.LowerIdempotent | backend/services/explain_service.py:52 | lowercasing twice is lowercasing once |
| Explain.LowerKeepsOccurrence | backend/services/explain_service.py:52-53 | a marker found in the answer is found, lowercased, at the same place in the lowercased answer |
| Explain.LowMarkerWins | backend/services/explain_service.py:52-54 | a low-complexity marker in any letter case yields "low", whatever else the answer says |
| Explain.HighMarkerWithoutLow | backend/services/explain_service.py:55-56 | without a low marker, a high-complexity marker in any letter case yields "high" |
| Explain.HeuristicsIgnoreCase | backend/services/explain_service.py:52-61 | the complexity label and the issues hint are the same for the answer and its lowercase form |
| Explain.ExplainCodeStandalone | backend/services/explain_service.py:20-67 | succeeds exactly when the model answers; the explanation is the answer verbatim; issues holds the hint exactly when the answer mentions an issue, pitfall or problem; low exactly on a low marker, high exactly on a high marker without a low one |
| Explain.ExplainCode | backend/services/explain_service.py:10-18 | the result is the standalone explanation, whatever project id is given |

## Left out

- File-system I/O is not modelled: JSON reading and writing, path existence checks, directory creation and the walk itself. Files are values; the walk's order is an input.
- Saving the call graph: the code only logs a failed save, so the model does not represent the saved file.
- The sentence-embedding model, the vector index's distance computation, the code parser and the language-model HTTP client are oracles. Vectors are sequences of reals, and no distance is computed.
- Matrix stacking: stacking vectors of unequal length raises an error in the code. The model folds it into the dimension check, as `DimensionMismatch`.
- Concurrency: the per-project asyncio locks are modelled as a map that is filled on demand. Mutual exclusion and the lock that guards the map are not modelled; each method runs as one atomic step.
- Framework error wrapping: HTTP exception wrapping and the text of error details are not modelled. Provider errors keep a status and a detail string.
- Malformed JSON shapes are not modelled, such as an edge without a "from" key or a symbol that is not an object. Beyond missing, undecodable and unreadable files, the graph file is taken to be well-formed.
- The chat request's `context` field is never read by the code, and is not part of the model.
- Logging is not modelled.
- Explain.Lower: lowercases ASCII letters only, because Python's `str.lower` applies full Unicode case mapping, which is out of reach here. The keyword heuristics only look for ASCII markers, so this matters only for answers with non-ASCII capitals.
- Embedding.SearchBound: requires the neighbour oracle to return no more rows than requested, because the bound comes from the vector library, which is not part of this model.
- Embedding.VectorStore.Search: the index's `-1` padding for missing neighbours is handled as Python negative indexing, as in the code, which reads the last metadata record. No filtering of such rows is claimed.
- ExplainCode: the project-aware path ignores the project and defers to the standalone explanation, as the code does. No retrieval is modelled there.
