# CASALIOY core, modelled in Dafny

CASALIOY answers questions about a user's documents with a locally run
language model. `ingest` loads files by extension, splits them into chunks,
embeds them and upserts them into a Qdrant collection under ids derived from
the chunk text. `startLLM` builds a question-answering system over that store:
a "stuff" chain packs as many retrieved documents as the context window allows
and generates once; a "refine" chain generates once per document, each time
refining the previous answer. Around these sit the settings read from the
environment, the path arithmetic that decides whether a model must be
downloaded, a LibGen document picker, and the older top-level scripts.

The model keeps the repository's own logic and turns every collaborator into
a parameter:

- the language model's `predict` and `get_num_tokens`;
- the retriever's search;
- the file loaders, the text splitter and the embedder;
- the MD5 digest;
- file-system tests and the Hugging Face download.

The language model is a class that records every prompt the modelled chains
send it, so "exactly one generation call" is a postcondition. The library
chains prompt it from library code, which the log does not see. The vector store is a class
holding a map from collection names to collections, updated in place.

Modules, one per source file (plus shared ones):

| module | file | models |
|---|---|---|
| `Wrappers` | wrappers.dfy | `Option`, `Result`, `Outcome`; a Python exception becomes `Failure(name)` |
| `Text` | text.dfy | the `str` operations the code relies on: `strip`, `lower`, `split`, `join`, `replace`, `int()` |
| `Prompts` | prompts.dfy | LangChain prompt templates as literal and placeholder segments |
| `Collaborators` | collaborators.dfy | documents, the language model, the retriever |
| `Packing` | packing.dfy | the accumulate, measure, roll-back loop both stuff chains share |
| `CustomChains` | custom_chains.dfy | casalioy/CustomChains.py |
| `BetterChain` | better_chain.dfy | casalioy/better_chain.py |
| `Ingest` | ingest.dfy | casalioy/ingest.py |
| `LegacyIngest` | legacy_ingest.dfy | ingest.py |
| `Utils` | utils.dfy | casalioy/utils.py |
| `AskLibgen` | ask_libgen.dfy | casalioy/ask_libgen.py |
| `StartLlm` | start_llm.dfy | casalioy/startLLM.py |
| `LegacyStartLlm` | legacy_start_llm.dfy | startLLM.py |
| `LoadEnv` | load_env.dfy | casalioy/load_env.py |
| `LegacyLoadEnv` | legacy_load_env.dfy | load_env.py |

## Model

| member | source | states |
|---|---|---|
| CustomChains.WithRetrievalCounts | casalioy/CustomChains.py:24 | the merged search settings hold the old keys plus `k` and `fetch_k`; `k` is the forward count, `fetch_k` the retrieve count, and every other setting keeps its value |
| CustomChains.WithRetrievalCountsIdempotent | casalioy/CustomChains.py:24 | overriding the counts twice with the same values is overriding them once, so the second override in `QASystem.__init__` changes nothing |
| CustomChains.ExtractsTextInOrder | casalioy/CustomChains.py:70 | the extract of document `j` is numbered `j + 1` and follows, in order, the extracts of all documents before it |
| CustomChains.ExtractsTextStart | casalioy/CustomChains.py:70 | a non-empty extract list starts with `Extract 1: ` and the first document's text |
| CustomChains.ContextPromptStr | casalioy/CustomChains.py:68-71 | definition: the numbered extracts of the documents, stripped |
| CustomChains.ContextPromptStrShape | casalioy/CustomChains.py:68-71 | no documents give the empty context; otherwise the context is the extracts with trailing whitespace removed, and it starts with `Extract 1` because the extracts do not start with whitespace |
| CustomChains.StuffPromptFormattable | casalioy/CustomChains.py:46-65 | the default stuff prompt declares exactly its placeholders, `question` and `context`, the names the chain supplies |
| CustomChains.StuffKept | casalioy/CustomChains.py:73-83 | definition: the longest prefix the packing loop keeps under `model_n_ctx - max_tokens` |
| CustomChains.StuffKeptWithinBudget | casalioy/CustomChains.py:75-83 | when a document is kept, the final prompt was measured and is within `model_n_ctx - max_tokens` |
| CustomChains.StuffDroppedOverflows | casalioy/CustomChains.py:78-83 | the first document left out is the one whose addition pushed the measured prompt over the budget |
| CustomChains.StuffQA.constructor | casalioy/CustomChains.py:20-24 | keeps the model and retriever, falls back to the default prompt, and merges the document counts into the retriever's settings |
| CustomChains.StuffQA.Call | casalioy/CustomChains.py:73-87 | a prompt whose placeholders are not exactly `question` and `context` raises before any generation; otherwise exactly one `predict` on the prompt built from the packed prefix, whose answer is returned with exactly the kept documents as sources |
| CustomChains.SeedPromptFormattable | casalioy/CustomChains.py:93-112 | the refine chain's first-step prompt declares exactly `question` and `context` |
| CustomChains.RefinePromptFormattable | casalioy/CustomChains.py:114-143 | the refine prompt declares exactly `question`, `context` and `previous_answer` |
| CustomChains.SeedTextCarries | casalioy/CustomChains.py:151-153 | the first-step prompt contains the question and the document's text |
| CustomChains.RefineTextCarries | casalioy/CustomChains.py:154-155 | every refine prompt contains the previous answer and the new document's text |
| CustomChains.RefineRun | casalioy/CustomChains.py:145-160 | one call per document, the first on the seed prompt and each later one on the refine prompt with the previous answer |
| CustomChains.RefineRunPrefix | casalioy/CustomChains.py:149-156 | running the loop on the first `j` documents makes exactly the first `j` calls of running it on all of them |
| CustomChains.RefineRunSteps | casalioy/CustomChains.py:149-156 | call `i` answers its own prompt; call 0 uses the seed prompt on the first document, and every later call the refine prompt with document `i` and the previous call's answer |
| CustomChains.RefineQA.constructor | casalioy/CustomChains.py:20-24 | keeps the collaborators, installs the two refine templates (both fitting the names the loop supplies), and merges the document counts |
| CustomChains.RefineQA.CallStep | casalioy/CustomChains.py:151-156 | one pass of the loop extends the run by exactly the call the fold prescribes, and the model's prompt log by its prompt |
| CustomChains.RefineQA.Call | casalioy/CustomChains.py:145-160 | one `predict` per retrieved document, in order, as the fold prescribes; the result is the last answer, or `"None"` when nothing was retrieved, and every retrieved document is a source |
| Packing.Packed | casalioy/CustomChains.py:74-83 | the kept documents are a prefix of the retrieved list |
| Packing.PackedPrefixesFit | casalioy/CustomChains.py:75-83 | every non-empty prefix of the kept documents was measured and passed the budget test |
| Packing.PackedStopsAtFirstOverflow | casalioy/CustomChains.py:78-83 | packing stops only at the end of the list or at the first document whose addition fails the test |
| Packing.PackedUnique | casalioy/CustomChains.py:74-83 | the kept prefix is the only prefix that is all fitting and followed by a misfit or the end |
| Packing.PackedIsLongestFitting | casalioy/CustomChains.py:74-83 | when dropping a document never breaks a fitting prompt, packing keeps the longest prefix that fits |
| Packing.PackPrefix | casalioy/CustomChains.py:74-83 | the append, measure, pop-and-break loop computes exactly `Packed` |
| BetterChain.BetterStuffPromptFormattable | casalioy/better_chain.py:25-39 | the revised prompt declares exactly `question` and `context` |
| BetterChain.ContextPromptStr | casalioy/better_chain.py:41-47 | the `+=` loop computes the header followed by the numbered extracts, stripped (`HeadedContext`) |
| BetterChain.HeadedContextEmpty | casalioy/better_chain.py:44-47 | with no documents the context is `"Context\n------"` |
| BetterChain.HeadedContextExtends | casalioy/better_chain.py:44-47 | with documents the context is the header followed by exactly the context casalioy/CustomChains.py builds from them |
| BetterChain.BetterKeptWithinBudget | casalioy/better_chain.py:61-70 | when a document is kept, the final prompt was measured and fits the budget |
| BetterChain.BetterDroppedOverflows | casalioy/better_chain.py:65-70 | the first document left out is the one that overflowed |
| BetterChain.StuffQA.constructor | casalioy/better_chain.py:49-53 | keeps the collaborators, falls back to the default prompt and merges the document counts |
| BetterChain.StuffQA.Call | casalioy/better_chain.py:59-74 | a mismatched prompt raises before any generation; otherwise exactly one `predict` on the prompt of the packed prefix, under `model_n_ctx - 2 * max_tokens`, whose text alone is returned |
| Collaborators.LanguageModel.Predict | casalioy/CustomChains.py:156 | a generation call logs its prompt and returns the model's answer to it |
| Text.LowerIsY | casalioy/ingest.py:146 | `s.lower() == "y"` holds exactly for `"y"` and `"Y"` |
| Text.StripPadding | casalioy/startLLM.py:125 | whitespace around a line does not change its `strip()` |
| Text.SplitLast | ingest.py:33 | the last piece of `s.split(c)` is what follows the last `c` |
| Text.JoinSplit | casalioy/load_env.py:31 | joining the pieces of a split on the same separator gives the string back |
| Text.SplitJoin | casalioy/load_env.py:31 | splitting a join recovers the pieces when none holds the separator |
| Text.Strip | casalioy/startLLM.py:125 | definition: `str.strip()` removing whitespace at both ends |
| Text.Split | casalioy/load_env.py:31 | `str.split(c)`: at least one piece, none holding the separator |
| Text.ParseInt | casalioy/load_env.py:17 | definition: `int()` of a string: optional sign and ASCII digits inside whitespace, else no value |
| Text.ParseIntOfNat | casalioy/load_env.py:17 | `int(str(n))` is `n` for every count |
| Ingest.Suffix | casalioy/ingest.py:61 | `PurePath.suffix` is empty, or a dot-led tail of the name with no other dot that neither starts the name nor is its last character |
| Ingest.LoadOneDoc | casalioy/ingest.py:57-66 | definition: the loader the table registers for the suffix without its dot reads the file; an unregistered or missing suffix yields nothing |
| Ingest.LoadOneDocDispatch | casalioy/ingest.py:35-66 | a file `stem.ext` is read by the loader registered for `ext`, compared case-sensitively, and yields nothing when `ext` is not registered |
| Ingest.LoadOneDocUpperCaseSkipped | casalioy/ingest.py:61-64 | a `.PDF` file is skipped |
| Ingest.LoadOneDocNoSuffix | casalioy/ingest.py:61-64 | a name without a dot is skipped |
| Ingest.LoadOneDocHiddenFile | casalioy/ingest.py:61-64 | a hidden file such as `.txt` has no suffix and is skipped |
| Ingest.Zip | casalioy/ingest.py:74 | vectors and chunks are paired by position, as long as the shorter list |
| Ingest.EmbedAligned | casalioy/ingest.py:73-74 | each chunk is paired with the vector computed at its own position |
| Ingest.MaxVectorLen | casalioy/ingest.py:84 | the size is the length of some vector of the batch and no vector is longer |
| Ingest.UpsertAll | casalioy/ingest.py:100-107 | the ids after an upsert are the old ids plus the batch's |
| Ingest.UpsertAllOutside | casalioy/ingest.py:100-107 | a point whose id the batch does not mention is left alone |
| Ingest.UpsertAllLast | casalioy/ingest.py:100-107 | the last point of the batch with a given id is the one stored under it |
| Ingest.UpsertAllIdempotent | casalioy/ingest.py:100-107 | upserting a batch twice is upserting it once |
| Ingest.UpsertAllAppend | casalioy/ingest.py:100-107 | upserting a concatenation is upserting one part after the other |
| Ingest.Store | casalioy/ingest.py:76-107 | definition: an existing collection takes the batch upserted under the digests of the texts; a missing one is created with the longest vector's size first, which raises `ValueError` for an empty batch |
| Ingest.StoreKeepsContentAddressed | casalioy/ingest.py:103 | after a batch is stored, every id is still the digest of the text stored under it |
| Ingest.StoredChunk | casalioy/ingest.py:95-105 | a chunk no later chunk collides with is stored under the digest of its text, with its own vector, text and metadata |
| Ingest.StoreKnownTextsKeepsCount | casalioy/ingest.py:100-107 | a batch whose texts are all stored already adds no point |
| Ingest.StoreFails | casalioy/ingest.py:80-92 | storing fails exactly when the collection is missing and the batch is empty (`max` of nothing) |
| Ingest.StoreKeepsExisting | casalioy/ingest.py:80-92 | an existing collection is never recreated: it keeps its size and the points outside the batch |
| Ingest.StoreSizesNewCollection | casalioy/ingest.py:82-92 | a new collection is sized by the longest vector of the batch that creates it |
| Ingest.StoreTwice | casalioy/ingest.py:76-107 | storing the same batch a second time changes nothing |
| Ingest.NothingLoadedNothingStored | casalioy/ingest.py:115-117 | a file whose loader yields nothing leaves the collection unchanged |
| Ingest.FileBatch | casalioy/ingest.py:112-121 | definition: a file yields nothing when its loader does, and otherwise its split chunks paired with their vectors |
| Ingest.IngestBatches | casalioy/ingest.py:123-136 | definition: the files are stored one after the other, and the first failure ends the run with the collection as it was before that file |
| Ingest.FileBatchesAt | casalioy/ingest.py:130-136 | the batch at position `i` is what the `i`th walked file yields |
| Ingest.IngestBatchesStep | casalioy/ingest.py:135 | a run from file `i` stores that file's batch, then goes on, or stops with its error |
| Ingest.IngestIntoExisting | casalioy/ingest.py:123-136 | into an existing collection, ingestion never fails and upserts every batch in turn |
| Ingest.IngestResult | casalioy/ingest.py:123-136 | a successful run upserts every batch in turn, keeps an existing collection's size, and ends without a collection only when none existed before |
| Ingest.IngestIdempotent | casalioy/ingest.py:123-136 | ingesting the same files again after a successful run changes nothing |
| Ingest.CleanDbDecision | casalioy/ingest.py:145-150 | definition: with an existing database, a `cleandb` lower-casing to `y` deletes it, exactly `n` asks and deletes on an answer lower-casing to `y`, and anything else keeps it |
| Ingest.CleanDbRule | casalioy/ingest.py:145-150 | an existing database is deleted exactly for `cleandb` `y` or `Y`, or exactly `n` with a `y` or `Y` answer; the user is asked only when the database exists and `cleandb` is exactly `n` |
| Ingest.Ingester.constructor | casalioy/ingest.py:47-55 | no lock, splitter or embedder yet; the extension table is the class's |
| Ingest.Ingester.StoreEmbeddings | casalioy/ingest.py:76-107 | the ingester's collection becomes the stored collection, or on failure nothing changes; no other collection changes |
| Ingest.Ingester.EmbedDocumentsWithProgress | casalioy/ingest.py:68-74 | the chunk texts are embedded, zipped back with their chunks and stored |
| Ingest.Ingester.ProcessOneDoc | casalioy/ingest.py:112-121 | the lock is kept; the collection becomes what storing the file's batch gives, unchanged when nothing was loaded; other collections are untouched |
| Ingest.Ingester.ProcessNth | casalioy/ingest.py:135 | processing the `i`th walked file stores the `i`th batch of the run |
| Ingest.Ingester.IngestFromDirectory | casalioy/ingest.py:123-137 | splitter and embedder are set, and the collection and outcome are those of ingesting the walked files in turn, stopping at the first failure |
| Ingest.IngestMain | casalioy/ingest.py:140-152 | ingestion starts from an empty store exactly when the delete rule says so, and from the existing store otherwise |
| LegacyIngest.UnhandledNamesExtension | ingest.py:32-33 | the error names everything after the last dot of the path |
| LegacyIngest.UnhandledNamesWholePath | ingest.py:32-33 | a path without a dot is named whole |
| LegacyIngest.EndsWithDotExt | ingest.py:22-31 | for a name `stem.ext`, ending in `.e` means having extension `e` |
| LegacyIngest.LoaderFor | ingest.py:20-33 | definition: the `endswith` chain from `.txt` to `.html`, with no loader for anything else |
| LegacyIngest.LoaderForExtension | ingest.py:20-33 | the `endswith` chain is the extension table restricted to txt, pdf, csv, epub and html, with no loader for anything else |
| LegacyIngest.LoadAllSpec | ingest.py:48-51 | definition: the documents of the first `n` files in order, or the error of the first of them without a loader |
| LegacyIngest.LoadAllFails | ingest.py:48-51 | loading fails exactly when some file has no loader, and then with the error of the first such file |
| LegacyIngest.LoadAllStops | ingest.py:48-51 | once loading has failed, later files change nothing |
| LegacyIngest.LoadAll | ingest.py:48-51 | the loop's `+=` of every file's documents computes the specification, stopping at the first unhandled file |
| LegacyIngest.IngestAll | ingest.py:38-58 | the delete decision follows the same rule; every file is loaded before anything is split, a failed load indexes nothing, and otherwise all documents are split with 500/50 into collection `test` |
| Utils.EscapeOne | casalioy/utils.py:27 | form feed becomes a space, backspace a backslash, every other character is kept, and the length is unchanged |
| Utils.EscapeOneClean | casalioy/utils.py:27 | an escaped string holds neither control character |
| Utils.EscapeOneIdempotent | casalioy/utils.py:27 | escaping twice is escaping once |
| Utils.EscapeOneKeepsClean | casalioy/utils.py:27 | a string without either control character is unchanged |
| Utils.EscapeMapClean | casalioy/utils.py:28-29 | after the escape the dict has the same keys and no value holds a control character |
| Utils.EscapeForHtml | casalioy/utils.py:25-31 | every value of the dict it is given is overwritten with its escaped form, and the escaped text is returned |
| Utils.PrintHtmlAsWritten | casalioy/utils.py:34-38 | the text is escaped but the formatter receives the caller's arguments unchanged |
| Utils.FormFeedArgumentUnescaped | casalioy/utils.py:36-38 | an argument holding a form feed differs from its escaped form, so it reaches the formatter unescaped |
| Utils.PrintHtml | casalioy/utils.py:34-38 | with the escape applied to the dict the formatter reads, neither the text nor any argument holds a control character |
| Utils.IsDataset | casalioy/utils.py:55-56 | definition: the first `/`-segment of the path is `datasets` |
| Utils.Format | casalioy/utils.py:38-40 | definition: `str.format` with keyword arguments only: doubled braces print one, a lone `}` or an unclosed field raises `ValueError`, an empty or numeric field `IndexError`, an unknown name `KeyError`, and the first error from the left is raised |
| Utils.FormatBraceFree | casalioy/utils.py:38-40 | text without braces formats to itself |
| Utils.FormatBraceFreePrefix | casalioy/utils.py:38-40 | brace-free text in front of the rest is kept as it is, and the rest is formatted |
| Utils.FormatField | casalioy/utils.py:38-40 | a field is replaced by its argument's value, and a field naming no argument raises `KeyError` |
| Utils.FormatMarkupField | casalioy/utils.py:38-40 | brace-free text followed by a field shows the text and the argument's value, then the formatted rest |
| Utils.FormatLoneClose | casalioy/utils.py:38-40 | a `}` that is not doubled raises `ValueError` |
| Utils.EscapeOneBraceFree | casalioy/utils.py:27 | the escape neither adds nor removes a brace |
| Utils.EscapeOneAppend | casalioy/utils.py:27 | escaping works character by character, so escaping a concatenation escapes each part |
| Utils.IsDatasetIff | casalioy/utils.py:55-56 | `is_dataset` holds exactly for `datasets` and paths starting with `datasets/` |
| Utils.RepoId | casalioy/utils.py:58-64 | definition: the path without a leading `datasets` segment, cut to two segments for a `.bin` path |
| Utils.RepoIdOfDataset | casalioy/utils.py:59-62 | a dataset path without `.bin` names its repository by the rest of the path |
| Utils.RepoIdOfModelDir | casalioy/utils.py:59 | a model path outside `datasets` without `.bin` is its own repository id |
| Utils.RepoIdOfModelFile | casalioy/utils.py:58-64 | `owner/name/file.bin` asks for `file.bin` from repository `owner/name` |
| Utils.RepoIdOfDatasetFile | casalioy/utils.py:58-79 | `datasets/owner/name/file.bin` asks for `file.bin` from dataset `owner/name` |
| Utils.LocalPath | casalioy/utils.py:66 | definition: `models/` joined with the path, which keeps an absolute path and a path already under `models/` |
| Utils.LocalPathUnderModels | casalioy/utils.py:66 | a relative path is looked for under `models/`, and looking it up again changes nothing |
| Utils.FileRequestShape | casalioy/utils.py:58-78 | for a `.bin` path the download goes to the local path's parent and asks for the path's last piece |
| Utils.FileLandsAtLocalPath | casalioy/utils.py:66-79 | a downloaded `.bin` file lands exactly where the next run looks for it |
| Utils.DownloadIfRepo | casalioy/utils.py:52-86 | definition: the local path when the file or directory is there, otherwise what the download returns |
| Utils.FoundLocallyNoDownload | casalioy/utils.py:66-69 | a model already on disk is returned as the local path, whatever the download would do |
| Utils.MissingIsDownloaded | casalioy/utils.py:71-86 | otherwise the result is the download's, and a failed download gives no path |
| AskLibgen.SelectedBound | casalioy/ask_libgen.py:45-55 | at most `n` items are downloaded and none for a count that is not positive, each a search hit of at most five MiB with extension `pdf` or `epub` |
| AskLibgen.SelectFromIsFirstGood | casalioy/ask_libgen.py:45-55 | from any position, with every size readable, the walk downloads exactly the first remaining good hits, up to the count still allowed |
| AskLibgen.SelectedIsFirstGood | casalioy/ask_libgen.py:45-55 | with every size readable, the downloads are exactly the first `n` good hits in search order (none when `n` is negative) |
| AskLibgen.SelectFrom | casalioy/ask_libgen.py:46-55 | definition: the walk from a position, stopping once `n` items were taken, failing on a size `int()` cannot read, skipping an ineligible hit and taking an eligible one |
| AskLibgen.Selected | casalioy/ask_libgen.py:44-55 | definition: the walk over the whole search result from a count of zero |
| AskLibgen.FiveMiBBoundary | casalioy/ask_libgen.py:28-50 | a file of exactly five MiB is taken, one byte more is not |
| AskLibgen.Libgen.Download | casalioy/ask_libgen.py:54 | each download is recorded after the earlier ones |
| AskLibgen.Walk | casalioy/ask_libgen.py:44-55 | the loop downloads exactly the selection, in order, and counts only downloads |
| AskLibgen.LoadDocuments | casalioy/ask_libgen.py:38-58 | the selection is downloaded; an unreadable size raises, no download (always so for a count that is not positive) raises the no-result error, and otherwise the result is the count the source prints as `Got {dl_N} files` |
| StartLlm.SelectModel | casalioy/startLLM.py:53-84 | exactly `LlamaCpp` and `GPT4All` are accepted, each selecting the model it names; anything else raises `ValueError` |
| StartLlm.LlmConfigFor | casalioy/startLLM.py:57-82 | both models get the model path and context size; only `LlamaCpp` gets the threads, batch, mlock, GPU and token settings |
| StartLlm.SelectChain | casalioy/startLLM.py:88-99 | `betterstuff` and `betterrefine` select the custom chains; any other name goes to the library chain under that name |
| StartLlm.SourcesStr | casalioy/startLLM.py:109 | no sources give the empty string; a source document without `source` raises `KeyError` |
| StartLlm.SourcesStrSingle | casalioy/startLLM.py:109 | one source is its entry alone |
| StartLlm.SourcesStrAppend | casalioy/startLLM.py:109 | each further source adds a blank line and its entry at the end, so entries appear once each, in order |
| StartLlm.HtmlEntry | casalioy/startLLM.py:109 | definition: one source prints as `>> <source>` with the escaped source and the escaped text |
| StartLlm.Shown | casalioy/startLLM.py:111 | definition: the f-string puts the query, the answer and the sources string into the markup before `print_HTML` sees it |
| StartLlm.Report | casalioy/startLLM.py:106-117 | a source without `source` raises `KeyError`; a successful report returns the chain's result unchanged with its sources string; a brace in the query, the answer or the sources can make `print_HTML`'s formatter raise |
| StartLlm.ReportWithoutBraces | casalioy/startLLM.py:109-115 | without a brace in the query, the answer or the sources, a sourced answer is always reported |
| StartLlm.ReportUnknownField | casalioy/startLLM.py:110-115 | a query holding a field `{name}` that names none of `query`, `answer` and `sources_str` makes the report raise `KeyError`, whatever the chain answered |
| StartLlm.ReportBraceQuery | casalioy/startLLM.py:110-115 | the query `what is {x}?` makes the report raise `KeyError` |
| StartLlm.TemplateShowsVerbatim | casalioy/startLLM.py:110-115 | the template with the three placeholders, formatted with the three arguments, is exactly the text the f-string builds, for every query, answer and sources string |
| StartLlm.ReportIntended | casalioy/startLLM.py:106-117 | handing the template to the formatter, the report fails exactly when a source lacks `source`, returns the result unchanged with its sources string, and prints the query, the answer and the sources verbatim |
| StartLlm.NewRefine | casalioy/startLLM.py:90-91 | the refine chain is built on the model and the retriever and merges the counts |
| StartLlm.NewChain | casalioy/startLLM.py:88-99 | the chain `CHAIN_TYPE` names is built on the model and the retriever; the custom chains merge the counts, and the library chain leaves them to the system |
| StartLlm.AskStuff | casalioy/startLLM.py:105 | the stuff chain's answer is the model's answer to the prompt filled with the packed documents, which are the sources, and that prompt is the one generation call |
| StartLlm.RefinePrompts | casalioy/CustomChains.py:149-156 | the refine chain sends one prompt per retrieved document |
| StartLlm.AskRefine | casalioy/startLLM.py:105 | the refine chain's answer is the last answer of the run, or `"None"` with no documents; every retrieved document is a source, and the prompt log grows by the run's prompts, one per document |
| StartLlm.QASystem.constructor | casalioy/startLLM.py:35-100 | the model settings and the chain follow `MODEL_TYPE` and `CHAIN_TYPE`, and the retriever ends with the counts merged once |
| StartLlm.QASystem.PromptOnce | casalioy/startLLM.py:102-117 | one question to the chain, whose answer (result and sources) is that chain's and is reported as `ReportIntended` says; the prompt log grows by one prompt per retrieved document for the refine chain and by the one stuffed prompt for the stuff chain |
| StartLlm.NewQASystem | casalioy/startLLM.py:53-84 | an unknown model type raises `ValueError` before the model or the chain is built, leaving the retriever as it was |
| StartLlm.Classify | casalioy/startLLM.py:125-130 | the stripped line `exit` ends the loop, an empty one is skipped, and any other is asked as the stripped query |
| StartLlm.ClassifyIgnoresPadding | casalioy/startLLM.py:125-126 | whitespace around a line never changes what is done with it |
| StartLlm.QueriesNeverEmptyOrExit | casalioy/startLLM.py:124-131 | no query handed to the chain is empty or `exit` |
| StartLlm.QueriesStopAtExit | casalioy/startLLM.py:126-127 | lines after the first `exit` are never read |
| StartLlm.Repl | casalioy/startLLM.py:121-131 | the queries asked are exactly the non-empty stripped lines before the first `exit`, in order; a failed report ends the loop after a prefix of them |
| LegacyStartLlm.ConfigFor | startLLM.py:20-46 | exactly `LlamaCpp` and `GPT4All` are accepted, each with the model path and context size; anything else raises `ValueError` |
| LegacyStartLlm.ConfigAgreesWithQASystem | startLLM.py:24-44 | each model is built with the arguments casalioy/startLLM.py uses, less the GPU layers and the token limit |
| LegacyStartLlm.InitializeQaSystem | startLLM.py:11-53 | the embedding model's error is raised first; otherwise the system fails exactly when the model type is unknown, else holds that model's settings and the library chain |
| LegacyStartLlm.PlainEntry | startLLM.py:73 | definition: one source prints as `> source:` above its text, unescaped |
| LegacyStartLlm.PlainSources | startLLM.py:73 | definition: the entries joined by blank lines, failing with `KeyError` on a document without `source` |
| LegacyStartLlm.PlainSourcesShape | startLLM.py:73 | one source prints as `> source:` above its text; each further one follows a blank line |
| LegacyStartLlm.Repl | startLLM.py:57-78 | the queries asked are exactly the non-empty stripped lines before `exit`; a source without `source` ends the loop with `KeyError` right after its query |
| LoadEnv.RequiredInt | casalioy/load_env.py:17-24 | a missing name raises `TypeError` and a non-integer value `ValueError`; otherwise the value |
| LoadEnv.RequiredIntOfNat | casalioy/load_env.py:17 | a count written in decimal reads back as that count |
| LoadEnv.OptionalInt | casalioy/load_env.py:33 | `N_GPU_LAYERS` defaults to 0 and is otherwise read as a required integer |
| LoadEnv.UseMlock | casalioy/load_env.py:18 | a missing `USE_MLOCK` raises `AttributeError` |
| LoadEnv.UseMlockIgnoresCase | casalioy/load_env.py:18 | values equal up to case give the same flag; `True` enables it and `yes` does not |
| LoadEnv.Stop | casalioy/load_env.py:30-31 | unset or empty gives no stop words; no stop word holds a comma |
| LoadEnv.StopJoin | casalioy/load_env.py:31 | a set value is its stop words joined by commas, empty pieces kept |
| LoadEnv.StopOfJoin | casalioy/load_env.py:31 | comma-joined words read back as those words |
| LoadEnv.ChainType | casalioy/load_env.py:32 | `CHAIN_TYPE` defaults to `refine` |
| LoadEnv.FirstError | casalioy/load_env.py:17-33 | no error exactly when every conversion succeeds |
| LoadEnv.FirstErrorIsFirst | casalioy/load_env.py:17-33 | the error reported is that of the first conversion, in module order, that raises |
| LoadEnv.Load | casalioy/load_env.py:14-33 | importing fails exactly with the first conversion error |
| LoadEnv.LoadSucceeds | casalioy/load_env.py:17-33 | the module loads exactly when the three required integers are present and numeric, `USE_MLOCK` is set and `N_GPU_LAYERS` is unset or numeric |
| LoadEnv.LoadFields | casalioy/load_env.py:14-33 | each loaded setting is its variable converted, with the defaults for unset names |
| LoadEnv.GetEmbeddingModel | casalioy/load_env.py:36-47 | `HF` and `LlamaCpp` build their model on `TEXT_EMBEDDINGS_MODEL` (`LlamaCpp` with the context size); anything else raises `ValueError` |
| LoadEnv.GetPromptTemplateKwargs | casalioy/load_env.py:50-88 | `stuff` gives the key `prompt`, `refine` the keys `question_prompt` and `refine_prompt`, anything else nothing |
| LoadEnv.PromptTemplatesDeclared | casalioy/load_env.py:53-86 | every template declares exactly its placeholders: `context` and `question`; `context_str` and `question`; and those plus `existing_answer` |
| LegacyLoadEnv.Load | load_env.py:8-25 | importing fails exactly with the first conversion error |
| LegacyLoadEnv.LoadSucceeds | load_env.py:10-17 | the module loads exactly when the three required integers are present and numeric and `USE_MLOCK` is set |
| LegacyLoadEnv.AgreesWithLoadEnv | load_env.py:8-25 | whenever casalioy/load_env.py loads, this one does too with the same shared values, and without `N_GPU_LAYERS` the two load alike |

## Left out

- Language model, tokenizer, embedder, retriever search, file loaders, text splitter, MD5 digest, Qdrant client and Hugging Face download are foreign. They are parameters or constant fields of the model.
- The `LlamaCpp` `get_num_tokens` override (casalioy/startLLM.py:71) is part of the foreign tokenizer.
- `BaseQA.default_prompt` and `BaseQA.__call__` (casalioy/CustomChains.py:26-37) are not modelled. Both subclasses override them, and `PROMPT_SELECTOR` is library code.
- `print_HTML`, `prompt_HTML` and every `print` are terminal output. Of `print_HTML`, the escape step (`Utils.PrintHtml`) and the keyword formatting (`Utils.Format`) are modelled. The markup parse is not: its `ExpatError` fallback (casalioy/utils.py:39-40) formats the same text with the same arguments, so it succeeds or raises alike.
- Utils.Format: a field is looked up by its whole name. Conversions (`!r`), format specs (`:>10`), attribute and index lookups (`{a.b}`, `{a[0]}`) and nested fields are not modelled. For such fields `str.format` may raise a different exception, or none.
- `prompt_HTML` (casalioy/utils.py:43-49) has the same unescaped-arguments shape as `print_HTML`. It is not modelled separately.
- Ingest uses a `multiprocessing` pool with `imap_unordered` and a manager lock (casalioy/ingest.py:131-136). The model processes the walked files one at a time, in walk order, and every file gets the same lock.
- The `n_threads` and `storing` fields of `Ingester` are not modelled. Neither is the `verbose` printing.
- `os.walk` is not modelled: the walked paths are an input.
- Qdrant's own checks (vector dimension mismatches, payload limits) are not modelled. A missing collection is a missing key in the store map.
- `Ingest.Ingester.ProcessOneDoc` requires the splitter and embedder to be set. In the source they are `None` before `ingest_from_directory` runs, and calling them would raise.
- In the `ingest.py` model, `Qdrant.from_documents` is the hand-over of the chunks and the collection name. Embedding and storage there are foreign.
- `search` and the `__main__` blocks (casalioy/ask_libgen.py:61-76) only wire existing parts together. The module-level `rmtree`/`mkdir` (casalioy/ask_libgen.py:33-35) and the LibGen search are I/O. The search result is an input.
- Utils.DownloadIfRepo: returns the local path when it is found, but casalioy/utils.py:68 first prints it through `print_HTML` inside an f-string, so a path holding a brace (`models/{x}.bin`) raises there, the defect of the second Findings row; `print_HTML`'s output is not part of this member.
- `download_if_repo` calls `validate_repo_id`, `snapshot_download` and `Path.resolve` (casalioy/utils.py:71-86). All three are the `download` parameter, which gives `None` where the source prints an error and returns `None`.
- `Utils.Parent` follows `Path.parent` only for paths without redundant separators; path normalisation is not modelled.
- `Text.ToLower` lower-cases ASCII letters only.
- `Text.ParseInt` accepts ASCII digits with an optional sign and surrounding whitespace. It does not accept underscores or non-ASCII digits.
- `MODEL_TEMP` is kept as text because float parsing is not modelled. `float()` raises `ValueError` for a value it cannot read (casalioy/load_env.py:29, load_env.py:22). The lines below state each member for values `float()` accepts.
- LoadEnv.Load: does not fail on an unreadable `MODEL_TEMP`, which the source rejects between `INGEST_CHUNK_OVERLAP` and `N_GPU_LAYERS`.
- LoadEnv.LoadSucceeds: does not list a readable `MODEL_TEMP` among the conditions.
- LoadEnv.FirstErrorIsFirst: the conversions it orders leave out `MODEL_TEMP`.
- LegacyLoadEnv.Load: does not fail on an unreadable `MODEL_TEMP`.
- LegacyLoadEnv.LoadSucceeds: does not list a readable `MODEL_TEMP` among the conditions.
- Loading the `.env` file (`load_dotenv`) is not modelled: the environment after loading is a map.
- `n_forward_documents`, `n_retrieve_documents` and `model_max_tokens` are imported but not defined in casalioy/load_env.py. They are parameters, as are `model_n_ctx` and `max_tokens`.
- `ingest_n_threads` is imported by casalioy/ingest.py:24 but defined neither in casalioy/load_env.py nor in load_env.py, so importing casalioy/ingest.py raises `ImportError` as written. It only sets the pool size at casalioy/ingest.py:49, which is left out with `n_threads`.
- The model's temperature, callbacks and `verbose` flag are not part of `StartLlm.LlmConfig`. Neither is the Qdrant store `QASystem` opens (casalioy/startLLM.py:48-52).
- The query run at import time in casalioy/better_chain.py:77-82 is not modelled.
- gui.py, casalioy/gui.py, Demos/customLLM.py and casalioy/misc/dev_debug_formatting.py are UI and demo scripts. They are not part of this model.
- StartLlm.QASystem.PromptOnce: reports through the corrected `StartLlm.ReportIntended` (see Findings), so a brace in the query or the answer does not end the loop there; the as-written failure is stated by `StartLlm.Report` and its lemmas. For the library chain (casalioy/startLLM.py:93-99) it states the answer only: that chain prompts the same model inside library code, and those calls are not recorded in the modelled prompt log.
- StartLlm.Repl: states which queries are asked. It does not state what each answer was. The lines are a finite input, and running out of them ends the loop normally; `prompt_HTML` (casalioy/utils.py:47-49) raises `EOFError` at the end of input instead.
- LegacyStartLlm.Repl: running out of lines ends the loop normally, where `input()` (startLLM.py:61) raises `EOFError` at the end of input.
- LegacyStartLlm.InitializeQaSystem: startLLM.py:8 imports `get_embedding_model` from load_env.py, which does not define it, so importing the script raises `ImportError` before `initialize_qa_system` can run. The model takes the embedding result that casalioy/load_env.py:36-47 would give, and fails with its error first, as startLLM.py:14 calls it before the model type is matched at :20. The Qdrant client and store built at startLLM.py:15-16 are foreign.

## Findings

| source | as written | input that shows it | evidently intended | confidence | as-written member | corrected member |
|---|---|---|---|---|---|---|
| casalioy/utils.py:34-38 | `escape_for_html(text, **kwargs)` unpacks the arguments into a fresh dict. The escape overwrites that copy, and `HTML(text).format(**kwargs)` then reads the caller's unescaped arguments | `print_HTML("<r>{e}</r>", e="\f")`: the form feed reaches the formatter | the escaped arguments are formatted, as `escape_for_html`'s docstring, which says the arguments are changed in place, expects | not executed | Utils.PrintHtmlAsWritten, Utils.FormFeedArgumentUnescaped | Utils.PrintHtml |
| casalioy/startLLM.py:110-115 | `prompt_once` interpolates the query, the answer and the sources into the text with an f-string, then hands that text to `print_HTML`, which calls `.format(**kwargs)` on it (casalioy/utils.py:38-40). A brace in any of the three is read as a format field, the formatter raises, and `main` ends | the query `what is {x}?` raises `KeyError` | the text is a template with `{query}`, `{answer}` and `{sources_str}` placeholders, filled from the keyword arguments `prompt_once` already passes, so every query and answer prints verbatim | not executed | StartLlm.Report, StartLlm.ReportUnknownField, StartLlm.ReportBraceQuery | StartLlm.ReportIntended, StartLlm.TemplateShowsVerbatim |
