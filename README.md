# Social-culture textbook RAG chatbot — a Dafny model

This project models the deterministic core of a retrieval-augmented chatbot
that answers questions about a Korean social-culture textbook. It covers
the following pieces:

- **Chunker** (`Chunking`). It normalises whitespace and splits the text
  into paragraphs and sentences. It packs the pieces into overlapping
  chunks, force-splits sentences that are too long, and numbers chunks
  densely across pages.
- **Search model** (`SearchModelSetup`). It picks a backend (Chroma → FAISS →
  NumPy), dispatches a query to it, and builds the result records of each
  backend, including Chroma's `source_file` hydration. It also filters
  results by page range.
- **Retriever** (`Retrieval`). It reranks candidates with a stable sort by
  descending score, truncates them and renumbers them. It also joins the
  results into the `[문서 i] (페이지 p)` context string.
- **Prompts** (`Prompt`). It fills the RAG and simple templates, builds the
  context under a length budget, and bounds the list of chat messages. It
  cleans the answer and formats the citation section.
- **Language models** (`LlmModel`). It covers the `get_llm` fallback, the
  HuggingFace and Gemini chat serialisers, and the rule-based `SimpleLLM`,
  with its question extraction, its `\[문서 \d+\][^\[]*` document matcher
  and its summary.
- **Chatbot** (`Chatbot`). `SocialCultureChatbot` keeps a history of at
  most ten alternating user/assistant messages and wires the other parts
  together in `ask`.

Text helpers shared by all modules live in `Text`: Python's `str.strip`,
`str.replace`, `str.join`, `in`, `split(...)[-1]`, `int()` and `str()` on
integers. Option, Result, `Take` (`xs[:n]`) and `Last` (`xs[-n:]`) live in
`Common`.

Operations that loop over mutable state in the program are methods. Each
method is proved equal to a specification function, and the properties
are proved about those functions as lemmas. The classes `SearchModel`,
`Retriever` and `SocialCultureChatbot` keep the fields the program
assigns. `SearchModel` also records whether the NumPy embeddings were
loaded (`numpy_embeddings` stays `None` until `_init_numpy` succeeds). A
NumPy search without them fails (`EmbeddingsNotLoaded`, the `TypeError`
of dividing `None`). That error passes unchanged through `search`,
`search_with_filter`, `retrieve`, `retrieve_with_context`, `ask` and
`search_only`, and a failed `ask` leaves the history as it was.

Where the prose description of the system and the code disagree, the model
follows the code:

- Chunks are **not** always at most `chunk_size` characters long. The
  overlap seed after a flush is never length-checked (src/chunking.py:132,
  src/chunking.py:162), so the model proves only the rules the code
  applies: the fit test, the overlap seed and the forced-split offsets.
- A FAISS or NumPy hit whose index lies outside the chunk list is not
  dropped. It is kept with empty text and default metadata
  (`IndexEntryOutOfRange`).
- A Chroma id such as `chunk_-1` parses to -1. That passes the
  `< len(chunks)` guard, so Python's negative indexing hydrates from the
  **last** chunk (`HydrateNegativeId`).

## Model

| member | source | states |
|---|---|---|
| Common.Take | src/prompt.py:194 | `xs[:n]` has min(n, len) elements and is a prefix of `xs` |
| Common.Last | src/chatbot.py:101 | `xs[-n:]` has min(n, len) elements and is a suffix of `xs` |
| Text.Strip | src/chunking.py:60 | `str.strip` leaves no leading or trailing whitespace, never lengthens, and is empty exactly when the input is all whitespace |
| Text.StripIsSlice | src/chunking.py:60 | the stripped text is a contiguous slice of the input, and only whitespace is cut on either side |
| Text.StripAvoids | src/llmmodel.py:346 | stripping introduces no character that was not there |
| Text.StripStripped | src/chunking.py:72 | stripping is idempotent: an already stripped text is unchanged |
| Text.JoinLength | src/retrieval.py:110 | a join is as long as its parts plus one separator between each two |
| Text.JoinSnoc | src/retrieval.py:110 | joining one more part appends the separator and that part |
| Text.ReplaceAbsent | src/prompt.py:179 | replacing a pattern that does not occur changes nothing |
| Text.ReplaceByEmptyShrinks | src/prompt.py:179 | removing a pattern never lengthens the text |
| Text.AfterLastAbsent | src/llmmodel.py:346 | `s.split(pat)[-1]` is the whole text when `pat` does not occur |
| Text.AfterLastBorderFree | src/llmmodel.py:346 | for a pattern with no self-overlap, `split(pat)[-1]` is exactly the text after its last occurrence |
| Text.AfterLastChar | src/llmmodel.py:346 | `split(c)[-1]` is the text after the last `c` |
| Text.Before | src/llmmodel.py:346 | `split('\n')[0]` is the longest prefix without a newline, followed by a newline or the end |
| Text.NoStraddle | src/llmmodel.py:330 | `pat in a + b` iff it occurs in `a` or in `b`, when `b` starts with a character not in `pat` |
| Text.NatToString | src/retrieval.py:108 | `str(n)` is a non-empty string of decimal digits |
| Text.ParseIntOfNatToString | src/search_model_setup.py:198 | `int(str(n)) == n` |
| Text.NatToStringRoundTrip | src/search_model_setup.py:198 | the digits of `str(n)` denote `n` |
| Chunking.CollapseBlanks | src/chunking.py:56 | `[ \t]+ → ' '` leaves no tab and no two adjacent spaces, is empty iff the input is, and keeps all-whitespace-ness |
| Chunking.CapNewlinesNoTriple | src/chunking.py:58 | after `\n{3,} → \n\n` no run of three newlines is left |
| Chunking.CapNewlinesNoTab | src/chunking.py:58 | capping newlines introduces no tab |
| Chunking.CapNewlinesNoDoubleSpace | src/chunking.py:58 | capping newlines introduces no two adjacent spaces |
| Chunking.CapNewlinesAllSpace | src/chunking.py:58 | capping newlines keeps the text all-whitespace exactly when it was |
| Chunking.CleanText | src/chunking.py:48-62 | the result has no tab, no double space, no triple newline and no outer whitespace, and is empty iff the input is empty or all whitespace |
| Chunking.StrippedNonEmpty | src/chunking.py:72 | the kept paragraphs (and sentences) are all non-empty and stripped |
| Chunking.SplitOnBlankLines | src/chunking.py:70 | `re.split(r'\n\s*\n')` yields at least one piece; what the pieces are is `BlankLineSplit` |
| Chunking.SplitOnSentenceBreaks | src/chunking.py:82 | `re.split(r'(?<=[.?!。])\s+')` yields at least one piece; what the pieces are is `SentenceBreakSplit` |
| Chunking.Separators | src/chunking.py:70 | the k-th separator is the text of the k-th matched span |
| Chunking.SplitAtCons | src/chunking.py:70 | a piece and a separator in front of a split of the rest give a split of the whole |
| Chunking.SplitRebuilds | src/chunking.py:70 | the pieces interleaved with the matched separators give back the text |
| Chunking.BlankLineSplit | src/chunking.py:70 | `re.split(r'\n\s*\n')`: every separator is a match, no piece holds the start of a match (each separator is the leftmost one), and pieces with separators rebuild the text |
| Chunking.SentenceBreakSplit | src/chunking.py:82 | `re.split(r'(?<=[.?!。])\s+')`: every separator is whitespace after a terminal mark, taken whole, no piece holds a break, and pieces with separators rebuild the text |
| Chunking.SplitParagraphs | src/chunking.py:65-73 | every paragraph is non-empty and stripped |
| Chunking.SplitSentences | src/chunking.py:76-84 | every sentence is non-empty and stripped |
| Chunking.ChunkText | src/chunking.py:103-107 | empty or whitespace-only text gives an empty chunk list, not an error |
| Chunking.SentenceFitRule | src/chunking.py:120-121 | a sentence joins a non-empty accumulator with " " without a flush iff accumulator + 1 + sentence fits in `chunk_size` |
| Chunking.ParagraphFitRule | src/chunking.py:150-151 | a paragraph joins a non-empty accumulator with "\n\n" without a flush iff accumulator + 2 + paragraph fits |
| Chunking.SentenceFlushSeedsOverlap | src/chunking.py:122-134 | on overflow the accumulator is emitted as the next chunk and the new accumulator is its last `overlap` characters + " " + sentence, or just the sentence |
| Chunking.ParagraphFlushSeedsOverlap | src/chunking.py:152-164 | the same flush-and-seed rule for paragraphs, with "\n\n" |
| Chunking.RawSlicesAt | src/chunking.py:138-139 | the k-th forced slice is `sent[k*step : k*step + chunk_size]` |
| Chunking.RawSlicesCover | src/chunking.py:138 | the slice offsets cover the sentence: none iff it is empty, and n slices reach its end |
| Chunking.ForcedSplitPieces | src/chunking.py:136-145 | an oversized sentence is cut into at least one slice, at offsets 0, step, 2·step, …, covering it |
| Chunking.ForcedSplitRule | src/chunking.py:136-145 | with `chunk_size > overlap`, an oversized sentence at an empty accumulator becomes its numbered slices and the accumulator stays empty |
| Chunking.ForcedSplitDegenerate | src/chunking.py:138 | `chunk_size == overlap` raises (range step 0); `chunk_size < overlap` emits nothing |
| Chunking.Number | src/chunking.py:140-145 | forced slices get consecutive ids from the current count, with stripped text and its length |
| Chunking.ChunkIdsDense | src/chunking.py:113-174 | chunk ids are 0, 1, 2, … in emission order, and every `char_count` is the length of the chunk's stripped text |
| Chunking.ChunkTextNoError | src/chunking.py:138 | with `chunk_size > overlap` chunking never raises |
| Chunking.PackSentencesErrSticky | src/chunking.py:138 | once the forced split raises, the whole sentence loop raises the same error |
| Chunking.PackParagraphsErrSticky | src/chunking.py:115-166 | once a paragraph raises, the whole call raises the same error |
| Chunking.AppendSlices | src/chunking.py:138-145 | the forced-split loop appends exactly the numbered slices |
| Chunking.PlaceSentence | src/chunking.py:119-147 | one iteration of the sentence loop does what the sentence rule says |
| Chunking.PackSentenceLoop | src/chunking.py:118-147 | the sentence loop equals the fold of the sentence rule |
| Chunking.PlaceParagraph | src/chunking.py:115-166 | one iteration of the paragraph loop does what the paragraph rule says |
| Chunking.CreateChunksWithOverlap | src/chunking.py:87-176 | the method returns the chunk list (or the error) of the specification `ChunkText` |
| Chunking.TagAll | src/chunking.py:199-204 | each page chunk is tagged with consecutive global ids, the page's number and 'page' |
| Chunking.ChunkPagesDense | src/chunking.py:187-206 | `global_chunk_id` runs 0..n-1, every chunk is tagged 'page' and `char_count` matches; the chunks go page by page in page order, each one cut from its own page's text with that page's number |
| Chunking.ChunkPagesByPage | src/chunking.py:190-204 | the page fold pairs every chunk with a non-decreasing page index whose text chunks to it |
| Chunking.ChunkPagesErrSticky | src/chunking.py:197 | an error on one page is the result of the whole call |
| Chunking.AppendPageChunks | src/chunking.py:199-204 | the tagging loop appends exactly the tagged chunks |
| Chunking.ChunkPage | src/chunking.py:190-204 | a page with empty text is skipped; otherwise its chunks are tagged and appended |
| Chunking.ChunkByPages | src/chunking.py:179-206 | the method returns the page fold of the specification |
| SearchModelSetup.SelectBackend | src/search_model_setup.py:61-82 | auto tries chroma → faiss → numpy and stops at the first success; a failed explicit chroma or faiss goes straight to numpy; any other name selects numpy; the backend is the last store tried |
| SearchModelSetup.NumpyOutcomeIgnored | src/search_model_setup.py:68-82 | whether `_init_numpy` succeeds never changes the selected backend |
| SearchModelSetup.SearchModel.constructor | src/search_model_setup.py:26-45 | a new search model holds the backend `SelectBackend` chooses for the requested one, and has embeddings loaded iff that backend is NumPy and its loader succeeded |
| SearchModelSetup.SearchModel.Initialize | src/search_model_setup.py:47-82 | `_initialize` sets the backend to the selection, marks the embeddings loaded when a NumPy loader it runs succeeds, and changes nothing else |
| SearchModelSetup.IndexEntryOutOfRange | src/search_model_setup.py:230-241 | an index outside the chunk list gives id "chunk_<idx>", empty text and default metadata |
| SearchModelSetup.FaissResults | src/search_model_setup.py:226-245 | FAISS yields at most one record per raw entry |
| SearchModelSetup.FaissRecord | src/search_model_setup.py:232-233 | a kept entry's rank is 1 + its raw position |
| SearchModelSetup.FaissResultsSound | src/search_model_setup.py:226-245 | every record comes from a raw entry with a non-negative index, with rank = position + 1 and id "chunk_<idx>" |
| SearchModelSetup.FaissResultsOrdered | src/search_model_setup.py:226-232 | records keep the raw order: ranks strictly increase within 1..n |
| SearchModelSetup.FaissResultsComplete | src/search_model_setup.py:226-245 | every raw entry with a non-negative index gives a record |
| SearchModelSetup.BuildFaissResults | src/search_model_setup.py:219-247 | the FAISS loop builds exactly the specified records |
| SearchModelSetup.NumpyResults | src/search_model_setup.py:259-278 | NumPy yields the top min(k, n) ranked indices, ranked 1.., with distance 1 - similarity |
| SearchModelSetup.BuildNumpyResults | src/search_model_setup.py:249-280 | the NumPy loop builds exactly the specified records |
| SearchModelSetup.PyIndex | src/search_model_setup.py:201 | Python list indexing, negative indices included, and `IndexError` outside them |
| SearchModelSetup.HydrateOnlyAddsSource | src/search_model_setup.py:190-205 | hydration only ever adds `source_file`, never overwrites one, and adds it only from the chunk the key indexes when the key is below the chunk count |
| SearchModelSetup.HydrateByGlobalId | src/search_model_setup.py:194-203 | metadata `global_chunk_id` takes precedence as the lookup key |
| SearchModelSetup.HydrateByChunkId | src/search_model_setup.py:196-203 | without it, the number after the last '_' of the id is the key |
| SearchModelSetup.HydrateNegativeId | src/search_model_setup.py:198-201 | id "chunk_-1" hydrates from the last chunk |
| SearchModelSetup.NegativeIdKey | src/search_model_setup.py:197-198 | "chunk_-1" contains '_' and its last part parses to -1 |
| SearchModelSetup.ChromaResultsShape | src/search_model_setup.py:183-215 | one record per zipped entry, ranked 1..n, with the document, id ("" when missing), distance (0 when missing) and similarity 1 - distance |
| SearchModelSetup.ChromaSharedMetadata | src/search_model_setup.py:185 | without a metadata list all records share one metadata dictionary |
| SearchModelSetup.SharedMetadataSettled | src/search_model_setup.py:185-203 | once the shared dictionary has a `source_file` no later entry changes it |
| SearchModelSetup.SharedMetadataEmpty | src/search_model_setup.py:185-203 | the shared dictionary stays empty while no entry hydrates it |
| SearchModelSetup.SharedMetadataFirstHydration | src/search_model_setup.py:185-203 | the first entry that hydrates the shared dictionary decides it for all records |
| SearchModelSetup.BuildChromaResults | src/search_model_setup.py:172-217 | the Chroma loop, with its in-place hydration of shared metadata, builds exactly the specified records |
| SearchModelSetup.Dispatch | src/search_model_setup.py:157-170 | `search` fails exactly when it falls to NumPy without loaded embeddings |
| SearchModelSetup.DispatchOnlyChosen | src/search_model_setup.py:165-170 | the answer depends only on the store the backend names, and on the embeddings only for NumPy |
| SearchModelSetup.SearchModel.Search | src/search_model_setup.py:157-170 | `search` returns the chosen store's results, or the error of a NumPy search without embeddings |
| SearchModelSetup.PageFilterKeeps | src/search_model_setup.py:293-296 | the filter keeps, in original order, exactly the results whose page (0 when missing) is in [start, end] |
| SearchModelSetup.PageFilterIn | src/search_model_setup.py:293-296 | every kept result lies in the range |
| SearchModelSetup.Renumber | src/search_model_setup.py:297-298 | renumbering changes only the ranks, to 1..n |
| SearchModelSetup.WithFilter | src/search_model_setup.py:289-301 | without a filter: the first `top_k` unchanged; with one: at most `top_k` in-range results in order, renumbered 1..n |
| SearchModelSetup.FilterResults | src/search_model_setup.py:289-301 | the filtering loops build exactly that rule's results |
| SearchModelSetup.SearchModel.SearchWithFilter | src/search_model_setup.py:282-301 | `search_with_filter` applies that rule to a search for `top_k * 3`, and passes on its error |
| Retrieval.InsertPos | src/retrieval.py:76 | the stable insertion point: after every key >= the new one, before every smaller one |
| Retrieval.InsertByKey | src/retrieval.py:76 | inserting keeps every old index and adds the new one at that point |
| Retrieval.InsertByKeyKeepsOrder | src/retrieval.py:76 | insertion keeps the order descending, stable and free of repeats |
| Retrieval.SortOrder | src/retrieval.py:76 | the sort order is a permutation of the candidate positions |
| Retrieval.SortOrderCorrect | src/retrieval.py:76 | `sorted(..., reverse=True)` orders by non-increasing score, equal scores in original order, without repeats |
| Retrieval.PrefixKeepsOrder | src/retrieval.py:82 | truncating to `top_k` keeps the order properties |
| Retrieval.PrefixHoldsBest | src/retrieval.py:82 | a truncated descending order keeps the highest keys |
| Retrieval.Keys | src/retrieval.py:71-73 | each candidate's rerank score is the similarity of the query and its text |
| Retrieval.RerankOrder | src/retrieval.py:76-82 | the rerank keeps min(`top_k`, n) candidate positions |
| Retrieval.Reranked | src/retrieval.py:76-82 | the rerank returns min(`top_k`, n) results |
| Retrieval.RerankEntries | src/retrieval.py:71-82 | each returned result is a candidate with its rerank score set and rank k + 1; nothing else changes |
| Retrieval.RerankSorted | src/retrieval.py:76 | the chosen candidates are distinct, in non-increasing score, ties in original order |
| Retrieval.RerankKeepsBest | src/retrieval.py:76-82 | no dropped candidate scores higher than a kept one |
| Retrieval.Rescored | src/retrieval.py:71-73 | scoring sets `rerank_score` on every candidate and leaves similarity and distance alone |
| Retrieval.RescoredKeys | src/retrieval.py:71-76 | the scores the sort reads are the ones the scoring loop stored |
| Retrieval.Rerank | src/retrieval.py:59-82 | `_rerank` returns the specified reranking |
| Retrieval.ScoreCandidates | src/retrieval.py:71-73 | the scoring loop sets every candidate's rerank score and nothing else |
| Retrieval.RenumberTop | src/retrieval.py:79-82 | the renumbering loop returns the first `top_k`, ranked 1..n |
| Retrieval.RerankedBySort | src/retrieval.py:71-82 | scoring, the stable sort on the stored score and renumbering give the specified rerank |
| Retrieval.ContextEntries | src/retrieval.py:105-108 | entry k is "[문서 k+1] (페이지 p)\n" + text, with 'N/A' for a missing page |
| Retrieval.ContextEmpty | src/retrieval.py:110 | the context is empty iff there are no results |
| Retrieval.ContextSnoc | src/retrieval.py:104-110 | one more result appends "\n\n---\n\n" and its entry |
| Retrieval.BuildContext | src/retrieval.py:103-110 | the context loop builds the specified context |
| Retrieval.RetrieveSpec | src/retrieval.py:31-57 | retrieval fails exactly when the search falls to NumPy without loaded embeddings |
| Retrieval.Retriever.constructor | src/retrieval.py:25-29 | a retriever holds a fresh search model with backend "auto", with embeddings loaded iff NumPy was chosen and loaded |
| Retrieval.Retriever.Retrieve | src/retrieval.py:31-57 | without rerank: the search for `top_k`; with rerank: the rerank of a search for `top_k * 3`; a search error is returned as it is |
| Retrieval.Retriever.RetrieveWithContext | src/retrieval.py:84-112 | never reranks, returns the context of exactly the results it returns, or the search error |
| Retrieval.RetrieveDocuments | src/retrieval.py:122-131 | a fresh auto-backend retriever's `retrieve`, error included |
| Prompt.ChooseTemplate | src/prompt.py:66-69 | the simple template iff the name is "simple", the RAG template otherwise |
| Prompt.CreateRagPrompt | src/prompt.py:50-74 | the prompt contains the context and the question |
| Prompt.FillRecovers | src/prompt.py:71-74 | the prompt holds the context and the question verbatim at their places in the template |
| Prompt.CreateRagPromptInjective | src/prompt.py:50-74 | for contexts of equal length, equal prompts mean equal questions and contexts |
| Prompt.AllParts | src/prompt.py:96-103 | one part per result |
| Prompt.FitCount | src/prompt.py:105-115 | the parts before the first that would exceed the budget all fit, and that one does not |
| Prompt.FitCountFirstMiss | src/prompt.py:106-112 | the loop stops at the first part that does not fit |
| Prompt.ContextPartsShape | src/prompt.py:96-115 | parts are in order and labelled by position; only one extra part may follow, the next part cut after more than 100 characters with "..." |
| Prompt.ContextKeepsAllThatFit | src/prompt.py:105-115 | when every part fits, all are kept uncut |
| Prompt.BudgetedStop | src/prompt.py:106-112 | at the first misfit, the cut part is added only when more than 100 characters remain, and nothing after it |
| Prompt.BudgetedAll | src/prompt.py:114-115 | when every part fits, the budget keeps them all |
| Prompt.UsedIsSumLen | src/prompt.py:115 | the running length is the parts' length plus 10 per part |
| Prompt.BudgetedLength | src/prompt.py:94-117 | a budgeted join is at most `max_length` + 3 long, and longer than `max_length` only when it is the first part cut |
| Prompt.ContextLength | src/prompt.py:77-117 | the context is at most `max_length` + 3 long, exceeding `max_length` only when the first result's part is cut |
| Prompt.CreateContextFromResults | src/prompt.py:77-117 | the loop with its `break` builds the specified context |
| Prompt.CreateChatMessages | src/prompt.py:120-149 | the system prompt, the last ≤ 6 history messages in order, then the RAG prompt as a user message: 2 to 8 messages |
| Prompt.UnwantedPhrasesNonEmpty | src/prompt.py:165-177 | eleven phrases, none empty |
| Prompt.RemovePhrasesShrinks | src/prompt.py:178-179 | phrase removal never lengthens the answer |
| Prompt.RemovePhrasesAbsent | src/prompt.py:178-179 | an answer with none of the phrases is unchanged |
| Prompt.RemoveUnwanted | src/prompt.py:178-179 | the removal loop applies the three replacements per phrase, in order |
| Prompt.CollapseWs | src/prompt.py:183 | `re.sub(r'\s+', ' ')` leaves only single spaces as whitespace and never lengthens |
| Prompt.CollapseKeepsText | src/prompt.py:183 | collapsing keeps every non-whitespace character in order |
| Prompt.CollapseSingleSpaced | src/prompt.py:183 | collapsing is the identity on single-spaced text |
| Prompt.StripCollapsed | src/prompt.py:183 | stripping collapsed text gives stripped, single-spaced text no longer than the input |
| Prompt.CleanAnswer | src/prompt.py:164-183 | the cleaned answer has no outer whitespace, no newline, no run of two whitespace characters, and is no longer than the answer |
| Prompt.CleanAnswerFixed | src/prompt.py:164-183 | a clean answer with no unwanted phrase is left as it is |
| Prompt.AddSourceConsistent | src/prompt.py:194-214 | one source adds its file name once and its page once unless missing or already seen |
| Prompt.CollectCitationsCorrect | src/prompt.py:194-214 | file names are listed once each in first-seen order, and a file lists a page iff some source has that (file, page) |
| Prompt.GatherCitations | src/prompt.py:189-214 | the source loop builds the specified citations |
| Prompt.InsertAscSorted | src/prompt.py:220 | inserting keeps a list ascending |
| Prompt.SortAsc | src/prompt.py:220 | sorting permutes the pages |
| Prompt.SortAscCorrect | src/prompt.py:220 | the pages come out ascending, as a permutation, strictly increasing when distinct |
| Prompt.CitationPages | src/prompt.py:207-221 | a file's printed pages are strictly increasing and exactly its cited pages |
| Prompt.FormattedAnswerFirstFive | src/prompt.py:194 | only the first five sources affect the answer |
| Prompt.WriteCitations | src/prompt.py:217-225 | one line per file, in first-seen order |
| Prompt.FormatAnswer | src/prompt.py:152-227 | the cleaned answer, plus the citation section when there are sources; exactly the cleaned answer when there are none |
| LlmModel.GetLlm | src/llmmodel.py:384-398 | the provider registered under the name, or "simple" when no provider is |
| LlmModel.GetLlmKey | src/llmmodel.py:384-391 | every provider's key selects that provider |
| LlmModel.TranscriptConcat | src/llmmodel.py:186-194 | serialising two message lists one after the other is the concatenation |
| LlmModel.TranscriptSingle | src/llmmodel.py:189-194 | a single message serialises as its header, content and "\n\n" |
| LlmModel.TranscriptSkipsUnknown | src/llmmodel.py:189-194 | a message with an unknown role contributes nothing |
| LlmModel.TranscriptShowsKnown | src/llmmodel.py:307-315 | a known-role message appears in place as header + content + "\n\n" |
| LlmModel.HuggingFaceChatPrompt | src/llmmodel.py:185-196 | the loop serialises in order with "System: ", "User: ", "Assistant: " and ends with "Assistant: " |
| LlmModel.HuggingFaceChat | src/llmmodel.py:183-197 | `chat` generates from that prompt |
| LlmModel.GeminiChat | src/llmmodel.py:300-320 | without a client the fixed message; otherwise the reply to the serialised prompt, or "Gemini 응답 오류: " + the error |
| LlmModel.DocMatch | src/llmmodel.py:354 | a match of `\[문서 \d+\][^\[]*` starts with "[문서 " and is at least six characters |
| LlmModel.DocMatchShaped | src/llmmodel.py:354 | a match contains no '[' after its opening bracket |
| LlmModel.FindDocs | src/llmmodel.py:354 | every match `findall` returns starts with "[문서 " and holds no later '[' |
| LlmModel.FindDocsNeedsMarker | src/llmmodel.py:352-354 | a match exists only when the prompt contains "[문서" |
| LlmModel.FindDocsFinds | src/llmmodel.py:354 | a match anywhere in the prompt makes `findall` non-empty |
| LlmModel.StripAll | src/llmmodel.py:355 | every document is stripped, none dropped |
| LlmModel.DocContent | src/llmmodel.py:362 | the content after the first line break, or the whole document without one |
| LlmModel.Shorten | src/llmmodel.py:363 | content up to 200 characters is kept; longer content becomes its first 200 characters + "..." |
| LlmModel.SummarizeContext | src/llmmodel.py:342-367 | `_summarize_context` gives the summary of the extracted question and documents |
| LlmModel.ListDocuments | src/llmmodel.py:357-367 | the found header and the numbered documents, or the not-found message |
| LlmModel.NumberDocuments | src/llmmodel.py:360-364 | the numbering loop lists the documents as 1., 2., … in order |
| LlmModel.SummaryLists | src/llmmodel.py:357-367 | no documents give the not-found message; otherwise the header and the first one or two documents |
| LlmModel.NumberedSnoc | src/llmmodel.py:360-364 | each loop pass appends the next numbered line |
| LlmModel.NumberedFirstTwo | src/llmmodel.py:360 | `docs[:2]` numbered gives one or two lines |
| LlmModel.LastUserCorrect | src/llmmodel.py:337-340 | none iff no message has role "user"; otherwise the content of the user message after which no other user message follows |
| LlmModel.LastUserAt | src/llmmodel.py:337-339 | a user message with no user message after it is what the reverse scan finds |
| LlmModel.LastUsersAgree | src/llmmodel.py:337-339 | there is at most one last user message |
| LlmModel.SimpleChatAnswer | src/llmmodel.py:335-340 | "메시지가 없습니다." iff no message is a user's; otherwise `generate` of the last user message |
| LlmModel.SimpleChat | src/llmmodel.py:335-340 | the reverse scan answers the last user message, or "메시지가 없습니다." |
| LlmModel.QuestionMarkerBorderFree | src/llmmodel.py:346 | "질문:" overlaps itself nowhere, so `split` finds its last occurrence |
| LlmModel.ExtractQuestion | src/llmmodel.py:345-346 | the extracted question is stripped and has no line break |
| LlmModel.QuestionAfterMarker | src/llmmodel.py:345-346 | the question is the stripped line after the last "질문:" |
| LlmModel.ExtractQuestionOfRagPrompt | src/llmmodel.py:345-348 | from a filled template, the extractor gives back the stripped one-line question |
| LlmModel.RagPromptHasMarker | src/llmmodel.py:330 | a simple-template prompt, or one whose context names a document, triggers the summary |
| LlmModel.FillContains | src/prompt.py:71-74 | whatever the context contains, the filled template contains |
| LlmModel.SimpleGenerate | src/llmmodel.py:328-333 | the apology iff the prompt holds neither "참고 문서:" nor "[문서"; otherwise a summary opening with a quote |
| LlmModel.SimpleGenerateSummarises | src/llmmodel.py:328-333 | `generate` on such a prompt is its summary, not the apology |
| Chatbot.Recorded | src/chatbot.py:96-101 | the history is trimmed to min(10, n + 2) messages and ends with the question and the answer |
| Chatbot.RecordedWellFormed | src/chatbot.py:96-101 | after an exchange the history is at most 10 messages, alternating user/assistant from a user message, ends with the question and the raw answer, and keeps the most recent earlier messages in order |
| Chatbot.HistoryOnlyWhenUsed | src/chatbot.py:84-93 | without `use_history` the answer does not depend on the history, and an empty history acts as none |
| Chatbot.SimpleLlmIgnoresHistory | src/chatbot.py:84-93 | with the rule-based model the chat path and the prompt path give the same answer |
| Chatbot.ContextOpensWithDocument | src/retrieval.py:108-110 | a non-empty context opens with "[문서 1]" |
| Chatbot.RagPromptHasDocs | src/llmmodel.py:352-355 | the prompt built from a non-empty context has documents to list |
| Chatbot.SimpleChatbotSummarises | src/chatbot.py:78-93 | with the rule-based model and at least one result, `ask` answers a one-line question with the header quoting it and the first documents |
| Chatbot.SocialCultureChatbot.constructor | src/chatbot.py:25-55 | the chatbot holds the retriever, `top_k`, the model `get_llm` picks and an empty history |
| Chatbot.SocialCultureChatbot.Ask | src/chatbot.py:60-107 | `ask` retrieves without rerank and records the question and raw answer in the trimmed history. It returns the answer formatted with sources only when `show_sources` is set, and the history stays well formed. A retrieval error is returned and the history is unchanged |
| Chatbot.SocialCultureChatbot.Respond | src/chatbot.py:84-107 | answering from retrieved context records the raw answer and formats it with sources only when asked |
| Chatbot.SocialCultureChatbot.Consult | src/chatbot.py:84-93 | the chat path runs only when `use_history` holds and the history is non-empty |
| Chatbot.SocialCultureChatbot.Record | src/chatbot.py:96-101 | the history gains the exchange and keeps its last 10 messages |
| Chatbot.SocialCultureChatbot.SearchOnly | src/chatbot.py:120-121 | `top_k` None or 0 falls back to the chatbot's own `top_k`; the result, error included, is the retriever's |
| Chatbot.SocialCultureChatbot.ClearHistory | src/chatbot.py:125 | the history becomes empty |
| Chatbot.SocialCultureChatbot.GetHistory | src/chatbot.py:130 | returns the history unchanged |

## Left out

- Floating point: distances, similarities and rerank scores are abstract
  integers (`Score`). Only comparison and equality are used. The
  conversions `1/(1+d)` and `1-d` are a parameter or plain subtraction.
- The embedding model, `embed_query`, `embed_text` and
  `compute_similarity` are the parameter `similarity`. The cosine ranking
  and `argsort` of the NumPy backend are its raw answer.
- Loading the chunk file, the Chroma collection, the FAISS index and the
  NumPy embeddings is file and library I/O. The chunks are a parameter,
  and each loader is a boolean outcome (`Loaders`).
- `get_retriever` and `get_search_model` build their objects from the
  collection name and disk; the model passes the retriever in.
- The network clients of Ollama, OpenAI, Groq and Gemini, and
  HuggingFace's `generate`/`_initialize`, are foreign calls. Each remote
  model is a pair of functions (`Llm`). `GeminiChat` gets the remote call
  as a parameter, and its exception text is the `Err` value.
- `print` output, the CLI loop of src/chatbot.py and every `__main__` block
  are console I/O.
- `save_chunks_to_json`, `load_text_from_json` and `process_text_file` are
  file I/O.
- Chunking.ChunkText: `chunk_size` is a `nat`. A negative size, which
  Python would use in negative slice indices, is not modelled.
- Chunking.ChunkText: no global bound of `chunk_size` on chunk length is
  claimed, because the code does not keep one (see above).
- Chatbot.SocialCultureChatbot.SearchOnly: `top_k` is a natural number, so
  negative values are not modelled.
- Chatbot.SocialCultureChatbot.GetHistory: it returns the history as a
  value. The program hands out the list object itself, so a caller's later
  mutation aliasing the history is not modelled.
- Retrieval.Rerank: the program rewrites `rank` in the shared candidate
  dictionaries, and candidates beyond `top_k` keep their old rank. The
  model returns fresh records, so that effect on the dropped candidates is
  not modelled.
- Prompt.FormatAnswer: the `try/except` fallback of the page sort is
  unreachable for integer pages and is left out. Page numbers are
  integers, and 'N/A' is a missing page.
- LlmModel.DocMatch: `\d` is taken as the ASCII digits 0-9. Python also
  matches other Unicode decimal digits.
- Metadata values are typed (`Option<int>`, `Option<string>`), so a key
  present with the value `None` reads the same as a missing key.
- The exceptions the Chroma and FAISS libraries may raise during a query
  are foreign failures and are not modelled; only the NumPy backend's
  missing-embeddings failure is.
- `format_search_results`, `embed_query` and the demo and UI scripts are
  presentation or foreign code, not part of this model.
