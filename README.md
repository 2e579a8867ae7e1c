# Quran question-answering backend: a verified model of its core

The backend answers questions about the Quran. It keeps a semantic index of all verses, looks
up the Para/Juz a verse belongs to, and routes each question through a fixed cascade of
handlers:

1. a prophet;
2. an exact `surah:verse` reference;
3. Ayat-ul-Kursi;
4. a surah with a verse;
5. a surah;
6. factual phrases, including the shortest and longest surah tables;
7. topic keywords;
8. semantic search with a post-filter;
9. nothing found.

This project models that core in Dafny and proves what each part promises.

| file | module | models |
|---|---|---|
| `wrappers.dfy` | `Wrappers` | `Option` and `Result` |
| `seqs.dfy` | `Seqs` | first-match search, list comprehensions with a condition (`Filter`), slices |
| `text.dfy` | `Text` | the `str` operations the code uses: `lower`, `in`, `strip`, `replace`, `split`, `isdigit`, `int`/`str` on numbers |
| `quran_source.dfy` | `QuranSource` | what the HTTP client hands the core: a surah fetch (`success`, names, verse count, verses) and whether a single verse fetch succeeds |
| `quran_metadata.dfy` | `QuranMetadata` | `quran_metadata.py`: `PARA_BOUNDARIES`, `find_para_for_verse`, `get_para_info` |
| `search_engine.dfy` | `QuranSearchEngine` | `quran_search_engine.py`: the class with its `verses` and `embeddings` fields, `build_database`, `search`, `save_embeddings`, `load_embeddings` |
| `app_lookup.dfy` | `AppLookup` | app.py's pure recognisers: its copy of the para lookup, `detect_surah_number`, `detect_prophet_name`, `extract_verse_number`, and the exact-reference pattern of `ask_question` |
| `app_routing.dfy` | `AppRouting` | app.py's imperative parts: the topic loop, `get_topic_verses_response`, the shortest and longest tables, the `ask_question` cascade with its semantic post-filter, and the startup choice between loading and building the index |

## How each part is modelled

**Index engine.** The engine is a class with two fields, `verses` and `embeddings`; a method
changes one only where the code does.
- `BuildDatabase` is a nested loop over surahs 1..114 and their verses. It is proved against
  the function `Corpus`, which the lemmas characterise.
- The encoder is a parameter `embed`. The similarity of the question to each row is a given
  sequence `scores`.
- `Search` calls an insertion `ArgSort`. It promises only an ascending permutation, so the
  order among equal scores is left open, as with numpy's quicksort.
- `Search` then takes the slice `[-top_k:]` literally. So `top_k = 0` returns every record,
  and a negative `top_k` drops records from the bottom.
- There is no guard against an empty index. An index with zero rows is the error `NoIndex`,
  because sklearn refuses an empty array.
- An absent index is not an error in itself. `cosine_similarity` with no second array
  compares the question with itself, so there is exactly one score (`ScoreCount`).
- A selected row with no record is `IndexOutOfRange`. This happens after a misaligned load,
  or on an engine that was never built: there, a non-negative `top_k` fails and a negative
  one returns no results (`UnbuiltSearch`).
- `Search` is split into `TopRows` (argsort, slice, reverse) and `LookUp` (the loop over
  `self.verses[idx]`).
- `ArtifactFile` is the slot at the save path. It is either `Missing`, `Unreadable`, or an
  `Archive` of the embeddings and a verses text that may not parse.
- `LoadEmbeddings` assigns `embeddings` before parsing `verses`. So a verses text that does
  not parse leaves the engine misaligned (`LoadUnparseableMisaligns`).

**Para lookup.** `find_para_for_verse` is a downward scan (`ScanDown`). Its contract is
  proved once. It then gives:
- the range of the result;
- bracketing between consecutive boundaries;
- monotonicity in the (surah, verse) order;
- the five self-test cases.

The comment beside the self-test case (36, 1) says Para 23. The table gives 22, because Para
23 starts at 36:28 (`FindParaExampleYaSin`).

app.py has its own copy of the scan and of both tables. `AppParaScanAgrees` proves that the
copy gives the same para as `quran_metadata.py`, and `AppGetParaInfo` that it gives the same
name and display.

**Regular expressions.** `re.search` is `ReSearch`: try a matcher at each position from the
left and keep the first success. Its meaning is proved (`SearchFromLeftmost`). The matchers
are written out by hand:
- "word, optional whitespace (or colons), digits";
- "digits, optional ordinal suffix, optional whitespace, word";
- "digits, one colon or whitespace character, digits".

A greedy `\d+` followed by a non-digit always matches the maximal digit run, so each matcher
takes the maximal run. The twelve verse patterns and the first two surah patterns are these
shapes with their own words, in the code's order.

**Lookup tables.**
- `SURAH_MAP` is written grouped by surah in ascending order. It is modelled as one key list
  per surah, indexed by surah − 1. Dictionary order is the flattened order, and no key
  repeats.
- `PROPHET_NAMES` and `TOPIC_VERSES` are ordered lists in dictionary order. The references of
  `TOPIC_VERSES` are already split into (surah, verse).

**Cascade.** `ask_question` first analyses the cleaned question (`Analyse`). Each handler is
a stage function that answers or passes, and `Route` is the first answer of the stage list.
- `AskQuestion` runs the same handlers as methods. It calls the table methods and the topic
  loop method, and `Search` with `top_k = 10`.
- It is proved to return `Route`'s answer, or, when no handler answers, `SemanticReply` of
  some outcome `Search` may give.
- A reply carries the data the handler formats (numbers, records, table rows, para lines),
  not the markdown text.

## Model

| member | source | states |
|---|---|---|
| QuranMetadata.ScanDown | quran_metadata.py:44-52 | the downward scan returns a para in 1..para; no para above the result is reached by (surah, verse); the result is reached, or it is the default 1 when none is |
| QuranMetadata.FindParaRange | quran_metadata.py:42-52 | find_para_for_verse always returns a number in 1..30 |
| QuranMetadata.BoundariesIncrease | quran_metadata.py:8-39 | the 30 boundary points are strictly increasing in (surah, verse) order |
| QuranMetadata.FindParaCharacterisation | quran_metadata.py:44-52 | the result is p exactly when (p is 1 or its start is reached) and (p is 30 or the next start is not reached) |
| QuranMetadata.FindParaBrackets | quran_metadata.py:44-50 | for inputs from (1,1) on, the result's start is at or before the input and, below Para 30, the next start is after it |
| QuranMetadata.FindParaAtBoundary | quran_metadata.py:8-50 | each table entry's start point maps to its own para number |
| QuranMetadata.FindParaMonotone | quran_metadata.py:8-50 | a later (surah, verse) never has a smaller para |
| QuranMetadata.FindParaBeforeStart | quran_metadata.py:52 | inputs before (1,1) give Para 1 |
| QuranMetadata.FindParaExampleFatiha | quran_metadata.py:103 | (1,1) is in Para 1 |
| QuranMetadata.FindParaExampleBaqarah | quran_metadata.py:104 | (2,142) is in Para 2 |
| QuranMetadata.FindParaExampleAyatulKursi | quran_metadata.py:105 | (2,255) is in Para 3 |
| QuranMetadata.FindParaExampleYaSin | quran_metadata.py:106 | (36,1) is in Para 22, although the comment beside it says 23 |
| QuranMetadata.FindParaExampleNaba | quran_metadata.py:107 | (78,1) is in Para 30 |
| QuranMetadata.DisplayLineHolds | quran_metadata.py:96 | a display line built from a number text and a name contains both |
| QuranMetadata.ParaDisplayNames | quran_metadata.py:96 | the display text contains the para's name and its number |
| QuranMetadata.GetParaInfo | quran_metadata.py:88-97 | para number in 1..30 equal to the lookup, juz equal to para, the name of that para, and a display holding both |
| QuranSearchEngine.ReferenceRoundTrip | quran_search_engine.py:34 | a reference "surah:number" reads back as that surah and number |
| QuranSearchEngine.ReferenceInjective | quran_search_engine.py:34 | two records with the same reference have the same surah and verse number |
| QuranSearchEngine.RecordFields | quran_search_engine.py:26-35 | the record's surah and ayah are the loop's surah and the verse's number; its Arabic and English are the verse's; Urdu is the verse's or "" when absent; its search text is its Arabic, English and Urdu joined by spaces |
| QuranSearchEngine.RecordReference | quran_search_engine.py:34 | a record's reference reads back as the loop's surah and the verse's number |
| QuranSearchEngine.RecordsOfAt | quran_search_engine.py:24-35 | record i of a surah is built from that surah's verse i: one record per verse, in the source's order |
| QuranSearchEngine.SurahRecordsOwn | quran_search_engine.py:22-28 | every record a surah contributes carries that surah's number; a failed fetch contributes none |
| QuranSearchEngine.CorpusUpToOrdered | quran_search_engine.py:21-24 | the records of surahs 1..n are grouped by surah in ascending order, all from successful fetches within 1..n |
| QuranSearchEngine.CorpusUpToSurah | quran_search_engine.py:21-24 | the records of surah s in the corpus of 1..n are that surah's records in verse order when 1 ≤ s ≤ n, and none otherwise |
| QuranSearchEngine.CorpusBySurah | quran_search_engine.py:21-35 | the full corpus is sorted by surah, comes only from successful fetches of 1..114, and holds each surah's records in order |
| QuranSearchEngine.SearchTexts | quran_search_engine.py:42 | one text per record, each that record's search text, in record order |
| QuranSearchEngine.EncodeAll | quran_search_engine.py:43 | one embedding row per text, each the encoding of that text |
| QuranSearchEngine.QuranSearchEngine.constructor | quran_search_engine.py:9-13 | a new engine has no records and no embeddings, and is aligned |
| QuranSearchEngine.AppendRecords | quran_search_engine.py:24-35 | the inner loop appends exactly one record per verse of the surah, in the source's order, after the records already collected |
| QuranSearchEngine.QuranSearchEngine.BuildDatabase | quran_search_engine.py:16-44 | after the build, the records are the corpus of surahs 1..114 and the embeddings are the encodings of their search texts, one row per record (aligned) |
| QuranSearchEngine.ResultCountCases | quran_search_engine.py:55 | the slice [-top_k:] keeps min(top_k, n) rows for top_k ≥ 1, all n for top_k = 0, and max(0, n + top_k) for negative top_k |
| QuranSearchEngine.InsertKeepsAscending | quran_search_engine.py:55 | placing an index after the run of scores no larger than its own keeps the order ascending |
| QuranSearchEngine.InsertKeepsPermutation | quran_search_engine.py:55 | placing the next index into an ordering of the earlier ones gives an ordering of all of them, each once |
| QuranSearchEngine.ArgSort | quran_search_engine.py:55 | np.argsort: a permutation of the row indices in ascending score order (ties in any order) |
| QuranSearchEngine.ReversedTailIsTopSelection | quran_search_engine.py:55 | the reversed tail of an ascending argsort has the slice's count, distinct in-range indices, non-increasing scores, and no left-out row scoring above a kept one |
| QuranSearchEngine.TopRows | quran_search_engine.py:55 | `argsort(similarities)[-top_k:][::-1]` is a top selection of the size the slice rule gives |
| QuranSearchEngine.LookUp | quran_search_engine.py:58-65 | the selected rows, in order, become results with the stored record, the row's own score and its formatted percentage; the index error exactly when some selected row has no record |
| QuranSearchEngine.QuranSearchEngine.Search | quran_search_engine.py:46-67 | the outcome is a top selection of the slice's size turned into results, or the index error; `NoIndex` exactly for an index with zero rows; an aligned non-empty index always succeeds |
| QuranSearchEngine.UnbuiltSearch | quran_search_engine.py:52-60 | with no records and no index, a non-negative top_k selects the one self-similarity row and fails on the lookup; a negative top_k returns an empty result |
| QuranSearchEngine.SearchResultCount | quran_search_engine.py:55-59 | a successful search returns as many results as the slice keeps: min(top_k, n) for top_k ≥ 1, all n for top_k = 0 |
| QuranSearchEngine.SearchSuccessFacts | quran_search_engine.py:55-65 | a successful search returns min(top_k, n) results for top_k ≥ 1 (all for 0), in non-increasing score order, each a stored record with its own score and its own formatted percentage, none left out scoring higher |
| QuranSearchEngine.AlignedSearchSucceeds | quran_search_engine.py:52-60 | with a non-empty index and one record per score, every selected row has a record, so the search succeeds |
| QuranSearchEngine.QuranSearchEngine.SaveEmbeddings | quran_search_engine.py:70-84 | returns false and leaves the file as it was without embeddings; otherwise writes both collections together and returns true |
| QuranSearchEngine.QuranSearchEngine.LoadEmbeddings | quran_search_engine.py:86-99 | true exactly for a readable archive whose verses parse, replacing both fields; a missing or unreadable file changes nothing; unparseable verses replace only the embeddings |
| QuranSearchEngine.SaveThenLoad | quran_search_engine.py:76-93 | loading what was saved restores the same records and embeddings, so an aligned engine stays aligned |
| QuranSearchEngine.LoadUnparseableMisaligns | quran_search_engine.py:89-99 | a failed verses parse after the embeddings were replaced returns false and leaves the engine misaligned |
| AppLookup.AppBoundariesAgree | app.py:53-60 | app.py's boundary table equals quran_metadata.py's |
| AppLookup.AppNamesAgree | app.py:62-73 | app.py's para names equal quran_metadata.py's |
| AppLookup.AppParaScanAgrees | app.py:285-301 | app.py's scan as written, with its two return branches, returns the metadata scan's para with its table entry |
| AppLookup.AppGetParaInfo | app.py:283-308 | app.py's get_para_info gives find_para_for_verse's number (default 1), juz equal to para, and the same name and display as quran_metadata.get_para_info |
| AppLookup.SearchFromLeftmost | app.py:328-331 | re.search finds the leftmost position where the pattern matches, and nothing exactly when no position matches |
| AppLookup.SurahOfName | app.py:336-337 | SURAH_MAP lookup: a non-zero result is a surah whose key list holds the word; 0 exactly when no surah's does |
| AppLookup.FirstPatternMatch | app.py:328-331 | the value of a matching pattern no earlier pattern matches; nothing exactly when none matches |
| AppLookup.WordPass | app.py:334-338 | the surah of the first whitespace word that is a key of SURAH_MAP (no earlier word is a key); nothing exactly when no word is a key |
| AppLookup.SubstringPass | app.py:341-346 | a surah one of whose keys longer than 2 characters occurs in the text, while no key of an earlier surah does; 0 exactly when no such key occurs |
| AppLookup.SurahByName | app.py:334-346 | the word pass's surah when it finds one, else the substring pass's; a non-zero result is backed by a word that is a key or a long key inside the text; 0 exactly when there is neither |
| AppLookup.SubstringPassFacts | app.py:341-344 | the group test holds exactly when one of the surah's keys longer than 2 characters occurs in the text |
| AppLookup.DetectSurahNumber | app.py:310-346 | the first number pattern decides when one matches; otherwise the name passes over SURAH_MAP decide, with a value in 0..114 |
| AppLookup.FirstProphetIn | app.py:353-357 | the first entry in dictionary order whose key occurs in the lowered question; nothing exactly when no key occurs |
| AppLookup.DetectProphetName | app.py:348-357 | the first PROPHET_NAMES entry whose key occurs in the lowered question; (None, None) exactly when none does |
| AppLookup.FirstPositiveMatch | app.py:383-392 | the positive value of a pattern every earlier one of which fails or gives 0; nothing exactly when every pattern fails or gives 0 |
| AppLookup.StandaloneVerse | app.py:395-401 | the value of the first whitespace word that is all digits with a value from 1 to 286 (no earlier word is one); nothing exactly when there is none |
| AppLookup.ExtractVerseNumber | app.py:359-403 | 255 whenever "255", "ayat kursi" or "throne verse" occurs; otherwise the first positive pattern value when there is one, else the standalone fallback (1..286 only); any result is at least 1 |
| AppRouting.FirstTopicIn | app.py:940-947 | the first topic, in dictionary order, with a keyword in the lowered question; nothing exactly when no topic has one |
| AppRouting.DetectTopic | app.py:940-947 | the nested keyword loop with its two breaks finds the first topic with a matching keyword |
| AppRouting.LookupTopic | app.py:463-466 | TOPIC_VERSES[topic] when the topic is a key, nothing exactly when it is not |
| AppRouting.TopicVersesResponse | app.py:461-488 | the counting loop over the first ten references lists exactly the served ones, in order, and returns None when the count is 0 |
| AppRouting.TopicResponseFacts | app.py:463-488 | None exactly for an unknown topic or when none of its first ten references is served; otherwise 1..10 entries, each served, with its para line, and the size of the whole list |
| AppRouting.FastingAndMercyHaveNoList | app.py:224-281 | fasting and mercy are absent from TOPIC_VERSES, so their topic answer is None |
| AppRouting.FetchedRowsFaithful | app.py:499-508 | each table row is a listed surah whose fetch succeeded and carries that fetch's names and verse count |
| AppRouting.CollectRows | app.py:499-508 | the fetch-and-append loop collects exactly the rows of the successful fetches, in list order |
| AppRouting.InsertRowPermutes | app.py:510 | inserting a row adds exactly that row |
| AppRouting.InsertRowSorted | app.py:510 | inserting into an ordered list keeps it ordered |
| AppRouting.SortRowsSorted | app.py:510 | the sort returns an ordered permutation of the rows |
| AppRouting.SortRowsStable | app.py:510 | the sort is stable: rows with the same verse count keep their listed order |
| AppRouting.ShortestTableFacts | app.py:510-517 | the shortest table is in ascending verse count, at most ten rows of listed surahs that were served, and its top 3 are its first three rows |
| AppRouting.LongestTableFacts | app.py:543-546 | the longest table is in descending verse count, at most ten rows of listed surahs that were served |
| AppRouting.ShortestSurahsResponse | app.py:491-520 | collect, sort ascending in place, then print ten rows and three |
| AppRouting.LongestSurahsResponse | app.py:522-549 | collect, sort descending in place, then print ten rows |
| AppRouting.FirstAnswer | app.py:755-957 | the first handler that answers gives the reply; no reply exactly when no handler answers |
| AppRouting.FirstAnswerAt | app.py:755-957 | once a handler answers and none before it did, the later handlers do not matter |
| AppRouting.FirstAnswerAppend | app.py:755-957 | trying two groups of handlers in a row answers with the first group's answer if it has one |
| AppRouting.FirstAnswerPair | app.py:808-827 | of two handlers, the first answers when it can, otherwise the second decides |
| AppRouting.FirstAnswerTriple | app.py:755-805 | of three handlers, the first that answers decides |
| AppRouting.ProphetFirst | app.py:755-764 | a detected prophet answers with type prophet_info unless "surah" or "chapter" occurs |
| AppRouting.ExactReferenceSecond | app.py:773-784 | when the prophet handler passes, an X:Y reference the client serves answers as exact_verse |
| AppRouting.ProphetCountBeforeLaterFacts | app.py:832-838 | when the reference handlers pass, a question about the number of prophets gets that fact, whatever later phrases it contains |
| AppRouting.VerseReply | app.py:755-805 | the prophet, exact-reference and Ayat-ul-Kursi handlers, in that order, give their stages' first answer |
| AppRouting.ExactReply | app.py:773-784 | an X:Y reference answers exactly when the client serves that verse |
| AppRouting.KursiReply | app.py:787-805 | an Ayat-ul-Kursi phrase answers with the para line of 2:255 exactly when the client serves 2:255 |
| AppRouting.SurahReply | app.py:808-827 | the surah-and-verse handler, then the surah handler |
| AppRouting.FactualReply | app.py:832-926 | the phrase checks in order; the last and first surah need their fetch to succeed, and otherwise fall through to the later phrases |
| AppRouting.TopicReply | app.py:940-957 | the topic loop, then the topic's verse list when it has one |
| AppRouting.SemanticReplyFacts | app.py:963-969 | at most seven results are shown, each a search result whose Arabic does not start with "حم", in search order; no_results exactly when every result starts with it or there are none |
| AppRouting.SemanticFromAlignedIndex | app.py:960-966 | over an aligned non-empty index the search asked for ten gives min(10, n) results and never an error, and falls to no_results exactly when all start with "حم" |
| AppRouting.Respond | app.py:755-1002 | the reply is the first handler's answer; when no handler answers, it is the post-filtered reply to some outcome the search may give |
| AppRouting.AskQuestion | app.py:747-1002 | the cleaned question is analysed, then routed: the first handler's answer, or the semantic fallback with top_k 10 |
| AppRouting.StartUp | app.py:35-44 | an existing file is loaded with the result ignored: an archive replaces the embeddings, and the records only when its verses parse, an unreadable file changes nothing; a missing file leads to a build (the corpus and the encoding of its search texts) and a save of the whole aligned index |

## Left out

- FastAPI plumbing: the app object, CORS middleware, the `/ask` and `/` routes and uvicorn
  (app.py:6-29, 745-746, 1004-1028). It carries no logic beyond what `AskQuestion` models.
- All printing and the markdown text of every reply. This covers `format_*_response`, the
  prophet biographies, the factual texts and the table layout. Each reply carries the data
  the text is built from.
- `SentenceTransformer.encode` and `cosine_similarity`: these are a neural model and
  floating-point numerics. The encoder is the parameter `embed`. The question's similarity
  to each row is the parameter `scores`, and the model does not connect those scores to
  `embed`.
- `confidence_percent`'s float formatting (`.1f%`): it is the parameter `percent`. The
  ranking never uses it.
- The `.npz` and JSON encodings: the file is an abstract slot (`ArtifactFile`). An exception
  in `np.savez_compressed` (a full disk, say) is not modelled, so a save always succeeds
  once there are embeddings.
- quran_api.py and check_urdu.py (HTTP, a file cache, sleeps, retries). The client is the
  value `Client`: `getSurah` gives the fetched surah or a failure, and `verseAvailable` is
  the `success` flag of a single-verse fetch.
- Exceptions inside `get_topic_verses_response`'s `try` (app.py:471-484): a failing fetch
  counts as unserved.
- DetectSurahNumber: the third surah pattern (app.py:325) is not modelled. Any text it
  matches is also matched by the first pattern, which is tried first, so the third is never
  reached.
- ExactReference: the optional `(?:surah\s*)?` prefix of app.py:773 is left out. It holds no
  digit, so the leftmost match's groups are the same without it.
- Text: `lower`, `split`, `\s`, `\d` and `isdigit` are ASCII only. Python also folds
  non-ASCII letters and accepts Unicode digits and spaces.
- QuranSearchEngine.ArgSort: the order among equal scores is not fixed, since numpy's
  quicksort fixes none. Contracts about the result hold for every tie order.
- AppRouting.Respond: a search that raises (an index with zero rows, or a row with no record) is the reply
  `SearchFailed`. In the service the exception escapes the handler.
