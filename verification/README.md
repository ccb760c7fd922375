# yt-channel-expert pack engine, hybrid retrieval and grounding loop, in Dafny

This project models the core of `yt-channel-expert`, which turns a creator's video
transcripts into a queryable "pack" and answers questions from it with cited
evidence. Each Python module of the core becomes one Dafny module:

- `types` (`Types`): the records and `ms_to_timestamp`.
- `processing/normalize.py` (`Normalize`): whitespace collapsing and dropping blank segments.
- `processing/chunking.py` (`Chunking`): the sliding-window micro-chunker.
- `processing/chapters.py` (`Chapters`): chapter markers read from a video description.
- `processing/sections.py` (`Sections`): sections from chapters, automatic sections grown
  over the chunks, and the assignment of chunks to sections.
- `ingestion/transcripts.py` (`Transcripts`): the SRT parser and the SRT/VTT/JSON loader.
- `index/bm25.py` (`Bm25`, with its ranking step in `Ranking`, which also models the
  vector index's `argsort`/`argpartition` ranking): the lexical index.
- `index/vector_index.py` (`VectorIndex`): the brute-force vector index.
- `index/hybrid.py` (`Hybrid` for the fusion, `HybridRetrieval` for the `HybridRetriever`
  class): score normalisation and fusion of the two rankings.
- `rag/citations.py` (`Citations`): the citation pattern `[video_id @ mm:ss-mm:ss]`.
- `rag/prompts.py` (`Prompts`): the grounded prompt and its debug rendering.
- `rag/answerer.py` (`Answering`): the answer loop with one retry when the draft cites nothing.
- `llm/mock.py` (`MockLlm`), `llm/factory.py` (`LlmFactory`) and `llm/llmhub_http.py`
  (`LlmHubHttp`): the mock model, the backend factory, and the llmhub HTTP backend with
  its server-sent-events framing.
- `ingestion/youtube/selection.py` (`Selection`): choosing which videos go into a pack.
- `pack/pack_builder.py` (`PackBuild`): the build loop and the SQLite tables it fills.

Shared helpers live in `Wrappers`, `Text`, `Sorting` (a stable insertion sort proved
sorted, a permutation and stable per key) and `Json`.

The code works step by step, so the model does too. Each loop is a `method` with its
invariants, proved equal to a specification function. The properties the code promises
are lemmas about those functions. Objects whose fields change are classes:

- `Bm25.BM25`;
- `VectorIndex.BruteForceIndex`;
- `HybridRetrieval.HybridRetriever`;
- `LlmHubHttp.HttpBackend`;
- `PackBuild.PackDb`, the database tables;
- `PackBuild.PackBuilder`.

The model follows the code as written wherever it is surprising. Notable cases:

- **Micro-chunking:** the window loop runs up to the end of the segment that starts
  last, not to the largest end time. A window is kept only when its stripped text is
  not empty.
- **Chapter markers:** every field of a chapter timestamp must have two digits. The
  `1:02:03 Something` example in the code's own comment is not a chapter line.
- **Automatic sections:**
  - The boundary list always contains `len(chunks)`, so the snap step always finds a
    boundary.
  - The "enforce max" loop therefore never extends a section, and
    `max_section_sec` has no effect. `Sections.AutoSectionsProperties` proves this.
- **Assigning chunks to sections:** a chunk goes to the first section whose end lies
  after the chunk's start, or to the last section. This follows the code's `end_ms`
  pointer. A chunk that starts in a gap between sections therefore goes to the next
  section, not to the one before the gap.
- **VTT files:** the loader replaces every `.` by `,`, in cue text as well as in the
  timings. The SRT timing pattern needs `hh:mm:ss`, so VTT cues written `mm:ss.mmm` are
  skipped.
- **Server-sent events:**
  - Only `\n` is stripped from a line, so a `\r` from a `\r\n` line end stays in the
    payload.
  - All leading whitespace after `data:` is dropped. Section 9.2.6 of the WHATWG HTML
    Living Standard drops a single space.

## Model

| member | source | states |
|---|---|---|
| Types.TimestampRoundTrip | src/yt_channel_expert/types.py:56-64 | below 100 hours, the rendering is `mm:ss` (under an hour) or `hh:mm:ss`, and it reads back as the whole number of seconds: only the milliseconds are lost |
| Types.TimestampSameSecond | src/yt_channel_expert/types.py:56-64 | below 100 hours, two times render alike exactly when they fall in the same second |
| Types.TimestampLongHours | src/yt_channel_expert/types.py:62-63 | from 100 hours on, the hour field is wider than two digits, so the rendering leaves the clock pattern |
| Types.ClockLongOfFields | src/yt_channel_expert/types.py:63 | two-digit fields rendered `hh:mm:ss` are read back by the long clock alternative as their seconds |
| Types.ClockShortOfFields | src/yt_channel_expert/types.py:64 | `mm:ss` reads back as its seconds and is too short for the long alternative |
| Text.NormalizeIdempotent | src/yt_channel_expert/processing/normalize.py:11 | collapsing whitespace runs to one space and stripping is idempotent |
| Text.NormalizeEmptyIffAllSpace | src/yt_channel_expert/processing/normalize.py:11-13 | the normalised text is empty exactly when the text is all whitespace |
| Text.NormalizeCanonical | src/yt_channel_expert/processing/normalize.py:11 | a text that is already single-spaced and stripped is left unchanged |
| Normalize.NormalizeSegments | src/yt_channel_expert/processing/normalize.py:8-21 | the loop's output is the specification `Normalized` of its input |
| Normalize.NormalizedShape | src/yt_channel_expert/processing/normalize.py:10-20 | the output is never longer than the input; each output segment has non-empty canonical text and is an input segment with only its text normalised |
| Normalize.NormalizedIdempotent | src/yt_channel_expert/processing/normalize.py:8-21 | normalising twice is normalising once |
| Normalize.NormalizedFixed | src/yt_channel_expert/processing/normalize.py:8-21 | segments that are already clean come back unchanged |
| Normalize.NormalizedAllBlank | src/yt_channel_expert/processing/normalize.py:12-13 | input whose texts are all whitespace normalises to nothing |
| Normalize.KeepsIffNotBlank | src/yt_channel_expert/processing/normalize.py:11-13 | a segment is kept exactly when its text is not all whitespace |
| Chunking.StepMs | src/yt_channel_expert/processing/chunking.py:16 | the step is at least 1 ms, and is the overlap-adjusted window unless that is smaller |
| Chunking.SortedSegments | src/yt_channel_expert/processing/chunking.py:12 | the sorted segments are a permutation of the input, in start order |
| Chunking.SortedSegmentsOfSorted | src/yt_channel_expert/processing/chunking.py:12 | the stable sort leaves segments already in start order as they are |
| Chunking.BuildMicroChunks | src/yt_channel_expert/processing/chunking.py:5-35 | the method returns the specification `MicroChunks` |
| Chunking.WindowLoop | src/yt_channel_expert/processing/chunking.py:19-34 | the window loop emits the chunks of the windows from the first start, stepping until the last segment's end |
| Chunking.EmitWindow | src/yt_channel_expert/processing/chunking.py:31-33 | one turn emits the window's chunk exactly when its text is not empty |
| Chunking.CollectWindow | src/yt_channel_expert/processing/chunking.py:24-30 | the inner loop collects the texts that `WindowTexts` describes, including the early `break` |
| Chunking.WindowTextOf | src/yt_channel_expert/processing/chunking.py:31 | the window text is the stripped space-join of the collected texts |
| Chunking.WindowTextsOverlap | src/yt_channel_expert/processing/chunking.py:25-30 | on start-sorted segments the `break` loses nothing: the collected texts are those of every segment overlapping the window |
| Chunking.WindowTextOverlap | src/yt_channel_expert/processing/chunking.py:24-31 | a window's text is the stripped join of the overlapping segments' texts, and stripping it again changes nothing |
| Chunking.MicroChunksSound | src/yt_channel_expert/processing/chunking.py:10-35 | no chunks without segments; otherwise every chunk starts on the step grid before the last end, ends at `min(start + window, last end)`, carries the first segment's video id and no section, and has as text the non-empty stripped join of the overlapping segments; the starts strictly increase |
| Chunking.MicroChunksStarts | src/yt_channel_expert/processing/chunking.py:20-34 | a chunk starts at `w` exactly when `w` is on the grid, before the last end, and some overlapping segment text is not blank |
| Chunking.SortedChunksFirst | src/yt_channel_expert/processing/chunking.py:20-33 | when the first window has text, the first chunk starts at the first segment's start |
| Chunking.ChunkAtIsMicro | src/yt_channel_expert/processing/chunking.py:31-33 | every chunk the loop emits over sorted segments satisfies `IsMicroChunk` |
| Chunking.ThreeSegmentsExample | tests/test_chunking.py:4-12 | three consecutive ten-second segments, 15-second windows overlapping by 5 seconds: at least two chunks, the first at 0 |
| Chapters.ChapterClock | src/yt_channel_expert/processing/chapters.py:8 | a matched timestamp group is followed by a whitespace character |
| Chapters.ParseChaptersFromDescription | src/yt_channel_expert/processing/chapters.py:10-28 | the method returns the specification `ParseChapters` |
| Chapters.ParseLineTitle | src/yt_channel_expert/processing/chapters.py:17-26 | a parsed chapter has a non-empty title without surrounding whitespace and a start that is a whole number of seconds |
| Chapters.OneDigitHourRejected | src/yt_channel_expert/processing/chapters.py:7-8 | `1:02:03 Something` is not a chapter line, because every field needs two digits |
| Chapters.IntroAccepted | src/yt_channel_expert/processing/chapters.py:6 | `00:00 Intro` is the chapter `(0, "Intro")` |
| Chapters.TimestampLineRoundTrip | src/yt_channel_expert/processing/chapters.py:8-26 | a line `ms_to_timestamp(ms) + " " + title` (below 100 hours, stripped one-line title) reads back as the chapter at the whole second of `ms` with that title |
| Chapters.CandidatesShape | src/yt_channel_expert/processing/chapters.py:13-26 | every collected chapter comes from a line that parses to it, and every parsing line contributes its chapter |
| Chapters.ParseChaptersProperties | src/yt_channel_expert/processing/chapters.py:10-28 | no more chapters than lines, none for an empty description; each chapter is what some line parses to; every parsing line is included; sorted by start; per start time in line order, so the sort is a stable permutation |
| Sections.BuildSectionsFromChapters | src/yt_channel_expert/processing/sections.py:7-22 | the method returns the specification `ChapterSections` |
| Sections.KeptIndicesShape | src/yt_channel_expert/processing/sections.py:15-20 | the kept chapter indices increase, each is kept by the `end_ms <= start_ms` test, and every kept index is listed |
| Sections.ChapterSectionsIndexed | src/yt_channel_expert/processing/sections.py:15-21 | section `k` is the section of the `k`-th kept chapter |
| Sections.SectionsFromChaptersProperties | src/yt_channel_expert/processing/sections.py:7-22 | no sections without chapters; never more sections than chapters; each section is non-empty, carries the video id and has no summary; they are the kept chapters' sections in order, and every kept chapter has its section |
| Sections.ChapterSectionsDisjoint | src/yt_channel_expert/processing/sections.py:15-21 | chapters sorted by start give sections that do not overlap |
| Sections.ChapterSectionsAll | src/yt_channel_expert/processing/sections.py:15-21 | strictly increasing chapters that all start before the video end each give their own section |
| Sections.SpikesShape | src/yt_channel_expert/processing/sections.py:53-56 | the spike indices increase, lie in `1..n-1`, and are exactly the spiking ones |
| Sections.BoundariesShape | src/yt_channel_expert/processing/sections.py:53-58 | the boundaries increase strictly from 0 to `len(chunks)`, and an inner index is a boundary exactly when it spikes |
| Sections.SortedSetUnique | src/yt_channel_expert/processing/sections.py:58 | two strictly increasing lists with the same members are equal, so `sorted(set(...))` is determined by its members |
| Sections.SortedSetOfBoundaries | src/yt_channel_expert/processing/sections.py:53-58 | `sorted(set(boundaries))` is the boundary list itself: the only strictly increasing list with its members |
| Sections.TargetEndFirst | src/yt_channel_expert/processing/sections.py:69-71 | the target loop stops at the first index whose chunk ends at least `target_ms` after the section start, or at the end |
| Sections.SnapNone | src/yt_channel_expert/processing/sections.py:73-77 | no snap exactly when every boundary lies before the proposed end |
| Sections.SnapLeast | src/yt_channel_expert/processing/sections.py:73-77 | the snap is the least boundary at or after the proposed end |
| Sections.AutoChapterSections | src/yt_channel_expert/processing/sections.py:28-93 | the method returns the specification `AutoSections`, an error when chunks and embedding rows differ in number |
| Sections.GrowSectionsLoop | src/yt_channel_expert/processing/sections.py:65-91 | the section loop returns the sections grown from the computed section ends |
| Sections.NextSectionEnd | src/yt_channel_expert/processing/sections.py:67-86 | one turn's end index is the specification `SectionEnd` |
| Sections.SectionEndSnaps | src/yt_channel_expert/processing/sections.py:73-86 | with the boundary list of the code, a snap always exists and the end is that snap: the max loop never moves it |
| Sections.AutoEndAt | src/yt_channel_expert/processing/sections.py:69-86 | each section ends at the least boundary at or after the target end, which is the last chunk or a spike |
| Sections.AutoSectionsProperties | src/yt_channel_expert/processing/sections.py:28-93 | with chunks, a row count that differs from the chunk count is refused and the right one is accepted; the result does not depend on `max_section_sec` |
| Sections.AutoSectionsPartition | src/yt_channel_expert/processing/sections.py:65-91 | the sections cut the chunk list contiguously from 0 to `len(chunks)`; section `k` spans its first chunk's start to its last chunk's end and is titled `Section k+1`; every inner cut is a spike |
| Sections.Advance | src/yt_channel_expert/processing/sections.py:101-102 | the pointer stops at the first section from `sidx` on that ends after the chunk start, or at the last section |
| Sections.AssignChunksToSections | src/yt_channel_expert/processing/sections.py:95-105 | the method returns the specification `Assigned` |
| Sections.AssignFromShape | src/yt_channel_expert/processing/sections.py:99-105 | from pointer `sidx`, every chunk keeps its fields, gets a section index in `sidx..` and the indices never decrease |
| Sections.AssignedProperties | src/yt_channel_expert/processing/sections.py:95-105 | without sections the chunks come back unchanged; otherwise the same chunks with only a section index, in range and non-decreasing |
| Sections.AssignedFirstEnding | src/yt_channel_expert/processing/sections.py:99-105 | for chunks sorted by start, each chunk gets the first section that ends after its start, or the last section |
| Transcripts.TsToMsFields | src/yt_channel_expert/ingestion/transcripts.py:12-13 | with minutes and seconds below 60, the millisecond value gives back each of its four fields |
| Transcripts.SrtLinesAreSplitLines | src/yt_channel_expert/ingestion/transcripts.py:16 | stripping `\n` after `splitlines()` changes no line |
| Transcripts.ParseSrt | src/yt_channel_expert/ingestion/transcripts.py:15-42 | the method returns the specification `SrtSegments` |
| Transcripts.SrtTurn | src/yt_channel_expert/ingestion/transcripts.py:19-41 | one turn of the outer loop advances and contributes the cue that the specification reads at that position |
| Transcripts.ReadCue | src/yt_channel_expert/ingestion/transcripts.py:29-41 | a cue yields its segment exactly when its text is not empty, and reading resumes after its blank lines |
| Transcripts.ReadCueLines | src/yt_channel_expert/ingestion/transcripts.py:33-35 | the text loop collects the stripped lines up to the first blank one |
| Transcripts.SkipBlankLines | src/yt_channel_expert/ingestion/transcripts.py:40-41 | the blank-line loop stops at the first line that is not blank |
| Transcripts.SrtFromCueOrder | src/yt_channel_expert/ingestion/transcripts.py:19-41 | the segments come from timing lines in strictly increasing line order, each with its cue's times and text |
| Transcripts.SrtFromFields | src/yt_channel_expert/ingestion/transcripts.py:36-38 | every segment carries the video id and speaker given and a non-empty stripped text |
| Transcripts.CueTextTrimmed | src/yt_channel_expert/ingestion/transcripts.py:36 | a cue's joined text is stripped |
| Transcripts.ParseSrtProperties | src/yt_channel_expert/ingestion/transcripts.py:15-42 | segments come from timing lines in increasing order; each carries the given video id and speaker and a non-empty stripped text; no timing line, no segments |
| Transcripts.TimingRoundTrip | src/yt_channel_expert/ingestion/transcripts.py:8-10 | a timing line written `hh:mm:ss,mmm --> hh:mm:ss,mmm` reads back as its two millisecond values |
| Transcripts.TimingTextChars | src/yt_channel_expert/ingestion/transcripts.py:25 | a timing line has 29 characters, no line break, and no whitespace at either end, so stripping keeps it |
| Transcripts.SingleCueRoundTrip | tests/test_transcripts.py:3-12 | an index line, a timing line and one line of text parse to exactly that one segment |
| Transcripts.LoadCaseInsensitive | src/yt_channel_expert/ingestion/transcripts.py:61 | the file suffix is compared case-insensitively |
| Transcripts.LoadErrors | src/yt_channel_expert/ingestion/transcripts.py:59-71 | loading fails exactly for an unsupported suffix (`Unsupported transcript format: ` and the suffix) or a JSON transcript the JSON reader refuses |
| Transcripts.VttOfPlainSrt | src/yt_channel_expert/ingestion/transcripts.py:66-70 | a stripped VTT file with no `WEBVTT` and no `.` reads as the same file read as SRT |
| Transcripts.VttTimeToSrt | src/yt_channel_expert/ingestion/transcripts.py:69 | replacing `.` by `,` turns a VTT clock `hh:mm:ss.mmm` into the SRT clock |
| Transcripts.VttTimingReadsAsSrt | src/yt_channel_expert/ingestion/transcripts.py:66-70 | a VTT timing line with `hh:mm:ss.mmm` clocks reads as the same two millisecond values |
| Transcripts.ShortVttTimingSkipped | src/yt_channel_expert/ingestion/transcripts.py:8-10 | a VTT timing that starts `mm:ss.mmm` is not a timing line |
| Bm25.TokensAreTokens | src/yt_channel_expert/index/bm25.py:9-10 | every token is a non-empty lower-case run of word characters |
| Bm25.WordEnd | src/yt_channel_expert/index/bm25.py:7 | the word run found is made only of word characters and ends at the text end or a non-word character |
| Bm25.OneWord | src/yt_channel_expert/index/bm25.py:9-10 | a single word tokenizes to its lower-case form |
| Bm25.TokenizeSplit | src/yt_channel_expert/index/bm25.py:9-10 | a non-word character splits the tokens: tokenizing `a + [c] + b` is tokenizing `a` then `b` |
| Bm25.WordEndBefore | src/yt_channel_expert/index/bm25.py:7 | a word run ends before a non-word character |
| Bm25.BM25.constructor | src/yt_channel_expert/index/bm25.py:18-23 | a new index keeps `k1` and `b` and has an empty corpus, an empty table and an average of 0 |
| Bm25.TokenizeAll | src/yt_channel_expert/index/bm25.py:26 | one token list per text, each that text tokenized |
| Bm25.BM25.AddDocuments | src/yt_channel_expert/index/bm25.py:25-34 | the corpus becomes the tokenized texts alone (nothing accumulates), and the document-frequency table and the average length describe that corpus |
| Bm25.CountOnce | src/yt_channel_expert/index/bm25.py:31-33 | each distinct term of a document adds exactly one to its count |
| Bm25.TermFrequencies | src/yt_channel_expert/index/bm25.py:44-46 | the table counts each term's occurrences in the document |
| Bm25.ScoreDocument | src/yt_channel_expert/index/bm25.py:42-54 | a document's score is the BM25 sum `DocScore` over the query terms |
| Bm25.BM25.Search | src/yt_channel_expert/index/bm25.py:36-56 | the method returns the specification `SearchResult` |
| Bm25.DocFreqBounds | src/yt_channel_expert/index/bm25.py:29-33 | a term's document frequency is at most the corpus size, and positive exactly when some document contains it |
| Bm25.DfTableBounds | src/yt_channel_expert/index/bm25.py:29-33 | the table holds exactly the corpus terms, each with a count from 1 to the corpus size |
| Bm25.DfTableUnique | src/yt_channel_expert/index/bm25.py:26-33 | the table is determined by the corpus, so rebuilding it from scratch leaves no trace of earlier corpora |
| Bm25.AvgLength | src/yt_channel_expert/index/bm25.py:34 | the average length is never negative |
| Bm25.SearchProperties | src/yt_channel_expert/index/bm25.py:36-56 | nothing for an empty query or corpus; at most `top_k` hits (Python slice); each hit is a document with a positive score equal to its BM25 score; ranked by score, ties by index; no document twice; nothing left out outscores a hit; with `top_k` at least the corpus size, every positive-scoring document is returned |
| Bm25.NoSharedTokenNotReturned | src/yt_channel_expert/index/bm25.py:47-56 | a document sharing no token with the query scores 0 and is never returned |
| Bm25.DocScoreConcat | src/yt_channel_expert/index/bm25.py:47-54 | the score of a query is the sum of the scores of its parts |
| Bm25.RepeatedToken | src/yt_channel_expert/index/bm25.py:47 | a repeated query token counts twice |
| Ranking.TakeLength | src/yt_channel_expert/index/bm25.py:55 | `[:top_k]` keeps a prefix whose length Python's slice rules give, negative `top_k` included |
| Sorting.SortBy | src/yt_channel_expert/index/bm25.py:55 | sorting by key gives a permutation in key order that keeps the input order among equal keys |
| Sorting.SortByOfSorted | src/yt_channel_expert/processing/chunking.py:12 | sorting a list already in key order leaves it unchanged |
| Sorting.StableOrder | src/yt_channel_expert/index/bm25.py:55 | two items of equal key keep their relative order through the sort |
| Ranking.SortedPermutation | src/yt_channel_expert/index/bm25.py:55 | the sorted indices are a permutation of `range(n)` |
| Ranking.SortedDescending | src/yt_channel_expert/index/bm25.py:55 | the sorted indices have non-increasing scores |
| Ranking.SortedTie | src/yt_channel_expert/index/bm25.py:55 | equal scores keep increasing index order, as Python's stable sort does |
| Ranking.RankedProperties | src/yt_channel_expert/index/bm25.py:55 | the ranked indices have the slice's length, are in score order, are distinct, come best first, and are all present when `top_k` is at least `n` |
| VectorIndex.RowScores | src/yt_channel_expert/index/vector_index.py:32 | row `i`'s score is the dot product of row `i` with the query |
| VectorIndex.BruteForceIndex.constructor | src/yt_channel_expert/index/vector_index.py:19-20 | a new index holds no matrix |
| VectorIndex.BruteForceIndex.Add | src/yt_channel_expert/index/vector_index.py:22-24 | the matrix given replaces any earlier one |
| VectorIndex.BruteForceIndex.Search | src/yt_channel_expert/index/vector_index.py:26-38 | no hits before `add`; refused exactly when the matrix has rows and `top_k` is below `-n` |
| VectorIndex.TopKProperties | src/yt_channel_expert/index/vector_index.py:33-38 | for a matrix without rows or `top_k >= -n`: accepted; as many hits as the slice keeps; each hit is a row with its dot-product score; ranked, distinct, best first; all rows when `top_k >= n` |
| VectorIndex.TopKRefused | src/yt_channel_expert/index/vector_index.py:36 | over `n > 0` rows, `top_k < -n` is refused with NumPy's `kth(=top_k+n) out of bounds (n)` value error; a matrix without rows gives no hits for every `top_k` |
| VectorIndex.KthMessageExample | src/yt_channel_expert/index/vector_index.py:36 | `top_k = -7` over five rows is refused with `kth(=-2) out of bounds (5)` |
| Hybrid.MaxOf | src/yt_channel_expert/index/hybrid.py:34 | the maximum is a member and bounds every score |
| Hybrid.MinOf | src/yt_channel_expert/index/hybrid.py:35 | the minimum is a member and is below every score |
| Hybrid.NormAt | src/yt_channel_expert/index/hybrid.py:31-38 | each normalised score is the min-max scaling of its score |
| Hybrid.NormUnit | src/yt_channel_expert/index/hybrid.py:31-38 | normalised scores lie in `[0, 1]` |
| Hybrid.NormMonotone | src/yt_channel_expert/index/hybrid.py:31-38 | normalisation keeps the order of scores |
| Hybrid.NormExtremes | src/yt_channel_expert/index/hybrid.py:36-38 | with a spread of at least `1e-9` the maximum maps to 1 and the minimum to 0; otherwise every score maps to 1 |
| Hybrid.MergeVector | src/yt_channel_expert/index/hybrid.py:44-45 | the vector pass builds the table `VecPass` |
| Hybrid.MergeBm25 | src/yt_channel_expert/index/hybrid.py:46-51 | the BM25 pass updates the table as `BmPass` says |
| Hybrid.Search | src/yt_channel_expert/index/hybrid.py:40-55 | the fusion returns the specification `Fused` |
| Hybrid.MergedProperties | src/yt_channel_expert/index/hybrid.py:43-53 | the merged table has one entry per index; each entry is the reference `ExpectedHit` for its index (weighted sum of both normalised scores, sources); every index of either list is present; the vector hits come first in their order |
| Hybrid.MergedBm25Order | src/yt_channel_expert/index/hybrid.py:46-53 | entries new to the table come after the vector hits, in BM25 order, as dictionary insertion order gives |
| Hybrid.MergedSize | src/yt_channel_expert/index/hybrid.py:43-53 | the table has at most as many entries as both lists together |
| Hybrid.FusedProperties | src/yt_channel_expert/index/hybrid.py:53-55 | the fused list has the slice's length, no index twice, each entry its reference hit, non-increasing scores, nothing left out scoring more than a kept entry, and every index when `top_k` covers the table |
| Hybrid.FusedTie | src/yt_channel_expert/index/hybrid.py:54 | entries of equal score keep the table's insertion order (stable sort) |
| Hybrid.ExpectedSources | src/yt_channel_expert/index/hybrid.py:45-51 | an index has an entry exactly when some list has it; the sources are `("bm25", "vector")` for both, `("vector",)` or `("bm25",)` for one |
| Hybrid.ExpectedUnit | src/yt_channel_expert/index/hybrid.py:45-51 | for `alpha` in `[0, 1]`, a fused score lies in `[0, 1]`; a vector-only score is at most `alpha`, a BM25-only one at most `1 - alpha` |
| Hybrid.FusedUnit | src/yt_channel_expert/index/hybrid.py:40-55 | for `alpha` in `[0, 1]` every fused score lies in `[0, 1]` |
| Hybrid.VectorOnlyFused | src/yt_channel_expert/index/hybrid.py:28-55 | without BM25 hits, the fused list is the vector table cut to `top_k` |
| Hybrid.VectorOnlyOrder | src/yt_channel_expert/index/hybrid.py:28-55 | without BM25 hits, the result keeps the vector ranking, each hit weighted by `alpha` |
| HybridRetrieval.HybridRetriever.constructor | src/yt_channel_expert/index/hybrid.py:16-24 | the retriever keeps its vector index, optional BM25 index and weight |
| HybridRetrieval.HybridRetriever.Search | src/yt_channel_expert/index/hybrid.py:26-55 | a refused vector search is refused as a whole; otherwise the vector hits and the BM25 hits (none without an index) are fused |
| HybridRetrieval.HybridRetriever.SearchProperties | src/yt_channel_expert/index/hybrid.py:26-55 | the hits are distinct, in non-increasing score order, no more than both lists together, and in `[0, 1]` for `alpha` in `[0, 1]` |
| HybridRetrieval.HybridRetriever.VectorHitsDistinct | src/yt_channel_expert/index/vector_index.py:26-38 | the vector index never returns a row twice |
| Citations.MatchAt | src/yt_channel_expert/rag/citations.py:5 | a citation match starts at `[` and is at least 15 characters long |
| Citations.Search | src/yt_channel_expert/rag/citations.py:8 | a found match lies inside the text |
| Citations.SearchSpec | src/yt_channel_expert/rag/citations.py:8 | `search` finds the leftmost position where the pattern matches, with that match's end; nothing when it matches nowhere |
| Citations.SearchFinds | src/yt_channel_expert/rag/citations.py:8 | a match anywhere after the start is found, at that position or before |
| Citations.SearchSkips | src/yt_channel_expert/rag/citations.py:8 | text without `[` can be skipped |
| Citations.MatchLenOf | src/yt_channel_expert/rag/citations.py:5 | a well-formed citation followed by anything matches exactly up to its `]` |
| Citations.CitationMatches | src/yt_channel_expert/rag/citations.py:5 | a well-formed citation inside a text matches where it starts |
| Citations.MatchShape | src/yt_channel_expert/rag/citations.py:5 | every match is a well-formed citation: an id of `[A-Za-z0-9_-]`, `@` between optional whitespace, two clocks joined by `-` |
| Citations.HasCitationsIff | src/yt_channel_expert/rag/citations.py:7-8 | `has_citations` holds exactly when the pattern matches at some position |
| Citations.HasIffCount | src/yt_channel_expert/rag/citations.py:7-11 | `has_citations` holds exactly when `count_citations` is positive |
| Citations.ContainsCited | src/yt_channel_expert/rag/citations.py:8 | text around a cited text is still cited |
| Citations.FirstShape | src/yt_channel_expert/rag/citations.py:8 | a cited text contains a well-formed citation |
| Citations.CitationFound | src/yt_channel_expert/rag/citations.py:8 | a well-formed citation is cited, and is its own first citation |
| Citations.SingleCitation | src/yt_channel_expert/rag/citations.py:11 | a well-formed citation counts once |
| Citations.ExampleCitation | src/yt_channel_expert/rag/citations.py:5 | `[abc123 @ 01:02-01:10]` is a citation |
| Citations.NoBracketNoCitation | src/yt_channel_expert/rag/citations.py:7-11 | text without `[` has no citation and a count of 0 |
| Citations.CitationCountBound | src/yt_channel_expert/rag/citations.py:11 | the count is at most the length divided by 15 |
| Citations.CountBound | src/yt_channel_expert/rag/citations.py:11 | from any position, the count times 15 is at most the remaining length |
| Citations.CitedAfter | src/yt_channel_expert/rag/citations.py:8 | after text without `[`, the first citation found is the one that follows |
| Citations.CountStep | src/yt_channel_expert/rag/citations.py:11 | `findall` counts a match and resumes at its end |
| Prompts.BuildMessages | src/yt_channel_expert/rag/prompts.py:20-44 | the method returns the specification `Messages` |
| Prompts.AppendSectionLines | src/yt_channel_expert/rag/prompts.py:30-31 | one `- ` line per section summary is appended |
| Prompts.AppendEvidenceLines | src/yt_channel_expert/rag/prompts.py:36-39 | one tagged evidence line per chunk is appended |
| Prompts.MessagesShape | src/yt_channel_expert/rag/prompts.py:17-21 | two messages, system then user, each one text part; the system text is the rules and the user text is the lines joined |
| Prompts.UserLinesLayout | src/yt_channel_expert/rag/prompts.py:23-42 | the user lines are the channel line, the question line, the sections block only with sections, the evidence block only with evidence, a blank line and the closing instruction, at the positions given |
| Prompts.UserLinesHeaders | src/yt_channel_expert/rag/prompts.py:27-35 | the sections header appears exactly when there are sections, and the evidence header exactly when there are chunks |
| Prompts.UserTextEnds | src/yt_channel_expert/rag/prompts.py:23-43 | the user text starts with the channel and question lines and ends with a blank line and the closing instruction |
| Prompts.EvidenceLinesTagged | src/yt_channel_expert/rag/prompts.py:36-39 | one evidence line per chunk, each starting with `[` |
| Prompts.EvidenceTagCites | src/yt_channel_expert/rag/prompts.py:37-39 | for a valid video id and times below 100 hours, an evidence line's tag is a citation and the first one in its line |
| Prompts.TagCites | src/yt_channel_expert/rag/prompts.py:39 | a tag `[id @ t1-t2]` of clocks is a citation and the first one of its line |
| Prompts.TextOfAppend | src/yt_channel_expert/rag/prompts.py:49 | the text of concatenated parts is the concatenation of their texts |
| Prompts.TextOfPart | src/yt_channel_expert/rag/prompts.py:49 | a part adds its text only when its type is `text` |
| Prompts.MessagesToDebugPrompt | src/yt_channel_expert/rag/prompts.py:46-52 | the method returns the specification `DebugPromptOf` |
| Prompts.DebugPromptShape | src/yt_channel_expert/rag/prompts.py:46-52 | the debug prompt is the role blocks joined by blank lines, followed by `ASSISTANT:` |
| Prompts.UpperRoles | src/yt_channel_expert/rag/prompts.py:50 | the roles render as `SYSTEM` and `USER` |
| Prompts.BuiltPrompt | src/yt_channel_expert/rag/prompts.py:46-52 | the built messages render as `SYSTEM:`, the rules, `USER:`, the user text, `ASSISTANT:` |
| Prompts.SystemUserPrompt | src/yt_channel_expert/rag/prompts.py:46-52 | any system and user message pair renders that way |
| Prompts.EvidencePromptCites | src/yt_channel_expert/rag/prompts.py:20-52 | with one chunk of valid id and times, the debug prompt contains a citation |
| MockLlm.FixedTextsPlain | src/yt_channel_expert/llm/mock.py:17-21 | the fixed sentences contain no `[` |
| MockLlm.DefaultCiteShape | src/yt_channel_expert/llm/mock.py:16 | the fallback `[unknown @ 00:00-00:00]` is a well-formed citation |
| MockLlm.CiteShape | src/yt_channel_expert/llm/mock.py:14-16 | the quoted citation is always well-formed: the prompt's first citation when it has one, the fallback otherwise |
| MockLlm.ReplyCites | src/yt_channel_expert/llm/mock.py:17-22 | the reply around a citation is cited, counts exactly two citations, and cites it first |
| MockLlm.TwoCitations | src/yt_channel_expert/llm/mock.py:17-22 | plain text around two copies of a citation counts exactly two |
| MockLlm.LastCitation | src/yt_channel_expert/llm/mock.py:17-22 | the closing citation after plain text counts exactly once |
| MockLlm.GenerateCites | src/yt_channel_expert/llm/mock.py:12-22 | the mock always answers with exactly two citations, the first one being the prompt's first citation or the fallback |
| MockLlm.OptionsIgnored | src/yt_channel_expert/llm/mock.py:12 | tools, tool choice and response format do not change the answer |
| MockLlm.CitesEvidence | src/yt_channel_expert/llm/mock.py:14-16 | given a citable evidence chunk, the mock cites the prompt's first citation |
| Answering.TopChunks | src/yt_channel_expert/rag/answerer.py:64-67 | one debug entry per retrieved chunk, with its video id, time span and score |
| Answering.Answer | src/yt_channel_expert/rag/answerer.py:43-69 | the answer and the model calls are those of `Run`; `citations_present` holds exactly when there is evidence and the answer cites; one debug entry per chunk |
| Answering.RunCalls | src/yt_channel_expert/rag/answerer.py:46-57 | one or two calls; the first with the built messages and a text response format; a second exactly when there is evidence and the draft cites nothing, with the reminder appended |
| Answering.RunAnswer | src/yt_channel_expert/rag/answerer.py:46-60 | the answer is the last call's output |
| Answering.RunCitations | src/yt_channel_expert/rag/answerer.py:48-61 | `citations_present` is evidence and citation; without evidence it is false after one call; a cited first draft is kept |
| Answering.RunDebug | src/yt_channel_expert/rag/answerer.py:62-67 | the debug record holds the section summaries and one entry per chunk |
| Answering.MockAnswer | src/yt_channel_expert/rag/answerer.py:46-57 | with the mock model there is never a retry, and citations are reported exactly when there is evidence |
| LlmFactory.BuiltBackend | src/yt_channel_expert/llm/factory.py:6-61 | each backend built is of the kind requested and, except the mock, gets `max_new_tokens` as its token limit |
| LlmFactory.Refusals | src/yt_channel_expert/llm/factory.py:10-63 | building fails exactly for an unknown backend, llmhub without provider or model, an http timeout that is not a number, or llama_cpp or mlx without a model path; an unknown backend gives `Unknown llm backend: ` and its name |
| LlmFactory.HubChoice | src/yt_channel_expert/llm/factory.py:13-40 | llmhub builds the in-process backend exactly for the local modes, otherwise the HTTP backend |
| LlmFactory.HttpDefaults | src/yt_channel_expert/llm/factory.py:25-40 | without options, the HTTP backend uses `http://localhost:8787`, a 60-second timeout and TLS verification |
| LlmFactory.ModeCaseInsensitive | src/yt_channel_expert/llm/factory.py:13-14 | the mode is compared in lower case: `LOCAL` selects the in-process backend |
| LlmFactory.TimeoutErrors | src/yt_channel_expert/llm/factory.py:26 | an http timeout that `float` refuses fails the build with CPython's message: `ValueError` naming a non-numeric string by its `repr`, `TypeError` naming the type `NoneType`, `list` or `dict` |
| LlmHubHttp.PayloadOverrides | src/yt_channel_expert/llm/llmhub_http.py:79 | an object of overrides is accepted, and each of its fields replaces or extends the payload |
| LlmHubHttp.PairsApplied | src/yt_channel_expert/llm/llmhub_http.py:79 | overrides given as a list of two-element lists with string keys are all stored: each key named by a pair holds the value of the last pair naming it, and every other key keeps its payload value |
| LlmHubHttp.PairsRefused | src/yt_channel_expert/llm/llmhub_http.py:79 | a list of overrides is accepted when every element reads as a pair; otherwise the first element that does not raises its own error (not a sequence, wrong length, unhashable key) |
| LlmHubHttp.UpdateCases | src/yt_channel_expert/llm/llmhub_http.py:79 | an empty list or string changes nothing; a non-empty string raises `ValueError` (its first character has length 1); a number, boolean or `None` raises `TypeError`; a single string-keyed pair sets that key |
| LlmHubHttp.TemperaturePair | src/yt_channel_expert/llm/llmhub_http.py:79 | `[["temperature", 0.1]]` overrides the temperature and nothing else |
| LlmHubHttp.PayloadFixedKeys | src/yt_channel_expert/llm/llmhub_http.py:63-69 | the five fixed keys are always present, with their given values unless overridden |
| LlmHubHttp.FixedKeep | src/yt_channel_expert/llm/llmhub_http.py:63-79 | a fixed key survives the optional keys and keeps its value unless overridden |
| LlmHubHttp.OptionsKeep | src/yt_channel_expert/llm/llmhub_http.py:70-77 | the optional keys leave every other key as it was |
| LlmHubHttp.PayloadOptionalKeys | src/yt_channel_expert/llm/llmhub_http.py:70-77 | each optional key is present exactly when it is given (unless overridden), with the given value |
| LlmHubHttp.PutGivenKeeps | src/yt_channel_expert/llm/llmhub_http.py:70-77 | setting a key when its value is given leaves the other keys unchanged |
| LlmHubHttp.NormalizeCases | src/yt_channel_expert/llm/llmhub_http.py:201-220 | a string is returned as it is; a string `text` wins even over tool calls; tool calls without text are refused with a runtime error, and nothing else is refused; an object with neither gives `""`; other values are serialised |
| LlmHubHttp.EventCases | src/yt_channel_expert/llm/llmhub_http.py:176-199 | `[DONE]` yields nothing; data that is not JSON yields itself; only `message_end` records metadata; each event yields at most one value; only a non-object or an `error` event fails |
| LlmHubHttp.DeltaYields | src/yt_channel_expert/llm/llmhub_http.py:186-188 | a `delta` event yields its `textDelta` exactly when it is truthy |
| LlmHubHttp.Groups | src/yt_channel_expert/llm/llmhub_http.py:153-161 | the grouping of the lines between blank lines has at least one group |
| LlmHubHttp.FrameGroups | src/yt_channel_expert/llm/llmhub_http.py:151-165 | after any prefix of the lines, the pending lines are the payloads of the open group and the events are those of the closed groups |
| LlmHubHttp.FrameGroupsBlank | src/yt_channel_expert/llm/llmhub_http.py:155-161 | a blank line closes the open group |
| LlmHubHttp.FrameGroupsLine | src/yt_channel_expert/llm/llmhub_http.py:162-165 | any other line joins the open group, adding a payload when it is a `data:` line |
| LlmHubHttp.CommentNotData | src/yt_channel_expert/llm/llmhub_http.py:162-165 | a comment line is never a data line |
| LlmHubHttp.EventsAreGroups | src/yt_channel_expert/llm/llmhub_http.py:151-169 | the events are exactly the groups between blank lines that hold data, each its payloads joined by `\n`, the last group included |
| LlmHubHttp.DispatchedCount | src/yt_channel_expert/llm/llmhub_http.py:155-169 | no more events than groups, and none without data lines |
| LlmHubHttp.CarriageReturnKept | src/yt_channel_expert/llm/llmhub_http.py:154 | with `\r\n` line ends, the `\r` stays in the payload and the `\r` line does not end the event |
| LlmHubHttp.LeadingSpacesDropped | src/yt_channel_expert/llm/llmhub_http.py:165 | all leading whitespace of a payload is dropped |
| LlmHubHttp.FeedAllStops | src/yt_channel_expert/llm/llmhub_http.py:159-169 | once an event has raised, later events change nothing |
| LlmHubHttp.FeedAllGrows | src/yt_channel_expert/llm/llmhub_http.py:159-169 | the yielded values only grow, by at most one per event, and an error keeps what was yielded before it |
| LlmHubHttp.FramePrefix | src/yt_channel_expert/llm/llmhub_http.py:151-169 | the events of a prefix of the lines come first among the events of all the lines |
| LlmHubHttp.HttpBackend.constructor | src/yt_channel_expert/llm/llmhub_http.py:33-59 | the base URL loses its trailing `/`, missing extras become `{}`, and the last-call metadata starts as `None` |
| LlmHubHttp.HttpBackend.Generate | src/yt_channel_expert/llm/llmhub_http.py:61-108 | overrides that `payload.update` refuses (`Update`) raise before anything changes; a body that is not JSON is returned as it is; an object records its `usage`, `finishReason` and `toolCalls`, then the output is normalised |
| LlmHubHttp.HttpBackend.HandleEvent | src/yt_channel_expert/llm/llmhub_http.py:176-199 | the event yields what `Event` says, and a `message_end` event records its usage and finish reason |
| LlmHubHttp.HttpBackend.StreamGenerate | src/yt_channel_expert/llm/llmhub_http.py:110-169 | overrides that `payload.update` refuses end it with that error before anything is yielded or recorded; otherwise the values yielded, the error that ends the stream and the metadata are those of feeding the stream's events in order |
| LlmHubHttp.HttpBackend.ReadStream | src/yt_channel_expert/llm/llmhub_http.py:151-169 | the framing loop feeds exactly the stream's events and stops at the first error |
| LlmHubHttp.HttpBackend.DispatchEvent | src/yt_channel_expert/llm/llmhub_http.py:159-160 | one event's values are appended, or its error ends the stream |
| LlmHubHttp.BaseUrlTrimmed | src/yt_channel_expert/llm/llmhub_http.py:46 | the base URL never ends with `/`, trimming is idempotent, and a URL without a trailing `/` is kept |
| Selection.SelectLatest | src/yt_channel_expert/ingestion/youtube/selection.py:24-27 | nothing for a limit of 0 or less; otherwise `min(limit, n)` videos |
| Selection.LatestSelection | src/yt_channel_expert/ingestion/youtube/selection.py:24-27 | the latest selection is a sub-multiset of the catalog, newest first, with no video left out newer than one kept, and stable among equal dates |
| Selection.TakeOfSorted | src/yt_channel_expert/ingestion/youtube/selection.py:27 | a prefix of a stable descending sort keeps those properties |
| Selection.TakeLeavesLater | src/yt_channel_expert/ingestion/youtube/selection.py:27 | no video left out of the first `m` of a sorted catalog is newer than one kept |
| Selection.VideoMapSpec | src/yt_channel_expert/ingestion/youtube/selection.py:31 | the id map holds exactly the catalog's ids, each mapped to the last video with that id |
| Selection.Pick | src/yt_channel_expert/ingestion/youtube/selection.py:32 | picking never returns more videos than ids |
| Selection.PickKnown | src/yt_channel_expert/ingestion/youtube/selection.py:32 | picking returns the map's video for each known id, in the order of the ids |
| Selection.KnownMembers | src/yt_channel_expert/ingestion/youtube/selection.py:32 | the known ids are those listed that the map holds |
| Selection.PickFromCatalog | src/yt_channel_expert/ingestion/youtube/selection.py:31-32 | each picked video has the id asked for and is in the catalog |
| Selection.PickedFromCatalog | src/yt_channel_expert/ingestion/youtube/selection.py:31-32 | every video picked by id comes from the catalog |
| Selection.InPlaylist | src/yt_channel_expert/ingestion/youtube/selection.py:35 | the playlist filter never lengthens the catalog |
| Selection.InPlaylistSpec | src/yt_channel_expert/ingestion/youtube/selection.py:35 | the playlist videos are a subsequence of the catalog, with each video as often as it is listed in the playlist |
| Selection.InPlaylistListed | src/yt_channel_expert/ingestion/youtube/selection.py:35 | every video returned is in the playlist |
| Selection.InPlaylistOrder | src/yt_channel_expert/ingestion/youtube/selection.py:35 | the playlist videos keep the catalog order |
| Selection.InPlaylistCounts | src/yt_channel_expert/ingestion/youtube/selection.py:35 | each video occurs as often as the catalog lists it in the playlist |
| Selection.SelectErrors | src/yt_channel_expert/ingestion/youtube/selection.py:15-41 | selection fails exactly for an unknown mode, a playlist selection with neither ids nor a playlist id, or a manual selection without ids |
| Selection.SelectedFromCatalog | src/yt_channel_expert/ingestion/youtube/selection.py:15-41 | every selected video is in the catalog |
| Selection.SelectByIds | src/yt_channel_expert/ingestion/youtube/selection.py:29-41 | selection by ids succeeds and returns one video per known id, in the order of the ids |
| PackBuild.MaxEndMs | src/yt_channel_expert/pack/pack_builder.py:82 | the video end is the largest segment end |
| PackBuild.Works | src/yt_channel_expert/pack/pack_builder.py:61-108 | a successful video loop has one work item per video |
| PackBuild.WorksShape | src/yt_channel_expert/pack/pack_builder.py:61-108 | the loop succeeds exactly when every video's iteration does, and then holds each one's work in order; otherwise it fails with the first failing video's error |
| PackBuild.WorksStep | src/yt_channel_expert/pack/pack_builder.py:61-108 | one more video appends its work or ends the loop with its error |
| PackBuild.WorksAbort | src/yt_channel_expert/pack/pack_builder.py:61-108 | an error raised for an early video is the error of the whole build |
| PackBuild.Ids | src/yt_channel_expert/pack/pack_builder.py:180-189 | after `base` rows, the section ids handed out are `base + 1` on |
| PackBuild.ChunkRowsOf | src/yt_channel_expert/pack/pack_builder.py:192-197 | one row per chunk, in order |
| PackBuild.ChunkTexts | src/yt_channel_expert/pack/pack_builder.py:106-107 | one text per chunk, its own |
| PackBuild.Tagged | src/yt_channel_expert/pack/pack_builder.py:103-108 | each item is paired with its video, in order |
| PackBuild.SectionTexts | src/yt_channel_expert/pack/pack_builder.py:104 | one embedding text per section row, from its video title, title and summary |
| PackBuild.PairTexts | src/yt_channel_expert/pack/pack_builder.py:107 | one text per chunk row, the chunk's own |
| PackBuild.VideoTable | src/yt_channel_expert/pack/pack_builder.py:165-171 | the `video` table after `INSERT OR REPLACE` of each video |
| PackBuild.VideoTableKeys | src/yt_channel_expert/pack/pack_builder.py:165-171 | the `video` table has one row per distinct id, so never more rows than the manifest counts |
| PackBuild.VideoTableLast | src/yt_channel_expert/pack/pack_builder.py:165-171 | the row for an id holds the last video listed with it |
| PackBuild.PackDb.constructor | src/yt_channel_expert/pack/pack_builder.py:50-51 | a fresh database has every table empty |
| PackBuild.PackDb.InsertOrReplaceChannel | src/yt_channel_expert/pack/pack_builder.py:158-163 | the channel row for that id is replaced; nothing else changes |
| PackBuild.PackDb.InsertOrReplaceVideo | src/yt_channel_expert/pack/pack_builder.py:167-170 | the video row for that id is replaced; nothing else changes |
| PackBuild.PackDb.InsertSegments | src/yt_channel_expert/pack/pack_builder.py:173-178 | the segments are appended; nothing else changes |
| PackBuild.PackDb.InsertSection | src/yt_channel_expert/pack/pack_builder.py:183-187 | the section is appended and its row id is the new row count |
| PackBuild.PackDb.InsertChunks | src/yt_channel_expert/pack/pack_builder.py:198-201 | the rows are appended; nothing else changes |
| PackBuild.PackBuilder.constructor | src/yt_channel_expert/pack/pack_builder.py:36-38 | the builder keeps its configuration |
| PackBuild.PackBuilder.FindTranscript | src/yt_channel_expert/pack/pack_builder.py:151-156 | the loop returns `FoundTranscript` |
| PackBuild.FoundTranscriptSpec | src/yt_channel_expert/pack/pack_builder.py:151-156 | the transcript found is the first of `.srt`, `.vtt`, `.json` that exists, and nothing is found exactly when none exists |
| PackBuild.TranscriptSuffix | src/yt_channel_expert/pack/pack_builder.py:153 | the transcript file is named `video_id + ext`, whose suffix is the extension unless the id is empty |
| PackBuild.EmptyVideoIdRefused | src/yt_channel_expert/pack/pack_builder.py:62-65 | a video with an empty id and a transcript file cannot be built: its suffix reads as empty and the loader refuses it |
| PackBuild.PackBuilder.InsertVideos | src/yt_channel_expert/pack/pack_builder.py:165-171 | the `video` table gets the rows of `VideoTable`; nothing else changes |
| PackBuild.PackBuilder.InsertSections | src/yt_channel_expert/pack/pack_builder.py:180-189 | the sections are appended and their ids are the next row numbers, in order |
| PackBuild.PackBuilder.InsertChunks | src/yt_channel_expert/pack/pack_builder.py:191-202 | one row per chunk is appended, its section index resolved to a row id or NULL |
| PackBuild.PackBuilder.CollectSections | src/yt_channel_expert/pack/pack_builder.py:103-105 | each section's embedding text and row are appended, in order |
| PackBuild.PackBuilder.CollectChunks | src/yt_channel_expert/pack/pack_builder.py:106-108 | each chunk's text and row are appended, in order |
| PackBuild.PackBuilder.LoadSegments | src/yt_channel_expert/pack/pack_builder.py:62-67 | the segments read and normalised are stored, or nothing is stored when loading fails |
| PackBuild.PackBuilder.BuildSections | src/yt_channel_expert/pack/pack_builder.py:74-95 | the chunks are the micro-chunks of the segments, and the sections come from the chapters, or are grown over the chunks when there are none |
| PackBuild.PackBuilder.ProcessVideo | src/yt_channel_expert/pack/pack_builder.py:62-100 | one video's segments, sections and linked chunk rows are appended, as `VideoWorkOf` says |
| PackBuild.PackBuilder.LoadVideos | src/yt_channel_expert/pack/pack_builder.py:61-108 | the loop succeeds exactly when every video does; then the tables hold every video's rows and the collected texts and rows line up with them; otherwise the first error is raised |
| PackBuild.PackBuilder.BuildFromFolder | src/yt_channel_expert/pack/pack_builder.py:40-149 | a fresh database with the channel, the video table and every video's rows, and the pack's other contents; or the first transcript error |
| PackBuild.VideoWorkEmpty | src/yt_channel_expert/pack/pack_builder.py:63-71 | a video without a transcript file, or whose transcript normalises to nothing, adds nothing |
| PackBuild.VideoSectionsShape | src/yt_channel_expert/pack/pack_builder.py:81-95 | every section belongs to its video; with chapters, at most one section per chapter and none with a summary; without them, a video with chunks gets at least one section |
| PackBuild.VideoChunksIndexed | src/yt_channel_expert/pack/pack_builder.py:97-99 | with sections, every chunk carries the index of one of them, and the indices never decrease |
| PackBuild.AutoSectionsTagged | src/yt_channel_expert/pack/pack_builder.py:88-95 | the automatic sections of a non-empty chunk list are not empty and carry the video id |
| PackBuild.BuildSectionsTagged | src/yt_channel_expert/pack/pack_builder.py:103-105 | every collected section row belongs to the video it is paired with |
| PackBuild.SectionRowsTagged | src/yt_channel_expert/pack/pack_builder.py:103-105 | sections that carry their video id stay paired with that video when collected |
| PackBuild.AssignedRowsLinked | src/yt_channel_expert/pack/pack_builder.py:97-100 | with sections, every chunk row references the row id of the section its index names |
| PackBuild.SectionTableAligned | src/yt_channel_expert/pack/pack_builder.py:97-105 | row `k` of the `section` table is the section of `section_rows[k]`, so section vectors and rows line up |
| PackBuild.ChunkTableAligned | src/yt_channel_expert/pack/pack_builder.py:100-108 | row `k` of the `micro_chunk` table holds the chunk of `chunk_rows[k]`, so chunk vectors, BM25 documents and rows line up |
| PackBuild.ChunkSectionsOwnVideo | src/yt_channel_expert/pack/pack_builder.py:97-100 | every section id stored for a chunk is the row id of a section of the same video |
| PackBuild.PackFacts | src/yt_channel_expert/pack/pack_builder.py:110-138 | for a build that loads every video: the section vector file is written exactly when the `section` table has rows, the chunk vector file exactly when `micro_chunk` has rows, and the BM25 corpus exactly when `micro_chunk` has rows and BM25 is enabled, document `i` being chunk row `i`'s text; the manifest's video count is never below the `video` table's rows |

## Left out

- File system, SQLite, zip archives, `tempfile`, network access, TLS and HTTP errors are
  not modelled. File existence, file contents, the HTTP response body and the streamed
  lines are parameters, and the tables are fields of `PackBuild.PackDb`.
- `json.loads`, `json.dumps` and Python's `repr` of a JSON value (`show`) are function
  parameters. `str()` of a value is its `repr` except for a string, which is itself. JSON
  object key order and the int/float distinction of JSON numbers are not modelled.
- Floating point is modelled as exact reals. The natural logarithm (BM25) and the
  embedding dot product are parameters. The `1e-9` guards are kept as exact constants,
  and the float32 cast of the vector index is not modelled.
- Cosine distances and the percentile threshold of automatic sections
  (`processing/sections.py:24-51`) are not modelled. Which chunk indices are distance
  spikes is an abstract predicate.
- Embeddings, the embedder and the vector files are not modelled: the pack records only
  whether each vector file is written. The embedder is assumed to return one row per text.
- The tie order of `np.argsort` and `np.argpartition` is modelled as stable. NumPy allows
  any order among equal scores. `HNSWIndex` is not part of this model.
- `created_at` timestamps and `tqdm` progress are not modelled. `load_manifest` is a
  parameter, and channel metadata is taken as given.
- Section row ids are assumed to be handed out by `AUTOINCREMENT` from 1 on a freshly
  created database, as the build always creates one.
- Lower-casing (`str.lower`), upper-casing (`str.upper`, used for the roles of the debug
  prompt), `\d` and `isdigit` are modelled on ASCII only. For example `"ß".upper()` is
  `"SS"` in Python, but the model leaves it unchanged. Python's whitespace set is modelled
  in full.
- Streaming generation is modelled on the whole list of response lines, not as a lazy
  generator. A consumer that stops early is not modelled.
- The llmhub in-process backend, llama.cpp and MLX backends are modelled only as the
  factory's choice. Their generation is not part of this model.
- `parse_json_segments` is a parameter of the transcript loader.
- LlmHubHttp.PairOf: an object with exactly two keys, used as one pair of a
  `request_overrides` list, is `NotModelled`. Python pairs its two keys in document order,
  and JSON objects are modelled without key order.
- LlmHubHttp.KeyOf: a pair whose key is a number, a boolean or `None` is stored under
  that key's JSON text, which is how `json.dumps` sends it. Python keeps such a key apart
  from the string of the same text, so the body could carry both, and it treats `1`,
  `1.0` and `True` as one key. The model does neither.
- These modules are not part of this model:
  - `pack_reader`, `schema`, `rag/retriever.py` (SQL retrieval);
  - the CLI and configuration loading;
  - the hash and sentence-transformer embedders;
  - the YouTube catalog, manifest and transcript downloaders.
- Bm25.BM25.constructor: requires `k1 >= 0` and `0 <= b <= 1`, which the code does not
  check. Without them a BM25 denominator can be zero.
- Bm25.AvgLength: its own contract states only that the average is non-negative. Its
  value is tied to the corpus by the index invariant that `BM25.AddDocuments` keeps.
- MockLlm.OptionsIgnored: the mock's reply is modelled; its keyword options are accepted
  and ignored, as in the code.
