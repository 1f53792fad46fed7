# Video assistant core, modelled in Dafny

The application turns a video into a transcript. It then translates, cleans, chunks and vectorizes that transcript in the background. Three features read the results:

- a question-answering assistant;
- a notes generator;
- status checks behind the web routes.

This project models the deterministic core of those parts and proves what they promise.

- `Wrappers.dfy` holds `Option` and `Result`.
- `Text.dfy` covers the Python string operations the code relies on:
  - `strip` (with the exact set of whitespace code points) and `lower`;
  - `split()` into words, `split(sep)` and the `[.!?]+` sentence split;
  - substring tests and the first integer in a string.
- `Sorting.dfy` has a stable sort by an integer key, which is what `list.sort(key=…)` and `sorted` do, with `reverse=True` kept stable. It also has the order-keeping filter of a list comprehension.
- `ContentStore.dfy` holds the files under `data/`. It is a map from path to file, where a file is readable text or a file whose read raises. It also records whether the chunks directory exists. The class `FileSystem` is the store that the purge, the pipeline and the notes route update in place.
- `QnA.dfy` covers the `QnAGenerator` of `utils/llm_features/qna_generator.py`:
  - loading the embeddings and the chunk files;
  - the readiness status;
  - top-k retrieval above a 0.3 similarity threshold;
  - the span and sentence strategies for pulling an answer out of the context;
  - the generator fallback;
  - the knowledge and greeting tables;
  - the policy that picks the reply and its confidence.
- `Notes.dfy` covers the `NotesGenerator` of `utils/llm_features/notes_generator.py`:
  - which transcript slot is read;
  - key-point scoring with a stable descending sort;
  - main topics by frequency;
  - the extractive summary fallbacks;
  - the Markdown template;
  - the status logic of `generate_detailed_notes`.
- `App.dfy` covers `app.py`:
  - the processing status derived from which slots exist;
  - the readiness check of the current video;
  - the purge of the previous video's files;
  - the background pipeline with its stop-at-first-failure rule;
  - the transcript preview;
  - the empty-question guard;
  - the notes route.

The model treats the machine-learning models as inputs:

- the sentence encoder's similarities, and the `argsort` order that goes with them;
- the spans the extractive model proposes;
- the text generator;
- the summarizer.

Each of these is `None` when the call raises. `random.choice` is an index `pick` that the model reduces modulo the list length.

With relevant chunks, the cues `how to`, `steps`, `guide`, `tutorial`, `install`, `run` and `setup` are tested in each context sentence, not in the question. They match as substrings, so `running` and `runtime` count. Any context sentence longer than 20 characters once stripped that contains a cue scores at least 3. So whatever the question, the answer comes from the context: the span strategy's if it has one, otherwise the sentence strategy's. The knowledge table is then never consulted (`utils/llm_features/qna_generator.py`, lines 262-293 and 326-346; `QnA.CueSentenceAnswers`).

## Model

| member | source | states |
|---|---|---|
| QnA.LoadEmbeddings | utils/llm_features/qna_generator.py:104-115 | the loop over the candidate embeddings files yields what the first-success search `PickEmbeddings` yields |
| QnA.FirstArrayWins | utils/llm_features/qna_generator.py:106-112 | the first candidate that unpickles to an array becomes the embeddings, whatever follows it |
| QnA.NoEmbeddings | utils/llm_features/qna_generator.py:104-117 | embeddings stay absent exactly when no candidate file unpickles to any value (a list is kept even though logging its `shape` raises) |
| QnA.ChunkFilesPattern | utils/llm_features/qna_generator.py:128-138 | the files read are `chunk_*.txt` files of the directory, or, only when there is none, its `*.txt` files |
| QnA.ChunksMeaningful | utils/llm_features/qna_generator.py:154-162 | every chunk kept is stripped and longer than ten characters, and no file gives more than one chunk |
| QnA.ChunksAllKept | utils/llm_features/qna_generator.py:154-162 | when every file holds meaningful text, each file gives its chunk, in file order |
| QnA.ReadChunks | utils/llm_features/qna_generator.py:154-162 | the read loop appends exactly the meaningful chunks, skipping unreadable files |
| QnA.LoadChunks | utils/llm_features/qna_generator.py:123-162 | the chunks are read from the chosen files stably sorted by the first integer in their path |
| QnA.QnAGenerator.constructor | utils/llm_features/qna_generator.py:80-173 | no chunks directory leaves no chunks and no embeddings; otherwise both are loaded as above |
| QnA.StatusReady | utils/llm_features/qna_generator.py:376-396 | `ready` holds iff chunks are loaded and embeddings are present; reading the `shape` of list embeddings raises |
| QnA.TopIndices | utils/llm_features/qna_generator.py:196-201 | every index kept is a valid chunk index whose similarity exceeds 0.3 |
| QnA.TopIndicesComplete | utils/llm_features/qna_generator.py:196-201 | an index is kept iff it is among the `top_k` last of the argsort (all of them when `top_k` is 0) and qualifies |
| QnA.TopIndicesDescending | utils/llm_features/qna_generator.py:196 | the chunks come most similar first |
| QnA.TopIndicesDominate | utils/llm_features/qna_generator.py:196 | no index outside the window is more similar than one returned |
| QnA.RelevantBound | utils/llm_features/qna_generator.py:175-209 | at most `top_k` chunks are returned, on every path including the fallback when the encoder raises |
| QnA.Relevant | utils/llm_features/qna_generator.py:175-209 | every chunk returned is a loaded chunk |
| QnA.QnAGenerator.FindRelevantChunks | utils/llm_features/qna_generator.py:175-209 | the append loop returns exactly the retrieval function's chunks |
| QnA.BestIndexSpec | utils/llm_features/qna_generator.py:244-253 | the running-best loop selects the first eligible candidate of largest positive measure, and none when no eligible one is positive |
| QnA.FindBest | utils/llm_features/qna_generator.py:244-253 | the loop over the candidates computes that choice |
| QnA.SpanAnswerSpec | utils/llm_features/qna_generator.py:241-257 | a span answer is the stripped first longest well-ordered span of more than ten characters, and is longer than fifteen; there is none iff the model raised, no such span exists, or the first longest strips to fifteen characters or fewer |
| QnA.SpanStrategy | utils/llm_features/qna_generator.py:241-257 | the nested span loops compute strategy 1 |
| QnA.BestSentenceSpec | utils/llm_features/qna_generator.py:264-288 | a sentence answer is the first best-scoring long piece, stripped, plus its period, which is its only period; it scores at least 2; there is none iff every long piece scores below 2 |
| QnA.FirstBestUnique | utils/llm_features/qna_generator.py:244-253 | at most one candidate is the first of maximal measure, so the strategies' choice is determined |
| QnA.LongSentenceFound | utils/llm_features/qna_generator.py:282-288 | a long sentence scoring at least 2 guarantees a sentence answer |
| QnA.CueScores | utils/llm_features/qna_generator.py:274-280 | a sentence containing a cue scores at least 3, whatever the question |
| QnA.CueSentenceAnswers | utils/llm_features/qna_generator.py:262-293 | a context sentence longer than twenty characters containing a cue makes the answer come from the content, before the knowledge table |
| QnA.SentenceAnswerShape | utils/llm_features/qna_generator.py:262-288 | a sentence answer from the joined context is one whole sentence with its period |
| QnA.SentenceStrategy | utils/llm_features/qna_generator.py:262-293 | the sentence loop computes strategy 2 |
| QnA.ContextAnswerLong | utils/llm_features/qna_generator.py:211-293 | any answer taken from the context is longer than fifteen characters |
| QnA.ExtractAnswer | utils/llm_features/qna_generator.py:211-293 | empty context gives nothing; the span strategy comes before the sentence strategy |
| QnA.PreviewUncut | utils/llm_features/qna_generator.py:307-308 | the preview of two 200-character heads is at most 401 characters, so the cut at 500 removes nothing |
| QnA.GeneratedAnswerClean | utils/llm_features/qna_generator.py:304-320 | a generated answer is stripped, longer than twenty characters and no longer contains `Answer:` |
| QnA.AfterLastMarker | utils/llm_features/qna_generator.py:318 | the stripped text after the last marker never contains the marker |
| QnA.FirstMatchSpec | utils/llm_features/qna_generator.py:334-336 | table lookup answers the first key that occurs in the text, and nothing iff no key occurs |
| QnA.FindKey | utils/llm_features/qna_generator.py:361-363 | the lookup loop returns that first match |
| QnA.IntelligentAnswerShape | utils/llm_features/qna_generator.py:295-346 | the answer is from the content iff the flag says so, and such answers are longer than fifteen characters; otherwise it is a knowledge or fallback reply |
| QnA.GenerateIntelligentAnswer | utils/llm_features/qna_generator.py:295-346 | the cascade context, then generator, then knowledge table, then random fallback, as a method |
| QnA.GeneralAnswerShape | utils/llm_features/qna_generator.py:348-374 | the general answer is canned; confidence 0.9 iff it is a greeting and 0.3 iff it is a fallback |
| QnA.GenerateGeneralAnswer | utils/llm_features/qna_generator.py:348-374 | greeting lookup, then random fallback, as a method |
| QnA.NotReadyGate | utils/llm_features/qna_generator.py:404-417 | the status is `error` iff embeddings are absent, or are an array while no chunk is loaded; then the reply is the fixed not-ready one with confidence 0 and no context |
| QnA.ListEmbeddingsCatchAll | utils/llm_features/qna_generator.py:454-465 | with list embeddings every question gets the catch-all reply with confidence 0.5 and no status |
| QnA.GreetingShortcut | utils/llm_features/qna_generator.py:419-432 | a ready assistant answers a greeting with confidence 0.9 before any retrieval, whatever the models do |
| QnA.HiAnywhereGreets | utils/llm_features/qna_generator.py:420-426 | any question containing "hi" as a substring (such as "which" or "this") gets the first greeting |
| QnA.ConfidencePolicy | utils/llm_features/qna_generator.py:438-465 | on success, confidence 0.8 iff the answer is from the content (and then `has_context`), 0.6 iff a knowledge or context fallback, 0.9 iff a greeting, 0.3 iff a general fallback, 0.5 iff the catch-all |
| QnA.NoRelevantChunks | utils/llm_features/qna_generator.py:434-444 | no relevant chunk for a non-greeting gives a general fallback with confidence 0.3 |
| QnA.QnAGenerator.AnswerQuestion | utils/llm_features/qna_generator.py:398-465 | the method returns the response the policy function defines |
| QnA.Answer | utils/llm_features/qna_generator.py:398-465 | the reply of `answer_question`; its gate, greeting shortcut, retrieval and confidence are stated by `NotReadyGate`, `ListEmbeddingsCatchAll`, `GreetingShortcut`, `NoRelevantChunks` and `ConfidencePolicy` |
| Notes.ReadLatestTranscriptChoice | utils/llm_features/notes_generator.py:31-51 | the first of cleaned, english and original with real content is read; a read error on any slot the search reaches ends it with nothing |
| Notes.ReadLatestTranscriptStripped | utils/llm_features/notes_generator.py:40-48 | a transcript read is stripped and longer than 50 characters |
| Notes.ProcessingCompleteMeansTranscript | utils/llm_features/notes_generator.py:227-244 | ready iff the cleaned or english slot has real content; then a transcript can be read unless the cleaned slot fails to read |
| Notes.CountHits | utils/llm_features/notes_generator.py:86-88 | the indicator loop counts the indicators found |
| Notes.ScoreSentence | utils/llm_features/notes_generator.py:71-92 | the accumulating score equals length score + 8 per indicator + 5 for a numbered point |
| Notes.IndicatorsOutrank | utils/llm_features/notes_generator.py:71-92 | two indicators, or one with 8 to 25 words, outscore any sentence without indicators |
| Notes.Fragments | utils/llm_features/notes_generator.py:59-60 | the candidate sentences are stripped and longer than fifteen characters |
| Notes.ScoreCandidates | utils/llm_features/notes_generator.py:66-94 | the scoring loop pairs each sentence of at least three words with its score, in order |
| Notes.ExtractKeyPoints | utils/llm_features/notes_generator.py:53-98 | the method returns the top-scored sentences of the key-point function |
| Notes.KeyPoints | utils/llm_features/notes_generator.py:53-98 | `_extract_key_points`: the top-scored candidate sentences; their bound, entries and order are stated by `KeyPointsEntries`, `KeyPointsOrder` and `RankedStable` |
| Notes.KeyPointsEntries | utils/llm_features/notes_generator.py:55-98 | empty text gives none; at most `num_points` points, each a stripped candidate sentence of at least three words |
| Notes.KeyPointsOrder | utils/llm_features/notes_generator.py:96-98 | points come by descending score and none left out scores higher |
| Notes.RankedStable | utils/llm_features/notes_generator.py:97 | sentences of equal score keep their text order |
| Notes.KeepTopicWords | utils/llm_features/notes_generator.py:106-108 | topic candidates are words longer than three characters that are not stop words |
| Notes.DistinctFirstSeen | utils/llm_features/notes_generator.py:112 | the counter's keys hold no word twice and come in order of first occurrence |
| Notes.FirstAt | utils/llm_features/notes_generator.py:112 | the position returned holds the word and no earlier position does |
| Notes.FirstAtUnique | utils/llm_features/notes_generator.py:112 | a position holding the word with none before it is the first occurrence |
| Notes.MainTopicsEntries | utils/llm_features/notes_generator.py:106-113 | at most five distinct topics, each a non-stop word longer than three characters |
| Notes.MainTopics | utils/llm_features/notes_generator.py:110-113 | `most_common(5)` keys; their bound, distinctness, order and tie order are stated by `MainTopicsEntries`, `MainTopicsOrder`, `MainTopicsDominate` and `FrequentStable` |
| Notes.MainTopicsOrder | utils/llm_features/notes_generator.py:112-113 | topics come by descending frequency |
| Notes.MainTopicsDominate | utils/llm_features/notes_generator.py:112-113 | a word left out is no more frequent than any topic |
| Notes.FrequentStable | utils/llm_features/notes_generator.py:112-113 | of two equally frequent topics, the one seen first in the content comes first |
| Notes.TiesFirstSeen | utils/llm_features/notes_generator.py:112-113 | sorting counted words by frequency orders equally frequent words by first occurrence |
| Sorting.SortByTiesOrdered | utils/llm_features/notes_generator.py:97 | a list in increasing position keeps equal keys in increasing position after the stable sort |
| Sorting.SortByUnique | utils/llm_features/notes_generator.py:112-113 | sorting a list without repeats gives a list without repeats |
| Notes.LongerThanLong | utils/llm_features/notes_generator.py:156 | every meaningful sentence kept is longer than the bound |
| Notes.FirstAndLastShape | utils/llm_features/notes_generator.py:157-159 | the fallback overview starts with the first meaningful sentence and ends with the last, or is the fixed text |
| Notes.FallbackSummaryShape | utils/llm_features/notes_generator.py:153-159 | without a summarizer the overview is longer than 20 characters and starts with the first sentence over 20 characters |
| Notes.FirstAndLastSentencesShape | utils/llm_features/notes_generator.py:175-179 | the after-failure overview starts with the first piece and ends in a period, or is the fixed text |
| Notes.SummaryAfterFailureShape | utils/llm_features/notes_generator.py:171-179 | when the summarizer raises, the overview is built from pieces longer than 30 characters between periods |
| Notes.Summary | utils/llm_features/notes_generator.py:150-179 | `_generate_summary`: the fallback without a summarizer or under 100 words, the summarizer's text, or the first-and-last overview when it raises; its shapes are stated by `FallbackSummaryShape` and `SummaryAfterFailureShape` |
| Notes.KeyPointLinesStart | utils/llm_features/notes_generator.py:134-135 | the numbered list starts with "1. " and the first point |
| Notes.NumberedLines | utils/llm_features/notes_generator.py:134-135 | the `+=` loop builds the numbered list |
| Notes.NotesDocumentOpens | utils/llm_features/notes_generator.py:122-125 | the notes open with the title and the overview |
| Notes.NotesDocumentFirstPoint | utils/llm_features/notes_generator.py:122-135 | the first key point follows the header as item 1 |
| Notes.NotesDocumentEnds | utils/llm_features/notes_generator.py:138-148 | the notes end with the fixed additional-information and takeaways sections |
| Notes.CreateStructuredNotes | utils/llm_features/notes_generator.py:100-149 | the method assembles the document of the notes function |
| Notes.StructuredNotes | utils/llm_features/notes_generator.py:100-149 | the notes document; its opening, first point and closing sections are stated by `NotesDocumentOpens`, `NotesDocumentFirstPoint` and `NotesDocumentEnds` |
| Notes.GenerateDetailedNotes | utils/llm_features/notes_generator.py:181-225 | `processing` when not ready, `error` with its message when no transcript or on an exception, else the notes with their word count |
| Text.StripEmpty | app.py:400-402 | stripping leaves nothing iff every character is whitespace |
| Text.StripIdempotent | utils/llm_features/qna_generator.py:333 | `strip` applied to a stripped string changes nothing |
| Text.WordsAreWords | utils/llm_features/notes_generator.py:73 | every piece `split()` returns is non-empty and free of whitespace |
| Text.SplitOnJoin | utils/llm_features/qna_generator.py:264 | joining the pieces of `split('.')` with periods gives back the text |
| Text.SplitSentencesLosesOnlyDelimiters | utils/llm_features/notes_generator.py:59 | the pieces of the `[.!?]+` split, concatenated, are the text without its terminators |
| Text.FirstIntOfName | utils/llm_features/qna_generator.py:145-148 | the sort key of a name whose first digit run is the decimal form of n is n |
| Text.LastPieceIsSuffix | utils/llm_features/qna_generator.py:318 | the last piece of a split is a suffix of the text that holds no separator, and is the whole text iff there is no separator |
| Sorting.SortByPermutes | utils/llm_features/qna_generator.py:150 | sorting by key only reorders the list |
| Sorting.SortBySorted | utils/llm_features/notes_generator.py:97 | the sorted list is ordered by key |
| Sorting.SortByStable | utils/llm_features/notes_generator.py:97 | items with equal keys keep their relative order |
| Sorting.FilterMember | utils/llm_features/notes_generator.py:60 | a comprehension's result holds exactly the items of the list that pass its condition |
| Notes.ScoreAllEntries | utils/llm_features/notes_generator.py:66-94 | every scored pair holds a sentence of the text with its own score |
| Notes.RankedEntries | utils/llm_features/notes_generator.py:96-97 | sorting the scored pairs keeps each a sentence with its own score |
| Notes.DistinctTopicWords | utils/llm_features/notes_generator.py:106-112 | every counted word is a topic candidate of the content |
| App.CheckProcessingStatus | app.py:186-215 | the slots found are the existing required ones in list order, and there are 3 in total; `completed` iff all exist, `processing` iff none does |
| App.IsCurrentProcessingComplete | app.py:220-237 | the loop answers the readiness check |
| App.CurrentProcessingCompleteMeaning | app.py:220-237 | ready iff the cleaned slot has real content, or it reads without error and the english slot has real content |
| App.RouteGateImpliesNotesGate | app.py:271-282 | the route's check implies the notes generator's check and a readable transcript; without read errors the two checks agree |
| App.Purge | app.py:157-184 | the store after the loop and the directory reset is the purged store |
| App.PurgeRemovesOnlyDerived | app.py:164-181 | the purge only deletes: the four derived slots and, when the directory exists, every chunk file; every other file, the original transcript among them, is unchanged |
| App.PurgeIdempotent | app.py:171-181 | purging twice equals purging once |
| App.PurgeResetsProgress | app.py:164-181 | the purge keeps the store well formed and removes every slot the status route requires |
| App.Purged | app.py:157-184 | the store after the purge; what it removes and keeps is stated by `PurgeRemovesOnlyDerived`, `PurgeIdempotent` and `PurgeResetsProgress` |
| App.StoppedIgnoresLater | app.py:128-155 | once a stage raises, no later stage has any effect |
| App.FinishedChains | app.py:136-150 | after the earlier stages finish, the later ones run on their output path and their store |
| App.StoppedAtRaise | app.py:128-155 | a stopped run names the stage that raised, after all earlier stages finished |
| App.BackgroundProcessing | app.py:128-155 | purge, then translate, clean, chunk and vectorize, each on the previous output, stopping silently at the first that raises |
| App.RunStages | app.py:128-155 | a stopped run names one of the stages |
| App.TranscriptPreview | app.py:119 | the preview is the whole transcript up to 500 characters, otherwise its first 500 followed by `...` |
| App.PreviewIdempotent | app.py:119 | previewing a preview changes nothing |
| App.EmptyQuestionRefused | app.py:400-409 | a question is refused with status `error` and the fixed request for a question iff it is all whitespace, whatever the assistant's state; any other question reaches the assistant trimmed |
| App.AskIgnoresSurroundingSpace | app.py:400-409 | surrounding whitespace never changes the reply |
| App.AskQuestion | app.py:395-416 | the reply of `ask_question`; its refusal is stated by `EmptyQuestionRefused` and its trimming by `AskIgnoresSurroundingSpace` |
| App.GenerateNotes | app.py:267-316 | not ready: status `processing`, nothing written; notes saved in the notes slot iff ready and no exception; a refusal is an `error` that carries `Failed to generate notes: ` followed by the exception text, and writes nothing |
| App.SaveNotes | app.py:280-308 | past the check, the generated notes are written to the notes slot, or the reply is an `error` whose message is `Failed to generate notes: ` followed by the exception text, and nothing is written |

## Left out

- The machine-learning models themselves are not modelled. This covers the sentence encoder, cosine similarity, the extractive model and its tokenizer, the text generator and the summarizer. Their outputs are inputs of the model, with `None` standing for a call that raises.
- Similarities are real numbers; floating-point rounding is not modelled.
- `random.choice` is an input index `pick`, reduced modulo the length of the fallback list.
- `_find_chunks_directory` is not modelled: the directory found is an input. Probing for the embeddings paths, including the duplicated absolute paths, is also not modelled: the model receives the ordered outcomes of the paths that exist.
- `glob` listings are inputs in whatever order `glob` returns them. The model sorts them stably, as the code does.
- The warning about a count mismatch between chunks and embeddings only logs, so it is not modelled.
- The `model_loaded`, `generator_loaded` and `chunks_directory` fields of `get_system_status` are not modelled. They do not affect any decision.
- The span strategy receives the candidate spans in the order the nested loops over the three best starts and three best ends visit them. Token decoding is not modelled.
- Canned replies are referred to by their table position. `QnA.MessageText` holds their exact texts.
- `lower`, `isupper`, `isdigit` and the `\d` of the first-integer search follow ASCII only. Python's `\d` also matches other Unicode decimal digits; chunk file names are written by the program itself with ASCII digits.
- Unpickling an embeddings file is modelled as raising, giving a two-dimensional array, or giving a list. A pickle that yields some other value without a `shape`, such as a dict or `None`, is not modelled; in the code it would also replace the embeddings and let the search go on.
- Logging, `print`, Flask request parsing and JSON encoding are not modelled.
- HTTP status codes are modelled only for the notes route.
- The threading of the background run is not modelled: the stages run to completion in one call.
- The routes that only serve pages or files are not modelled: `process_video` beyond its preview, `summarize`, `get_transcript`, `translate_transcript` and `qna_status`. The same goes for the download, transcription, translation, cleaning, chunking and vectorizing steps, which are stage inputs of the pipeline.
- App.Purge: a failing `os.remove` or `rmtree` would end the purge part-way. This is not modelled. The purge always completes, and, as in the code, its failure never reaches the pipeline.
- App.CheckProcessingStatus: the route's exception branch is not modelled, because checking whether a path exists does not raise.
- App.AskQuestion: the route's own error reply is not modelled, because `answer_question` already catches every exception.
- App.GenerateNotes: a failure while writing the notes file, which gives a 500 reply, is not modelled.
- Notes.GenerateDetailedNotes: `processing_time` is not modelled. An exception while building the notes is the input `fault`, with its text.
