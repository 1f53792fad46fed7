/** The web application's own logic (app.py): which pipeline slots exist,
    whether the current video is processed, purging the slots of the
    previous video, running the background pipeline stage by stage, and the
    small checks of the `process`, `ask_question` and `generate_notes`
    routes. */
module App {
  import opened Wrappers
  import opened Text
  import opened Sorting
  import opened ContentStore
  import Notes
  import QnA

  // ---------------------------------------------------------------------
  // check_processing_status
  // ---------------------------------------------------------------------

  /** The slots whose existence marks progress, in the order reported. */
  const RequiredFiles: seq<string> := [EnglishPath, CleanedPath, FirstChunkPath]

  datatype Progress = Processing | Partial | Completed

  datatype ProcessingStatus = ProcessingStatus(status: Progress, completedFiles: seq<string>, totalFiles: nat)

  /** `os.path.exists` on the store: a file that exists may still fail to read. */
  function ExistsIn(s: Store): string -> bool
  {
    p => p in s.files
  }

  /** The route's loop collects the required slots that exist, in order;
      the status is `completed` when all of them do, `processing` when none
      does and `partial` otherwise. */
  method CheckProcessingStatus(s: Store) returns (r: ProcessingStatus)
    ensures r.totalFiles == 3
    ensures r.completedFiles == Filter(RequiredFiles, ExistsIn(s))
    ensures forall p :: p in r.completedFiles <==> p in RequiredFiles && p in s.files
    ensures r.status == Completed <==> forall i :: 0 <= i < |RequiredFiles| ==> RequiredFiles[i] in s.files
    ensures r.status == Processing <==> forall i :: 0 <= i < |RequiredFiles| ==> RequiredFiles[i] !in s.files
  {
    var completed: seq<string> := [];
    for i := 0 to |RequiredFiles|
      invariant completed == Filter(RequiredFiles[..i], ExistsIn(s))
    {
      assert RequiredFiles[..i + 1][..i] == RequiredFiles[..i];
      if RequiredFiles[i] in s.files {
        completed := completed + [RequiredFiles[i]];
      }
    }
    assert RequiredFiles[..|RequiredFiles|] == RequiredFiles;
    FilterMember(RequiredFiles, ExistsIn(s));
    FilterKeepsAll(RequiredFiles, ExistsIn(s));
    var status;
    if |completed| == |RequiredFiles| {
      status := Completed;
    } else if |completed| > 0 {
      status := Partial;
      assert completed[0] in completed;
    } else {
      status := Processing;
    }
    r := ProcessingStatus(status, completed, |RequiredFiles|);
  }

  // ---------------------------------------------------------------------
  // is_current_processing_complete
  // ---------------------------------------------------------------------

  /** Slots the readiness check looks at, in order. */
  const ReadinessSlots: seq<string> := [CleanedPath, EnglishPath]

  /** The loop of `is_current_processing_complete`: a slot with real
      content answers true, a read error answers false for the whole check,
      and a missing or short slot passes to the next. */
  function CompleteAmong(s: Store, paths: seq<string>): bool
  {
    if paths == [] then false
    else if paths[0] !in s.files then CompleteAmong(s, paths[1..])
    else match s.files[paths[0]]
      case Unreadable => false
      case Readable(c) => HasRealContent(c) || CompleteAmong(s, paths[1..])
  }

  function CurrentProcessingComplete(s: Store): bool
  {
    CompleteAmong(s, ReadinessSlots)
  }

  method IsCurrentProcessingComplete(s: Store) returns (ready: bool)
    ensures ready == CurrentProcessingComplete(s)
  {
    for i := 0 to |ReadinessSlots|
      invariant CurrentProcessingComplete(s) == CompleteAmong(s, ReadinessSlots[i..])
    {
      var p := ReadinessSlots[i];
      assert ReadinessSlots[i..][0] == p;
      assert ReadinessSlots[i..][1..] == ReadinessSlots[i + 1..];
      if p in s.files {
        match s.files[p]
        case Unreadable =>
          return false;
        case Readable(c) =>
          var content := Strip(c);
          if content != [] && |content| > 50 {
            return true;
          }
      }
    }
    return false;
  }

  /** The video counts as processed when the cleaned transcript has real
      content, or when reading it does not raise and the english one has
      real content. */
  lemma CurrentProcessingCompleteMeaning(s: Store)
    ensures CurrentProcessingComplete(s) <==>
      HasRealContentAt(s, CleanedPath) || (Notes.ReadableAt(s, CleanedPath) && HasRealContentAt(s, EnglishPath))
  {
    assert ReadinessSlots[1..] == [EnglishPath];
    assert [EnglishPath][1..] == [];
    assert CompleteAmong(s, [EnglishPath]) == HasRealContentAt(s, EnglishPath);
  }

  /** The route's check is at least as strict as the notes generator's own,
      and whenever it passes a transcript can be read; when no read raises
      the two checks agree. */
  lemma RouteGateImpliesNotesGate(s: Store)
    ensures CurrentProcessingComplete(s) ==> Notes.IsProcessingComplete(s) && Notes.ReadLatestTranscript(s).Some?
    ensures Notes.ReadableAt(s, CleanedPath) ==> (CurrentProcessingComplete(s) <==> Notes.IsProcessingComplete(s))
  {
    CurrentProcessingCompleteMeaning(s);
    Notes.ProcessingCompleteMeansTranscript(s);
  }

  // ---------------------------------------------------------------------
  // cleanup_old_processing_files
  // ---------------------------------------------------------------------

  /** The transcript slots of the previous video that are removed. */
  const PurgedSlots: seq<string> := [EnglishPath, CleanedPath, SummaryPath, NotesPath]

  /** `p` is removed by the purge of `s`: one of the derived transcript
      slots, or a file inside the chunks directory when that exists. */
  predicate Purgeable(s: Store, p: string)
  {
    p in PurgedSlots || (s.chunksDir && InChunksDir(p))
  }

  /** The store after the purge. */
  function Purged(s: Store): Store
  {
    Store(map p | p in s.files && !Purgeable(s, p) :: s.files[p], s.chunksDir)
  }

  /** Replaces the whole store. */
  method Apply(fs: FileSystem, s: Store)
    modifies fs
    ensures fs.State() == s
  {
    fs.files := s.files;
    fs.chunksDir := s.chunksDir;
  }

  /** Removes the derived transcript slots one by one, then empties the
      chunks directory when it exists (removing it and creating it again). */
  method Purge(fs: FileSystem)
    modifies fs
    ensures fs.State() == Purged(old(fs.State()))
  {
    ghost var s := fs.State();
    for i := 0 to |PurgedSlots|
      invariant fs.chunksDir == s.chunksDir
      invariant fs.files == map p | p in s.files && p !in PurgedSlots[..i] :: s.files[p]
    {
      var p := PurgedSlots[i];
      assert PurgedSlots[..i + 1] == PurgedSlots[..i] + [p];
      if p in fs.files {
        fs.files := fs.files - {p};
      }
    }
    assert PurgedSlots[..|PurgedSlots|] == PurgedSlots;
    if fs.chunksDir {
      fs.files := map p | p in fs.files && !InChunksDir(p) :: fs.files[p];
    }
  }

  /** The purge only removes files: every derived transcript slot is gone,
      no file is left in an existing chunks directory, and every other file,
      the original transcript among them, keeps its content. */
  lemma PurgeRemovesOnlyDerived(s: Store)
    ensures Purged(s).chunksDir == s.chunksDir
    ensures forall p :: p in Purged(s).files ==> p in s.files && Purged(s).files[p] == s.files[p]
    ensures forall i :: 0 <= i < |PurgedSlots| ==> PurgedSlots[i] !in Purged(s).files
    ensures s.chunksDir ==> forall p :: InChunksDir(p) ==> p !in Purged(s).files
    ensures forall p :: p in s.files && p !in PurgedSlots && !InChunksDir(p) ==> p in Purged(s).files
    ensures TranscriptPath in s.files ==> TranscriptPath in Purged(s).files
  {
    assert TranscriptPath !in PurgedSlots;
    assert !InChunksDir(TranscriptPath) by {
      assert TranscriptPath[5] != (ChunksDir + "/")[5];
    }
  }

  /** Purging twice leaves the store the first purge left. */
  lemma PurgeIdempotent(s: Store)
    ensures Purged(Purged(s)) == Purged(s)
  {
    var once := Purged(s);
    var twice := Purged(once);
    assert twice.files.Keys == once.files.Keys;
  }

  /** The purge keeps the store well formed, and after it no required slot
      exists, so the processing status starts again from `processing`. */
  lemma PurgeResetsProgress(s: Store)
    requires Valid(s)
    ensures Valid(Purged(s))
    ensures forall i :: 0 <= i < |RequiredFiles| ==> RequiredFiles[i] !in Purged(s).files
  {
    assert InChunksDir(FirstChunkPath);
  }

  // ---------------------------------------------------------------------
  // background_processing
  // ---------------------------------------------------------------------

  /** A pipeline stage run on the output path of the previous one: it
      finishes with its own output path, or raises; either way it may have
      written to the store. */
  datatype StageResult = Done(output: string, store: Store) | Raised(store: Store)

  type Stage = (string, Store) -> StageResult

  /** How a run of stages ends: all finished, or the stage at `failed`
      raised and none after it ran. */
  datatype PipelineRun = Finished(output: string, store: Store) | Stopped(failed: nat, store: Store)

  function RunStages(s: Store, input: string, stages: seq<Stage>): (r: PipelineRun)
    ensures r.Stopped? ==> r.failed < |stages|
    decreases |stages|
  {
    if stages == [] then Finished(input, s)
    else match stages[0](input, s)
      case Raised(t) => Stopped(0, t)
      case Done(output, t) =>
        match RunStages(t, output, stages[1..])
        case Finished(o, u) => Finished(o, u)
        case Stopped(k, u) => Stopped(k + 1, u)
  }

  /** Once a stage raises, adding stages after it changes nothing. */
  lemma {:induction false} StoppedIgnoresLater(s: Store, input: string, first: seq<Stage>, later: seq<Stage>)
    requires RunStages(s, input, first).Stopped?
    ensures RunStages(s, input, first + later) == RunStages(s, input, first)
    decreases |first|
  {
    assert first != [];
    assert (first + later)[0] == first[0];
    assert (first + later)[1..] == first[1..] + later;
    match first[0](input, s)
    case Raised(_) =>
    case Done(output, t) =>
      StoppedIgnoresLater(t, output, first[1..], later);
  }

  /** When the first stages finish, the later ones start from their output
      path and the store they leave. */
  lemma {:induction false} FinishedChains(s: Store, input: string, first: seq<Stage>, later: seq<Stage>)
    requires RunStages(s, input, first).Finished?
    ensures var r := RunStages(s, input, first);
      && RunStages(s, input, first + later).store == RunStages(r.store, r.output, later).store
      && (RunStages(s, input, first + later).Finished? <==> RunStages(r.store, r.output, later).Finished?)
    decreases |first|
  {
    if first == [] {
      assert first + later == later;
    } else {
      assert (first + later)[0] == first[0];
      assert (first + later)[1..] == first[1..] + later;
      match first[0](input, s)
      case Raised(_) =>
      case Done(output, t) =>
        FinishedChains(t, output, first[1..], later);
    }
  }

  /** A stopped run names a stage that raised: every stage before it
      finished, and the store is what the raising stage left. */
  lemma {:induction false} StoppedAtRaise(s: Store, input: string, stages: seq<Stage>)
    requires RunStages(s, input, stages).Stopped?
    ensures RunStages(s, input, stages).failed < |stages|
    ensures var r := RunStages(s, input, stages);
      var before := RunStages(s, input, stages[..r.failed]);
      && before.Finished?
      && stages[r.failed](before.output, before.store) == Raised(r.store)
    decreases |stages|
  {
    assert stages != [];
    match stages[0](input, s)
    case Raised(t) =>
      assert stages[..0] == [];
    case Done(output, t) =>
      var rest := stages[1..];
      StoppedAtRaise(t, output, rest);
      var k := RunStages(t, output, rest).failed;
      assert stages[..k + 1][0] == stages[0];
      assert stages[..k + 1][1..] == rest[..k];
      assert stages[k + 1] == rest[k];
  }

  /** `background_processing`: purge (which catches its own errors), then
      translate, clean, chunk and vectorize, each on the previous output;
      the first stage that raises ends the run and its error is swallowed. */
  method BackgroundProcessing(fs: FileSystem, transcriptPath: string,
                              translate: Stage, clean: Stage, chunk: Stage, vectorize: Stage)
    modifies fs
    ensures fs.State() == RunStages(Purged(old(fs.State())), transcriptPath, [translate, clean, chunk, vectorize]).store
  {
    ghost var stages := [translate, clean, chunk, vectorize];
    Purge(fs);
    ghost var start := fs.State();
    var english := translate(transcriptPath, fs.State());
    Apply(fs, english.store);
    if english.Raised? {
      return;
    }
    assert stages[1..] == [clean, chunk, vectorize];
    var cleaned := clean(english.output, fs.State());
    Apply(fs, cleaned.store);
    if cleaned.Raised? {
      assert RunStages(english.store, english.output, stages[1..]) == Stopped(0, cleaned.store);
      return;
    }
    assert stages[1..][1..] == [chunk, vectorize];
    var chunked := chunk(cleaned.output, fs.State());
    Apply(fs, chunked.store);
    if chunked.Raised? {
      assert RunStages(cleaned.store, cleaned.output, stages[1..][1..]) == Stopped(0, chunked.store);
      return;
    }
    assert stages[1..][1..][1..] == [vectorize];
    var vectors := vectorize(chunked.output, fs.State());
    Apply(fs, vectors.store);
    assert stages[1..][1..][1..][1..] == [];
    assert RunStages(chunked.store, chunked.output, stages[1..][1..][1..]).store == vectors.store;
    assert RunStages(cleaned.store, cleaned.output, stages[1..][1..]).store == vectors.store;
  }

  // ---------------------------------------------------------------------
  // The routes' own checks
  // ---------------------------------------------------------------------

  /** The `transcript_preview` of `process`: at most 500 characters of the
      transcript, with "..." when it was cut. */
  function TranscriptPreview(content: string): (r: string)
    ensures |r| <= 503
    ensures Take(content, 500) <= r
    ensures |content| <= 500 ==> r == content
    ensures |content| > 500 ==> r == content[..500] + "..."
  {
    if |content| > 500 then content[..500] + "..." else content
  }

  /** A preview previews to itself. */
  lemma PreviewIdempotent(content: string)
    ensures TranscriptPreview(TranscriptPreview(content)) == TranscriptPreview(content)
  {
    if |content| > 500 {
      var r := TranscriptPreview(content);
      assert r[..500] == content[..500];
    }
  }

  const NoQuestionAnswer: string := "Please provide a question."

  /** What `ask_question` sends back: the refusal with its status and
      answer for an empty question, or the assistant's response. */
  datatype AskReply = Rejected(status: string, answer: string) | Answered(response: QnA.Response)

  function AskQuestion(raw: string, chunks: seq<string>, embeddings: Option<QnA.Embeddings>, models: QnA.Models): AskReply
  {
    var question := Strip(raw);
    if question == [] then Rejected("error", NoQuestionAnswer) else Answered(QnA.Answer(chunks, embeddings, question, models))
  }

  /** A question is refused, with status "error" and the fixed request for
      a question, exactly when it is all whitespace, whatever the
      assistant's state; any other question reaches the assistant trimmed. */
  lemma EmptyQuestionRefused(raw: string, chunks: seq<string>, embeddings: Option<QnA.Embeddings>, models: QnA.Models)
    ensures (AskQuestion(raw, chunks, embeddings, models) == Rejected("error", NoQuestionAnswer)) <==>
              (forall i :: 0 <= i < |raw| ==> IsSpace(raw[i]))
    ensures AskQuestion(raw, chunks, embeddings, models).Rejected? ==> AskQuestion(raw, chunks, embeddings, models) == Rejected("error", "Please provide a question.")
    ensures AskQuestion(raw, chunks, embeddings, models).Answered? ==>
              AskQuestion(raw, chunks, embeddings, models).response == QnA.Answer(chunks, embeddings, Strip(raw), models)
  {
    StripEmpty(raw);
  }

  /** Surrounding whitespace never changes the reply: the assistant only
      sees the trimmed question. */
  lemma AskIgnoresSurroundingSpace(raw: string, chunks: seq<string>, embeddings: Option<QnA.Embeddings>, models: QnA.Models)
    ensures AskQuestion(Strip(raw), chunks, embeddings, models) == AskQuestion(raw, chunks, embeddings, models)
  {
    StripIdempotent(raw);
  }

  /** What `generate_notes` sends back, with its HTTP status. */
  datatype NotesReply =
    | NotYet(message: string)
    | Saved(notes: string, wordCount: nat)
    | Refused(status: string, message: string)
  {
    function Code(): nat
    {
      match this
      case NotYet(_) => 202
      case Saved(_, _) => 200
      case Refused(_, _) => 400
    }
  }

  /** `generate_notes`: refuses while the video is not processed, otherwise
      generates the notes and saves them in the notes slot. */
  method GenerateNotes(fs: FileSystem, summarizer: Option<Notes.Summarizer>, fault: Option<string>)
    returns (reply: NotesReply)
    modifies fs
    ensures !CurrentProcessingComplete(old(fs.State())) ==> reply == NotYet(Notes.ProcessingMessage) && fs.State() == old(fs.State())
    ensures reply.Saved? <==> CurrentProcessingComplete(old(fs.State())) && fault.None?
    ensures reply.Saved? ==>
      && Notes.ReadLatestTranscript(old(fs.State())).Some?
      && reply.notes == Notes.StructuredNotes(Notes.ReadLatestTranscript(old(fs.State())).value, summarizer)
      && reply.wordCount == |Words(reply.notes)|
      && fs.files == old(fs.files)[NotesPath := Readable(reply.notes)]
      && fs.chunksDir == old(fs.chunksDir)
    ensures reply.Refused? ==> reply.status == "error" && fs.State() == old(fs.State())
    ensures CurrentProcessingComplete(old(fs.State())) && reply.Refused? ==>
      fault.Some? && reply.message == "Failed to generate notes: " + fault.value
  {
    var ready := IsCurrentProcessingComplete(fs.State());
    if !ready {
      return NotYet(Notes.ProcessingMessage);
    }
    RouteGateImpliesNotesGate(fs.State());
    reply := SaveNotes(fs, summarizer, fault);
  }

  /** The part of `generate_notes` past its check: the generator's result
      is saved in the notes slot, or its error is passed on. */
  method SaveNotes(fs: FileSystem, summarizer: Option<Notes.Summarizer>, fault: Option<string>)
    returns (reply: NotesReply)
    requires Notes.IsProcessingComplete(fs.State()) && Notes.ReadLatestTranscript(fs.State()).Some?
    modifies fs
    ensures reply.Saved? || reply.Refused?
    ensures reply.Saved? <==> fault.None?
    ensures reply.Saved? ==>
      && reply.notes == Notes.StructuredNotes(Notes.ReadLatestTranscript(old(fs.State())).value, summarizer)
      && reply.wordCount == |Words(reply.notes)|
      && fs.files == old(fs.files)[NotesPath := Readable(reply.notes)]
      && fs.chunksDir == old(fs.chunksDir)
    ensures reply.Refused? ==> reply.status == "error" && fs.State() == old(fs.State())
    ensures reply.Refused? ==> fault.Some? && reply.message == "Failed to generate notes: " + fault.value
  {
    var result := Notes.GenerateDetailedNotes(fs.State(), summarizer, fault);
    if result.Generated? {
      fs.files := fs.files[NotesPath := Readable(result.notes)];
      return Saved(result.notes, result.wordCount);
    }
    return Refused(result.Status(), result.message);
  }
}
