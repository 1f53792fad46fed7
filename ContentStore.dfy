/** The content store shared by the pipeline and its consumers: the files the
    application reads and writes under `data/`, keyed by path, plus whether
    the chunks directory exists. A file is either readable text or a file
    whose read raises (a decoding or permission error). */
module ContentStore {
  import opened Text

  datatype File = Readable(content: string) | Unreadable

  datatype Store = Store(files: map<string, File>, chunksDir: bool)

  const TranscriptPath: string := "data/transcripts/transcript.txt"
  const EnglishPath: string := "data/transcripts/transcript_english.txt"
  const CleanedPath: string := "data/transcripts/cleaned_transcript.txt"
  const SummaryPath: string := "data/transcripts/summary.txt"
  const NotesPath: string := "data/transcripts/detailed_notes.txt"
  const ChunksDir: string := "data/chunks"
  const FirstChunkPath: string := "data/chunks/chunk_0.txt"

  /** `p` names a file inside the chunks directory. */
  predicate InChunksDir(p: string)
  {
    ChunksDir + "/" <= p
  }

  /** A file inside the chunks directory exists only while the directory does. */
  predicate Valid(s: Store)
  {
    forall p :: p in s.files && InChunksDir(p) ==> s.chunksDir
  }

  /** The "has real content" test used throughout: `content and len(content) > 50`
      on the stripped text. */
  predicate HasRealContent(text: string)
  {
    |Strip(text)| > 50
  }

  /** The slot at `p` exists, reads without error and has real content. */
  predicate HasRealContentAt(s: Store, p: string)
  {
    p in s.files && s.files[p].Readable? && HasRealContent(s.files[p].content)
  }

  /** The file system the application works on, updated in place by the
      purge step, the pipeline stages and the notes route. */
  class FileSystem {
    var files: map<string, File>
    var chunksDir: bool

    function State(): Store
      reads this
    {
      Store(files, chunksDir)
    }

    constructor (initial: Store)
      ensures State() == initial
    {
      files := initial.files;
      chunksDir := initial.chunksDir;
    }
  }
}
