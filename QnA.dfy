/** The question-answering assistant: loading the transcript chunks and
    their embeddings, retrieving the chunks closest to a question, pulling
    an answer out of them, and the policy that picks the reply and its
    confidence. */
module QnA {
  import opened Wrappers
  import opened Text
  import opened Sorting
  import opened ContentStore

  // ---------------------------------------------------------------------
  // Loading the embeddings

  /** What unpickling an embeddings file yields: a two-dimensional array,
      which has a `shape`, or a plain list of vectors, which has none. */
  datatype Embeddings = Array2D(rows: nat, width: nat) | List(rows: nat)

  /** An embeddings file that exists: unpickling it raises, or yields a
      value. */
  datatype Pickle = Corrupt | Loaded(value: Embeddings)

  /** `self.embeddings` after the loop over the candidate files, starting
      from `current` (`None` stands for a path that does not exist). An
      array ends the search. A list is stored, but logging its `shape`
      raises inside the loop, so the search goes on and a later file can
      replace it. A file that fails to unpickle changes nothing. */
  function PickEmbeddings(candidates: seq<Option<Pickle>>, current: Option<Embeddings>): Option<Embeddings>
    decreases |candidates|
  {
    if candidates == [] then current
    else match candidates[0]
      case Some(Loaded(e)) =>
        if e.Array2D? then Some(e) else PickEmbeddings(candidates[1..], Some(e))
      case _ => PickEmbeddings(candidates[1..], current)
  }

  predicate HoldsArray(c: Option<Pickle>)
  {
    c.Some? && c.value.Loaded? && c.value.value.Array2D?
  }

  predicate HoldsValue(c: Option<Pickle>)
  {
    c.Some? && c.value.Loaded?
  }

  /** The first candidate that holds an array is the one kept, whatever
      lists come before it. */
  lemma {:induction false} FirstArrayWins(candidates: seq<Option<Pickle>>, current: Option<Embeddings>, i: nat)
    requires i < |candidates| && HoldsArray(candidates[i])
    requires forall j :: 0 <= j < i ==> !HoldsArray(candidates[j])
    ensures PickEmbeddings(candidates, current) == Some(candidates[i].value.value)
    decreases i
  {
    if i > 0 {
      assert !HoldsArray(candidates[0]);
      var next := if HoldsValue(candidates[0]) then Some(candidates[0].value.value) else current;
      forall j | 0 <= j < i - 1
        ensures !HoldsArray(candidates[1..][j])
      {
        assert candidates[1..][j] == candidates[j + 1];
      }
      FirstArrayWins(candidates[1..], next, i - 1);
    }
  }

  /** The embeddings stay unset exactly when no candidate file unpickles. */
  lemma {:induction false} NoEmbeddings(candidates: seq<Option<Pickle>>, current: Option<Embeddings>)
    ensures PickEmbeddings(candidates, current) == None <==>
      current == None && forall j :: 0 <= j < |candidates| ==> !HoldsValue(candidates[j])
    decreases |candidates|
  {
    if candidates != [] {
      var next := if HoldsValue(candidates[0]) then Some(candidates[0].value.value) else current;
      NoEmbeddings(candidates[1..], next);
      if forall j :: 0 <= j < |candidates[1..]| ==> !HoldsValue(candidates[1..][j]) {
        forall j | 0 <= j < |candidates|
          ensures j > 0 ==> !HoldsValue(candidates[j])
        {
          if j > 0 {
            assert candidates[j] == candidates[1..][j - 1];
          }
        }
      } else {
        var j :| 0 <= j < |candidates[1..]| && HoldsValue(candidates[1..][j]);
        assert HoldsValue(candidates[j + 1]);
      }
    }
  }

  /** The loop over the candidate embeddings files. */
  method LoadEmbeddings(candidates: seq<Option<Pickle>>) returns (embeddings: Option<Embeddings>)
    ensures embeddings == PickEmbeddings(candidates, None)
  {
    embeddings := None;
    var i := 0;
    while i < |candidates|
      invariant i <= |candidates|
      invariant PickEmbeddings(candidates[i..], embeddings) == PickEmbeddings(candidates, None)
    {
      assert candidates[i..][1..] == candidates[i + 1..];
      match candidates[i] {
        case Some(Loaded(e)) =>
          embeddings := Some(e);
          if e.Array2D? {
            return;
          }
        case _ =>
      }
      i := i + 1;
    }
  }

  // ---------------------------------------------------------------------
  // Loading the chunks

  /** An entry of the chunks directory: a file name and what reading it as
      UTF-8 yields. */
  type Entry = (string, File)

  predicate EndsWith(s: string, suffix: string)
  {
    |suffix| <= |s| && s[|s| - |suffix|..] == suffix
  }

  /** Names the glob `chunk_*.txt` matches. */
  predicate ChunkEntry(e: Entry)
  {
    |e.0| >= 10 && "chunk_" <= e.0 && EndsWith(e.0, ".txt")
  }

  /** Names the glob `*.txt` matches (`*` does not match a leading dot). */
  predicate TextEntry(e: Entry)
  {
    EndsWith(e.0, ".txt") && e.0[0] != '.'
  }

  /** The files of the first pattern that matches anything. */
  function ChunkFiles(listing: seq<Entry>): seq<Entry>
  {
    var named := Filter(listing, ChunkEntry);
    if named != [] then named else Filter(listing, TextEntry)
  }

  /** Every file read comes from the directory and matches `chunk_*.txt`,
      or no file there matches it and the file matches `*.txt`. */
  lemma ChunkFilesPattern(listing: seq<Entry>)
    ensures forall e :: e in ChunkFiles(listing) ==> e in listing
    ensures forall e :: e in ChunkFiles(listing) ==>
      ChunkEntry(e) || (TextEntry(e) && forall d :: d in listing ==> !ChunkEntry(d))
  {
    FilterMember(listing, ChunkEntry);
    FilterMember(listing, TextEntry);
  }

  /** The sort key: the first decimal number in the file's path (0 when it
      has none). */
  function NumberKey(dir: string): Entry -> int
  {
    (e: Entry) => FirstInt(dir + "/" + e.0)
  }

  /** A file yields a chunk when it can be read and its stripped content is
      longer than ten characters. */
  function ChunkOf(f: File): Option<string>
  {
    match f
    case Unreadable => None
    case Readable(content) =>
      var text := Strip(content);
      if |text| > 10 then Some(text) else None
  }

  /** The values `f` yields for `xs`, in order, skipping `None`. */
  function Present<T, U>(xs: seq<T>, f: T -> Option<U>): (r: seq<U>)
    ensures |r| <= |xs|
  {
    if xs == [] then []
    else
      var y := f(xs[|xs| - 1]);
      Present(xs[..|xs| - 1], f) + (if y.Some? then [y.value] else [])
  }

  /** Whatever `f` yields satisfies `p`, so every value kept does. */
  lemma {:induction false} PresentWhere<T, U>(xs: seq<T>, f: T -> Option<U>, p: U -> bool)
    requires forall x :: f(x).Some? ==> p(f(x).value)
    ensures forall k :: 0 <= k < |Present(xs, f)| ==> p(Present(xs, f)[k])
  {
    if xs != [] {
      PresentWhere(xs[..|xs| - 1], f, p);
    }
  }

  /** When `f` yields a value for every element, nothing is skipped and the
      values keep the order of `xs`. */
  lemma {:induction false} PresentAll<T, U>(xs: seq<T>, f: T -> Option<U>)
    requires forall i :: 0 <= i < |xs| ==> f(xs[i]).Some?
    ensures |Present(xs, f)| == |xs|
    ensures forall i :: 0 <= i < |xs| ==> f(xs[i]) == Some(Present(xs, f)[i])
  {
    if xs != [] {
      var init := xs[..|xs| - 1];
      assert forall i :: 0 <= i < |init| ==> init[i] == xs[i];
      PresentAll(init, f);
    }
  }

  function EntryChunk(e: Entry): Option<string>
  {
    ChunkOf(e.1)
  }

  /** The chunks read from `files`, in order. */
  function ChunkTexts(files: seq<Entry>): seq<string>
  {
    Present(files, EntryChunk)
  }

  /** `self.chunks` after loading from directory `dir`. */
  function LoadedChunks(dir: string, listing: seq<Entry>): seq<string>
  {
    ChunkTexts(SortBy(ChunkFiles(listing), NumberKey(dir)))
  }

  /** Every chunk kept is stripped and longer than ten characters, and no
      file yields more than one chunk. */
  lemma ChunksMeaningful(files: seq<Entry>)
    ensures |ChunkTexts(files)| <= |files|
    ensures forall k :: 0 <= k < |ChunkTexts(files)| ==>
      Trimmed(ChunkTexts(files)[k]) && |ChunkTexts(files)[k]| > 10
  {
    forall e: Entry | EntryChunk(e).Some?
      ensures Meaningful(EntryChunk(e).value)
    {
    }
    PresentWhere(files, EntryChunk, Meaningful);
  }

  /** What a kept chunk looks like. */
  predicate Meaningful(text: string)
  {
    Trimmed(text) && |text| > 10
  }

  /** When every file yields a chunk, nothing is dropped and the chunks keep
      the order of the files. */
  lemma ChunksAllKept(files: seq<Entry>)
    requires forall i :: 0 <= i < |files| ==> ChunkOf(files[i].1).Some?
    ensures |ChunkTexts(files)| == |files|
    ensures forall i :: 0 <= i < |files| ==> ChunkOf(files[i].1) == Some(ChunkTexts(files)[i])
  {
    PresentAll(files, EntryChunk);
  }

  /** The loop that reads the sorted chunk files. */
  method ReadChunks(files: seq<Entry>) returns (chunks: seq<string>)
    ensures chunks == ChunkTexts(files)
  {
    chunks := [];
    var i := 0;
    while i < |files|
      invariant i <= |files|
      invariant chunks == ChunkTexts(files[..i])
    {
      assert files[..i + 1][..i] == files[..i];
      var chunk := EntryChunk(files[i]);
      if chunk.Some? {
        chunks := chunks + [chunk.value];
      }
      i := i + 1;
    }
    assert files[..i] == files;
  }

  /** The chunk part of `_load_embeddings_and_chunks`. */
  method LoadChunks(dir: string, listing: seq<Entry>) returns (chunks: seq<string>)
    ensures chunks == LoadedChunks(dir, listing)
  {
    var files := ChunkFiles(listing);
    if files == [] {
      return [];
    }
    files := SortBy(files, NumberKey(dir));
    chunks := ReadChunks(files);
  }

  // ---------------------------------------------------------------------
  // System status

  datatype SystemStatus = SystemStatus(
    chunksLoaded: nat,
    embeddingsLoaded: bool,
    ready: bool,
    embeddingsShape: Option<(nat, nat)>)

  /** `get_system_status`, or `None` when reading the `shape` of a list
      raises. */
  function GetSystemStatus(chunks: seq<string>, embeddings: Option<Embeddings>): Option<SystemStatus>
  {
    var loaded := embeddings.Some?;
    var status := SystemStatus(|chunks|, loaded, |chunks| > 0 && loaded, None);
    match embeddings
    case None => Some(status)
    case Some(Array2D(rows, width)) => Some(status.(embeddingsShape := Some((rows, width))))
    case Some(List(_)) => None
  }

  /** The assistant is ready exactly when chunks are loaded and the
      embeddings are an array; list embeddings make the status raise. */
  lemma StatusReady(chunks: seq<string>, embeddings: Option<Embeddings>)
    ensures GetSystemStatus(chunks, embeddings) == None <==> embeddings.Some? && embeddings.value.List?
    ensures GetSystemStatus(chunks, embeddings).Some? ==>
      (GetSystemStatus(chunks, embeddings).value.ready <==> chunks != [] && embeddings.Some?)
    ensures GetSystemStatus(chunks, embeddings).Some? ==>
      GetSystemStatus(chunks, embeddings).value.chunksLoaded == |chunks|
  {
  }

  // ---------------------------------------------------------------------
  // Retrieval

  const Threshold: real := 0.3
  const TopK: nat := 5

  /** `order` is what `np.argsort(sims)` returns: every index of `sims`
      once, in ascending order of similarity. */
  predicate IsArgsort(order: seq<int>, sims: seq<real>)
  {
    && |order| == |sims|
    && (forall i :: 0 <= i < |order| ==> 0 <= order[i] < |sims|)
    && (forall p :: 0 <= p < |sims| ==> p in order)
    && (forall i, j :: 0 <= i <= j < |order| ==> sims[order[i]] <= sims[order[j]])
  }

  /** `order[-k:]` */
  function Window(order: seq<int>, k: nat): seq<int>
  {
    if k == 0 || k >= |order| then order else order[|order| - k..]
  }

  /** `s[::-1]` */
  function Reversed<T>(s: seq<T>): (r: seq<T>)
    ensures |r| == |s|
  {
    seq(|s|, i requires 0 <= i < |s| => s[|s| - 1 - i])
  }

  /** The test an index passes to contribute its chunk. */
  function Qualifier(sims: seq<real>, n: nat): int -> bool
  {
    p => 0 <= p < n && p < |sims| && sims[p] > Threshold
  }

  /** The indices whose chunks are returned, most similar first: each
      names a chunk and is similar enough. */
  function TopIndices(order: seq<int>, sims: seq<real>, n: nat, k: nat): (top: seq<int>)
    ensures forall j :: 0 <= j < |top| ==> 0 <= top[j] < n && top[j] < |sims| && sims[top[j]] > Threshold
  {
    FilterAll(Reversed(Window(order, k)), Qualifier(sims, n));
    Filter(Reversed(Window(order, k)), Qualifier(sims, n))
  }

  function ChunksAt(chunks: seq<string>, indices: seq<int>): (r: seq<string>)
    requires forall j :: 0 <= j < |indices| ==> 0 <= indices[j] < |chunks|
    ensures |r| == |indices|
  {
    seq(|indices|, j requires 0 <= j < |indices| => chunks[indices[j]])
  }

  /** `_find_relevant_chunks`: no chunks without embeddings; the first `k`
      chunks when computing the similarities raises (`sims` is `None`);
      otherwise the chunks among the `k` most similar whose similarity
      exceeds the threshold, most similar first. */
  function Relevant(chunks: seq<string>, embeddings: Option<Embeddings>,
                    sims: Option<seq<real>>, order: seq<int>, k: nat): (r: seq<string>)
    ensures forall i :: 0 <= i < |r| ==> r[i] in chunks
  {
    if embeddings.None? || chunks == [] then []
    else if sims.None? then Take(chunks, k)
    else ChunksAt(chunks, TopIndices(order, sims.value, |chunks|, k))
  }

  /** At most `k` chunks are returned. */
  lemma RelevantBound(chunks: seq<string>, embeddings: Option<Embeddings>,
                      sims: Option<seq<real>>, order: seq<int>, k: nat)
    requires k > 0
    ensures |Relevant(chunks, embeddings, sims, order, k)| <= k
  {
  }

  function Similarity(sims: seq<real>): int -> real
  {
    p => if 0 <= p < |sims| then sims[p] else 0.0
  }

  /** The chunks come most similar first. */
  lemma TopIndicesDescending(order: seq<int>, sims: seq<real>, n: nat, k: nat)
    requires IsArgsort(order, sims)
    ensures forall i, j :: 0 <= i < j < |TopIndices(order, sims, n, k)| ==>
      sims[TopIndices(order, sims, n, k)[i]] >= sims[TopIndices(order, sims, n, k)[j]]
  {
    var w := Window(order, k);
    var rev := Reversed(w);
    assert forall i :: 0 <= i < |w| ==> w[i] == order[|order| - |w| + i];
    assert forall i, j :: 0 <= i < j < |rev| ==> Similarity(sims)(rev[i]) >= Similarity(sims)(rev[j]);
    FilterDescending(rev, Qualifier(sims, n), Similarity(sims));
  }

  /** An index is returned exactly when it is among the `k` most similar
      and passes the test. */
  lemma TopIndicesComplete(order: seq<int>, sims: seq<real>, n: nat, k: nat)
    ensures forall p :: p in TopIndices(order, sims, n, k) <==>
      p in Window(order, k) && 0 <= p < n && p < |sims| && sims[p] > Threshold
  {
    var w := Window(order, k);
    var rev := Reversed(w);
    FilterMember(rev, Qualifier(sims, n));
    forall p
      ensures p in rev <==> p in w
    {
      if p in w {
        var i :| 0 <= i < |w| && w[i] == p;
        assert rev[|w| - 1 - i] == p;
      }
    }
  }

  /** No index outside the window is more similar than one returned. */
  lemma TopIndicesDominate(order: seq<int>, sims: seq<real>, n: nat, k: nat)
    requires IsArgsort(order, sims)
    ensures forall p, j :: 0 <= p < |sims| && p !in Window(order, k) && 0 <= j < |TopIndices(order, sims, n, k)| ==>
      sims[p] <= sims[TopIndices(order, sims, n, k)[j]]
  {
    var w := Window(order, k);
    var top := TopIndices(order, sims, n, k);
    TopIndicesComplete(order, sims, n, k);
    forall p, j | 0 <= p < |sims| && p !in w && 0 <= j < |top|
      ensures sims[p] <= sims[top[j]]
    {
      assert p in order;
      if k == 0 || k >= |order| {
        assert false;
      } else {
        var i :| 0 <= i < |order| && order[i] == p;
        assert top[j] in top;
        var v :| 0 <= v < |w| && w[v] == top[j];
        assert forall t :: |order| - k <= t < |order| ==> order[t] == w[t - (|order| - k)];
        assert i < |order| - k;
        assert order[|order| - k + v] == top[j];
      }
    }
  }

  // ---------------------------------------------------------------------
  // Picking the best candidate

  /** The index of the first candidate that beats every earlier one: a
      candidate replaces the best so far when it is eligible and its
      measure is strictly larger (the best starts at 0); -1 when none ever
      does. */
  function BestIndex<T>(xs: seq<T>, eligible: T -> bool, measure: T -> int): (k: int)
    ensures -1 <= k < |xs|
  {
    if xs == [] then -1
    else
      var k := BestIndex(xs[..|xs| - 1], eligible, measure);
      var best := if k < 0 then 0 else measure(xs[k]);
      var x := xs[|xs| - 1];
      if eligible(x) && measure(x) > best then |xs| - 1 else k
  }

  /** The index found is that of the first eligible candidate of maximal
      measure, provided that measure is positive. */
  lemma {:induction false} BestIndexSpec<T>(xs: seq<T>, eligible: T -> bool, measure: T -> int)
    ensures BestIndex(xs, eligible, measure) == -1 <==>
      forall i :: 0 <= i < |xs| && eligible(xs[i]) ==> measure(xs[i]) <= 0
    ensures var k := BestIndex(xs, eligible, measure);
      k >= 0 ==> eligible(xs[k]) && measure(xs[k]) > 0
    ensures var k := BestIndex(xs, eligible, measure);
      k >= 0 ==> forall i :: 0 <= i < |xs| && eligible(xs[i]) ==> measure(xs[i]) <= measure(xs[k])
    ensures var k := BestIndex(xs, eligible, measure);
      forall i :: 0 <= i < k && eligible(xs[i]) ==> measure(xs[i]) < measure(xs[k])
  {
    if xs != [] {
      var init := xs[..|xs| - 1];
      BestIndexSpec(init, eligible, measure);
      assert forall i :: 0 <= i < |init| ==> init[i] == xs[i];
    }
  }

  /** `k` is the first eligible candidate of maximal measure: every
      eligible one measures at most as much, every earlier one less. */
  predicate FirstBest<T>(xs: seq<T>, eligible: T -> bool, measure: T -> int, k: int)
  {
    && 0 <= k < |xs| && eligible(xs[k])
    && (forall i :: 0 <= i < |xs| && eligible(xs[i]) ==> measure(xs[i]) <= measure(xs[k]))
    && (forall i :: 0 <= i < k && eligible(xs[i]) ==> measure(xs[i]) < measure(xs[k]))
  }

  /** At most one candidate is the first best. */
  lemma FirstBestUnique<T>(xs: seq<T>, eligible: T -> bool, measure: T -> int, k: int, m: int)
    requires FirstBest(xs, eligible, measure, k) && FirstBest(xs, eligible, measure, m)
    ensures k == m
  {
    assert measure(xs[m]) <= measure(xs[k]) && measure(xs[k]) <= measure(xs[m]);
  }

  /** The loop that keeps the best candidate so far. */
  method FindBest<T>(xs: seq<T>, eligible: T -> bool, measure: T -> int) returns (k: int)
    ensures k == BestIndex(xs, eligible, measure)
  {
    k := -1;
    var best := 0;
    var i := 0;
    while i < |xs|
      invariant i <= |xs|
      invariant k == BestIndex(xs[..i], eligible, measure)
      invariant best == if k < 0 then 0 else measure(xs[k])
    {
      assert xs[..i + 1][..i] == xs[..i];
      if eligible(xs[i]) && measure(xs[i]) > best {
        k := i;
        best := measure(xs[i]);
      }
      i := i + 1;
    }
    assert xs[..i] == xs;
  }

  // ---------------------------------------------------------------------
  // Extracting an answer from the context

  /** A span the extractive model proposes: start and end token positions
      and the decoded text. */
  datatype Span = Span(start: int, end: int, text: string)

  predicate LongSpan(s: Span)
  {
    s.end >= s.start && |s.text| > 10
  }

  function SpanLength(s: Span): int
  {
    |s.text|
  }

  /** Strategy 1. `spans` lists the three best starts crossed with the
      three best ends, start-major, as the nested loops visit them; `None`
      when the model raises. The longest well-ordered span of more than ten
      characters (the first of equal length) is answered, stripped, when
      that is longer than fifteen characters. */
  function SpanAnswer(spans: Option<seq<Span>>): Option<string>
  {
    if spans.None? then None
    else
      var k := BestIndex(spans.value, LongSpan, SpanLength);
      var best := if k < 0 then "" else spans.value[k].text;
      if best != [] && |Strip(best)| > 15 then Some(Strip(best)) else None
  }

  /** The span answered is the stripped first longest proposed span; there
      is none exactly when the model raised, no span is well ordered and
      longer than ten characters, or the first longest strips to fifteen
      characters or fewer. */
  lemma SpanAnswerSpec(spans: Option<seq<Span>>)
    ensures SpanAnswer(spans).Some? ==>
      var a := SpanAnswer(spans).value;
      |a| > 15 && Trimmed(a) &&
      exists k :: FirstBest(spans.value, LongSpan, SpanLength, k) && a == Strip(spans.value[k].text)
    ensures SpanAnswer(spans).None? <==>
      || spans.None?
      || (forall i :: 0 <= i < |spans.value| ==> !LongSpan(spans.value[i]))
      || exists k :: FirstBest(spans.value, LongSpan, SpanLength, k) && |Strip(spans.value[k].text)| <= 15
  {
    if spans.Some? {
      var xs := spans.value;
      var k := BestIndex(xs, LongSpan, SpanLength);
      BestIndexSpec(xs, LongSpan, SpanLength);
      if k >= 0 {
        assert FirstBest(xs, LongSpan, SpanLength, k);
        forall m | FirstBest(xs, LongSpan, SpanLength, m) ensures m == k {
          FirstBestUnique(xs, LongSpan, SpanLength, k, m);
        }
      }
    }
  }

  const Cues: seq<string> := ["how to", "steps", "guide", "tutorial", "install", "run", "setup"]

  /** `set(s.lower().split())` */
  function WordSet(s: string): set<string>
  {
    set w | w in Words(Lower(s))
  }

  /** The words a sentence shares with the question, plus three when the
      sentence contains a cue of instructions. */
  function SentenceScore(question: string): string -> int
  {
    s => |WordSet(question) * WordSet(s)| + (if FirstMatch(Cues, Lower(s)).Some? then 3 else 0)
  }

  predicate LongSentence(s: string)
  {
    |Strip(s)| > 20
  }

  /** Of `sentences`, the first best-scoring one longer than twenty
      characters once stripped, with its period back, when it scores at
      least 2. */
  function BestSentence(sentences: seq<string>, score: string -> int): Option<string>
  {
    var k := BestIndex(sentences, LongSentence, score);
    if k >= 0 && score(sentences[k]) >= 2 then Some(Strip(sentences[k]) + ".") else None
  }

  /** The sentence answered is one whole sentence: longer than twenty
      characters, stripped, ending in its only period; it is the first
      best-scoring long sentence and scores at least 2. There is none
      exactly when every long sentence scores below 2. */
  lemma BestSentenceSpec(sentences: seq<string>, score: string -> int)
    requires forall i :: 0 <= i < |sentences| ==> '.' !in sentences[i]
    ensures BestSentence(sentences, score).Some? ==>
      var a := BestSentence(sentences, score).value;
      |a| > 21 && a[|a| - 1] == '.' && '.' !in a[..|a| - 1]
    ensures BestSentence(sentences, score).Some? ==>
      exists k :: FirstBest(sentences, LongSentence, score, k) &&
        BestSentence(sentences, score).value == Strip(sentences[k]) + "." && score(sentences[k]) >= 2
    ensures BestSentence(sentences, score).None? <==>
      forall i :: 0 <= i < |sentences| && LongSentence(sentences[i]) ==> score(sentences[i]) < 2
  {
    var k := BestIndex(sentences, LongSentence, score);
    BestIndexSpec(sentences, LongSentence, score);
    if BestSentence(sentences, score).Some? {
      assert FirstBest(sentences, LongSentence, score, k);
      PeriodEnded(sentences[k]);
    }
  }

  /** A stripped piece without periods, given its period back, ends in its
      only period. */
  lemma PeriodEnded(s: string)
    requires '.' !in s
    ensures var a := Strip(s) + "."; |a| == |Strip(s)| + 1 && a[|a| - 1] == '.' && '.' !in a[..|a| - 1]
  {
    var a := Strip(s) + ".";
    StripSlice(s);
    assert a[..|a| - 1] == Strip(s);
  }

  /** Strategy 2, over the pieces of the joined context between periods. */
  function SentenceAnswer(question: string, context: seq<string>): Option<string>
  {
    BestSentence(SplitOn(JoinWith(context, " "), '.'), SentenceScore(question))
  }

  /** A sentence answer is a single sentence of the context with its
      period. */
  lemma SentenceAnswerShape(question: string, context: seq<string>)
    ensures SentenceAnswer(question, context).Some? ==>
      var a := SentenceAnswer(question, context).value;
      |a| > 21 && a[|a| - 1] == '.' && '.' !in a[..|a| - 1]
  {
    var sentences := SplitOn(JoinWith(context, " "), '.');
    forall i | 0 <= i < |sentences|
      ensures '.' !in sentences[i]
    {
      assert sentences[i] in sentences;
    }
    BestSentenceSpec(sentences, SentenceScore(question));
  }

  /** `_extract_best_answer_from_context`: the span strategy, then the
      sentence strategy. */
  function ContextAnswer(question: string, context: seq<string>, spans: Option<seq<Span>>): Option<string>
  {
    if context == [] then None
    else
      var span := SpanAnswer(spans);
      if span.Some? then span else SentenceAnswer(question, context)
  }

  /** A cue decides the cascade whatever the question: when a context
      sentence longer than twenty characters contains a cue (anywhere, even
      inside a longer word), it scores at least 3, so an answer is taken
      from the context and the knowledge table is never consulted. */
  lemma CueSentenceAnswers(question: string, context: seq<string>, models: Models, i: nat, j: nat)
    requires context != []
    requires i < |SplitOn(JoinWith(context, " "), '.')|
    requires LongSentence(SplitOn(JoinWith(context, " "), '.')[i])
    requires j < |Cues| && Contains(Lower(SplitOn(JoinWith(context, " "), '.')[i]), Cues[j])
    ensures ContextAnswer(question, context, models.spans).Some?
    ensures IntelligentAnswer(question, context, models).1
  {
    var ps := SplitOn(JoinWith(context, " "), '.');
    CueScores(question, ps[i], j);
    LongSentenceFound(ps, SentenceScore(question), i);
    assert SentenceAnswer(question, context).Some?;
  }

  /** A sentence containing a cue scores at least 3, whatever the question. */
  lemma CueScores(question: string, s: string, j: nat)
    requires j < |Cues| && Contains(Lower(s), Cues[j])
    ensures SentenceScore(question)(s) >= 3
  {
    FirstMatchSpec(Cues, Lower(s));
  }

  /** A long sentence scoring at least 2 means the sentence strategy answers. */
  lemma LongSentenceFound(sentences: seq<string>, score: string -> int, i: nat)
    requires i < |sentences| && LongSentence(sentences[i]) && score(sentences[i]) >= 2
    ensures BestSentence(sentences, score).Some?
  {
    BestIndexSpec(sentences, LongSentence, score);
  }

  /** Strategy 1 as the source runs it: the nested loops keep the longest
      span. */
  method SpanStrategy(spans: Option<seq<Span>>) returns (answer: Option<string>)
    ensures answer == SpanAnswer(spans)
  {
    if spans.None? {
      return None;
    }
    var k := FindBest(spans.value, LongSpan, SpanLength);
    var best := if k < 0 then "" else spans.value[k].text;
    if best != [] && |Strip(best)| > 15 {
      return Some(Strip(best));
    }
    return None;
  }

  /** Strategy 2 as the source runs it: the loop keeps the best sentence. */
  method SentenceStrategy(question: string, context: seq<string>) returns (answer: Option<string>)
    ensures answer == SentenceAnswer(question, context)
  {
    var sentences := SplitOn(JoinWith(context, " "), '.');
    var score := SentenceScore(question);
    var k := FindBest(sentences, LongSentence, score);
    if k >= 0 && score(sentences[k]) >= 2 {
      return Some(Strip(sentences[k]) + ".");
    }
    return None;
  }

  /** An answer taken from the context is longer than fifteen
      characters. */
  lemma ContextAnswerLong(question: string, context: seq<string>, spans: Option<seq<Span>>)
    ensures ContextAnswer(question, context, spans).Some? ==>
      |ContextAnswer(question, context, spans).value| > 15
  {
    if context != [] {
      if SpanAnswer(spans).Some? {
        SpanAnswerSpec(spans);
      } else {
        SentenceAnswerShape(question, context);
      }
    }
  }

  /** Both strategies, one after the other. */
  method ExtractAnswer(question: string, context: seq<string>, spans: Option<seq<Span>>) returns (answer: Option<string>)
    ensures answer == ContextAnswer(question, context, spans)
  {
    if context == [] {
      return None;
    }
    answer := SpanStrategy(spans);
    if answer.None? {
      answer := SentenceStrategy(question, context);
    }
  }

  // ---------------------------------------------------------------------
  // Generating an answer

  /** The first 200 characters of each of the first two chunks, joined by a
      space. */
  function Preview(context: seq<string>): string
  {
    var firsts := Take(context, 2);
    JoinWith(seq(|firsts|, i requires 0 <= i < |firsts| => Take(firsts[i], 200)), " ")
  }

  /** The preview is never longer than 401 characters, so cutting it at
      500 for the prompt never removes anything. */
  lemma PreviewUncut(context: seq<string>)
    ensures |Preview(context)| <= 401
    ensures Take(Preview(context), 500) == Preview(context)
  {
    var firsts := Take(context, 2);
    var heads := seq(|firsts|, i requires 0 <= i < |firsts| => Take(firsts[i], 200));
    if |heads| == 2 {
      assert JoinWith(heads, " ") == heads[0] + " " + JoinWith(heads[1..], " ");
    }
  }

  function Prompt(question: string, context: seq<string>): string
  {
    "Based on this content: " + Take(Preview(context), 500) + "... Question: " + question + " Answer:"
  }

  /** The generator's fallback: when a generator is loaded, the text after
      the last `Answer:` of its output, stripped, if longer than twenty
      characters. `generator` returns `None` when it raises. */
  function GeneratedAnswer(generator: Option<string -> Option<string>>, question: string, context: seq<string>): Option<string>
  {
    if generator.None? || context == [] then None
    else match generator.value(Prompt(question, context))
      case None => None
      case Some(output) =>
        var answer := Strip(LastPiece(output, "Answer:"));
        if |answer| > 20 then Some(answer) else None
  }

  /** A generated answer is stripped, longer than twenty characters, and no
      longer holds the `Answer:` marker. */
  lemma GeneratedAnswerClean(generator: Option<string -> Option<string>>, question: string, context: seq<string>)
    ensures GeneratedAnswer(generator, question, context).Some? ==>
      var a := GeneratedAnswer(generator, question, context).value;
      |a| > 20 && Trimmed(a) && !Contains(a, "Answer:")
  {
    if GeneratedAnswer(generator, question, context).Some? {
      var output := generator.value(Prompt(question, context)).value;
      AfterLastMarker(output, "Answer:");
    }
  }

  /** What follows the last `marker`, stripped, holds no `marker`. */
  lemma AfterLastMarker(output: string, marker: string)
    requires marker != []
    ensures !Contains(Strip(LastPiece(output, marker)), marker)
  {
    var piece := LastPiece(output, marker);
    LastPieceIsSuffix(output, marker);
    StripSlice(piece);
    if Contains(Strip(piece), marker) {
      ContainsWithin(piece, Strip(piece), |piece| - |StripLeft(piece)|, marker);
    }
  }

  // ---------------------------------------------------------------------
  // Key lookup

  const KnowledgeKeys: seq<string> :=
    ["how i can run local llm", "what is local llm", "how to install local llm", "best local llm"]
  const GreetingKeys: seq<string> := ["hi", "hello", "hey", "hola", "how are you"]

  /** The position of the first key that occurs in `text`. */
  function FirstMatch(keys: seq<string>, text: string): (m: Option<nat>)
    ensures m.Some? ==> m.value < |keys|
  {
    if keys == [] then None
    else if Contains(text, keys[0]) then Some(0)
    else match FirstMatch(keys[1..], text)
      case None => None
      case Some(i) => Some(i + 1)
  }

  /** `None` exactly when no key occurs; otherwise the key found occurs and
      no earlier key does. */
  lemma {:induction false} FirstMatchSpec(keys: seq<string>, text: string)
    ensures FirstMatch(keys, text).None? <==> forall i :: 0 <= i < |keys| ==> !Contains(text, keys[i])
    ensures FirstMatch(keys, text).Some? ==>
      var i := FirstMatch(keys, text).value;
      Contains(text, keys[i]) && forall j :: 0 <= j < i ==> !Contains(text, keys[j])
  {
    if keys != [] {
      FirstMatchSpec(keys[1..], text);
      assert forall i :: 0 < i < |keys| ==> keys[i] == keys[1..][i - 1];
    }
  }

  /** The loop over a dictionary's keys in insertion order. */
  method FindKey(keys: seq<string>, text: string) returns (m: Option<nat>)
    ensures m == FirstMatch(keys, text)
  {
    FirstMatchSpec(keys, text);
    var i := 0;
    while i < |keys|
      invariant i <= |keys|
      invariant forall j :: 0 <= j < i ==> !Contains(text, keys[j])
    {
      if Contains(text, keys[i]) {
        return Some(i);
      }
      i := i + 1;
    }
    return None;
  }

  // ---------------------------------------------------------------------
  // Replies

  /** The fixed replies, by kind and by position in the source's lists. */
  datatype Message =
    | NotReady
    | Knowledge(entry: nat)
    | ContextFallback(entry: nat)
    | Greeting(entry: nat)
    | GeneralFallback(entry: nat)
    | CatchAll

  /** The position names an entry of its list. */
  predicate Known(m: Message)
  {
    match m
    case Knowledge(i) => i < |KnowledgeKeys|
    case ContextFallback(i) => i < 3
    case Greeting(i) => i < |GreetingKeys|
    case GeneralFallback(i) => i < 4
    case _ => true
  }

  function MessageText(m: Message): string
    requires Known(m)
  {
    match m
    case NotReady =>
      "Video processing is not complete or no video has been processed yet. Please process a video first using the home page, then try again."
    case Knowledge(i) =>
      if i == 0 then "To run a local LLM, you typically need to: 1) Download a model like Llama, Mistral, or Phi-3, 2) Use a framework like Ollama, LM Studio, or Text Generation WebUI, 3) Ensure you have sufficient RAM/VRAM, 4) Follow the specific setup instructions for your chosen model and platform."
      else if i == 1 then "A local LLM (Large Language Model) is an AI model that runs on your own computer instead of through cloud services. This gives you more privacy, offline access, and control over the AI capabilities without relying on internet connectivity or external APIs."
      else if i == 2 then "To install a local LLM: 1) Choose a model manager like Ollama or LM Studio, 2) Download and install the software, 3) Select and download your preferred model, 4) Configure the settings based on your hardware, 5) Start using the model through the provided interface or API."
      else "Some popular local LLMs include: Llama 2/3 (Meta), Mistral (Mistral AI), Phi-3 (Microsoft), and Gemma (Google). The best choice depends on your hardware, use case, and whether you need coding assistance, general chat, or specific domain expertise."
    case ContextFallback(i) =>
      if i == 0 then "Based on the video content, here's what I understand about this topic: The video covers various aspects that relate to your question. While I couldn't find a direct answer, the content suggests exploring the specific tools or methods mentioned in the video for more detailed guidance."
      else if i == 1 then "The video discusses concepts related to your question. For running local LLMs specifically, you might want to look into popular frameworks mentioned in the content or check the documentation of tools discussed in the video."
      else "I found relevant information in the video that touches on this topic. The content suggests considering factors like hardware requirements, software setup, and model selection when working with local AI models."
    case Greeting(i) =>
      if i == 0 then "Hello! I'm your AI assistant. I can answer questions about the video content you've processed. What would you like to know?"
      else if i == 1 then "Hello! I'm here to help you understand the video content better. What questions do you have?"
      else if i == 2 then "Hey there! I'm ready to answer your questions about the video. What would you like to know?"
      else if i == 3 then "\U{C2}\U{A1}Hola! I can help you with questions about the video content. What would you like to ask?"
      else "I'm functioning well, thank you! I'm ready to help you explore the video content. What would you like to know about it?"
    case GeneralFallback(i) =>
      if i == 0 then "Based on the video content, I don't have specific information about that topic, but the video covers other interesting aspects you might want to explore."
      else if i == 1 then "The video doesn't seem to cover that particular question in detail, but it discusses related concepts that could provide valuable insights."
      else if i == 2 then "I couldn't find specific information about that in the video content. You might want to ask about the main topics or key points covered in the video."
      else "That specific topic isn't extensively covered in the video. However, the video does provide valuable information on other related subjects."
    case CatchAll =>
      "I understand you're asking about this topic. While I process your question, here's what I can share: This appears to be related to technical setup or AI models. Could you provide more specific details about what you'd like to know?"
  }

  /** An answer taken from the content or generated, or a fixed reply. */
  datatype Reply = FromContent(text: string) | Canned(message: Message)

  datatype Outcome = Ok | Error

  /** The dictionary `answer_question` returns; `system` is absent from the
      catch-all reply. */
  datatype Response = Response(
    status: Outcome,
    reply: Reply,
    confidence: real,
    hasContext: bool,
    system: Option<SystemStatus>)

  /** What the models and the random choice contribute to one question:
      the similarities to every embedding (`None` when computing them
      raises) and their argsort, the extractive model's spans, the
      generator, and the position `random.choice` picks. */
  datatype Models = Models(
    similarities: Option<seq<real>>,
    order: seq<int>,
    spans: Option<seq<Span>>,
    generator: Option<string -> Option<string>>,
    pick: nat)

  /** `_generate_intelligent_answer`: the reply and whether it comes from
      the content. */
  function IntelligentAnswer(question: string, context: seq<string>, models: Models): (Reply, bool)
  {
    var extracted := ContextAnswer(question, context, models.spans);
    if extracted.Some? then (FromContent(extracted.value), true)
    else
      var generated := GeneratedAnswer(models.generator, question, context);
      if generated.Some? then (FromContent(generated.value), true)
      else
        var key := FirstMatch(KnowledgeKeys, Strip(Lower(question)));
        if key.Some? then (Canned(Knowledge(key.value)), false)
        else (Canned(ContextFallback(models.pick % 3)), false)
  }

  /** `_generate_general_answer`: the reply and its confidence. */
  function GeneralAnswer(question: string, pick: nat): (Reply, real)
  {
    var greeting := FirstMatch(GreetingKeys, Strip(Lower(question)));
    if greeting.Some? then (Canned(Greeting(greeting.value)), 0.9)
    else (Canned(GeneralFallback(pick % 4)), 0.3)
  }

  /** `answer_question` on a loaded assistant. */
  function Answer(chunks: seq<string>, embeddings: Option<Embeddings>, question: string, models: Models): Response
  {
    var status := GetSystemStatus(chunks, embeddings);
    if status.None? then Response(Ok, Canned(CatchAll), 0.5, false, None)
    else if !status.value.ready then Response(Error, Canned(NotReady), 0.0, false, status)
    else if FirstMatch(GreetingKeys, Strip(Lower(question))).Some? then
      var (reply, confidence) := GeneralAnswer(question, models.pick);
      Response(Ok, reply, confidence, false, status)
    else
      var relevant := Relevant(chunks, embeddings, models.similarities, models.order, TopK);
      if relevant != [] then
        var (reply, fromContent) := IntelligentAnswer(question, relevant, models);
        Response(Ok, reply, if fromContent then 0.8 else 0.6, fromContent, status)
      else
        var (reply, confidence) := GeneralAnswer(question, models.pick);
        Response(Ok, reply, confidence, false, status)
  }

  /** The readiness gate: an error exactly when no embeddings are loaded,
      or array embeddings are loaded without chunks (list embeddings make
      the status probe raise and reach the catch-all instead); then the
      fixed not-ready reply with confidence 0. */
  lemma NotReadyGate(chunks: seq<string>, embeddings: Option<Embeddings>, question: string, models: Models)
    ensures Answer(chunks, embeddings, question, models).status == Error <==>
      embeddings.None? || (embeddings.value.Array2D? && chunks == [])
    ensures Answer(chunks, embeddings, question, models).status == Error ==>
      Answer(chunks, embeddings, question, models) ==
        Response(Error, Canned(NotReady), 0.0, false, GetSystemStatus(chunks, embeddings))
  {
  }

  /** List embeddings make the status raise, which the catch-all turns into
      a success with confidence 0.5 and no status. */
  lemma ListEmbeddingsCatchAll(chunks: seq<string>, rows: nat, question: string, models: Models)
    ensures Answer(chunks, Some(List(rows)), question, models) ==
      Response(Ok, Canned(CatchAll), 0.5, false, None)
  {
  }

  predicate Ready(chunks: seq<string>, embeddings: Option<Embeddings>)
  {
    chunks != [] && embeddings.Some? && embeddings.value.Array2D?
  }

  /** A question holding a greeting key is answered with that key's
      greeting at confidence 0.9, before and without any retrieval: the
      models do not matter. */
  lemma GreetingShortcut(chunks: seq<string>, embeddings: Option<Embeddings>, question: string,
                         models: Models, others: Models, g: nat)
    requires Ready(chunks, embeddings)
    requires FirstMatch(GreetingKeys, Strip(Lower(question))) == Some(g)
    ensures Answer(chunks, embeddings, question, models).reply == Canned(Greeting(g))
    ensures Answer(chunks, embeddings, question, models).confidence == 0.9
    ensures Answer(chunks, embeddings, question, models) == Answer(chunks, embeddings, question, others)
  {
  }

  /** A reply from `_generate_intelligent_answer` comes from the content
      exactly when it says so; a content answer is longer than fifteen
      characters, and a fixed one is a knowledge entry or a context
      fallback. */
  lemma IntelligentAnswerShape(question: string, context: seq<string>, models: Models)
    ensures var (reply, fromContent) := IntelligentAnswer(question, context, models);
      && (fromContent <==> reply.FromContent?)
      && (reply.FromContent? ==> |reply.text| > 15)
      && (reply.Canned? ==> (reply.message.Knowledge? || reply.message.ContextFallback?) && Known(reply.message))
  {
    ContextAnswerLong(question, context, models.spans);
    GeneratedAnswerClean(models.generator, question, context);
  }

  /** `_generate_general_answer` gives a greeting at 0.9 or a general
      fallback at 0.3, never an answer from the content. */
  lemma GeneralAnswerShape(question: string, pick: nat)
    ensures var (reply, confidence) := GeneralAnswer(question, pick);
      && reply.Canned? && Known(reply.message)
      && (confidence == 0.9 <==> reply.message.Greeting?)
      && (confidence == 0.3 <==> reply.message.GeneralFallback?)
      && (confidence == 0.9 || confidence == 0.3)
  {
  }

  /** The confidence policy of a successful reply: 0.8 exactly when the
      answer comes from the content, 0.6 for a fixed reply to a question
      with relevant chunks, 0.9 for a greeting, 0.3 for the general
      fallback, 0.5 for the catch-all; every fixed reply names an entry of
      its list, and an answer from the content is longer than fifteen
      characters. */
  lemma ConfidencePolicy(chunks: seq<string>, embeddings: Option<Embeddings>, question: string, models: Models)
    ensures var r := Answer(chunks, embeddings, question, models);
      r.status == Ok ==>
        && (r.hasContext <==> r.reply.FromContent?)
        && (r.confidence == 0.8 <==> r.reply.FromContent?)
        && (r.confidence == 0.6 <==> r.reply.Canned? && (r.reply.message.Knowledge? || r.reply.message.ContextFallback?))
        && (r.confidence == 0.9 <==> r.reply.Canned? && r.reply.message.Greeting?)
        && (r.confidence == 0.3 <==> r.reply.Canned? && r.reply.message.GeneralFallback?)
        && (r.confidence == 0.5 <==> r.reply == Canned(CatchAll))
    ensures var r := Answer(chunks, embeddings, question, models);
      && (r.reply.Canned? ==> Known(r.reply.message))
      && (r.reply.FromContent? ==> |r.reply.text| > 15)
  {
    var relevant := Relevant(chunks, embeddings, models.similarities, models.order, TopK);
    IntelligentAnswerShape(question, relevant, models);
    GeneralAnswerShape(question, models.pick);
  }

  /** Without relevant chunks a ready assistant falls back to a general
      reply at confidence 0.3: a greeting cannot reach this point. */
  lemma NoRelevantChunks(chunks: seq<string>, embeddings: Option<Embeddings>, question: string, models: Models)
    requires Ready(chunks, embeddings)
    requires FirstMatch(GreetingKeys, Strip(Lower(question))).None?
    requires Relevant(chunks, embeddings, models.similarities, models.order, TopK) == []
    ensures Answer(chunks, embeddings, question, models).reply == Canned(GeneralFallback(models.pick % 4))
    ensures Answer(chunks, embeddings, question, models).confidence == 0.3
  {
  }

  /** The greeting test is a substring test: a question whose lowered text
      merely contains the letters "hi" (as "which", "this" or "machine"
      do) gets the greeting for "hi". */
  lemma HiAnywhereGreets(chunks: seq<string>, embeddings: Option<Embeddings>, question: string, models: Models)
    requires Ready(chunks, embeddings)
    requires Contains(Strip(Lower(question)), "hi")
    ensures Answer(chunks, embeddings, question, models).reply == Canned(Greeting(0))
    ensures Answer(chunks, embeddings, question, models).confidence == 0.9
  {
    assert GreetingKeys[0] == "hi";
    assert FirstMatch(GreetingKeys, Strip(Lower(question))) == Some(0);
    GreetingShortcut(chunks, embeddings, question, models, models, 0);
  }

  // ---------------------------------------------------------------------
  // The assistant

  /** `QnAGenerator`: the chunks and embeddings loaded when it is built. */
  class QnAGenerator {
    var chunks: seq<string>
    var embeddings: Option<Embeddings>

    /** `__init__`: `dir` is the chunks directory found (`None` when there
        is none), `candidates` the embeddings files in the order tried, and
        `listing` the directory's files. */
    constructor(dir: Option<string>, candidates: seq<Option<Pickle>>, listing: seq<Entry>)
      ensures dir.None? ==> chunks == [] && embeddings == None
      ensures dir.Some? ==>
        chunks == LoadedChunks(dir.value, listing) && embeddings == PickEmbeddings(candidates, None)
    {
      if dir.None? {
        chunks := [];
        embeddings := None;
      } else {
        var e := LoadEmbeddings(candidates);
        var c := LoadChunks(dir.value, listing);
        chunks := c;
        embeddings := e;
      }
    }

    /** `_find_relevant_chunks` with `top_k` = `k`. */
    method FindRelevantChunks(similarities: Option<seq<real>>, order: seq<int>, k: nat) returns (relevant: seq<string>)
      ensures relevant == Relevant(chunks, embeddings, similarities, order, k)
    {
      if embeddings.None? || chunks == [] {
        return [];
      }
      if similarities.None? {
        return Take(chunks, k);
      }
      var sims := similarities.value;
      var top := Reversed(Window(order, k));
      relevant := [];
      ghost var picked: seq<int> := [];
      var i := 0;
      while i < |top|
        invariant i <= |top|
        invariant picked == Filter(top[..i], Qualifier(sims, |chunks|))
        invariant forall j :: 0 <= j < |picked| ==> 0 <= picked[j] < |chunks|
        invariant relevant == ChunksAt(chunks, picked)
      {
        assert top[..i + 1][..i] == top[..i];
        var p := top[i];
        // An argsort index is never negative and always indexes `sims`.
        if 0 <= p < |chunks| && p < |sims| && sims[p] > Threshold {
          relevant := relevant + [chunks[p]];
          picked := picked + [p];
        }
        i := i + 1;
      }
      assert top[..i] == top;
    }

    /** `answer_question`. */
    method AnswerQuestion(question: string, models: Models) returns (response: Response)
      ensures response == Answer(chunks, embeddings, question, models)
    {
      var status := GetSystemStatus(chunks, embeddings);
      if status.None? {
        return Response(Ok, Canned(CatchAll), 0.5, false, None);
      }
      if !status.value.ready {
        return Response(Error, Canned(NotReady), 0.0, false, status);
      }
      var lowered := Strip(Lower(question));
      var greeting := FindKey(GreetingKeys, lowered);
      if greeting.Some? {
        var reply, confidence := GenerateGeneralAnswer(question, models.pick);
        return Response(Ok, reply, confidence, false, status);
      }
      var relevant := FindRelevantChunks(models.similarities, models.order, TopK);
      if relevant != [] {
        var reply, fromContent := GenerateIntelligentAnswer(question, relevant, models);
        return Response(Ok, reply, if fromContent then 0.8 else 0.6, fromContent, status);
      }
      var reply, confidence := GenerateGeneralAnswer(question, models.pick);
      return Response(Ok, reply, confidence, false, status);
    }
  }

  /** `_generate_intelligent_answer` as the source runs it. */
  method GenerateIntelligentAnswer(question: string, context: seq<string>, models: Models)
    returns (reply: Reply, fromContent: bool)
    ensures (reply, fromContent) == IntelligentAnswer(question, context, models)
  {
    var extracted := ExtractAnswer(question, context, models.spans);
    if extracted.Some? {
      return FromContent(extracted.value), true;
    }
    var generated := GeneratedAnswer(models.generator, question, context);
    if generated.Some? {
      return FromContent(generated.value), true;
    }
    var key := FindKey(KnowledgeKeys, Strip(Lower(question)));
    if key.Some? {
      return Canned(Knowledge(key.value)), false;
    }
    return Canned(ContextFallback(models.pick % 3)), false;
  }

  /** `_generate_general_answer` as the source runs it. */
  method GenerateGeneralAnswer(question: string, pick: nat) returns (reply: Reply, confidence: real)
    ensures (reply, confidence) == GeneralAnswer(question, pick)
  {
    var greeting := FindKey(GreetingKeys, Strip(Lower(question)));
    if greeting.Some? {
      return Canned(Greeting(greeting.value)), 0.9;
    }
    return Canned(GeneralFallback(pick % 4)), 0.3;
  }
}
