/** The notes generator (`NotesGenerator` in
    utils/llm_features/notes_generator.py): it picks the best transcript slot
    and turns it into a fixed Markdown template with an overview, frequent
    topics and scored key points. The abstractive summarizer is an input. */
module Notes {
  import opened Wrappers
  import opened Text
  import opened ContentStore
  import Sorting

  /** The abstractive summarizer applied to a text: `None` when the call raises. */
  type Summarizer = string -> Option<string>

  // ---------------------------------------------------------------------
  // Choosing the transcript
  // ---------------------------------------------------------------------

  /** Slots in order of preference: cleaned, english, original. */
  const TranscriptPreference: seq<string> := [CleanedPath, EnglishPath, TranscriptPath]

  /** Reading the slot at `p` does not raise (it is absent or readable). */
  predicate ReadableAt(s: Store, p: string)
  {
    p !in s.files || s.files[p].Readable?
  }

  /** One iteration of the loop of `_read_latest_transcript`: a slot that
      exists with real content wins, a read error ends the whole search with
      `None`, and otherwise the search goes on with `next`. */
  function TrySlot(s: Store, p: string, next: Option<string>): Option<string>
  {
    if p !in s.files then next
    else match s.files[p]
      case Unreadable => None
      case Readable(c) => if HasRealContent(c) then Some(Strip(c)) else next
  }

  /** The loop over the slots in order of preference. */
  function FirstTranscript(s: Store, paths: seq<string>): Option<string>
  {
    if paths == [] then None else TrySlot(s, paths[0], FirstTranscript(s, paths[1..]))
  }

  function ReadLatestTranscript(s: Store): Option<string>
  {
    FirstTranscript(s, TranscriptPreference)
  }

  lemma ReadLatestTranscriptUnfold(s: Store)
    ensures ReadLatestTranscript(s) == TrySlot(s, CleanedPath, TrySlot(s, EnglishPath, TrySlot(s, TranscriptPath, None)))
  {
    var ps := TranscriptPreference;
    assert ps[1..] == [EnglishPath, TranscriptPath];
    assert ps[1..][1..] == [TranscriptPath];
    assert ps[1..][1..][1..] == [];
    assert FirstTranscript(s, []) == None;
    assert FirstTranscript(s, [TranscriptPath]) == TrySlot(s, TranscriptPath, None);
    assert FirstTranscript(s, ps[1..]) == TrySlot(s, EnglishPath, FirstTranscript(s, [TranscriptPath]));
  }

  lemma TrySlotStripped(s: Store, p: string, next: Option<string>)
    requires next.Some? ==> |next.value| > 50 && Trimmed(next.value)
    ensures var r := TrySlot(s, p, next);
      r.Some? ==> |r.value| > 50 && Trimmed(r.value)
  {
  }

  /** A transcript that is read has real content and is already stripped. */
  lemma ReadLatestTranscriptStripped(s: Store)
    ensures var r := ReadLatestTranscript(s);
      r.Some? ==> |r.value| > 50 && Trimmed(r.value)
  {
    ReadLatestTranscriptUnfold(s);
    TrySlotStripped(s, TranscriptPath, None);
    TrySlotStripped(s, EnglishPath, TrySlot(s, TranscriptPath, None));
    TrySlotStripped(s, CleanedPath, TrySlot(s, EnglishPath, TrySlot(s, TranscriptPath, None)));
  }

  /** What `_read_latest_transcript` returns, slot by slot. */
  lemma ReadLatestTranscriptChoice(s: Store)
    ensures var r := ReadLatestTranscript(s);
      && (HasRealContentAt(s, CleanedPath) ==> r == Some(Strip(s.files[CleanedPath].content)))
      && (!HasRealContentAt(s, CleanedPath) && ReadableAt(s, CleanedPath) && HasRealContentAt(s, EnglishPath)
          ==> r == Some(Strip(s.files[EnglishPath].content)))
      && (!HasRealContentAt(s, CleanedPath) && ReadableAt(s, CleanedPath)
          && !HasRealContentAt(s, EnglishPath) && ReadableAt(s, EnglishPath) && HasRealContentAt(s, TranscriptPath)
          ==> r == Some(Strip(s.files[TranscriptPath].content)))
      && (!HasRealContentAt(s, CleanedPath) && !HasRealContentAt(s, EnglishPath) && !HasRealContentAt(s, TranscriptPath)
          ==> r == None)
      && (CleanedPath in s.files && s.files[CleanedPath].Unreadable? ==> r == None)
      && (!HasRealContentAt(s, CleanedPath) && ReadableAt(s, CleanedPath)
          && EnglishPath in s.files && s.files[EnglishPath].Unreadable?
          ==> r == None)
      && (!HasRealContentAt(s, CleanedPath) && ReadableAt(s, CleanedPath)
          && !HasRealContentAt(s, EnglishPath) && ReadableAt(s, EnglishPath)
          && TranscriptPath in s.files && s.files[TranscriptPath].Unreadable?
          ==> r == None)
  {
    ReadLatestTranscriptUnfold(s);
  }

  /** The loop of `_is_processing_complete`: a slot whose read raises is skipped. */
  function AnyHasRealContent(s: Store, paths: seq<string>): bool
  {
    paths != [] && (HasRealContentAt(s, paths[0]) || AnyHasRealContent(s, paths[1..]))
  }

  function IsProcessingComplete(s: Store): bool
  {
    AnyHasRealContent(s, [CleanedPath, EnglishPath])
  }

  /** Notes are ready exactly when the cleaned or the english slot has real
      content; and then a transcript can be read, unless reading the cleaned
      slot raises. */
  lemma ProcessingCompleteMeansTranscript(s: Store)
    ensures IsProcessingComplete(s) <==> HasRealContentAt(s, CleanedPath) || HasRealContentAt(s, EnglishPath)
    ensures IsProcessingComplete(s) && ReadableAt(s, CleanedPath) ==> ReadLatestTranscript(s).Some?
  {
    assert [CleanedPath, EnglishPath][1..] == [EnglishPath];
    assert [EnglishPath][1..] == [];
    assert AnyHasRealContent(s, [EnglishPath]) == HasRealContentAt(s, EnglishPath);
    ReadLatestTranscriptUnfold(s);
  }

  // ---------------------------------------------------------------------
  // Key points
  // ---------------------------------------------------------------------

  const Indicators: seq<string> := [
    "important", "key", "main", "essential", "critical", "crucial",
    "must", "should", "because", "therefore", "however", "consequently",
    "significantly", "primarily", "fundamental"]

  /** How many of `inds` occur in `lowered` as substrings. */
  function IndicatorHits(lowered: string, inds: seq<string>): (n: nat)
    ensures n <= |inds|
  {
    if inds == [] then 0
    else IndicatorHits(lowered, inds[..|inds| - 1]) + (if Contains(lowered, inds[|inds| - 1]) then 1 else 0)
  }

  function LengthScore(wordCount: nat): int
  {
    if 8 <= wordCount <= 25 then 10 else if wordCount > 25 then 5 else 0
  }

  /** Some character of `s` is a decimal digit. */
  predicate HasDigit(s: string)
  {
    s != [] && (IsDigit(s[0]) || HasDigit(s[1..]))
  }

  /** Starts with an upper-case letter and holds a digit: likely a numbered point. */
  predicate LooksNumbered(sentence: string)
  {
    sentence != [] && IsUpper(sentence[0]) && HasDigit(sentence)
  }

  /** The importance score of a candidate sentence. */
  function Score(sentence: string): int
  {
    LengthScore(|Words(sentence)|) + 8 * IndicatorHits(Lower(sentence), Indicators)
    + (if LooksNumbered(sentence) then 5 else 0)
  }

  /** The indicator loop of `_extract_key_points`: one hit per word of `inds`
      found in `lowered`. */
  method CountHits(lowered: string, inds: seq<string>) returns (hits: nat)
    ensures hits == IndicatorHits(lowered, inds)
  {
    hits := 0;
    var i := 0;
    while i < |inds|
      invariant 0 <= i <= |inds|
      invariant hits == IndicatorHits(lowered, inds[..i])
    {
      assert inds[..i + 1][..i] == inds[..i];
      if Contains(lowered, inds[i]) {
        hits := hits + 1;
      }
      i := i + 1;
    }
    assert inds[..|inds|] == inds;
  }

  /** The score accumulation of `_extract_key_points` for one sentence. */
  method ScoreSentence(sentence: string) returns (score: int)
    ensures score == Score(sentence)
  {
    score := 0;
    var wordCount := |Words(sentence)|;
    if 8 <= wordCount <= 25 {
      score := score + 10;
    } else if wordCount > 25 {
      score := score + 5;
    }
    var hits := CountHits(Lower(sentence), Indicators);
    score := score + 8 * hits;
    if LooksNumbered(sentence) {
      score := score + 5;
    }
    assert score == LengthScore(wordCount) + 8 * hits + (if LooksNumbered(sentence) then 5 else 0);
  }

  /** Indicators dominate the ranking: a sentence with two indicators, or
      with one and a length of 8 to 25 words, outscores every sentence with
      none, whatever their lengths and numbering. */
  lemma IndicatorsOutrank(a: string, b: string)
    requires IndicatorHits(Lower(a), Indicators) >= 2
             || (IndicatorHits(Lower(a), Indicators) >= 1 && 8 <= |Words(a)| <= 25)
    requires IndicatorHits(Lower(b), Indicators) == 0
    ensures Score(a) > Score(b)
  {
  }

  /** The stripped pieces longer than 15 characters, in order. */
  function Fragments(parts: seq<string>): (r: seq<string>)
    ensures forall i :: 0 <= i < |r| ==> |r[i]| > 15 && Trimmed(r[i])
  {
    if parts == [] then []
    else
      var rest := Fragments(parts[1..]);
      (if |Strip(parts[0])| > 15 then [Strip(parts[0])] else []) + rest
  }

  /** The candidate sentences of `_extract_key_points`. */
  function KeySentences(text: string): seq<string>
  {
    Fragments(SplitSentences(text))
  }

  datatype Scored = Scored(score: int, sentence: string)

  /** The scored list built by the loop, for a scoring function `score`:
      sentences of fewer than 3 words are skipped. */
  function ScoreAll(sentences: seq<string>, score: string -> int): (r: seq<Scored>)
    ensures |r| <= |sentences|
  {
    if sentences == [] then []
    else
      var last := sentences[|sentences| - 1];
      var rest := ScoreAll(sentences[..|sentences| - 1], score);
      rest + (if |Words(last)| >= 3 then [Scored(score(last), last)] else [])
  }

  /** `x` is the score of one of `sentences`, which has at least 3 words. */
  predicate ScoredEntry(x: Scored, sentences: seq<string>, score: string -> int)
  {
    x.score == score(x.sentence) && |Words(x.sentence)| >= 3 && x.sentence in sentences
  }

  /** Each scored entry carries its sentence's own score, the sentence has at
      least 3 words and comes from the input. */
  lemma {:induction false} ScoreAllEntries(sentences: seq<string>, score: string -> int)
    ensures forall i :: 0 <= i < |ScoreAll(sentences, score)| ==>
              ScoredEntry(ScoreAll(sentences, score)[i], sentences, score)
  {
    if sentences != [] {
      var init := sentences[..|sentences| - 1];
      var last := sentences[|sentences| - 1];
      var rest := ScoreAll(init, score);
      var tail := if |Words(last)| >= 3 then [Scored(score(last), last)] else [];
      var r := ScoreAll(sentences, score);
      assert r == rest + tail;
      ScoreAllEntries(init, score);
      assert init + [last] == sentences;
      forall i | 0 <= i < |r| ensures ScoredEntry(r[i], sentences, score) {
        if i < |rest| {
          ScoredEntryExtend(rest[i], init, last, score);
        } else {
          assert r[i] == tail[i - |rest|];
        }
      }
    }
  }

  lemma ScoredEntryExtend(x: Scored, init: seq<string>, last: string, score: string -> int)
    requires ScoredEntry(x, init, score)
    ensures ScoredEntry(x, init + [last], score)
  {
    var j :| 0 <= j < |init| && init[j] == x.sentence;
    assert (init + [last])[j] == init[j];
  }

  /** Sort key for `sort(reverse=True, key=score)`. */
  function Rank(x: Scored): int
  {
    -x.score
  }

  /** All scored sentences, best first, ties in text order. */
  function Ranked(text: string): seq<Scored>
  {
    Sorting.SortBy(ScoreAll(KeySentences(text), Score), Rank)
  }

  function SentencesOf(xs: seq<Scored>): (r: seq<string>)
    ensures |r| == |xs| && forall i :: 0 <= i < |xs| ==> r[i] == xs[i].sentence
  {
    seq(|xs|, i requires 0 <= i < |xs| => xs[i].sentence)
  }

  /** The result of `_extract_key_points(text, n)`. */
  function KeyPoints(text: string, n: nat): seq<string>
  {
    if text == [] then [] else SentencesOf(Take(Ranked(text), n))
  }

  /** One more sentence scored: the loop's step. */
  lemma ScoreAllSnoc(sentences: seq<string>, i: nat, score: string -> int)
    requires i < |sentences|
    ensures ScoreAll(sentences[..i + 1], score) == ScoreAll(sentences[..i], score)
              + (if |Words(sentences[i])| >= 3 then [Scored(score(sentences[i]), sentences[i])] else [])
  {
    assert sentences[..i + 1][..i] == sentences[..i];
  }

  /** The scoring loop of `_extract_key_points`. */
  method ScoreCandidates(sentences: seq<string>) returns (scored: seq<Scored>)
    ensures scored == ScoreAll(sentences, Score)
  {
    scored := [];
    var i := 0;
    while i < |sentences|
      invariant 0 <= i <= |sentences|
      invariant scored == ScoreAll(sentences[..i], Score)
    {
      var sentence := sentences[i];
      ScoreAllSnoc(sentences, i, Score);
      if |Words(sentence)| >= 3 {
        var score := ScoreSentence(sentence);
        scored := scored + [Scored(score, sentence)];
      }
      i := i + 1;
    }
    assert sentences[..|sentences|] == sentences;
  }

  /** `_extract_key_points`: score each candidate, then sort and cut. */
  method ExtractKeyPoints(text: string, numPoints: nat) returns (points: seq<string>)
    ensures points == KeyPoints(text, numPoints)
  {
    if text == [] {
      return [];
    }
    var scored := ScoreCandidates(KeySentences(text));
    var ranked := Sorting.SortBy(scored, Rank);
    points := SentencesOf(Take(ranked, numPoints));
  }

  /** Every ranked entry is a scored candidate sentence of the text. */
  lemma RankedEntries(text: string)
    ensures forall i :: 0 <= i < |Ranked(text)| ==> ScoredEntry(Ranked(text)[i], KeySentences(text), Score)
  {
    var ks := KeySentences(text);
    ScoreAllEntries(ks, Score);
    Sorting.SortByKeeps(ScoreAll(ks, Score), Rank, x => ScoredEntry(x, ks, Score));
  }

  /** Key points: none for empty text, at most `n`, each a stripped candidate
      sentence longer than 15 characters with at least 3 words. */
  lemma KeyPointsEntries(text: string, n: nat)
    ensures text == [] ==> KeyPoints(text, n) == []
    ensures |KeyPoints(text, n)| <= n
    ensures forall i :: 0 <= i < |KeyPoints(text, n)| ==>
              var p := KeyPoints(text, n)[i];
              p in KeySentences(text) && |p| > 15 && Trimmed(p) && |Words(p)| >= 3
  {
    if text != [] {
      var kp := KeyPoints(text, n);
      var r := Ranked(text);
      var ks := KeySentences(text);
      RankedEntries(text);
      forall i | 0 <= i < |kp| ensures kp[i] in ks && |kp[i]| > 15 && Trimmed(kp[i]) && |Words(kp[i])| >= 3 {
        assert kp[i] == r[i].sentence;
        assert ScoredEntry(r[i], ks, Score);
        var j :| 0 <= j < |ks| && ks[j] == kp[i];
      }
    }
  }

  /** Key points come in non-increasing score order, and no sentence cut off
      scores higher than one kept. */
  lemma KeyPointsOrder(text: string, n: nat)
    ensures forall i, j :: 0 <= i < j < |KeyPoints(text, n)| ==>
              Score(KeyPoints(text, n)[i]) >= Score(KeyPoints(text, n)[j])
    ensures forall i, j :: 0 <= i < n <= j < |Ranked(text)| ==> Ranked(text)[i].score >= Ranked(text)[j].score
  {
    var r := Ranked(text);
    Sorting.SortBySorted(ScoreAll(KeySentences(text), Score), Rank);
    assert forall i, j :: 0 <= i < j < |r| ==> Rank(r[i]) <= Rank(r[j]);
    if text != [] {
      var kp := KeyPoints(text, n);
      RankedEntries(text);
      forall i, j | 0 <= i < j < |kp| ensures Score(kp[i]) >= Score(kp[j]) {
        assert kp[i] == r[i].sentence && kp[j] == r[j].sentence;
        assert ScoredEntry(r[i], KeySentences(text), Score) && ScoredEntry(r[j], KeySentences(text), Score);
      }
    }
  }

  /** Sentences of equal score keep their order in the text. */
  lemma RankedStable(text: string, k: int)
    ensures Sorting.WithKey(Ranked(text), Rank, k) == Sorting.WithKey(ScoreAll(KeySentences(text), Score), Rank, k)
  {
    Sorting.SortByStable(ScoreAll(KeySentences(text), Score), Rank, k);
  }

  // ---------------------------------------------------------------------
  // Main topics
  // ---------------------------------------------------------------------

  const StopWords: seq<string> := ["the", "and", "is", "in", "to", "of", "a", "that", "it", "for"]

  /** Lower-cased words longer than 3 characters that are not stop-words. */
  function KeepTopicWords(ws: seq<string>): (r: seq<string>)
    ensures forall i :: 0 <= i < |r| ==> r[i] in ws && |r[i]| > 3 && r[i] !in StopWords
  {
    if ws == [] then []
    else (if ws[0] !in StopWords && |ws[0]| > 3 then [ws[0]] else []) + KeepTopicWords(ws[1..])
  }

  function ContentWords(content: string): seq<string>
  {
    KeepTopicWords(Words(Lower(content)))
  }

  /** Occurrences of `w` in `ws`. */
  function Count(w: string, ws: seq<string>): nat
  {
    if ws == [] then 0 else (if ws[0] == w then 1 else 0) + Count(w, ws[1..])
  }

  /** The distinct words of `ws` in order of first occurrence (a Counter's key order). */
  function Distinct(ws: seq<string>): (r: seq<string>)
    ensures forall x :: x in r <==> x in ws
  {
    if ws == [] then []
    else
      var init := Distinct(ws[..|ws| - 1]);
      var last := ws[|ws| - 1];
      assert ws == ws[..|ws| - 1] + [last];
      init + (if last in init then [] else [last])
  }

  /** Position of the first occurrence of `w` in `ws`. */
  function FirstAt(w: string, ws: seq<string>): (r: nat)
    requires w in ws
    ensures r < |ws| && ws[r] == w && w !in ws[..r]
  {
    if ws[0] == w then 0
    else
      var r := 1 + FirstAt(w, ws[1..]);
      assert ws[..r] == [ws[0]] + ws[1..][..r - 1];
      r
  }

  /** A position holding `w` with no earlier `w` is the first occurrence. */
  lemma FirstAtUnique(w: string, ws: seq<string>, k: nat)
    requires k < |ws| && ws[k] == w && w !in ws[..k]
    ensures FirstAt(w, ws) == k
  {
    var r := FirstAt(w, ws);
    forall t | 0 <= t < k ensures ws[t] != w {
      assert ws[t] == ws[..k][t];
    }
    forall t | 0 <= t < r ensures ws[t] != w {
      assert ws[t] == ws[..r][t];
    }
  }

  /** `Distinct` lists each word once, in order of first occurrence, as a
      `Counter` keeps its keys. */
  lemma {:induction false} DistinctFirstSeen(ws: seq<string>)
    ensures Sorting.Unique(Distinct(ws))
    ensures forall i, j :: 0 <= i < j < |Distinct(ws)| ==> FirstAt(Distinct(ws)[i], ws) < FirstAt(Distinct(ws)[j], ws)
  {
    if ws != [] {
      var init := ws[..|ws| - 1];
      var last := ws[|ws| - 1];
      var d0 := Distinct(init);
      DistinctFirstSeen(init);
      assert ws == init + [last];
      forall x | x in d0 ensures x in init && FirstAt(x, ws) == FirstAt(x, init) {
        var k := FirstAt(x, init);
        assert ws[..k] == init[..k];
        FirstAtUnique(x, ws, k);
      }
      if last !in d0 {
        assert last !in init;
        assert ws[..|ws| - 1] == init;
        FirstAtUnique(last, ws, |ws| - 1);
        var d := Distinct(ws);
        assert d == d0 + [last];
        forall i, j | 0 <= i < j < |d| ensures d[i] != d[j] && FirstAt(d[i], ws) < FirstAt(d[j], ws) {
          assert d[i] == d0[i];
          assert d[i] in d0;
          if j < |d0| {
            assert d[j] == d0[j];
            assert d[j] in d0;
          }
        }
      }
    }
  }

  /** Sort key of `most_common`: higher counts first. */
  function ByFrequency(ws: seq<string>): string -> int
  {
    (w: string) => -(Count(w, ws) as int)
  }

  function Frequent(content: string): seq<string>
  {
    var cw := ContentWords(content);
    Sorting.SortBy(Distinct(cw), ByFrequency(cw))
  }

  /** `Counter(content_words).most_common(5)`, keys only. */
  function MainTopics(content: string): seq<string>
  {
    Take(Frequent(content), 5)
  }

  /** A main-topic candidate: a content word longer than 3 characters that is
      not a stop-word. */
  predicate TopicWord(x: string, cw: seq<string>)
  {
    x in cw && |x| > 3 && x !in StopWords
  }

  lemma DistinctTopicWords(content: string)
    ensures var cw := ContentWords(content);
      forall i :: 0 <= i < |Distinct(cw)| ==> TopicWord(Distinct(cw)[i], cw)
  {
    var cw := ContentWords(content);
    var d := Distinct(cw);
    forall i | 0 <= i < |d| ensures TopicWord(d[i], cw) {
      assert d[i] in cw;
      var j :| 0 <= j < |cw| && cw[j] == d[i];
    }
  }

  /** Main topics: at most 5 distinct content words longer than 3
      characters that are not stop-words. */
  lemma MainTopicsEntries(content: string)
    ensures var t := MainTopics(content); var cw := ContentWords(content);
      && |t| <= 5
      && (forall i :: 0 <= i < |t| ==> t[i] in cw && |t[i]| > 3 && t[i] !in StopWords)
      && (forall i, j :: 0 <= i < j < |t| ==> t[i] != t[j])
  {
    var cw := ContentWords(content);
    DistinctTopicWords(content);
    Sorting.SortByKeeps(Distinct(cw), ByFrequency(cw), x => TopicWord(x, cw));
    DistinctFirstSeen(cw);
    Sorting.SortByUnique(Distinct(cw), ByFrequency(cw));
  }

  /** Main topics come in non-increasing frequency. */
  lemma MainTopicsOrder(content: string)
    ensures var t := MainTopics(content); var cw := ContentWords(content);
      forall i, j :: 0 <= i < j < |t| ==> Count(t[i], cw) >= Count(t[j], cw)
  {
    var cw := ContentWords(content);
    var f := Frequent(content);
    Sorting.SortBySorted(Distinct(cw), ByFrequency(cw));
    assert forall i, j :: 0 <= i < j < |f| ==> ByFrequency(cw)(f[i]) <= ByFrequency(cw)(f[j]);
  }

  /** No content word left out of the main topics is more frequent than a
      topic kept. */
  lemma MainTopicsDominate(content: string, w: string)
    requires w in ContentWords(content) && w !in MainTopics(content)
    ensures forall i :: 0 <= i < |MainTopics(content)| ==> Count(w, ContentWords(content)) <= Count(MainTopics(content)[i], ContentWords(content))
  {
    var cw := ContentWords(content);
    var d := Distinct(cw);
    var f := Frequent(content);
    var t := MainTopics(content);
    Sorting.SortByPermutes(d, ByFrequency(cw));
    Sorting.SortBySorted(d, ByFrequency(cw));
    assert w in d;
    assert w in multiset(d);
    assert w in multiset(f);
    var j :| 0 <= j < |f| && f[j] == w;
    assert j >= |t|;
    forall i | 0 <= i < |t| ensures Count(w, cw) <= Count(t[i], cw) {
      assert t[i] == f[i];
      assert ByFrequency(cw)(f[i]) <= ByFrequency(cw)(f[j]);
    }
  }

  /** Words of equal frequency keep their first-occurrence order: the
      topic seen first in the content comes first. */
  lemma FrequentStable(content: string, k: int)
    ensures Sorting.WithKey(Frequent(content), ByFrequency(ContentWords(content)), k)
            == Sorting.WithKey(Distinct(ContentWords(content)), ByFrequency(ContentWords(content)), k)
    ensures var f := Frequent(content); var cw := ContentWords(content);
      forall i, j :: 0 <= i < j < |f| && Count(f[i], cw) == Count(f[j], cw) ==>
        f[i] in cw && f[j] in cw && FirstAt(f[i], cw) < FirstAt(f[j], cw)
  {
    var cw := ContentWords(content);
    Sorting.SortByStable(Distinct(cw), ByFrequency(cw), k);
    TiesFirstSeen(cw);
  }

  /** Where a word is first seen in `ws`; -1 for a word that is not. */
  function FirstSeen(ws: seq<string>): string -> int
  {
    (w: string) => if w in ws then FirstAt(w, ws) as int else -1
  }

  /** Sorting the distinct words of `ws` by frequency puts, of two equally
      frequent words, the one seen first in `ws` first. */
  lemma TiesFirstSeen(ws: seq<string>)
    ensures var f := Sorting.SortBy(Distinct(ws), ByFrequency(ws));
      forall i, j :: 0 <= i < j < |f| && Count(f[i], ws) == Count(f[j], ws) ==>
        f[i] in ws && f[j] in ws && FirstAt(f[i], ws) < FirstAt(f[j], ws)
  {
    var d := Distinct(ws);
    var f := Sorting.SortBy(d, ByFrequency(ws));
    DistinctFirstSeen(ws);
    forall i, j | 0 <= i < j < |d| ensures FirstSeen(ws)(d[i]) < FirstSeen(ws)(d[j]) {
      assert d[i] in ws && d[j] in ws;
    }
    Sorting.SortByTiesOrdered(d, ByFrequency(ws), FirstSeen(ws));
    Sorting.SortByKeeps(d, ByFrequency(ws), w => w in ws);
    forall i, j | 0 <= i < j < |f| && Count(f[i], ws) == Count(f[j], ws)
      ensures f[i] in ws && f[j] in ws && FirstAt(f[i], ws) < FirstAt(f[j], ws)
    {
      assert ByFrequency(ws)(f[i]) == ByFrequency(ws)(f[j]);
      assert FirstSeen(ws)(f[i]) < FirstSeen(ws)(f[j]);
    }
  }

  // ---------------------------------------------------------------------
  // Overview
  // ---------------------------------------------------------------------

  /** The pieces, each passed through `clean`, that are longer than `min`
      characters, in order. */
  function LongerThan(parts: seq<string>, min: nat, clean: string -> string): seq<string>
  {
    if parts == [] then []
    else
      var piece := clean(parts[0]);
      var rest := LongerThan(parts[1..], min, clean);
      if |piece| > min then [piece] + rest else rest
  }

  /** Every piece kept is longer than `min`. */
  lemma {:induction false} LongerThanLong(parts: seq<string>, min: nat, clean: string -> string)
    ensures forall i :: 0 <= i < |LongerThan(parts, min, clean)| ==> |LongerThan(parts, min, clean)[i]| > min
  {
    if parts != [] {
      LongerThanLong(parts[1..], min, clean);
    }
  }

  /** The stripped pieces longer than `min` characters, in order. */
  function LongPieces(parts: seq<string>, min: nat): seq<string>
  {
    LongerThan(parts, min, Strip)
  }

  const DefaultSummary: string := "Summary of the main content points."
  const FailedSummary: string := "Key points and main ideas from the content."

  /** First and last of the meaningful sentences `m`, the only one, or the
      fixed text when there is none. */
  function FirstAndLast(m: seq<string>): string
  {
    if m == [] then DefaultSummary
    else if |m| > 1 then m[0] + " " + m[|m| - 1]
    else m[0]
  }

  /** The overview used when there is no summarizer or the text is short. */
  function FallbackSummary(content: string): string
  {
    FirstAndLast(LongPieces(SplitSentences(content), 20))
  }

  /** The overview used when the summarizer raises (pieces split on '.' only). */
  function SummaryAfterFailure(content: string): string
  {
    FirstAndLastSentences(LongPieces(SplitOn(content, '.'), 30))
  }

  /** First and last of the pieces `m` as sentences, the only one, or the
      fixed text when there is none. */
  function FirstAndLastSentences(m: seq<string>): string
  {
    if |m| >= 2 then m[0] + ". " + m[|m| - 1] + "."
    else if |m| == 1 then m[0] + "."
    else FailedSummary
  }

  /** `_generate_summary`: the summarizer sees the first 1500 characters. */
  function Summary(content: string, summarizer: Option<Summarizer>): string
  {
    if summarizer.None? || |Words(content)| < 100 then FallbackSummary(content)
    else
      match summarizer.value(if |content| <= 1500 then content else content[..1500])
      case Some(text) => text
      case None => SummaryAfterFailure(content)
  }

  /** The fallback overview is longer than 20 characters: it starts with the
      first meaningful sentence and ends with the last one when there are
      several, and it is the fixed text when there is none. */
  lemma FirstAndLastShape(m: seq<string>)
    requires forall i :: 0 <= i < |m| ==> |m[i]| > 20
    ensures |FirstAndLast(m)| > 20
    ensures m == [] ==> FirstAndLast(m) == DefaultSummary
    ensures m != [] ==> m[0] <= FirstAndLast(m)
    ensures m != [] ==> |m[|m| - 1]| <= |FirstAndLast(m)|
                        && FirstAndLast(m)[|FirstAndLast(m)| - |m[|m| - 1]|..] == m[|m| - 1]
  {
    if |m| > 1 {
      var r := FirstAndLast(m);
      assert r == m[0] + (" " + m[|m| - 1]);
      assert r[|r| - |m[|m| - 1]|..] == m[|m| - 1];
    }
  }

  /** Without a summarizer the overview is the first-and-last of the
      meaningful sentences, each over 20 characters. */
  lemma FallbackSummaryShape(content: string)
    ensures var m := LongPieces(SplitSentences(content), 20);
      && |FallbackSummary(content)| > 20
      && (m == [] ==> FallbackSummary(content) == DefaultSummary)
      && (m != [] ==> m[0] <= FallbackSummary(content))
  {
    LongerThanLong(SplitSentences(content), 20, Strip);
    FirstAndLastShape(LongPieces(SplitSentences(content), 20));
  }

  /** When the summarizer raises, the overview is the fixed text if no piece
      between periods is longer than thirty characters; otherwise it starts
      with the first such piece and ends with a period. */
  lemma SummaryAfterFailureShape(content: string)
    ensures var m := LongPieces(SplitOn(content, '.'), 30);
      var r := SummaryAfterFailure(content);
      && (m == [] ==> r == FailedSummary)
      && (m != [] ==> m[0] <= r && |r| > 31 && r[|r| - 1] == '.')
  {
    LongerThanLong(SplitOn(content, '.'), 30, Strip);
    FirstAndLastSentencesShape(LongPieces(SplitOn(content, '.'), 30));
  }

  lemma FirstAndLastSentencesShape(m: seq<string>)
    requires forall i :: 0 <= i < |m| ==> |m[i]| > 30
    ensures var r := FirstAndLastSentences(m);
      && (m == [] ==> r == FailedSummary)
      && (m != [] ==> m[0] <= r && |r| > 31 && r[|r| - 1] == '.')
  {
    var r := FirstAndLastSentences(m);
    if |m| >= 2 {
      assert r == m[0] + (". " + m[|m| - 1] + ".");
    }
  }

  // ---------------------------------------------------------------------
  // The notes document
  // ---------------------------------------------------------------------

  const NoContentNotes: string := "No content available for note generation."

  const FixedSections: string :=
    "\n## Additional Information\n- Important details from the content\n- Supporting facts and evidence\n"
    + "- Relevant context and background\n\n## Takeaways\n- Main conclusions or learnings\n"
    + "- Practical applications\n- Key insights worth remembering\n"

  const Title: string := "# Content Notes\n\n## Overview\n"

  function TopicBullets(topics: seq<string>): seq<string>
  {
    seq(|topics|, i requires 0 <= i < |topics| => "- " + Capitalize(topics[i]))
  }

  function Header(summary: string, topics: seq<string>): string
  {
    Title + summary + "\n\n## Main Topics\n"
    + JoinWith(TopicBullets(topics), "\n") + "\n\n## Key Points\n"
  }

  /** Lines "1. p1", "2. p2", ..., each ending in a newline. */
  function KeyPointLines(points: seq<string>): string
  {
    if points == [] then []
    else KeyPointLines(points[..|points| - 1]) + NatToString(|points|) + ". " + points[|points| - 1] + "\n"
  }

  /** The key-point list starts with point 1. */
  lemma {:induction false} KeyPointLinesStart(points: seq<string>)
    requires points != []
    ensures "1. " + points[0] + "\n" <= KeyPointLines(points)
  {
    if |points| > 1 {
      var init := points[..|points| - 1];
      assert init[0] == points[0];
      KeyPointLinesStart(init);
    } else {
      assert NatToString(1) == "1";
    }
  }

  /** The document: header, numbered key points, the fixed sections. */
  function NotesDocument(summary: string, topics: seq<string>, points: seq<string>): string
  {
    Header(summary, topics) + KeyPointLines(points) + FixedSections
  }

  /** `_create_structured_notes(content)` */
  function StructuredNotes(content: string, summarizer: Option<Summarizer>): string
  {
    if content == [] then NoContentNotes
    else NotesDocument(Summary(content, summarizer), MainTopics(content), Take(KeyPoints(content, 8), 6))
  }

  /** `_create_structured_notes`, built section by section. */
  method CreateStructuredNotes(content: string, summarizer: Option<Summarizer>) returns (notes: string)
    ensures notes == StructuredNotes(content, summarizer)
  {
    if content == [] {
      return NoContentNotes;
    }
    var summary := Summary(content, summarizer);
    var topics := MainTopics(content);
    var keyPoints := ExtractKeyPoints(content, 8);
    var lines := NumberedLines(Take(keyPoints, 6));
    notes := Header(summary, topics) + lines + FixedSections;
  }

  /** The loop of `_create_structured_notes` that numbers the key points from 1. */
  method NumberedLines(points: seq<string>) returns (lines: string)
    ensures lines == KeyPointLines(points)
  {
    lines := "";
    var i := 0;
    while i < |points|
      invariant 0 <= i <= |points|
      invariant lines == KeyPointLines(points[..i])
    {
      assert points[..i + 1][..i] == points[..i];
      lines := lines + NatToString(i + 1) + ". " + points[i] + "\n";
      i := i + 1;
    }
    assert points[..|points|] == points;
  }

  /** `a + b + c` begins with `a` and ends with `c`. */
  lemma ConcatEnds(a: string, b: string, c: string)
    ensures a <= a + b + c
    ensures |a + b + c| >= |c| && (a + b + c)[|a + b + c| - |c|..] == c
  {
    assert a + b + c == a + (b + c);
  }

  /** The document opens with the title and the overview. */
  lemma NotesDocumentOpens(summary: string, topics: seq<string>, points: seq<string>)
    ensures Title + summary <= NotesDocument(summary, topics, points)
  {
    var rest := "\n\n## Main Topics\n" + JoinWith(TopicBullets(topics), "\n") + "\n\n## Key Points\n";
    ConcatEnds(Title + summary, rest, KeyPointLines(points) + FixedSections);
  }

  /** The document ends with the two fixed sections. */
  lemma NotesDocumentEnds(summary: string, topics: seq<string>, points: seq<string>)
    ensures var notes := NotesDocument(summary, topics, points);
      |notes| >= |FixedSections| && notes[|notes| - |FixedSections|..] == FixedSections
  {
    ConcatEnds(Header(summary, topics), KeyPointLines(points), FixedSections);
  }

  /** The key-point list follows the header and starts at 1. */
  lemma NotesDocumentFirstPoint(summary: string, topics: seq<string>, points: seq<string>)
    requires points != []
    ensures Header(summary, topics) + "1. " + points[0] + "\n" <= NotesDocument(summary, topics, points)
  {
    var h := Header(summary, topics);
    var lines := KeyPointLines(points);
    KeyPointLinesStart(points);
    var first := "1. " + points[0] + "\n";
    assert lines == first + lines[|first|..];
    ConcatEnds(h + first, lines[|first|..], FixedSections);
  }

  // ---------------------------------------------------------------------
  // generate_detailed_notes
  // ---------------------------------------------------------------------

  datatype NotesResult =
    | Generated(notes: string, wordCount: nat)
    | StillProcessing(message: string)
    | Failed(message: string)
  {
    function Status(): string
    {
      match this
      case Generated(_, _) => "success"
      case StillProcessing(_) => "processing"
      case Failed(_) => "error"
    }
  }

  const ProcessingMessage: string := "Video is still being processed. Please wait..."
  const NoTranscriptMessage: string := "No transcript available. Please process a video first."

  /** `generate_detailed_notes`. `fault` stands for an exception raised while
      the notes are built, with its text; timing is not modelled. */
  method GenerateDetailedNotes(s: Store, summarizer: Option<Summarizer>, fault: Option<string>)
    returns (r: NotesResult)
    ensures !IsProcessingComplete(s) ==> r == StillProcessing(ProcessingMessage)
    ensures IsProcessingComplete(s) && ReadLatestTranscript(s).None? ==> r == Failed(NoTranscriptMessage)
    ensures IsProcessingComplete(s) && ReadLatestTranscript(s).Some? && fault.Some?
            ==> r == Failed("Failed to generate notes: " + fault.value)
    ensures r.Generated? <==> IsProcessingComplete(s) && ReadLatestTranscript(s).Some? && fault.None?
    ensures r.Generated? ==> r.notes == StructuredNotes(ReadLatestTranscript(s).value, summarizer)
                             && r.wordCount == |Words(r.notes)|
  {
    if !IsProcessingComplete(s) {
      return StillProcessing(ProcessingMessage);
    }
    var transcript := ReadLatestTranscript(s);
    if transcript.None? {
      return Failed(NoTranscriptMessage);
    }
    if fault.Some? {
      return Failed("Failed to generate notes: " + fault.value);
    }
    var notes := CreateStructuredNotes(transcript.value, summarizer);
    r := Generated(notes, |Words(notes)|);
  }
}
