/**
 Character-window chunking (crewos/chunking): the closed-form splitter, the
 service loop that re-checks the spans of any strategy, and what an accepted
 list of spans means for the text it came from.
 */
module Chunking {
  import opened Wrappers

  datatype TextChunk = TextChunk(index: nat, text: string, startChar: nat, endChar: nat)

  datatype ChunkingOptions = ChunkingOptions(chunkSize: nat, overlap: nat)

  datatype ChunkingError = LimitExceeded | NoChunks | InconsistentSpans | IncompleteCover

  const MAX_TEXT := 1_000_000
  const MAX_CHUNK_SIZE := 16384

  /** The shape rules of ChunkingOptions and ChunkingRequest. */
  predicate ValidOptions(o: ChunkingOptions) {
    1 <= o.chunkSize <= MAX_CHUNK_SIZE && o.overlap < o.chunkSize
  }

  predicate ValidText(text: string) {
    1 <= |text| <= MAX_TEXT
  }

  /** The shape rules of TextChunk. */
  predicate ValidChunk(c: TextChunk) {
    && 1 <= |c.text| <= MAX_TEXT
    && c.startChar < MAX_TEXT
    && 0 < c.endChar <= MAX_TEXT
    && c.endChar - c.startChar == |c.text|
  }

  function Min(a: int, b: int): int {
    if a < b then a else b
  }

  /** Slicing with both bounds clamped to the text, which never fails. */
  function Slice(s: string, from: nat, to: nat): string {
    var lo := Min(from, |s|);
    var hi := Min(to, |s|);
    if lo <= hi then s[lo..hi] else ""
  }

  function TotalChars(chunks: seq<TextChunk>): nat {
    if chunks == [] then 0 else TotalChars(chunks[..|chunks| - 1]) + |chunks[|chunks| - 1].text|
  }

  // ---------------------------------------------------------------- splitter

  function Step(o: ChunkingOptions): nat
    requires ValidOptions(o)
  {
    o.chunkSize - o.overlap
  }

  function WindowCount(length: nat, o: ChunkingOptions): nat
    requires ValidOptions(o)
  {
    if length <= o.chunkSize then 1
    else 1 + (length - o.chunkSize + Step(o) - 1) / Step(o)
  }

  function Window(text: string, o: ChunkingOptions, index: nat): TextChunk
    requires ValidOptions(o)
  {
    var start := index * Step(o);
    var end := Min(start + o.chunkSize, |text|);
    TextChunk(index, Slice(text, start, end), start, end)
  }

  /** Every window, before any limit is applied. */
  function Windows(text: string, o: ChunkingOptions): seq<TextChunk>
    requires ValidOptions(o)
  {
    seq(WindowCount(|text|, o), index requires index >= 0 => Window(text, o, index))
  }

  function Split(text: string, o: ChunkingOptions, maxChunks: nat, maxOutputChars: nat)
    : Result<seq<TextChunk>, ChunkingError>
    requires ValidOptions(o)
  {
    var count := WindowCount(|text|, o);
    var outputChars := |text| + (count - 1) * o.overlap;
    if count > maxChunks || outputChars > maxOutputChars then Failure(LimitExceeded)
    else Success(Windows(text, o))
  }

  lemma MulMonotone(a: int, b: int, step: nat)
    requires a <= b
    ensures a * step <= b * step
  {
  }

  /** m blocks of size b reach a exactly when m is at least the rounded-up quotient. */
  lemma CeilingDivision(a: nat, b: nat, m: int)
    requires b > 0
    ensures m * b >= a <==> m >= (a + b - 1) / b
  {
    var q := (a + b - 1) / b;
    assert q * b <= a + b - 1 < q * b + b;
    if m >= q {
      MulMonotone(q, m, b);
    } else {
      MulMonotone(m, q - 1, b);
      assert (q - 1) * b == q * b - b;
    }
  }

  /** The closed form is the least number of windows whose union reaches the end of the text. */
  lemma WindowCountIsLeast(length: nat, o: ChunkingOptions, n: nat)
    requires ValidOptions(o) && n >= 1
    ensures (n - 1) * Step(o) + o.chunkSize >= length <==> n >= WindowCount(length, o)
  {
    if length <= o.chunkSize {
      MulMonotone(0, n - 1, Step(o));
    } else {
      CeilingDivision(length - o.chunkSize, Step(o), n - 1);
    }
  }

  /** Where window i lies: it starts inside the text, is full unless it is the last, and the last ends the text. */
  lemma WindowShape(text: string, o: ChunkingOptions, i: nat)
    requires ValidOptions(o) && ValidText(text)
    requires i < WindowCount(|text|, o)
    ensures var w := Window(text, o, i);
      && w.startChar < |text|
      && ValidChunk(w)
      && w.text == text[w.startChar..w.endChar]
      && (i + 1 < WindowCount(|text|, o) ==> w.endChar == w.startChar + o.chunkSize < |text|)
      && (i + 1 == WindowCount(|text|, o) ==> w.endChar == |text|)
  {
    var step := Step(o);
    WindowCountIsLeast(|text|, o, i + 1);
    if i > 0 {
      WindowCountIsLeast(|text|, o, i);
      assert i * step == (i - 1) * step + step;
    }
    MulMonotone(0, i, step);
  }

  lemma Distribute(m: nat, size: nat, overlap: nat)
    requires overlap < size
    ensures m * (size - overlap) == m * size - m * overlap
    ensures (m + 1) * size == m * size + size
  {
  }

  lemma TotalCharsExtend(chunks: seq<TextChunk>, n: nat)
    requires n < |chunks|
    ensures TotalChars(chunks[..n + 1]) == TotalChars(chunks[..n]) + |chunks[n].text|
  {
    assert chunks[..n + 1][..n] == chunks[..n];
  }

  /** Every window but the last is full. */
  lemma {:induction false} FullWindowsSize(text: string, o: ChunkingOptions, n: nat)
    requires ValidOptions(o) && ValidText(text)
    requires n < WindowCount(|text|, o)
    ensures TotalChars(Windows(text, o)[..n]) == n * o.chunkSize
  {
    if n == 0 {
    } else {
      FullWindowsSize(text, o, n - 1);
      TotalCharsExtend(Windows(text, o), n - 1);
      WindowShape(text, o, n - 1);
      Distribute(n - 1, o.chunkSize, o.overlap);
    }
  }

  /** The size the splitter predicts is the size it produces. */
  lemma WindowsSize(text: string, o: ChunkingOptions)
    requires ValidOptions(o) && ValidText(text)
    ensures TotalChars(Windows(text, o)) == |text| + (WindowCount(|text|, o) - 1) * o.overlap
  {
    var all := Windows(text, o);
    var last := WindowCount(|text|, o) - 1;
    FullWindowsSize(text, o, last);
    TotalCharsExtend(all, last);
    WindowShape(text, o, last);
    Distribute(last, o.chunkSize, o.overlap);
    assert all[..last + 1] == all;
  }

  // --------------------------------------------------------- accepted spans

  function PreviousEnd(chunks: seq<TextChunk>, i: nat): nat
    requires i <= |chunks|
  {
    if i == 0 then 0 else chunks[i - 1].endChar
  }

  /** One chunk continues the cover: right number, right text, no gap before it, and progress after it. */
  predicate Continues(text: string, chunks: seq<TextChunk>, i: nat)
    requires i < |chunks|
  {
    && chunks[i].index == i
    && chunks[i].startChar <= PreviousEnd(chunks, i) < chunks[i].endChar
    && chunks[i].text == Slice(text, chunks[i].startChar, chunks[i].endChar)
  }

  predicate AllContinue(text: string, chunks: seq<TextChunk>) {
    forall i :: 0 <= i < |chunks| ==> Continues(text, chunks, i)
  }

  /** The chunks are numbered slices of the text that leave no character out. */
  predicate Covers(text: string, chunks: seq<TextChunk>) {
    && chunks != []
    && AllContinue(text, chunks)
    && PreviousEnd(chunks, |chunks|) == |text|
  }

  predicate WithinLimits(chunks: seq<TextChunk>, maxChunks: nat, maxOutputChars: nat) {
    |chunks| <= maxChunks && TotalChars(chunks) <= maxOutputChars
  }

  /** Each window starts one step after the one before it, so it leaves no gap and ends further on. */
  lemma NextWindow(text: string, o: ChunkingOptions, i: nat)
    requires ValidOptions(o) && ValidText(text)
    requires 0 < i < WindowCount(|text|, o)
    ensures Window(text, o, i).startChar <= Window(text, o, i - 1).endChar < Window(text, o, i).endChar
  {
    var step := Step(o);
    assert i * step == (i - 1) * step + step;
    WindowShape(text, o, i - 1);
    WindowShape(text, o, i);
  }

  lemma WindowContinues(text: string, o: ChunkingOptions, i: nat)
    requires ValidOptions(o) && ValidText(text)
    requires i < |Windows(text, o)|
    ensures Continues(text, Windows(text, o), i) && ValidChunk(Windows(text, o)[i])
  {
    WindowShape(text, o, i);
    if i > 0 {
      NextWindow(text, o, i);
      assert PreviousEnd(Windows(text, o), i) == Window(text, o, i - 1).endChar;
    }
  }

  /** The closed-form windows always pass the validator. */
  lemma WindowsCover(text: string, o: ChunkingOptions)
    requires ValidOptions(o) && ValidText(text)
    ensures Covers(text, Windows(text, o))
    ensures forall i :: 0 <= i < |Windows(text, o)| ==> ValidChunk(Windows(text, o)[i])
  {
    hide Continues, ValidChunk, Window, WindowCount;
    var all := Windows(text, o);
    forall i | 0 <= i < |all|
      ensures Continues(text, all, i) && ValidChunk(all[i])
    {
      WindowContinues(text, o, i);
    }
    LastWindow(text, o);
  }

  /** There is a last window, and it ends with the text. */
  lemma LastWindow(text: string, o: ChunkingOptions)
    requires ValidOptions(o) && ValidText(text)
    ensures Windows(text, o) != []
    ensures Windows(text, o)[|Windows(text, o)| - 1].endChar == |text|
  {
    WindowCountIsLeast(|text|, o, 1);
    WindowShape(text, o, |Windows(text, o)| - 1);
  }

  /** The splitter refuses exactly the inputs whose real output would break a limit. */
  lemma SplitRefinesValidator(text: string, o: ChunkingOptions, maxChunks: nat, maxOutputChars: nat)
    requires ValidOptions(o) && ValidText(text)
    ensures var r := Split(text, o, maxChunks, maxOutputChars);
      && (r == Success(Windows(text, o)) || r == Failure(LimitExceeded))
      && (r.Success? <==> WithinLimits(Windows(text, o), maxChunks, maxOutputChars))
    ensures Covers(text, Windows(text, o))
  {
    WindowsSize(text, o);
    WindowsCover(text, o);
  }

  /** Ends increase strictly, so no accepted chunk reaches past the text. */
  lemma {:induction false} EndsBounded(text: string, chunks: seq<TextChunk>, i: nat)
    requires Covers(text, chunks) && i <= |chunks|
    ensures PreviousEnd(chunks, i) <= |text|
    decreases |chunks| - i
  {
    if i == |chunks| {
    } else {
      EndsBounded(text, chunks, i + 1);
      assert Continues(text, chunks, i);
    }
  }

  /** The text of chunks[i..] with each chunk's overlap with the previous end dropped. */
  function Rebuild(chunks: seq<TextChunk>, i: nat): string
    requires i <= |chunks|
    decreases |chunks| - i
  {
    if i == |chunks| then ""
    else
      var repeated := PreviousEnd(chunks, i) - chunks[i].startChar;
      Slice(chunks[i].text, if repeated < 0 then 0 else repeated, |chunks[i].text|) + Rebuild(chunks, i + 1)
  }

  lemma {:induction false} RebuildSuffix(text: string, chunks: seq<TextChunk>, i: nat)
    requires Covers(text, chunks) && i <= |chunks|
    ensures PreviousEnd(chunks, i) <= |text|
    ensures Rebuild(chunks, i) == text[PreviousEnd(chunks, i)..]
    decreases |chunks| - i
  {
    EndsBounded(text, chunks, i);
    if i == |chunks| {
    } else {
      RebuildSuffix(text, chunks, i + 1);
      EndsBounded(text, chunks, i + 1);
      assert Continues(text, chunks, i);
      RebuildStep(text, chunks, i);
    }
  }

  lemma RebuildStep(text: string, chunks: seq<TextChunk>, i: nat)
    requires i < |chunks| && Continues(text, chunks, i) && chunks[i].endChar <= |text|
    requires Rebuild(chunks, i + 1) == text[chunks[i].endChar..]
    ensures Rebuild(chunks, i) == text[PreviousEnd(chunks, i)..]
  {
    SliceTail(text, chunks[i].startChar, PreviousEnd(chunks, i), chunks[i].endChar);
  }

  lemma SliceTail(text: string, from: nat, mid: nat, to: nat)
    requires from <= mid <= to <= |text|
    ensures |Slice(text, from, to)| == to - from
    ensures Slice(Slice(text, from, to), mid - from, to - from) + text[to..] == text[mid..]
  {
    assert Slice(Slice(text, from, to), mid - from, to - from) == text[mid..to];
  }

  /** Any accepted chunk list, whatever strategy produced it, rebuilds its document. */
  lemma Reconstruction(text: string, chunks: seq<TextChunk>)
    requires Covers(text, chunks)
    ensures Rebuild(chunks, 0) == text
  {
    RebuildSuffix(text, chunks, 0);
  }

  /** Two documents with the same accepted chunks are the same document. */
  lemma CoverDeterminesText(text: string, other: string, chunks: seq<TextChunk>)
    requires Covers(text, chunks) && Covers(other, chunks)
    ensures text == other
  {
    Reconstruction(text, chunks);
    Reconstruction(other, chunks);
  }

  // ----------------------------------------------------------------- service

  type Chunker = (string, ChunkingOptions, nat, nat) -> Result<seq<TextChunk>, ChunkingError>

  class ChunkingService {
    const chunker: Chunker
    const maxChunks: nat
    const maxOutputChars: nat

    constructor (chunker: Chunker, maxChunks: nat, maxOutputChars: nat)
      requires maxChunks >= 1 && maxOutputChars >= 1
      ensures this.chunker == chunker && this.maxChunks == maxChunks && this.maxOutputChars == maxOutputChars
    {
      this.chunker, this.maxChunks, this.maxOutputChars := chunker, maxChunks, maxOutputChars;
    }

    /** Accepts a strategy's chunks exactly when they respect the limits and cover the text, and names the first thing wrong. */
    method Chunk(text: string, o: ChunkingOptions) returns (r: Result<seq<TextChunk>, ChunkingError>)
      ensures var split := chunker(text, o, maxChunks, maxOutputChars);
        && (split.Failure? ==> r == split)
        && (split.Success? ==>
          && (r == Failure(LimitExceeded) <==> !WithinLimits(split.value, maxChunks, maxOutputChars))
          && (r == Failure(NoChunks) <==> WithinLimits(split.value, maxChunks, maxOutputChars) && split.value == [])
          && (r == Failure(InconsistentSpans) <==>
            WithinLimits(split.value, maxChunks, maxOutputChars) && !AllContinue(text, split.value))
          && (r == Failure(IncompleteCover) <==>
            && WithinLimits(split.value, maxChunks, maxOutputChars) && split.value != []
            && AllContinue(text, split.value) && PreviousEnd(split.value, |split.value|) != |text|)
          && (r.Success? <==> WithinLimits(split.value, maxChunks, maxOutputChars) && Covers(text, split.value))
          && (r.Success? ==> r == split))
    {
      var split := chunker(text, o, maxChunks, maxOutputChars);
      if split.Failure? {
        return split;
      }
      var chunks := split.value;
      if |chunks| > maxChunks || TotalChars(chunks) > maxOutputChars {
        return Failure(LimitExceeded);
      }
      if chunks == [] {
        return Failure(NoChunks);
      }
      var previousEnd := 0;
      for index := 0 to |chunks|
        invariant previousEnd == PreviousEnd(chunks, index)
        invariant forall i :: 0 <= i < index ==> Continues(text, chunks, i)
      {
        var chunk := chunks[index];
        if chunk.index != index
          || (index == 0 && chunk.startChar != 0)
          || chunk.startChar > previousEnd
          || chunk.endChar <= previousEnd
          || chunk.text != Slice(text, chunk.startChar, chunk.endChar)
        {
          assert !Continues(text, chunks, index);
          return Failure(InconsistentSpans);
        }
        previousEnd := chunk.endChar;
      }
      if previousEnd != |text| {
        return Failure(IncompleteCover);
      }
      return Success(chunks);
    }
  }

  /** The shipped strategy behind the service: no inconsistency error is possible. */
  method ChunkWithWindows(text: string, o: ChunkingOptions, maxChunks: nat, maxOutputChars: nat)
    returns (r: Result<seq<TextChunk>, ChunkingError>)
    requires ValidOptions(o) && ValidText(text)
    requires maxChunks >= 1 && maxOutputChars >= 1
    ensures r == Success(Windows(text, o)) || r == Failure(LimitExceeded)
    ensures r.Success? <==> WithinLimits(Windows(text, o), maxChunks, maxOutputChars)
    ensures r.Success? ==> Rebuild(r.value, 0) == text
  {
    var windows: Chunker := (t: string, p: ChunkingOptions, m: nat, n: nat) => if ValidOptions(p) then Split(t, p, m, n) else Failure(LimitExceeded);
    var service := new ChunkingService(windows, maxChunks, maxOutputChars);
    SplitRefinesValidator(text, o, maxChunks, maxOutputChars);
    Reconstruction(text, Windows(text, o));
    r := service.Chunk(text, o);
  }

  /** The re-check that a stored snapshot's chunks still match its text. */
  method ValidateSavedChunks(text: string, chunks: seq<TextChunk>) returns (ok: bool)
    ensures ok <==> Covers(text, chunks)
  {
    if chunks == [] {
      return false;
    }
    var previousEnd := 0;
    for index := 0 to |chunks|
      invariant previousEnd == PreviousEnd(chunks, index)
      invariant forall i :: 0 <= i < index ==> Continues(text, chunks, i)
    {
      var chunk := chunks[index];
      if chunk.index != index
        || (index == 0 && chunk.startChar != 0)
        || chunk.startChar > previousEnd
        || chunk.endChar <= previousEnd
        || chunk.text != Slice(text, chunk.startChar, chunk.endChar)
      {
        assert !Continues(text, chunks, index);
        return false;
      }
      previousEnd := chunk.endChar;
    }
    return previousEnd == |text|;
  }
}
