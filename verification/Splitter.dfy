/** Model of SplitDocument and findBoundary (internal/knowledge/knowledge.go). */
module Splitter {
  import opened Results
  import opened Text
  import opened ChunkKeys

  /** None is a nil map, which matches no filter; an empty map matches a filter on an empty value. */
  type Metadata = Option<map<string, string>>

  datatype Document = Document(id: string, title: string, content: string, metadata: Metadata)

  datatype Chunk = Chunk(id: string, documentId: string, title: string, text: string, ordinal: nat, metadata: Metadata)

  datatype ChunkOptions = ChunkOptions(maxCharacters: int, overlap: int)

  datatype SplitError = IdRequired | ContentRequired | OverlapOutOfRange

  /** Stuck: the loop reached a window after which `start` would not advance. */
  datatype SplitResult = Chunks(chunks: seq<Chunk>) | Invalid(error: SplitError) | Stuck(start: nat, next: int)

  const DEFAULT_MAX := 1200

  predicate IsBoundary(c: char) {
    IsSpace(c) || c in {'\U{3002}', '\U{FF01}', '\U{FF1F}', '.', '!', '?'}
  }

  // ----- One window

  /** b ends the last boundary character in text[start + end/4 .. end], or is end if there is none. */
  ghost predicate IsLastBoundary(text: string, start: nat, end: nat, b: nat)
    requires end <= |text|
  {
    && b <= end
    && (forall p | b <= p < end && start + end / 4 <= p :: !IsBoundary(text[p]))
    && (|| (start + end / 4 < b && IsBoundary(text[b - 1]))
        || (b == end && forall p | start + end / 4 <= p < end :: !IsBoundary(text[p])))
  }

  function LastBoundary(text: string, start: nat, end: nat, i: nat): (b: nat)
    requires i <= end <= |text|
    requires forall p | i <= p < end && start + end / 4 <= p :: !IsBoundary(text[p])
    ensures IsLastBoundary(text, start, end, b)
  {
    if i <= start + end / 4 then end
    else if IsBoundary(text[i - 1]) then i
    else LastBoundary(text, start, end, i - 1)
  }

  method FindBoundary(text: string, start: nat, end: nat) returns (b: nat)
    requires end <= |text|
    ensures b == LastBoundary(text, start, end, end)
  {
    var i := end;
    while i > start + end / 4
      invariant 0 <= i <= end
      invariant forall p | i <= p < end && start + end / 4 <= p :: !IsBoundary(text[p])
      invariant LastBoundary(text, start, end, i) == LastBoundary(text, start, end, end)
    {
      if IsBoundary(text[i - 1]) {
        return i;
      }
      i := i - 1;
    }
    return end;
  }

  lemma LastBoundaryUnique(text: string, start: nat, end: nat, a: nat, b: nat)
    requires end <= |text| && IsLastBoundary(text, start, end, a) && IsLastBoundary(text, start, end, b)
    ensures a == b
  {
  }

  /** Where the window that starts at `start` ends. */
  function WindowEnd(runes: string, start: nat, max: nat): (end: nat)
    requires start < |runes| && max > 0
    ensures start < end <= |runes| && end - start <= max
    ensures end < |runes| ==> end - start > max / 4
  {
    var end := if start + max > |runes| then |runes| else start + max;
    if end < |runes| then
      var boundary := LastBoundary(runes, start, end, end);
      if boundary > start then boundary else end
    else end
  }

  method CutWindow(runes: string, start: nat, max: nat) returns (end: nat)
    requires start < |runes| && max > 0
    ensures end == WindowEnd(runes, start, max)
  {
    end := start + max;
    if end > |runes| {
      end := |runes|;
    }
    if end < |runes| {
      var boundary := FindBoundary(runes, start, end);
      if boundary > start {
        end := boundary;
      }
    }
  }

  // ----- All windows

  datatype Window = Window(start: nat, end: nat)

  datatype Walk = Finished(windows: seq<Window>) | Stopped(windows: seq<Window>, start: nat, next: int)

  /** The windows from `start` on, as far as each next start lies further on. */
  function WalkFrom(runes: string, start: nat, max: nat, overlap: nat): Walk
    requires max > 0
    decreases |runes| - start
  {
    if start >= |runes| then Finished([])
    else
      var end := WindowEnd(runes, start, max);
      if end == |runes| then Finished([Window(start, end)])
      else if end - overlap <= start then Stopped([Window(start, end)], start, end - overlap)
      else
        match WalkFrom(runes, end - overlap, max, overlap)
        case Finished(rest) => Finished([Window(start, end)] + rest)
        case Stopped(rest, s, next) => Stopped([Window(start, end)] + rest, s, next)
  }

  function WindowText(runes: string, w: Window): string
    requires w.start <= w.end <= |runes|
  {
    TrimSpace(runes[w.start..w.end])
  }

  ghost predicate InBounds(windows: seq<Window>, runes: string) {
    forall k | 0 <= k < |windows| :: windows[k].start < windows[k].end <= |runes|
  }

  function MakeChunk(document: Document, text: string, ordinal: nat): Chunk {
    Chunk(Key(document.id, ordinal), document.id, document.title, text, ordinal, document.metadata)
  }

  /** One chunk for each window that is not blank; the ordinal counts the blank ones too. */
  ghost function ChunksOf(document: Document, runes: string, windows: seq<Window>): seq<Chunk>
    requires InBounds(windows, runes)
  {
    if windows == [] then []
    else
      var n := |windows| - 1;
      var text := WindowText(runes, windows[n]);
      var earlier := ChunksOf(document, runes, windows[..n]);
      if text == "" then earlier else earlier + [MakeChunk(document, text, n)]
  }

  lemma {:induction false} WalkInBounds(runes: string, start: nat, max: nat, overlap: nat)
    requires max > 0
    ensures InBounds(WalkFrom(runes, start, max, overlap).windows, runes)
    decreases |runes| - start
  {
    if start < |runes| {
      var end := WindowEnd(runes, start, max);
      if end < |runes| && end - overlap > start {
        WalkInBounds(runes, end - overlap, max, overlap);
      }
    }
  }

  function MaxOf(options: ChunkOptions): nat {
    if options.maxCharacters <= 0 then DEFAULT_MAX else options.maxCharacters
  }

  ghost function Problem(document: Document, options: ChunkOptions): Option<SplitError> {
    if TrimSpace(document.id) == "" then Some(IdRequired)
    else if TrimSpace(document.content) == "" then Some(ContentRequired)
    else if options.overlap < 0 || options.overlap >= MaxOf(options) then Some(OverlapOutOfRange)
    else None
  }

  ghost function WalkOf(document: Document, options: ChunkOptions): Walk
    requires Problem(document, options).None?
  {
    WalkFrom(TrimSpace(document.content), 0, MaxOf(options), options.overlap)
  }

  ghost function Emitted(document: Document, runes: string, walk: Walk): SplitResult
    requires InBounds(walk.windows, runes)
  {
    match walk
    case Finished(windows) => Chunks(ChunksOf(document, runes, windows))
    case Stopped(_, start, next) => Stuck(start, next)
  }

  ghost function Split(document: Document, options: ChunkOptions): SplitResult {
    match Problem(document, options)
    case Some(error) => Invalid(error)
    case None =>
      WalkInBounds(TrimSpace(document.content), 0, MaxOf(options), options.overlap);
      Emitted(document, TrimSpace(document.content), WalkOf(document, options))
  }

  method SplitDocument(document: Document, options: ChunkOptions) returns (r: SplitResult)
    ensures r == Split(document, options)
  {
    hide TrimSpace, WalkFrom, Emitted;
    if TrimSpace(document.id) == "" {
      return Invalid(IdRequired);
    }
    if TrimSpace(document.content) == "" {
      return Invalid(ContentRequired);
    }
    var max := options.maxCharacters;
    if max <= 0 {
      max := DEFAULT_MAX;
    }
    var overlap := options.overlap;
    if overlap < 0 || overlap >= max {
      return Invalid(OverlapOutOfRange);
    }
    r := SplitRunes(document, TrimSpace(document.content), max, overlap);
  }

  /** The window loop. It leaves off as soon as `start` would not advance; the source has no such test. */
  method SplitRunes(document: Document, runes: string, max: nat, overlap: nat) returns (r: SplitResult)
    requires runes != "" && max > 0
    ensures InBounds(WalkFrom(runes, 0, max, overlap).windows, runes)
    ensures r == Emitted(document, runes, WalkFrom(runes, 0, max, overlap))
  {
    hide TrimSpace, WindowEnd, MakeChunk, ChunksOf, InBounds;
    var chunks: seq<Chunk> := [];
    var start, ordinal := 0, 0;
    ghost var windows: seq<Window> := [];
    WalkInBounds(runes, 0, max, overlap);
    NoWindows(document, runes);
    while start < |runes|
      invariant 0 <= start < |runes|
      invariant ordinal == |windows|
      invariant InBounds(windows, runes)
      invariant chunks == ChunksOf(document, runes, windows)
      invariant WalkFrom(runes, 0, max, overlap) == Prefixed(windows, WalkFrom(runes, start, max, overlap))
      decreases |runes| - start
    {
      var end := CutWindow(runes, start, max);
      var text := TrimSpace(runes[start..end]);
      if text != "" {
        chunks := chunks + [MakeChunk(document, text, ordinal)];
      }
      MoreChunks(document, runes, windows, Window(start, end));
      if end == |runes| {
        return Chunks(chunks);
      }
      if end - overlap <= start {
        return Stuck(start, end - overlap);
      }
      PrefixedMore(windows, Window(start, end), WalkFrom(runes, end - overlap, max, overlap));
      windows := windows + [Window(start, end)];
      start := end - overlap;
      ordinal := ordinal + 1;
    }
  }

  lemma NoWindows(document: Document, runes: string)
    ensures InBounds([], runes) && ChunksOf(document, runes, []) == []
  {
  }

  lemma MoreChunks(document: Document, runes: string, windows: seq<Window>, w: Window)
    requires InBounds(windows, runes) && w.start < w.end <= |runes|
    ensures InBounds(windows + [w], runes)
    ensures var text := WindowText(runes, w);
            ChunksOf(document, runes, windows + [w]) ==
              if text == "" then ChunksOf(document, runes, windows)
              else ChunksOf(document, runes, windows) + [MakeChunk(document, text, |windows|)]
  {
    hide TrimSpace, MakeChunk;
    assert (windows + [w])[..|windows|] == windows;
  }

  ghost function Prefixed(windows: seq<Window>, walk: Walk): Walk {
    match walk
    case Finished(rest) => Finished(windows + rest)
    case Stopped(rest, start, next) => Stopped(windows + rest, start, next)
  }

  lemma PrefixedMore(windows: seq<Window>, w: Window, walk: Walk)
    ensures Prefixed(windows, Prefixed([w], walk)) == Prefixed(windows + [w], walk)
  {
    assert windows + ([w] + walk.windows) == (windows + [w]) + walk.windows;
  }
}
