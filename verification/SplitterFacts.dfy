/** What splitting a document guarantees, and for exactly which overlaps it terminates. */
module SplitterFacts {
  import opened Results
  import opened Text
  import opened ChunkKeys
  import opened Splitter

  // ----- Termination

  /** With an overlap of at most a quarter of the window size, every window advances the start. */
  lemma {:induction false} SmallOverlapFinishes(runes: string, start: nat, max: nat, overlap: nat)
    requires max > 0 && overlap <= max / 4
    ensures WalkFrom(runes, start, max, overlap).Finished?
    decreases |runes| - start
  {
    hide IsBoundary, LastBoundary, WindowEnd;
    if start < |runes| {
      var end := WindowEnd(runes, start, max);
      if end < |runes| {
        SmallOverlapFinishes(runes, end - overlap, max, overlap);
      }
    }
  }

  /** A text of one window and a rune whose only boundary is the one that ends at b. */
  function BoundaryText(max: nat, b: nat): string {
    seq(max + 1, i => if i == b - 1 then '.' else 'a')
  }

  lemma OneBoundary(max: nat, b: nat, overlap: nat)
    requires max / 4 < b <= overlap < max
    ensures WalkFrom(BoundaryText(max, b), 0, max, overlap) == Stopped([Window(0, b)], 0, b - overlap)
  {
    hide LastBoundary;
    var runes := BoundaryText(max, b);
    assert runes[b - 1] == '.';
    assert forall p | b <= p < max :: runes[p] == 'a' && !IsBoundary(runes[p]);
    assert IsLastBoundary(runes, 0, max, b);
    LastBoundaryUnique(runes, 0, max, b, LastBoundary(runes, 0, max, max));
    assert WindowEnd(runes, 0, max) == b;
  }

  /** With a boundary right where the next window begins, that is where the old one began. */
  lemma LargeOverlapStalls(max: nat, overlap: nat)
    requires max / 4 < overlap < max
    ensures WalkFrom(BoundaryText(max, overlap), 0, max, overlap) == Stopped([Window(0, overlap)], 0, 0)
  {
    OneBoundary(max, overlap, overlap);
  }

  /** A walk stopped short of where the next window would begin before the text, an index out of range. */
  ghost predicate StartsBeforeText(walk: Walk) {
    walk.Stopped? && walk.next < 0
  }

  lemma {:induction false} NextStartBound(runes: string, start: nat, max: nat, overlap: nat)
    requires max > 0 && WalkFrom(runes, start, max, overlap).Stopped?
    ensures WalkFrom(runes, start, max, overlap).next > max / 4 - overlap
    decreases |runes| - start
  {
    hide IsBoundary, LastBoundary, WindowEnd;
    var end := WindowEnd(runes, start, max);
    if end - overlap > start {
      NextStartBound(runes, end - overlap, max, overlap);
    }
  }

  /** The next start is not always there to go back to: on some text it lies before the first rune if and only
      if the overlap exceeds a quarter of the maximum by more than one. */
  lemma StartsBeforeTextIff(max: nat, overlap: nat)
    requires overlap < max
    ensures overlap > max / 4 + 1 <==> exists runes :: StartsBeforeText(WalkFrom(runes, 0, max, overlap))
  {
    hide WalkFrom;
    if overlap > max / 4 + 1 {
      OneBoundary(max, max / 4 + 1, overlap);
      assert StartsBeforeText(WalkFrom(BoundaryText(max, max / 4 + 1), 0, max, overlap));
    } else {
      forall runes: string
        ensures !StartsBeforeText(WalkFrom(runes, 0, max, overlap))
      {
        if WalkFrom(runes, 0, max, overlap).Stopped? {
          NextStartBound(runes, 0, max, overlap);
        }
      }
    }
  }

  /** The threshold is exact: splitting finishes on every text if and only if 4 * overlap stays
      within the window size, rounded down as the source rounds it. */
  lemma FinishesIffSmallOverlap(max: nat, overlap: nat)
    requires overlap < max
    ensures overlap <= max / 4 <==> forall runes :: WalkFrom(runes, 0, max, overlap).Finished?
  {
    hide WalkFrom;
    if overlap <= max / 4 {
      forall runes: string
        ensures WalkFrom(runes, 0, max, overlap).Finished?
      {
        SmallOverlapFinishes(runes, 0, max, overlap);
      }
    } else {
      LargeOverlapStalls(max, overlap);
    }
  }

  /** The same for whole documents and options, defaults included: the one on which a larger overlap
      never ends is an ordinary document. */
  lemma SplitFinishesIffSmallOverlap(options: ChunkOptions)
    requires 0 <= options.overlap < MaxOf(options)
    ensures options.overlap <= MaxOf(options) / 4 <==> forall document :: !Split(document, options).Stuck?
  {
    hide WalkFrom, TrimSpace, ChunksOf, InBounds;
    var max, overlap := MaxOf(options), options.overlap;
    if overlap <= max / 4 {
      forall document: Document
        ensures !Split(document, options).Stuck?
      {
        SmallOverlapFinishes(TrimSpace(document.content), 0, max, overlap);
      }
    } else {
      var document := Document("d", "", BoundaryText(max, overlap), None);
      LargeOverlapStalls(max, overlap);
      BoundaryTextTrimmed(max, overlap);
      assert Split(document, options) == Stuck(0, 0);
    }
  }

  lemma NothingToTrim(s: string)
    requires s != "" && !IsSpace(s[0]) && !IsSpace(s[|s| - 1])
    ensures TrimSpace(s) == s
  {
    hide IsSpace;
    assert TrimLeft(s) == s;
    assert TrimRight(s) == s;
  }

  lemma BoundaryTextTrimmed(max: nat, overlap: nat)
    requires overlap < max
    ensures TrimSpace(BoundaryText(max, overlap)) == BoundaryText(max, overlap) != ""
    ensures TrimSpace("d") == "d"
  {
    hide TrimSpace;
    NothingToTrim(BoundaryText(max, overlap));
    NothingToTrim("d");
  }

  // ----- The windows

  ghost predicate Tiles(runes: string, start: nat, max: nat, overlap: nat, windows: seq<Window>) {
    && windows != []
    && windows[0].start == start
    && windows[|windows| - 1].end == |runes|
    && (forall k | 0 <= k < |windows| ::
        windows[k].start < windows[k].end <= |runes| && windows[k].end - windows[k].start <= max)
    && (forall k | 0 < k < |windows| :: FollowsBy(windows[k - 1], windows[k], overlap))
  }

  /** b starts `overlap` runes before a ends, and both its ends lie further on. */
  ghost predicate FollowsBy(a: Window, b: Window, overlap: nat) {
    b.start == a.end - overlap && a.start < b.start && a.end < b.end
  }

  /** The windows run from the start to the end of the text; each has at most `max` runes, shares
      exactly `overlap` with the one before, and goes further. */
  lemma {:induction false} WalkTiles(runes: string, start: nat, max: nat, overlap: nat)
    requires max > 0 && overlap <= max / 4 && start < |runes|
    ensures WalkFrom(runes, start, max, overlap).Finished?
    ensures Tiles(runes, start, max, overlap, WalkFrom(runes, start, max, overlap).windows)
    ensures WalkFrom(runes, start, max, overlap).windows[0].end == WindowEnd(runes, start, max)
    decreases |runes| - start
  {
    hide IsBoundary, LastBoundary, WindowEnd;
    var end := WindowEnd(runes, start, max);
    if end < |runes| {
      var next := end - overlap;
      WalkTiles(runes, next, max, overlap);
      var rest := WalkFrom(runes, next, max, overlap).windows;
      var windows := [Window(start, end)] + rest;
      assert FollowsBy(windows[0], windows[1], overlap);
      forall k | 0 < k < |windows|
        ensures FollowsBy(windows[k - 1], windows[k], overlap)
      {
        if k > 1 {
          assert FollowsBy(rest[k - 2], rest[k - 1], overlap);
        }
      }
    }
  }

  /** The windows put back together, each without the runes it shares with the one before. */
  ghost function Rejoined(runes: string, overlap: nat, windows: seq<Window>): string
    requires InBounds(windows, runes)
    requires forall k | 0 < k < |windows| :: overlap <= windows[k].end - windows[k].start
  {
    if windows == [] then ""
    else
      var n := |windows| - 1;
      var own := runes[windows[n].start..windows[n].end];
      Rejoined(runes, overlap, windows[..n]) + if n == 0 then own else own[overlap..]
  }

  lemma {:induction false} RejoinedPrefix(runes: string, start: nat, max: nat, overlap: nat, windows: seq<Window>,
                                          n: nat)
    requires Tiles(runes, start, max, overlap, windows) && n < |windows|
    ensures InBounds(windows, runes)
    ensures forall k | 0 < k < |windows| :: overlap <= windows[k].end - windows[k].start
    ensures start < windows[n].end
    ensures Rejoined(runes, overlap, windows[..n + 1]) == runes[start..windows[n].end]
  {
    forall k | 0 < k < |windows|
      ensures overlap <= windows[k].end - windows[k].start
    {
      assert FollowsBy(windows[k - 1], windows[k], overlap);
    }
    var w := windows[n];
    assert windows[..n + 1][..n] == windows[..n];
    if n > 0 {
      RejoinedPrefix(runes, start, max, overlap, windows, n - 1);
      assert FollowsBy(windows[n - 1], w, overlap);
      StartsAfter(runes, start, max, overlap, windows, n);
      assert runes[w.start..w.end][overlap..] == runes[windows[n - 1].end..w.end];
      assert runes[start..windows[n - 1].end] + runes[windows[n - 1].end..w.end] == runes[start..w.end];
    }
  }

  lemma {:induction false} StartsAfter(runes: string, start: nat, max: nat, overlap: nat, windows: seq<Window>, n: nat)
    requires Tiles(runes, start, max, overlap, windows) && n < |windows|
    ensures start + n <= windows[n].start
  {
    if n > 0 {
      StartsAfter(runes, start, max, overlap, windows, n - 1);
      assert FollowsBy(windows[n - 1], windows[n], overlap);
    }
  }

  /** Nothing of the trimmed content is lost or invented: the windows reassemble to it. */
  lemma WindowsReassemble(runes: string, max: nat, overlap: nat)
    requires max > 0 && overlap <= max / 4 && runes != ""
    ensures var windows := WalkFrom(runes, 0, max, overlap).windows;
            && InBounds(windows, runes)
            && (forall k | 0 < k < |windows| :: overlap <= windows[k].end - windows[k].start)
            && Rejoined(runes, overlap, windows) == runes
  {
    hide WalkFrom, WindowEnd, Rejoined;
    WalkTiles(runes, 0, max, overlap);
    var windows := WalkFrom(runes, 0, max, overlap).windows;
    RejoinedPrefix(runes, 0, max, overlap, windows, |windows| - 1);
    assert windows[..|windows| - 1 + 1] == windows;
    assert runes[0..|runes|] == runes;
  }

  // ----- The chunks

  /** Each chunk is the trimmed text of the window its ordinal names; ordinals and so chunk IDs are
      strictly increasing along the list, and a window without a chunk is blank. */
  lemma {:induction false} ChunksMatchWindows(document: Document, runes: string, windows: seq<Window>)
    requires InBounds(windows, runes)
    ensures var chunks := ChunksOf(document, runes, windows);
            && (forall i | 0 <= i < |chunks| :: IsChunkOf(document, runes, windows, chunks[i]))
            && (forall i, j | 0 <= i < j < |chunks| :: chunks[i].ordinal < chunks[j].ordinal)
            && (forall k | 0 <= k < |windows| && WindowText(runes, windows[k]) != "" ::
                  MakeChunk(document, WindowText(runes, windows[k]), k) in chunks)
  {
    hide TrimSpace, Key;
    if windows != [] {
      var n := |windows| - 1;
      var front := windows[..n];
      ChunksMatchWindows(document, runes, front);
      var earlier, chunks := ChunksOf(document, runes, front), ChunksOf(document, runes, windows);
      forall i | 0 <= i < |chunks|
        ensures IsChunkOf(document, runes, windows, chunks[i])
      {
        if i < |earlier| {
          assert IsChunkOf(document, runes, front, earlier[i]);
        }
      }
      forall i, j | 0 <= i < j < |chunks|
        ensures chunks[i].ordinal < chunks[j].ordinal
      {
        assert IsChunkOf(document, runes, front, earlier[i]);
      }
    }
  }

  ghost predicate IsChunkOf(document: Document, runes: string, windows: seq<Window>, chunk: Chunk)
    requires InBounds(windows, runes)
  {
    && chunk.ordinal < |windows|
    && chunk.text != ""
    && chunk == MakeChunk(document, WindowText(runes, windows[chunk.ordinal]), chunk.ordinal)
  }

  lemma {:induction false} InSomeWindow(runes: string, start: nat, max: nat, overlap: nat, windows: seq<Window>,
                                        n: nat, p: nat)
    returns (k: nat)
    requires Tiles(runes, start, max, overlap, windows) && n < |windows| && start <= p < windows[n].end
    ensures k <= n && windows[k].start <= p < windows[k].end
  {
    if n == 0 || windows[n].start <= p {
      k := n;
    } else {
      assert FollowsBy(windows[n - 1], windows[n], overlap);
      k := InSomeWindow(runes, start, max, overlap, windows, n - 1, p);
    }
  }

  /** Every rune of the trimmed content that is not white space is in some emitted chunk. */
  lemma NonSpaceIsEmitted(document: Document, runes: string, max: nat, overlap: nat, p: nat) returns (k: nat, q: nat)
    requires max > 0 && overlap <= max / 4 && p < |runes| && !IsSpace(runes[p])
    ensures var windows := WalkFrom(runes, 0, max, overlap).windows;
            && InBounds(windows, runes) && k < |windows|
            && var text := WindowText(runes, windows[k]);
            && MakeChunk(document, text, k) in ChunksOf(document, runes, windows)
            && windows[k].start <= p < windows[k].end && q < |text| && text[q] == runes[p]
  {
    hide WalkFrom, WindowEnd, WindowText, IsSpace, ChunksOf, Key;
    WalkTiles(runes, 0, max, overlap);
    var windows := WalkFrom(runes, 0, max, overlap).windows;
    k := InSomeWindow(runes, 0, max, overlap, windows, |windows| - 1, p);
    WalkInBounds(runes, 0, max, overlap);
    q := WindowKeeps(runes, windows[k], p);
    ChunksMatchWindows(document, runes, windows);
  }

  lemma WindowKeeps(runes: string, w: Window, p: nat) returns (q: nat)
    requires w.start <= p < w.end <= |runes| && !IsSpace(runes[p])
    ensures q < |WindowText(runes, w)| && WindowText(runes, w)[q] == runes[p]
  {
    hide TrimSpace, IsSpace;
    assert runes[w.start..w.end][p - w.start] == runes[p];
    q := TrimKeeps(runes[w.start..w.end], p - w.start);
  }

  lemma TrimKeeps(s: string, i: nat) returns (q: nat)
    requires i < |s| && !IsSpace(s[i])
    ensures q < |TrimSpace(s)| && TrimSpace(s)[q] == s[i]
  {
    hide TrimSpace, IsSpace, IsBlank;
    var left, right := TrimSpaceSplits(s);
    if i < |left| {
      BlankAt(left, i);
    } else if i >= |left| + |TrimSpace(s)| {
      BlankAt(right, i - |left| - |TrimSpace(s)|);
    }
    q := i - |left|;
  }

  lemma BlankAt(s: string, i: nat)
    requires IsBlank(s) && i < |s|
    ensures IsSpace(s[i])
  {
  }

  // ----- Overlap 0, as every caller in the repository uses it

  ghost function NonSpace(s: string): string {
    if s == "" then ""
    else NonSpace(s[..|s| - 1]) + if IsSpace(s[|s| - 1]) then "" else [s[|s| - 1]]
  }

  ghost function AllText(chunks: seq<Chunk>): string {
    if chunks == [] then "" else AllText(chunks[..|chunks| - 1]) + chunks[|chunks| - 1].text
  }

  lemma {:induction false} NonSpaceConcat(a: string, b: string)
    ensures NonSpace(a + b) == NonSpace(a) + NonSpace(b)
    decreases |b|
  {
    hide IsSpace;
    if b == "" {
      assert a + b == a;
    } else {
      NonSpaceConcat(a, b[..|b| - 1]);
      assert (a + b)[..|a + b| - 1] == a + b[..|b| - 1];
    }
  }

  lemma {:induction false} NonSpaceBlank(s: string)
    requires IsBlank(s)
    ensures NonSpace(s) == ""
  {
    if s != "" {
      NonSpaceBlank(s[..|s| - 1]);
    }
  }

  lemma NonSpaceTrim(s: string)
    ensures NonSpace(TrimSpace(s)) == NonSpace(s)
  {
    hide TrimSpace, IsSpace, IsBlank, NonSpace;
    var left, right := TrimSpaceSplits(s);
    NonSpaceBlank(left);
    NonSpaceBlank(right);
    NonSpaceConcat(left, TrimSpace(s));
    NonSpaceConcat(left + TrimSpace(s), right);
  }

  lemma {:induction false} ChunksKeepNonSpace(document: Document, runes: string, windows: seq<Window>)
    requires InBounds(windows, runes)
    ensures NonSpace(AllText(ChunksOf(document, runes, windows))) == NonSpace(Rejoined(runes, 0, windows))
  {
    hide TrimSpace, IsSpace, Key, NonSpace, MakeChunk;
    if windows == [] {
      assert AllText(ChunksOf(document, runes, windows)) == Rejoined(runes, 0, windows) == "";
    } else {
      var n := |windows| - 1;
      var own := runes[windows[n].start..windows[n].end];
      var front := windows[..n];
      ChunksKeepNonSpace(document, runes, front);
      assert own[0..] == own;
      assert Rejoined(runes, 0, windows) == Rejoined(runes, 0, front) + own;
      NonSpaceConcat(Rejoined(runes, 0, front), own);
      NonSpaceTrim(own);
      AllTextStep(document, runes, windows);
      NonSpaceConcat(AllText(ChunksOf(document, runes, front)), WindowText(runes, windows[n]));
    }
  }

  lemma AllTextStep(document: Document, runes: string, windows: seq<Window>)
    requires InBounds(windows, runes) && windows != []
    ensures var n := |windows| - 1;
            AllText(ChunksOf(document, runes, windows))
              == AllText(ChunksOf(document, runes, windows[..n])) + WindowText(runes, windows[n])
  {
    hide TrimSpace, Key, IsSpace;
    var n := |windows| - 1;
    var earlier := ChunksOf(document, runes, windows[..n]);
    var text := WindowText(runes, windows[n]);
    if text == "" {
      assert AllText(earlier) + text == AllText(earlier);
    } else {
      assert (earlier + [MakeChunk(document, text, n)])[..|earlier|] == earlier;
    }
  }

  /** Without overlap, the chunk texts read in order contain exactly the non-space runes of the
      content: none lost, none repeated, none moved. */
  lemma SplitKeepsNonSpace(document: Document, options: ChunkOptions)
    requires options.overlap == 0 && Split(document, options).Chunks?
    ensures NonSpace(AllText(Split(document, options).chunks)) == NonSpace(document.content)
  {
    hide TrimSpace, IsSpace, WalkFrom, ChunksOf, Rejoined, NonSpace, AllText, InBounds;
    var runes := TrimSpace(document.content);
    WindowsReassemble(runes, MaxOf(options), 0);
    ChunksKeepNonSpace(document, runes, WalkOf(document, options).windows);
    NonSpaceTrim(document.content);
  }

  /** A document that is split yields at least one chunk; all carry its ID, and no two share a key. */
  lemma SplitChunkFacts(document: Document, options: ChunkOptions)
    requires Split(document, options).Chunks?
    ensures var chunks := Split(document, options).chunks;
            && chunks != []
            && (forall i | 0 <= i < |chunks| ::
                  && chunks[i].documentId == document.id && chunks[i].id == Key(document.id, chunks[i].ordinal)
                  && chunks[i].text != "" && !IsBlank(chunks[i].text))
            && (forall i, j | 0 <= i < j < |chunks| :: chunks[i].id != chunks[j].id)
  {
    hide TrimSpace, IsSpace, IsBlank, WalkFrom, ChunksOf, Key, WindowEnd;
    var runes := TrimSpace(document.content);
    var windows := WalkOf(document, options).windows;
    WalkInBounds(runes, 0, MaxOf(options), options.overlap);
    ChunksMatchWindows(document, runes, windows);
    var chunks := Split(document, options).chunks;
    FirstWindow(runes, MaxOf(options), options.overlap);
    FirstRune(document.content);
    var q := TrimKeeps(runes[windows[0].start..windows[0].end], 0);
    assert MakeChunk(document, WindowText(runes, windows[0]), 0) in chunks;
    forall i | 0 <= i < |chunks|
      ensures chunks[i].documentId == document.id && chunks[i].id == Key(document.id, chunks[i].ordinal)
      ensures chunks[i].text != "" && !IsBlank(chunks[i].text)
    {
      assert IsChunkOf(document, runes, windows, chunks[i]);
      TrimmedNotBlank(runes[windows[chunks[i].ordinal].start..windows[chunks[i].ordinal].end]);
    }
    forall i, j | 0 <= i < j < |chunks|
      ensures chunks[i].id != chunks[j].id
    {
      if chunks[i].id == chunks[j].id {
        KeyInjective(document.id, chunks[i].ordinal, document.id, chunks[j].ordinal);
      }
    }
  }

  lemma TrimmedNotBlank(s: string)
    ensures TrimSpace(s) != "" ==> !IsBlank(TrimSpace(s))
  {
    hide TrimSpace, IsSpace;
    var left, right := TrimSpaceSplits(s);
  }

  lemma FirstRune(s: string)
    ensures TrimSpace(s) != "" ==> !IsSpace(TrimSpace(s)[0])
  {
    hide TrimSpace, IsSpace;
    var left, right := TrimSpaceSplits(s);
  }

  lemma FirstWindow(runes: string, max: nat, overlap: nat)
    requires max > 0 && runes != ""
    ensures var windows := WalkFrom(runes, 0, max, overlap).windows;
            windows != [] && windows[0] == Window(0, WindowEnd(runes, 0, max))
  {
    hide WindowEnd;
  }
}
