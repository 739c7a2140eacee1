/** What an emitted chunk carries, where its window ends, and what its ID looks like. */
module ChunkFacts {
  import opened Text
  import opened ChunkKeys
  import opened Splitter
  import opened SplitterFacts

  // ----- IDs

  function DigitValue(c: char): int {
    c as int - '0' as int
  }

  function ValueOf(digits: string): int {
    if digits == "" then 0 else 10 * ValueOf(digits[..|digits| - 1]) + DigitValue(digits[|digits| - 1])
  }

  /** The ordinal in decimal: digits only, no leading zero, and the value read back is the ordinal. */
  lemma {:induction false} DecimalIs(n: nat)
    ensures ValueOf(Decimal(n)) == n
    ensures forall c | c in Decimal(n) :: '0' <= c <= '9'
    ensures n > 0 ==> Decimal(n) != "" && Decimal(n)[0] != '0'
    ensures n == 0 ==> Decimal(n) == "0"
  {
    if n < 10 {
      assert [Digit(n)][..0] == "";
    } else {
      DecimalIs(n / 10);
      var s := Decimal(n);
      assert s[..|s| - 1] == Decimal(n / 10) && s[|s| - 1] == Digit(n % 10);
    }
  }

  // ----- What a chunk carries

  ghost predicate CutFrom(document: Document, runes: string, c: Chunk, a: nat, b: nat) {
    && a < b <= |runes|
    && c == Chunk(document.id + ":" + Decimal(c.ordinal), document.id, document.title, TrimSpace(runes[a..b]),
                  c.ordinal, document.metadata)
  }

  /** Every chunk has ID, title and metadata from its document, and its text from a stretch of the content. */
  lemma ChunkCarries(document: Document, options: ChunkOptions, c: Chunk)
    requires Split(document, options).Chunks? && c in Split(document, options).chunks
    ensures exists a, b :: CutFrom(document, TrimSpace(document.content), c, a, b)
  {
    hide TrimSpace, WalkFrom, Decimal, ChunksOf, InBounds;
    var runes := TrimSpace(document.content);
    WalkInBounds(runes, 0, MaxOf(options), options.overlap);
    CarriedFrom(document, runes, WalkOf(document, options).windows, c);
  }

  lemma CarriedFrom(document: Document, runes: string, windows: seq<Window>, c: Chunk)
    requires InBounds(windows, runes) && c in ChunksOf(document, runes, windows)
    ensures exists a, b :: CutFrom(document, runes, c, a, b)
  {
    hide TrimSpace, Decimal, ChunksOf;
    var chunks := ChunksOf(document, runes, windows);
    ChunksMatchWindows(document, runes, windows);
    var i :| 0 <= i < |chunks| && chunks[i] == c;
    var w := windows[c.ordinal];
    assert CutFrom(document, runes, c, w.start, w.end);
  }

  // ----- Where windows end

  /** White space, or one of the six marks that end a sentence. */
  predicate EndsSentence(c: char) {
    IsSpace(c) || c in ".!?\U{3002}\U{FF01}\U{FF1F}"
  }

  /** A window takes all that is left if that fits; otherwise it ends after the last space or sentence mark from
      a quarter of its hard end on past its start, or at the hard end if there is none. */
  lemma WindowEndIs(runes: string, start: nat, max: nat)
    requires start < |runes| && max > 0
    ensures var end, hard := WindowEnd(runes, start, max), start + max;
            if hard >= |runes| then end == |runes|
            else
              && (forall p | start + hard / 4 <= p < hard && EndsSentence(runes[p]) ::
                    p < end <= hard && start + hard / 4 < end && EndsSentence(runes[end - 1]))
              && ((forall p | start + hard / 4 <= p < hard :: !EndsSentence(runes[p])) ==> end == hard)
  {
    hide IsSpace, LastBoundary;
    var hard := start + max;
    if hard < |runes| {
      assert forall p | 0 <= p < |runes| :: IsBoundary(runes[p]) <==> EndsSentence(runes[p]);
    }
  }

  // ----- What is refused

  /** A document needs an ID and content that are not blank, and an overlap that is not negative and below the
      maximum, 1200 if none is given; the first of these that fails is reported. */
  lemma SplitRefuses(document: Document, options: ChunkOptions)
    ensures var r, max := Split(document, options), if options.maxCharacters <= 0 then 1200 else options.maxCharacters;
            var badOverlap := options.overlap < 0 || options.overlap >= max;
            && (r == Invalid(IdRequired) <==> IsBlank(document.id))
            && (r == Invalid(ContentRequired) <==> !IsBlank(document.id) && IsBlank(document.content))
            && (r == Invalid(OverlapOutOfRange) <==>
                  !IsBlank(document.id) && !IsBlank(document.content) && badOverlap)
            && (r.Invalid? <==> IsBlank(document.id) || IsBlank(document.content) || badOverlap)
  {
    hide TrimSpace, IsBlank, WalkFrom, ChunksOf;
    var left, right := TrimSpaceSplits(document.id);
    left, right := TrimSpaceSplits(document.content);
  }
}
