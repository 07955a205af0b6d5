/** Size limits, line ranges and names of the pieces of a chunk. */
module SplitterLimits {
  import opened Text
  import opened ChunkSplitter
  import opened SplitterLaws

  // ----- Size limits, exactly -----

  /** The smallest piece the splitter insists on, or the widest it ever takes, is within the limit. */
  predicate LimitsReachable(cfg: CastConfig) {
    cfg.minChunkSize <= cfg.maxChunkSize || Window(cfg) <= cfg.maxChunkSize
  }

  lemma ShortFits(cfg: CastConfig, text: string)
    requires cfg.safeTokenLimit >= 1 && |text| <= cfg.maxChunkSize && |text| <= Window(cfg)
    ensures Fits(cfg, text)
  {
  }

  lemma CutFits(cfg: CastConfig, remaining: string)
    requires Accepted(cfg) && cfg.safeTokenLimit >= 1 && LimitsReachable(cfg)
    requires remaining != [] && 1 <= Cut(cfg, remaining) <= |remaining|
    ensures Fits(cfg, remaining[..Cut(cfg, remaining)])
  {
    CutProgress(cfg, remaining);
    if PreferredCut(cfg, remaining, SPLIT_CHARS) == 0 {
      var cut := Cut(cfg, remaining);
      var halvings := ForcedCutMeaning(cfg, remaining, Min(Window(cfg), |remaining|));
      assert Prefix(remaining, cut) == remaining[..cut];
      if !Fits(cfg, remaining[..cut]) {
        ShortFits(cfg, remaining[..cut]);
      }
    }
  }

  lemma {:induction false} PiecesFit(cfg: CastConfig, remaining: string)
    requires Accepted(cfg) && cfg.safeTokenLimit >= 1 && LimitsReachable(cfg)
    ensures forall i :: 0 <= i < |Pieces(cfg, remaining)| ==> Fits(cfg, Pieces(cfg, remaining)[i])
    decreases |remaining|
  {
    if remaining != [] && !Fits(cfg, remaining) {
      CutProgress(cfg, remaining);
      CutFits(cfg, remaining);
      PiecesFit(cfg, remaining[Cut(cfg, remaining)..]);
    }
  }

  predicate AllFit(cfg: CastConfig, chunks: seq<Chunk>) {
    forall i :: 0 <= i < |chunks| ==> Fits(cfg, chunks[i].content)
  }

  lemma {:induction false} SplitFits(cfg: CastConfig, chunk: Chunk)
    requires Accepted(cfg) && cfg.safeTokenLimit >= 1 && LimitsReachable(cfg)
    ensures AllFit(cfg, RecursiveSplit(cfg, chunk))
    decreases LineCount(chunk)
  {
    if ByLines(cfg, chunk) {
      HalvesShrink(chunk);
      var h := HalveByLines(chunk, Split(chunk.content, '\n'));
      SplitFits(cfg, h.first);
      SplitFits(cfg, h.second);
    } else if !Fits(cfg, chunk.content) {
      var pieces := Pieces(cfg, chunk.content);
      PiecesFit(cfg, chunk.content);
      forall i | 0 <= i < |pieces|
        ensures PartChunks(chunk, pieces)[i].content == pieces[i]
      {
        PartChunkAt(chunk, pieces, i);
      }
    }
  }

  /** A run of letters offers no split character at all. */
  function Letters(n: nat): (s: string)
    ensures |s| == n && forall i :: 0 <= i < n ==> s[i] == 'a'
  {
    if n == 0 then [] else ['a'] + Letters(n - 1)
  }

  lemma {:induction false} LettersSolid(n: nat)
    ensures NonSpace(Letters(n)) == Letters(n)
  {
    if n > 0 {
      LettersSolid(n - 1);
      assert Letters(n)[1..] == Letters(n - 1);
    }
  }

  lemma {:induction false} LettersNoPreferredCut(cfg: CastConfig, n: nat, chars: seq<char>)
    requires 'a' !in chars
    ensures PreferredCut(cfg, Letters(n), chars) == 0
  {
    if chars != [] {
      assert chars[0] in chars;
      assert forall c :: c in chars[1..] ==> c in chars;
      LettersNoPreferredCut(cfg, n, chars[1..]);
    }
  }

  /** When neither bound is within the limit, some text comes back as one oversized piece. */
  lemma OversizedPiece(cfg: CastConfig) returns (chunk: Chunk)
    requires Accepted(cfg) && cfg.safeTokenLimit >= 1 && !LimitsReachable(cfg)
    ensures !AllFit(cfg, RecursiveSplit(cfg, chunk))
  {
    var n := Min(cfg.minChunkSize, Window(cfg));
    chunk := Chunk("", "", Letters(n), 1, 1, map[], "");
    LettersSolid(n);
    LettersNoPreferredCut(cfg, n, SPLIT_CHARS);
    assert !ByLines(cfg, chunk);
    assert Cut(cfg, chunk.content) == n;
    OversizedWhole(cfg, chunk);
  }

  lemma OversizedWhole(cfg: CastConfig, chunk: Chunk)
    requires Accepted(cfg) && cfg.safeTokenLimit >= 1 && !ByLines(cfg, chunk)
    requires chunk.content != [] && !Fits(cfg, chunk.content) && Cut(cfg, chunk.content) == |chunk.content|
    ensures !AllFit(cfg, RecursiveSplit(cfg, chunk))
  {
    var pieces := Pieces(cfg, chunk.content);
    assert pieces[0] == chunk.content;
    PartChunkAt(chunk, pieces, 0);
    assert !Fits(cfg, RecursiveSplit(cfg, chunk)[0].content);
  }

  /** Every piece of every chunk meets both limits exactly when the minimum size, or else the search
      window, does not exceed the maximum. */
  lemma FitsExactlyWhen(cfg: CastConfig)
    requires Accepted(cfg) && cfg.safeTokenLimit >= 1
    ensures (forall chunk :: AllFit(cfg, RecursiveSplit(cfg, chunk))) <==> LimitsReachable(cfg)
  {
    if LimitsReachable(cfg) {
      forall chunk
        ensures AllFit(cfg, RecursiveSplit(cfg, chunk))
      {
        SplitFits(cfg, chunk);
      }
    } else {
      var chunk := OversizedPiece(cfg);
    }
  }

  // ----- Line ranges -----

  /** Well-formed ranges inside [lo, hi], in order. */
  predicate OrderedWithin(chunks: seq<Chunk>, lo: int, hi: int) {
    && (forall i :: 0 <= i < |chunks| ==> lo <= chunks[i].startLine <= chunks[i].endLine <= hi)
    && (forall i, j :: 0 <= i < j < |chunks| ==> chunks[i].endLine <= chunks[j].startLine)
  }

  lemma FloorAdd(x: nat, y: nat, d: nat)
    requires d > 0
    ensures x / d + y / d <= (x + y) / d
  {
    var r := x % d + y % d;
    assert x + y == d * (x / d + y / d) + r;
    if r >= d {
      assert x + y == d * (x / d + y / d + 1) + (r - d);
      FloorUnique(x + y, d, x / d + y / d + 1, r - d);
    } else {
      FloorUnique(x + y, d, x / d + y / d, r);
    }
  }

  lemma MulAtLeast(d: nat, k: nat)
    requires k >= 1
    ensures d * k >= d
  {
    assert d * k == d * (k - 1) + d;
  }

  lemma FloorUnique(n: nat, d: nat, q: nat, r: nat)
    requires d > 0 && r < d && n == d * q + r
    ensures n / d == q
  {
    var p := n / d;
    assert n == d * p + n % d;
    if p < q {
      assert d * (q - p) == d * q - d * p;
      MulAtLeast(d, q - p);
    } else if p > q {
      assert d * (p - q) == d * p - d * q;
      MulAtLeast(d, p - q);
    }
  }

  lemma FloorMonotone(x: nat, y: nat, d: nat)
    requires d > 0 && x <= y
    ensures x / d <= y / d
  {
    FloorAdd(x, y - x, d);
    assert (y - x) / d >= 0;
  }

  /** The line of the character at offset `pos`, in proportion. */
  function ProportionalLine(original: Chunk, pos: nat): int
    requires |original.content| > 0 && original.startLine <= original.endLine
  {
    Min(original.endLine, original.startLine + pos * (original.endLine - original.startLine + 1) / |original.content|)
  }

  /** A part starts at the proportional line of its first character and ends no later than the
      proportional line of the character after it. */
  lemma PartLines(original: Chunk, content: string, partNum: nat, pos: nat)
    requires original.startLine <= original.endLine && |original.content| > 0
    ensures var part := CreateSplitChunk(original, content, partNum, pos, |original.content|);
            && part.startLine == ProportionalLine(original, pos)
            && original.startLine <= part.startLine <= part.endLine <= original.endLine
            && part.endLine <= ProportionalLine(original, pos + |content|)
  {
    var span, total := original.endLine - original.startLine + 1, |original.content|;
    var offset, share, next := pos * span / total, |content| * span / total, (pos + |content|) * span / total;
    SharesAdd(pos, |content|, span, total);
    RangeInside(original.startLine, original.endLine, offset, share, next);
  }

  /** The shares of lines of two adjacent stretches of characters. */
  lemma SharesAdd(pos: nat, length: nat, span: nat, total: nat)
    requires total > 0
    ensures pos * span >= 0 && length * span >= 0
    ensures Truncate(pos * span, total) == pos * span / total >= 0
    ensures Truncate(length * span, total) == length * span / total >= 0
    ensures pos * span / total + length * span / total <= (pos + length) * span / total
  {
    var x, y := pos * span, length * span;
    assert x >= 0 && y >= 0;
    assert (pos + length) * span == x + y;
    FloorAdd(x, y, total);
    QuotientNotNegative(x, total);
    QuotientNotNegative(y, total);
  }

  lemma QuotientNotNegative(x: nat, d: nat)
    requires d > 0
    ensures x / d >= 0
  {
  }

  /** Clamping a range that starts at an offset and spans a share keeps it inside and before the next offset. */
  lemma RangeInside(lo: int, hi: int, offset: nat, share: nat, next: nat)
    requires lo <= hi && offset + share <= next
    ensures var start := Min(lo + offset, hi);
            var end := Max(Min(hi, lo + offset + Max(1, share) - 1), start);
            lo <= start <= end <= hi && end <= Min(hi, lo + next)
  {
  }

  lemma ProportionalMonotone(original: Chunk, a: nat, b: nat)
    requires |original.content| > 0 && original.startLine <= original.endLine && a <= b
    ensures ProportionalLine(original, a) <= ProportionalLine(original, b)
  {
    var span := original.endLine - original.startLine + 1;
    assert a * span <= b * span && a * span >= 0;
    FloorMonotone(a * span, b * span, |original.content|);
  }

  lemma {:induction false} OffsetsOrdered(pieces: seq<string>, i: nat, j: nat)
    requires i < j <= |pieces|
    ensures |Concat(pieces[..i])| + |pieces[i]| <= |Concat(pieces[..j])|
  {
    assert pieces[..j] == pieces[..i] + pieces[i..j];
    ConcatAppend(pieces[..i], pieces[i..j]);
    assert Concat(pieces[i..j]) == pieces[i] + Concat(pieces[i..j][1..]);
  }

  lemma PartLinesAt(original: Chunk, pieces: seq<string>, i: nat)
    requires original.startLine <= original.endLine && |original.content| > 0 && i < |pieces|
    ensures var part := PartChunks(original, pieces)[i];
            var pos := |Concat(pieces[..i])|;
            && part.startLine == ProportionalLine(original, pos)
            && original.startLine <= part.startLine <= part.endLine <= original.endLine
            && part.endLine <= ProportionalLine(original, pos + |pieces[i]|)
  {
    PartChunkAt(original, pieces, i);
    PartLines(original, pieces[i], i + 1, |Concat(pieces[..i])|);
  }

  lemma PartChunksOrdered(original: Chunk, pieces: seq<string>)
    requires original.startLine <= original.endLine && |original.content| > 0
    ensures OrderedWithin(PartChunks(original, pieces), original.startLine, original.endLine)
  {
    var chunks := PartChunks(original, pieces);
    forall i | 0 <= i < |chunks|
      ensures original.startLine <= chunks[i].startLine <= chunks[i].endLine <= original.endLine
    {
      PartLinesAt(original, pieces, i);
    }
    forall i, j | 0 <= i < j < |chunks|
      ensures chunks[i].endLine <= chunks[j].startLine
    {
      PartLinesAt(original, pieces, i);
      PartLinesAt(original, pieces, j);
      OffsetsOrdered(pieces, i, j);
      ProportionalMonotone(original, |Concat(pieces[..i])| + |pieces[i]|, |Concat(pieces[..j])|);
    }
  }

  /** A line split that does not fall back tiles the range exactly. */
  lemma HalvesTile(chunk: Chunk, lines: seq<string>)
    requires |lines| >= 2 && HalveByLines(chunk, lines).Halves? && chunk.startLine <= chunk.endLine
    ensures var h := HalveByLines(chunk, lines);
            && h.first.startLine == chunk.startLine <= h.first.endLine
            && h.second.startLine == h.first.endLine + 1
            && h.second.startLine <= h.second.endLine == chunk.endLine
  {
  }

  /** Every piece has a well-formed line range inside the chunk's, and consecutive pieces are in order. */
  lemma {:induction false} SplitLinesOrdered(cfg: CastConfig, chunk: Chunk)
    requires Accepted(cfg) && cfg.safeTokenLimit >= 1 && chunk.startLine <= chunk.endLine
    ensures OrderedWithin(RecursiveSplit(cfg, chunk), chunk.startLine, chunk.endLine)
    decreases LineCount(chunk)
  {
    if ByLines(cfg, chunk) {
      HalvesShrink(chunk);
      var lines := Split(chunk.content, '\n');
      var h := HalveByLines(chunk, lines);
      HalvesTile(chunk, lines);
      SplitLinesOrdered(cfg, h.first);
      SplitLinesOrdered(cfg, h.second);
    } else if !Fits(cfg, chunk.content) {
      if chunk.content != [] {
        PartChunksOrdered(chunk, Pieces(cfg, chunk.content));
      }
    }
  }

  /** No character splitting happens anywhere below this chunk. */
  predicate LinesOnly(cfg: CastConfig, chunk: Chunk)
    decreases LineCount(chunk)
  {
    if Fits(cfg, chunk.content) then true
    else if ByLines(cfg, chunk) then
      HalvesShrink(chunk);
      var h := HalveByLines(chunk, Split(chunk.content, '\n'));
      LinesOnly(cfg, h.first) && LinesOnly(cfg, h.second)
    else false
  }

  /** The ranges cover [lo, hi] with no gap and no overlap. */
  predicate Tiles(chunks: seq<Chunk>, lo: int, hi: int) {
    && |chunks| > 0 && chunks[0].startLine == lo && chunks[|chunks| - 1].endLine == hi
    && forall i :: 0 < i < |chunks| ==> chunks[i].startLine == chunks[i - 1].endLine + 1
  }

  lemma {:induction false} LineSplitTiles(cfg: CastConfig, chunk: Chunk)
    requires Accepted(cfg) && cfg.safeTokenLimit >= 1 && chunk.startLine <= chunk.endLine && LinesOnly(cfg, chunk)
    ensures Tiles(RecursiveSplit(cfg, chunk), chunk.startLine, chunk.endLine)
    decreases LineCount(chunk)
  {
    if !Fits(cfg, chunk.content) {
      HalvesShrink(chunk);
      var lines := Split(chunk.content, '\n');
      var h := HalveByLines(chunk, lines);
      HalvesTile(chunk, lines);
      LineSplitTiles(cfg, h.first);
      LineSplitTiles(cfg, h.second);
      TilesAppend(RecursiveSplit(cfg, h.first), RecursiveSplit(cfg, h.second),
                  chunk.startLine, h.first.endLine, chunk.endLine);
    }
  }

  lemma TilesAppend(a: seq<Chunk>, b: seq<Chunk>, lo: int, mid: int, hi: int)
    requires Tiles(a, lo, mid) && Tiles(b, mid + 1, hi)
    ensures Tiles(a + b, lo, hi)
  {
  }

  // ----- Names and attributes -----

  predicate NamesDistinct(chunks: seq<Chunk>) {
    forall i, j :: 0 <= i < j < |chunks| ==> chunks[i].name != chunks[j].name
  }

  predicate SameKind(original: Chunk, piece: Chunk) {
    piece.concept == original.concept && piece.metadata == original.metadata && piece.nodeType == original.nodeType
  }

  predicate Descends(original: Chunk, chunks: seq<Chunk>) {
    forall i :: 0 <= i < |chunks| ==> original.name <= chunks[i].name && SameKind(original, chunks[i])
  }

  lemma PartNamesDistinct(original: Chunk, pieces: seq<string>)
    ensures NamesDistinct(PartChunks(original, pieces)) && Descends(original, PartChunks(original, pieces))
  {
    var chunks := PartChunks(original, pieces);
    forall i | 0 <= i < |chunks|
      ensures original.name <= chunks[i].name && SameKind(original, chunks[i])
    {
      PartChunkAt(original, pieces, i);
    }
    forall i, j | 0 <= i < j < |chunks|
      ensures chunks[i].name != chunks[j].name
    {
      PartChunkAt(original, pieces, i);
      PartChunkAt(original, pieces, j);
      var stem := original.name + "_part";
      if chunks[i].name == chunks[j].name {
        assert (stem + Decimal(i + 1))[|stem|..] == Decimal(i + 1);
        assert (stem + Decimal(j + 1))[|stem|..] == Decimal(j + 1);
        DecimalInjective(i + 1, j + 1);
      }
    }
  }

  /** The names of all pieces of one chunk, across nested line splits and character splits, are pairwise
      distinct and extend the chunk's name; concept, metadata and node type are carried over. */
  lemma {:induction false} SplitNamesDistinct(cfg: CastConfig, chunk: Chunk)
    requires Accepted(cfg) && cfg.safeTokenLimit >= 1
    ensures NamesDistinct(RecursiveSplit(cfg, chunk)) && Descends(chunk, RecursiveSplit(cfg, chunk))
    decreases LineCount(chunk)
  {
    if ByLines(cfg, chunk) {
      HalvesShrink(chunk);
      var h := HalveByLines(chunk, Split(chunk.content, '\n'));
      SplitNamesDistinct(cfg, h.first);
      SplitNamesDistinct(cfg, h.second);
      HalfNamesDistinct(chunk, h.first, RecursiveSplit(cfg, h.first), h.second, RecursiveSplit(cfg, h.second));
    } else if !Fits(cfg, chunk.content) {
      PartNamesDistinct(chunk, Pieces(cfg, chunk.content));
    }
  }

  lemma HalfNamesDistinct(chunk: Chunk, first: Chunk, p: seq<Chunk>, second: Chunk, q: seq<Chunk>)
    requires first.name == chunk.name + "_part1" && second.name == chunk.name + "_part2"
    requires SameKind(chunk, first) && SameKind(chunk, second)
    requires NamesDistinct(p) && Descends(first, p) && NamesDistinct(q) && Descends(second, q)
    ensures NamesDistinct(p + q) && Descends(chunk, p + q)
  {
    var k := |chunk.name| + 5;
    forall i | 0 <= i < |p|
      ensures |p[i].name| > k && p[i].name[k] == '1' && chunk.name <= p[i].name
    {
      assert first.name <= p[i].name && first.name[k] == '1';
      assert p[i].name[..|first.name|] == first.name;
    }
    forall j | 0 <= j < |q|
      ensures |q[j].name| > k && q[j].name[k] == '2' && chunk.name <= q[j].name
    {
      assert second.name <= q[j].name && second.name[k] == '2';
      assert q[j].name[..|second.name|] == second.name;
    }
    forall i, j | 0 <= i < j < |p + q|
      ensures (p + q)[i].name != (p + q)[j].name
    {
      if i < |p| <= j {
        assert (p + q)[i] == p[i] && (p + q)[j] == q[j - |p|];
      } else if j < |p| {
        assert (p + q)[i] == p[i] && (p + q)[j] == p[j];
      } else {
        assert (p + q)[i] == q[i - |p|] && (p + q)[j] == q[j - |p|];
      }
    }
  }
}
