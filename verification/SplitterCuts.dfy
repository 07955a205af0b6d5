/** Where a split divides a chunk: a specification of the result by conditions on the text alone, which every
    split meets. */
module SplitterCuts {
  import opened Text
  import opened ChunkSplitter
  import opened SplitterLaws
  import opened SplitterLimits

  // ----- Sizes -----

  /** A text may stay whole: its characters other than white space are within the limit, and so are its tokens, at
      three characters a token. */
  predicate Within(cfg: CastConfig, text: string) {
    |NonSpace(text)| <= cfg.maxChunkSize && |text| < 3 * (cfg.safeTokenLimit + 1)
  }

  lemma FitsMeaning(cfg: CastConfig, text: string)
    ensures cfg.safeTokenLimit >= 1 ==> (Fits(cfg, text) <==> Within(cfg, text))
    ensures cfg.safeTokenLimit <= 0 ==> (Fits(cfg, text) <==> text == [] && cfg.maxChunkSize >= 0 == cfg.safeTokenLimit)
  {
  }

  /** Removing white space keeps every other character as often as it was, in order. */
  lemma {:induction false} NonSpaceMeaning(text: string, c: char)
    ensures multiset(NonSpace(text))[c] == if IsSpace(c) then 0 else multiset(text)[c]
    ensures (forall i :: 0 <= i < |text| ==> !IsSpace(text[i])) ==> NonSpace(text) == text
  {
    if text != [] {
      NonSpaceMeaning(text[1..], c);
      assert text == [text[0]] + text[1..];
    }
  }

  // ----- Character cuts -----

  /** `cut` is the window or the text, whichever is shorter, halved the least number of times after which the piece is
      within the limits or not above the minimum size. */
  ghost predicate CutByHalving(cfg: CastConfig, rest: string, cut: int) {
    exists k: nat :: HalvedTimes(cfg, rest, cut, k)
  }

  ghost predicate HalvedTimes(cfg: CastConfig, rest: string, cut: int, k: nat) {
    var widest := if 3 * cfg.safeTokenLimit < |rest| then 3 * cfg.safeTokenLimit else |rest|;
    && cut == Halved(widest, k)
    && Settled(cfg, rest, cut)
    && forall j :: 0 <= j < k ==> !Settled(cfg, rest, Halved(widest, j))
  }

  predicate Settled(cfg: CastConfig, rest: string, cut: int) {
    cut <= cfg.minChunkSize || (0 <= cut <= |rest| && Within(cfg, rest[..cut]))
  }

  /** Cutting after `cut` characters keeps the last `c` of the window and a piece within the limits; a character at
      the very start does not count. */
  predicate CutsBehind(cfg: CastConfig, rest: string, c: char, cut: int) {
    && 2 <= cut <= |rest| && cut <= 3 * cfg.safeTokenLimit
    && rest[cut - 1] == c
    && Within(cfg, rest[..cut])
    && forall i :: cut <= i < |rest| && i < 3 * cfg.safeTokenLimit ==> rest[i] != c
  }

  /** Some of the first `n` preferred characters allows a cut. */
  ghost predicate AllowsCut(cfg: CastConfig, rest: string, n: nat)
    requires n <= 6
  {
    exists k, cut :: 0 <= k < n && CutsBehind(cfg, rest, "\n;}{, "[k], cut)
  }

  /** The piece taken off `rest` is all of it if that is within the limits; else it ends behind the most preferred
      character that allows a cut; else it is found by halving. */
  ghost predicate PieceOf(cfg: CastConfig, rest: string, piece: string) {
    && piece <= rest
    && if Within(cfg, rest) then piece == rest
       else if AllowsCut(cfg, rest, 6) then
         exists k :: 0 <= k < 6 && CutsBehind(cfg, rest, "\n;}{, "[k], |piece|) && !AllowsCut(cfg, rest, k)
       else CutByHalving(cfg, rest, |piece|)
  }

  lemma CutsBehindMeans(cfg: CastConfig, rest: string, c: char, cut: int)
    requires cfg.safeTokenLimit >= 1
    ensures CutsAfter(cfg, rest, c, cut) <==> CutsBehind(cfg, rest, c, cut)
  {
    assert WindowEnd(cfg, rest) == if 3 * cfg.safeTokenLimit < |rest| then 3 * cfg.safeTokenLimit else |rest|;
    if 2 <= cut <= |rest| {
      FitsMeaning(cfg, rest[..cut]);
    }
  }

  lemma SplitCharsAre()
    ensures |SPLIT_CHARS| == 6 && forall k :: 0 <= k < 6 ==> SPLIT_CHARS[k] == "\n;}{, "[k]
  {
    assert SPLIT_CHARS == "\n;}{, ";
  }

  /** Every cut is the one that the conditions on the text demand. */
  lemma CutMeaning(cfg: CastConfig, rest: string)
    requires Accepted(cfg) && cfg.safeTokenLimit >= 1 && rest != [] && !Fits(cfg, rest)
    ensures 1 <= Cut(cfg, rest) <= |rest| && PieceOf(cfg, rest, rest[..Cut(cfg, rest)])
  {
    CutProgress(cfg, rest);
    FitsMeaning(cfg, rest);
    SplitCharsAre();
    PreferredCutMeaning(cfg, rest, SPLIT_CHARS);
    var cut := PreferredCut(cfg, rest, SPLIT_CHARS);
    forall c, other
      ensures CutsAfter(cfg, rest, c, other) <==> CutsBehind(cfg, rest, c, other)
    {
      CutsBehindMeans(cfg, rest, c, other);
    }
    if cut != 0 {
      var k :| 0 <= k < |SPLIT_CHARS| && CutsAfter(cfg, rest, SPLIT_CHARS[k], cut)
               && forall j, other :: 0 <= j < k ==> !CutsAfter(cfg, rest, SPLIT_CHARS[j], other);
      assert CutsBehind(cfg, rest, "\n;}{, "[k], |rest[..cut]|);
      assert !AllowsCut(cfg, rest, k);
      assert AllowsCut(cfg, rest, 6);
    } else {
      assert !AllowsCut(cfg, rest, 6);
      WidestCut(cfg, rest);
      ForcedCutHalves(cfg, rest, Min(Window(cfg), |rest|));
    }
  }

  lemma SettledMeans(cfg: CastConfig, rest: string, widest: nat, j: nat)
    requires cfg.safeTokenLimit >= 1 && widest <= |rest|
    ensures Settled(cfg, rest, Halved(widest, j))
            <==> Fits(cfg, Prefix(rest, Halved(widest, j))) || Halved(widest, j) <= cfg.minChunkSize
  {
    HalvedWithin(widest, j);
    var cut: nat := Halved(widest, j);
    assert Prefix(rest, cut) == rest[..cut];
    FitsMeaning(cfg, rest[..cut]);
  }

  lemma SettledFirst(cfg: CastConfig, rest: string, widest: nat, k: nat)
    requires cfg.safeTokenLimit >= 1 && widest <= |rest|
    requires Fits(cfg, Prefix(rest, Halved(widest, k))) || Halved(widest, k) <= cfg.minChunkSize
    requires forall j :: 0 <= j < k ==>
               !Fits(cfg, Prefix(rest, Halved(widest, j))) && Halved(widest, j) > cfg.minChunkSize
    ensures Settled(cfg, rest, Halved(widest, k)) && forall j :: 0 <= j < k ==> !Settled(cfg, rest, Halved(widest, j))
  {
    SettledMeans(cfg, rest, widest, k);
    forall j | 0 <= j < k
      ensures !Settled(cfg, rest, Halved(widest, j))
    {
      SettledMeans(cfg, rest, widest, j);
    }
  }

  lemma WidestCut(cfg: CastConfig, rest: string)
    requires cfg.safeTokenLimit >= 1
    ensures 0 <= Min(Window(cfg), |rest|) <= |rest|
    ensures Min(Window(cfg), |rest|) == if 3 * cfg.safeTokenLimit < |rest| then 3 * cfg.safeTokenLimit else |rest|
  {
  }

  lemma ForcedCutHalves(cfg: CastConfig, rest: string, widest: nat)
    requires Accepted(cfg) && cfg.safeTokenLimit >= 1 && widest <= |rest|
    requires widest == if 3 * cfg.safeTokenLimit < |rest| then 3 * cfg.safeTokenLimit else |rest|
    ensures CutByHalving(cfg, rest, ForcedCut(cfg, rest, widest))
  {
    var k := ForcedCutMeaning(cfg, rest, widest);
    SettledFirst(cfg, rest, widest, k);
    assert HalvedTimes(cfg, rest, ForcedCut(cfg, rest, widest), k);
  }

  lemma {:induction false} HalvedWithin(cut: nat, k: nat)
    ensures 0 <= Halved(cut, k) <= cut
    decreases k
  {
    if k > 0 {
      HalvedWithin(cut / 2, k - 1);
    }
  }

  /** Each piece is the one that the text from its start on demands. */
  ghost predicate WellCut(cfg: CastConfig, text: string, pieces: seq<string>) {
    && Concat(pieces) == text
    && forall i :: 0 <= i < |pieces| ==> pieces[i] != [] && PieceOf(cfg, Concat(pieces[i..]), pieces[i])
  }

  lemma {:induction false} PiecesWellCut(cfg: CastConfig, remaining: string)
    requires Accepted(cfg) && cfg.safeTokenLimit >= 1
    ensures WellCut(cfg, remaining, Pieces(cfg, remaining))
    decreases |remaining|
  {
    PiecesConcat(cfg, remaining);
    var pieces := Pieces(cfg, remaining);
    assert pieces[0..] == pieces;
    if remaining == [] {
    } else if Fits(cfg, remaining) {
      FitsMeaning(cfg, remaining);
    } else {
      CutMeaning(cfg, remaining);
      var cut := Cut(cfg, remaining);
      PiecesWellCut(cfg, remaining[cut..]);
      var later := Pieces(cfg, remaining[cut..]);
      forall i | 0 < i < |pieces|
        ensures pieces[i] != [] && PieceOf(cfg, Concat(pieces[i..]), pieces[i])
      {
        assert pieces[i] == later[i - 1] && pieces[i..] == later[i - 1..];
      }
    }
  }

  // ----- Parts and their lines -----

  /** `q` is `a / b`, rounded down. */
  predicate Quotient(q: int, a: int, b: int) {
    q * b <= a < (q + 1) * b
  }

  /** The part starts at the proportional line of its first character and spans its proportional number of lines,
      but at least one and not beyond the end. */
  ghost predicate ProportionalRange(original: Chunk, part: Chunk, pos: nat) {
    var span, total := original.endLine - original.startLine + 1, |original.content|;
    exists offset, share :: Quotient(offset, pos * span, total) && Quotient(share, |part.content| * span, total)
      && part.startLine == original.startLine + offset
      && part.endLine == Min(original.endLine, part.startLine + Max(1, share) - 1)
  }

  /** Part `i` of a chunk cut into these pieces. */
  ghost predicate PartRight(chunk: Chunk, part: Chunk, i: nat, pos: nat) {
    && part.name == chunk.name + "_part" + Decimal(i + 1) && SameKind(chunk, part)
    && (chunk.startLine <= chunk.endLine ==> ProportionalRange(chunk, part, pos))
  }

  /** The parts are the well-cut pieces in order, numbered from one, each with its lines. */
  ghost predicate CutIntoParts(cfg: CastConfig, chunk: Chunk, parts: seq<Chunk>) {
    && WellCut(cfg, chunk.content, Contents(parts))
    && forall i :: 0 <= i < |parts| ==> PartRight(chunk, parts[i], i, |Concat(Contents(parts)[..i])|)
  }

  lemma QuotientOf(a: nat, b: nat)
    requires b > 0
    ensures Quotient(a / b, a, b)
  {
    assert a == b * (a / b) + a % b;
  }

  lemma QuotientBelow(q: nat, a: nat, b: nat, span: nat)
    requires b > 0 && Quotient(q, a, b) && a < span * b
    ensures q < span
  {
  }

  lemma ProductBelow(pos: nat, total: nat, span: nat)
    requires pos < total && span >= 1
    ensures 0 <= pos * span < span * total
  {
    MulAtLeast(span, total - pos);
    assert span * (total - pos) == span * total - pos * span;
  }

  /** The line offset of a position inside the text stays inside the line range. */
  lemma OffsetInside(product: nat, span: nat, total: nat)
    requires total > 0 && product < span * total
    ensures Quotient(product / total, product, total) && product / total < span
  {
    QuotientOf(product, total);
    QuotientBelow(product / total, product, total, span);
  }

  /** The lines of one part, from the position of its first character. */
  lemma PartRange(original: Chunk, content: string, partNum: nat, pos: nat)
    requires original.startLine <= original.endLine && pos < |original.content|
    ensures ProportionalRange(original, CreateSplitChunk(original, content, partNum, pos, |original.content|), pos)
  {
    var span, total := original.endLine - original.startLine + 1, |original.content|;
    SharesAdd(pos, |content|, span, total);
    ProductBelow(pos, total, span);
    OffsetInside(pos * span, span, total);
    QuotientOf(|content| * span, total);
    PartLinesPlain(original, content, partNum, pos, pos * span / total, |content| * span / total);
  }

  lemma PartLinesPlain(original: Chunk, content: string, partNum: nat, pos: nat, offset: nat, share: nat)
    requires original.startLine <= original.endLine && pos < |original.content|
    requires var span, total := original.endLine - original.startLine + 1, |original.content|;
             && Truncate(pos * span, total) == offset < span && Truncate(|content| * span, total) == share
             && Quotient(offset, pos * span, total) && Quotient(share, |content| * span, total)
    ensures ProportionalRange(original, CreateSplitChunk(original, content, partNum, pos, |original.content|), pos)
  {
    RangePlain(original.startLine, original.endLine, offset, share);
  }

  lemma RangePlain(lo: int, hi: int, offset: nat, share: nat)
    requires lo <= hi && offset < hi - lo + 1
    ensures var start := Min(lo + offset, hi);
            && start == lo + offset
            && Max(Min(hi, lo + offset + Max(1, share) - 1), start) == Min(hi, lo + offset + Max(1, share) - 1)
  {
  }

  lemma {:induction false} PositionInside(pieces: seq<string>, i: nat)
    requires i < |pieces| && pieces[i] != []
    ensures |Concat(pieces[..i])| < |Concat(pieces)|
  {
    OffsetsOrdered(pieces, i, |pieces|);
    assert pieces[..|pieces|] == pieces;
  }

  lemma PartRightAt(chunk: Chunk, pieces: seq<string>, i: nat)
    requires i < |pieces| && pieces[i] != [] && Concat(pieces) == chunk.content
    ensures PartRight(chunk, PartChunks(chunk, pieces)[i], i, |Concat(pieces[..i])|)
  {
    PartChunkAt(chunk, pieces, i);
    if chunk.startLine <= chunk.endLine {
      PositionInside(pieces, i);
      PartRange(chunk, pieces[i], i + 1, |Concat(pieces[..i])|);
    }
  }

  lemma PartsRight(cfg: CastConfig, chunk: Chunk)
    requires Accepted(cfg) && cfg.safeTokenLimit >= 1
    ensures CutIntoParts(cfg, chunk, PartChunks(chunk, Pieces(cfg, chunk.content)))
  {
    var pieces := Pieces(cfg, chunk.content);
    PiecesWellCut(cfg, chunk.content);
    PartContents(chunk, pieces);
    forall i | 0 <= i < |pieces|
      ensures PartRight(chunk, PartChunks(chunk, pieces)[i], i, |Concat(pieces[..i])|)
    {
      PartRightAt(chunk, pieces, i);
    }
  }

  // ----- Line halving -----

  /** A chunk above the limits is halved by lines if and only if it has at least three lines, none longer than a fifth
      of the chunk size, and its line range reaches beyond the first line of the second half. */
  predicate Halvable(cfg: CastConfig, chunk: Chunk) {
    var lines := Split(chunk.content, '\n');
    && !Within(cfg, chunk.content)
    && |lines| >= 3 && (forall i :: 0 <= i < |lines| ==> 5 * |lines[i]| <= cfg.maxChunkSize)
    && chunk.startLine + |lines| / 2 < chunk.endLine
  }

  /** Half `partNum` of a chunk: the given lines under the part's name, with the given range. */
  function LineHalf(chunk: Chunk, partNum: nat, lines: seq<string>, startLine: int, endLine: int): Chunk {
    Chunk(chunk.concept, chunk.name + "_part" + Decimal(partNum), Join(lines, "\n"), startLine, endLine,
          chunk.metadata, chunk.nodeType)
  }

  function FirstHalf(chunk: Chunk): Chunk {
    var lines := Split(chunk.content, '\n');
    LineHalf(chunk, 1, lines[..|lines| / 2], chunk.startLine, chunk.startLine + |lines| / 2 - 1)
  }

  function SecondHalf(chunk: Chunk): Chunk {
    var lines := Split(chunk.content, '\n');
    LineHalf(chunk, 2, lines[|lines| / 2..], chunk.startLine + |lines| / 2, chunk.endLine)
  }

  lemma HalvesExactlyWhen(cfg: CastConfig, chunk: Chunk)
    requires cfg.safeTokenLimit >= 1
    ensures ByLines(cfg, chunk) <==> Halvable(cfg, chunk)
    ensures Halvable(cfg, chunk) ==>
              HalveByLines(chunk, Split(chunk.content, '\n')) == Halves(FirstHalf(chunk), SecondHalf(chunk))
  {
    FitsMeaning(cfg, chunk.content);
    assert Decimal(1) == "1" && Decimal(2) == "2";
    assert chunk.name + "_part" + Decimal(1) == chunk.name + "_part1";
    assert chunk.name + "_part" + Decimal(2) == chunk.name + "_part2";
  }

  lemma HalfLineCounts(chunk: Chunk)
    requires LineCount(chunk) >= 2
    ensures LineCount(FirstHalf(chunk)) < LineCount(chunk) && LineCount(SecondHalf(chunk)) < LineCount(chunk)
  {
    var lines := Split(chunk.content, '\n');
    SplitJoin(lines[..|lines| / 2], '\n');
    SplitJoin(lines[|lines| / 2..], '\n');
  }

  // ----- The whole splitter -----

  /** What a split of `chunk` must look like: the chunk itself if it is within the limits, the splits of its two
      halves in order if it is halved by lines, or else its parts cut between characters. */
  ghost predicate SplitRight(cfg: CastConfig, chunk: Chunk, result: seq<Chunk>)
    decreases LineCount(chunk)
  {
    if Within(cfg, chunk.content) then result == [chunk]
    else if Halvable(cfg, chunk) then
      HalfLineCounts(chunk);
      exists k :: 0 <= k <= |result|
        && SplitRight(cfg, FirstHalf(chunk), result[..k]) && SplitRight(cfg, SecondHalf(chunk), result[k..])
    else CutIntoParts(cfg, chunk, result)
  }

  lemma {:induction false} RecursiveSplitRight(cfg: CastConfig, chunk: Chunk)
    requires Accepted(cfg) && cfg.safeTokenLimit >= 1
    ensures SplitRight(cfg, chunk, RecursiveSplit(cfg, chunk))
    decreases LineCount(chunk)
  {
    FitsMeaning(cfg, chunk.content);
    HalvesExactlyWhen(cfg, chunk);
    if Halvable(cfg, chunk) {
      HalfLineCounts(chunk);
      RecursiveSplitRight(cfg, FirstHalf(chunk));
      RecursiveSplitRight(cfg, SecondHalf(chunk));
      var p, q := RecursiveSplit(cfg, FirstHalf(chunk)), RecursiveSplit(cfg, SecondHalf(chunk));
      assert RecursiveSplit(cfg, chunk) == p + q;
      assert (p + q)[..|p|] == p && (p + q)[|p|..] == q;
    } else if !Within(cfg, chunk.content) {
      PartsRight(cfg, chunk);
    }
  }
}
