/** The chunk splitter (chunkhound/parsers/chunk_splitter.py): recursive line halving with a greedy
    character splitter as its fallback.  Ratios are exact rationals. */
module ChunkSplitter {
  import opened Text

  datatype CastConfig = CastConfig(maxChunkSize: int, minChunkSize: int, safeTokenLimit: int)

  /** `__post_init__` rejects a minimum below one. */
  predicate Accepted(cfg: CastConfig) {
    cfg.minChunkSize >= 1
  }

  datatype Chunk = Chunk(
    concept: string, name: string, content: string, startLine: int, endLine: int,
    metadata: map<string, string>, nodeType: string)

  const CHARS_PER_TOKEN := 3

  function EstimateTokens(text: string): nat {
    if text == [] then 0 else if |text| / CHARS_PER_TOKEN < 1 then 1 else |text| / CHARS_PER_TOKEN
  }

  function NonWhitespaceChars(text: string): nat {
    |NonSpace(text)|
  }

  /** Within both the non-whitespace limit and the token limit. */
  predicate Fits(cfg: CastConfig, text: string) {
    NonWhitespaceChars(text) <= cfg.maxChunkSize && EstimateTokens(text) <= cfg.safeTokenLimit
  }

  // ----- One cut of the character splitter -----

  /** The index that a slice bound `k` denotes in a string of length `len`, negative bounds included. */
  function SliceBound(len: nat, k: int): (i: nat)
    ensures i <= len
  {
    if k < 0 then (if len + k < 0 then 0 else len + k) else if k < len then k else len
  }

  function Prefix(s: string, k: int): string {
    s[..SliceBound(|s|, k)]
  }

  function Suffix(s: string, k: int): string {
    s[SliceBound(|s|, k)..]
  }

  /** `s.rfind(c, 0, end)`. */
  function LastIndex(s: string, c: char, end: nat): (i: int)
    requires end <= |s|
    ensures -1 <= i < end
    ensures i >= 0 ==> s[i] == c
    ensures forall j :: i < j < end ==> s[j] != c
  {
    if end == 0 then -1 else if s[end - 1] == c then end - 1 else LastIndex(s, c, end - 1)
  }

  const SPLIT_CHARS := ['\n', ';', '}', '{', ',', ' ']

  function Min(a: int, b: int): int {
    if a <= b then a else b
  }

  function Max(a: int, b: int): int {
    if a >= b then a else b
  }

  /** The search window of the splitter, in characters. */
  function Window(cfg: CastConfig): int {
    cfg.safeTokenLimit * CHARS_PER_TOKEN
  }

  /** The cut after the last occurrence, within the window, of the most preferred of `chars` for which
      the piece fits; zero if there is none. */
  function PreferredCut(cfg: CastConfig, remaining: string, chars: seq<char>): (cut: nat)
    ensures cut <= |remaining|
    ensures cut > 0 ==> Fits(cfg, remaining[..cut])
  {
    if chars == [] then 0
    else
      var pos := LastIndex(remaining, chars[0], SliceBound(|remaining|, Min(Window(cfg), |remaining|)));
      if pos > 0 && Fits(cfg, remaining[..pos + 1]) then pos + 1
      else PreferredCut(cfg, remaining, chars[1..])
  }

  /** Halving a forced cut until the piece fits or the minimum size is reached. */
  function ForcedCut(cfg: CastConfig, remaining: string, cut: int): (r: int)
    requires Accepted(cfg)
    ensures r <= cut && (cut >= 1 ==> r >= 1)
    decreases if cut < 0 then 0 else cut
  {
    if !Fits(cfg, Prefix(remaining, cut)) && cut > cfg.minChunkSize
    then ForcedCut(cfg, remaining, cut / 2)
    else cut
  }

  function Cut(cfg: CastConfig, remaining: string): int
    requires Accepted(cfg)
  {
    var preferred := PreferredCut(cfg, remaining, SPLIT_CHARS);
    if preferred != 0 then preferred
    else ForcedCut(cfg, remaining, Min(Window(cfg), |remaining|))
  }

  /** With a positive token limit every cut takes something and stays inside the text and the window. */
  lemma CutProgress(cfg: CastConfig, remaining: string)
    requires Accepted(cfg) && cfg.safeTokenLimit >= 1 && remaining != []
    ensures 1 <= Cut(cfg, remaining) <= |remaining|
    ensures Cut(cfg, remaining) <= Window(cfg)
  {
    PreferredInWindow(cfg, remaining, SPLIT_CHARS);
  }

  lemma {:induction false} PreferredInWindow(cfg: CastConfig, remaining: string, chars: seq<char>)
    requires cfg.safeTokenLimit >= 1
    ensures PreferredCut(cfg, remaining, chars) <= Window(cfg)
  {
    if chars != [] {
      PreferredInWindow(cfg, remaining, chars[1..]);
    }
  }

  // ----- The loop of the character splitter -----

  /** The contents of the pieces that the loop cuts off. */
  function Pieces(cfg: CastConfig, remaining: string): (pieces: seq<string>)
    requires Accepted(cfg) && cfg.safeTokenLimit >= 1
    decreases |remaining|
  {
    if remaining == [] then []
    else if Fits(cfg, remaining) then [remaining]
    else
      CutProgress(cfg, remaining);
      var cut := Cut(cfg, remaining);
      [remaining[..cut]] + Pieces(cfg, remaining[cut..])
  }

  /** Truncation toward zero, as `int` does on a quotient with a positive divisor. */
  function Truncate(a: int, b: int): int
    requires b > 0
  {
    if a >= 0 then a / b else -((-a) / b)
  }

  function CreateSplitChunk(original: Chunk, content: string, partNum: nat, startPos: int, total: int): Chunk {
    var span := original.endLine - original.startLine + 1;
    var lines :=
      if total > 0 && startPos >= 0 then
        var offset := Truncate(startPos * span, total);
        var lineSpan := Max(1, Truncate(|content| * span, total));
        var start := original.startLine + offset;
        var end := Min(original.endLine, start + lineSpan - 1);
        var start' := Min(start, original.endLine);
        (start', Max(end, start'))
      else (original.startLine, original.endLine);
    original.(name := PartName(original.name, partNum), content := content,
              startLine := lines.0, endLine := lines.1)
  }

  function PartName(name: string, partNum: nat): string {
    name + "_part" + Decimal(partNum)
  }

  /** The chunks for consecutive pieces, numbered from one, each placed after the pieces before it. */
  function PartChunks(original: Chunk, pieces: seq<string>): (chunks: seq<Chunk>)
    ensures |chunks| == |pieces|
  {
    if pieces == [] then []
    else
      var k := |pieces| - 1;
      PartChunks(original, pieces[..k])
      + [CreateSplitChunk(original, pieces[k], k + 1, |Concat(pieces[..k])|, |original.content|)]
  }

  function EmergencySplit(cfg: CastConfig, chunk: Chunk): seq<Chunk>
    requires Accepted(cfg) && cfg.safeTokenLimit >= 1
  {
    if Fits(cfg, chunk.content) then [chunk]
    else PartChunks(chunk, Pieces(cfg, chunk.content))
  }

  /** The search over the preferred split characters, as the source runs it. */
  method FindPreferredCut(cfg: CastConfig, remaining: string) returns (best: nat)
    ensures best == PreferredCut(cfg, remaining, SPLIT_CHARS)
  {
    best := 0;
    for k := 0 to |SPLIT_CHARS|
      invariant best == 0
      invariant PreferredCut(cfg, remaining, SPLIT_CHARS) == PreferredCut(cfg, remaining, SPLIT_CHARS[k..])
    {
      var searchEnd := SliceBound(|remaining|, Min(Window(cfg), |remaining|));
      var pos := LastIndex(remaining, SPLIT_CHARS[k], searchEnd);
      assert SPLIT_CHARS[k..][1..] == SPLIT_CHARS[k + 1..];
      if pos > best {
        var test := remaining[..pos + 1];
        if Fits(cfg, test) {
          best := pos + 1;
          return;
        }
      }
    }
  }

  method FindCut(cfg: CastConfig, remaining: string) returns (best: int)
    requires Accepted(cfg)
    ensures best == Cut(cfg, remaining)
  {
    best := FindPreferredCut(cfg, remaining);
    if best == 0 {
      best := Min(Window(cfg), |remaining|);
      while !Fits(cfg, Prefix(remaining, best)) && best > cfg.minChunkSize
        invariant ForcedCut(cfg, remaining, best) == ForcedCut(cfg, remaining, Min(Window(cfg), |remaining|))
        decreases best
      {
        best := best / 2;
      }
    }
  }

  /** One turn of the loop body: the size of the piece to take off next. */
  method NextCut(cfg: CastConfig, remaining: string) returns (best: nat)
    requires Accepted(cfg) && cfg.safeTokenLimit >= 1 && remaining != [] && !Fits(cfg, remaining)
    ensures 1 <= best <= |remaining|
    ensures Pieces(cfg, remaining) == [remaining[..best]] + Pieces(cfg, remaining[best..])
  {
    best := FindCut(cfg, remaining);
    CutProgress(cfg, remaining);
  }

  /** One turn of the splitting loop on a text that does not fit. */
  lemma {:induction false} PiecesStep(cfg: CastConfig, remaining: string) returns (cut: nat)
    requires Accepted(cfg) && cfg.safeTokenLimit >= 1 && remaining != [] && !Fits(cfg, remaining)
    ensures 1 <= cut <= |remaining|
    ensures Pieces(cfg, remaining) == [remaining[..cut]] + Pieces(cfg, remaining[cut..])
  {
    CutProgress(cfg, remaining);
    cut := Cut(cfg, remaining);
  }

  /** Adding one piece adds one chunk and moves the position on. */
  lemma {:induction false} PartChunksSnoc(chunk: Chunk, done: seq<string>, piece: string)
    ensures PartChunks(chunk, done + [piece])
            == PartChunks(chunk, done)
               + [CreateSplitChunk(chunk, piece, |done| + 1, |Concat(done)|, |chunk.content|)]
    ensures |Concat(done + [piece])| == |Concat(done)| + |piece|
  {
    assert (done + [piece])[..|done|] == done;
    ConcatAppend(done, [piece]);
    assert Concat([piece]) == piece + [];
  }

  lemma OneMore(all: seq<string>, done: seq<string>, piece: string, before: seq<string>, behind: seq<string>)
    requires all == done + before && before == [piece] + behind
    ensures all == (done + [piece]) + behind
  {
  }

  /** `_emergency_split`, loop for loop. */
  method RunEmergencySplit(cfg: CastConfig, chunk: Chunk) returns (chunks: seq<Chunk>)
    requires Accepted(cfg) && cfg.safeTokenLimit >= 1
    ensures chunks == EmergencySplit(cfg, chunk)
  {
    if Fits(cfg, chunk.content) {
      return [chunk];
    }
    chunks := [];
    var remaining := chunk.content;
    var partNum := 1;
    var total := |chunk.content|;
    var pos := 0;
    ghost var all := Pieces(cfg, chunk.content);
    ghost var done := [];
    while remaining != []
      invariant all == done + Pieces(cfg, remaining)
      invariant chunks == PartChunks(chunk, done) && partNum == |done| + 1 && pos == |Concat(done)|
      decreases |remaining|
    {
      if Fits(cfg, remaining) {
        chunks := chunks + [CreateSplitChunk(chunk, remaining, partNum, pos, total)];
        PartChunksSnoc(chunk, done, remaining);
        assert Pieces(cfg, remaining) == [remaining];
        return;
      }
      var best := NextCut(cfg, remaining);
      OneMore(all, done, remaining[..best], Pieces(cfg, remaining), Pieces(cfg, remaining[best..]));
      chunks := chunks + [CreateSplitChunk(chunk, remaining[..best], partNum, pos, total)];
      PartChunksSnoc(chunk, done, remaining[..best]);
      done := done + [remaining[..best]];
      remaining := remaining[best..];
      pos := pos + best;
      partNum := partNum + 1;
    }
    assert all == done;
  }

  // ----- Recursive line halving -----

  /** Some line is longer than a fifth of the chunk size. */
  predicate HasVeryLongLines(cfg: CastConfig, lines: seq<string>) {
    exists i :: 0 <= i < |lines| && 5 * |lines[i]| > cfg.maxChunkSize
  }

  datatype Halves = Fallback | Halves(first: Chunk, second: Chunk)

  function HalveByLines(chunk: Chunk, lines: seq<string>): Halves
    requires |lines| >= 1
  {
    var mid := |lines| / 2;
    var end1 := chunk.startLine + mid - 1;
    var start2 := end1 + 1;
    var end1' := Max(chunk.startLine, Min(end1, chunk.endLine));
    var start2' := Max(end1' + 1, Min(start2, chunk.endLine));
    if start2' >= chunk.endLine then Fallback
    else Halves(
      chunk.(name := chunk.name + "_part1", content := Join(lines[..mid], "\n"), endLine := end1'),
      chunk.(name := chunk.name + "_part2", content := Join(lines[mid..], "\n"), startLine := start2'))
  }

  /** The content is halved by lines rather than cut by characters. */
  predicate ByLines(cfg: CastConfig, chunk: Chunk) {
    var lines := Split(chunk.content, '\n');
    && !Fits(cfg, chunk.content)
    && !(|lines| <= 2 || HasVeryLongLines(cfg, lines) || chunk.endLine - chunk.startLine < 2)
    && HalveByLines(chunk, lines).Halves?
  }

  function LineCount(chunk: Chunk): nat {
    |Split(chunk.content, '\n')|
  }

  lemma HalvesShrink(chunk: Chunk)
    requires LineCount(chunk) >= 2
    requires HalveByLines(chunk, Split(chunk.content, '\n')).Halves?
    ensures var h := HalveByLines(chunk, Split(chunk.content, '\n'));
            LineCount(h.first) < LineCount(chunk) && LineCount(h.second) < LineCount(chunk)
    ensures var h := HalveByLines(chunk, Split(chunk.content, '\n'));
            chunk.content == h.first.content + "\n" + h.second.content
  {
    var lines := Split(chunk.content, '\n');
    var mid := |lines| / 2;
    SplitJoin(lines[..mid], '\n');
    SplitJoin(lines[mid..], '\n');
    JoinSplit(chunk.content, '\n');
    JoinCut(lines, "\n", mid);
  }

  /** `_recursive_split` (and `validate_and_split`, which begins with the same test). */
  function RecursiveSplit(cfg: CastConfig, chunk: Chunk): seq<Chunk>
    requires Accepted(cfg) && cfg.safeTokenLimit >= 1
    decreases LineCount(chunk)
  {
    if Fits(cfg, chunk.content) then [chunk]
    else if ByLines(cfg, chunk) then
      HalvesShrink(chunk);
      var h := HalveByLines(chunk, Split(chunk.content, '\n'));
      RecursiveSplit(cfg, h.first) + RecursiveSplit(cfg, h.second)
    else EmergencySplit(cfg, chunk)
  }
}
