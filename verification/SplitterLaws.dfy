/** What the chunk splitter promises, for every accepted configuration and every chunk. */
module SplitterLaws {
  import opened Text
  import opened ChunkSplitter

  // ----- Termination, exactly -----

  /** The splitting loop stops here: nothing is left, or what is left fits. */
  predicate LoopDone(cfg: CastConfig, remaining: string) {
    remaining == [] || Fits(cfg, remaining)
  }

  /** Without a positive token limit no turn exhausts the text. */
  lemma {:induction false} StuckTurn(cfg: CastConfig, remaining: string)
    requires Accepted(cfg) && remaining != []
    ensures cfg.safeTokenLimit <= 0 ==> Suffix(remaining, Cut(cfg, remaining)) != []
  {
  }

  /** What remains after `n` turns of the splitting loop: without a positive token limit, something always does. */
  function Iterate(cfg: CastConfig, remaining: string, n: nat): (r: string)
    requires Accepted(cfg)
    ensures cfg.safeTokenLimit <= 0 && remaining != [] ==> r != []
    decreases n
  {
    if n == 0 || LoopDone(cfg, remaining) then remaining
    else
      StuckTurn(cfg, remaining);
      Iterate(cfg, Suffix(remaining, Cut(cfg, remaining)), n - 1)
  }

  ghost predicate Terminates(cfg: CastConfig, text: string)
    requires Accepted(cfg)
  {
    exists n :: LoopDone(cfg, Iterate(cfg, text, n))
  }

  /** With a positive token limit every turn shortens the text. */
  lemma {:induction false} ShorterTurn(cfg: CastConfig, remaining: string, n: nat) returns (next: string)
    requires Accepted(cfg) && cfg.safeTokenLimit >= 1 && !LoopDone(cfg, remaining) && n > 0
    ensures |next| < |remaining| && Iterate(cfg, remaining, n) == Iterate(cfg, next, n - 1)
  {
    CutProgress(cfg, remaining);
    next := Suffix(remaining, Cut(cfg, remaining));
  }

  lemma {:induction false} ReachesEnd(cfg: CastConfig, remaining: string, n: nat)
    requires Accepted(cfg) && cfg.safeTokenLimit >= 1 && |remaining| <= n
    ensures LoopDone(cfg, Iterate(cfg, remaining, n))
    decreases n
  {
    if !LoopDone(cfg, remaining) {
      var next := ShorterTurn(cfg, remaining, n);
      ReachesEnd(cfg, next, n - 1);
    }
  }

  /** The loop ends on every text exactly when the token limit is positive; otherwise only on texts it
      would not have to split. */
  lemma TerminatesExactlyWhen(cfg: CastConfig, text: string)
    requires Accepted(cfg)
    ensures Terminates(cfg, text) <==> LoopDone(cfg, text) || cfg.safeTokenLimit >= 1
  {
    if cfg.safeTokenLimit >= 1 {
      ReachesEnd(cfg, text, |text|);
    } else if LoopDone(cfg, text) {
      assert LoopDone(cfg, Iterate(cfg, text, 0));
    } else {
      forall n: nat
        ensures !LoopDone(cfg, Iterate(cfg, text, n))
      {
        assert Iterate(cfg, text, n) != [];
      }
    }
  }

  /** `_recursive_split` ends on a chunk: it need not split it, both halves end, or the character loop ends. */
  ghost predicate SplitEnds(cfg: CastConfig, chunk: Chunk)
    requires Accepted(cfg)
    decreases LineCount(chunk)
  {
    if Fits(cfg, chunk.content) then true
    else if ByLines(cfg, chunk) then
      HalvesShrink(chunk);
      var h := HalveByLines(chunk, Split(chunk.content, '\n'));
      SplitEnds(cfg, h.first) && SplitEnds(cfg, h.second)
    else Terminates(cfg, chunk.content)
  }

  /** The second half of a line split is never empty, so that something to split remains. */
  lemma SecondHalfNotEmpty(cfg: CastConfig, chunk: Chunk)
    requires ByLines(cfg, chunk)
    ensures HalveByLines(chunk, Split(chunk.content, '\n')).second.content != []
  {
    var lines := Split(chunk.content, '\n');
    var rest := lines[|lines| / 2..];
    assert |rest| >= 2;
    assert |Join(rest, "\n")| >= |rest[0]| + 1;
  }

  /** The whole splitter ends on a chunk if and only if its text is empty or fits, or the token limit is positive. */
  lemma {:induction false} SplitEndsExactlyWhen(cfg: CastConfig, chunk: Chunk)
    requires Accepted(cfg)
    ensures SplitEnds(cfg, chunk) <==> chunk.content == [] || Fits(cfg, chunk.content) || cfg.safeTokenLimit >= 1
    decreases LineCount(chunk)
  {
    if ByLines(cfg, chunk) {
      HalvesShrink(chunk);
      var h := HalveByLines(chunk, Split(chunk.content, '\n'));
      SplitEndsExactlyWhen(cfg, h.first);
      SplitEndsExactlyWhen(cfg, h.second);
      SecondHalfNotEmpty(cfg, chunk);
      NothingFits(cfg, h.second.content);
    } else {
      TerminatesExactlyWhen(cfg, chunk.content);
    }
  }

  /** Without a positive token limit no text that is not empty fits. */
  lemma NothingFits(cfg: CastConfig, text: string)
    requires text != []
    ensures cfg.safeTokenLimit <= 0 ==> !Fits(cfg, text)
  {
  }

  // ----- Nothing is lost -----

  function Contents(chunks: seq<Chunk>): (r: seq<string>)
    ensures |r| == |chunks|
    ensures forall i :: 0 <= i < |chunks| ==> r[i] == chunks[i].content
  {
    if chunks == [] then [] else [chunks[0].content] + Contents(chunks[1..])
  }

  lemma {:induction false} CutConcat(pieces: seq<string>, rest: seq<string>, text: string, cut: nat)
    requires cut <= |text| && pieces == [text[..cut]] + rest && Concat(rest) == text[cut..]
    ensures Concat(pieces) == text
  {
    assert pieces[1..] == rest;
    assert text == text[..cut] + text[cut..];
  }

  lemma {:induction false} PiecesConcat(cfg: CastConfig, remaining: string)
    requires Accepted(cfg) && cfg.safeTokenLimit >= 1
    ensures Concat(Pieces(cfg, remaining)) == remaining
    decreases |remaining|
  {
    if LoopDone(cfg, remaining) {
      assert Concat([remaining]) == remaining + [];
    } else {
      var cut := PiecesStep(cfg, remaining);
      PiecesConcat(cfg, remaining[cut..]);
      CutConcat(Pieces(cfg, remaining), Pieces(cfg, remaining[cut..]), remaining, cut);
    }
  }

  lemma {:induction false} PartChunkAt(original: Chunk, pieces: seq<string>, i: nat)
    requires i < |pieces|
    ensures PartChunks(original, pieces)[i]
            == CreateSplitChunk(original, pieces[i], i + 1, |Concat(pieces[..i])|, |original.content|)
  {
    var k := |pieces| - 1;
    if i < k {
      PartChunkAt(original, pieces[..k], i);
      assert pieces[..k][..i] == pieces[..i];
    }
  }

  lemma PartContents(original: Chunk, pieces: seq<string>)
    ensures Contents(PartChunks(original, pieces)) == pieces
  {
    forall i | 0 <= i < |pieces|
      ensures Contents(PartChunks(original, pieces))[i] == pieces[i]
    {
      PartChunkAt(original, pieces, i);
    }
  }

  /** Inside an emergency split the pieces are simply cut apart. */
  lemma EmergencyConcat(cfg: CastConfig, chunk: Chunk)
    requires Accepted(cfg) && cfg.safeTokenLimit >= 1
    ensures Concat(Contents(EmergencySplit(cfg, chunk))) == chunk.content
  {
    if Fits(cfg, chunk.content) {
      assert Contents([chunk]) == [chunk.content];
      assert Concat([chunk.content]) == chunk.content + [];
    } else {
      PartContents(chunk, Pieces(cfg, chunk.content));
      PiecesConcat(cfg, chunk.content);
    }
  }

  predicate Separator(sep: string) {
    sep == "" || sep == "\n"
  }

  function Interleave(pieces: seq<string>, seps: seq<string>): string
    requires |pieces| == |seps| + 1
  {
    if seps == [] then pieces[0] else pieces[0] + seps[0] + Interleave(pieces[1..], seps[1..])
  }

  ghost predicate RebuildsWith(text: string, pieces: seq<string>, seps: seq<string>) {
    && |pieces| == |seps| + 1
    && (forall i :: 0 <= i < |seps| ==> Separator(seps[i]))
    && Interleave(pieces, seps) == text
  }

  /** The pieces in order, with nothing or one newline between neighbours, are the text. */
  ghost predicate Rebuilds(text: string, pieces: seq<string>) {
    if pieces == [] then text == [] else exists seps :: RebuildsWith(text, pieces, seps)
  }

  lemma {:induction false} InterleaveAppend(p: seq<string>, s: seq<string>, sep: string, q: seq<string>, t: seq<string>)
    requires |p| == |s| + 1 && |q| == |t| + 1
    ensures Interleave(p + q, s + [sep] + t) == Interleave(p, s) + sep + Interleave(q, t)
  {
    if s == [] {
      assert (p + q)[1..] == q && (s + [sep] + t)[1..] == t;
    } else {
      InterleaveAppend(p[1..], s[1..], sep, q, t);
      assert (p + q)[1..] == p[1..] + q;
      assert (s + [sep] + t)[1..] == s[1..] + [sep] + t;
    }
  }

  lemma RebuildsAppend(a: string, p: seq<string>, b: string, q: seq<string>)
    requires p != [] && q != [] && Rebuilds(a, p) && Rebuilds(b, q)
    ensures Rebuilds(a + "\n" + b, p + q)
  {
    var s :| RebuildsWith(a, p, s);
    var t :| RebuildsWith(b, q, t);
    InterleaveAppend(p, s, "\n", q, t);
    assert RebuildsWith(a + "\n" + b, p + q, s + ["\n"] + t);
  }

  lemma {:induction false} ConcatRebuilds(pieces: seq<string>)
    requires pieces != []
    ensures exists seps :: RebuildsWith(Concat(pieces), pieces, seps)
  {
    if |pieces| == 1 {
      assert Concat(pieces) == pieces[0] + [];
      assert RebuildsWith(Concat(pieces), pieces, []);
    } else {
      ConcatRebuilds(pieces[1..]);
      var seps :| RebuildsWith(Concat(pieces[1..]), pieces[1..], seps);
      assert ([""] + seps)[1..] == seps;
      assert pieces[0] + "" == pieces[0];
      assert RebuildsWith(Concat(pieces), pieces, [""] + seps);
    }
  }

  lemma ContentsAppend(a: seq<Chunk>, b: seq<Chunk>)
    ensures Contents(a + b) == Contents(a) + Contents(b)
  {
  }

  /** With a non-negative size limit a split never drops a chunk altogether; a negative limit makes every
      line too long, so that lines are never halved. */
  lemma {:induction false} SplitNonEmpty(cfg: CastConfig, chunk: Chunk)
    requires Accepted(cfg) && cfg.safeTokenLimit >= 1
    ensures cfg.maxChunkSize >= 0 ==> RecursiveSplit(cfg, chunk) != []
    ensures cfg.maxChunkSize < 0 ==> !ByLines(cfg, chunk)
    decreases LineCount(chunk)
  {
    if cfg.maxChunkSize < 0 {
      var lines := Split(chunk.content, '\n');
      assert 5 * |lines[0]| > cfg.maxChunkSize;
    } else if ByLines(cfg, chunk) {
      HalvesShrink(chunk);
      SplitNonEmpty(cfg, HalveByLines(chunk, Split(chunk.content, '\n')).first);
    } else if !Fits(cfg, chunk.content) {
      assert chunk.content != [];
      var cut := PiecesStep(cfg, chunk.content);
    }
  }

  /** The pieces of every chunk rebuild its text. */
  lemma {:induction false} SplitRebuilds(cfg: CastConfig, chunk: Chunk)
    requires Accepted(cfg) && cfg.safeTokenLimit >= 1
    ensures Rebuilds(chunk.content, Contents(RecursiveSplit(cfg, chunk)))
    decreases LineCount(chunk)
  {
    SplitNonEmpty(cfg, chunk);
    if ByLines(cfg, chunk) {
      HalvesShrink(chunk);
      var h := HalveByLines(chunk, Split(chunk.content, '\n'));
      SplitRebuilds(cfg, h.first);
      SplitRebuilds(cfg, h.second);
      SplitNonEmpty(cfg, h.first);
      SplitNonEmpty(cfg, h.second);
      var p, q := RecursiveSplit(cfg, h.first), RecursiveSplit(cfg, h.second);
      ContentsAppend(p, q);
      RebuildsAppend(h.first.content, Contents(p), h.second.content, Contents(q));
    } else {
      assert RecursiveSplit(cfg, chunk) == EmergencySplit(cfg, chunk);
      EmergencyConcat(cfg, chunk);
      var pieces := Contents(EmergencySplit(cfg, chunk));
      if pieces != [] {
        ConcatRebuilds(pieces);
      }
    }
  }

  function NonSpaceOf(pieces: seq<string>): string {
    if pieces == [] then [] else NonSpace(pieces[0]) + NonSpaceOf(pieces[1..])
  }

  lemma {:induction false} InterleaveNonSpace(pieces: seq<string>, seps: seq<string>)
    requires |pieces| == |seps| + 1 && forall i :: 0 <= i < |seps| ==> Separator(seps[i])
    ensures NonSpace(Interleave(pieces, seps)) == NonSpaceOf(pieces)
  {
    if seps == [] {
      assert NonSpaceOf(pieces[1..]) == [];
    } else {
      InterleaveNonSpace(pieces[1..], seps[1..]);
      assert NonSpace(seps[0]) == [];
      NonSpaceConcat(pieces[0] + seps[0], Interleave(pieces[1..], seps[1..]));
      NonSpaceConcat(pieces[0], seps[0]);
    }
  }

  /** The sequence of non-whitespace characters is preserved exactly. */
  lemma NonSpacePreserved(cfg: CastConfig, chunk: Chunk)
    requires Accepted(cfg) && cfg.safeTokenLimit >= 1
    ensures NonSpace(chunk.content) == NonSpaceOf(Contents(RecursiveSplit(cfg, chunk)))
  {
    SplitRebuilds(cfg, chunk);
    var pieces := Contents(RecursiveSplit(cfg, chunk));
    if pieces != [] {
      var seps :| RebuildsWith(chunk.content, pieces, seps);
      InterleaveNonSpace(pieces, seps);
    }
  }

  // ----- Where the cuts fall -----

  function WindowEnd(cfg: CastConfig, remaining: string): nat {
    SliceBound(|remaining|, Min(Window(cfg), |remaining|))
  }

  /** Cutting after position `cut` keeps the last `c` of the window and a piece that fits; a character at
      the very start does not count. */
  predicate CutsAfter(cfg: CastConfig, remaining: string, c: char, cut: int) {
    && 2 <= cut <= WindowEnd(cfg, remaining)
    && remaining[cut - 1] == c
    && Fits(cfg, remaining[..cut])
    && forall i :: cut <= i < WindowEnd(cfg, remaining) ==> remaining[i] != c
  }

  /** The preferred cut is after the most preferred split character that allows one, and there is none
      exactly when no split character does. */
  lemma {:induction false} PreferredCutMeaning(cfg: CastConfig, remaining: string, chars: seq<char>)
    ensures var cut := PreferredCut(cfg, remaining, chars);
            if cut == 0 then forall k, other :: 0 <= k < |chars| ==> !CutsAfter(cfg, remaining, chars[k], other)
            else exists k :: 0 <= k < |chars| && CutsAfter(cfg, remaining, chars[k], cut)
                          && forall j, other :: 0 <= j < k ==> !CutsAfter(cfg, remaining, chars[j], other)
  {
    if chars != [] {
      var pos := LastIndex(remaining, chars[0], WindowEnd(cfg, remaining));
      if pos > 0 && Fits(cfg, remaining[..pos + 1]) {
        assert CutsAfter(cfg, remaining, chars[0], pos + 1);
      } else {
        PreferredCutMeaning(cfg, remaining, chars[1..]);
        NoCutAfterHead(cfg, remaining, chars[0], pos);
        var cut := PreferredCut(cfg, remaining, chars[1..]);
        if cut == 0 {
          forall k, other | 0 <= k < |chars|
            ensures !CutsAfter(cfg, remaining, chars[k], other)
          {
            if k > 0 {
              assert chars[k] == chars[1..][k - 1];
            }
          }
        } else {
          var k :| 0 <= k < |chars[1..]| && CutsAfter(cfg, remaining, chars[1..][k], cut)
                   && forall j, other :: 0 <= j < k ==> !CutsAfter(cfg, remaining, chars[1..][j], other);
          assert chars[k + 1] == chars[1..][k];
          forall j, other | 0 <= j < k + 1
            ensures !CutsAfter(cfg, remaining, chars[j], other)
          {
            if j > 0 {
              assert chars[j] == chars[1..][j - 1];
            }
          }
        }
      }
    }
  }

  lemma NoCutAfterHead(cfg: CastConfig, remaining: string, c: char, pos: int)
    requires pos == LastIndex(remaining, c, WindowEnd(cfg, remaining))
    requires pos > 0 ==> !Fits(cfg, remaining[..pos + 1])
    ensures forall other :: !CutsAfter(cfg, remaining, c, other)
  {
    forall other
      ensures !CutsAfter(cfg, remaining, c, other)
    {
      assert CutsAfter(cfg, remaining, c, other) ==> other == pos + 1;
    }
  }

  function Halved(cut: int, k: nat): int
    decreases k
  {
    if k == 0 then cut else Halved(cut / 2, k - 1)
  }

  /** A forced cut is the window halved the least number of times after which the piece fits or the
      minimum size is reached. */
  lemma {:induction false} ForcedCutMeaning(cfg: CastConfig, remaining: string, cut: int) returns (k: nat)
    requires Accepted(cfg)
    ensures ForcedCut(cfg, remaining, cut) == Halved(cut, k)
    ensures Fits(cfg, Prefix(remaining, Halved(cut, k))) || Halved(cut, k) <= cfg.minChunkSize
    ensures forall j :: 0 <= j < k ==>
              !Fits(cfg, Prefix(remaining, Halved(cut, j))) && Halved(cut, j) > cfg.minChunkSize
    decreases if cut < 0 then 0 else cut
  {
    if !Fits(cfg, Prefix(remaining, cut)) && cut > cfg.minChunkSize {
      var k' := ForcedCutMeaning(cfg, remaining, cut / 2);
      k := k' + 1;
      forall j | 0 <= j < k
        ensures !Fits(cfg, Prefix(remaining, Halved(cut, j))) && Halved(cut, j) > cfg.minChunkSize
      {
        if j > 0 {
          assert Halved(cut, j) == Halved(cut / 2, j - 1);
        }
      }
    } else {
      k := 0;
    }
  }
}
