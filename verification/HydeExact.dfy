/** What is sampled of each listed file, exactly: a specification of the samples by conditions on the listed files
    alone. */
module HydeExact {
  import opened HydeSampling
  import opened Text
  import opened Wrappers

  /** A file that can be inspected, is not marked as binary, and has between one byte and a million. */
  predicate Usable(f: Source) {
    f.size.Some? && !f.binarySuffix && 1 <= f.size.value <= 1_000_000
  }

  /** The number of usable files, and their bytes. */
  function UsableCount(files: seq<Source>): nat {
    if files == [] then 0 else (if Usable(files[0]) then 1 else 0) + UsableCount(files[1..])
  }

  function UsableBytes(files: seq<Source>): nat {
    if files == [] then 0 else (if Usable(files[0]) then files[0].size.value else 0) + UsableBytes(files[1..])
  }

  /** `t` is the size times the smaller of one and budget over total, rounded down, and no more than a limit for
      one file, where zero is no limit. */
  predicate IsShare(t: nat, size: nat, budget: int, total: nat, limit: nat) {
    if limit > 0 && Reaches(limit, size, budget, total) then t == limit
    else Reaches(t, size, budget, total) && !Reaches(t + 1, size, budget, total)
  }

  predicate Reaches(t: nat, size: nat, budget: int, total: nat) {
    if budget >= total then t <= size else t * total <= size * budget
  }

  /** A window of `length` characters from `start` on lies in the middle: the gaps before and behind differ by at
      most the odd character. */
  predicate InMiddle(text: string, start: nat, length: nat) {
    start + length <= |text| && start <= |text| - (start + length) <= start + 1
  }

  /** A text that can be read and is not blank. */
  predicate Readable(text: Option<string>) {
    text.Some? && exists i :: 0 <= i < |text.value| && !IsSpace(text.value[i])
  }

  /** The pieces taken of a text whose share is `t`: none of a blank text, all of a text no longer than the share,
      else one window in the middle, or for a share of three or more a prefix, a window in the middle and a suffix of
      equal lengths. */
  ghost predicate IsSample(pieces: seq<string>, text: Option<string>, t: nat) {
    if t == 0 || !Readable(text) then pieces == []
    else if |text.value| <= t then pieces == [text.value]
    else if t < 3 then
      exists start: nat :: InMiddle(text.value, start, t) && pieces == [text.value[start..start + t]]
    else
      exists start: nat :: InMiddle(text.value, start, t / 3)
        && pieces == [text.value[..t / 3], text.value[start..start + t / 3], text.value[|text.value| - t / 3..]]
  }

  // ----- The usable files -----

  lemma {:induction false} CountSplits(a: seq<Source>, b: seq<Source>)
    ensures UsableCount(a + b) == UsableCount(a) + UsableCount(b)
    ensures UsableBytes(a + b) == UsableBytes(a) + UsableBytes(b)
  {
    if a == [] {
      assert a + b == b;
    } else {
      CountSplits(a[1..], b);
      assert (a + b)[1..] == a[1..] + b;
    }
  }

  lemma {:induction false} CountOne(f: Source)
    ensures UsableCount([f]) == if Usable(f) then 1 else 0
    ensures UsableBytes([f]) == if Usable(f) then f.size.value else 0
  {
    assert [f][1..] == [];
  }

  /** The files collected are the usable ones, in the order in which they are listed. */
  lemma {:induction false} InfosExactly(files: seq<Source>)
    ensures |Infos(files)| == UsableCount(files) && TotalBytes(Infos(files)) == UsableBytes(files)
    ensures forall i :: 0 <= i < |files| && Usable(files[i]) ==>
              UsableCount(files[..i]) < |Infos(files)| && Infos(files)[UsableCount(files[..i])] == files[i]
  {
    if files != [] {
      var k := |files| - 1;
      var init := files[..k];
      InfosExactly(init);
      assert files == init + [files[k]];
      CountSplits(init, [files[k]]);
      CountOne(files[k]);
      assert Infos(files) == if Usable(files[k]) then Infos(init) + [files[k]] else Infos(init);
      if Usable(files[k]) {
        assert Infos(files)[..|Infos(files)| - 1] == Infos(init);
      }
      forall i | 0 <= i < |files| && Usable(files[i])
        ensures UsableCount(files[..i]) < |Infos(files)| && Infos(files)[UsableCount(files[..i])] == files[i]
      {
        assert files[..i] == if i < k then init[..i] else init;
      }
    }
  }

  // ----- The share -----

  lemma ProductMonotone(a: nat, b: nat, t: nat)
    requires a <= b
    ensures a * t <= b * t
  {
  }

  lemma TargetIsShare(size: nat, budget: nat, total: nat, limit: nat)
    requires total > 0
    ensures IsShare(Target(size, budget, total, limit), size, budget, total, limit)
  {
    if budget < total {
      var product := size * budget;
      var share := product / total;
      QuotientBounds(product, total);
      if limit <= share {
        ProductMonotone(limit, share, total);
      } else {
        ProductMonotone(share + 1, limit, total);
      }
    }
  }

  lemma QuotientBounds(a: nat, b: nat)
    requires b > 0
    ensures a / b * b <= a < (a / b + 1) * b
  {
  }

  // ----- The pieces -----

  lemma PiecesExactly(text: string, t: nat)
    requires t > 0 && Readable(Some(text))
    ensures IsSample(Pieces(text, t), Some(text), t)
  {
    if t < |text| {
      if t < 3 {
        var start := (|text| - t) / 2;
        assert InMiddle(text, start, t);
      } else {
        ThreeWindows(text, t);
        var start := WindowStart(|text|, t / 3, 1);
        assert InMiddle(text, start, t / 3);
      }
    }
  }

  // ----- The samples -----

  lemma {:induction false} BytesAtLeast(files: seq<Source>)
    ensures UsableCount(files) <= UsableBytes(files)
    ensures UsableBytes(files) > 0 ==> UsableCount(files) > 0
  {
    if files != [] {
      BytesAtLeast(files[1..]);
    }
  }

  /** There is one list of pieces for each usable file up to the limit on files, and none without a budget. */
  lemma SampleCount(files: seq<Source>, cfg: Config)
    ensures |Samples(files, cfg)|
            == if cfg.maxSnippetTokens <= 0 then 0
               else if 0 < cfg.maxSnippetFiles < UsableCount(files) then cfg.maxSnippetFiles else UsableCount(files)
  {
    InfosExactly(files);
    BytesAtLeast(files);
  }

  lemma SampleOfExactly(f: Source, t: nat)
    ensures IsSample(SampleOf(f, t), f.text, t)
  {
    if t > 0 && f.text.Some? {
      StripEmpty(f.text.value);
      if Strip(f.text.value) != [] {
        PiecesExactly(f.text.value, t);
      }
    }
  }

  lemma SampleChars(pieces: seq<string>, text: string, t: nat)
    requires IsSample(pieces, Some(text), t) && t > 0 && Readable(Some(text))
    ensures Chars(pieces) == if |text| <= t then |text| else if t < 3 then t else 3 * (t / 3)
  {
    if |text| <= t || t < 3 {
      assert pieces[..0] == [];
    } else {
      assert pieces[..2][..1] == pieces[..1] && pieces[..1][..0] == [];
      assert Chars(pieces[..2]) == Chars(pieces[..1]) + |pieces[1]|;
    }
  }

  /** Each sampled file has the share that its size, the budget of four characters a token and the limits determine;
      its pieces are those of that share, and their characters fill it up to the remainder by three. */
  lemma SampledExactly(files: seq<Source>, cfg: Config, i: nat) returns (t: nat)
    requires i < |files| && Usable(files[i])
    ensures var k, text := UsableCount(files[..i]), files[i].text;
            k < |Samples(files, cfg)| ==>
              && IsShare(t, files[i].size.value, 4 * cfg.maxSnippetTokens, UsableBytes(files), cfg.maxSnippetChars)
              && IsSample(Samples(files, cfg)[k], text, t)
              && (t > 0 && Readable(text) ==>
                   Chars(Samples(files, cfg)[k])
                   == if |text.value| <= t then |text.value| else if t < 3 then t else 3 * (t / 3))
  {
    InfosExactly(files);
    BytesAtLeast(files);
    var total := UsableBytes(files);
    t := Target(files[i].size.value, Budget(cfg), total, cfg.maxSnippetChars);
    TargetIsShare(files[i].size.value, Budget(cfg), total, cfg.maxSnippetChars);
    SampleOfExactly(files[i], t);
    if t > 0 && Readable(files[i].text) {
      SampleChars(SampleOf(files[i], t), files[i].text.value, t);
    }
  }
}
