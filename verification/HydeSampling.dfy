/** Sampling of source code for the scope prompt (chunkhound/code_mapper/hyde.py). */
module HydeSampling {
  import opened Text
  import opened Wrappers

  /** What the sampler learns of a listed path: its size if it is a file that can be inspected, whether its suffix
      marks it as binary, and its text unless it cannot be read or looks binary. */
  datatype Source = Source(size: Option<nat>, binarySuffix: bool, text: Option<string>)

  /** Zero stands for "no limit" in the two file limits. */
  datatype Config = Config(maxSnippetTokens: int, maxSnippetChars: nat, maxSnippetFiles: nat)

  const MAX_FILE_BYTES := 1_000_000

  function Budget(cfg: Config): nat {
    if cfg.maxSnippetTokens <= 0 then 0 else cfg.maxSnippetTokens * 4
  }

  predicate Eligible(f: Source) {
    f.size.Some? && !f.binarySuffix && 0 < f.size.value <= MAX_FILE_BYTES
  }

  function Infos(files: seq<Source>): (infos: seq<Source>)
    ensures forall i :: 0 <= i < |infos| ==> Eligible(infos[i])
  {
    if files == [] then []
    else Infos(files[..|files| - 1]) + (if Eligible(files[|files| - 1]) then [files[|files| - 1]] else [])
  }

  function TotalBytes(infos: seq<Source>): nat
    requires forall i :: 0 <= i < |infos| ==> Eligible(infos[i])
  {
    if infos == [] then 0
    else
      var last := infos[|infos| - 1];
      assert Eligible(last);
      TotalBytes(infos[..|infos| - 1]) + last.size.value
  }

  /** The share of a file in exact arithmetic: the size times the smaller of 1 and budget over total, rounded down,
      and at most the limit for one file. */
  function Target(size: nat, budget: nat, total: nat, cap: nat): nat
    requires total > 0
  {
    var share := if budget >= total then size else size * budget / total;
    if cap > 0 && cap < share then cap else share
  }

  function WindowStart(length: nat, segment: nat, w: nat): nat
    requires segment <= length && w <= 2
  {
    (length - segment) * w / 2
  }

  function Window(text: string, start: nat, segment: nat): string {
    if start + segment <= |text| then text[start..start + segment] else if start <= |text| then text[start..] else []
  }

  /** The pieces of a text: all of it, one window in the middle, or three windows spread evenly. */
  function Pieces(text: string, target: nat): seq<string>
    requires target > 0
  {
    if |text| <= target then [text]
    else if target < 3 then [Window(text, (|text| - target) / 2, target)]
    else
      var s := target / 3;
      [Window(text, WindowStart(|text|, s, 0), s), Window(text, WindowStart(|text|, s, 1), s),
       Window(text, WindowStart(|text|, s, 2), s)]
  }

  /** The part of the loop body that cuts the text. */
  method SampleText(text: string, target: nat) returns (pieces: seq<string>)
    requires target > 0
    ensures pieces == Pieces(text, target)
  {
    if |text| <= target {
      return [text];
    }
    var windows := 3;
    if target < windows {
      windows := 1;
    }
    var segment := if target / windows >= 1 then target / windows else 1;
    pieces := [];
    if windows == 1 {
      var start := (|text| - segment) / 2;
      pieces := [Window(text, start, segment)];
    } else {
      for w := 0 to 3
        invariant |pieces| == w
        invariant forall v :: 0 <= v < w ==> pieces[v] == Window(text, WindowStart(|text|, segment, v), segment)
      {
        var offset := (|text| - segment) * w / 2;
        var start := if offset <= |text| - segment then offset else |text| - segment;
        StartInside(|text|, segment, w);
        pieces := pieces + [Window(text, start, segment)];
      }
    }
  }

  lemma StartInside(length: nat, segment: nat, w: nat)
    requires segment <= length && w <= 2
    ensures WindowStart(length, segment, w) <= length - segment
  {
    if w == 0 {
      assert (length - segment) * w == 0;
    } else if w == 1 {
      assert (length - segment) * w == length - segment;
    }
  }

  /** The sample of one file: nothing when its share rounds to zero, or its text cannot be used or is blank. */
  function SampleOf(f: Source, target: nat): seq<string> {
    if target == 0 || f.text.None? || Strip(f.text.value) == [] then [] else Pieces(f.text.value, target)
  }

  function TargetOf(f: Source, cfg: Config, total: nat): nat
    requires total > 0 && Eligible(f)
  {
    Target(f.size.value, Budget(cfg), total, cfg.maxSnippetChars)
  }

  /** The samples of the files, one list of pieces for each. */
  function SampleAll(infos: seq<Source>, cfg: Config, total: nat): (samples: seq<seq<string>>)
    requires total > 0 && forall i :: 0 <= i < |infos| ==> Eligible(infos[i])
    ensures |samples| == |infos|
    ensures forall i :: 0 <= i < |infos| ==> samples[i] == SampleOf(infos[i], TargetOf(infos[i], cfg, total))
  {
    if infos == [] then []
    else
      var k := |infos| - 1;
      SampleAll(infos[..k], cfg, total) + [SampleOf(infos[k], TargetOf(infos[k], cfg, total))]
  }

  /** The files the loop gets to before it reaches the file limit. */
  function Considered(infos: seq<Source>, cfg: Config): seq<Source> {
    if 0 < cfg.maxSnippetFiles < |infos| then infos[..cfg.maxSnippetFiles] else infos
  }

  function Samples(files: seq<Source>, cfg: Config): seq<seq<string>> {
    var infos := Infos(files);
    if Budget(cfg) == 0 || TotalBytes(infos) == 0 then []
    else SampleAll(Considered(infos, cfg), cfg, TotalBytes(infos))
  }

  /** The first loop of `build_hyde_scope_prompt`. */
  method CollectInfos(files: seq<Source>) returns (infos: seq<Source>, total: nat)
    ensures infos == Infos(files) && total == TotalBytes(infos)
  {
    infos, total := [], 0;
    for n := 0 to |files|
      invariant infos == Infos(files[..n]) && total == TotalBytes(infos)
    {
      assert files[..n + 1][..n] == files[..n];
      if Eligible(files[n]) {
        infos := infos + [files[n]];
        assert infos[..|infos| - 1] == Infos(files[..n]);
        total := total + files[n].size.value;
      }
    }
    assert files[..|files|] == files;
  }

  method SampleFile(f: Source, target: nat) returns (pieces: seq<string>)
    ensures pieces == SampleOf(f, target)
  {
    if target == 0 || f.text.None? || Strip(f.text.value) == [] {
      pieces := [];
    } else {
      pieces := SampleText(f.text.value, target);
    }
  }

  /** The second loop of `build_hyde_scope_prompt`; a file without a sample leaves an empty list. */
  method SampleInfos(infos: seq<Source>, cfg: Config, total: nat) returns (samples: seq<seq<string>>)
    requires total > 0 && forall i :: 0 <= i < |infos| ==> Eligible(infos[i])
    ensures samples == SampleAll(Considered(infos, cfg), cfg, total)
  {
    samples := [];
    var idx := 0;
    while idx < |infos| && !(cfg.maxSnippetFiles > 0 && idx >= cfg.maxSnippetFiles)
      invariant idx <= |Considered(infos, cfg)|
      invariant samples == SampleAll(infos[..idx], cfg, total)
    {
      assert infos[..idx + 1][..idx] == infos[..idx];
      var pieces := SampleFile(infos[idx], TargetOf(infos[idx], cfg, total));
      samples := samples + [pieces];
      idx := idx + 1;
    }
    assert infos[..idx] == Considered(infos, cfg);
  }

  method SampleFiles(files: seq<Source>, cfg: Config) returns (samples: seq<seq<string>>)
    ensures samples == Samples(files, cfg)
  {
    var infos, total := CollectInfos(files);
    if Budget(cfg) <= 0 || total <= 0 {
      samples := [];
    } else {
      samples := SampleInfos(infos, cfg, total);
    }
  }

  // ----- Laws -----

  function Chars(pieces: seq<string>): nat {
    if pieces == [] then 0 else Chars(pieces[..|pieces| - 1]) + |pieces[|pieces| - 1]|
  }

  function AllChars(samples: seq<seq<string>>): nat {
    if samples == [] then 0 else AllChars(samples[..|samples| - 1]) + Chars(samples[|samples| - 1])
  }

  /** When three windows are taken they have equal length, lie inside the text, are pairwise disjoint, and the first
      is a prefix and the last a suffix. */
  lemma ThreeWindows(text: string, target: nat)
    requires 3 <= target < |text|
    ensures var p, s := Pieces(text, target), target / 3;
            var middle := WindowStart(|text|, s, 1);
            && |p| == 3 && s >= 1
            && p[0] == text[..s] && p[2] == text[|text| - s..]
            && s <= middle && middle + s <= |text| - s && p[1] == text[middle..middle + s]
  {
    var s := target / 3;
    assert WindowStart(|text|, s, 0) == 0 && WindowStart(|text|, s, 2) == |text| - s;
    assert text[|text| - s..|text|] == text[|text| - s..];
  }

  lemma {:induction false} PiecesWithin(text: string, target: nat)
    requires target > 0
    ensures Chars(Pieces(text, target)) <= target
  {
    var p := Pieces(text, target);
    if 3 <= target < |text| {
      ThreeWindows(text, target);
      assert p[..2][..1] == p[..1] && p[..1][..0] == [];
      assert Chars(p) == Chars(p[..2]) + |p[2]| == Chars(p[..1]) + |p[1]| + |p[2]|;
      assert Chars(p[..1]) == Chars([]) + |p[0]|;
    } else {
      assert p[..0] == [];
    }
  }

  lemma {:induction false} SampleWithin(f: Source, target: nat)
    ensures Chars(SampleOf(f, target)) <= target
  {
    if target > 0 && f.text.Some? {
      PiecesWithin(f.text.value, target);
    }
  }

  lemma RoundedDown(size: nat, budget: nat, total: nat, share: nat)
    requires total > budget && share == size * budget / total
    ensures share * total <= size * budget && share <= size
  {
    assert share * total <= size * budget;
    ScaleBelow(budget, total, size);
    ScaleBelow(size + 1, share, total);
  }

  /** A share times the total is at most the size times the budget, when the budget is the smaller. */
  lemma ShareScaled(size: nat, budget: nat, total: nat, cap: nat)
    requires total > 0
    ensures budget < total ==> Target(size, budget, total, cap) * total <= size * budget
    ensures Target(size, budget, total, cap) <= size
    ensures cap > 0 ==> Target(size, budget, total, cap) <= cap
  {
    if budget < total {
      var share := size * budget / total;
      RoundedDown(size, budget, total, share);
      ScaleBelow(Target(size, budget, total, cap), share, total);
    }
  }

  lemma ScaleBelow(a: nat, b: nat, t: nat)
    ensures a <= b ==> a * t <= b * t
  {
  }

  function Sum(a: seq<nat>): nat {
    if a == [] then 0 else Sum(a[..|a| - 1]) + a[|a| - 1]
  }

  lemma SumScaled(before: nat, share: nat, bytes: nat, size: nat, budget: nat, total: nat)
    requires before * total <= bytes * budget && share * total <= size * budget
    ensures (before + share) * total <= (bytes + size) * budget
  {
    assert (before + share) * total == before * total + share * total;
    assert (bytes + size) * budget == bytes * budget + size * budget;
  }

  lemma {:induction false} SharesScaled(shares: seq<nat>, sizes: seq<nat>, budget: nat, total: nat)
    requires |shares| == |sizes| && forall i :: 0 <= i < |shares| ==> shares[i] * total <= sizes[i] * budget
    ensures Sum(shares) * total <= Sum(sizes) * budget
  {
    if shares != [] {
      var k := |shares| - 1;
      SharesScaled(shares[..k], sizes[..k], budget, total);
      SumScaled(Sum(shares[..k]), shares[k], Sum(sizes[..k]), sizes[k], budget, total);
    }
  }

  lemma {:induction false} CharsBelow(samples: seq<seq<string>>, shares: seq<nat>)
    requires |samples| == |shares| && forall i :: 0 <= i < |shares| ==> Chars(samples[i]) <= shares[i]
    ensures AllChars(samples) <= Sum(shares)
  {
    if samples != [] {
      CharsBelow(samples[..|samples| - 1], shares[..|shares| - 1]);
    }
  }

  function Sizes(infos: seq<Source>): (sizes: seq<nat>)
    requires forall i :: 0 <= i < |infos| ==> Eligible(infos[i])
    ensures |sizes| == |infos| && Sum(sizes) == TotalBytes(infos)
    ensures forall i :: 0 <= i < |infos| ==> sizes[i] == infos[i].size.value
  {
    if infos == [] then []
    else
      var k := |infos| - 1;
      assert Eligible(infos[k]);
      var sizes := Sizes(infos[..k]) + [infos[k].size.value];
      assert sizes[..k] == Sizes(infos[..k]);
      sizes
  }

  function Shares(infos: seq<Source>, cfg: Config, total: nat): (shares: seq<nat>)
    requires total > 0 && forall i :: 0 <= i < |infos| ==> Eligible(infos[i])
    ensures |shares| == |infos| && forall i :: 0 <= i < |infos| ==> shares[i] == TargetOf(infos[i], cfg, total)
  {
    seq(|infos|, i requires 0 <= i < |infos| => TargetOf(infos[i], cfg, total))
  }

  lemma {:induction false} SumBelow(a: seq<nat>, b: seq<nat>)
    requires |a| == |b| && forall i :: 0 <= i < |a| ==> a[i] <= b[i]
    ensures Sum(a) <= Sum(b)
  {
    if a != [] {
      SumBelow(a[..|a| - 1], b[..|b| - 1]);
    }
  }

  lemma {:induction false} SamplesScaled(infos: seq<Source>, cfg: Config, total: nat)
    requires total > 0 && forall i :: 0 <= i < |infos| ==> Eligible(infos[i])
    ensures AllChars(SampleAll(infos, cfg, total)) <= Sum(Shares(infos, cfg, total)) <= TotalBytes(infos)
    ensures Budget(cfg) < total ==> Sum(Shares(infos, cfg, total)) * total <= TotalBytes(infos) * Budget(cfg)
  {
    var samples, shares, sizes := SampleAll(infos, cfg, total), Shares(infos, cfg, total), Sizes(infos);
    forall i | 0 <= i < |infos|
      ensures Chars(samples[i]) <= shares[i] <= sizes[i]
      ensures Budget(cfg) < total ==> shares[i] * total <= sizes[i] * Budget(cfg)
    {
      SampleWithin(infos[i], TargetOf(infos[i], cfg, total));
      ShareScaled(infos[i].size.value, Budget(cfg), total, cfg.maxSnippetChars);
    }
    CharsBelow(samples, shares);
    SumBelow(shares, sizes);
    if Budget(cfg) < total {
      SharesScaled(shares, sizes, Budget(cfg), total);
    }
  }

  lemma {:induction false} PrefixBytes(infos: seq<Source>, k: nat)
    requires k <= |infos| && forall i :: 0 <= i < |infos| ==> Eligible(infos[i])
    ensures TotalBytes(infos[..k]) <= TotalBytes(infos)
  {
    if k < |infos| {
      PrefixBytes(infos[..|infos| - 1], k);
      assert infos[..|infos| - 1][..k] == infos[..k];
    } else {
      assert infos[..k] == infos;
    }
  }

  lemma CancelFactor(a: nat, b: nat, t: nat)
    requires t > 0 && a * t <= t * b
    ensures a <= b
  {
    ScaleBelow(b + 1, a, t);
  }

  /** The characters sampled over all files never exceed the budget. */
  lemma {:induction false} BudgetKept(files: seq<Source>, cfg: Config)
    ensures AllChars(Samples(files, cfg)) <= Budget(cfg)
  {
    var infos := Infos(files);
    var total := TotalBytes(infos);
    if Budget(cfg) > 0 && total > 0 {
      var some := Considered(infos, cfg);
      SamplesScaled(some, cfg, total);
      PrefixBytes(infos, |some|);
      assert some == infos[..|some|];
      if Budget(cfg) < total {
        ScaleBelow(TotalBytes(some), total, Budget(cfg));
        CancelFactor(Sum(Shares(some, cfg, total)), Budget(cfg), total);
      }
    }
  }

  /** No file gives more than the limit for one file or than its own size, and the file limit is kept. */
  lemma {:induction false} FileLimitsKept(files: seq<Source>, cfg: Config)
    ensures var samples := Samples(files, cfg);
            && (cfg.maxSnippetFiles > 0 ==> |samples| <= cfg.maxSnippetFiles)
            && |samples| <= |Infos(files)|
            && forall i :: 0 <= i < |samples| ==>
                 && (cfg.maxSnippetChars > 0 ==> Chars(samples[i]) <= cfg.maxSnippetChars)
                 && Chars(samples[i]) <= Infos(files)[i].size.value
  {
    var infos := Infos(files);
    var total := TotalBytes(infos);
    var samples := Samples(files, cfg);
    forall i | 0 <= i < |samples|
      ensures i < |infos| && (cfg.maxSnippetChars > 0 ==> Chars(samples[i]) <= cfg.maxSnippetChars)
      ensures i < |infos| && Chars(samples[i]) <= infos[i].size.value
    {
      SampleWithin(infos[i], TargetOf(infos[i], cfg, total));
      ShareScaled(infos[i].size.value, Budget(cfg), total, cfg.maxSnippetChars);
    }
  }

  lemma {:induction false} WithinTotal(infos: seq<Source>, i: nat)
    requires i < |infos| && forall k :: 0 <= k < |infos| ==> Eligible(infos[k])
    ensures Eligible(infos[i]) && infos[i].size.value <= TotalBytes(infos)
  {
    PrefixBytes(infos, i + 1);
    assert infos[..i + 1][..i] == infos[..i];
  }

  lemma {:induction false} SampledAt(files: seq<Source>, cfg: Config, i: nat)
    requires cfg.maxSnippetFiles == 0 && Budget(cfg) > 0 && TotalBytes(Infos(files)) > 0 && i < |Infos(files)|
    ensures i < |Samples(files, cfg)|
    ensures var f := Infos(files)[i];
            Samples(files, cfg)[i] == SampleOf(f, TargetOf(f, cfg, TotalBytes(Infos(files))))
  {
  }

  /** With enough budget and no limits, every usable text that is not longer than its file is taken whole. */
  lemma {:induction false} WholeWhenEnough(files: seq<Source>, cfg: Config, i: nat)
    requires cfg.maxSnippetChars == 0 && cfg.maxSnippetFiles == 0 && TotalBytes(Infos(files)) <= Budget(cfg)
    requires i < |Infos(files)|
    requires var f := Infos(files)[i]; f.text.Some? && Strip(f.text.value) != [] && |f.text.value| <= f.size.value
    ensures i < |Samples(files, cfg)| && Samples(files, cfg)[i] == [Infos(files)[i].text.value]
  {
    WithinTotal(Infos(files), i);
    SampledAt(files, cfg, i);
  }
}
