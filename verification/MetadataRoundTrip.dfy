/** The printed metadata block survives removal from its document and reading. */
module MetadataRoundTrip {
  import opened Text
  import opened Wrappers
  import opened MetadataBlock
  import opened MetadataLaws
  import opened MetadataFidelity

  // ----- Every printed line is one clean line -----

  lemma {:induction false} EmittedValueClean(key: string, value: Value, indent: nat)
    requires CleanKey(key) && CleanValue(value)
    ensures CleanLines(EmitValue(key, value, indent))
    decreases value, 1
  {
    match value
    case Scalar(_) =>
    case Table(entries) => EmittedEntriesClean(entries, indent + 2);
    case Listing(items) => EmittedItemsClean(items, indent);
  }

  lemma {:induction false} EmittedEntriesClean(entries: seq<Entry>, indent: nat)
    requires CleanEntries(entries)
    ensures CleanLines(EmitEntries(entries, indent))
    decreases entries, 0
  {
    if entries != [] {
      EmittedValueClean(entries[0].key, entries[0].value, indent);
      EmittedEntriesClean(entries[1..], indent);
    }
  }

  lemma {:induction false} EmittedItemsClean(items: seq<Item>, indent: nat)
    requires CleanItems(items)
    ensures CleanLines(EmitItems(items, indent))
    decreases items, 0
  {
    if items != [] {
      if items[0].Record? {
        EmittedEntriesClean(items[0].entries, indent + 4);
      }
      assert CleanLines(EmitItem(items[0], indent));
      EmittedItemsClean(items[1..], indent);
    }
  }

  lemma {:induction false} SettingLinesClean(settings: seq<Setting>)
    requires CleanSettings(settings)
    ensures CleanLines(SettingLines(settings))
  {
    if settings != [] {
      SettingLinesClean(settings[1..]);
    }
  }

  lemma {:induction false} InnerLinesClean(meta: Metadata)
    requires WellFormed(meta)
    ensures CleanLines(InnerLines(meta))
  {
    FixedKeysClean();
    SettingLinesClean(meta.llmConfig);
    EmittedEntriesClean(meta.generationStats, 4);
    assert CleanLines(ShaLines(meta)) && CleanLines(ConfigLines(meta)) && CleanLines(StatsLines(meta));
  }

  /** A text that may be put between line feeds. */
  predicate Solid(s: string) {
    s != [] && SingleLine(s) && NoClose(s) && !IsSpace(s[|s| - 1])
  }

  lemma {:induction false} NoCloseAcross(a: string, c: char, b: string)
    requires NoClose(a) && NoClose(b) && c != '-' && c != '>'
    ensures NoClose(a + [c] + b)
  {
    var s := a + [c] + b;
    forall i | 0 <= i < |s| - 2
      ensures !(s[i] == '-' && s[i + 1] == '-' && s[i + 2] == '>')
    {
      if i > |a| {
        var k := i - |a| - 1;
        assert s[i] == b[k] && s[i + 1] == b[k + 1] && s[i + 2] == b[k + 2];
      }
    }
  }

  lemma {:induction false} PaddedSolid(indent: nat, text: string)
    requires Solid(text)
    ensures Solid(Pad(indent) + text)
  {
    var s := Pad(indent) + text;
    forall i | 0 <= i < |s| - 2
      ensures !(s[i] == '-' && s[i + 1] == '-' && s[i + 2] == '>')
    {
      if i >= indent {
        var k := i - indent;
        assert s[i] == text[k] && s[i + 1] == text[k + 1] && s[i + 2] == text[k + 2];
      }
    }
  }

  lemma {:induction false} FieldSolid(key: string, text: string)
    requires CleanKey(key) && Clean(text)
    ensures Solid(key + ": " + text)
  {
    NoCloseAcross([], ' ', text);
    assert [] + [' '] + text == " " + text;
    NoCloseAcross(key, ':', " " + text);
    assert key + [':'] + (" " + text) == key + ": " + text;
  }

  lemma {:induction false} ItemSolid(text: string)
    requires Clean(text)
    ensures Solid("- " + text)
  {
    NoCloseAcross("-", ' ', text);
    assert "-" + [' '] + text == "- " + text;
  }

  lemma {:induction false} ShownSolid(line: Line)
    requires CleanLine(line)
    ensures Solid(Show(line))
  {
    match line
    case FieldLine(indent, key, text) =>
      FieldSolid(key, text);
      PaddedSolid(indent, key + ": " + text);
    case HeadLine(indent, key) =>
      NoCloseAcross(key, ':', []);
      assert key + [':'] + [] == key + ":";
      PaddedSolid(indent, key + ":");
    case ItemLine(indent, text) =>
      ItemSolid(text);
      PaddedSolid(indent, "- " + text);
    case RecordLine(indent) =>
      PaddedSolid(indent, "-");
  }

  predicate AllSolid(lines: seq<string>) {
    forall i :: 0 <= i < |lines| ==> Solid(lines[i])
  }

  lemma {:induction false} JoinSolid(lines: seq<string>)
    requires lines != [] && AllSolid(lines)
    ensures var s := Join(lines, "\n"); s != [] && NoClose(s) && s[0] == lines[0][0] && !IsSpace(s[|s| - 1])
  {
    if |lines| > 1 {
      JoinSolid(lines[1..]);
      NoCloseAcross(lines[0], '\n', Join(lines[1..], "\n"));
    }
  }

  // ----- Removing the comment -----

  lemma {:induction false} FirstMatch(s: string, mark: string, i: nat, k: nat)
    requires mark != [] && i <= k && MatchAt(s, mark, k)
    requires forall j :: i <= j < k ==> !MatchAt(s, mark, j)
    ensures Find(s, mark, i) == k
  {
    assert Find(s, mark, i) <= k;
  }

  lemma CloseCharacters(s: string, i: nat)
    ensures MatchAt(s, "-->", i) ==> i + 2 < |s| && s[i] == '-' && s[i + 1] == '-' && s[i + 2] == '>'
  {
    if i + 3 <= |s| {
      var w := s[i..i + 3];
      assert s[i] == w[0] && s[i + 1] == w[1] && s[i + 2] == w[2];
    }
  }

  /** The first closing mark is the one that ends the comment. */
  lemma {:induction false} CloseFound(inner: string, tail: string)
    requires NoClose(inner)
    ensures var text := "<!--" + ("\n" + inner + "\n") + "-->" + tail;
            Find(text, "-->", 4) == |inner| + 6
  {
    var text := "<!--" + ("\n" + inner + "\n") + "-->" + tail;
    var k := |inner| + 6;
    assert text[k..k + 3] == "-->";
    assert forall i :: 0 <= i < |inner| ==> text[i + 5] == inner[i];
    forall j | 4 <= j < k
      ensures !MatchAt(text, "-->", j)
    {
      assert text[4] == '\n' && text[|inner| + 5] == '\n';
      CloseCharacters(text, j);
      if 5 <= j && j + 2 < |inner| + 5 {
        assert inner[j - 5] == text[j] && inner[j - 4] == text[j + 1] && inner[j - 3] == text[j + 2];
      }
    }
    FirstMatch(text, "-->", 4, k);
  }

  lemma {:induction false} StripBreaks(s: string)
    requires Trimmed(s)
    ensures Strip("\n" + s + "\n") == s
  {
    var u := "\n" + s + "\n";
    assert u[1..] == s + "\n";
    assert LStrip(u) == LStrip(u[1..]) == s + "\n";
    assert (s + "\n")[..|s|] == s;
    assert RStrip(s + "\n") == RStrip(s) == s;
  }

  /** A document that does not begin with a comment, or in which none is closed, is left as it is. */
  lemma UncommentedKept(text: string)
    ensures !("<!--" <= LStrip(text)) || (forall i :: 0 <= i <= |text| ==> !MatchAt(text, "-->", i))
            ==> StripMetadataBlock(text) == Stripped(None, text)
  {
  }

  /** Removing the comment gives exactly its inner text, and leaves exactly what follows it. */
  lemma {:induction false} CommentRemoved(lines: seq<string>, tail: string)
    requires lines != [] && AllSolid(lines) && !IsSpace(lines[0][0])
    ensures StripMetadataBlock(Comment(lines) + tail) == Stripped(Some(Join(lines, "\n")), LStripNewlines(tail))
  {
    var inner := Join(lines, "\n");
    var text := Comment(lines) + tail;
    JoinSolid(lines);
    assert text == "<!--" + ("\n" + inner + "\n") + "-->" + tail;
    CloseFound(inner, tail);
    assert LStrip(text) == text && text[0..4] == "<!--";
    assert MatchAt(text, "<!--", 0);
    FirstMatch(text, "<!--", 0, 0);
    assert text[4..|inner| + 6] == "\n" + inner + "\n";
    StripBreaks(inner);
    assert text[|inner| + 6 + 3..] == tail;
  }

  // ----- The round trip -----

  /** Whatever follows the printed block, removing it gives a text that reads back as the metadata expects, and
      leaves the document behind it. */
  lemma {:induction false} MetadataReadBack(meta: Metadata, tail: string)
    requires WellFormed(meta)
    ensures var s := StripMetadataBlock(Comment(ShowAll(InnerLines(meta))) + tail);
            && s.metadata.Some? && s.body == LStripNewlines(tail)
            && ReadLines(START, SplitLines(s.metadata.value)).data == Expected(meta)
  {
    var lines := InnerLines(meta);
    var shown := ShowAll(lines);
    InnerLinesClean(meta);
    forall i | 0 <= i < |shown|
      ensures Solid(shown[i])
    {
      ShownSolid(lines[i]);
    }
    assert shown[0] == Show(HeadLine(0, "agent_doc_metadata"));
    assert shown[0][0] == "agent_doc_metadata"[0];
    CommentRemoved(shown, tail);
    SplitJoinedLinesExact(shown);
    ReadShown(START, lines);
    InnerLinesRead(meta);
  }

  // ----- What the expected data holds, entry by entry -----

  lemma {:induction false} ConfigHolds(subs: map<string, Sub>, settings: seq<Setting>, k: string)
    requires DistinctSettings(settings)
    ensures k in ConfigSubs(subs, settings) <==> k in subs || exists i :: 0 <= i < |settings| && settings[i].key == k
    ensures k in subs && (forall i :: 0 <= i < |settings| ==> settings[i].key != k)
            ==> ConfigSubs(subs, settings)[k] == subs[k]
    ensures forall i :: 0 <= i < |settings| && settings[i].key == k ==>
              ConfigSubs(subs, settings)[k] == SubText(settings[i].text)
    decreases settings
  {
    if settings != [] {
      ConfigHolds(subs[settings[0].key := SubText(settings[0].text)], settings[1..], k);
      assert forall i :: 1 <= i < |settings| ==> settings[i] == settings[1..][i - 1];
    }
  }

  lemma {:induction false} StatHolds(subs: map<string, Sub>, entries: seq<Entry>, k: string)
    requires DistinctKeys(entries)
    ensures k in StatSubs(subs, entries) <==> k in subs || exists i :: 0 <= i < |entries| && entries[i].key == k
    ensures k in subs && (forall i :: 0 <= i < |entries| ==> entries[i].key != k)
            ==> StatSubs(subs, entries)[k] == subs[k]
    ensures forall i :: 0 <= i < |entries| && entries[i].key == k ==>
              StatSubs(subs, entries)[k] == ReadBack(entries[i].value)
    decreases entries
  {
    if entries != [] {
      StatHolds(subs[entries[0].key := ReadBack(entries[0].value)], entries[1..], k);
      assert forall i :: 1 <= i < |entries| ==> entries[i] == entries[1..][i - 1];
    }
  }

  /** The section holds one text per setting and nothing else. */
  predicate HoldsSettings(subs: map<string, Sub>, settings: seq<Setting>) {
    && (forall i :: 0 <= i < |settings| ==>
          settings[i].key in subs && subs[settings[i].key] == SubText(settings[i].text))
    && (forall k :: k in subs ==> exists i :: 0 <= i < |settings| && settings[i].key == k)
  }

  /** The parsed data for one statistic is faithful exactly when the statistic is flat. */
  predicate StandsFor(sub: Sub, value: Value) {
    (value.Table? ==> DistinctKeys(value.entries)) ==> (Faithful(sub, value) <==> Flat(value))
  }

  predicate HoldsStats(subs: map<string, Sub>, entries: seq<Entry>) {
    && (forall i :: 0 <= i < |entries| ==>
          entries[i].key in subs && StandsFor(subs[entries[i].key], entries[i].value))
    && (forall k :: k in subs ==> exists i :: 0 <= i < |entries| && entries[i].key == k)
  }

  lemma {:induction false} ConfigMeaning(settings: seq<Setting>)
    requires DistinctSettings(settings)
    ensures HoldsSettings(ConfigSubs(map[], settings), settings)
  {
    var subs := ConfigSubs(map[], settings);
    forall i | 0 <= i < |settings|
      ensures settings[i].key in subs && subs[settings[i].key] == SubText(settings[i].text)
    {
      ConfigHolds(map[], settings, settings[i].key);
    }
    forall k | k in subs
      ensures exists i :: 0 <= i < |settings| && settings[i].key == k
    {
      ConfigHolds(map[], settings, k);
    }
  }

  lemma {:induction false} StatsMeaning(entries: seq<Entry>)
    requires DistinctKeys(entries)
    ensures HoldsStats(StatSubs(map[], entries), entries)
  {
    var subs := StatSubs(map[], entries);
    forall i | 0 <= i < |entries|
      ensures entries[i].key in subs && StandsFor(subs[entries[i].key], entries[i].value)
    {
      StatHolds(map[], entries, entries[i].key);
      if entries[i].value.Table? ==> DistinctKeys(entries[i].value.entries) {
        FaithfulExactlyWhen(entries[i].value);
      }
    }
    forall k | k in subs
      ensures exists i :: 0 <= i < |entries| && entries[i].key == k
    {
      StatHolds(map[], entries, k);
    }
  }

  /** The parsed data says exactly what the metadata says. */
  predicate Says(data: Data, meta: Metadata) {
    && "generated_at" in data && data["generated_at"] == Text(meta.generatedAt)
    && ("created_from_sha" in data <==> meta.createdFromSha != NO_GIT_HEAD)
    && ("created_from_sha" in data ==> data["created_from_sha"] == Text(meta.createdFromSha))
    && ("llm_config" in data <==> meta.llmConfig != [])
    && ("llm_config" in data ==> data["llm_config"].Section? && HoldsSettings(data["llm_config"].subs, meta.llmConfig))
    && ("generation_stats" in data <==> meta.generationStats != [])
    && ("generation_stats" in data ==>
          data["generation_stats"].Section? && HoldsStats(data["generation_stats"].subs, meta.generationStats))
    && data.Keys <= {"generated_at", "created_from_sha", "llm_config", "generation_stats"}
  }

  lemma FixedKeysDiffer()
    ensures "generated_at" != "created_from_sha" && "generated_at" != "llm_config"
    ensures "generated_at" != "generation_stats"
    ensures "created_from_sha" != "llm_config" && "created_from_sha" != "generation_stats"
    ensures "llm_config" != "generation_stats"
  {
    assert |"created_from_sha"| == 16 && |"generated_at"| == 12 && |"llm_config"| == 10;
    assert "created_from_sha"[0] != "generation_stats"[0] && |"generation_stats"| == 16;
  }

  /** One field, perhaps another, and perhaps two sections, under four different names. */
  function Layered(base: Data, a: string, field: Node, c: string, first: Option<Node>,
                   d: string, second: Option<Node>): Data
  {
    var m := base[a := field];
    var m' := if first.Some? then m[c := first.value] else m;
    if second.Some? then m'[d := second.value] else m'
  }

  lemma LayeredLookup(base: Data, a: string, field: Node, b: string, c: string, first: Option<Node>,
                      d: string, second: Option<Node>)
    requires a != b && a != c && a != d && b != c && b != d && c != d && base.Keys <= {b}
    ensures var m := Layered(base, a, field, c, first, d, second);
            && a in m && m[a] == field
            && (b in m <==> b in base) && (b in m ==> m[b] == base[b])
            && (c in m <==> first.Some?) && (c in m ==> m[c] == first.value)
            && (d in m <==> second.Some?) && (d in m ==> m[d] == second.value)
            && m.Keys <= {a, b, c, d}
  {
  }

  function ShaField(meta: Metadata): Data {
    if meta.createdFromSha != NO_GIT_HEAD then map["created_from_sha" := Text(meta.createdFromSha)] else map[]
  }

  lemma {:induction false} ExpectedLayered(meta: Metadata, base: Data, first: Option<Node>, second: Option<Node>)
    requires base == ShaField(meta)
    requires first == if meta.llmConfig == [] then None else Some(Section(ConfigSubs(map[], meta.llmConfig)))
    requires second == if meta.generationStats == [] then None else Some(Section(StatSubs(map[], meta.generationStats)))
    ensures Expected(meta)
            == Layered(base, "generated_at", Text(meta.generatedAt), "llm_config", first, "generation_stats", second)
  {
  }

  lemma {:induction false} ExpectedSays(meta: Metadata)
    requires WellFormed(meta)
    ensures Says(Expected(meta), meta)
  {
    var base := ShaField(meta);
    var first := if meta.llmConfig == [] then None else Some(Section(ConfigSubs(map[], meta.llmConfig)));
    var second := if meta.generationStats == [] then None else Some(Section(StatSubs(map[], meta.generationStats)));
    ExpectedLayered(meta, base, first, second);
    FixedKeysDiffer();
    LayeredLookup(base, "generated_at", Text(meta.generatedAt), "created_from_sha", "llm_config", first,
                  "generation_stats", second);
    ConfigMeaning(meta.llmConfig);
    StatsMeaning(meta.generationStats);
  }

  /** Every top-level field, every model setting and every flat statistic comes back, no other statistic does, and
      the document behind the block is left alone. */
  lemma {:induction false} MetadataComesBack(meta: Metadata, tail: string)
    requires WellFormed(meta)
    ensures var s := StripMetadataBlock(Comment(ShowAll(InnerLines(meta))) + tail);
            && s.metadata.Some? && s.body == LStripNewlines(tail)
            && Says(ReadLines(START, SplitLines(s.metadata.value)).data, meta)
  {
    MetadataReadBack(meta, tail);
    ExpectedSays(meta);
  }
}
