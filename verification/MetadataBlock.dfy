/** The metadata comment that the mapper prints in front of a document (chunkhound/code_mapper/metadata.py), its
    removal (chunkhound/autodoc/markdown_utils.py) and its reader (chunkhound/autodoc/site_writer_metadata.py). */
module MetadataBlock {
  import opened Text
  import opened Wrappers

  datatype Value = Scalar(text: string) | Table(entries: seq<Entry>) | Listing(items: seq<Item>)

  datatype Entry = Entry(key: string, value: Value)

  datatype Item = Plain(text: string) | Record(entries: seq<Entry>)

  datatype Setting = Setting(key: string, text: string)

  datatype Metadata = Metadata(
    createdFromSha: string, generatedAt: string, llmConfig: seq<Setting>, generationStats: seq<Entry>)

  // ----- The printer -----

  /** A printed line by its parts; a record line introduces a dictionary inside a list. */
  datatype Line =
    | FieldLine(indent: nat, key: string, text: string)
    | HeadLine(indent: nat, key: string)
    | ItemLine(indent: nat, text: string)
    | RecordLine(indent: nat)

  function Pad(n: nat): string {
    seq(n, _ => ' ')
  }

  function Show(line: Line): string {
    Pad(line.indent) + (match line
                        case FieldLine(_, key, text) => key + ": " + text
                        case HeadLine(_, key) => key + ":"
                        case ItemLine(_, text) => "- " + text
                        case RecordLine(_) => "-")
  }

  function ShowAll(lines: seq<Line>): (shown: seq<string>)
    ensures |shown| == |lines| && forall i :: 0 <= i < |lines| ==> shown[i] == Show(lines[i])
  {
    if lines == [] then [] else [Show(lines[0])] + ShowAll(lines[1..])
  }

  function EmitValue(key: string, value: Value, indent: nat): seq<Line>
    decreases value
  {
    match value
    case Scalar(text) => [FieldLine(indent, key, text)]
    case Table(entries) => [HeadLine(indent, key)] + EmitEntries(entries, indent + 2)
    case Listing(items) => [HeadLine(indent, key)] + EmitItems(items, indent)
  }

  function EmitEntries(entries: seq<Entry>, indent: nat): seq<Line>
    decreases entries
  {
    if entries == [] then []
    else EmitValue(entries[0].key, entries[0].value, indent) + EmitEntries(entries[1..], indent)
  }

  function EmitItems(items: seq<Item>, indent: nat): seq<Line>
    decreases items
  {
    if items == [] then [] else EmitItem(items[0], indent) + EmitItems(items[1..], indent)
  }

  function EmitItem(item: Item, indent: nat): seq<Line>
    decreases item
  {
    match item
    case Plain(text) => [ItemLine(indent + 2, text)]
    case Record(entries) => [RecordLine(indent + 2)] + EmitEntries(entries, indent + 4)
  }

  function SettingLines(settings: seq<Setting>): seq<Line> {
    if settings == [] then []
    else [FieldLine(4, settings[0].key, settings[0].text)] + SettingLines(settings[1..])
  }

  const NO_GIT_HEAD := "NO_GIT_HEAD"

  function ShaLines(meta: Metadata): seq<Line> {
    if meta.createdFromSha != NO_GIT_HEAD then [FieldLine(2, "created_from_sha", meta.createdFromSha)] else []
  }

  function ConfigLines(meta: Metadata): seq<Line> {
    if meta.llmConfig != [] then [HeadLine(2, "llm_config")] + SettingLines(meta.llmConfig) else []
  }

  function StatsLines(meta: Metadata): seq<Line> {
    if meta.generationStats != [] then [HeadLine(2, "generation_stats")] + EmitEntries(meta.generationStats, 4) else []
  }

  /** The lines between the two comment marks. */
  function InnerLines(meta: Metadata): seq<Line> {
    [HeadLine(0, "agent_doc_metadata")] + (ShaLines(meta)
    + ([FieldLine(2, "generated_at", meta.generatedAt)] + (ConfigLines(meta) + StatsLines(meta))))
  }

  /** The whole printed block, up to and including the closing mark. */
  function Comment(lines: seq<string>): string {
    "<!--" + ("\n" + Join(lines, "\n") + "\n") + "-->"
  }

  /** `_emit_value`. */
  method EmitInto(lines: seq<Line>, key: string, value: Value, indent: nat) returns (out: seq<Line>)
    ensures out == lines + EmitValue(key, value, indent)
    decreases value, 1
  {
    out := lines;
    match value
    case Table(entries) =>
      out := EmitEntriesInto(out + [HeadLine(indent, key)], entries, indent + 2);
    case Listing(items) =>
      out := out + [HeadLine(indent, key)];
      for n := 0 to |items|
        invariant out + EmitItems(items[n..], indent) == lines + EmitValue(key, value, indent)
      {
        assert items[n..][0] == items[n] && items[n..][1..] == items[n + 1..];
        match items[n] {
          case Plain(text) => out := out + [ItemLine(indent + 2, text)];
          case Record(entries) => out := EmitEntriesInto(out + [RecordLine(indent + 2)], entries, indent + 4);
        }
      }
    case Scalar(text) => out := out + [FieldLine(indent, key, text)];
  }

  method EmitEntriesInto(lines: seq<Line>, entries: seq<Entry>, indent: nat) returns (out: seq<Line>)
    ensures out == lines + EmitEntries(entries, indent)
    decreases entries, 0
  {
    out := lines;
    for n := 0 to |entries|
      invariant out + EmitEntries(entries[n..], indent) == lines + EmitEntries(entries, indent)
    {
      assert entries[n..][0] == entries[n] && entries[n..][1..] == entries[n + 1..];
      out := EmitInto(out, entries[n].key, entries[n].value, indent);
    }
  }

  method EmitSettingsInto(lines: seq<Line>, settings: seq<Setting>) returns (out: seq<Line>)
    ensures out == lines + SettingLines(settings)
  {
    out := lines;
    for n := 0 to |settings|
      invariant out + SettingLines(settings[n..]) == lines + SettingLines(settings)
    {
      assert settings[n..][0] == settings[n] && settings[n..][1..] == settings[n + 1..];
      out := out + [FieldLine(4, settings[n].key, settings[n].text)];
    }
  }

  /** `format_metadata_block`. */
  method FormatMetadataBlock(meta: Metadata) returns (block: string)
    ensures block == Comment(ShowAll(InnerLines(meta))) + "\n\n"
  {
    ghost var head := [HeadLine(0, "agent_doc_metadata")];
    var lines := [HeadLine(0, "agent_doc_metadata")];
    if meta.createdFromSha != NO_GIT_HEAD {
      lines := lines + [FieldLine(2, "created_from_sha", meta.createdFromSha)];
    }
    assert lines == head + ShaLines(meta);
    lines := lines + [FieldLine(2, "generated_at", meta.generatedAt)];
    ghost var fields := lines;
    if meta.llmConfig != [] {
      lines := EmitSettingsInto(lines + [HeadLine(2, "llm_config")], meta.llmConfig);
    }
    assert lines == fields + ConfigLines(meta);
    if meta.generationStats != [] {
      lines := EmitEntriesInto(lines + [HeadLine(2, "generation_stats")], meta.generationStats, 4);
    }
    assert lines == fields + ConfigLines(meta) + StatsLines(meta);
    InnerFlat(meta);
    JoinComment(ShowAll(lines));
    block := Join(["<!--"] + ShowAll(lines) + ["-->"], "\n") + "\n\n";
  }

  lemma {:induction false} InnerFlat(meta: Metadata)
    ensures [HeadLine(0, "agent_doc_metadata")] + ShaLines(meta) + [FieldLine(2, "generated_at", meta.generatedAt)]
            + ConfigLines(meta) + StatsLines(meta)
            == InnerLines(meta)
  {
    Regroup([HeadLine(0, "agent_doc_metadata")], ShaLines(meta), [FieldLine(2, "generated_at", meta.generatedAt)],
            ConfigLines(meta), StatsLines(meta));
  }

  lemma Regroup(a: seq<Line>, b: seq<Line>, c: seq<Line>, d: seq<Line>, e: seq<Line>)
    ensures a + b + c + d + e == a + (b + (c + (d + e)))
  {
  }

  lemma {:induction false} JoinComment(inner: seq<string>)
    requires inner != []
    ensures Join(["<!--"] + inner + ["-->"], "\n") == Comment(inner)
  {
    var lines := ["<!--"] + inner + ["-->"];
    assert lines[1..] == inner + ["-->"];
    JoinCut(inner + ["-->"], "\n", |inner|);
    assert (inner + ["-->"])[..|inner|] == inner && (inner + ["-->"])[|inner|..] == ["-->"];
    assert Join(["-->"], "\n") == "-->";
    assert Join(lines, "\n") == "<!--" + "\n" + (Join(inner, "\n") + "\n" + "-->");
  }

  // ----- Removing the block -----

  predicate MatchAt(s: string, mark: string, i: nat) {
    i + |mark| <= |s| && s[i..i + |mark|] == mark
  }

  /** `s.find(mark, i)`, with the length of `s` for "not found". */
  function Find(s: string, mark: string, i: nat): (r: nat)
    requires i <= |s| && mark != []
    ensures i <= r <= |s| && (r < |s| ==> MatchAt(s, mark, r))
    ensures forall j :: i <= j < r ==> !MatchAt(s, mark, j)
    decreases |s| - i
  {
    if i == |s| || MatchAt(s, mark, i) then i else Find(s, mark, i + 1)
  }

  function LStripNewlines(s: string): string {
    if s != [] && s[0] == '\n' then LStripNewlines(s[1..]) else s
  }

  function RStripNewlines(s: string): string {
    if s != [] && s[|s| - 1] == '\n' then RStripNewlines(s[..|s| - 1]) else s
  }

  lemma {:induction false} LStripStarts(text: string)
    requires MatchAt(LStrip(text), "<!--", 0)
    ensures exists i: nat :: MatchAt(text, "<!--", i)
  {
    if text != [] && IsSpace(text[0]) {
      LStripStarts(text[1..]);
      var i: nat :| MatchAt(text[1..], "<!--", i);
      assert text[1..][i..i + 4] == text[i + 1..i + 1 + 4];
      assert MatchAt(text, "<!--", i + 1);
    } else {
      assert MatchAt(text, "<!--", 0);
    }
  }

  datatype Stripped = Stripped(metadata: Option<string>, body: string)

  /** `_strip_metadata_block`. */
  function StripMetadataBlock(text: string): Stripped {
    if !MatchAt(LStrip(text), "<!--", 0) then Stripped(None, text)
    else
      var start := Find(text, "<!--", 0);
      LStripStarts(text);
      var end := Find(text, "-->", start + 4);
      if end == |text| then Stripped(None, text)
      else Stripped(Some(Strip(text[start + 4..end])), LStripNewlines(text[end + 3..]))
  }

  // ----- The reader -----

  datatype Sub = SubText(text: string) | SubTable(fields: map<string, string>)

  datatype Node = Text(text: string) | Section(subs: map<string, Sub>)

  type Data = map<string, Node>

  datatype Field = Field(indent: nat, key: string, text: string)

  /** How many blanks `raw.lstrip(" ")` takes away. */
  function Blanks(s: string): (n: nat)
    ensures n <= |s|
  {
    if s != [] && s[0] == ' ' then 1 + Blanks(s[1..]) else 0
  }

  function FirstColon(s: string): (r: nat)
    ensures r <= |s| && (r < |s| ==> s[r] == ':') && (forall j :: 0 <= j < r ==> s[j] != ':')
  {
    if s == [] || s[0] == ':' then 0 else 1 + FirstColon(s[1..])
  }

  /** The key and the value of a stripped line, if it has a colon. */
  function ParseText(indent: nat, stripped: string): Option<Field> {
    var c := FirstColon(stripped);
    if c == |stripped| then None else Some(Field(indent, Strip(stripped[..c]), Strip(stripped[c + 1..])))
  }

  function ParseField(raw: string): Option<Field> {
    ParseText(Blanks(raw), Strip(raw))
  }

  datatype Reader = Reader(data: Data, top: Option<string>, sub: Option<string>)

  /** `data.setdefault(key, {})`. */
  function WithSection(data: Data, key: string): (r: Data)
    ensures key in r
  {
    if key in data then data else data[key := Section(map[])]
  }

  function PutSub(data: Data, top: string, key: string, sub: Sub): Data {
    var data' := WithSection(data, top);
    if data'[top].Section? then data'[top := Section(data'[top].subs[key := sub])] else data'
  }

  function ReadTop(r: Reader, key: string, text: string): Reader {
    Reader(if text != [] then r.data[key := Text(text)] else WithSection(r.data, key), Some(key), None)
  }

  /** A field at indentation 4 below `generation_stats`. */
  function ReadStat(r: Reader, key: string, text: string): Reader {
    var data := WithSection(r.data, "generation_stats");
    var node := data["generation_stats"];
    if !node.Section? then r.(data := data)
    else if text != [] then r.(data := PutSub(data, "generation_stats", key, SubText(text)), sub := None)
    else if key in node.subs then r.(data := data, sub := Some(key))
    else r.(data := PutSub(data, "generation_stats", key, SubTable(map[])), sub := Some(key))
  }

  /** A field at indentation 6 or more below an entry `sub` of `generation_stats`. */
  function ReadDeep(data: Data, sub: string, key: string, text: string): Data {
    var data' := WithSection(data, "generation_stats");
    var node := data'["generation_stats"];
    if !node.Section? then data'
    else
      var table := if sub in node.subs then node.subs[sub] else SubTable(map[]);
      PutSub(data', "generation_stats", sub,
             if table.SubTable? then SubTable(table.fields[key := text]) else table)
  }

  predicate Named(name: Option<string>) {
    name.Some? && name.value != []
  }

  function ReadField(r: Reader, f: Field): Reader {
    if f.indent == 2 then ReadTop(r, f.key, f.text)
    else if f.indent == 4 then
      if r.top == Some("generation_stats") then ReadStat(r, f.key, f.text)
      else if Named(r.top) then r.(data := PutSub(r.data, r.top.value, f.key, SubText(f.text)))
      else r
    else if f.indent >= 6 && r.top == Some("generation_stats") && Named(r.sub) then
      r.(data := ReadDeep(r.data, r.sub.value, f.key, f.text))
    else r
  }

  function ReadLine(r: Reader, raw: string): Reader {
    match ParseField(raw)
    case None => r
    case Some(f) => ReadField(r, f)
  }

  function ReadLines(r: Reader, lines: seq<string>): Reader
    decreases lines
  {
    if lines == [] then r else ReadLines(ReadLine(r, lines[0]), lines[1..])
  }

  const START := Reader(map[], None, None)

  /** `_parse_metadata_block`. */
  method ParseMetadataBlock(metadata: string) returns (data: Data)
    ensures data == ReadLines(START, SplitLines(metadata)).data
  {
    var lines := SplitLines(metadata);
    data := map[];
    var currentTop: Option<string>, currentSub: Option<string> := None, None;
    for n := 0 to |lines|
      invariant ReadLines(Reader(data, currentTop, currentSub), lines[n..]) == ReadLines(START, lines)
    {
      assert lines[n..][0] == lines[n] && lines[n..][1..] == lines[n + 1..];
      var parsed := ParseField(lines[n]);
      if parsed.None? {
        continue;
      }
      var Field(indent, key, text) := parsed.value;
      if indent == 2 {
        currentTop, currentSub := Some(key), None;
        data := if text != [] then data[key := Text(text)] else WithSection(data, key);
        continue;
      }
      if indent == 4 {
        if currentTop == Some("generation_stats") {
          var next := ReadStat(Reader(data, currentTop, currentSub), key, text);
          data, currentSub := next.data, next.sub;
        } else if Named(currentTop) {
          data := PutSub(data, currentTop.value, key, SubText(text));
        }
        continue;
      }
      if indent >= 6 && currentTop == Some("generation_stats") && Named(currentSub) {
        data := ReadDeep(data, currentSub.value, key, text);
      }
    }
  }
}
