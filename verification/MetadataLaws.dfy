/** Reading back the printed metadata block. */
module MetadataLaws {
  import opened Text
  import opened Wrappers
  import opened MetadataBlock

  /** Nowhere the mark that ends a comment. */
  predicate NoClose(s: string) {
    forall i :: 0 <= i < |s| - 2 ==> !(s[i] == '-' && s[i + 1] == '-' && s[i + 2] == '>')
  }

  predicate Clean(s: string) {
    Trimmed(s) && SingleLine(s) && NoClose(s)
  }

  predicate CleanKey(s: string) {
    Clean(s) && ':' !in s
  }

  predicate CleanValue(value: Value) {
    match value
    case Scalar(text) => Clean(text)
    case Table(entries) => CleanEntries(entries)
    case Listing(items) => CleanItems(items)
  }

  predicate CleanEntries(entries: seq<Entry>) {
    forall i :: 0 <= i < |entries| ==> CleanKey(entries[i].key) && CleanValue(entries[i].value)
  }

  predicate CleanItem(item: Item) {
    match item
    case Plain(text) => Clean(text)
    case Record(entries) => CleanEntries(entries)
  }

  predicate CleanItems(items: seq<Item>) {
    forall i :: 0 <= i < |items| ==> CleanItem(items[i])
  }

  predicate CleanSettings(settings: seq<Setting>) {
    forall i :: 0 <= i < |settings| ==> CleanKey(settings[i].key) && Clean(settings[i].text)
  }

  predicate CleanMetadata(meta: Metadata) {
    && Clean(meta.createdFromSha) && Clean(meta.generatedAt)
    && CleanSettings(meta.llmConfig) && CleanEntries(meta.generationStats)
  }

  // ----- What comes back, computed from the metadata alone -----

  /** The scalars below a value in order, with an empty text for every name of a nested collection. */
  function FlatValue(key: string, value: Value): seq<Setting>
    decreases value
  {
    match value
    case Scalar(text) => [Setting(key, text)]
    case Table(entries) => [Setting(key, "")] + FlatEntries(entries)
    case Listing(items) => [Setting(key, "")] + FlatItems(items)
  }

  function FlatEntries(entries: seq<Entry>): seq<Setting>
    decreases entries
  {
    if entries == [] then [] else FlatValue(entries[0].key, entries[0].value) + FlatEntries(entries[1..])
  }

  function FlatItems(items: seq<Item>): seq<Setting>
    decreases items
  {
    if items == [] then [] else FlatItem(items[0]) + FlatItems(items[1..])
  }

  /** A plain item has no name and is lost, unless it holds a colon: then what is before it, dash included, is taken
      for a name. */
  function FlatItem(item: Item): seq<Setting>
    decreases item
  {
    match item
    case Plain(text) =>
      var c := FirstColon(text);
      if c == |text| then [] else [Setting(Strip("- " + text[..c]), Strip(text[c + 1..]))]
    case Record(entries) => FlatEntries(entries)
  }

  /** The fields with the settings written over them in order. */
  function Written(fields: map<string, string>, settings: seq<Setting>): map<string, string>
    decreases settings
  {
    if settings == [] then fields else Written(fields[settings[0].key := settings[0].text], settings[1..])
  }

  function ReadBack(value: Value): Sub {
    match value
    case Scalar(text) => SubText(text)
    case Table(entries) => SubTable(Written(map[], FlatEntries(entries)))
    case Listing(items) => SubTable(Written(map[], FlatItems(items)))
  }

  function StatSubs(subs: map<string, Sub>, entries: seq<Entry>): map<string, Sub>
    decreases entries
  {
    if entries == [] then subs else StatSubs(subs[entries[0].key := ReadBack(entries[0].value)], entries[1..])
  }

  function ConfigSubs(subs: map<string, Sub>, settings: seq<Setting>): map<string, Sub>
    decreases settings
  {
    if settings == [] then subs else ConfigSubs(subs[settings[0].key := SubText(settings[0].text)], settings[1..])
  }

  function TopFields(meta: Metadata): Data {
    (if meta.createdFromSha != NO_GIT_HEAD then map["created_from_sha" := Text(meta.createdFromSha)] else map[])
      ["generated_at" := Text(meta.generatedAt)]
  }

  function WithConfig(meta: Metadata): Data {
    if meta.llmConfig == [] then TopFields(meta)
    else TopFields(meta)["llm_config" := Section(ConfigSubs(map[], meta.llmConfig))]
  }

  function Expected(meta: Metadata): Data {
    if meta.generationStats == [] then WithConfig(meta)
    else WithConfig(meta)["generation_stats" := Section(StatSubs(map[], meta.generationStats))]
  }

  // ----- One line -----

  predicate CleanLine(line: Line) {
    match line
    case FieldLine(_, key, text) => CleanKey(key) && Clean(text)
    case HeadLine(_, key) => CleanKey(key)
    case ItemLine(_, text) => Clean(text)
    case RecordLine(_) => true
  }

  predicate CleanLines(lines: seq<Line>) {
    forall i :: 0 <= i < |lines| ==> CleanLine(lines[i])
  }

  /** The field that a line stands for, if any. */
  function Meaning(line: Line): Option<Field> {
    match line
    case FieldLine(indent, key, text) => Some(Field(indent, key, text))
    case HeadLine(indent, key) => Some(Field(indent, key, ""))
    case ItemLine(indent, text) =>
      var c := FirstColon(text);
      if c == |text| then None else Some(Field(indent, Strip("- " + text[..c]), Strip(text[c + 1..])))
    case RecordLine(_) => None
  }

  lemma {:induction false} Padded(n: nat, text: string)
    requires text != [] && !IsSpace(text[0])
    ensures Blanks(Pad(n) + text) == n && LStrip(Pad(n) + text) == text
  {
    if n == 0 {
      assert Pad(n) + text == text;
    } else {
      assert (Pad(n) + text)[1..] == Pad(n - 1) + text;
      Padded(n - 1, text);
    }
  }

  lemma ColonAfter(key: string, rest: string)
    requires ':' !in key
    ensures FirstColon(key + ":" + rest) == |key|
  {
    var s := key + ":" + rest;
    assert s[|key|] == ':';
    assert forall i :: 0 <= i < |key| ==> s[i] == key[i];
  }

  lemma {:induction false} PaddedParsed(indent: nat, t: string)
    requires Trimmed(t)
    ensures ParseField(Pad(indent) + t) == ParseText(indent, t)
  {
    Padded(indent, t);
    StripTrimmed(t);
  }

  lemma {:induction false} FieldParsed(indent: nat, key: string, text: string)
    requires ':' !in key && NothingToStrip(key) && Trimmed(text)
    ensures ParseText(indent, key + ": " + text) == Some(Field(indent, key, text))
  {
    var t := key + ": " + text;
    var value := " " + text;
    assert t == key + ":" + value;
    ColonAfter(key, value);
    assert t[..|key|] == key && t[|key| + 1..] == value;
    assert Strip(key) == key;
    StripAfterSpace(text);
  }

  lemma {:induction false} HeadParsed(indent: nat, key: string)
    requires ':' !in key && NothingToStrip(key)
    ensures ParseText(indent, key + ":") == Some(Field(indent, key, ""))
  {
    var t := key + ":";
    assert t == key + ":" + "";
    ColonAfter(key, "");
    assert t[..|key|] == key && t[|key| + 1..] == "";
    assert Strip(key) == key;
  }

  /** A line that ends with the blank behind the colon is stripped to one that ends with the colon. */
  lemma {:induction false} BlankValue(indent: nat, key: string)
    requires NothingToStrip(key)
    ensures Blanks(Pad(indent) + (key + ": " + "")) == indent && Strip(Pad(indent) + (key + ": " + "")) == key + ":"
  {
    var t := key + ": " + "";
    Padded(indent, t);
    assert t[..|t| - 1] == key + ":";
    assert RStrip(t) == RStrip(key + ":") == key + ":";
  }

  lemma {:induction false} FieldLineParsed(indent: nat, key: string, text: string)
    requires ':' !in key && NothingToStrip(key) && NothingToStrip(text)
    ensures ParseField(Pad(indent) + (key + ": " + text)) == Some(Field(indent, key, text))
  {
    if text == [] {
      BlankValue(indent, key);
      HeadParsed(indent, key);
    } else {
      FieldParsed(indent, key, text);
      PaddedParsed(indent, key + ": " + text);
    }
  }

  /** What the reader takes for a key has no colon, and neither key nor value has anything left to strip. */
  lemma {:induction false} ParsedShape(raw: string)
    requires ParseField(raw).Some?
    ensures var f := ParseField(raw).value; ':' !in f.key && NothingToStrip(f.key) && NothingToStrip(f.text)
  {
    var stripped := Strip(raw);
    var c := FirstColon(stripped);
    assert ':' !in stripped[..c];
    StripMeaning(stripped[..c]);
    StripMeaning(stripped[c + 1..]);
  }

  /** A printed field line is read back if and only if its key has no colon and neither key nor value has white space
      at an end. */
  lemma {:induction false} FieldLineReadBackExactlyWhen(indent: nat, key: string, text: string)
    ensures ParseField(Show(FieldLine(indent, key, text))) == Some(Field(indent, key, text))
            <==> ':' !in key && NothingToStrip(key) && NothingToStrip(text)
  {
    assert Show(FieldLine(indent, key, text)) == Pad(indent) + (key + ": " + text);
    if ':' !in key && NothingToStrip(key) && NothingToStrip(text) {
      FieldLineParsed(indent, key, text);
    } else if ParseField(Show(FieldLine(indent, key, text))).Some? {
      ParsedShape(Show(FieldLine(indent, key, text)));
    }
  }

  lemma {:induction false} HeadLineParsed(indent: nat, key: string)
    requires CleanKey(key)
    ensures ParseField(Pad(indent) + (key + ":")) == Some(Field(indent, key, ""))
  {
    HeadParsed(indent, key);
    PaddedParsed(indent, key + ":");
  }

  lemma {:induction false} ColonShifts(front: string, text: string)
    requires ':' !in front
    ensures FirstColon(front + text) == |front| + FirstColon(text)
  {
    if front == [] {
      assert front + text == text;
    } else {
      assert (front + text)[1..] == front[1..] + text;
      assert front[0] in front;
      ColonShifts(front[1..], text);
    }
  }

  lemma {:induction false} ShiftedParsed(indent: nat, front: string, text: string, c: nat)
    requires ':' !in front && c == FirstColon(text)
    ensures ParseText(indent, front + text)
            == if c == |text| then None else Some(Field(indent, Strip(front + text[..c]), Strip(text[c + 1..])))
  {
    var t := front + text;
    ColonShifts(front, text);
    if c < |text| {
      var k := |front| + c;
      assert t[..k] == front + text[..c];
      assert t[k + 1..] == text[c + 1..];
    }
  }

  lemma {:induction false} ItemParsed(indent: nat, text: string)
    ensures ParseText(indent, "- " + text) == Meaning(ItemLine(indent, text))
  {
    ShiftedParsed(indent, "- ", text, FirstColon(text));
  }

  lemma {:induction false} ItemLineParsed(indent: nat, text: string)
    requires Clean(text)
    ensures ParseField(Pad(indent) + ("- " + text)) == Meaning(ItemLine(indent, text))
  {
    ItemParsed(indent, text);
    PaddedParsed(indent, "- " + text);
  }

  lemma {:induction false} RecordLineParsed(indent: nat)
    ensures ParseField(Pad(indent) + "-") == None
  {
    assert "-"[1..] == "";
    PaddedParsed(indent, "-");
  }

  lemma {:induction false} LineParsed(line: Line)
    requires CleanLine(line)
    ensures ParseField(Show(line)) == Meaning(line)
  {
    match line
    case FieldLine(indent, key, text) => FieldLineReadBackExactlyWhen(indent, key, text);
    case HeadLine(indent, key) => HeadLineParsed(indent, key);
    case ItemLine(indent, text) => ItemLineParsed(indent, text);
    case RecordLine(indent) => RecordLineParsed(indent);
  }

  // ----- Folding over the lines -----

  function Step(r: Reader, line: Line): Reader {
    match Meaning(line)
    case None => r
    case Some(f) => ReadField(r, f)
  }

  function Fold(r: Reader, lines: seq<Line>): Reader
    decreases lines
  {
    if lines == [] then r else Fold(Step(r, lines[0]), lines[1..])
  }

  lemma {:induction false} ReadShown(r: Reader, lines: seq<Line>)
    requires CleanLines(lines)
    ensures ReadLines(r, ShowAll(lines)) == Fold(r, lines)
    decreases lines
  {
    if lines != [] {
      LineParsed(lines[0]);
      var shown := ShowAll(lines);
      assert shown[1..] == ShowAll(lines[1..]);
      assert ReadLine(r, shown[0]) == Step(r, lines[0]);
      ReadShown(Step(r, lines[0]), lines[1..]);
    }
  }

  lemma {:induction false} FoldAppend(r: Reader, a: seq<Line>, b: seq<Line>)
    ensures Fold(r, a + b) == Fold(Fold(r, a), b)
    decreases a
  {
    if a == [] {
      assert a + b == b;
    } else {
      assert (a + b)[1..] == a[1..] + b && (a + b)[0] == a[0];
      FoldAppend(Step(r, a[0]), a[1..], b);
    }
  }

  lemma {:induction false} FoldOne(r: Reader, line: Line, rest: seq<Line>)
    ensures Fold(r, [line] + rest) == Fold(Step(r, line), rest)
    ensures Fold(r, [line]) == Step(r, line)
  {
    assert ([line] + rest)[1..] == rest && [line][1..] == [];
  }

  lemma {:induction false} WrittenAppend(fields: map<string, string>, a: seq<Setting>, b: seq<Setting>)
    ensures Written(fields, a + b) == Written(Written(fields, a), b)
    decreases a
  {
    if a == [] {
      assert a + b == b;
    } else {
      assert (a + b)[1..] == a[1..] + b && (a + b)[0] == a[0];
      WrittenAppend(fields[a[0].key := a[0].text], a[1..], b);
    }
  }

  lemma {:induction false} WrittenOne(fields: map<string, string>, s: Setting, rest: seq<Setting>)
    ensures Written(fields, [s] + rest) == Written(fields[s.key := s.text], rest)
  {
    assert ([s] + rest)[1..] == rest;
  }

  /** The reader inside the table `key` of the statistics. */
  function Inside(data: Data, subs: map<string, Sub>, key: string, fields: map<string, string>): Reader {
    Reader(data["generation_stats" := Section(subs[key := SubTable(fields)])], Some("generation_stats"), Some(key))
  }

  lemma {:induction false} DeepField(data: Data, subs: map<string, Sub>, key: string, fields: map<string, string>,
                                     f: Field)
    requires key != [] && f.indent >= 6
    ensures ReadField(Inside(data, subs, key, fields), f) == Inside(data, subs, key, fields[f.key := f.text])
  {
    var r := Inside(data, subs, key, fields);
    var table := SubTable(fields[f.key := f.text]);
    assert subs[key := SubTable(fields)][key := table] == subs[key := table];
    var section := Section(subs[key := table]);
    assert r.data["generation_stats" := section] == data["generation_stats" := section];
  }

  lemma {:induction false} DeepValue(data: Data, subs: map<string, Sub>, key: string, fields: map<string, string>,
                                     name: string, value: Value, indent: nat)
    requires key != [] && indent >= 6
    ensures Fold(Inside(data, subs, key, fields), EmitValue(name, value, indent))
            == Inside(data, subs, key, Written(fields, FlatValue(name, value)))
    decreases value, 1
  {
    var r := Inside(data, subs, key, fields);
    match value
    case Scalar(text) =>
      DeepField(data, subs, key, fields, Field(indent, name, text));
      FoldOne(r, FieldLine(indent, name, text), []);
      assert [Setting(name, text)] == [Setting(name, text)] + [];
      WrittenOne(fields, Setting(name, text), []);
    case Table(entries) =>
      DeepField(data, subs, key, fields, Field(indent, name, ""));
      FoldOne(r, HeadLine(indent, name), EmitEntries(entries, indent + 2));
      DeepEntries(data, subs, key, fields[name := ""], entries, indent + 2);
      WrittenOne(fields, Setting(name, ""), FlatEntries(entries));
    case Listing(items) =>
      DeepField(data, subs, key, fields, Field(indent, name, ""));
      FoldOne(r, HeadLine(indent, name), EmitItems(items, indent));
      DeepItems(data, subs, key, fields[name := ""], items, indent);
      WrittenOne(fields, Setting(name, ""), FlatItems(items));
  }

  lemma {:induction false} DeepEntries(data: Data, subs: map<string, Sub>, key: string, fields: map<string, string>,
                                       entries: seq<Entry>, indent: nat)
    requires key != [] && indent >= 6
    ensures Fold(Inside(data, subs, key, fields), EmitEntries(entries, indent))
            == Inside(data, subs, key, Written(fields, FlatEntries(entries)))
    decreases entries, 0
  {
    if entries != [] {
      var Entry(name, value) := entries[0];
      DeepValue(data, subs, key, fields, name, value, indent);
      var fields' := Written(fields, FlatValue(name, value));
      DeepEntries(data, subs, key, fields', entries[1..], indent);
      FoldAppend(Inside(data, subs, key, fields), EmitValue(name, value, indent), EmitEntries(entries[1..], indent));
      WrittenAppend(fields, FlatValue(name, value), FlatEntries(entries[1..]));
    }
  }

  lemma {:induction false} DeepPlain(data: Data, subs: map<string, Sub>, key: string, fields: map<string, string>,
                                     text: string, indent: nat)
    requires key != [] && indent >= 4
    ensures Fold(Inside(data, subs, key, fields), EmitItem(Plain(text), indent))
            == Inside(data, subs, key, Written(fields, FlatItem(Plain(text))))
  {
    var line := ItemLine(indent + 2, text);
    FoldOne(Inside(data, subs, key, fields), line, []);
    if Meaning(line).Some? {
      var f := Meaning(line).value;
      DeepField(data, subs, key, fields, f);
      assert FlatItem(Plain(text)) == [Setting(f.key, f.text)] + [];
      WrittenOne(fields, Setting(f.key, f.text), []);
    } else {
      assert FlatItem(Plain(text)) == [];
    }
  }

  lemma {:induction false} RecordFold(r: Reader, entries: seq<Entry>, indent: nat)
    ensures Fold(r, EmitItem(Record(entries), indent)) == Fold(r, EmitEntries(entries, indent + 4))
    ensures FlatItem(Record(entries)) == FlatEntries(entries)
  {
    FoldOne(r, RecordLine(indent + 2), EmitEntries(entries, indent + 4));
  }

  lemma {:induction false} DeepItem(data: Data, subs: map<string, Sub>, key: string, fields: map<string, string>,
                                    item: Item, indent: nat)
    requires key != [] && indent >= 4
    ensures Fold(Inside(data, subs, key, fields), EmitItem(item, indent))
            == Inside(data, subs, key, Written(fields, FlatItem(item)))
    decreases item, 1
  {
    match item
    case Plain(text) =>
      DeepPlain(data, subs, key, fields, text, indent);
    case Record(entries) =>
      RecordFold(Inside(data, subs, key, fields), entries, indent);
      DeepEntries(data, subs, key, fields, entries, indent + 4);
  }

  lemma {:induction false} DeepItems(data: Data, subs: map<string, Sub>, key: string, fields: map<string, string>,
                                     items: seq<Item>, indent: nat)
    requires key != [] && indent >= 4
    ensures Fold(Inside(data, subs, key, fields), EmitItems(items, indent))
            == Inside(data, subs, key, Written(fields, FlatItems(items)))
    decreases items, 0
  {
    if items != [] {
      DeepItem(data, subs, key, fields, items[0], indent);
      var fields' := Written(fields, FlatItem(items[0]));
      DeepItems(data, subs, key, fields', items[1..], indent);
      FoldAppend(Inside(data, subs, key, fields), EmitItem(items[0], indent), EmitItems(items[1..], indent));
      WrittenAppend(fields, FlatItem(items[0]), FlatItems(items[1..]));
    }
  }

  // ----- The entries of the statistics -----

  predicate DistinctKeys(entries: seq<Entry>) {
    forall i, j :: 0 <= i < j < |entries| ==> entries[i].key != entries[j].key
  }

  predicate AtStats(r: Reader, data: Data, subs: map<string, Sub>) {
    r.top == Some("generation_stats") && r.data == data["generation_stats" := Section(subs)]
  }

  lemma {:induction false} StatHead(r: Reader, data: Data, subs: map<string, Sub>, key: string)
    requires AtStats(r, data, subs) && key !in subs && key != []
    ensures Step(r, HeadLine(4, key)) == Inside(data, subs, key, map[])
  {
    var subs' := subs[key := SubTable(map[])];
    assert r.data["generation_stats" := Section(subs')] == data["generation_stats" := Section(subs')];
  }

  lemma {:induction false} StatValue(r: Reader, data: Data, subs: map<string, Sub>, key: string, value: Value)
    requires AtStats(r, data, subs) && key !in subs && key != [] && CleanValue(value)
    ensures AtStats(Fold(r, EmitValue(key, value, 4)), data, subs[key := ReadBack(value)])
  {
    match value
    case Scalar(text) =>
      FoldOne(r, FieldLine(4, key, text), []);
      var subs' := subs[key := SubText(text)];
      assert r.data["generation_stats" := Section(subs')] == data["generation_stats" := Section(subs')];
    case Table(entries) =>
      StatHead(r, data, subs, key);
      FoldOne(r, HeadLine(4, key), EmitEntries(entries, 6));
      DeepEntries(data, subs, key, map[], entries, 6);
    case Listing(items) =>
      StatHead(r, data, subs, key);
      FoldOne(r, HeadLine(4, key), EmitItems(items, 4));
      DeepItems(data, subs, key, map[], items, 4);
  }

  lemma {:induction false} StatEntries(r: Reader, data: Data, subs: map<string, Sub>, entries: seq<Entry>)
    requires AtStats(r, data, subs) && CleanEntries(entries) && DistinctKeys(entries)
    requires forall i :: 0 <= i < |entries| ==> entries[i].key !in subs
    ensures AtStats(Fold(r, EmitEntries(entries, 4)), data, StatSubs(subs, entries))
    decreases entries
  {
    if entries != [] {
      var Entry(key, value) := entries[0];
      StatValue(r, data, subs, key, value);
      var first := EmitValue(key, value, 4);
      StatEntries(Fold(r, first), data, subs[key := ReadBack(value)], entries[1..]);
      FoldAppend(r, first, EmitEntries(entries[1..], 4));
    }
  }

  // ----- The entries of the model configuration -----

  predicate AtConfig(r: Reader, data: Data, subs: map<string, Sub>) {
    r.top == Some("llm_config") && r.data == data["llm_config" := Section(subs)]
  }

  lemma {:induction false} ConfigSettings(r: Reader, data: Data, subs: map<string, Sub>, settings: seq<Setting>)
    requires AtConfig(r, data, subs) && CleanSettings(settings)
    ensures AtConfig(Fold(r, SettingLines(settings)), data, ConfigSubs(subs, settings))
    decreases settings
  {
    if settings != [] {
      var Setting(key, text) := settings[0];
      var r' := Step(r, FieldLine(4, key, text));
      var subs' := subs[key := SubText(text)];
      assert r.data["llm_config" := Section(subs')] == data["llm_config" := Section(subs')];
      ConfigSettings(r', data, subs', settings[1..]);
      FoldOne(r, FieldLine(4, key, text), SettingLines(settings[1..]));
    }
  }

  // ----- The whole block -----

  predicate DistinctSettings(settings: seq<Setting>) {
    forall i, j :: 0 <= i < j < |settings| ==> settings[i].key != settings[j].key
  }

  predicate WellFormed(meta: Metadata) {
    CleanMetadata(meta) && DistinctSettings(meta.llmConfig) && DistinctKeys(meta.generationStats)
  }

  predicate IsWord(s: string) {
    s != [] && forall i :: 0 <= i < |s| ==> 'a' <= s[i] <= 'z' || s[i] == '_'
  }

  lemma WordClean(s: string)
    requires IsWord(s)
    ensures CleanKey(s)
  {
  }

  lemma FixedKeysClean()
    ensures CleanKey("agent_doc_metadata") && CleanKey("created_from_sha") && CleanKey("generated_at")
    ensures CleanKey("llm_config") && CleanKey("generation_stats")
  {
    WordClean("agent_doc_metadata");
    WordClean("created_from_sha");
    WordClean("generated_at");
    WordClean("llm_config");
    WordClean("generation_stats");
  }

  lemma FixedKeysDistinct(meta: Metadata)
    ensures "llm_config" !in TopFields(meta) && "generation_stats" !in WithConfig(meta)
  {
    assert |"created_from_sha"| == 16 && |"generated_at"| == 12 && |"llm_config"| == 10;
    assert "created_from_sha"[0] != "generation_stats"[0] && |"generation_stats"| == 16;
  }

  lemma {:induction false} TopHead(r: Reader, key: string)
    requires CleanKey(key)
    ensures Step(r, HeadLine(2, key)) == Reader(WithSection(r.data, key), Some(key), None)
    ensures Step(r, HeadLine(0, key)) == r
  {
  }

  lemma {:induction false} TopField(r: Reader, key: string, text: string)
    requires CleanKey(key) && Clean(text)
    ensures Step(r, FieldLine(2, key, text)) == Reader(r.data[key := Text(text)], Some(key), None)
  {
  }

  lemma {:induction false} TopLines(meta: Metadata)
    requires WellFormed(meta)
    ensures var at := [FieldLine(2, "generated_at", meta.generatedAt)];
            Fold(START, ShaLines(meta) + at).data == TopFields(meta)
  {
    FixedKeysClean();
    var at := FieldLine(2, "generated_at", meta.generatedAt);
    if meta.createdFromSha != NO_GIT_HEAD {
      var sha := FieldLine(2, "created_from_sha", meta.createdFromSha);
      TopField(START, "created_from_sha", meta.createdFromSha);
      FoldOne(START, sha, [at]);
      TopField(Step(START, sha), "generated_at", meta.generatedAt);
      FoldOne(Step(START, sha), at, []);
    } else {
      TopField(START, "generated_at", meta.generatedAt);
      assert ShaLines(meta) + [at] == [at];
      FoldOne(START, at, []);
    }
  }

  lemma {:induction false} ConfigSection(r: Reader, meta: Metadata)
    requires WellFormed(meta) && r.data == TopFields(meta)
    ensures Fold(r, ConfigLines(meta)).data == WithConfig(meta)
  {
    if meta.llmConfig != [] {
      FixedKeysClean();
      FixedKeysDistinct(meta);
      TopHead(r, "llm_config");
      var head := HeadLine(2, "llm_config");
      FoldOne(r, head, SettingLines(meta.llmConfig));
      ConfigSettings(Step(r, head), TopFields(meta), map[], meta.llmConfig);
    }
  }

  lemma {:induction false} StatsSection(r: Reader, meta: Metadata)
    requires WellFormed(meta) && r.data == WithConfig(meta)
    ensures Fold(r, StatsLines(meta)).data == Expected(meta)
  {
    if meta.generationStats != [] {
      FixedKeysClean();
      FixedKeysDistinct(meta);
      TopHead(r, "generation_stats");
      var head := HeadLine(2, "generation_stats");
      FoldOne(r, head, EmitEntries(meta.generationStats, 4));
      StatEntries(Step(r, head), WithConfig(meta), map[], meta.generationStats);
    }
  }

  lemma {:induction false} ReadParts(r: Reader, line: Line, a: seq<Line>, b: seq<Line>, c: seq<Line>, d: seq<Line>)
    ensures Fold(r, [line] + (a + (b + (c + d))))
            == Fold(Fold(Fold(Step(r, line), a + b), c), d)
  {
    FoldOne(r, line, a + (b + (c + d)));
    assert a + (b + (c + d)) == (a + b) + (c + d);
    FoldAppend(Step(r, line), a + b, c + d);
    FoldAppend(Fold(Step(r, line), a + b), c, d);
  }

  lemma {:induction false} InnerLinesRead(meta: Metadata)
    requires WellFormed(meta)
    ensures Fold(START, InnerLines(meta)).data == Expected(meta)
  {
    var at := [FieldLine(2, "generated_at", meta.generatedAt)];
    FixedKeysClean();
    TopHead(START, "agent_doc_metadata");
    ReadParts(START, HeadLine(0, "agent_doc_metadata"), ShaLines(meta), at, ConfigLines(meta), StatsLines(meta));
    var r1 := Fold(START, ShaLines(meta) + at);
    TopLines(meta);
    ConfigSection(r1, meta);
    StatsSection(Fold(r1, ConfigLines(meta)), meta);
  }
}
