/** The topic files and the index document that the mapper writes (chunkhound/code_mapper/render.py), and the reader
    of the index (chunkhound/autodoc/index_loader.py). */
module TopicIndex {
  import opened Text
  import opened Wrappers
  import opened Sorting
  import opened MetadataBlock

  // ----- Topic files -----

  /** A point of interest with its number, its derived heading and slug, and its topic text. */
  datatype Entry = Entry(idx: nat, operational: bool, heading: string, slug: string, content: string, failed: bool)

  /** The parts of a topic's file name. */
  datatype TopicName = TopicName(scope: string, operational: bool, number: nat, slug: string)

  datatype TopicFile = TopicFile(name: TopicName, content: string)

  /** An entry of the index, before printing. */
  datatype IndexItem = IndexItem(heading: string, failed: bool, name: TopicName)

  function EntryNumber(e: Entry): nat {
    e.idx
  }

  /** `safe_scope_label`: a label that is not empty keeps every character but its slashes. */
  function SafeScope(scope: string): (r: string)
    ensures r != [] && '/' !in r
    ensures scope != [] ==> |r| == |scope|
                            && forall i :: 0 <= i < |r| ==> r[i] == scope[i] || (r[i] == '_' && scope[i] == '/')
    ensures scope == [] ==> r == "root"
  {
    if scope == [] then "root"
    else seq(|scope|, i requires 0 <= i < |scope| => if scope[i] == '/' then '_' else scope[i])
  }

  /** A number with at least two digits. */
  function TwoDigits(n: nat): string {
    if n < 10 then "0" + Decimal(n) else Decimal(n)
  }

  function Tag(operational: bool): string {
    if operational then "_ops_topic_" else "_arch_topic_"
  }

  function FileName(n: TopicName): string {
    SafeScope(n.scope) + (Tag(n.operational) + (TwoDigits(n.number) + ("_" + n.slug + ".md")))
  }

  datatype Artifacts = Artifacts(files: seq<TopicFile>, arch: seq<IndexItem>, ops: seq<IndexItem>)

  /** One more topic, numbered among those of its mode. */
  function AddTopic(a: Artifacts, scope: string, e: Entry): Artifacts {
    var name := TopicName(scope, e.operational, (if e.operational then |a.ops| else |a.arch|) + 1, e.slug);
    var item := IndexItem(e.heading, e.failed, name);
    Artifacts(a.files + [TopicFile(name, e.content)],
              if e.operational then a.arch else a.arch + [item],
              if e.operational then a.ops + [item] else a.ops)
  }

  function Build(scope: string, entries: seq<Entry>): (a: Artifacts)
    ensures |a.files| == |entries| == |a.arch| + |a.ops|
  {
    if entries == [] then Artifacts([], [], [])
    else AddTopic(Build(scope, entries[..|entries| - 1]), scope, entries[|entries| - 1])
  }

  /** `build_topic_artifacts`. */
  method BuildTopicArtifacts(scope: string, succeeded: seq<Entry>, failed: seq<Entry>)
    returns (files: seq<TopicFile>, arch: seq<IndexItem>, ops: seq<IndexItem>)
    ensures Artifacts(files, arch, ops) == Build(scope, SortBy(succeeded + failed, EntryNumber))
  {
    var entries := SortBy(succeeded + failed, EntryNumber);
    files, arch, ops := [], [], [];
    var archNumber, opsNumber := 0, 0;
    for n := 0 to |entries|
      invariant archNumber == |arch| && opsNumber == |ops|
      invariant Artifacts(files, arch, ops) == Build(scope, entries[..n])
    {
      var e := entries[n];
      assert entries[..n + 1][..n] == entries[..n];
      var name;
      if e.operational {
        opsNumber := opsNumber + 1;
        name := TopicName(scope, true, opsNumber, e.slug);
      } else {
        archNumber := archNumber + 1;
        name := TopicName(scope, false, archNumber, e.slug);
      }
      files := files + [TopicFile(name, e.content)];
      if e.operational {
        ops := ops + [IndexItem(e.heading, e.failed, name)];
      } else {
        arch := arch + [IndexItem(e.heading, e.failed, name)];
      }
    }
    assert entries[..|entries|] == entries;
  }

  // ----- The index document -----

  /** The sentence that introduces the index. */
  const INTRO := INTRO_START + INTRO_MIDDLE + INTRO_END
  const INTRO_START := "This index lists the per-"
  const INTRO_MIDDLE := "topic Code Mapper sections "
  const INTRO_END := "generated for this scope."

  datatype Link = Link(heading: string, filename: string)

  function AsLink(item: IndexItem): Link {
    Link(if item.failed then item.heading + " (failed)" else item.heading, FileName(item.name))
  }

  function AsLinks(items: seq<IndexItem>): (links: seq<Link>)
    ensures |links| == |items| && forall i :: 0 <= i < |items| ==> links[i] == AsLink(items[i])
  {
    if items == [] then [] else [AsLink(items[0])] + AsLinks(items[1..])
  }

  function LinkLine(number: nat, link: Link): string {
    Decimal(number) + (". [" + (link.heading + ("](" + (link.filename + ")"))))
  }

  function LinkLines(links: seq<Link>, from: nat): seq<string>
    decreases links
  {
    if links == [] then [] else [LinkLine(from, links[0])] + LinkLines(links[1..], from + 1)
  }

  /** The title up to the scope label. */
  const TITLE_FRONT := "# " + TITLE_WORDS + " for "
  const TITLE_WORDS := "Code Mapper Topics"

  function FrontLines(scope: string, unref: Option<string>): seq<string> {
    [TITLE_FRONT + scope, "", INTRO]
    + (if unref.Some? then ["- Unreferenced files in scope: [" + unref.value + "](" + unref.value + ")"] else [])
    + ["", "## Architectural Map", ""]
  }

  const MIDDLE_LINES := ["", "## Operational Map", ""]

  function BodyLines(scope: string, arch: seq<Link>, ops: seq<Link>, unref: Option<string>): seq<string> {
    FrontLines(scope, unref) + (LinkLines(arch, 1) + (MIDDLE_LINES + LinkLines(ops, 1)))
  }

  function IndexText(comment: string, body: seq<string>): string {
    comment + ("\n" + (Join(body, "\n") + "\n"))
  }

  function IndexDocument(meta: Metadata, body: seq<string>): string {
    IndexText(Comment(ShowAll(InnerLines(meta))), body)
  }

  method AppendLinks(lines: seq<string>, links: seq<Link>) returns (out: seq<string>)
    ensures out == lines + LinkLines(links, 1)
  {
    out := lines;
    for n := 0 to |links|
      invariant out + LinkLines(links[n..], n + 1) == lines + LinkLines(links, 1)
    {
      assert links[n..][0] == links[n] && links[n..][1..] == links[n + 1..];
      out := out + [LinkLine(n + 1, links[n])];
    }
  }

  lemma BlockWithoutBreaks(comment: string)
    requires comment != [] && comment[|comment| - 1] != '\n'
    ensures RStripNewlines(comment + "\n\n") == comment
  {
    assert (comment + "\n\n")[..|comment| + 1] == comment + "\n";
    assert (comment + "\n")[..|comment|] == comment;
    assert RStripNewlines(comment + "\n\n") == RStripNewlines(comment + "\n") == RStripNewlines(comment);
  }

  method RenderFront(scope: string, unref: Option<string>) returns (lines: seq<string>)
    ensures lines == FrontLines(scope, unref)
  {
    lines := [TITLE_FRONT + scope, "", INTRO];
    if unref.Some? {
      lines := lines + ["- Unreferenced files in scope: [" + unref.value + "](" + unref.value + ")"];
    }
    lines := lines + ["", "## Architectural Map", ""];
  }

  method RenderBody(scope: string, arch: seq<Link>, ops: seq<Link>, unref: Option<string>) returns (lines: seq<string>)
    ensures lines == BodyLines(scope, arch, ops, unref)
  {
    var front := RenderFront(scope, unref);
    lines := AppendLinks(front, arch);
    lines := AppendLinks(lines + MIDDLE_LINES, ops);
    Regrouped(front, LinkLines(arch, 1), MIDDLE_LINES, LinkLines(ops, 1));
  }

  lemma Regrouped(a: seq<string>, b: seq<string>, c: seq<string>, d: seq<string>)
    ensures a + b + c + d == a + (b + (c + d))
  {
  }

  lemma {:induction false} JoinBehind(comment: string, lines: seq<string>)
    requires lines != []
    ensures Join([comment] + lines, "\n") + "\n" == IndexText(comment, lines)
  {
    assert ([comment] + lines)[1..] == lines;
  }

  /** `render_index_document`. */
  method RenderIndexDocument(meta: Metadata, scope: string, arch: seq<Link>, ops: seq<Link>, unref: Option<string>)
    returns (document: string)
    ensures document == IndexDocument(meta, BodyLines(scope, arch, ops, unref))
  {
    var block := FormatMetadataBlock(meta);
    var lines := RenderBody(scope, arch, ops, unref);
    ghost var comment := Comment(ShowAll(InnerLines(meta)));
    BlockWithoutBreaks(comment);
    JoinBehind(comment, lines);
    document := Join([RStripNewlines(block)] + lines, "\n") + "\n";
  }

  // ----- The reader -----

  datatype Topic = Topic(order: nat, title: string, filename: string)

  /** Behind the opening bracket: the title, the shortest one for which the rest matches, and the file name. */
  function TitleAndFile(u: string): Option<Link>
    requires u != []
  {
    var n := Find(u, "](", 1);
    if n + 4 > |u| then None else Some(Link(Strip(u[..n]), Strip(u[n + 2..|u| - 1])))
  }

  /** Behind the number: a dot, white space, a title in brackets and a file name in parentheses. */
  function LinkBehind(rest: string): Option<Link> {
    if |rest| < 2 || rest[0] != '.' || !IsSpace(rest[1]) then None
    else
      var v := LStrip(rest[1..]);
      if |v| < 2 || v[0] != '[' || v[|v| - 1] != ')' then None else TitleAndFile(v[1..])
  }

  /** A numbered link on a line of its own. */
  function ParseLink(line: string): Option<Link> {
    var s := Strip(line);
    var k := DigitRun(s);
    if k == 0 then None else LinkBehind(s[k..])
  }

  function Parsed(lines: seq<string>): (found: seq<Option<Link>>)
    ensures |found| == |lines| && forall i :: 0 <= i < |lines| ==> found[i] == ParseLink(lines[i])
  {
    if lines == [] then [] else [ParseLink(lines[0])] + Parsed(lines[1..])
  }

  /** The topics with those found added, each numbered after the ones before it. */
  function AddTopics(topics: seq<Topic>, found: seq<Option<Link>>): seq<Topic>
    decreases found
  {
    if found == [] then topics
    else if found[0].None? then AddTopics(topics, found[1..])
    else AddTopics(topics + [Topic(|topics| + 1, found[0].value.heading, found[0].value.filename)], found[1..])
  }

  function ReadTopics(lines: seq<string>): seq<Topic> {
    AddTopics([], Parsed(lines))
  }

  const DEFAULT_TITLE := "AutoDoc Topics"

  /** `_first_heading`: the first line that is a top-level heading, stripped. */
  function FirstHeading(lines: seq<string>): Option<string> {
    if lines == [] then None
    else if MatchAt(Strip(lines[0]), "# ", 0) then Some(Strip(lines[0]))
    else FirstHeading(lines[1..])
  }

  function LStripMarks(s: string): string {
    if s != [] && (s[0] == '#' || s[0] == ' ') then LStripMarks(s[1..]) else s
  }

  /** `_heading_text`. */
  function HeadingText(heading: string): string {
    Strip(LStripMarks(heading))
  }

  /** `_scope_from_heading`: what follows the first " for ", if there is one. */
  function ScopeFromHeading(heading: string): string {
    var cleaned := HeadingText(heading);
    var i := Find(cleaned, " for ", 0);
    if i == |cleaned| then cleaned else Strip(cleaned[i + 5..])
  }

  datatype Index = Index(title: string, scopeLabel: string, metadata: Option<string>, topics: seq<Topic>)

  function TitleLine(lines: seq<string>): string {
    var heading := FirstHeading(lines);
    if heading.Some? then heading.value else DEFAULT_TITLE
  }

  function TitleOf(lines: seq<string>): string {
    var text := HeadingText(TitleLine(lines));
    if text == [] then DEFAULT_TITLE else text
  }

  /** What the index document says, part by part. */
  function ReadIndex(content: string): Index {
    var Stripped(metadata, body) := StripMetadataBlock(content);
    var lines := SplitLines(body);
    Index(TitleOf(lines), ScopeFromHeading(TitleLine(lines)), metadata, ReadTopics(lines))
  }

  /** `parse_index_file`. */
  method ParseIndexFile(content: string) returns (index: Index)
    ensures index == ReadIndex(content)
  {
    var Stripped(metadata, body) := StripMetadataBlock(content);
    var lines := SplitLines(body);
    var titleLine := TitleLine(lines);
    var scopeLabel := ScopeFromHeading(titleLine);
    var topics := CollectTopics(lines);
    index := Index(TitleOf(lines), scopeLabel, metadata, topics);
  }

  method CollectTopics(lines: seq<string>) returns (topics: seq<Topic>)
    ensures topics == ReadTopics(lines)
  {
    topics := [];
    for n := 0 to |lines|
      invariant AddTopics(topics, Parsed(lines)[n..]) == ReadTopics(lines)
    {
      assert Parsed(lines)[n..][0] == ParseLink(lines[n]) && Parsed(lines)[n..][1..] == Parsed(lines)[n + 1..];
      var link := ParseLink(lines[n]);
      if link.None? {
        continue;
      }
      topics := topics + [Topic(|topics| + 1, link.value.heading, link.value.filename)];
    }
  }
}
