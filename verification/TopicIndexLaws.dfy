/** Topic files have distinct names, and reading the printed index gives back every topic in order. */
module TopicIndexLaws {
  import opened Text
  import opened Wrappers
  import opened Sorting
  import opened MetadataBlock
  import MetadataLaws
  import opened MetadataRoundTrip
  import opened TopicIndex

  // ----- The order of the entries -----

  /** The entries are handled in the order of their numbers, and none is lost or repeated. */
  lemma EntriesOrdered(entries: seq<TopicIndex.Entry>, x: TopicIndex.Entry)
    ensures Ascending(SortBy(entries, EntryNumber), EntryNumber)
    ensures Occurs(SortBy(entries, EntryNumber), x) == Occurs(entries, x)
  {
    SortMeaning(entries, EntryNumber, x);
  }

  // ----- File names -----

  lemma TwoDigitsAreDigits(n: nat)
    ensures TwoDigits(n) != [] && forall i :: 0 <= i < |TwoDigits(n)| ==> IsDigit(TwoDigits(n)[i])
  {
  }

  lemma {:induction false} TwoDigitsInjective(a: nat, b: nat)
    requires TwoDigits(a) == TwoDigits(b)
    ensures a == b
  {
    if a < 10 && b < 10 {
      assert Decimal(a) == TwoDigits(a)[1..] == Decimal(b);
      DecimalInjective(a, b);
    } else if a >= 10 && b >= 10 {
      DecimalInjective(a, b);
    } else if a >= 10 {
      DecimalLead(a);
    } else {
      DecimalLead(b);
    }
  }

  lemma {:induction false} NumberRead(digits: string, more: string, digits': string, more': string)
    requires forall i :: 0 <= i < |digits| ==> IsDigit(digits[i])
    requires forall i :: 0 <= i < |digits'| ==> IsDigit(digits'[i])
    requires more != [] && more[0] == '_' && more' != [] && more'[0] == '_'
    requires digits + more == digits' + more'
    ensures digits == digits'
  {
    DigitRunStops(digits, more);
    DigitRunStops(digits', more');
    assert digits == (digits + more)[..|digits|] && digits' == (digits' + more')[..|digits'|];
  }

  lemma {:induction false} SamePrefix(p: string, a: string, b: string)
    requires p + a == p + b
    ensures a == b
  {
    assert a == (p + a)[|p|..] && b == (p + b)[|p|..];
  }

  lemma TagsDiffer(a: string, b: string)
    ensures Tag(true) + a != Tag(false) + b
  {
    assert (Tag(true) + a)[1] == 'o' && (Tag(false) + b)[1] == 'a';
  }

  /** A file name determines the mode and the number, whatever the slugs are. */
  lemma {:induction false} FileNameTells(m: TopicName, n: TopicName)
    requires m.scope == n.scope && FileName(m) == FileName(n)
    ensures m.operational == n.operational && m.number == n.number
  {
    var a, b := TwoDigits(m.number), TwoDigits(n.number);
    var more, more' := "_" + m.slug + ".md", "_" + n.slug + ".md";
    SamePrefix(SafeScope(m.scope), Tag(m.operational) + (a + more), Tag(n.operational) + (b + more'));
    if m.operational != n.operational {
      if m.operational {
        TagsDiffer(a + more, b + more');
      } else {
        TagsDiffer(b + more', a + more);
      }
    }
    SamePrefix(Tag(m.operational), a + more, b + more');
    TwoDigitsAreDigits(m.number);
    TwoDigitsAreDigits(n.number);
    NumberRead(a, more, b, more');
    TwoDigitsInjective(m.number, n.number);
  }

  /** How a topic file is named: a safe form of the scope label, the mode, the number in at least two digits, the slug
      and the suffix. */
  lemma FileNameForm(scope: string, number: nat, slug: string)
    requires 1 <= number
    ensures var digits := if number <= 9 then "0" + Decimal(number) else Decimal(number);
            && FileName(TopicName(scope, false, number, slug))
               == SafeScope(scope) + "_arch_topic_" + digits + "_" + slug + ".md"
            && FileName(TopicName(scope, true, number, slug))
               == SafeScope(scope) + "_ops_topic_" + digits + "_" + slug + ".md"
  {
    var digits := TwoDigits(number);
    Flattened(SafeScope(scope), "_arch_topic_", digits, slug);
    Flattened(SafeScope(scope), "_ops_topic_", digits, slug);
  }

  lemma Flattened(scope: string, tag: string, digits: string, slug: string)
    ensures scope + (tag + (digits + ("_" + slug + ".md"))) == scope + tag + digits + "_" + slug + ".md"
  {
    assert "_" + slug + ".md" == "_" + (slug + ".md");
    assert digits + ("_" + (slug + ".md")) == (digits + "_") + (slug + ".md");
    FlattenedRest(scope, tag, digits + "_", slug + ".md");
    assert scope + tag + digits + "_" == (scope + tag) + (digits + "_");
    assert scope + tag + digits + "_" + slug + ".md" == (scope + tag + digits + "_") + (slug + ".md");
  }

  lemma FlattenedRest(a: string, b: string, c: string, d: string)
    ensures a + (b + (c + d)) == ((a + b) + c) + d
  {
  }

  function ItemsOf(a: Artifacts, operational: bool): seq<IndexItem> {
    if operational then a.ops else a.arch
  }

  /** The index entry of a file: the one with its number in the list of its mode. */
  predicate ListedAs(a: Artifacts, scope: string, e: TopicIndex.Entry, name: TopicName) {
    var items := ItemsOf(a, e.operational);
    && name.scope == scope && name.operational == e.operational && name.slug == e.slug
    && 1 <= name.number <= |items| && items[name.number - 1] == IndexItem(e.heading, e.failed, name)
  }

  lemma {:induction false} StillListed(a: Artifacts, scope: string, e: TopicIndex.Entry, name: TopicName,
                                       next: TopicIndex.Entry)
    requires ListedAs(a, scope, e, name)
    ensures ListedAs(AddTopic(a, scope, next), scope, e, name)
  {
  }

  predicate AllListed(a: Artifacts, scope: string, entries: seq<TopicIndex.Entry>) {
    && |a.files| == |entries|
    && forall k :: 0 <= k < |entries| ==>
         a.files[k].content == entries[k].content && ListedAs(a, scope, entries[k], a.files[k].name)
  }

  predicate NumbersAscend(a: Artifacts, entries: seq<TopicIndex.Entry>) {
    && |a.files| == |entries|
    && forall j, k :: 0 <= j < k < |entries| && entries[j].operational == entries[k].operational ==>
         a.files[j].name.number < a.files[k].name.number
  }

  lemma {:induction false} AddedListed(a: Artifacts, scope: string, entries: seq<TopicIndex.Entry>, e: TopicIndex.Entry)
    requires AllListed(a, scope, entries)
    ensures AllListed(AddTopic(a, scope, e), scope, entries + [e])
  {
    var b := AddTopic(a, scope, e);
    forall k | 0 <= k < |entries|
      ensures ListedAs(b, scope, entries[k], a.files[k].name)
    {
      StillListed(a, scope, entries[k], a.files[k].name, e);
    }
  }

  lemma {:induction false} AddedAscends(a: Artifacts, scope: string, entries: seq<TopicIndex.Entry>,
                                        e: TopicIndex.Entry)
    requires AllListed(a, scope, entries) && NumbersAscend(a, entries)
    ensures NumbersAscend(AddTopic(a, scope, e), entries + [e])
  {
    forall j | 0 <= j < |entries| && entries[j].operational == e.operational
      ensures a.files[j].name.number <= |ItemsOf(a, e.operational)|
    {
      assert ListedAs(a, scope, entries[j], a.files[j].name);
    }
  }

  /** Every entry gets one topic file, listed in the index of its mode under the entry's heading; the numbers of a
      mode follow the order of the entries. */
  lemma {:induction false} EveryTopicListed(scope: string, entries: seq<TopicIndex.Entry>)
    ensures var a := Build(scope, entries); AllListed(a, scope, entries) && NumbersAscend(a, entries)
  {
    if entries != [] {
      var init, last := entries[..|entries| - 1], entries[|entries| - 1];
      EveryTopicListed(scope, init);
      OneMoreListed(Build(scope, init), scope, init, last, entries);
    }
  }

  lemma {:induction false} OneMoreListed(a: Artifacts, scope: string, init: seq<TopicIndex.Entry>, e: TopicIndex.Entry,
                                         entries: seq<TopicIndex.Entry>)
    requires entries != [] && init == entries[..|entries| - 1] && e == entries[|entries| - 1]
    requires AllListed(a, scope, init) && NumbersAscend(a, init)
    ensures AllListed(AddTopic(a, scope, e), scope, entries) && NumbersAscend(AddTopic(a, scope, e), entries)
  {
    AddedListed(a, scope, init, e);
    AddedAscends(a, scope, init, e);
    assert init + [e] == entries;
  }

  lemma {:induction false} TopicFilesDistinct(scope: string, entries: seq<TopicIndex.Entry>, j: nat, k: nat)
    requires j < k < |entries|
    ensures var a := Build(scope, entries); FileName(a.files[j].name) != FileName(a.files[k].name)
  {
    EveryTopicListed(scope, entries);
    var a := Build(scope, entries);
    var m, n := a.files[j].name, a.files[k].name;
    assert ListedAs(a, scope, entries[j], m) && ListedAs(a, scope, entries[k], n);
    if FileName(m) == FileName(n) {
      FileNameTells(m, n);
    }
  }

  // ----- One link -----

  /** No closing bracket directly before an opening parenthesis, except at the very start. */
  predicate NoLinkInside(heading: string) {
    forall i :: 1 <= i < |heading| - 1 ==> !(heading[i] == ']' && heading[i + 1] == '(')
  }

  function Behind(link: Link): string {
    link.heading + ("](" + (link.filename + ")"))
  }

  lemma {:induction false} NumberInFront(number: nat, rest: string)
    requires rest != [] && !IsDecimalDigit(rest[0]) && !IsSpace(rest[|rest| - 1])
    ensures ParseLink(Decimal(number) + rest) == LinkBehind(rest)
  {
    var digits := Decimal(number);
    var s := digits + rest;
    DigitRunStops(digits, rest);
    assert Trimmed(s) by {
      assert IsDigit(digits[0]) && s[0] == digits[0] && s[|s| - 1] == rest[|rest| - 1];
    }
    StripTrimmed(s);
    assert s[|digits|..] == rest;
  }

  lemma {:induction false} BracketInFront(u: string)
    requires u != [] && u[|u| - 1] == ')'
    ensures LinkBehind(". [" + u) == TitleAndFile(u)
  {
    var rest := ". [" + u;
    var w := rest[1..];
    assert w == " [" + u;
    assert w[1..] == "[" + u;
    assert LStrip(w) == LStrip(w[1..]) == w[1..];
    assert w[1..][1..] == u;
  }

  lemma {:induction false} ParsedBehind(number: nat, u: string)
    requires u != [] && u[|u| - 1] == ')'
    ensures ParseLink(Decimal(number) + (". [" + u)) == TitleAndFile(u)
  {
    NumberInFront(number, ". [" + u);
    BracketInFront(u);
  }

  lemma BracketCharacters(u: string, i: nat)
    ensures MatchAt(u, "](", i) <==> i + 2 <= |u| && u[i] == ']' && u[i + 1] == '('
  {
    if i + 2 <= |u| {
      var w := u[i..i + 2];
      assert u[i] == w[0] && u[i + 1] == w[1];
    }
  }

  lemma {:induction false} TitleEnds(link: Link)
    requires link.heading != [] && NoLinkInside(link.heading)
    ensures Find(Behind(link), "](", 1) == |link.heading|
  {
    var u := Behind(link);
    var k := |link.heading|;
    assert u[k] == ']' && u[k + 1] == '(';
    BracketCharacters(u, k);
    forall j | 1 <= j < k
      ensures !MatchAt(u, "](", j)
    {
      BracketCharacters(u, j);
      assert u[j] == link.heading[j];
      assert j + 1 < k ==> u[j + 1] == link.heading[j + 1];
    }
    FirstMatch(u, "](", 1, k);
  }

  predicate Linkable(link: Link) {
    Trimmed(link.heading) && Trimmed(link.filename)
  }

  lemma {:induction false} CutInside(link: Link)
    requires Linkable(link) && !NoLinkInside(link.heading)
    ensures TitleAndFile(Behind(link)) != Some(link)
  {
    var u := Behind(link);
    var i :| 1 <= i < |link.heading| - 1 && link.heading[i] == ']' && link.heading[i + 1] == '(';
    assert u[i] == ']' && u[i + 1] == '(';
    BracketCharacters(u, i);
    assert Find(u, "](", 1) <= i;
    assert |Strip(u[..Find(u, "](", 1)])| <= i;
  }

  lemma {:induction false} ReadWhole(link: Link)
    requires Linkable(link) && NoLinkInside(link.heading)
    ensures TitleAndFile(Behind(link)) == Some(link)
  {
    var u := Behind(link);
    var k := |link.heading|;
    TitleEnds(link);
    assert u[..k] == link.heading && u[k + 2..|u| - 1] == link.filename;
    StripTrimmed(link.heading);
    StripTrimmed(link.filename);
  }

  /** A printed link is read back exactly when its heading holds no "](" behind its first character. */
  lemma {:induction false} LinkReadBackExactlyWhen(number: nat, link: Link)
    requires Linkable(link)
    ensures ParseLink(LinkLine(number, link)) == Some(link) <==> NoLinkInside(link.heading)
  {
    ParsedBehind(number, Behind(link));
    if NoLinkInside(link.heading) {
      ReadWhole(link);
    } else {
      CutInside(link);
    }
  }

  // ----- The whole index -----

  /** A line that cannot be a link: empty, or starting with neither white space nor a digit. */
  predicate Inert(line: string) {
    line == [] || (!IsSpace(line[0]) && !IsDecimalDigit(line[0]))
  }

  lemma {:induction false} InertIgnored(line: string)
    requires Inert(line)
    ensures ParseLink(line) == None
  {
    if line != [] {
      RStripFirst(line);
    }
  }

  lemma {:induction false} AddTopicsAppend(topics: seq<Topic>, a: seq<Option<Link>>, b: seq<Option<Link>>)
    ensures AddTopics(topics, a + b) == AddTopics(AddTopics(topics, a), b)
    decreases a
  {
    if a == [] {
      assert a + b == b;
    } else {
      assert (a + b)[1..] == a[1..] + b && (a + b)[0] == a[0];
      AddTopicsAppend(if a[0].None? then topics
                      else topics + [Topic(|topics| + 1, a[0].value.heading, a[0].value.filename)], a[1..], b);
    }
  }

  predicate AllNone(found: seq<Option<Link>>) {
    forall i :: 0 <= i < |found| ==> found[i].None?
  }

  lemma {:induction false} AddNone(topics: seq<Topic>, found: seq<Option<Link>>)
    requires AllNone(found)
    ensures AddTopics(topics, found) == topics
    decreases found
  {
    if found != [] {
      AddNone(topics, found[1..]);
    }
  }

  function Somes(links: seq<Link>): (found: seq<Option<Link>>)
    ensures |found| == |links| && forall i :: 0 <= i < |links| ==> found[i] == Some(links[i])
  {
    if links == [] then [] else [Some(links[0])] + Somes(links[1..])
  }

  /** The links as topics, numbered onward from `from`. */
  function Numbered(links: seq<Link>, from: nat): (topics: seq<Topic>)
    ensures |topics| == |links|
    ensures forall i :: 0 <= i < |links| ==> topics[i] == Topic(from + i, links[i].heading, links[i].filename)
    decreases links
  {
    if links == [] then [] else [Topic(from, links[0].heading, links[0].filename)] + Numbered(links[1..], from + 1)
  }

  lemma NumberedOnward(topics: seq<Topic>, topic: Topic, rest: seq<Topic>)
    ensures topics + [topic] + rest == topics + ([topic] + rest)
  {
  }

  lemma {:induction false} AddSomes(topics: seq<Topic>, links: seq<Link>)
    ensures AddTopics(topics, Somes(links)) == topics + Numbered(links, |topics| + 1)
    decreases links
  {
    if links != [] {
      var topic := Topic(|topics| + 1, links[0].heading, links[0].filename);
      assert Somes(links)[1..] == Somes(links[1..]);
      AddSomes(topics + [topic], links[1..]);
      NumberedOnward(topics, topic, Numbered(links[1..], |topics| + 2));
    }
  }

  lemma {:induction false} NumberedAppend(a: seq<Link>, b: seq<Link>, from: nat)
    ensures Numbered(a, from) + Numbered(b, |a| + from) == Numbered(a + b, from)
  {
  }

  /** Links among lines that are none. */
  lemma {:induction false} AddAmong(front: seq<Option<Link>>, arch: seq<Link>, middle: seq<Option<Link>>,
                                    ops: seq<Link>)
    requires AllNone(front) && AllNone(middle)
    ensures AddTopics([], front + (Somes(arch) + (middle + Somes(ops)))) == Numbered(arch + ops, 1)
  {
    var first := Numbered(arch, 1);
    AddTopicsAppend([], front, Somes(arch) + (middle + Somes(ops)));
    AddNone([], front);
    AddTopicsAppend([], Somes(arch), middle + Somes(ops));
    AddSomes([], arch);
    assert [] + first == first;
    AddTopicsAppend(first, middle, Somes(ops));
    AddNone(first, middle);
    AddSomes(first, ops);
    NumberedAppend(arch, ops, 1);
  }

  predicate Readable(link: Link) {
    Linkable(link) && SingleLine(link.heading) && SingleLine(link.filename) && NoLinkInside(link.heading)
  }

  predicate AllReadable(links: seq<Link>) {
    forall i :: 0 <= i < |links| ==> Readable(links[i])
  }

  lemma {:induction false} ParsedAppend(a: seq<string>, b: seq<string>)
    ensures Parsed(a + b) == Parsed(a) + Parsed(b)
  {
  }

  lemma {:induction false} LinkLinesParsed(links: seq<Link>, from: nat)
    requires AllReadable(links)
    ensures Parsed(LinkLines(links, from)) == Somes(links)
    decreases links
  {
    if links != [] {
      LinkReadBackExactlyWhen(from, links[0]);
      ParsedAppend([LinkLine(from, links[0])], LinkLines(links[1..], from + 1));
      LinkLinesParsed(links[1..], from + 1);
    }
  }

  predicate AllInert(lines: seq<string>) {
    forall i :: 0 <= i < |lines| ==> Inert(lines[i])
  }

  lemma {:induction false} InertParsed(lines: seq<string>)
    requires AllInert(lines)
    ensures AllNone(Parsed(lines))
  {
    forall i | 0 <= i < |lines|
      ensures Parsed(lines)[i].None?
    {
      InertIgnored(lines[i]);
    }
  }

  lemma FrontInert(scope: string, unref: Option<string>)
    ensures AllInert(FrontLines(scope, unref)) && AllInert(MIDDLE_LINES)
  {
    assert Inert(TITLE_FRONT + scope) && Inert("") && Inert("## Architectural Map");
    assert INTRO_START[0] == 'T' && INTRO[0] == INTRO_START[0];
    assert unref.Some? ==> Inert("- Unreferenced files in scope: [" + unref.value + "](" + unref.value + ")");
    assert Inert("## Operational Map");
  }

  lemma {:induction false} ReadAmong(front: seq<string>, arch: seq<Link>, middle: seq<string>, ops: seq<Link>)
    requires AllInert(front) && AllInert(middle) && AllReadable(arch) && AllReadable(ops)
    ensures ReadTopics(front + (LinkLines(arch, 1) + (middle + LinkLines(ops, 1)))) == Numbered(arch + ops, 1)
  {
    var a, o := LinkLines(arch, 1), LinkLines(ops, 1);
    ParsedAppend(front, a + (middle + o));
    ParsedAppend(a, middle + o);
    ParsedAppend(middle, o);
    LinkLinesParsed(arch, 1);
    LinkLinesParsed(ops, 1);
    InertParsed(front);
    InertParsed(middle);
    AddAmong(Parsed(front), arch, Parsed(middle), ops);
  }

  lemma {:induction false} BodyRead(scope: string, arch: seq<Link>, ops: seq<Link>, unref: Option<string>)
    requires AllReadable(arch) && AllReadable(ops)
    ensures ReadTopics(BodyLines(scope, arch, ops, unref)) == Numbered(arch + ops, 1)
  {
    FrontInert(scope, unref);
    ReadAmong(FrontLines(scope, unref), arch, MIDDLE_LINES, ops);
  }

  predicate AllSingle(lines: seq<string>) {
    forall i :: 0 <= i < |lines| ==> SingleLine(lines[i])
  }

  lemma IntroSingle()
    ensures SingleLine(INTRO_START) && SingleLine(INTRO_MIDDLE) && SingleLine(INTRO_END)
  {
  }

  lemma TitlesSingle()
    ensures SingleLine(TITLE_FRONT) && SingleLine("## Architectural Map") && SingleLine("## Operational Map")
  {
    assert SingleLine(TITLE_WORDS);
  }

  lemma UnreferencedSingle()
    ensures SingleLine("- Unreferenced files in scope: [")
  {
  }

  lemma {:induction false} FrontSingle(scope: string, unref: Option<string>)
    requires SingleLine(scope) && (unref.Some? ==> SingleLine(unref.value))
    ensures AllSingle(FrontLines(scope, unref)) && AllSingle(MIDDLE_LINES)
  {
    IntroSingle();
    TitlesSingle();
    UnreferencedSingle();
    SingleConcat(INTRO_START, INTRO_MIDDLE);
    SingleConcat(INTRO_START + INTRO_MIDDLE, INTRO_END);
    SingleConcat(TITLE_FRONT, scope);
    if unref.Some? {
      var start := "- Unreferenced files in scope: [";
      SingleConcat(start, unref.value);
      SingleConcat(start + unref.value, "](");
      SingleConcat(start + unref.value + "](", unref.value);
      SingleConcat(start + unref.value + "](" + unref.value, ")");
    }
  }

  lemma {:induction false} LinkLinesSingle(links: seq<Link>, from: nat)
    requires AllReadable(links)
    ensures AllSingle(LinkLines(links, from))
    decreases links
  {
    if links != [] {
      DecimalSingleLine(from);
      LinkLineSingle(from, links[0]);
      LinkLinesSingle(links[1..], from + 1);
    }
  }

  lemma {:induction false} LinkLineSingle(number: nat, link: Link)
    requires SingleLine(Decimal(number)) && SingleLine(link.heading) && SingleLine(link.filename)
    ensures SingleLine(LinkLine(number, link))
  {
    SingleConcat(link.filename, ")");
    SingleConcat("](", link.filename + ")");
    SingleConcat(link.heading, "](" + (link.filename + ")"));
    SingleConcat(". [", link.heading + ("](" + (link.filename + ")")));
    SingleConcat(Decimal(number), ". [" + (link.heading + ("](" + (link.filename + ")"))));
  }

  lemma {:induction false} BodySingle(scope: string, arch: seq<Link>, ops: seq<Link>, unref: Option<string>)
    requires AllReadable(arch) && AllReadable(ops)
    requires SingleLine(scope) && (unref.Some? ==> SingleLine(unref.value))
    ensures AllSingle(BodyLines(scope, arch, ops, unref))
    ensures var body := BodyLines(scope, arch, ops, unref);
            body != [] && body[0] == TITLE_FRONT + scope && body[0][0] == '#'
  {
    FrontSingle(scope, unref);
    LinkLinesSingle(arch, 1);
    LinkLinesSingle(ops, 1);
    assert FrontLines(scope, unref)[0] == TITLE_FRONT + scope;
  }

  lemma {:induction false} JoinStarts(lines: seq<string>)
    requires lines != [] && lines[0] != []
    ensures Join(lines, "\n") != [] && Join(lines, "\n")[0] == lines[0][0]
  {
  }

  lemma {:induction false} SplitIndexText(body: seq<string>)
    requires body != [] && body[0] != [] && body[0][0] == '#' && AllSingle(body)
    ensures SplitLines(LStripNewlines("\n" + (Join(body, "\n") + "\n"))) == body
  {
    var text := Join(body, "\n") + "\n";
    JoinStarts(body);
    assert ("\n" + text)[1..] == text;
    assert LStripNewlines("\n" + text) == LStripNewlines(text) == text;
    SplitJoinedLines(body);
  }

  // ----- The title and the scope -----

  lemma {:induction false} HeadingStripped(words: string, scope: string)
    requires Trimmed(words) && words[0] != '#' && Trimmed(scope)
    ensures var heading := "# " + (words + (" for " + scope));
            Strip(heading) == heading && MatchAt(heading, "# ", 0) && HeadingText(heading) == words + (" for " + scope)
  {
    var text := words + (" for " + scope);
    var heading := "# " + text;
    assert Trimmed(heading) && Trimmed(text);
    StripTrimmed(heading);
    StripTrimmed(text);
    assert heading[0..2] == "# ";
    assert heading[1..] == " " + text && (" " + text)[1..] == text;
    assert LStripMarks(heading) == LStripMarks(heading[1..]) == LStripMarks(text) == text;
  }

  lemma ForCharacters(s: string, i: nat)
    ensures MatchAt(s, " for ", i) ==> i + 1 < |s| && s[i + 1] == 'f'
  {
    if i + 5 <= |s| {
      assert s[i..i + 5][1] == s[i + 1];
    }
  }

  lemma {:induction false} ScopeFound(words: string, scope: string)
    requires 'f' !in words && Trimmed(scope)
    ensures var text := words + (" for " + scope);
            Find(text, " for ", 0) == |words| && Strip(text[|words| + 5..]) == scope
  {
    var text := words + (" for " + scope);
    assert text[|words|..|words| + 5] == " for ";
    forall j | 0 <= j < |words|
      ensures !MatchAt(text, " for ", j)
    {
      ForCharacters(text, j);
      assert text[j + 1] == if j + 1 < |words| then words[j + 1] else ' ';
    }
    FirstMatch(text, " for ", 0, |words|);
    assert text[|words| + 5..] == scope;
    StripTrimmed(scope);
  }

  /** The title line gives back the scope label. */
  lemma {:induction false} TitleComesBack(scope: string, lines: seq<string>)
    requires Trimmed(scope) && lines != [] && lines[0] == TITLE_FRONT + scope
    ensures TitleOf(lines) == TITLE_WORDS + (" for " + scope) && ScopeFromHeading(TitleLine(lines)) == scope
  {
    var heading := "# " + (TITLE_WORDS + (" for " + scope));
    assert lines[0] == heading;
    HeadingStripped(TITLE_WORDS, scope);
    ScopeFound(TITLE_WORDS, scope);
  }

  predicate IsHeading(line: string) {
    "# " <= Strip(line)
  }

  /** The first heading of any document is its first line that begins, white space aside, with a mark and a blank. */
  lemma {:induction false} FirstHeadingMeaning(lines: seq<string>) returns (i: nat)
    ensures i <= |lines| && forall j :: 0 <= j < i ==> !IsHeading(lines[j])
    ensures i < |lines| ==> IsHeading(lines[i])
    ensures FirstHeading(lines) == if i < |lines| then Some(Strip(lines[i])) else None
  {
    if lines == [] || IsHeading(lines[0]) {
      i := 0;
    } else {
      var k := FirstHeadingMeaning(lines[1..]);
      i := k + 1;
      forall j | 0 <= j < i
        ensures !IsHeading(lines[j])
      {
        assert j > 0 ==> lines[j] == lines[1..][j - 1];
      }
    }
  }

  /** Reading the printed index gives exactly the linked topics, the architectural ones and then the operational
      ones, numbered from 1, the scope label, and a metadata text that says what the metadata says. */
  lemma {:induction false} IndexComesBack(meta: Metadata, scope: string, arch: seq<Link>, ops: seq<Link>,
                                          unref: Option<string>)
    requires MetadataLaws.WellFormed(meta) && SingleLine(scope) && (unref.Some? ==> SingleLine(unref.value))
    requires AllReadable(arch) && AllReadable(ops)
    ensures var index := ReadIndex(IndexDocument(meta, BodyLines(scope, arch, ops, unref)));
            && index.metadata.Some? && Says(ReadLines(START, SplitLines(index.metadata.value)).data, meta)
            && index.topics == Numbered(arch + ops, 1)
            && (Trimmed(scope) ==> index.title == TITLE_WORDS + (" for " + scope) && index.scopeLabel == scope)
  {
    var body := BodyLines(scope, arch, ops, unref);
    BodySingle(scope, arch, ops, unref);
    MetadataComesBack(meta, "\n" + (Join(body, "\n") + "\n"));
    SplitIndexText(body);
    BodyRead(scope, arch, ops, unref);
    if Trimmed(scope) {
      TitleComesBack(scope, body);
    }
  }

  // ----- From points of interest to topics -----

  /** A heading that the mapper can print as a link. */
  predicate GoodHeading(heading: string) {
    Trimmed(heading) && SingleLine(heading) && NoLinkInside(heading)
  }

  predicate GoodEntry(e: TopicIndex.Entry) {
    GoodHeading(e.heading) && SingleLine(e.slug)
  }

  predicate GoodScope(scope: string) {
    SingleLine(scope) && (scope != [] ==> !IsSpace(scope[0]))
  }

  lemma PartsReadable(scope: string, tag: string, number: string, slug: string)
    requires scope != [] && !IsSpace(scope[0])
    requires SingleLine(scope) && SingleLine(tag) && SingleLine(number) && SingleLine(slug)
    ensures var name := scope + (tag + (number + ("_" + slug + ".md"))); Trimmed(name) && SingleLine(name)
  {
    SingleConcat("_", slug);
    SingleConcat("_" + slug, ".md");
    SingleConcat(number, "_" + slug + ".md");
    SingleConcat(tag, number + ("_" + slug + ".md"));
  }

  lemma TagSingle(operational: bool)
    ensures SingleLine(Tag(operational))
  {
  }

  lemma FileNameReadable(n: TopicName)
    requires GoodScope(n.scope) && SingleLine(n.slug)
    ensures Trimmed(FileName(n)) && SingleLine(FileName(n))
  {
    var s := SafeScope(n.scope);
    assert SingleLine(s) && !IsSpace(s[0]);
    TagSingle(n.operational);
    DecimalSingleLine(n.number);
    PartsReadable(s, Tag(n.operational), TwoDigits(n.number), n.slug);
  }

  lemma FailedHeading(heading: string)
    requires GoodHeading(heading)
    ensures GoodHeading(heading + " (failed)")
  {
    var h := heading + " (failed)";
    assert SingleLine(" (failed)") && ']' !in " (failed)";
    forall i | 1 <= i < |h| - 1
      ensures !(h[i] == ']' && h[i + 1] == '(')
    {
      if i >= |heading| {
        assert h[i] == " (failed)"[i - |heading|];
        assert h[i] in " (failed)";
      } else {
        assert h[i] == heading[i];
      }
    }
  }

  predicate GoodItem(item: IndexItem) {
    GoodHeading(item.heading) && GoodScope(item.name.scope) && SingleLine(item.name.slug)
  }

  predicate AllGood(items: seq<IndexItem>) {
    forall i :: 0 <= i < |items| ==> GoodItem(items[i])
  }

  lemma {:induction false} ItemReadable(item: IndexItem)
    requires GoodItem(item)
    ensures Readable(AsLink(item))
  {
    FileNameReadable(item.name);
    if item.failed {
      FailedHeading(item.heading);
    }
  }

  lemma {:induction false} AddedGood(a: Artifacts, scope: string, e: TopicIndex.Entry)
    requires AllGood(a.arch) && AllGood(a.ops) && GoodScope(scope) && GoodEntry(e)
    ensures var b := AddTopic(a, scope, e); AllGood(b.arch) && AllGood(b.ops)
  {
    var name := TopicName(scope, e.operational, (if e.operational then |a.ops| else |a.arch|) + 1, e.slug);
    assert GoodItem(IndexItem(e.heading, e.failed, name));
  }

  lemma {:induction false} ItemsGood(scope: string, entries: seq<TopicIndex.Entry>)
    requires GoodScope(scope) && forall k :: 0 <= k < |entries| ==> GoodEntry(entries[k])
    ensures var a := Build(scope, entries); AllGood(a.arch) && AllGood(a.ops)
  {
    if entries != [] {
      var init := entries[..|entries| - 1];
      ItemsGood(scope, init);
      AddedGood(Build(scope, init), scope, entries[|entries| - 1]);
    }
  }

  lemma {:induction false} LinksReadable(items: seq<IndexItem>)
    requires AllGood(items)
    ensures AllReadable(AsLinks(items))
  {
    forall i | 0 <= i < |items|
      ensures Readable(AsLinks(items)[i])
    {
      ItemReadable(items[i]);
    }
  }

  /** The printed link: its number, a dot, the heading in brackets and the file name in parentheses. */
  predicate PrintsLink(line: string, number: nat, link: Link) {
    line == Decimal(number) + (". [" + (link.heading + ("](" + (link.filename + ")"))))
  }

  lemma {:induction false} LinkLinesPrinted(links: seq<Link>, from: nat)
    ensures |LinkLines(links, from)| == |links|
    ensures forall k :: 0 <= k < |links| ==> PrintsLink(LinkLines(links, from)[k], from + k, links[k])
  {
    if links != [] {
      LinkLinesPrinted(links[1..], from + 1);
      forall k | 0 < k < |links|
        ensures PrintsLink(LinkLines(links, from)[k], from + k, links[k])
      {
        assert PrintsLink(LinkLines(links[1..], from + 1)[k - 1], from + 1 + (k - 1), links[1..][k - 1]);
      }
    }
  }

  lemma PartsInOrder(front: seq<string>, a: seq<string>, middle: seq<string>, b: seq<string>)
    ensures var all, j := front + (a + (middle + b)), |front| + |a|;
            && |all| == j + |middle| + |b|
            && (forall k :: 0 <= k < |front| ==> all[k] == front[k])
            && (forall k :: 0 <= k < |a| ==> all[|front| + k] == a[k])
            && (forall k :: 0 <= k < |middle| ==> all[j + k] == middle[k])
            && (forall k :: 0 <= k < |b| ==> all[j + |middle| + k] == b[k])
  {
  }

  lemma FrontEnds(scope: string, unref: Option<string>)
    ensures var front := FrontLines(scope, unref);
            && |front| >= 6 && front[0] == "# Code Mapper Topics for " + scope
            && front[|front| - 2] == "## Architectural Map"
  {
    assert TITLE_FRONT == "# Code Mapper Topics for ";
  }

  /** In the printed index each link has its number within its mode in front and stands below the heading of its
      mode: the architectural ones between lines `i` and `j`, the operational ones from there to the end. */
  lemma LinksUnderHeadings(scope: string, arch: seq<Link>, ops: seq<Link>, unref: Option<string>)
    returns (i: nat, j: nat)
    ensures var lines := BodyLines(scope, arch, ops, unref);
            && j == i + |arch| + 3 && |lines| == j + |ops| + 2
            && lines[0] == "# Code Mapper Topics for " + scope
            && lines[i] == "## Architectural Map" && lines[j] == "## Operational Map"
            && (forall k :: 0 <= k < |arch| ==> PrintsLink(lines[i + 2 + k], k + 1, arch[k]))
            && (forall k :: 0 <= k < |ops| ==> PrintsLink(lines[j + 2 + k], k + 1, ops[k]))
  {
    LinkLinesPrinted(arch, 1);
    LinkLinesPrinted(ops, 1);
    FrontEnds(scope, unref);
    var front := FrontLines(scope, unref);
    i := |front| - 2;
    j := i + |arch| + 3;
    PartsInOrder(front, LinkLines(arch, 1), MIDDLE_LINES, LinkLines(ops, 1));
    assert MIDDLE_LINES[1] == "## Operational Map";
  }

  /** The place of a topic in the index: architectural topics first. */
  function Place(a: Artifacts, name: TopicName): int {
    (if name.operational then |a.arch| else 0) + name.number
  }

  /** The entry has a topic at its place, under its heading, which a failure marks, and with the name of its file. */
  predicate Found(topics: seq<Topic>, a: Artifacts, e: TopicIndex.Entry, name: TopicName) {
    var place := Place(a, name);
    && 1 <= place <= |topics| && topics[place - 1].order == place && topics[place - 1].filename == FileName(name)
    && topics[place - 1].title == if e.failed then e.heading + " (failed)" else e.heading
  }

  lemma {:induction false} PlaceHolds(a: Artifacts, scope: string, e: TopicIndex.Entry, name: TopicName)
    requires ListedAs(a, scope, e, name)
    ensures Found(Numbered(AsLinks(a.arch) + AsLinks(a.ops), 1), a, e, name)
  {
    var items := ItemsOf(a, e.operational);
    var link := AsLink(items[name.number - 1]);
    assert AsLinks(items)[name.number - 1] == link;
    LinkAt(AsLinks(a.arch), AsLinks(a.ops), link, name.operational, name.number);
  }

  lemma LinkAt(arch: seq<Link>, ops: seq<Link>, link: Link, operational: bool, number: nat)
    requires var links := if operational then ops else arch; 1 <= number <= |links| && links[number - 1] == link
    ensures var place := (if operational then |arch| else 0) + number;
            && 1 <= place <= |arch + ops|
            && Numbered(arch + ops, 1)[place - 1] == Topic(place, link.heading, link.filename)
  {
  }

  /** The topics that the reader finds in the index printed for some artifacts. */
  function TopicsRead(meta: Metadata, scope: string, a: Artifacts, unref: Option<string>): seq<Topic> {
    var document := IndexDocument(meta, BodyLines(scope, AsLinks(a.arch), AsLinks(a.ops), unref));
    ReadIndex(document).topics
  }

  lemma {:induction false} TopicsNumbered(meta: Metadata, scope: string, entries: seq<TopicIndex.Entry>,
                                          unref: Option<string>)
    requires MetadataLaws.WellFormed(meta) && GoodScope(scope) && (unref.Some? ==> SingleLine(unref.value))
    requires forall k :: 0 <= k < |entries| ==> GoodEntry(entries[k])
    ensures var a := Build(scope, entries);
            TopicsRead(meta, scope, a, unref) == Numbered(AsLinks(a.arch) + AsLinks(a.ops), 1)
  {
    var a := Build(scope, entries);
    ItemsGood(scope, entries);
    LinksReadable(a.arch);
    LinksReadable(a.ops);
    IndexComesBack(meta, scope, AsLinks(a.arch), AsLinks(a.ops), unref);
  }

  /** For any points of interest, reading the index that was printed for them gives one topic per point, at its
      place, under its heading and with the name of its file. */
  lemma {:induction false} TopicsComeBack(meta: Metadata, scope: string, entries: seq<TopicIndex.Entry>,
                                          unref: Option<string>)
    returns (topics: seq<Topic>)
    requires MetadataLaws.WellFormed(meta) && GoodScope(scope) && (unref.Some? ==> SingleLine(unref.value))
    requires forall k :: 0 <= k < |entries| ==> GoodEntry(entries[k])
    ensures topics == TopicsRead(meta, scope, Build(scope, entries), unref)
    ensures |topics| == |entries|
    ensures var a := Build(scope, entries);
            forall k :: 0 <= k < |entries| ==> Found(topics, a, entries[k], a.files[k].name)
  {
    var a := Build(scope, entries);
    TopicsNumbered(meta, scope, entries, unref);
    topics := Numbered(AsLinks(a.arch) + AsLinks(a.ops), 1);
    EveryTopicListed(scope, entries);
    forall k | 0 <= k < |entries|
      ensures Found(topics, a, entries[k], a.files[k].name)
    {
      PlaceHolds(a, scope, entries[k], a.files[k].name);
    }
  }
}
