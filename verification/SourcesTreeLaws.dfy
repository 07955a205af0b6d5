/** Reading back the printed sources tree yields exactly its leaves with their full paths. */
module SourcesTreeLaws {
  import opened Text
  import opened Wrappers
  import opened SourcesTree

  /** No white space directly before an opening parenthesis, which would read as details. */
  predicate NoParenGap(s: string) {
    forall i :: 0 <= i < |s| - 1 && IsSpace(s[i]) ==> s[i + 1] != '('
  }

  /** A path component: one trimmed line without a slash. */
  predicate Component(s: string) {
    Trimmed(s) && SingleLine(s) && '/' !in s
  }

  /** A name that starts with a number in brackets, which would read as a reference. */
  predicate LooksReferenced(name: string) {
    && name != [] && name[0] == '['
    && var k := DigitRun(name[1..]);
       k > 0 && k + 1 < |name| && name[k + 1] == ']' && (k + 2 < |name| ==> IsSpace(name[k + 2]))
  }

  predicate Printable(node: Node) {
    match node
    case Dir(name, children) => Component(name) && AllPrintable(children)
    case File(name, ref, details) =>
      && Component(name) && details != [] && SingleLine(details)
      && (if ref.Some? then NoParenGap(name) else !LooksReferenced(name))
  }

  predicate AllPrintable(nodes: seq<Node>) {
    forall i :: 0 <= i < |nodes| ==> Printable(nodes[i])
  }

  /** A forest as the footer builds it: directories may be unnamed anywhere, since a path may have empty components. */
  predicate Sane(nodes: seq<Node>)
    decreases nodes
  {
    nodes == [] || (SaneNode(nodes[0]) && Sane(nodes[1..]))
  }

  predicate SaneNode(node: Node)
    decreases node
  {
    if node.Dir? then (node.name == [] || Component(node.name)) && Sane(node.children) else Printable(node)
  }

  // ----- One line -----

  /** What stands before a branch drawing: bars and tabs. */
  predicate IsPrefix(s: string) {
    forall i :: 0 <= i < |s| ==> s[i] == BAR || s[i] == '\t'
  }

  lemma {:induction false} SkipPrefix(prefix: string, rest: string, i: nat)
    requires IsPrefix(prefix) && i <= |prefix| && BranchAt(prefix + rest, |prefix|)
    ensures FindBranch(prefix + rest, i) == |prefix|
    decreases |prefix| - i
  {
    if i < |prefix| {
      assert (prefix + rest)[i] == prefix[i];
      SkipPrefix(prefix, rest, i + 1);
    }
  }

  lemma {:induction false} PrintedLineParts(prefix: string, isLast: bool, text: string)
    requires IsPrefix(prefix) && Trimmed(text)
    ensures var line := prefix + Connector(isLast) + text;
            && FindBranch(line, 0) == |prefix| < |line| && line[..|prefix|] == prefix
            && Strip(line[|prefix| + 3..]) == text
  {
    var line := prefix + Connector(isLast) + text;
    assert line == prefix + (Connector(isLast) + text);
    assert BranchAt(line, |prefix|);
    SkipPrefix(prefix, Connector(isLast) + text, 0);
    assert line[|prefix| + 3..] == [' '] + text;
    StripAfterSpace(text);
  }

  /** Stripping leading white space cannot expose an opening parenthesis. */
  lemma {:induction false} NoDetailsInside(s: string, tail: string)
    requires s != [] && !IsSpace(s[|s| - 1]) && NoParenGap(s) && IsSpace(s[0])
    ensures LStrip(s + tail) != [] && LStrip(s + tail)[0] != '('
  {
    assert (s + tail)[1..] == s[1..] + tail;
    assert s[1..] != [];
    if IsSpace(s[1]) {
      NoDetailsInside(s[1..], tail);
    } else {
      assert LStrip(s[1..] + tail) == s[1..] + tail;
    }
  }

  lemma {:induction false} NameEnds(name: string, tail: string, n: nat)
    requires Trimmed(name) && NoParenGap(name) && IsDetails(tail) && 1 <= n <= |name|
    ensures NameLength(name + tail, n) == |name|
    decreases |name| - n
  {
    var s := name + tail;
    if n == |name| {
      assert s[n..] == tail;
    } else {
      assert s[n..] == name[n..] + tail;
      if IsSpace(name[n]) {
        forall i | 0 <= i < |name[n..]| - 1 && IsSpace(name[n..][i])
          ensures name[n..][i + 1] != '('
        {
          assert name[n..][i] == name[n + i];
        }
        NoDetailsInside(name[n..], tail);
      }
      NameEnds(name, tail, n + 1);
    }
  }

  lemma {:induction false} DetailsTail(details: string)
    requires details != []
    ensures var tail := " (" + details + ")";
            IsDetails(tail) && LStrip(tail) == "(" + details + ")"
            && LStrip(tail)[1..|LStrip(tail)| - 1] == details && Trimmed(tail[1..])
  {
    var tail := " (" + details + ")";
    assert tail[1..] == "(" + details + ")";
    assert LStrip(tail) == LStrip(tail[1..]) == tail[1..];
    assert tail[1..][1..|tail[1..]| - 1] == details;
  }

  /** The reference number in front: where it ends, and what follows it. */
  lemma {:induction false} RefParts(digits: string, rest: string, content: string)
    requires (forall i :: 0 <= i < |digits| ==> IsDigit(digits[i])) && rest != [] && !IsSpace(rest[0])
    requires content == "[" + digits + "] " + rest
    ensures DigitRun(content[1..]) == |digits|
    ensures content[1..|digits| + 1] == digits && content[|digits| + 1] == ']' && content[|digits| + 2] == ' '
    ensures LStrip(content[|digits| + 2..]) == rest
  {
    var behind := "] " + rest;
    assert content[1..] == digits + behind;
    DigitRunStops(digits, behind);
    var s := content[|digits| + 2..];
    assert s == " " + rest;
    assert s[1..] == rest;
    assert LStrip(s) == LStrip(s[1..]);
  }

  lemma FileTextParts(ref: nat, name: string, details: string)
    requires details != []
    ensures var content := FileText(ref, name, details);
            && content == "[" + Decimal(ref) + "] " + (name + (" (" + details + ")"))
            && Trimmed(content) && content[|content| - 1] == ')'
  {
  }

  lemma {:induction false} RefParsed(digits: string, rest: string, content: string)
    requires digits != [] && forall i :: 0 <= i < |digits| ==> IsDigit(digits[i])
    requires rest != [] && !IsSpace(rest[0]) && content == "[" + digits + "] " + rest
    ensures ParseFile(content) == Some(NameAndDetails(digits, rest))
  {
    RefParts(digits, rest, content);
    ParsedFrom(content, digits, rest, |digits|);
  }

  lemma ParsedFrom(content: string, digits: string, rest: string, k: nat)
    requires 0 < k && k + 2 < |content| && content[0] == '[' && DigitRun(content[1..]) == k
    requires content[1..k + 1] == digits && content[k + 1] == ']' && content[k + 2] == ' '
    requires LStrip(content[k + 2..]) == rest && rest != []
    ensures ParseFile(content) == Some(NameAndDetails(digits, rest))
  {
  }

  lemma {:induction false} NameParsed(digits: string, name: string, tail: string)
    requires Trimmed(name) && NoParenGap(name) && IsDetails(tail)
    ensures NameAndDetails(digits, name + tail) == FileLine(digits, name, Some(LStrip(tail)[1..|LStrip(tail)| - 1]))
  {
    var s := name + tail;
    NameEnds(name, tail, 1);
    assert s[..|name|] == name && s[|name|..] == tail;
    StripTrimmed(name);
  }

  lemma {:induction false} ParsePrinted(ref: nat, name: string, details: string)
    requires Trimmed(name) && NoParenGap(name) && details != []
    ensures var content := FileText(ref, name, details);
            && ParseFile(content) == Some(FileLine(Decimal(ref), name, Some(details)))
            && Trimmed(content) && content[|content| - 1] == ')'
  {
    FileTextParts(ref, name, details);
    DetailsTail(details);
    RefParsed(Decimal(ref), name + (" (" + details + ")"), FileText(ref, name, details));
    NameParsed(Decimal(ref), name, " (" + details + ")");
  }

  lemma {:induction false} NameLengthBelow(s: string, n: nat, i: nat)
    requires n <= i <= |s| && IsDetails(s[i..])
    ensures NameLength(s, n) <= i
    decreases i - n
  {
    if n < i && !IsDetails(s[n..]) {
      NameLengthBelow(s, n + 1, i);
    }
  }

  /** From a gap inside the name on, everything up to the end reads as details. */
  lemma {:induction false} GapReadsAsDetails(name: string, details: string, i: nat)
    requires i < |name| - 1 && IsSpace(name[i]) && name[i + 1] == '('
    ensures IsDetails((name + (" (" + details + ")"))[i..])
  {
    var u := (name + (" (" + details + ")"))[i..];
    assert u[0] == name[i] && u[1] == name[i + 1];
    assert LStrip(u) == LStrip(u[1..]) == u[1..];
  }

  lemma {:induction false} GapCutsName(digits: string, name: string, tail: string, content: string, i: nat)
    requires digits != [] && forall k :: 0 <= k < |digits| ==> IsDigit(digits[k])
    requires Trimmed(name) && 1 <= i < |name| && IsDetails((name + tail)[i..])
    requires content == "[" + digits + "] " + (name + tail)
    ensures ParseFile(content).Some? && |ParseFile(content).value.name| < |name|
  {
    var s := name + tail;
    RefParsed(digits, s, content);
    NameLengthBelow(s, 1, i);
  }

  /** A printed file line is read back exactly when its name has no white space before an opening parenthesis. */
  lemma {:induction false} FileLineReadBackExactlyWhen(ref: nat, name: string, details: string)
    requires Trimmed(name) && details != []
    ensures ParseFile(FileText(ref, name, details)) == Some(FileLine(Decimal(ref), name, Some(details)))
            <==> NoParenGap(name)
  {
    if NoParenGap(name) {
      ParsePrinted(ref, name, details);
    } else {
      var i :| 0 <= i < |name| - 1 && IsSpace(name[i]) && name[i + 1] == '(';
      FileTextParts(ref, name, details);
      GapReadsAsDetails(name, details, i);
      GapCutsName(Decimal(ref), name, " (" + details + ")", FileText(ref, name, details), i);
    }
  }

  lemma {:induction false} DigitRunWithin(s: string, rest: string)
    requires rest != [] && !IsDecimalDigit(rest[0])
    ensures DigitRun(s + rest) == DigitRun(s)
  {
    if s == [] {
      assert s + rest == rest;
    } else {
      assert (s + rest)[1..] == s[1..] + rest;
      DigitRunWithin(s[1..], rest);
    }
  }

  lemma {:induction false} SkippedExactlyWhen(name: string, tail: string)
    requires Trimmed(name) && tail != [] && tail[0] == ' ' && !IsSpace(tail[|tail| - 1])
    ensures ParseFile(name + tail) == None <==> !LooksReferenced(name)
  {
    var content := name + tail;
    assert content[1..] == name[1..] + tail;
    DigitRunWithin(name[1..], tail);
    var k := DigitRun(name[1..]);
    assert content[k + 1] == if k + 1 < |name| then name[k + 1] else ' ';
    if k + 1 < |name| && name[k + 1] == ']' {
      assert content[k + 2] == if k + 2 < |name| then name[k + 2] else ' ';
      BracketEnds(content[k + 2..]);
    }
  }

  /** A file without a reference number is not taken for a reference, exactly when its name does not look like one. */
  lemma {:induction false} PlainSkippedExactlyWhen(name: string, details: string)
    requires Trimmed(name)
    ensures ParseFile(PlainText(name, details)) == None <==> !LooksReferenced(name)
  {
    var tail := " (" + details + ")";
    assert PlainText(name, details) == name + tail;
    SkippedExactlyWhen(name, tail);
  }

  lemma {:induction false} BracketEnds(s: string)
    requires s != [] && !IsSpace(s[|s| - 1])
    ensures LStrip(s) != []
  {
    if IsSpace(s[0]) {
      BracketEnds(s[1..]);
    }
  }

  lemma PlainTextEnds(name: string, details: string)
    requires Trimmed(name)
    ensures var content := PlainText(name, details); Trimmed(content) && content[|content| - 1] == ')'
  {
  }

  lemma DirText(name: string)
    requires Component(name)
    ensures Trimmed(name + "/") && RStripSlash(name + "/") == name
  {
    assert (name + "/")[..|name|] == name;
    assert name[|name| - 1] in name;
  }

  lemma {:induction false} JoinFirst(parts: seq<string>, sep: string)
    requires parts != [] && parts[0] != []
    ensures Join(parts, sep) != [] && Join(parts, sep)[0] == parts[0][0]
  {
  }

  // ----- The stack machine -----

  lemma {:induction false} ReadAppend(p: Progress, a: seq<string>, b: seq<string>)
    ensures ReadLines(p, a + b) == ReadLines(ReadLines(p, a), b)
    decreases a
  {
    if a == [] {
      assert a + b == b;
    } else {
      assert (a + b)[1..] == a[1..] + b && (a + b)[0] == a[0];
      ReadAppend(ReadLine(p, a[0]), a[1..], b);
    }
  }

  lemma DeeperTabs(prefix: string, isLast: bool)
    requires IsPrefix(prefix)
    ensures IsPrefix(Deeper(prefix, isLast)) && CountTabs(Deeper(prefix, isLast)) == CountTabs(prefix) + 1
  {
    var d := Deeper(prefix, isLast);
    if isLast {
      assert d[..|d| - 1] == prefix;
    } else {
      assert d[..|d| - 1] == prefix + [BAR];
      assert (prefix + [BAR])[..|prefix|] == prefix;
    }
  }

  predicate AllComponents(dirs: seq<string>) {
    forall i :: 0 <= i < |dirs| ==> Component(dirs[i])
  }

  /** The reader stands below the directories `dirs`. */
  predicate Below(p: Progress, dirs: seq<string>) {
    |dirs| <= |p.stack| && p.stack[..|dirs|] == dirs
  }

  lemma {:induction false} ReadPrinted(p: Progress, prefix: string, isLast: bool, text: string)
    requires IsPrefix(prefix) && Trimmed(text)
    ensures ReadLine(p, prefix + Connector(isLast) + text) == ReadContent(p, CountTabs(prefix), text)
  {
    PrintedLineParts(prefix, isLast, text);
  }

  lemma {:induction false} ReadDir(p: Progress, dirs: seq<string>, name: string)
    requires Below(p, dirs) && Component(name)
    ensures var p' := ReadContent(p, |dirs|, name + "/"); p'.items == p.items && p'.stack == dirs + [name]
  {
    DirText(name);
    var r := Enter(p.stack, |dirs|, name);
    forall i | 0 <= i < |dirs|
      ensures r[i] == dirs[i]
    {
      assert p.stack[..|dirs|][i] == p.stack[i];
    }
    assert r == dirs + [name];
  }

  lemma {:induction false} ReadDirLine(p: Progress, dirs: seq<string>, name: string, prefix: string, isLast: bool)
    requires IsPrefix(prefix) && CountTabs(prefix) == |dirs| && Below(p, dirs) && Component(name)
    ensures var p' := ReadLine(p, prefix + Connector(isLast) + (name + "/"));
            p'.items == p.items && p'.stack == dirs + [name]
  {
    DirText(name);
    ReadPrinted(p, prefix, isLast, name + "/");
    ReadDir(p, dirs, name);
  }

  lemma {:induction false} NoLeadingSlash(dirs: seq<string>, name: string)
    requires AllComponents(dirs) && Component(name)
    ensures LStripSlash(Join(dirs + [name], "/")) == Join(dirs + [name], "/")
  {
    var parts := dirs + [name];
    assert Component(parts[0]);
    JoinFirst(parts, "/");
    assert parts[0][0] in parts[0];
  }

  /** The item of a file, if it has a reference number. */
  function FileItems(file: Node, dirs: seq<string>): seq<string>
    requires file.File?
  {
    if file.ref.Some? then [Item(Decimal(file.ref.value), Join(dirs + [file.name], "/"), Some(file.details))] else []
  }

  lemma {:induction false} ReadFile(p: Progress, dirs: seq<string>, file: Node)
    requires Below(p, dirs) && AllComponents(dirs) && file.File? && Printable(file)
    ensures ReadContent(p, |dirs|, NodeText(file)) == p.(items := p.items + FileItems(file, dirs))
    ensures Trimmed(NodeText(file))
  {
    if file.ref.Some? {
      ParsePrinted(file.ref.value, file.name, file.details);
      NoLeadingSlash(dirs, file.name);
    } else {
      PlainSkippedExactlyWhen(file.name, file.details);
      PlainTextEnds(file.name, file.details);
      assert p.items + [] == p.items;
    }
  }

  lemma {:induction false} ReadFileLine(p: Progress, dirs: seq<string>, file: Node, prefix: string, isLast: bool)
    requires IsPrefix(prefix) && CountTabs(prefix) == |dirs| && Below(p, dirs) && AllComponents(dirs)
    requires file.File? && Printable(file)
    ensures ReadLine(p, prefix + Connector(isLast) + NodeText(file)) == p.(items := p.items + FileItems(file, dirs))
  {
    ReadFile(p, dirs, file);
    ReadPrinted(p, prefix, isLast, NodeText(file));
  }

  /** A directory line, then everything below it. */
  lemma {:induction false} ReadUnder(p: Progress, p1: Progress, dirs: seq<string>, name: string, line: string,
                                     below: seq<string>)
    requires p1 == ReadLine(p, line) && Below(ReadLines(p1, below), dirs + [name])
    ensures ReadLines(p, [line] + below) == ReadLines(p1, below)
    ensures Below(ReadLines(p1, below), dirs)
  {
    assert ([line] + below)[1..] == below;
    var stack := ReadLines(p1, below).stack;
    assert stack[..|dirs|] == stack[..|dirs| + 1][..|dirs|] == dirs;
  }

  lemma {:induction false} ReadNode(p: Progress, dirs: seq<string>, node: Node, prefix: string, isLast: bool)
    requires IsPrefix(prefix) && CountTabs(prefix) == |dirs| && Below(p, dirs) && AllComponents(dirs) && Printable(node)
    ensures var p' := ReadLines(p, RenderNode(node, prefix, isLast));
            Below(p', dirs) && p'.items == p.items + Items([node], dirs)
    decreases node, 1
  {
    var line := prefix + Connector(isLast) + NodeText(node);
    match node
    case Dir(name, children) =>
      ReadDirLine(p, dirs, name, prefix, isLast);
      DeeperTabs(prefix, isLast);
      var p1 := ReadLine(p, line);
      ReadAll(p1, dirs + [name], children, Deeper(prefix, isLast));
      ReadUnder(p, p1, dirs, name, line, RenderAll(children, Deeper(prefix, isLast)));
      assert Items([node], dirs) == Items(children, dirs + [name]) + Items([], dirs);
    case File(name, ref, details) => ReadFileNode(p, dirs, node, prefix, isLast);
  }

  lemma {:induction false} ReadFileNode(p: Progress, dirs: seq<string>, file: Node, prefix: string, isLast: bool)
    requires IsPrefix(prefix) && CountTabs(prefix) == |dirs| && Below(p, dirs) && AllComponents(dirs)
    requires file.File? && Printable(file)
    ensures ReadLines(p, RenderNode(file, prefix, isLast)) == p.(items := p.items + FileItems(file, dirs))
    ensures Items([file], dirs) == FileItems(file, dirs)
  {
    var line := prefix + Connector(isLast) + NodeText(file);
    ReadFileLine(p, dirs, file, prefix, isLast);
    assert RenderNode(file, prefix, isLast) == [line];
    assert [line][1..] == [];
    assert Items([file], dirs) == FileItems(file, dirs) + Items([], dirs);
  }

  lemma {:induction false} ReadAll(p: Progress, dirs: seq<string>, nodes: seq<Node>, prefix: string)
    requires IsPrefix(prefix) && CountTabs(prefix) == |dirs| && Below(p, dirs) && AllComponents(dirs)
    requires AllPrintable(nodes)
    ensures var p' := ReadLines(p, RenderAll(nodes, prefix));
            Below(p', dirs) && p'.items == p.items + Items(nodes, dirs)
    decreases nodes, 0
  {
    if nodes != [] {
      var first, rest := RenderNode(nodes[0], prefix, |nodes| == 1), RenderAll(nodes[1..], prefix);
      ReadNode(p, dirs, nodes[0], prefix, |nodes| == 1);
      var p1 := ReadLines(p, first);
      ReadAll(p1, dirs, nodes[1..], prefix);
      ReadJoined(p, p1, first, rest, Items([nodes[0]], dirs), Items(nodes[1..], dirs));
      ItemsCons(nodes, dirs);
    }
  }

  lemma {:induction false} ReadJoined(p: Progress, p1: Progress, first: seq<string>, rest: seq<string>,
                                      a: seq<string>, b: seq<string>)
    requires p1 == ReadLines(p, first) && p1.items == p.items + a && ReadLines(p1, rest).items == p1.items + b
    ensures ReadLines(p, first + rest) == ReadLines(p1, rest)
    ensures ReadLines(p, first + rest).items == p.items + (a + b)
  {
    ReadAppend(p, first, rest);
    Regrouped(p.items, a, b);
  }

  lemma Regrouped(items: seq<string>, a: seq<string>, b: seq<string>)
    ensures items + a + b == items + (a + b)
  {
  }

  lemma {:induction false} ItemsCons(nodes: seq<Node>, dirs: seq<string>)
    requires nodes != []
    ensures Items(nodes, dirs) == Items([nodes[0]], dirs) + Items(nodes[1..], dirs)
  {
    assert [nodes[0]][1..] == [];
  }

  // ----- The whole block -----

  /** What may stand at the top: printable nodes, and unnamed directories of such, as absolute paths give them. */
  predicate TopPrintable(nodes: seq<Node>)
    decreases nodes
  {
    nodes == []
    || (&& (if nodes[0].Dir? && nodes[0].name == [] then TopPrintable(nodes[0].children) else Printable(nodes[0]))
        && TopPrintable(nodes[1..]))
  }

  lemma {:induction false} ReadTop(p: Progress, nodes: seq<Node>)
    requires TopPrintable(nodes)
    ensures ReadLines(p, RenderAll(nodes, "")).items == p.items + Items(nodes, [])
    decreases nodes
  {
    if nodes != [] {
      var first, rest := RenderNode(nodes[0], "", |nodes| == 1), RenderAll(nodes[1..], "");
      var p1 := ReadLines(p, first);
      if nodes[0].name == [] {
        ReadTop(p, nodes[0].children);
        assert Items([nodes[0]], []) == Items(nodes[0].children, []) + Items([], []);
      } else {
        ReadNode(p, [], nodes[0], "", |nodes| == 1);
      }
      ReadTop(p1, nodes[1..]);
      ReadJoined(p, p1, first, rest, Items([nodes[0]], []), Items(nodes[1..], []));
      ItemsCons(nodes, []);
    }
  }

  predicate TextLines(lines: seq<string>) {
    forall i :: 0 <= i < |lines| ==> SingleLine(lines[i]) && lines[i] != []
  }

  lemma {:induction false} NodeTextSingle(node: Node)
    requires SaneNode(node) && node.name != []
    ensures SingleLine(NodeText(node)) && NodeText(node) != []
  {
    if node.Dir? {
      SingleConcat(node.name, "/");
    } else {
      SingleConcat(node.name, " (");
      SingleConcat(node.name + " (", node.details);
      SingleConcat(node.name + " (" + node.details, ")");
      if node.ref.Some? {
        DecimalSingleLine(node.ref.value);
        FileTextSingle(Decimal(node.ref.value), PlainText(node.name, node.details));
        assert NodeText(node) == "[" + Decimal(node.ref.value) + "] " + PlainText(node.name, node.details);
      }
    }
  }

  lemma {:induction false} FileTextSingle(digits: string, text: string)
    requires SingleLine(digits) && SingleLine(text)
    ensures SingleLine("[" + digits + "] " + text)
  {
    SingleConcat("[", digits);
    SingleConcat("[" + digits, "] ");
    SingleConcat("[" + digits + "] ", text);
  }

  lemma {:induction false} PrintedLine(node: Node, prefix: string, isLast: bool)
    requires IsPrefix(prefix) && SaneNode(node) && node.name != []
    ensures TextLines([prefix + Connector(isLast) + NodeText(node)])
  {
    NodeTextSingle(node);
    SingleConcat(prefix, Connector(isLast));
    SingleConcat(prefix + Connector(isLast), NodeText(node));
  }

  lemma {:induction false} RenderedLines(nodes: seq<Node>, prefix: string)
    requires IsPrefix(prefix) && Sane(nodes)
    ensures TextLines(RenderAll(nodes, prefix))
    decreases nodes
  {
    if nodes != [] {
      RenderedNodeLines(nodes[0], prefix, |nodes| == 1);
      RenderedLines(nodes[1..], prefix);
    }
  }

  lemma {:induction false} RenderedNodeLines(node: Node, prefix: string, isLast: bool)
    requires IsPrefix(prefix) && SaneNode(node)
    ensures TextLines(RenderNode(node, prefix, isLast))
    decreases node
  {
    if node.name == [] {
      RenderedLines(node.children, "");
    } else {
      PrintedLine(node, prefix, isLast);
      if node.Dir? {
        DeeperTabs(prefix, isLast);
        RenderedLines(node.children, Deeper(prefix, isLast));
      }
    }
  }

  /** Splitting the printed block into lines gives the lines that were printed. */
  lemma {:induction false} BlockLines(nodes: seq<Node>)
    requires Sane(nodes)
    ensures SplitLines(Join(RenderAll(nodes, ""), "\n")) == RenderAll(nodes, "")
  {
    RenderedLines(nodes, "");
    if RenderAll(nodes, "") != [] {
      SplitJoinedLinesExact(RenderAll(nodes, ""));
    }
  }

  lemma {:induction false} PrintableSane(node: Node)
    requires Printable(node)
    ensures SaneNode(node)
    decreases node
  {
    if node.Dir? {
      AllPrintableSane(node.children);
    }
  }

  lemma {:induction false} AllPrintableSane(nodes: seq<Node>)
    requires AllPrintable(nodes)
    ensures Sane(nodes)
    decreases nodes
  {
    if nodes != [] {
      PrintableSane(nodes[0]);
      AllPrintableSane(nodes[1..]);
    }
  }

  lemma {:induction false} TopPrintableSane(nodes: seq<Node>)
    requires TopPrintable(nodes)
    ensures Sane(nodes)
    decreases nodes
  {
    if nodes != [] {
      if nodes[0].Dir? && nodes[0].name == [] {
        TopPrintableSane(nodes[0].children);
      } else {
        PrintableSane(nodes[0]);
      }
      TopPrintableSane(nodes[1..]);
    }
  }

  lemma BacktickSplits(a: string, x: string, b: string, y: string)
    requires '`' !in a && '`' !in b && a + ("`" + x) == b + ("`" + y)
    ensures a == b && x == y
  {
    var s := a + ("`" + x);
    assert s[|a|] == '`' && (b + ("`" + y))[|b|] == '`';
    assert s[..|a|] == a && (b + ("`" + y))[..|b|] == b;
    assert s[|a| + 1..] == x && (b + ("`" + y))[|b| + 1..] == y;
  }

  /** What an item looks like; and as long as no path has a backtick, an item tells its reference number, its path and
      its details. */
  lemma ItemTells(ref: nat, path: string, details: string, ref': nat, path': string, details': string)
    requires '`' !in path && '`' !in path'
    ensures Item(Decimal(ref), path, Some(details)) == "- [" + Decimal(ref) + "] `" + path + "` (" + details + ")"
    ensures Item(Decimal(ref), path, None) == "- [" + Decimal(ref) + "] `" + path + "`"
    ensures Item(Decimal(ref), path, Some(details)) == Item(Decimal(ref'), path', Some(details'))
            ==> ref == ref' && path == path' && details == details'
  {
    var front, front' := "- [" + Decimal(ref) + "] ", "- [" + Decimal(ref') + "] ";
    var back, back' := " (" + details + ")", " (" + details' + ")";
    var x, x' := path + ("`" + back), path' + ("`" + back');
    ItemParts(ref, path, details);
    ItemParts(ref', path', details');
    if front + ("`" + x) == front' + ("`" + x') {
      BacktickSplits(front, x, front', x');
      BacktickSplits(path, back, path', back');
      assert front[3..|front| - 2] == Decimal(ref) && front'[3..|front'| - 2] == Decimal(ref');
      DecimalInjective(ref, ref');
      assert back[2..|back| - 1] == details && back'[2..|back'| - 1] == details';
    }
  }

  lemma ItemParts(ref: nat, path: string, details: string)
    ensures Item(Decimal(ref), path, Some(details))
            == ("- [" + Decimal(ref) + "] ") + ("`" + (path + ("`" + (" (" + details + ")"))))
  {
  }

  /** For every tree, reading the printed block gives exactly the referenced leaves in order, each with the path that a
      recursive walk computes, its reference number and its details. */
  lemma SourcesRoundTrip(nodes: seq<Node>)
    requires TopPrintable(nodes)
    ensures ReadLines(Progress([], []), SplitLines(Join(RenderAll(nodes, ""), "\n"))).items == Items(nodes, [])
  {
    TopPrintableSane(nodes);
    BlockLines(nodes);
    ReadTop(Progress([], []), nodes);
  }
}
