/** The sources tree: printed by the research footer (chunkhound/services/research/shared/citation_manager.py,
    `render_node`) and read back by AutoDoc (chunkhound/autodoc/references.py, `flatten_sources_block`). */
module SourcesTree {
  import opened Text
  import opened Wrappers

  datatype Node =
    | Dir(name: string, children: seq<Node>)
    | File(name: string, ref: Option<nat>, details: string)

  const TEE := '\U{251C}'
  const CORNER := '\U{2514}'
  const DASH := '\U{2500}'
  const BAR := '\U{2502}'

  // ----- The printer -----

  function Connector(isLast: bool): string {
    [if isLast then CORNER else TEE, DASH, DASH, ' ']
  }

  function FileText(ref: nat, name: string, details: string): string {
    "[" + Decimal(ref) + "] " + name + " (" + details + ")"
  }

  /** The text of a file without a reference number. */
  function PlainText(name: string, details: string): string {
    name + " (" + details + ")"
  }

  function NodeText(node: Node): string {
    match node
    case Dir(name, _) => name + "/"
    case File(name, ref, details) => if ref.Some? then FileText(ref.value, name, details) else PlainText(name, details)
  }

  function Deeper(prefix: string, isLast: bool): string {
    prefix + (if isLast then "\t" else [BAR, '\t'])
  }

  /** A node without a name, such as the one for the leading slash of an absolute path, prints no line and starts
      over at the left. */
  function RenderNode(node: Node, prefix: string, isLast: bool): seq<string>
    decreases node, 1
  {
    if node.name == [] then if node.Dir? then RenderAll(node.children, "") else []
    else
      [prefix + Connector(isLast) + NodeText(node)]
      + (if node.Dir? then RenderAll(node.children, Deeper(prefix, isLast)) else [])
  }

  function RenderAll(nodes: seq<Node>, prefix: string): seq<string>
    decreases nodes, 0
  {
    if nodes == [] then []
    else RenderNode(nodes[0], prefix, |nodes| == 1) + RenderAll(nodes[1..], prefix)
  }

  /** The leaves with a reference number in order, each with the path a recursive walk computes; leading slashes do
      not show. */
  function Items(nodes: seq<Node>, dirs: seq<string>): seq<string>
    decreases nodes
  {
    if nodes == [] then []
    else
      (match nodes[0]
       case Dir(name, children) => Items(children, if name == [] then dirs else dirs + [name])
       case File(name, ref, details) =>
         if ref.Some? then [Item(Decimal(ref.value), Join(dirs + [name], "/"), Some(details))] else [])
      + Items(nodes[1..], dirs)
  }

  function Item(ref: string, path: string, details: Option<string>): string {
    "- [" + ref + "] `" + path + "`" + (if details.Some? then " (" + details.value + ")" else "")
  }

  // ----- The reader -----

  predicate IsTee(c: char) {
    c == TEE || c == CORNER
  }

  /** A branch drawing at position `i`, white space and at least one more character. */
  predicate BranchAt(line: string, i: nat) {
    && i + 5 <= |line| && IsTee(line[i]) && line[i + 1] == DASH && line[i + 2] == DASH && IsSpace(line[i + 3])
  }

  function FindBranch(line: string, i: nat): (r: nat)
    requires i <= |line|
    ensures i <= r <= |line| && (r < |line| ==> BranchAt(line, r))
    ensures forall j :: i <= j < r ==> !BranchAt(line, j)
    decreases |line| - i
  {
    if i == |line| || BranchAt(line, i) then i else FindBranch(line, i + 1)
  }

  function CountTabs(s: string): nat {
    if s == [] then 0 else CountTabs(s[..|s| - 1]) + (if s[|s| - 1] == '\t' then 1 else 0)
  }

  function RStripSlash(s: string): string {
    if s != [] && s[|s| - 1] == '/' then RStripSlash(s[..|s| - 1]) else s
  }

  function LStripSlash(s: string): string {
    if s != [] && s[0] == '/' then LStripSlash(s[1..]) else s
  }

  /** White space, then a non-empty text in parentheses up to the end. */
  predicate IsDetails(s: string) {
    && s != [] && IsSpace(s[0])
    && var u := LStrip(s); |u| >= 3 && u[0] == '(' && u[|u| - 1] == ')'
  }

  /** The shortest name of at least `n` characters after which nothing or only details follow. */
  function NameLength(s: string, n: nat): (r: nat)
    requires n <= |s|
    ensures n <= r <= |s|
    decreases |s| - n
  {
    if n == |s| || IsDetails(s[n..]) then n else NameLength(s, n + 1)
  }

  datatype FileLine = FileLine(ref: string, name: string, details: Option<string>)

  /** The name and the details behind a reference number. */
  function NameAndDetails(ref: string, s: string): FileLine
    requires s != []
  {
    var n := NameLength(s, 1);
    var rest := LStrip(s[n..]);
    FileLine(ref, Strip(s[..n]), if n < |s| && |rest| >= 2 then Some(rest[1..|rest| - 1]) else None)
  }

  function ParseFile(content: string): Option<FileLine> {
    if content == [] || content[0] != '[' then None
    else
      var k := DigitRun(content[1..]);
      if k == 0 || k + 2 >= |content| || content[k + 1] != ']' || !IsSpace(content[k + 2]) then None
      else
        var s := LStrip(content[k + 2..]);
        if s == [] then None else Some(NameAndDetails(content[1..k + 1], s))
  }

  /** The stack after a directory line at a given depth: padded, overwritten, cut off behind. */
  function Enter(stack: seq<string>, depth: nat, name: string): (r: seq<string>)
    ensures |r| == depth + 1 && r[depth] == name
    ensures forall i :: 0 <= i < depth && i < |stack| ==> r[i] == stack[i]
  {
    seq(depth + 1, i => if i == depth then name else if 0 <= i < |stack| then stack[i] else "")
  }

  datatype Progress = Progress(stack: seq<string>, items: seq<string>)

  /** What a branch line at a depth does: a directory goes on the stack, a file becomes an item. */
  function ReadContent(p: Progress, depth: nat, content: string): Progress {
    if content != [] && content[|content| - 1] == '/' then
      p.(stack := Enter(p.stack, depth, RStripSlash(content)))
    else
      match ParseFile(content)
      case None => p
      case Some(f) =>
        var parts := if depth <= |p.stack| then p.stack[..depth] else p.stack;
        p.(items := p.items + [Item(f.ref, LStripSlash(Join(parts + [f.name], "/")), f.details)])
  }

  function ReadLine(p: Progress, line: string): Progress {
    var i := FindBranch(line, 0);
    if i == |line| then p else ReadContent(p, CountTabs(line[..i]), Strip(line[i + 3..]))
  }

  function ReadLines(p: Progress, lines: seq<string>): Progress
    decreases lines
  {
    if lines == [] then p else ReadLines(ReadLine(p, lines[0]), lines[1..])
  }

  /** `flatten_sources_block`. */
  method FlattenSourcesBlock(block: string) returns (flattened: seq<string>)
    ensures flattened == ReadLines(Progress([], []), SplitLines(block)).items
  {
    var lines := SplitLines(block);
    var stack: seq<string> := [];
    flattened := [];
    for n := 0 to |lines|
      invariant ReadLines(Progress(stack, flattened), lines[n..]) == ReadLines(Progress([], []), lines)
    {
      var line := lines[n];
      assert lines[n..][0] == line && lines[n..][1..] == lines[n + 1..];
      var i := FindBranch(line, 0);
      if i == |line| {
        continue;
      }
      var content := Strip(line[i + 3..]);
      var depth := CountTabs(line[..i]);
      if content != [] && content[|content| - 1] == '/' {
        stack := Enter(stack, depth, RStripSlash(content));
        continue;
      }
      var parsed := ParseFile(content);
      if parsed.None? {
        continue;
      }
      var parts := if depth <= |stack| then stack[..depth] else stack;
      var fullPath := LStripSlash(Join(parts + [parsed.value.name], "/"));
      flattened := flattened + [Item(parsed.value.ref, fullPath, parsed.value.details)];
    }
  }
}
