/** Exactly which sources trees are read back: those without an empty path component behind a named one. */
module SourcesTreeExact {
  import opened Text
  import opened Wrappers
  import opened SourcesTree
  import opened SourcesTreeLaws

  // ----- The walk -----

  /** A referenced file and the names of all directories above it, empty ones included. */
  datatype Spot = Spot(file: Node, dirs: seq<string>)

  /** The referenced files in order, each at its place. */
  function Spots(nodes: seq<Node>, dirs: seq<string>): seq<Spot>
    decreases nodes
  {
    if nodes == [] then [] else NodeSpots(nodes[0], dirs) + Spots(nodes[1..], dirs)
  }

  function NodeSpots(node: Node, dirs: seq<string>): seq<Spot>
    decreases node
  {
    match node
    case Dir(name, children) => Spots(children, dirs + [name])
    case File(_, ref, _) => if ref.Some? then [Spot(node, dirs)] else []
  }

  /** The path of a file with every component, leading slashes stripped. */
  function WalkPath(spot: Spot): string {
    LStripSlash(Join(spot.dirs + [spot.file.name], "/"))
  }

  predicate Referenced(spot: Spot) {
    spot.file.File? && spot.file.ref.Some?
  }

  /** The item that lists a file under a path. */
  function ListedAs(spot: Spot, path: string): string
    requires Referenced(spot)
  {
    Item(Decimal(spot.file.ref.value), path, Some(spot.file.details))
  }

  predicate AllReferenced(spots: seq<Spot>) {
    forall k :: 0 <= k < |spots| ==> Referenced(spots[k])
  }

  function Listing(spots: seq<Spot>, paths: seq<string>): (items: seq<string>)
    requires |paths| == |spots| && AllReferenced(spots)
    ensures |items| == |spots| && forall k :: 0 <= k < |spots| ==> items[k] == ListedAs(spots[k], paths[k])
  {
    if spots == [] then [] else [ListedAs(spots[0], paths[0])] + Listing(spots[1..], paths[1..])
  }

  lemma {:induction false} ListingAppend(a: seq<Spot>, x: seq<string>, b: seq<Spot>, y: seq<string>)
    requires |x| == |a| && |y| == |b| && AllReferenced(a) && AllReferenced(b)
    ensures AllReferenced(a + b) && Listing(a + b, x + y) == Listing(a, x) + Listing(b, y)
  {
  }

  function WalkPaths(spots: seq<Spot>): (paths: seq<string>)
    ensures |paths| == |spots| && forall k :: 0 <= k < |spots| ==> paths[k] == WalkPath(spots[k])
  {
    if spots == [] then [] else [WalkPath(spots[0])] + WalkPaths(spots[1..])
  }

  lemma {:induction false} SpotsReferenced(nodes: seq<Node>, dirs: seq<string>)
    ensures AllReferenced(Spots(nodes, dirs))
    decreases nodes
  {
    if nodes != [] {
      NodeSpotsReferenced(nodes[0], dirs);
      SpotsReferenced(nodes[1..], dirs);
    }
  }

  lemma {:induction false} NodeSpotsReferenced(node: Node, dirs: seq<string>)
    ensures AllReferenced(NodeSpots(node, dirs))
    decreases node
  {
    if node.Dir? {
      SpotsReferenced(node.children, dirs + [node.name]);
    }
  }

  /** The items of all referenced files, each with its full path. */
  function Walk(nodes: seq<Node>): seq<string> {
    SpotsReferenced(nodes, []);
    Listing(Spots(nodes, []), WalkPaths(Spots(nodes, [])))
  }

  /** What the reader makes of the printed block. */
  function ReadBack(nodes: seq<Node>): seq<string> {
    ReadLines(Progress([], []), SplitLines(Join(RenderAll(nodes, ""), "\n"))).items
  }

  // ----- Counting slashes -----

  function Slashes(s: string): nat {
    if s == [] then 0 else (if s[0] == '/' then 1 else 0) + Slashes(s[1..])
  }

  lemma {:induction false} SlashesAppend(a: string, b: string)
    ensures Slashes(a + b) == Slashes(a) + Slashes(b)
  {
    if a == [] {
      assert a + b == b;
    } else {
      assert (a + b)[1..] == a[1..] + b;
      SlashesAppend(a[1..], b);
    }
  }

  lemma {:induction false} NoSlashes(s: string)
    requires '/' !in s
    ensures Slashes(s) == 0
  {
    if s != [] {
      assert s[0] in s;
      NoSlashes(s[1..]);
    }
  }

  predicate SlashFree(parts: seq<string>) {
    forall i :: 0 <= i < |parts| ==> '/' !in parts[i]
  }

  lemma {:induction false} JoinSlashes(parts: seq<string>)
    requires parts != [] && SlashFree(parts)
    ensures Slashes(Join(parts, "/")) == |parts| - 1
  {
    NoSlashes(parts[0]);
    if |parts| > 1 {
      JoinSlashes(parts[1..]);
      SlashesAppend(parts[0] + "/", Join(parts[1..], "/"));
      SlashesAppend(parts[0], "/");
      assert "/"[1..] == "";
      assert Slashes("/") == 1;
    }
  }

  lemma {:induction false} StripSlashes(s: string)
    ensures Slashes(LStripSlash(s)) <= Slashes(s)
  {
    if s != [] && s[0] == '/' {
      StripSlashes(s[1..]);
    }
  }

  /** How many empty names come first. */
  function Leading(dirs: seq<string>): (k: nat)
    ensures k <= |dirs| && (forall i :: 0 <= i < k ==> dirs[i] == []) && (k < |dirs| ==> dirs[k] != [])
  {
    if dirs == [] || dirs[0] != [] then 0 else 1 + Leading(dirs[1..])
  }

  /** Stripping a full path takes away exactly the empty names in front. */
  lemma {:induction false} WalkSlashes(dirs: seq<string>, name: string)
    requires SlashFree(dirs) && name != [] && '/' !in name
    ensures Slashes(LStripSlash(Join(dirs + [name], "/"))) == |dirs| - Leading(dirs)
  {
    var parts := dirs + [name];
    if dirs != [] && dirs[0] == [] {
      assert parts[1..] == dirs[1..] + [name];
      var rest := Join(parts[1..], "/");
      assert Join(parts, "/") == [] + "/" + rest;
      assert Join(parts, "/")[1..] == rest;
      WalkSlashes(dirs[1..], name);
    } else {
      JoinFirst(parts, "/");
      assert parts[0][0] in parts[0];
      assert SlashFree(parts);
      JoinSlashes(parts);
    }
  }

  /** The depth at which a file is printed: the directories behind the last unnamed one. */
  function Depth(dirs: seq<string>): nat {
    if dirs == [] || dirs[|dirs| - 1] == [] then 0 else 1 + Depth(dirs[..|dirs| - 1])
  }

  lemma {:induction false} DepthBehind(dirs: seq<string>, j: nat)
    requires j < |dirs| && dirs[j] == []
    ensures Depth(dirs) <= |dirs| - 1 - j
    decreases |dirs|
  {
    if j < |dirs| - 1 {
      DepthBehind(dirs[..|dirs| - 1], j);
    }
  }

  lemma DepthSnoc(dirs: seq<string>, name: string)
    ensures Depth(dirs + [name]) == if name == [] then 0 else Depth(dirs) + 1
  {
    assert (dirs + [name])[..|dirs|] == dirs;
  }

  /** An empty name behind a named one. */
  predicate InnerEmpty(dirs: seq<string>) {
    exists i, j :: 0 <= i < j < |dirs| && dirs[i] != [] && dirs[j] == []
  }

  /** Behind an inner empty name a file is printed less deep than its path is long. */
  lemma {:induction false} InnerEmptyShort(dirs: seq<string>)
    requires InnerEmpty(dirs)
    ensures Depth(dirs) < |dirs| - Leading(dirs)
  {
    var i, j :| 0 <= i < j < |dirs| && dirs[i] != [] && dirs[j] == [];
    DepthBehind(dirs, j);
  }

  // ----- Reading any forest -----

  lemma {:induction false} PathSlashes(stack: seq<string>, depth: nat, name: string)
    requires SlashFree(stack) && '/' !in name
    ensures var parts := if depth <= |stack| then stack[..depth] else stack;
            Slashes(LStripSlash(Join(parts + [name], "/"))) <= depth
  {
    var parts := if depth <= |stack| then stack[..depth] else stack;
    assert SlashFree(parts + [name]);
    JoinSlashes(parts + [name]);
    StripSlashes(Join(parts + [name], "/"));
  }

  lemma {:induction false} ReadFileContent(p: Progress, depth: nat, file: Node) returns (path: string)
    requires SlashFree(p.stack) && file.File? && Printable(file) && file.ref.Some?
    ensures ReadContent(p, depth, NodeText(file)) == p.(items := p.items + [ListedAs(Spot(file, []), path)])
    ensures Slashes(path) <= depth
  {
    var parts := if depth <= |p.stack| then p.stack[..depth] else p.stack;
    path := LStripSlash(Join(parts + [file.name], "/"));
    ParsePrinted(file.ref.value, file.name, file.details);
    PathSlashes(p.stack, depth, file.name);
  }

  /** A referenced file gives one item, under a path with no more slashes than its depth. */
  lemma {:induction false} ReadFileAnywhere(p: Progress, file: Node, prefix: string, isLast: bool)
    returns (path: string)
    requires IsPrefix(prefix) && SlashFree(p.stack) && file.File? && Printable(file) && file.ref.Some?
    ensures ReadLine(p, prefix + Connector(isLast) + NodeText(file))
            == p.(items := p.items + [ListedAs(Spot(file, []), path)])
    ensures Slashes(path) <= CountTabs(prefix)
  {
    FileTextParts(file.ref.value, file.name, file.details);
    ReadPrinted(p, prefix, isLast, NodeText(file));
    path := ReadFileContent(p, CountTabs(prefix), file);
  }

  lemma {:induction false} ReadDirAnywhere(p: Progress, name: string, prefix: string, isLast: bool)
    requires IsPrefix(prefix) && SlashFree(p.stack) && Component(name)
    ensures var p' := ReadLine(p, prefix + Connector(isLast) + (name + "/"));
            p'.items == p.items && SlashFree(p'.stack)
  {
    DirText(name);
    ReadPrinted(p, prefix, isLast, name + "/");
    var stack := Enter(p.stack, CountTabs(prefix), name);
    forall i | 0 <= i < |stack|
      ensures '/' !in stack[i]
    {
      EnterAt(p.stack, CountTabs(prefix), name, i);
    }
  }

  lemma EnterAt(stack: seq<string>, depth: nat, name: string, i: nat)
    requires i <= depth
    ensures Enter(stack, depth, name)[i] == if i == depth then name else if i < |stack| then stack[i] else ""
  {
  }

  predicate Shallow(spots: seq<Spot>, paths: seq<string>) {
    |paths| == |spots| && forall k :: 0 <= k < |spots| ==> Slashes(paths[k]) <= Depth(spots[k].dirs)
  }

  /** From `p` to `p'` the items of `spots` were added, each under a path no deeper than its file is printed. */
  predicate Adds(p: Progress, p': Progress, spots: seq<Spot>, paths: seq<string>) {
    && AllReferenced(spots) && Shallow(spots, paths)
    && p'.items == p.items + Listing(spots, paths) && SlashFree(p'.stack)
  }

  lemma {:induction false} ShallowAppend(a: seq<Spot>, x: seq<string>, b: seq<Spot>, y: seq<string>)
    requires Shallow(a, x) && Shallow(b, y)
    ensures Shallow(a + b, x + y)
  {
  }

  lemma {:induction false} AddsAppend(p: Progress, p1: Progress, p2: Progress,
                                      a: seq<Spot>, x: seq<string>, b: seq<Spot>, y: seq<string>)
    requires Adds(p, p1, a, x) && Adds(p1, p2, b, y)
    ensures Adds(p, p2, a + b, x + y)
  {
    ShallowAppend(a, x, b, y);
    ListingAppend(a, x, b, y);
    ItemsAppend(p.items, p1.items, p2.items, Listing(a, x), Listing(b, y), Listing(a + b, x + y));
  }

  lemma ItemsAppend(p: seq<string>, p1: seq<string>, p2: seq<string>, u: seq<string>, v: seq<string>, uv: seq<string>)
    requires p1 == p + u && p2 == p1 + v && uv == u + v
    ensures p2 == p + uv
  {
  }

  lemma {:induction false} ReadForest(p: Progress, nodes: seq<Node>, dirs: seq<string>, prefix: string)
    returns (paths: seq<string>)
    requires Sane(nodes) && IsPrefix(prefix) && CountTabs(prefix) == Depth(dirs) && SlashFree(p.stack)
    ensures Adds(p, ReadLines(p, RenderAll(nodes, prefix)), Spots(nodes, dirs), paths)
    decreases nodes, 0
  {
    if nodes == [] {
      paths := [];
      assert p.items + [] == p.items;
    } else {
      var first, rest := RenderNode(nodes[0], prefix, |nodes| == 1), RenderAll(nodes[1..], prefix);
      var x := ReadTree(p, nodes[0], dirs, prefix, |nodes| == 1);
      var p1 := ReadLines(p, first);
      var y := ReadForest(p1, nodes[1..], dirs, prefix);
      ReadAppend(p, first, rest);
      AddsAppend(p, p1, ReadLines(p1, rest), NodeSpots(nodes[0], dirs), x, Spots(nodes[1..], dirs), y);
      paths := x + y;
    }
  }

  lemma {:induction false} ReadTree(p: Progress, node: Node, dirs: seq<string>, prefix: string, isLast: bool)
    returns (paths: seq<string>)
    requires SaneNode(node) && IsPrefix(prefix) && CountTabs(prefix) == Depth(dirs) && SlashFree(p.stack)
    ensures Adds(p, ReadLines(p, RenderNode(node, prefix, isLast)), NodeSpots(node, dirs), paths)
    decreases node, 1
  {
    if node.File? {
      paths := ReadLeaf(p, node, dirs, prefix, isLast);
    } else if node.name == [] {
      DepthSnoc(dirs, node.name);
      paths := ReadForest(p, node.children, dirs + [node.name], "");
    } else {
      var line := prefix + Connector(isLast) + (node.name + "/");
      ReadDirAnywhere(p, node.name, prefix, isLast);
      DepthSnoc(dirs, node.name);
      DeeperTabs(prefix, isLast);
      paths := ReadForest(ReadLine(p, line), node.children, dirs + [node.name], Deeper(prefix, isLast));
      ReadLineFirst(p, line, RenderAll(node.children, Deeper(prefix, isLast)));
    }
  }

  lemma {:induction false} ReadLineFirst(p: Progress, line: string, rest: seq<string>)
    ensures ReadLines(p, [line] + rest) == ReadLines(ReadLine(p, line), rest)
  {
    assert ([line] + rest)[1..] == rest;
  }

  lemma {:induction false} ReadLeaf(p: Progress, file: Node, dirs: seq<string>, prefix: string, isLast: bool)
    returns (paths: seq<string>)
    requires file.File? && Printable(file) && IsPrefix(prefix) && CountTabs(prefix) == Depth(dirs) && SlashFree(p.stack)
    ensures Adds(p, ReadLines(p, RenderNode(file, prefix, isLast)), NodeSpots(file, dirs), paths)
  {
    var line := prefix + Connector(isLast) + NodeText(file);
    assert RenderNode(file, prefix, isLast) == [line] + [];
    ReadLineFirst(p, line, []);
    if file.ref.Some? {
      var path := ReadFileAnywhere(p, file, prefix, isLast);
      paths := [path];
      assert Listing([Spot(file, dirs)], [path]) == [ListedAs(Spot(file, []), path)];
    } else {
      paths := [];
      PlainSkippedExactlyWhen(file.name, file.details);
      PlainTextEnds(file.name, file.details);
      ReadPrinted(p, prefix, isLast, NodeText(file));
      assert p.items + [] == p.items;
    }
  }

  // ----- Files behind an inner empty name -----

  lemma {:induction false} ListedAsTells(spot: Spot, x: string, y: string)
    requires Referenced(spot) && ListedAs(spot, x) == ListedAs(spot, y)
    ensures x == y
  {
    var front := "- [" + Decimal(spot.file.ref.value) + "] `";
    var back := "`" + (" (" + spot.file.details + ")");
    assert ListedAs(spot, x) == front + (x + back);
    assert ListedAs(spot, y) == front + (y + back);
    SameFront(front, x + back, y + back);
    assert |x| == |y|;
    assert x == (x + back)[..|x|] && y == (y + back)[..|y|];
  }

  lemma {:induction false} SameFront(front: string, x: string, y: string)
    requires front + x == front + y
    ensures x == y
  {
    assert x == (front + x)[|front|..] && y == (front + y)[|front|..];
  }

  /** Every file is Sane at its spot. */
  lemma {:induction false} SpotsSane(nodes: seq<Node>, dirs: seq<string>, k: nat)
    requires Sane(nodes) && SlashFree(dirs) && k < |Spots(nodes, dirs)|
    ensures var spot := Spots(nodes, dirs)[k]; Printable(spot.file) && SlashFree(spot.dirs) && dirs <= spot.dirs
    decreases nodes
  {
    var first := NodeSpots(nodes[0], dirs);
    if k < |first| {
      NodeSpotsSane(nodes[0], dirs, k);
    } else {
      SpotsSane(nodes[1..], dirs, k - |first|);
    }
  }

  lemma {:induction false} NodeSpotsSane(node: Node, dirs: seq<string>, k: nat)
    requires SaneNode(node) && SlashFree(dirs) && k < |NodeSpots(node, dirs)|
    ensures var spot := NodeSpots(node, dirs)[k]; Printable(spot.file) && SlashFree(spot.dirs) && dirs <= spot.dirs
    decreases node
  {
    if node.Dir? {
      SpotsSane(node.children, dirs + [node.name], k);
    }
  }

  /** Whatever else is in the tree, each referenced file gives one item, in order; and a file behind an inner empty
      name is never listed under its path. */
  lemma {:induction false} EmptyComponentLost(nodes: seq<Node>, k: nat)
    requires Sane(nodes) && k < |Spots(nodes, [])|
    ensures |ReadBack(nodes)| == |Spots(nodes, [])| == |Walk(nodes)|
    ensures InnerEmpty(Spots(nodes, [])[k].dirs) ==> ReadBack(nodes)[k] != Walk(nodes)[k]
  {
    var spots := Spots(nodes, []);
    BlockLines(nodes);
    var paths := ReadForest(Progress([], []), nodes, [], "");
    var items := Listing(spots, paths);
    assert ReadBack(nodes) == [] + items == items;
    var spot := spots[k];
    SpotsReferenced(nodes, []);
    if InnerEmpty(spot.dirs) && ReadBack(nodes)[k] == Walk(nodes)[k] {
      ListedAsTells(spot, paths[k], WalkPath(spot));
      SpotsSane(nodes, [], k);
      WalkSlashes(spot.dirs, spot.file.name);
      InnerEmptyShort(spot.dirs);
    }
  }

  // ----- Trees that are read back -----

  function WalkOf(spots: seq<Spot>): seq<string>
    requires AllReferenced(spots)
  {
    Listing(spots, WalkPaths(spots))
  }

  lemma {:induction false} WalkOfAppend(a: seq<Spot>, b: seq<Spot>)
    requires AllReferenced(a) && AllReferenced(b)
    ensures AllReferenced(a + b) && WalkOf(a + b) == WalkOf(a) + WalkOf(b)
  {
    WalkPathsAppend(a, b);
    ListingAppend(a, WalkPaths(a), b, WalkPaths(b));
  }

  lemma {:induction false} WalkPathsAppend(a: seq<Spot>, b: seq<Spot>)
    ensures WalkPaths(a + b) == WalkPaths(a) + WalkPaths(b)
  {
    var paths, both := WalkPaths(a + b), WalkPaths(a) + WalkPaths(b);
    forall k | 0 <= k < |a + b|
      ensures paths[k] == both[k]
    {
      assert (a + b)[k] == if k < |a| then a[k] else b[k - |a|];
    }
  }

  predicate AllEmpty(names: seq<string>) {
    forall i :: 0 <= i < |names| ==> names[i] == []
  }

  /** Leading empty names do not show in a path. */
  lemma {:induction false} LeadingStripped(empties: seq<string>, parts: seq<string>)
    requires AllEmpty(empties) && parts != [] && parts[0] != [] && '/' !in parts[0]
    ensures LStripSlash(Join(empties + parts, "/")) == Join(parts, "/")
  {
    var all := empties + parts;
    if empties == [] {
      assert all == parts;
      JoinFirst(parts, "/");
      assert parts[0][0] in parts[0];
    } else {
      assert all[1..] == empties[1..] + parts;
      assert Join(all, "/") == [] + "/" + Join(all[1..], "/");
      assert Join(all, "/")[1..] == Join(all[1..], "/");
      LeadingStripped(empties[1..], parts);
    }
  }

  lemma {:induction false} WalkLeaf(file: Node, empties: seq<string>, dirs: seq<string>)
    requires file.File? && Printable(file) && AllEmpty(empties) && AllComponents(dirs)
    ensures AllReferenced(NodeSpots(file, empties + dirs))
    ensures WalkOf(NodeSpots(file, empties + dirs)) == FileItems(file, dirs)
  {
    if file.ref.Some? {
      var parts := dirs + [file.name];
      assert Component(parts[0]);
      LeadingStripped(empties, parts);
      assert empties + dirs + [file.name] == empties + parts;
    }
  }

  lemma {:induction false} WalkNamed(nodes: seq<Node>, empties: seq<string>, dirs: seq<string>)
    requires AllPrintable(nodes) && AllEmpty(empties) && AllComponents(dirs)
    ensures AllReferenced(Spots(nodes, empties + dirs)) && WalkOf(Spots(nodes, empties + dirs)) == Items(nodes, dirs)
    decreases nodes, 0
  {
    if nodes != [] {
      WalkNamedNode(nodes[0], empties, dirs);
      WalkNamed(nodes[1..], empties, dirs);
      WalkOfAppend(NodeSpots(nodes[0], empties + dirs), Spots(nodes[1..], empties + dirs));
      ItemsCons(nodes, dirs);
    }
  }

  lemma {:induction false} WalkNamedNode(node: Node, empties: seq<string>, dirs: seq<string>)
    requires Printable(node) && AllEmpty(empties) && AllComponents(dirs)
    ensures AllReferenced(NodeSpots(node, empties + dirs))
    ensures WalkOf(NodeSpots(node, empties + dirs)) == Items([node], dirs)
    decreases node, 1
  {
    assert [node][1..] == [];
    if node.File? {
      WalkLeaf(node, empties, dirs);
      assert Items([node], dirs) == FileItems(node, dirs) + Items([], dirs);
    } else {
      WalkNamed(node.children, empties, dirs + [node.name]);
      assert empties + dirs + [node.name] == empties + (dirs + [node.name]);
      assert Items([node], dirs) == Items(node.children, dirs + [node.name]) + Items([], dirs);
    }
  }

  lemma {:induction false} WalkTop(nodes: seq<Node>, empties: seq<string>)
    requires TopPrintable(nodes) && AllEmpty(empties)
    ensures AllReferenced(Spots(nodes, empties)) && WalkOf(Spots(nodes, empties)) == Items(nodes, [])
    decreases nodes
  {
    if nodes != [] {
      var node := nodes[0];
      if node.Dir? && node.name == [] {
        WalkTop(node.children, empties + [node.name]);
        assert [node][1..] == [];
        assert Items([node], []) == Items(node.children, []) + Items([], []);
      } else {
        assert empties + [] == empties;
        WalkNamedNode(node, empties, []);
      }
      WalkTop(nodes[1..], empties);
      WalkOfAppend(NodeSpots(node, empties), Spots(nodes[1..], empties));
      ItemsCons(nodes, []);
    }
  }

  // ----- Exactly when -----

  /** No unnamed directory lies below a named one; `below` says whether a named one is above. */
  predicate NoInnerUnnamed(nodes: seq<Node>, below: bool)
    decreases nodes
  {
    nodes == [] || (NoInnerUnnamedIn(nodes[0], below) && NoInnerUnnamed(nodes[1..], below))
  }

  predicate NoInnerUnnamedIn(node: Node, below: bool)
    decreases node
  {
    node.File? || (!(below && node.name == []) && NoInnerUnnamed(node.children, below || node.name != []))
  }

  predicate HasReference(nodes: seq<Node>)
    decreases nodes
  {
    nodes != [] && (HasReferenceIn(nodes[0]) || HasReference(nodes[1..]))
  }

  predicate HasReferenceIn(node: Node)
    decreases node
  {
    if node.Dir? then HasReference(node.children) else node.ref.Some?
  }

  /** Every directory has a referenced file below it, as when all files carry a number. */
  predicate NoIdleDirectory(nodes: seq<Node>)
    decreases nodes
  {
    nodes == [] || (NoIdleDirectoryIn(nodes[0]) && NoIdleDirectory(nodes[1..]))
  }

  predicate NoIdleDirectoryIn(node: Node)
    decreases node
  {
    node.File? || (HasReference(node.children) && NoIdleDirectory(node.children))
  }

  lemma {:induction false} NamedPrintable(nodes: seq<Node>)
    requires Sane(nodes) && NoInnerUnnamed(nodes, true)
    ensures AllPrintable(nodes)
    decreases nodes
  {
    if nodes != [] {
      if nodes[0].Dir? {
        NamedPrintable(nodes[0].children);
      }
      NamedPrintable(nodes[1..]);
      assert forall i :: 1 <= i < |nodes| ==> nodes[i] == nodes[1..][i - 1];
    }
  }

  lemma {:induction false} SaneTopPrintable(nodes: seq<Node>)
    requires Sane(nodes) && NoInnerUnnamed(nodes, false)
    ensures TopPrintable(nodes)
    decreases nodes
  {
    if nodes != [] {
      if nodes[0].Dir? {
        if nodes[0].name == [] {
          SaneTopPrintable(nodes[0].children);
        } else {
          NamedPrintable(nodes[0].children);
        }
      }
      SaneTopPrintable(nodes[1..]);
    }
  }

  lemma {:induction false} SomeSpot(nodes: seq<Node>, dirs: seq<string>)
    requires HasReference(nodes)
    ensures |Spots(nodes, dirs)| > 0
    decreases nodes
  {
    if HasReferenceIn(nodes[0]) {
      if nodes[0].Dir? {
        SomeSpot(nodes[0].children, dirs + [nodes[0].name]);
      }
    } else {
      SomeSpot(nodes[1..], dirs);
    }
  }

  predicate SomeNamed(dirs: seq<string>) {
    exists i :: 0 <= i < |dirs| && dirs[i] != []
  }

  lemma SomeNamedSnoc(dirs: seq<string>, name: string)
    ensures SomeNamed(dirs + [name]) <==> SomeNamed(dirs) || name != []
  {
    var all := dirs + [name];
    if SomeNamed(dirs) {
      var i :| 0 <= i < |dirs| && dirs[i] != [];
      assert all[i] != [];
    }
    if name != [] {
      assert all[|dirs|] != [];
    }
    assert forall i :: 0 <= i < |dirs| ==> all[i] == dirs[i];
  }

  lemma {:induction false} InnerEmptyExtends(dirs: seq<string>, longer: seq<string>)
    requires SomeNamed(dirs) && dirs + [[]] <= longer
    ensures InnerEmpty(longer)
  {
    var i :| 0 <= i < |dirs| && dirs[i] != [];
    assert longer[..|dirs| + 1] == dirs + [[]];
    assert longer[i] == dirs[i] && longer[|dirs|] == [];
  }

  /** Below an unnamed directory under a named one there is a file with an inner empty name. */
  lemma {:induction false} InnerSpot(nodes: seq<Node>, dirs: seq<string>) returns (k: nat)
    requires Sane(nodes) && SlashFree(dirs) && NoIdleDirectory(nodes) && !NoInnerUnnamed(nodes, SomeNamed(dirs))
    ensures k < |Spots(nodes, dirs)| && InnerEmpty(Spots(nodes, dirs)[k].dirs)
    decreases nodes, 0
  {
    var first := NodeSpots(nodes[0], dirs);
    if !NoInnerUnnamedIn(nodes[0], SomeNamed(dirs)) {
      k := InnerSpotIn(nodes[0], dirs);
    } else {
      var j := InnerSpot(nodes[1..], dirs);
      k := |first| + j;
    }
  }

  lemma {:induction false} InnerSpotIn(node: Node, dirs: seq<string>) returns (k: nat)
    requires SaneNode(node) && SlashFree(dirs) && NoIdleDirectoryIn(node) && !NoInnerUnnamedIn(node, SomeNamed(dirs))
    ensures k < |NodeSpots(node, dirs)| && InnerEmpty(NodeSpots(node, dirs)[k].dirs)
    decreases node, 1
  {
    var deeper := dirs + [node.name];
    if SomeNamed(dirs) && node.name == [] {
      SomeSpot(node.children, deeper);
      k := 0;
      SpotsSane(node.children, deeper, 0);
      InnerEmptyExtends(dirs, Spots(node.children, deeper)[0].dirs);
    } else {
      SomeNamedSnoc(dirs, node.name);
      k := InnerSpot(node.children, deeper);
    }
  }

  /** For every forest in which each directory has a referenced file below it, the printed block is read back as the
      walk over all full paths if and only if no unnamed directory lies below a named one, that is, no path has an empty
      component behind a named one. */
  lemma {:induction false} ReadBackExactlyWhen(nodes: seq<Node>)
    requires Sane(nodes) && NoIdleDirectory(nodes)
    ensures ReadBack(nodes) == Walk(nodes) <==> NoInnerUnnamed(nodes, false)
  {
    if NoInnerUnnamed(nodes, false) {
      SaneTopPrintable(nodes);
      SourcesRoundTrip(nodes);
      WalkTop(nodes, []);
    } else {
      assert !SomeNamed([]);
      var k := InnerSpot(nodes, []);
      EmptyComponentLost(nodes, k);
    }
  }

  /** A file that lies below no empty name can be listed wrongly as well: with `a//x/f` and `a/z` in one tree, `z` is
      listed below `x`, since the line of `x` starts at the left and takes the place of `a`. */
  lemma {:induction false} SiblingMisplaced(a: string, x: string, f: Node, z: Node)
    requires Component(a) && Component(x)
    requires f.File? && Printable(f) && f.ref.Some? && z.File? && Printable(z) && z.ref.Some?
    ensures ReadLines(Progress([], []), RenderAll([Dir(a, [Dir("", [Dir(x, [f])]), z])], "")).items
            == [ListedAs(Spot(f, []), Join([x, f.name], "/")), ListedAs(Spot(z, []), Join([x, z.name], "/"))]
  {
    var lineA, lineX := "" + Connector(true) + (a + "/"), "" + Connector(true) + (x + "/");
    var deep := Deeper("", true);
    SiblingLines(a, x, f, z, lineA, lineX);
    var p := TwoDirectories(a, x, lineA, lineX, RenderNode(f, deep, true) + RenderNode(z, deep, true));
    DeeperTabs("", true);
    FilesBelow(p, x, f, z, deep);
  }

  /** The second of two directory lines at the left takes the place of the first. */
  lemma {:induction false} TwoDirectories(a: string, x: string, lineA: string, lineX: string, rest: seq<string>)
    returns (p: Progress)
    requires Component(a) && Component(x)
    requires lineA == "" + Connector(true) + (a + "/") && lineX == "" + Connector(true) + (x + "/")
    ensures p == Progress([x], [])
    ensures ReadLines(Progress([], []), [lineA] + ([lineX] + rest)) == ReadLines(p, rest)
  {
    var p0 := Progress([], []);
    ReadDirLine(p0, [], a, "", true);
    var p1 := ReadLine(p0, lineA);
    ReadDirLine(p1, [], x, "", true);
    p := ReadLine(p1, lineX);
    ReadLineFirst(p0, lineA, [lineX] + rest);
    ReadLineFirst(p1, lineX, rest);
    assert p.stack == [] + [x] == [x];
  }

  /** A file at depth one, below the directory on the stack. */
  lemma {:induction false} FileBelow(p: Progress, x: string, file: Node, prefix: string)
    requires Component(x) && p.stack == [x] && IsPrefix(prefix) && CountTabs(prefix) == 1
    requires file.File? && Printable(file) && file.ref.Some?
    ensures ReadLines(p, RenderNode(file, prefix, true))
            == p.(items := p.items + [ListedAs(Spot(file, []), Join([x, file.name], "/"))])
  {
    ReadFileNode(p, [x], file, prefix, true);
    assert [x] + [file.name] == [x, file.name];
  }

  lemma {:induction false} FilesBelow(p: Progress, x: string, f: Node, z: Node, prefix: string)
    requires Component(x) && p.stack == [x] && p.items == [] && IsPrefix(prefix) && CountTabs(prefix) == 1
    requires f.File? && Printable(f) && f.ref.Some? && z.File? && Printable(z) && z.ref.Some?
    ensures ReadLines(p, RenderNode(f, prefix, true) + RenderNode(z, prefix, true)).items
            == [ListedAs(Spot(f, []), Join([x, f.name], "/")), ListedAs(Spot(z, []), Join([x, z.name], "/"))]
  {
    FileBelow(p, x, f, prefix);
    var p1 := ReadLines(p, RenderNode(f, prefix, true));
    FileBelow(p1, x, z, prefix);
    ReadAppend(p, RenderNode(f, prefix, true), RenderNode(z, prefix, true));
  }

  lemma {:induction false} SiblingLines(a: string, x: string, f: Node, z: Node, lineA: string, lineX: string)
    requires a != [] && x != [] && f.File? && z.File?
    requires lineA == "" + Connector(true) + (a + "/") && lineX == "" + Connector(true) + (x + "/")
    ensures RenderAll([Dir(a, [Dir("", [Dir(x, [f])]), z])], "")
            == [lineA] + ([lineX] + (RenderNode(f, Deeper("", true), true) + RenderNode(z, Deeper("", true), true)))
  {
    var deep := Deeper("", true);
    var named := [Dir(x, [f])];
    var both := [Dir("", named), z];
    var nodes := [Dir(a, both)];
    assert nodes[1..] == [] && both[1..] == [z] && named[1..] == [] && [f][1..] == [] && [z][1..] == [];
    assert RenderAll([f], deep) == RenderNode(f, deep, true);
    assert RenderAll(named, "") == [lineX] + RenderNode(f, deep, true);
    assert RenderAll([z], deep) == RenderNode(z, deep, true);
    assert RenderAll(both, deep) == RenderAll(named, "") + RenderAll([z], deep);
    assert RenderAll(nodes, "") == [lineA] + RenderAll(both, deep);
  }
}
