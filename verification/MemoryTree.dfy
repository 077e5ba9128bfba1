/** The tree of memory nodes: filing nodes by path under their parents, and flattening it. */
module MemoryTree {
  import opened Prelude
  import opened MemoryPaths

  /** A stored node; empty strings stand for absent fields. `freshId` is drawn when a path has to be
      derived for a node without an id. */
  datatype RawNode = RawNode(path: string, userId: string, memoryType: string, nodeType: string, id: string,
                             freshId: NonEmpty, content: string)

  const LEGACY := "_legacy"

  /** The key a node is filed under: its path, or one derived for a node stored before paths. */
  function KeyOf(n: RawNode): string {
    if n.path != "" then n.path
    else
      Build(Parts(Or(n.userId, "unknown"), LEGACY, Or(Or(n.memoryType, n.nodeType), "insight"),
                  Or(n.id, n.freshId))).value
  }

  /** A node with its key. */
  datatype Node = Node(path: string, raw: RawNode)

  function Keyed(raws: seq<RawNode>): (r: seq<Node>)
    ensures |r| == |raws|
  {
    seq(|raws|, i requires 0 <= i < |raws| => Node(KeyOf(raws[i]), raws[i]))
  }

  datatype TreeEntry = TreeEntry(node: Node, children: seq<string>)

  type Tree = map<string, TreeEntry>

  /** Position of the last slash of a rooted path. */
  function LastSlash(s: string): (k: nat)
    requires s != "" && s[0] == '/'
    ensures k < |s| && s[k] == '/' && forall i :: k < i < |s| ==> s[i] != '/'
  {
    if s[|s| - 1] == '/' then |s| - 1 else LastSlash(s[..|s| - 1])
  }

  /** The parent path; the root is its own parent. */
  function ParentOf(path: string): Result<string> {
    match Normalize(path)
    case Err(e) => Err(e)
    case Ok(p) =>
      NormalShape(path);
      var k := LastSlash(p);
      Ok(if k <= |ROOT| then ROOT else p[..k])
  }

  predicate Addressable(nodes: seq<Node>) {
    forall i :: 0 <= i < |nodes| ==> ParentOf(nodes[i].path).Ok?
  }

  lemma {:induction false} CollapseKeepsPrefix(a: string, s: string)
    requires a != "" && NoDouble(a) && a[|a| - 1] != '/' && a <= s
    ensures a <= Collapse(s)
  {
    if |a| > 1 {
      assert !(s[0] == '/' && s[1] == '/') by {
        assert !(a[0] == '/' && a[1] == '/');
      }
      CollapseKeepsPrefix(a[1..], s[1..]);
      assert a == [a[0]] + a[1..];
    }
  }

  /** A path in the memory root always has a parent path. */
  lemma RootedIsAddressable(rest: string)
    ensures ParentOf(ROOT + "/" + rest).Ok?
  {
    var p := ROOT + "/" + rest;
    assert p[0] == '/' && p[|ROOT|] == '/';
    assert StripLeft(p) == p;
    StripRightPrefix(p);
    assert |StripRight(p)| > |ROOT|;
    CollapseKeepsPrefix(ROOT, StripRight(p));
  }

  lemma DerivedIsAddressable(n: RawNode)
    requires n.path == ""
    ensures ParentOf(KeyOf(n)).Ok?
  {
    var c := Parts(Or(n.userId, "unknown"), LEGACY, Or(Or(n.memoryType, n.nodeType), "insight"), Or(n.id, n.freshId));
    JoinTwo([ROOT], Components(c));
    RootedIsAddressable(Join(Components(c)));
  }

  /** The derived path: under the user's tenant, or "unknown", in the namespace "_legacy", under the
      memory type, the node type or "insight", named by the id or a fresh one. */
  lemma DerivedPath(n: RawNode)
    requires n.path == ""
    ensures KeyOf(n) == Join(["/memory",
                              if n.userId != "" then n.userId else "unknown",
                              "_legacy",
                              if n.memoryType != "" then n.memoryType else if n.nodeType != "" then n.nodeType else "insight",
                              if n.id != "" then n.id else n.freshId])
  {
    var c := Parts(Or(n.userId, "unknown"), LEGACY, Or(Or(n.memoryType, n.nodeType), "insight"), Or(n.id, n.freshId));
    assert [ROOT] + Components(c) == [ROOT, c.tenant, c.namespace, c.addrType, c.nodeId];
  }

  /** A tree can be built exactly when every path that is given normalises; derived ones always do. */
  lemma AddressableIff(raws: seq<RawNode>)
    ensures Addressable(Keyed(raws)) <==>
            forall i :: 0 <= i < |raws| && raws[i].path != "" ==> Normalize(raws[i].path).Ok?
  {
    forall i | 0 <= i < |raws|
      ensures ParentOf(Keyed(raws)[i].path).Ok? <==> (raws[i].path != "" ==> Normalize(raws[i].path).Ok?)
    {
      if raws[i].path == "" {
        DerivedIsAddressable(raws[i]);
      }
    }
  }

  function PathsOf(nodes: seq<Node>): set<string> {
    set i | 0 <= i < |nodes| :: nodes[i].path
  }

  /** The last node given for a path is the one filed. */
  function NodeAt(nodes: seq<Node>, path: string): (n: Node)
    requires path in PathsOf(nodes)
    ensures n in nodes && n.path == path
  {
    if nodes[|nodes| - 1].path == path then nodes[|nodes| - 1]
    else
      assert forall i :: 0 <= i < |nodes| - 1 ==> nodes[..|nodes| - 1][i] == nodes[i];
      NodeAt(nodes[..|nodes| - 1], path)
  }

  /** It is the last one: no later node has that path. */
  lemma {:induction false} NodeAtIsLast(nodes: seq<Node>, path: string) returns (i: nat)
    requires path in PathsOf(nodes)
    ensures i < |nodes| && nodes[i].path == path && NodeAt(nodes, path) == nodes[i]
    ensures forall j :: i < j < |nodes| ==> nodes[j].path != path
  {
    i := |nodes| - 1;
    if nodes[i].path != path {
      var front := nodes[..i];
      assert forall j :: 0 <= j < |front| ==> front[j] == nodes[j];
      i := NodeAtIsLast(front, path);
    }
  }

  /** The paths filed under a parent, in the order given. */
  function ChildrenOf(nodes: seq<Node>, parent: string): seq<string> {
    if nodes == [] then []
    else
      var last := nodes[|nodes| - 1].path;
      ChildrenOf(nodes[..|nodes| - 1], parent) + (if ParentOf(last) == Ok(parent) then [last] else [])
  }

  /** The nodes given earlier come first, each given path once per node. */
  lemma {:induction false} ChildrenInOrder(a: seq<Node>, b: seq<Node>, parent: string)
    ensures ChildrenOf(a + b, parent) == ChildrenOf(a, parent) + ChildrenOf(b, parent)
    decreases |b|
  {
    if b == [] {
      assert a + b == a;
    } else {
      assert (a + b)[..|a + b| - 1] == a + b[..|b| - 1];
      ChildrenInOrder(a, b[..|b| - 1], parent);
    }
  }

  function TreeOf(nodes: seq<Node>): Tree {
    map p | p in PathsOf(nodes) :: TreeEntry(NodeAt(nodes, p), ChildrenOf(nodes, p))
  }

  lemma PathsSnoc(nodes: seq<Node>, n: Node)
    ensures PathsOf(nodes + [n]) == PathsOf(nodes) + {n.path}
  {
    assert (nodes + [n])[|nodes|] == n;
    assert forall i :: 0 <= i < |nodes| ==> (nodes + [n])[i] == nodes[i];
  }

  lemma FiledSnoc(nodes: seq<Node>, n: Node, p: string)
    ensures ChildrenOf(nodes + [n], p) == ChildrenOf(nodes, p) + (if ParentOf(n.path) == Ok(p) then [n.path] else [])
    ensures p in PathsOf(nodes + [n]) && p != n.path ==> p in PathsOf(nodes) && NodeAt(nodes + [n], p) == NodeAt(nodes, p)
    ensures n.path in PathsOf(nodes + [n]) && NodeAt(nodes + [n], n.path) == n
  {
    PathsSnoc(nodes, n);
    assert (nodes + [n])[..|nodes|] == nodes;
  }

  /** Every node filed under its path, no children hung yet. */
  predicate Filed(nodes: seq<Node>, byPath: Tree) {
    && byPath.Keys == PathsOf(nodes)
    && forall p :: p in byPath ==> byPath[p] == TreeEntry(NodeAt(nodes, p), [])
  }

  /** Every child listed under its parent path. */
  ghost predicate Listed(nodes: seq<Node>, childrenMap: map<string, seq<string>>) {
    forall p :: ChildrenOf(nodes, p) == if p in childrenMap then childrenMap[p] else []
  }

  lemma FiledStep(nodes: seq<Node>, n: Node, byPath: Tree)
    requires Filed(nodes, byPath)
    ensures Filed(nodes + [n], byPath[n.path := TreeEntry(n, [])])
  {
    PathsSnoc(nodes, n);
    forall p | p in PathsOf(nodes + [n]) ensures p != n.path ==> NodeAt(nodes + [n], p) == NodeAt(nodes, p) {
      FiledSnoc(nodes, n, p);
    }
    FiledSnoc(nodes, n, n.path);
  }

  lemma ListedStep(nodes: seq<Node>, n: Node, childrenMap: map<string, seq<string>>, parent: string)
    requires Listed(nodes, childrenMap) && ParentOf(n.path) == Ok(parent)
    ensures var old' := if parent in childrenMap then childrenMap[parent] else [];
            Listed(nodes + [n], childrenMap[parent := old' + [n.path]])
  {
    var old' := if parent in childrenMap then childrenMap[parent] else [];
    var after := childrenMap[parent := old' + [n.path]];
    forall p ensures ChildrenOf(nodes + [n], p) == if p in after then after[p] else [] {
      FiledSnoc(nodes, n, p);
    }
  }

  /** The first loop; fails when some path has no parent path. */
  method FileNodes(raws: seq<RawNode>) returns (ok: bool, byPath: Tree, childrenMap: map<string, seq<string>>)
    ensures ok <==> Addressable(Keyed(raws))
    ensures ok ==> Filed(Keyed(raws), byPath) && Listed(Keyed(raws), childrenMap)
  {
    ghost var nodes := Keyed(raws);
    ok, byPath, childrenMap := true, map[], map[];
    var i := 0;
    while i < |raws|
      invariant i <= |raws| && ok
      invariant Addressable(nodes[..i])
      invariant Filed(nodes[..i], byPath) && Listed(nodes[..i], childrenMap)
    {
      var n := Node(KeyOf(raws[i]), raws[i]);
      assert nodes[..i + 1] == nodes[..i] + [n];
      var parent := ParentOf(n.path);
      if parent.Err? {
        assert nodes[i] == n;
        ok := false;
        return;
      }
      FiledStep(nodes[..i], n, byPath);
      ListedStep(nodes[..i], n, childrenMap, parent.value);
      byPath := byPath[n.path := TreeEntry(n, [])];
      var siblings := if parent.value in childrenMap then childrenMap[parent.value] else [];
      childrenMap := childrenMap[parent.value := siblings + [n.path]];
      i := i + 1;
    }
    assert nodes[..i] == nodes;
  }

  /** The children of all parents but those `left` have been hung. */
  predicate Hung(filed: Tree, childrenMap: map<string, seq<string>>, left: set<string>, byPath: Tree) {
    && byPath.Keys == filed.Keys
    && forall p :: p in byPath ==>
         byPath[p] == TreeEntry(filed[p].node, if p in childrenMap && p !in left then childrenMap[p] else [])
  }

  lemma HangStep(filed: Tree, childrenMap: map<string, seq<string>>, left: set<string>, byPath: Tree, parent: string)
    requires Hung(filed, childrenMap, left, byPath) && parent in left && parent in childrenMap
    ensures Hung(filed, childrenMap, left - {parent},
                 if parent in byPath then byPath[parent := byPath[parent].(children := childrenMap[parent])] else byPath)
  {
  }

  /** File every node and note its parent, then hang the children on the parents that are filed. */
  method BuildTree(raws: seq<RawNode>) returns (r: Result<Tree>)
    ensures r.Ok? <==> Addressable(Keyed(raws))
    ensures r.Ok? ==> r.value == TreeOf(Keyed(raws))
  {
    var ok, filed, childrenMap := FileNodes(raws);
    if !ok {
      return Err("no parent path");
    }
    var byPath := filed;
    var parents := childrenMap.Keys;
    while parents != {}
      invariant parents <= childrenMap.Keys
      invariant Hung(filed, childrenMap, parents, byPath)
      decreases parents
    {
      var parent :| parent in parents;
      HangStep(filed, childrenMap, parents, byPath, parent);
      parents := parents - {parent};
      if parent in byPath {
        byPath := byPath[parent := byPath[parent].(children := childrenMap[parent])];
      }
    }
    HungTree(Keyed(raws), filed, childrenMap, byPath);
    r := Ok(byPath);
  }

  lemma HungEntry(nodes: seq<Node>, filed: Tree, childrenMap: map<string, seq<string>>, byPath: Tree, p: string)
    requires Filed(nodes, filed) && p in PathsOf(nodes)
    requires Listed(nodes, childrenMap) && Hung(filed, childrenMap, {}, byPath)
    ensures byPath[p] == TreeEntry(NodeAt(nodes, p), ChildrenOf(nodes, p))
  {
    assert filed[p].node == NodeAt(nodes, p);
  }

  lemma HungTree(nodes: seq<Node>, filed: Tree, childrenMap: map<string, seq<string>>, byPath: Tree)
    requires Filed(nodes, filed) && Listed(nodes, childrenMap) && Hung(filed, childrenMap, {}, byPath)
    ensures byPath == TreeOf(nodes)
  {
    forall p | p in PathsOf(nodes) ensures byPath[p] == TreeEntry(NodeAt(nodes, p), ChildrenOf(nodes, p)) {
      HungEntry(nodes, filed, childrenMap, byPath, p);
    }
  }

  // ---- string order ----------------------------------------------------------------

  predicate Less(a: string, b: string) {
    b != "" && (a == "" || a[0] < b[0] || (a[0] == b[0] && Less(a[1..], b[1..])))
  }

  /** The strings agree up to `k`, and there `a` has the smaller character. */
  predicate SmallerAt(a: string, b: string, k: nat) {
    k < |a| && k < |b| && a[..k] == b[..k] && a[k] < b[k]
  }

  /** This is the order of a dictionary: a proper prefix comes first, else the first difference decides. */
  lemma LessIff(a: string, b: string)
    ensures Less(a, b) <==> a < b || exists k: nat :: SmallerAt(a, b, k)
  {
    if Less(a, b) {
      var k := LessHas(a, b);
    }
    if a < b {
      PrefixIsLess(a, b);
    } else if k: nat :| SmallerAt(a, b, k) {
      SmallerIsLess(a, b, k);
    }
  }

  lemma {:induction false} LessHas(a: string, b: string) returns (k: nat)
    requires Less(a, b)
    ensures a < b || SmallerAt(a, b, k)
  {
    k := 0;
    if a != "" && a[0] == b[0] {
      k := LessHas(a[1..], b[1..]);
      assert a == [a[0]] + a[1..] && b == [b[0]] + b[1..];
      if SmallerAt(a[1..], b[1..], k) {
        assert a[..k + 1] == [a[0]] + a[1..][..k] && b[..k + 1] == [b[0]] + b[1..][..k];
        k := k + 1;
      }
    }
  }

  lemma {:induction false} PrefixIsLess(a: string, b: string)
    requires a < b
    ensures Less(a, b)
  {
    if a != "" {
      PrefixIsLess(a[1..], b[1..]);
    }
  }

  lemma {:induction false} SmallerIsLess(a: string, b: string, k: nat)
    requires SmallerAt(a, b, k)
    ensures Less(a, b)
  {
    if k > 0 {
      assert a[0] == a[..k][0] == b[..k][0] == b[0];
      assert a[1..][..k - 1] == a[..k][1..] && b[1..][..k - 1] == b[..k][1..];
      SmallerIsLess(a[1..], b[1..], k - 1);
    }
  }

  lemma {:induction false} LessTotal(a: string, b: string)
    ensures Less(a, b) || a == b || Less(b, a)
  {
    if a != "" && b != "" && a[0] == b[0] {
      LessTotal(a[1..], b[1..]);
      assert a == [a[0]] + a[1..] && b == [b[0]] + b[1..];
    }
  }

  lemma {:induction false} LessTransitive(a: string, b: string, c: string)
    requires Less(a, b) && Less(b, c)
    ensures Less(a, c)
  {
    if a != "" && a[0] == b[0] && b[0] == c[0] {
      LessTransitive(a[1..], b[1..], c[1..]);
    }
  }

  lemma {:induction false} LessIrreflexive(a: string)
    ensures !Less(a, a)
  {
    if a != "" {
      LessIrreflexive(a[1..]);
    }
  }

  predicate SortedPaths(xs: seq<string>) {
    forall i, j :: 0 <= i < j < |xs| ==> Less(xs[i], xs[j])
  }

  method Least(s: set<string>) returns (m: string)
    requires s != {}
    ensures m in s && forall x :: x in s && x != m ==> Less(m, x)
  {
    m :| m in s;
    var left := s - {m};
    while left != {}
      invariant left <= s && m in s
      invariant forall x :: x in s - left && x != m ==> Less(m, x)
      decreases left
    {
      var y :| y in left;
      LessTotal(m, y);
      if Less(y, m) {
        forall x | x in s - left && x != m ensures Less(y, x) {
          LessTransitive(y, m, x);
        }
        m := y;
      }
      left := left - {y};
    }
  }

  method Sorted(s: set<string>) returns (r: seq<string>)
    ensures SortedPaths(r) && forall x :: x in r <==> x in s
  {
    r := [];
    var left := s;
    while left != {}
      invariant left <= s && SortedPaths(r)
      invariant forall x :: x in r <==> x in s - left
      invariant forall x, y :: x in r && y in left ==> Less(x, y)
      decreases left
    {
      var m := Least(left);
      ghost var sofar := r;
      r := r + [m];
      left := left - {m};
      assert forall x :: x in r <==> x in sofar || x == m;
    }
  }

  // ---- flattening --------------------------------------------------------------------

  /** Paths that have a child in the tree. */
  predicate HasChild(paths: set<string>, p: string) {
    exists q :: q in paths && ParentOf(q) == Ok(p)
  }

  lemma {:induction false} ChildrenAreFiled(nodes: seq<Node>, p: string)
    ensures forall c :: c in ChildrenOf(nodes, p) ==> c in PathsOf(nodes) && ParentOf(c) == Ok(p)
    ensures ChildrenOf(nodes, p) == [] <==> !HasChild(PathsOf(nodes), p)
  {
    if nodes != [] {
      var front, n := nodes[..|nodes| - 1], nodes[|nodes| - 1];
      assert nodes == front + [n];
      PathsSnoc(front, n);
      ChildrenAreFiled(front, p);
      if ParentOf(n.path) == Ok(p) {
        assert n.path in PathsOf(nodes);
        assert HasChild(PathsOf(nodes), p);
      }
    }
  }

  /** A child's path is longer than its parent's, except that the root is its own child. */
  lemma ChildLonger(c: string, p: string)
    requires ParentOf(c) == Ok(p) && p != ROOT
    ensures |c| > |p|
  {
    NormalizeNoLonger(c);
  }

  lemma NormalizeNoLonger(path: string)
    requires Normalize(path).Ok?
    ensures |Normalize(path).value| <= |path|
  {
    StripNoLonger(path);
    CollapseNoLonger(Strip(path));
    var c := Cleaned(path);
    CollapseNoDouble(Strip(path));
    if c != ROOT && c[|c| - 1] == '/' {
      TrimOne(c);
    }
  }

  lemma {:induction false} CollapseNoLonger(s: string)
    ensures |Collapse(s)| <= |s|
  {
    if s != "" {
      CollapseNoLonger(s[1..]);
    }
  }

  lemma StripNoLonger(s: string)
    ensures |Strip(s)| <= |s|
  {
    StripLeftNoLonger(s);
    StripRightPrefix(StripLeft(s));
  }

  lemma {:induction false} StripLeftNoLonger(s: string)
    ensures |StripLeft(s)| <= |s|
  {
    if s != "" && IsSpace(s[0]) {
      StripLeftNoLonger(s[1..]);
    }
  }

  /** What the walk needs to end: children have longer paths, and only the memory root is its own
      child. */
  predicate Rising(tree: Tree) {
    forall p :: p in tree && p != ROOT ==> AllAbove(tree, p, tree[p].children)
  }

  predicate AllAbove(tree: Tree, p: string, children: seq<string>) {
    forall i :: 0 <= i < |children| ==> children[i] in tree && |children[i]| > |p| && children[i] != ROOT
  }

  predicate PathsWithin(tree: Tree, bound: nat) {
    forall p :: p in tree ==> |p| <= bound
  }

  /** Depth first from one path: the node, then what its children list, in their order. `bound` is at
      least the length of every path. */
  ghost function Preorder(tree: Tree, path: string, bound: nat): seq<Node>
    requires Rising(tree) && PathsWithin(tree, bound) && path in tree && path != ROOT
    decreases bound - |path|, 1, 0
  {
    [tree[path].node] + PreorderAll(tree, path, tree[path].children, bound)
  }

  ghost function PreorderAll(tree: Tree, path: string, children: seq<string>, bound: nat): seq<Node>
    requires Rising(tree) && PathsWithin(tree, bound) && path in tree && path != ROOT
    requires AllAbove(tree, path, children)
    decreases bound - |path|, 0, |children|
  {
    if children == [] then []
    else
      PreorderAll(tree, path, children[..|children| - 1], bound) + Preorder(tree, children[|children| - 1], bound)
  }

  lemma PreorderNext(tree: Tree, path: string, children: seq<string>, k: nat, bound: nat)
    requires Rising(tree) && PathsWithin(tree, bound) && path in tree && path != ROOT
    requires AllAbove(tree, path, children) && k < |children|
    ensures AllAbove(tree, path, children[..k]) && AllAbove(tree, path, children[..k + 1])
    ensures PreorderAll(tree, path, children[..k + 1], bound)
         == PreorderAll(tree, path, children[..k], bound) + Preorder(tree, children[k], bound)
  {
    assert children[..k + 1][..k] == children[..k];
  }

  /** The walk from one path. */
  method Walk(tree: Tree, path: string, ghost bound: nat) returns (out: seq<Node>)
    requires Rising(tree) && PathsWithin(tree, bound) && path != ROOT && |path| <= bound
    ensures out == if path in tree then Preorder(tree, path, bound) else []
    decreases bound - |path|, 1
  {
    out := [];
    if path in tree {
      var below := WalkChildren(tree, path, bound);
      out := [tree[path].node] + below;
    }
  }

  method WalkChildren(tree: Tree, path: string, ghost bound: nat) returns (out: seq<Node>)
    requires Rising(tree) && PathsWithin(tree, bound) && path in tree && path != ROOT
    ensures out == PreorderAll(tree, path, tree[path].children, bound)
    decreases bound - |path|, 0
  {
    out := [];
    var children := tree[path].children;
    var k := 0;
    while k < |children|
      invariant k <= |children| && AllAbove(tree, path, children[..k])
      invariant out == PreorderAll(tree, path, children[..k], bound)
    {
      PreorderNext(tree, path, children, k, bound);
      var below := Walk(tree, children[k], bound);
      out := out + below;
      k := k + 1;
    }
    assert children[..k] == children;
  }

  /** `up` gives the parent path of every path in the tree. */
  ghost predicate Shaped(tree: Tree, up: map<string, string>) {
    && up.Keys == tree.Keys
    && forall p, c :: p in tree ==> (c in tree[p].children <==> c in up && up[c] == p)
  }

  /** `q` is in the tree, and so are its parent, its parent's parent and so on up to `path`. */
  ghost predicate Below(up: map<string, string>, path: string, q: string)
    decreases |q|
  {
    q in up && (q == path || (|up[q]| < |q| && Below(up, path, up[q])))
  }

  lemma {:induction false} BelowChild(up: map<string, string>, path: string, c: string, q: string)
    requires path in up && c in up && up[c] == path && |path| < |c| && Below(up, c, q)
    ensures Below(up, path, q)
    decreases |q|
  {
    if q != c {
      BelowChild(up, path, c, up[q]);
    }
  }

  lemma {:induction false} BelowSomeChild(up: map<string, string>, path: string, q: string) returns (c: string)
    requires Below(up, path, q) && q != path
    ensures c in up && up[c] == path && Below(up, c, q)
    decreases |q|
  {
    if up[q] == path {
      c := q;
    } else {
      c := BelowSomeChild(up, path, up[q]);
    }
  }

  lemma {:induction false} FromSomeChild(tree: Tree, path: string, children: seq<string>, bound: nat, n: Node)
    returns (i: nat)
    requires Rising(tree) && PathsWithin(tree, bound) && path in tree && path != ROOT
    requires AllAbove(tree, path, children) && n in PreorderAll(tree, path, children, bound)
    ensures i < |children| && n in Preorder(tree, children[i], bound)
    decreases |children|
  {
    var k := |children| - 1;
    if n in Preorder(tree, children[k], bound) {
      i := k;
    } else {
      i := FromSomeChild(tree, path, children[..k], bound, n);
    }
  }

  lemma {:induction false} ChildIsListed(tree: Tree, path: string, children: seq<string>, bound: nat, i: nat, n: Node)
    requires Rising(tree) && PathsWithin(tree, bound) && path in tree && path != ROOT
    requires AllAbove(tree, path, children) && i < |children| && n in Preorder(tree, children[i], bound)
    ensures n in PreorderAll(tree, path, children, bound)
    decreases |children|
  {
    if i < |children| - 1 {
      ChildIsListed(tree, path, children[..|children| - 1], bound, i, n);
    }
  }

  /** The walk lists exactly the nodes below its path. */
  lemma {:induction false} WalkListsBelow(tree: Tree, up: map<string, string>, path: string, bound: nat, n: Node)
    requires Rising(tree) && PathsWithin(tree, bound) && path in tree && path != ROOT && Shaped(tree, up)
    ensures n in Preorder(tree, path, bound) <==> exists q :: Below(up, path, q) && n == tree[q].node
    decreases bound - |path|
  {
    var children := tree[path].children;
    if n in Preorder(tree, path, bound) {
      if n == tree[path].node {
        assert Below(up, path, path);
      } else {
        var i := FromSomeChild(tree, path, children, bound, n);
        WalkListsBelow(tree, up, children[i], bound, n);
        var q :| Below(up, children[i], q) && n == tree[q].node;
        assert children[i] in children;
        BelowChild(up, path, children[i], q);
      }
    }
    if q :| Below(up, path, q) && n == tree[q].node && q != path {
      var c := BelowSomeChild(up, path, q);
      var i :| 0 <= i < |children| && children[i] == c;
      WalkListsBelow(tree, up, children[i], bound, n);
      ChildIsListed(tree, path, children, bound, i, n);
    }
  }

  // ---- the walk on built trees -------------------------------------------------------

  lemma TreeRises(nodes: seq<Node>)
    ensures Rising(TreeOf(nodes))
  {
    forall p | p in TreeOf(nodes) && p != ROOT ensures AllAbove(TreeOf(nodes), p, ChildrenOf(nodes, p)) {
      forall i | 0 <= i < |ChildrenOf(nodes, p)|
        ensures ChildrenOf(nodes, p)[i] in PathsOf(nodes) && |ChildrenOf(nodes, p)[i]| > |p|
        ensures ChildrenOf(nodes, p)[i] != ROOT
      {
        ChildRises(nodes, p, ChildrenOf(nodes, p)[i]);
      }
    }
  }

  lemma RootIsItsParent()
    ensures ParentOf(ROOT) == Ok(ROOT)
  {
    CanonicalFixed(ROOT);
  }

  lemma ChildRises(nodes: seq<Node>, p: string, c: string)
    requires p != ROOT && c in ChildrenOf(nodes, p)
    ensures c in PathsOf(nodes) && |c| > |p| && c != ROOT
  {
    ChildrenAreFiled(nodes, p);
    ChildLonger(c, p);
    RootIsItsParent();
  }

  function UpOf(nodes: seq<Node>): map<string, string>
    requires Addressable(nodes)
  {
    map q | q in PathsOf(nodes) :: ParentOf(q).value
  }

  lemma {:induction false} ChildListed(nodes: seq<Node>, c: string, path: string)
    requires c in PathsOf(nodes) && ParentOf(c) == Ok(path)
    ensures c in ChildrenOf(nodes, path)
  {
    var front, last := nodes[..|nodes| - 1], nodes[|nodes| - 1];
    if last.path != c {
      assert c in PathsOf(front) by {
        var i :| 0 <= i < |nodes| && nodes[i].path == c;
        assert front[i].path == c;
      }
      ChildListed(front, c, path);
    }
  }

  /** In a built tree the parent is the parent path; so a walk from a filed path lists exactly the nodes
      whose chain of parent paths leads, through filed paths, to it. */
  lemma BuiltTreeIsShaped(nodes: seq<Node>)
    requires Addressable(nodes)
    ensures Shaped(TreeOf(nodes), UpOf(nodes)) && Rising(TreeOf(nodes))
  {
    TreeRises(nodes);
    forall p, c | p in PathsOf(nodes)
      ensures c in TreeOf(nodes)[p].children <==> c in UpOf(nodes) && UpOf(nodes)[c] == p
    {
      ChildIff(nodes, p, c);
    }
  }

  lemma ChildIff(nodes: seq<Node>, p: string, c: string)
    requires Addressable(nodes)
    ensures c in ChildrenOf(nodes, p) <==> c in UpOf(nodes) && UpOf(nodes)[c] == p
  {
    ChildrenAreFiled(nodes, p);
    if c in UpOf(nodes) && UpOf(nodes)[c] == p {
      assert ParentOf(c).Ok?;
      ChildListed(nodes, c, p);
    }
  }

  /** What flattening the tree of `nodes` returns: one node per childless path, sorted by path. */
  ghost predicate Flattened(nodes: seq<Node>, out: seq<Node>) {
    && (forall i :: 0 <= i < |out| ==>
          out[i].path in PathsOf(nodes) && out[i] == NodeAt(nodes, out[i].path) && !HasChild(PathsOf(nodes), out[i].path))
    && (forall p :: p in PathsOf(nodes) && !HasChild(PathsOf(nodes), p) ==> NodeAt(nodes, p) in out)
    && (forall i, j :: 0 <= i < j < |out| ==> Less(out[i].path, out[j].path))
  }

  ghost function LongestPath(paths: set<string>): (n: nat)
    ensures forall p :: p in paths ==> |p| <= n
  {
    if paths == {} then 0
    else
      var p :| p in paths;
      var rest := LongestPath(paths - {p});
      if |p| > rest then |p| else rest
  }

  /** Paths that are nobody's parent. */
  function RootsOf(tree: Tree): set<string> {
    tree.Keys - set p | p in tree && ParentOf(p).Ok? && ParentOf(p).value in tree :: ParentOf(p).value
  }

  lemma RootsAreChildless(nodes: seq<Node>, p: string)
    requires p in PathsOf(nodes)
    ensures p in RootsOf(TreeOf(nodes)) <==> !HasChild(PathsOf(nodes), p)
  {
    if HasChild(PathsOf(nodes), p) {
      var q :| q in PathsOf(nodes) && ParentOf(q) == Ok(p);
      assert q in TreeOf(nodes);
    }
  }

  /** A root of the walk has no children in the tree and is not the memory root. */
  lemma RootIsLeaf(nodes: seq<Node>, p: string)
    requires p in RootsOf(TreeOf(nodes))
    ensures p in PathsOf(nodes) && TreeOf(nodes)[p].children == [] && p != ROOT
  {
    RootsAreChildless(nodes, p);
    ChildrenAreFiled(nodes, p);
    RootNotARoot(nodes);
  }

  lemma WalkedRoots(nodes: seq<Node>, order: seq<string>, out: seq<Node>)
    requires SortedPaths(order) && forall p :: p in order <==> p in RootsOf(TreeOf(nodes))
    requires |out| == |order|
    requires forall i :: 0 <= i < |order| ==> order[i] in PathsOf(nodes) && out[i] == NodeAt(nodes, order[i])
    ensures Flattened(nodes, out)
  {
    forall p | p in PathsOf(nodes) && !HasChild(PathsOf(nodes), p) ensures NodeAt(nodes, p) in out {
      RootsAreChildless(nodes, p);
      var i :| 0 <= i < |order| && order[i] == p;
      assert out[i] == NodeAt(nodes, p);
    }
    forall i | 0 <= i < |out|
      ensures out[i].path == order[i] && !HasChild(PathsOf(nodes), out[i].path)
    {
      assert order[i] in order;
      RootsAreChildless(nodes, order[i]);
    }
  }

  /** Flattening: the roots are the paths that are nobody's parent, sorted, each walked. */
  method FlattenTree(ghost nodes: seq<Node>, tree: Tree) returns (out: seq<Node>)
    requires tree == TreeOf(nodes)
    ensures Flattened(nodes, out)
  {
    out := [];
    var order := Sorted(RootsOf(tree));
    var k := 0;
    ghost var bound := LongestPath(tree.Keys);
    TreeRises(nodes);
    while k < |order|
      invariant k <= |order| && |out| == k
      invariant forall i :: 0 <= i < k ==> order[i] in PathsOf(nodes) && out[i] == NodeAt(nodes, order[i])
    {
      assert order[k] in order;
      RootIsLeaf(nodes, order[k]);
      var below := Walk(tree, order[k], bound);
      out := out + below;
      k := k + 1;
    }
    WalkedRoots(nodes, order, out);
  }

  /** The memory root, when filed, is its own parent and never a root of the walk. */
  lemma RootNotARoot(nodes: seq<Node>)
    ensures ROOT in PathsOf(nodes) ==> HasChild(PathsOf(nodes), ROOT)
  {
    CanonicalFixed(ROOT);
    assert ParentOf(ROOT) == Ok(ROOT);
  }

  // ---- when nothing is lost --------------------------------------------------------------

  predicate DistinctPaths(nodes: seq<Node>) {
    forall i, j :: 0 <= i < j < |nodes| ==> nodes[i].path != nodes[j].path
  }

  /** No node's path is the parent path of a node. */
  predicate Flat(nodes: seq<Node>) {
    forall i :: 0 <= i < |nodes| ==> !HasChild(PathsOf(nodes), nodes[i].path)
  }

  lemma {:induction false} NodeAtIndex(nodes: seq<Node>, i: nat)
    requires DistinctPaths(nodes) && i < |nodes|
    ensures nodes[i].path in PathsOf(nodes) && NodeAt(nodes, nodes[i].path) == nodes[i]
  {
    assert nodes[i].path in PathsOf(nodes);
    if i < |nodes| - 1 {
      NodeAtIndex(nodes[..|nodes| - 1], i);
    }
  }

  predicate NoRepeats(a: seq<Node>) {
    forall i, j :: 0 <= i < j < |a| ==> a[i] != a[j]
  }

  lemma {:induction false} CountOnce(a: seq<Node>, x: Node)
    requires NoRepeats(a)
    ensures multiset(a)[x] == if x in a then 1 else 0
  {
    if a != [] {
      var tail := a[1..];
      assert a == [a[0]] + tail;
      assert forall i :: 0 <= i < |tail| ==> tail[i] == a[i + 1];
      CountOnce(tail, x);
      assert multiset(a)[x] == multiset([a[0]])[x] + multiset(tail)[x];
    }
  }

  lemma SameElements(a: seq<Node>, b: seq<Node>)
    requires NoRepeats(a) && NoRepeats(b) && forall x :: x in a <==> x in b
    ensures multiset(a) == multiset(b)
  {
    forall x ensures multiset(a)[x] == multiset(b)[x] {
      CountOnce(a, x);
      CountOnce(b, x);
    }
  }

  lemma FlattenedNoRepeats(nodes: seq<Node>, out: seq<Node>)
    requires Flattened(nodes, out)
    ensures NoRepeats(out)
  {
    forall i, j | 0 <= i < j < |out| ensures out[i] != out[j] {
      LessIrreflexive(out[i].path);
    }
  }

  lemma KeptIff(nodes: seq<Node>, out: seq<Node>, i: nat)
    requires DistinctPaths(nodes) && Flattened(nodes, out) && i < |nodes|
    ensures nodes[i] in out <==> !HasChild(PathsOf(nodes), nodes[i].path)
  {
    NodeAtIndex(nodes, i);
  }

  /** With distinct paths, flattening returns every node, each once, in path order, exactly when no
      node is the parent of another; otherwise precisely the parents are missing. */
  lemma FlattenKeepsAllIff(nodes: seq<Node>, out: seq<Node>)
    requires DistinctPaths(nodes) && Flattened(nodes, out)
    ensures multiset(out) == multiset(nodes) <==> Flat(nodes)
    ensures forall i :: 0 <= i < |nodes| ==> (nodes[i] in out <==> !HasChild(PathsOf(nodes), nodes[i].path))
  {
    forall i | 0 <= i < |nodes| ensures nodes[i] in out <==> !HasChild(PathsOf(nodes), nodes[i].path) {
      KeptIff(nodes, out, i);
    }
    FlattenedNoRepeats(nodes, out);
    if Flat(nodes) {
      forall x ensures x in out <==> x in nodes {
        if x in out {
          var i :| 0 <= i < |out| && out[i] == x;
        }
      }
      SameElements(out, nodes);
    } else {
      var i :| 0 <= i < |nodes| && HasChild(PathsOf(nodes), nodes[i].path);
      assert nodes[i] in multiset(nodes) && nodes[i] !in multiset(out);
    }
  }

  /** Build the tree of the given nodes and list it: the nodes at childless paths, in path order, which
      with distinct paths are all the nodes exactly when none is the parent of another. */
  method ListNodes(raws: seq<RawNode>) returns (r: Result<seq<Node>>)
    ensures r.Ok? <==> Addressable(Keyed(raws))
    ensures r.Ok? ==> forall i, j :: 0 <= i < j < |r.value| ==> Less(r.value[i].path, r.value[j].path)
    ensures r.Ok? && DistinctPaths(Keyed(raws)) ==>
              (multiset(r.value) == multiset(Keyed(raws)) <==> Flat(Keyed(raws)))
  {
    var tree := BuildTree(raws);
    if tree.Err? {
      return Err(tree.error);
    }
    var out := FlattenTree(Keyed(raws), tree.value);
    if DistinctPaths(Keyed(raws)) {
      FlattenKeepsAllIff(Keyed(raws), out);
    }
    r := Ok(out);
  }

  // ---- paths as writes give them ---------------------------------------------------------

  /** `w` is `p` with one more segment. */
  predicate OneBelow(p: string, w: string) {
    p + "/" <= w && SlashFree(w[|p| + 1..])
  }

  /** On canonical paths the parent is found by dropping the last segment. */
  lemma ParentIff(p: string, w: string)
    requires Canonical(w) && |p| > |ROOT|
    ensures ParentOf(w) == Ok(p) <==> OneBelow(p, w)
  {
    CanonicalParent(w);
    LastSlashIff(p, w);
  }

  /** The parent is the memory root for paths one segment below it, and for one-segment paths. */
  lemma ParentIsRootIff(w: string)
    requires Canonical(w)
    ensures ParentOf(w) == Ok("/memory") <==> OneBelow("/memory", w) || SlashFree(w[1..])
  {
    CanonicalParent(w);
    LastSlashIff(ROOT, w);
    LastSlashIff("", w);
    var k := LastSlash(w);
    assert w[..0] == "";
    if 0 < k <= |ROOT| {
      assert w[k] == '/' && forall i :: 1 <= i < |ROOT| ==> ROOT[i] != '/';
      assert w[..|ROOT|] == ROOT;
    }
  }

  lemma CanonicalParent(w: string)
    requires Canonical(w)
    ensures ParentOf(w) == Ok(if LastSlash(w) <= |ROOT| then ROOT else w[..LastSlash(w)])
  {
    CanonicalFixed(w);
  }

  lemma LastSlashIff(p: string, w: string)
    requires w != "" && w[0] == '/'
    ensures w[..LastSlash(w)] == p <==> OneBelow(p, w)
  {
    var k := LastSlash(w);
    if OneBelow(p, w) {
      assert w[|p|] == '/' && w[..|p|] == p;
      assert forall i :: |p| < i < |w| ==> w[i] == w[|p| + 1..][i - |p| - 1];
    }
    if w[..k] == p {
      var seg := w[k + 1..];
      assert p + "/" == w[..k + 1];
      assert forall i :: 0 <= i < |seg| ==> seg[i] != '/';
    }
  }

  /** Nodes at distinct canonical paths: flattening the tree built from them is a permutation of them
      exactly when no path is another with one more segment. */
  lemma CanonicalNodesFlattenIff(nodes: seq<Node>, out: seq<Node>)
    requires DistinctPaths(nodes) && Flattened(nodes, out)
    requires CanonicalNodes(nodes)
    ensures multiset(out) == multiset(nodes) <==>
            forall i, j :: 0 <= i < |nodes| && 0 <= j < |nodes| ==> !OneBelow(nodes[i].path, nodes[j].path)
  {
    forall i, j | 0 <= i < |nodes| && 0 <= j < |nodes|
      ensures ParentOf(nodes[j].path) == Ok(nodes[i].path) <==> OneBelow(nodes[i].path, nodes[j].path)
    {
      assert CanonicalBelowRoot(nodes[i].path) && CanonicalBelowRoot(nodes[j].path);
      ParentIff(nodes[i].path, nodes[j].path);
    }
    FlattenKeepsAllIff(nodes, out);
    if !Flat(nodes) {
      var i :| 0 <= i < |nodes| && HasChild(PathsOf(nodes), nodes[i].path);
      var q :| q in PathsOf(nodes) && ParentOf(q) == Ok(nodes[i].path);
      var j :| 0 <= j < |nodes| && nodes[j].path == q;
      assert OneBelow(nodes[i].path, nodes[j].path);
    } else {
      forall i, j | 0 <= i < |nodes| && 0 <= j < |nodes|
        ensures !OneBelow(nodes[i].path, nodes[j].path)
      {
        assert nodes[j].path in PathsOf(nodes);
        assert !HasChild(PathsOf(nodes), nodes[i].path);
      }
    }
  }

  /** The path of an accepted write whose tenant and fields are slash-free. */
  ghost predicate WrittenPath(path: string) {
    exists payload, tenant, uuid :: WriteGives(payload, tenant, uuid, path)
  }

  predicate WriteGives(payload: Payload, tenant: string, uuid: string, path: string) {
    && Clean(uuid) && SlashFree(tenant) && FieldsSlashFree(payload)
    && PathFromWrite(payload, tenant, uuid).Ok? && PathFromWrite(payload, tenant, uuid).value.path == path
  }

  predicate CanonicalUnlessSpace(path: string) {
    path != "" && |path| > |ROOT| && (Canonical(path) <==> !IsSpace(path[|path| - 1]))
  }

  /** Such a path is canonical unless it ends in white space. */
  lemma WrittenIsCanonicalIff(path: string)
    requires WrittenPath(path)
    ensures CanonicalUnlessSpace(path)
  {
    var payload, tenant, uuid :| WriteGives(payload, tenant, uuid, path);
    WriteIsCanonicalIff(payload, tenant, uuid);
  }

  lemma WriteIsCanonicalIff(payload: Payload, tenant: string, uuid: string)
    requires Clean(uuid) && SlashFree(tenant) && FieldsSlashFree(payload) && PathFromWrite(payload, tenant, uuid).Ok?
    ensures CanonicalUnlessSpace(PathFromWrite(payload, tenant, uuid).value.path)
  {
    var w := PathFromWrite(payload, tenant, uuid).value;
    FieldsBecomeSegments(payload, tenant, uuid);
    WriteIsGeneratedOrNamed(payload, tenant, uuid);
    if Generated(tenant, w.namespace, w.addrType, uuid) == Ok(w) {
      GeneratedIsCanonical(tenant, w.namespace, w.addrType, uuid);
    } else {
      NamedIsCanonicalIff(payload.path);
    }
  }

  lemma FieldsBecomeSegments(payload: Payload, tenant: string, uuid: string)
    requires Clean(uuid) && SlashFree(tenant) && FieldsSlashFree(payload) && PathFromWrite(payload, tenant, uuid).Ok?
    ensures var w := PathFromWrite(payload, tenant, uuid).value; SlashFree(w.namespace) && SlashFree(w.addrType)
  {
    WriteReadsBackIff(payload, tenant, uuid);
    ReadBackIsSlashFree(PathFromWrite(payload, tenant, uuid).value, tenant);
  }

  lemma WriteIsGeneratedOrNamed(payload: Payload, tenant: string, uuid: string)
    requires PathFromWrite(payload, tenant, uuid).Ok?
    ensures var w := PathFromWrite(payload, tenant, uuid).value;
            || Generated(tenant, w.namespace, w.addrType, uuid) == Ok(w)
            || (Normalize(payload.path) == Ok(w.path) && Parse(w.path).Ok? && Parse(w.path).value.nodeId != "")
  {
  }

  lemma NamedIsCanonicalIff(given: string)
    requires Normalize(given).Ok? && Parse(Normalize(given).value).Ok? && Parse(Normalize(given).value).value.nodeId != ""
    ensures CanonicalUnlessSpace(Normalize(given).value)
  {
    NormalShape(given);
    NamedIsLonger(Normalize(given).value);
  }

  lemma NamedIsLonger(path: string)
    requires ROOT <= path && Parse(path).Ok? && Parse(path).value.nodeId != ""
    ensures |path| > |ROOT|
  {
    if |path| == |ROOT| {
      assert path == ROOT;
      RootHasNoNode();
    }
  }

  lemma RootHasNoNode()
    ensures Parse(ROOT) == Ok(Parts("", "", "", ""))
  {
    CanonicalFixed(ROOT);
    RootSplits();
  }

  lemma RootSplits()
    ensures Split(ROOT) == ["", MEMORY]
  {
    assert ROOT == "" + "/" + MEMORY;
    SplitFirst("", MEMORY);
    SplitPlain(MEMORY);
  }

  lemma GeneratedIsCanonical(tenant: string, namespace: string, addrType: string, uuid: string)
    requires Clean(uuid) && SlashFree(tenant) && SlashFree(namespace) && SlashFree(addrType)
    requires Generated(tenant, namespace, addrType, uuid).Ok?
    ensures var p := Generated(tenant, namespace, addrType, uuid).value.path;
            Canonical(p) && |p| > |ROOT| && |Split(p)| == 6
  {
    var c := Parts(tenant, namespace, addrType, uuid);
    assert Components(c) == [tenant, namespace, addrType, uuid] && Last(c) == uuid;
    BuiltShape(c);
    JoinedShape(ROOT, Components(c));
  }

  lemma OneBelowSplits(p: string, w: string)
    requires OneBelow(p, w)
    ensures |Split(w)| == |Split(p)| + 1
  {
    var seg := w[|p| + 1..];
    assert w == p + "/" + seg;
    SplitConcat(p, seg);
    SplitPlain(seg);
  }

  /** Every node lies at the path of an accepted write that does not end in white space. */
  ghost predicate WrittenNodes(nodes: seq<Node>) {
    forall i :: 0 <= i < |nodes| ==> WrittenAt(nodes[i].path)
  }

  ghost predicate WrittenAt(path: string) {
    WrittenPath(path) && path != "" && !IsSpace(path[|path| - 1])
  }

  predicate CanonicalNodes(nodes: seq<Node>) {
    forall i :: 0 <= i < |nodes| ==> CanonicalBelowRoot(nodes[i].path)
  }

  predicate CanonicalBelowRoot(path: string) {
    Canonical(path) && |path| > |ROOT|
  }

  lemma WrittenAreCanonical(nodes: seq<Node>)
    requires WrittenNodes(nodes)
    ensures CanonicalNodes(nodes)
  {
    forall i | 0 <= i < |nodes| ensures CanonicalBelowRoot(nodes[i].path) {
      assert WrittenAt(nodes[i].path);
      WrittenIsCanonicalIff(nodes[i].path);
    }
  }

  /** For accepted writes at distinct paths not ending in white space: flattening the tree built from
      their nodes is a permutation exactly when no written path is another with one more segment. */
  lemma WrittenNodesFlattenIff(nodes: seq<Node>, out: seq<Node>)
    requires DistinctPaths(nodes) && Flattened(nodes, out)
    requires WrittenNodes(nodes)
    ensures multiset(out) == multiset(nodes) <==>
            forall i, j :: 0 <= i < |nodes| && 0 <= j < |nodes| ==> !OneBelow(nodes[i].path, nodes[j].path)
  {
    WrittenAreCanonical(nodes);
    CanonicalNodesFlattenIff(nodes, out);
  }

  /** The nodes of generated paths are never lost. */
  lemma GeneratedNodesFlatten(nodes: seq<Node>, out: seq<Node>)
    requires DistinctPaths(nodes) && Flattened(nodes, out)
    requires CanonicalNodes(nodes) && forall i :: 0 <= i < |nodes| ==> |Split(nodes[i].path)| == 6
    ensures multiset(out) == multiset(nodes)
  {
    forall i, j | 0 <= i < |nodes| && 0 <= j < |nodes| ensures !OneBelow(nodes[i].path, nodes[j].path) {
      if OneBelow(nodes[i].path, nodes[j].path) {
        OneBelowSplits(nodes[i].path, nodes[j].path);
      }
    }
    CanonicalNodesFlattenIff(nodes, out);
  }

  // ---- the failing case -------------------------------------------------------------------

  /** A named path with more than four components is accepted as it is. */
  lemma LongPathIsAccepted(c: Parts, extra: string, nodeType: string, uuid: string)
    requires Clean(c.tenant) && Clean(c.namespace) && Clean(c.addrType) && Clean(c.nodeId) && Clean(extra)
    ensures var p := Build(c).value + "/" + extra;
            && Build(c).Ok? && Canonical(p)
            && PathFromWrite(Payload(p, "", "", nodeType), c.tenant, uuid) == Ok(Written(p, c.namespace, c.addrType))
  {
    var p := Build(c).value + "/" + extra;
    LongShape(c, extra);
    CanonicalFixed(p);
    LongParses(c, extra);
    LongIsUnderTenant(c, extra);
  }

  lemma LongParses(c: Parts, extra: string)
    requires Clean(c.tenant) && Clean(c.namespace) && Clean(c.addrType) && Clean(c.nodeId) && Clean(extra)
    ensures PartsOf(Split(Build(c).value + "/" + extra)) == c
  {
    var cs := [c.tenant, c.namespace, c.addrType, c.nodeId];
    assert Components(c) == cs;
    BuiltShape(c);
    SplitConcat(Build(c).value, extra);
    SplitPlain(extra);
  }

  lemma LongIsUnderTenant(c: Parts, extra: string)
    requires Clean(c.tenant) && Clean(c.namespace) && Clean(c.addrType) && Clean(c.nodeId)
    ensures UnderTenant(Build(c).value + "/" + extra, c.tenant)
  {
    var dir := ROOT + "/" + c.tenant + "/";
    GeneratedUnderTenant(c.tenant, c.namespace, c.addrType, c.nodeId);
    assert dir <= Build(c).value;
  }

  lemma LongShape(c: Parts, extra: string)
    requires Buildable(c) && Plain(c) && Clean(extra)
    ensures Canonical(Build(c).value + "/" + extra)
  {
    var b := Build(c).value;
    BuiltShape(c);
    assert ([b] + [extra])[1..] == [extra];
    assert Join([b] + [extra]) == b + "/" + extra;
    JoinedShape(b, [extra]);
  }

  /** Of two accepted writes, one a segment below the other, flattening returns only the lower one. */
  lemma FlattenDropsParent(c: Parts, extra: string, parent: RawNode, child: RawNode, out: seq<Node>)
    requires Clean(c.tenant) && Clean(c.namespace) && Clean(c.addrType) && Clean(c.nodeId) && Clean(extra)
    requires parent.path == Build(c).value && child.path == Build(c).value + "/" + extra
    requires Flattened(Keyed([parent, child]), out)
    ensures Node(parent.path, parent) !in out && Node(child.path, child) in out
  {
    var nodes := Keyed([parent, child]);
    assert nodes[0] == Node(parent.path, parent) && nodes[1] == Node(child.path, child);
    ParentAndChild(c, extra);
    assert nodes[1].path in PathsOf(nodes);
    assert DistinctPaths(nodes);
    assert HasChild(PathsOf(nodes), parent.path) && !HasChild(PathsOf(nodes), child.path);
    KeptIff(nodes, out, 0);
    KeptIff(nodes, out, 1);
  }

  lemma ParentAndChild(c: Parts, extra: string)
    requires Clean(c.tenant) && Clean(c.namespace) && Clean(c.addrType) && Clean(c.nodeId) && Clean(extra)
    ensures var p := Build(c).value; var w := p + "/" + extra;
            p != "" && ParentOf(w) == Ok(p) && ParentOf(w) != Ok(w) && ParentOf(p) != Ok(w)
  {
    var p := Build(c).value;
    var w := p + "/" + extra;
    assert Components(c) == [c.tenant, c.namespace, c.addrType, c.nodeId];
    BuiltShape(c);
    JoinedShape(ROOT, Components(c));
    LongShape(c, extra);
    assert w[|p| + 1..] == extra;
    ParentIff(p, w);
    ParentIff(w, w);
    ParentIff(w, p);
  }
}
