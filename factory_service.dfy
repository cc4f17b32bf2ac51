/** The asset service (services/factory-service.ts): flat asset records
    become graph nodes and parent-child links, and the nodes become a nested
    tree by following each asset's `parent_id`. */
module FactoryService {
  import opened Js

  /** The fields of an asset record the service reads; any of them may be
      missing or null. */
  datatype Asset = Asset(
    asset_id: Field,
    id: Field,
    name: Field,
    description: Field,
    code: Field,
    kind: Field,
    parent_id: Field,
    status: Field)

  /** A graph node. `code` and `status` are optional because nodes that
      arrive already in graph form need not carry them; `assetData` is the
      asset the node was made from, when there was one. */
  datatype GraphNode = GraphNode(
    id: string,
    title: string,
    kind: string,
    code: Option<string>,
    status: Option<string>,
    assetData: Option<Asset>)

  datatype AssetLink = AssetLink(source: string, target: string, kind: string)

  /** A tree node with its nested children. */
  datatype TreeNode = TreeNode(
    id: string,
    title: string,
    kind: string,
    code: string,
    status: string,
    children: seq<TreeNode>,
    assetData: Option<Asset>)

  // ---------------------------------------------------------------------
  // processAssetData
  // ---------------------------------------------------------------------

  /** `asset.asset_id || asset.id` */
  function AssetId(a: Asset): Field
  {
    a.asset_id.Or(a.id)
  }

  /** The node made from an asset that has an id. */
  function NodeFor(a: Asset): (n: GraphNode)
    requires AssetId(a).Truthy()
    ensures n.id == (if a.asset_id.Truthy() then a.asset_id.text else a.id.text) && n.id != ""
    ensures n.title == (if a.name.Truthy() then a.name.text
                        else if a.description.Truthy() then a.description.text
                        else "Asset " + n.id)
    ensures n.kind == (if a.kind.Truthy() then a.kind.text else "workstation")
    ensures n.code == Some(if a.code.Truthy() then a.code.text else "")
    ensures n.status == Some(if a.status.Truthy() then a.status.text else "active")
    ensures n.assetData == Some(a)
  {
    var id := AssetId(a).text;
    GraphNode(id, a.name.Or(a.description).OrElse("Asset " + id), a.kind.OrElse("workstation"),
              Some(a.code.OrElse("")), Some(a.status.OrElse("active")), Some(a))
  }

  /** The nodes of the first pass: one per asset with an id, in order. */
  function NodesFrom(assets: seq<Asset>): (r: seq<GraphNode>)
    ensures |r| <= |assets|
  {
    if assets == [] then []
    else
      var last := assets[|assets| - 1];
      NodesFrom(assets[..|assets| - 1]) + (if AssetId(last).Truthy() then [NodeFor(last)] else [])
  }

  /** The links of the second pass: one per asset with an id and a parent. */
  function LinksFrom(assets: seq<Asset>): (r: seq<AssetLink>)
    ensures |r| <= |assets|
  {
    if assets == [] then []
    else
      var last := assets[|assets| - 1];
      LinksFrom(assets[..|assets| - 1])
        + (if AssetId(last).Truthy() && last.parent_id.Truthy()
           then [AssetLink(last.parent_id.text, AssetId(last).text, "parent-child")] else [])
  }

  /** Both passes treat the assets one at a time and in order: the output for
      a concatenation is the concatenation of the outputs. */
  lemma {:induction false} PassesAppend(a: seq<Asset>, b: seq<Asset>)
    ensures NodesFrom(a + b) == NodesFrom(a) + NodesFrom(b)
    ensures LinksFrom(a + b) == LinksFrom(a) + LinksFrom(b)
  {
    NodesAppend(a, b);
    LinksAppend(a, b);
  }

  lemma {:induction false} NodesAppend(a: seq<Asset>, b: seq<Asset>)
    ensures NodesFrom(a + b) == NodesFrom(a) + NodesFrom(b)
    decreases |b|
  {
    if b == [] {
      assert a + b == a;
    } else {
      var b' := b[..|b| - 1];
      assert (a + b)[..|a + b| - 1] == a + b';
      NodesAppend(a, b');
    }
  }

  lemma {:induction false} LinksAppend(a: seq<Asset>, b: seq<Asset>)
    ensures LinksFrom(a + b) == LinksFrom(a) + LinksFrom(b)
    decreases |b|
  {
    if b == [] {
      assert a + b == a;
    } else {
      var b' := b[..|b| - 1];
      assert (a + b)[..|a + b| - 1] == a + b';
      LinksAppend(a, b');
    }
  }

  /** What a single asset contributes: a node exactly when it has an id, and
      a link from its `parent_id` exactly when it has an id and a parent,
      whether or not that parent is itself an asset. */
  lemma {:induction false} SingleAsset(a: Asset)
    ensures NodesFrom([a]) == if AssetId(a).Truthy() then [NodeFor(a)] else []
    ensures LinksFrom([a]) == if AssetId(a).Truthy() && a.parent_id.Truthy()
                              then [AssetLink(a.parent_id.text, AssetId(a).text, "parent-child")] else []
  {
    assert [a][..0] == [];
  }

  /** The parent recorded on a node's asset (`node.assetData?.parent_id`). */
  function ParentOf(n: GraphNode): Field
  {
    if n.assetData.Some? then n.assetData.value.parent_id else Undefined
  }

  /** The links, read off the nodes: one per node whose asset has a parent. */
  function NodeLinks(nodes: seq<GraphNode>): seq<AssetLink>
  {
    if nodes == [] then []
    else
      var last := nodes[|nodes| - 1];
      NodeLinks(nodes[..|nodes| - 1])
        + (if ParentOf(last).Truthy() then [AssetLink(ParentOf(last).text, last.id, "parent-child")] else [])
  }

  /** Each link comes from exactly one node: the links are the nodes' own
      parent references, in node order; so every link targets a node id. */
  lemma {:induction false} LinksFollowNodes(assets: seq<Asset>)
    ensures LinksFrom(assets) == NodeLinks(NodesFrom(assets))
  {
    if assets != [] {
      var pre := assets[..|assets| - 1];
      var last := assets[|assets| - 1];
      LinksFollowNodes(pre);
      if AssetId(last).Truthy() {
        var ns := NodesFrom(pre) + [NodeFor(last)];
        assert ns[..|ns| - 1] == NodesFrom(pre);
        assert ParentOf(ns[|ns| - 1]) == last.parent_id;
        assert ns[|ns| - 1].id == AssetId(last).text;
      } else {
        assert NodesFrom(assets) == NodesFrom(pre);
      }
    }
  }

  lemma {:induction false} LinkTargetsAreNodes(nodes: seq<GraphNode>)
    ensures forall l :: l in NodeLinks(nodes) ==> exists n :: n in nodes && n.id == l.target && ParentOf(n) == Str(l.source)
  {
    if nodes != [] {
      var pre := nodes[..|nodes| - 1];
      LinkTargetsAreNodes(pre);
      forall l | l in NodeLinks(nodes)
        ensures exists n :: n in nodes && n.id == l.target && ParentOf(n) == Str(l.source)
      {
        if l in NodeLinks(pre) {
          var n :| n in pre && n.id == l.target && ParentOf(n) == Str(l.source);
          assert n in nodes;
        } else {
          assert nodes[|nodes| - 1] in nodes;
        }
      }
    }
  }

  // ---------------------------------------------------------------------
  // convertGraphNodesToTreeNodes
  // ---------------------------------------------------------------------

  function IdSet(nodes: seq<GraphNode>): set<string>
  {
    set n | n in nodes :: n.id
  }

  /** The tree node for a graph node, with the given children. */
  function ToTree(n: GraphNode, kids: seq<TreeNode>): TreeNode
  {
    TreeNode(n.id, n.title, n.kind, OrElse(n.code, ""), OrElse(n.status, "active"), kids, n.assetData)
  }

  /** The nodes whose asset names no parent, in node order. */
  function RootsOf(nodes: seq<GraphNode>): (r: seq<GraphNode>)
    ensures forall n :: n in r <==> n in nodes && !ParentOf(n).Truthy()
  {
    if nodes == [] then []
    else
      var last := nodes[|nodes| - 1];
      RootsOf(nodes[..|nodes| - 1]) + (if ParentOf(last).Truthy() then [] else [last])
  }

  /** `nodes.filter(node => node.assetData?.parent_id === id)` */
  function KidsOf(nodes: seq<GraphNode>, id: string): (r: seq<GraphNode>)
    ensures forall n :: n in r <==> n in nodes && ParentOf(n) == Str(id)
  {
    if nodes == [] then []
    else
      var last := nodes[|nodes| - 1];
      KidsOf(nodes[..|nodes| - 1], id) + (if ParentOf(last) == Str(id) then [last] else [])
  }

  /** `buildTree` applied to the tree node made from n, below the ancestors'
      ids `onPath`. The children depend only on the id, so meeting an id
      that is already on the path means the source recurses without end
      (the stack overflows and the conversion throws): None. */
  function BuildNode(nodes: seq<GraphNode>, n: GraphNode, onPath: set<string>): Option<TreeNode>
    requires n in nodes
    decreases IdSet(nodes) - onPath, 0, 0
  {
    if n.id in onPath then None
    else
      assert n.id in IdSet(nodes);
      match BuildAll(nodes, KidsOf(nodes, n.id), onPath + {n.id})
      case None => None
      case Some(cs) => Some(ToTree(n, cs))
  }

  /** The children built in order; None as soon as one of them fails. */
  function BuildAll(nodes: seq<GraphNode>, kids: seq<GraphNode>, onPath: set<string>): Option<seq<TreeNode>>
    requires forall k :: k in kids ==> k in nodes
    decreases IdSet(nodes) - onPath, 1, |kids|
  {
    if kids == [] then Some([])
    else
      match BuildAll(nodes, kids[..|kids| - 1], onPath)
      case None => None
      case Some(ts) =>
        match BuildNode(nodes, kids[|kids| - 1], onPath)
        case None => None
        case Some(t) => Some(ts + [t])
  }

  /** The trees of all roots, or None when the recursion would not end. */
  function Forest(nodes: seq<GraphNode>): Option<seq<TreeNode>>
  {
    BuildAll(nodes, RootsOf(nodes), {})
  }

  /** One child whose subtree does not end makes the whole list fail. */
  lemma {:induction false} BuildAllFails(nodes: seq<GraphNode>, kids: seq<GraphNode>, onPath: set<string>, i: nat)
    requires forall k :: k in kids ==> k in nodes
    requires i < |kids| && BuildNode(nodes, kids[i], onPath).None?
    ensures BuildAll(nodes, kids, onPath).None?
  {
    var pre := kids[..|kids| - 1];
    if i < |pre| {
      assert pre[i] == kids[i];
      BuildAllFails(nodes, pre, onPath, i);
    }
  }

  /** The first pass of the conversion: the roots, in node order. */
  method CollectRoots(nodes: seq<GraphNode>) returns (roots: seq<GraphNode>)
    ensures roots == RootsOf(nodes)
  {
    roots := [];
    for i := 0 to |nodes|
      invariant roots == RootsOf(nodes[..i])
    {
      assert nodes[..i + 1][..i] == nodes[..i];
      if !ParentOf(nodes[i]).Truthy() {
        roots := roots + [nodes[i]];
      }
    }
    assert nodes[..|nodes|] == nodes;
  }

  /** The conversion as the source runs it: collect the roots in one pass,
      then build each root's tree. */
  method ConvertGraphNodesToTreeNodes(nodes: seq<GraphNode>) returns (r: Option<seq<TreeNode>>)
    ensures r == Forest(nodes)
  {
    var roots := CollectRoots(nodes);
    assert InNodes(nodes, roots);
    var built: seq<TreeNode> := [];
    for i := 0 to |roots|
      invariant InNodes(nodes, roots[..i]) && BuildAll(nodes, roots[..i], {}) == Some(built)
    {
      var t := BuildNode(nodes, roots[i], {});
      if t.None? {
        BuildAllFails(nodes, roots, {}, i);
        return None;
      }
      BuildAllSnoc(nodes, roots, {}, i, built, t.value);
      built := built + [t.value];
    }
    assert roots[..|roots|] == roots;
    return Some(built);
  }

  /** Every one of `kids` is among the nodes. */
  predicate InNodes(nodes: seq<GraphNode>, kids: seq<GraphNode>)
  {
    forall k :: k in kids ==> k in nodes
  }

  /** Building one more child extends the list built so far. */
  lemma {:induction false} BuildAllSnoc(nodes: seq<GraphNode>, kids: seq<GraphNode>, onPath: set<string>,
                                        i: nat, built: seq<TreeNode>, t: TreeNode)
    requires InNodes(nodes, kids) && i < |kids|
    requires BuildAll(nodes, kids[..i], onPath) == Some(built)
    requires BuildNode(nodes, kids[i], onPath) == Some(t)
    ensures InNodes(nodes, kids[..i + 1]) && BuildAll(nodes, kids[..i + 1], onPath) == Some(built + [t])
  {
    assert kids[..i + 1][..i] == kids[..i];
  }

  /** `processAssetData`: both passes, then the tree. A tree of None means
      the conversion would not end: the call then throws and no result at
      all (neither nodes, links nor tree) reaches the caller; the nodes and
      links returned beside it are only what the passes had built. Random
      positions are not modelled. */
  method ProcessAssetData(assets: seq<Asset>) returns (nodes: seq<GraphNode>, links: seq<AssetLink>, tree: Option<seq<TreeNode>>)
    ensures nodes == NodesFrom(assets) && links == LinksFrom(assets)
    ensures tree == Forest(nodes)
  {
    nodes := [];
    for i := 0 to |assets|
      invariant nodes == NodesFrom(assets[..i])
    {
      assert assets[..i + 1][..i] == assets[..i];
      var assetId := AssetId(assets[i]);
      if assetId.Truthy() {
        nodes := nodes + [NodeFor(assets[i])];
      }
    }
    links := [];
    for i := 0 to |assets|
      invariant links == LinksFrom(assets[..i])
    {
      assert assets[..i + 1][..i] == assets[..i];
      var assetId := AssetId(assets[i]);
      var parentId := assets[i].parent_id;
      if assetId.Truthy() && parentId.Truthy() {
        links := links + [AssetLink(parentId.text, assetId.text, "parent-child")];
      }
    }
    assert assets[..|assets|] == assets;
    tree := ConvertGraphNodesToTreeNodes(nodes);
  }

  // ---------------------------------------------------------------------
  // Properties of the tree
  // ---------------------------------------------------------------------

  /** The parent an entry of the tree records on its asset. */
  function TreeParent(t: TreeNode): Field
  {
    if t.assetData.Some? then t.assetData.value.parent_id else Undefined
  }

  /** Every child in the tree names its tree parent's id as `parent_id`. */
  ghost predicate Linked(t: TreeNode)
  {
    forall i :: 0 <= i < |t.children| ==> TreeParent(t.children[i]) == Str(t.id) && Linked(t.children[i])
  }

  /** A built node is the copy of its graph node, and its children are the
      copies of exactly the graph nodes that name it as parent, in node
      order, each built below it. */
  lemma {:induction false} BuildNodeShape(nodes: seq<GraphNode>, n: GraphNode, onPath: set<string>)
    requires n in nodes && BuildNode(nodes, n, onPath).Some?
    ensures var t := BuildNode(nodes, n, onPath).value;
      var kids := KidsOf(nodes, n.id);
      && t == ToTree(n, t.children)
      && |t.children| == |kids|
      && forall i :: 0 <= i < |kids| ==>
           BuildNode(nodes, kids[i], onPath + {n.id}) == Some(t.children[i])
  {
    var kids := KidsOf(nodes, n.id);
    BuildAllShape(nodes, kids, onPath + {n.id});
  }

  lemma {:induction false} BuildAllShape(nodes: seq<GraphNode>, kids: seq<GraphNode>, onPath: set<string>)
    requires forall k :: k in kids ==> k in nodes
    requires BuildAll(nodes, kids, onPath).Some?
    ensures var ts := BuildAll(nodes, kids, onPath).value;
      |ts| == |kids| && forall i :: 0 <= i < |kids| ==> BuildNode(nodes, kids[i], onPath) == Some(ts[i])
  {
    if kids != [] {
      BuildAllShape(nodes, kids[..|kids| - 1], onPath);
    }
  }

  /** The built trees follow `parent_id` from a root: each root names no
      parent and every child names its parent in the tree. So a node whose
      `parent_id` chain never reaches a root (a missing parent, or a cycle)
      does not appear. */
  lemma {:induction false} ForestLinked(nodes: seq<GraphNode>)
    requires Forest(nodes).Some?
    ensures var f := Forest(nodes).value;
      && |f| == |RootsOf(nodes)|
      && forall i :: 0 <= i < |f| ==> !TreeParent(f[i]).Truthy() && Linked(f[i])
  {
    var roots := RootsOf(nodes);
    BuildAllShape(nodes, roots, {});
    var f := Forest(nodes).value;
    forall i | 0 <= i < |f| ensures !TreeParent(f[i]).Truthy() && Linked(f[i]) {
      assert roots[i] in roots;
      NodeLinked(nodes, roots[i], {});
    }
  }

  lemma {:induction false} NodeLinked(nodes: seq<GraphNode>, n: GraphNode, onPath: set<string>)
    requires n in nodes && BuildNode(nodes, n, onPath).Some?
    ensures var t := BuildNode(nodes, n, onPath).value; t.id == n.id && TreeParent(t) == ParentOf(n) && Linked(t)
    decreases IdSet(nodes) - onPath, 0
  {
    var t := BuildNode(nodes, n, onPath).value;
    var kids := KidsOf(nodes, n.id);
    assert n.id in IdSet(nodes);
    BuildNodeShape(nodes, n, onPath);
    forall i | 0 <= i < |t.children| ensures TreeParent(t.children[i]) == Str(t.id) && Linked(t.children[i]) {
      assert kids[i] in kids;
      NodeLinked(nodes, kids[i], onPath + {n.id});
    }
  }

  // ---------------------------------------------------------------------
  // When the recursion ends
  // ---------------------------------------------------------------------

  /** No two nodes share an id, and no id is empty (asset nodes never have an
      empty id). */
  ghost predicate UniqueIds(nodes: seq<GraphNode>)
  {
    && (forall i, j :: 0 <= i < |nodes| && 0 <= j < |nodes| && nodes[i].id == nodes[j].id ==> nodes[i] == nodes[j])
    && (forall n :: n in nodes ==> n.id != "")
  }

  /** A chain of ancestors from a root: the first names no parent and each
      next one names its predecessor. */
  ghost predicate Chain(path: seq<GraphNode>)
  {
    && (path != [] ==> !ParentOf(path[0]).Truthy())
    && (forall i :: 0 < i < |path| ==> ParentOf(path[i]) == Str(path[i - 1].id))
  }

  function PathIds(path: seq<GraphNode>): set<string>
  {
    set n | n in path :: n.id
  }

  /** With unique, non-empty ids the ids along a chain are all different. */
  lemma {:induction false} ChainDistinct(nodes: seq<GraphNode>, path: seq<GraphNode>)
    requires UniqueIds(nodes) && Chain(path) && forall p :: p in path ==> p in nodes
    ensures forall i, j :: 0 <= i < j < |path| ==> path[i].id != path[j].id
  {
    if path != [] {
      var pre := path[..|path| - 1];
      var k := |path| - 1;
      ChainDistinct(nodes, pre);
      forall i | 0 <= i < k ensures path[i].id != path[k].id {
        assert path[i] in nodes && path[k] in nodes && path[k - 1] in nodes;
        if i > 0 {
          assert pre[i - 1].id != pre[k - 1].id;
        }
      }
    }
  }

  /** With unique, non-empty ids `buildTree` never meets an ancestor's id
      again, so the conversion always ends. */
  lemma {:induction false} ForestEnds(nodes: seq<GraphNode>)
    requires UniqueIds(nodes)
    ensures Forest(nodes).Some?
  {
    assert PathIds([]) == {};
    BuildAllEnds(nodes, RootsOf(nodes), []);
  }

  lemma {:induction false} BuildNodeEnds(nodes: seq<GraphNode>, n: GraphNode, path: seq<GraphNode>)
    requires UniqueIds(nodes) && n in nodes && Chain(path + [n]) && forall p :: p in path ==> p in nodes
    ensures BuildNode(nodes, n, PathIds(path)).Some?
    decreases IdSet(nodes) - PathIds(path), 0, 0
  {
    var full := path + [n];
    ChainDistinct(nodes, full);
    assert n.id !in PathIds(path) by {
      forall i | 0 <= i < |path| ensures path[i].id != n.id {
        assert full[i] == path[i] && full[|path|] == n;
      }
    }
    assert n.id in IdSet(nodes);
    assert PathIds(full) == PathIds(path) + {n.id};
    var kids := KidsOf(nodes, n.id);
    BuildAllEnds(nodes, kids, full);
  }

  lemma {:induction false} BuildAllEnds(nodes: seq<GraphNode>, kids: seq<GraphNode>, path: seq<GraphNode>)
    requires UniqueIds(nodes) && Chain(path) && forall p :: p in path ==> p in nodes
    requires forall k :: k in kids ==> k in nodes
    requires path == [] ==> forall k :: k in kids ==> !ParentOf(k).Truthy()
    requires path != [] ==> forall k :: k in kids ==> ParentOf(k) == Str(path[|path| - 1].id)
    ensures BuildAll(nodes, kids, PathIds(path)).Some?
    decreases IdSet(nodes) - PathIds(path), 1, |kids|
  {
    if kids != [] {
      var k := kids[|kids| - 1];
      BuildAllEnds(nodes, kids[..|kids| - 1], path);
      assert k in kids;
      assert Chain(path + [k]);
      BuildNodeEnds(nodes, k, path);
    }
  }
}
