/** The tree view (tree-view.tsx): the same rank rule fills each node's
    `children`, but a root is a node that no link names as its target; roots
    and, when rendered, children are sorted by label, and the component keeps a
    set of expanded node ids. */
module TreeView {
  import opened Js
  import opened Links
  import GraphView

  // ---------------------------------------------------------------------
  // The link pass
  // ---------------------------------------------------------------------

  /** Each link with both endpoints in the map pushes the lower-ranked
      endpoint's partner onto its `children` (link direction on a tie);
      links with a missing endpoint are skipped. */
  method TreeLinkPass(byId: map<string, NodeIn>, links: seq<Link>) returns (children: map<string, seq<string>>)
    ensures children.Keys == byId.Keys
    ensures forall p :: p in children ==> children[p] == ChildrenFrom(byId, links, p)
  {
    children := map k | k in byId :: [];
    for i := 0 to |links|
      invariant children.Keys == byId.Keys
      invariant forall p :: p in children ==> children[p] == ChildrenFrom(byId, links[..i], p)
    {
      assert links[..i + 1][..i] == links[..i];
      var sourceId := EndpointId(links[i].source);
      var targetId := EndpointId(links[i].target);
      if sourceId in byId && targetId in byId {
        if RankBelow(byId[sourceId].kind, byId[targetId].kind) {
          children := children[sourceId := children[sourceId] + [targetId]];
        } else if RankBelow(byId[targetId].kind, byId[sourceId].kind) {
          children := children[targetId := children[targetId] + [sourceId]];
        } else {
          children := children[sourceId := children[sourceId] + [targetId]];
        }
      }
    }
    assert links[..|links|] == links;
  }

  /** A node shows an expander exactly when its `children` is non-empty,
      that is, when some resolvable link makes it the parent. */
  lemma {:induction false} HasChildrenIff(byId: map<string, NodeIn>, links: seq<Link>, p: string)
    ensures ChildrenFrom(byId, links, p) != [] <==>
      exists j :: 0 <= j < |links| && Resolve(byId, links[j]).Some? && Resolve(byId, links[j]).value.0 == p
  {
    if links != [] {
      var pre := links[..|links| - 1];
      HasChildrenIff(byId, pre, p);
      if ChildrenFrom(byId, pre, p) != [] {
        var j :| 0 <= j < |pre| && Resolve(byId, pre[j]).Some? && Resolve(byId, pre[j]).value.0 == p;
        assert links[j] == pre[j];
      }
      if exists j :: 0 <= j < |links| && Resolve(byId, links[j]).Some? && Resolve(byId, links[j]).value.0 == p {
        var j :| 0 <= j < |links| && Resolve(byId, links[j]).Some? && Resolve(byId, links[j]).value.0 == p;
        if j < |pre| {
          assert pre[j] == links[j];
        }
      }
    }
  }

  // ---------------------------------------------------------------------
  // Roots: never a literal link target
  // ---------------------------------------------------------------------

  /** `data.links.some(link => targetId === id)` */
  predicate Targeted(links: seq<Link>, id: string)
  {
    exists j :: 0 <= j < |links| && EndpointId(links[j].target) == id
  }

  /** The Map's nodes, in iteration order, that no link targets, whatever
      the rank rule made of those links. */
  function TreeRoots(order: seq<string>, links: seq<Link>): (r: seq<string>)
    ensures forall k :: k in r <==> k in order && !Targeted(links, k)
    ensures |r| <= |order|
  {
    if order == [] then []
    else (if Targeted(links, order[0]) then [] else [order[0]]) + TreeRoots(order[1..], links)
  }

  // ---------------------------------------------------------------------
  // Sorting by label
  // ---------------------------------------------------------------------

  /** `a.label.localeCompare(b.label) <= 0` is modelled as an abstract
      comparison `le` on labels that is a total preorder. */
  ghost predicate TotalPreorder(le: (string, string) -> bool)
  {
    && (forall a, b :: le(a, b) || le(b, a))
    && (forall a, b, c :: le(a, b) && le(b, c) ==> le(a, c))
  }

  ghost predicate SortedByLabel(s: seq<NodeIn>, le: (string, string) -> bool)
  {
    forall i, j :: 0 <= i < j < |s| ==> le(s[i].title, s[j].title)
  }

  /** Insert n into a sorted list after every node whose label is not
      greater, which keeps equal labels in their original order. */
  function Insert(n: NodeIn, s: seq<NodeIn>, le: (string, string) -> bool): seq<NodeIn>
  {
    if s == [] then [n]
    else if le(s[0].title, n.title) then [s[0]] + Insert(n, s[1..], le)
    else [n] + s
  }

  /** The stable sort `rootNodes.sort((a, b) => a.label.localeCompare(b.label))`
      specified as insertion sort. */
  function SortByLabel(s: seq<NodeIn>, le: (string, string) -> bool): seq<NodeIn>
  {
    if s == [] then [] else Insert(s[|s| - 1], SortByLabel(s[..|s| - 1], le), le)
  }

  /** Insertion adds exactly the one node. */
  lemma {:induction false} InsertPermutes(n: NodeIn, s: seq<NodeIn>, le: (string, string) -> bool)
    ensures multiset(Insert(n, s, le)) == multiset(s) + multiset{n}
  {
    if s != [] && le(s[0].title, n.title) {
      InsertPermutes(n, s[1..], le);
      assert s == [s[0]] + s[1..];
    }
  }

  /** Every node after the first of a sorted list has a label not below the
      first one's. */
  lemma {:induction false} HeadBelowRest(n: NodeIn, s: seq<NodeIn>, le: (string, string) -> bool)
    requires s != [] && le(s[0].title, n.title) && SortedByLabel(s, le)
    ensures forall k :: 0 <= k < |Insert(n, s[1..], le)| ==> le(s[0].title, Insert(n, s[1..], le)[k].title)
  {
    var t := Insert(n, s[1..], le);
    InsertPermutes(n, s[1..], le);
    forall k | 0 <= k < |t| ensures le(s[0].title, t[k].title) {
      assert t[k] in multiset(s[1..]) + multiset{n};
      if t[k] != n {
        assert t[k] in s[1..];
        var m :| 0 <= m < |s| - 1 && s[1..][m] == t[k];
        assert s[m + 1] == t[k];
      }
    }
  }

  lemma {:induction false} InsertSorted(n: NodeIn, s: seq<NodeIn>, le: (string, string) -> bool)
    requires TotalPreorder(le) && SortedByLabel(s, le)
    ensures SortedByLabel(Insert(n, s, le), le)
  {
    if s != [] && le(s[0].title, n.title) {
      InsertSorted(n, s[1..], le);
      HeadBelowRest(n, s, le);
    } else if s != [] {
      assert le(n.title, s[0].title);
      forall k | 0 <= k < |s| ensures le(n.title, s[k].title) {
      }
    }
  }

  /** The sorted list is ordered by label and holds exactly the same nodes. */
  lemma {:induction false} SortByLabelCorrect(s: seq<NodeIn>, le: (string, string) -> bool)
    requires TotalPreorder(le)
    ensures SortedByLabel(SortByLabel(s, le), le)
    ensures multiset(SortByLabel(s, le)) == multiset(s)
  {
    if s != [] {
      var pre := s[..|s| - 1];
      SortByLabelCorrect(pre, le);
      InsertSorted(s[|s| - 1], SortByLabel(pre, le), le);
      InsertPermutes(s[|s| - 1], SortByLabel(pre, le), le);
      assert s == pre + [s[|s| - 1]];
    }
  }

  /** The nodes for a list of ids. */
  function NodesOf(ids: seq<string>, byId: map<string, NodeIn>): (r: seq<NodeIn>)
    requires forall k :: k in ids ==> k in byId
    ensures |r| == |ids| && forall i :: 0 <= i < |ids| ==> r[i] == byId[ids[i]]
  {
    if ids == [] then [] else [byId[ids[0]]] + NodesOf(ids[1..], byId)
  }

  /** The children a rendered node lists: `node.children.sort(by label)`. */
  function RenderedChildren(byId: map<string, NodeIn>, children: map<string, seq<string>>, id: string,
                            le: (string, string) -> bool): seq<NodeIn>
    requires forall p :: p in children ==> forall c :: c in children[p] ==> c in byId
  {
    if id in children then SortByLabel(NodesOf(children[id], byId), le) else []
  }

  /** A rendered node lists the nodes of its children ordered by label, and
      exactly those nodes; a node without children lists none. */
  lemma {:induction false} RenderedChildrenSorted(byId: map<string, NodeIn>, children: map<string, seq<string>>,
                                                  id: string, le: (string, string) -> bool)
    requires TotalPreorder(le)
    requires forall p :: p in children ==> forall c :: c in children[p] ==> c in byId
    ensures SortedByLabel(RenderedChildren(byId, children, id, le), le)
    ensures id in children ==> multiset(RenderedChildren(byId, children, id, le)) == multiset(NodesOf(children[id], byId))
    ensures id !in children ==> RenderedChildren(byId, children, id, le) == []
  {
    if id in children {
      SortByLabelCorrect(NodesOf(children[id], byId), le);
    }
  }

  // ---------------------------------------------------------------------
  // Expand and collapse
  // ---------------------------------------------------------------------

  /** `toggleNode`: drop the id when present, add it when absent. */
  function Toggled(s: set<string>, id: string): (r: set<string>)
    ensures id in r <==> id !in s
    ensures forall k :: k != id ==> (k in r <==> k in s)
  {
    if id in s then s - {id} else s + {id}
  }

  /** Toggling twice restores the set. */
  lemma {:induction false} ToggleTwice(s: set<string>, id: string)
    ensures Toggled(Toggled(s, id), id) == s
  {
  }

  // ---------------------------------------------------------------------
  // Where the tree and the graph disagree
  // ---------------------------------------------------------------------

  /** A workstation linked to an area, with the link pointing from the
      workstation to the area: the graph's rank rule makes the area the
      parent and the only root, while the tree keeps the workstation as its
      root because the area is the link's target. */
  lemma {:induction false} RootsDisagree()
    ensures var nodes := [NodeIn("w", "W", "workstation"), NodeIn("a", "A", "area")];
      var links := [Link(Plain("w"), Plain("a"))];
      && GraphView.Roots(MapOrder(nodes), GraphView.ParentsFrom(MapValues(nodes), links)) == ["a"]
      && TreeRoots(MapOrder(nodes), links) == ["w"]
  {
    var w, a := NodeIn("w", "W", "workstation"), NodeIn("a", "A", "area");
    var nodes := [w, a];
    var links := [Link(Plain("w"), Plain("a"))];
    assert nodes[..1] == [w];
    assert [w][..0] == [];
    assert MapOrder([w]) == ["w"];
    assert MapOrder(nodes) == ["w", "a"];
    var byId := MapValues(nodes);
    assert MapValues([w]) == map["w" := w];
    assert byId == map["w" := w, "a" := a];
    assert Resolve(byId, links[0]) == Some(("a", "w"));
    assert links[..0] == [];
    var parents := GraphView.ParentsFrom(byId, links);
    assert GraphView.ParentsFrom(byId, links[..0]) == map[];
    assert parents == map["w" := "a"];
    assert ["w", "a"][1..] == ["a"];
    assert GraphView.Roots(["w", "a"], parents) == [] + GraphView.Roots(["a"], parents);
    assert EndpointId(links[0].target) == "a";
    assert Targeted(links, "a");
    assert !Targeted(links, "w");
    assert TreeRoots(["w", "a"], links) == ["w"] + TreeRoots(["a"], links);
  }

  // ---------------------------------------------------------------------
  // The component state
  // ---------------------------------------------------------------------

  datatype TreeData = TreeData(nodes: seq<NodeIn>, links: seq<Link>)

  /** The sorted roots the effect computes. */
  function SortedRoots(d: TreeData, le: (string, string) -> bool): seq<NodeIn>
  {
    MapShape(d.nodes);
    SortByLabel(NodesOf(TreeRoots(MapOrder(d.nodes), d.links), MapValues(d.nodes)), le)
  }

  /** The ids of a list of nodes, as the expansion loop adds them. */
  function Ids(s: seq<NodeIn>): set<string>
  {
    if s == [] then {} else Ids(s[..|s| - 1]) + {s[|s| - 1].id}
  }

  lemma {:induction false} IdsMembers(s: seq<NodeIn>)
    ensures forall k :: k in Ids(s) <==> exists i :: 0 <= i < |s| && s[i].id == k
  {
    if s != [] {
      var pre := s[..|s| - 1];
      IdsMembers(pre);
      forall k | k in Ids(s) ensures exists i :: 0 <= i < |s| && s[i].id == k {
        if k != s[|s| - 1].id {
          assert k in Ids(pre);
          var i :| 0 <= i < |pre| && pre[i].id == k;
          assert s[i].id == k;
        }
      }
      forall k | exists i :: 0 <= i < |s| && s[i].id == k ensures k in Ids(s) {
        var i :| 0 <= i < |s| && s[i].id == k;
        if i < |pre| { assert pre[i].id == k; }
      }
    }
  }

  /** The children lists and the sorted roots, computed as the effect does. */
  method BuildTree(d: TreeData, le: (string, string) -> bool) returns (ch: map<string, seq<string>>, roots: seq<NodeIn>)
    ensures roots == SortedRoots(d, le)
    ensures ch.Keys == MapValues(d.nodes).Keys
    ensures forall p :: p in ch ==> ch[p] == ChildrenFrom(MapValues(d.nodes), d.links, p)
  {
    var order, byId := BuildNodeMap(d.nodes);
    ch := TreeLinkPass(byId, d.links);
    roots := SortByLabel(NodesOf(TreeRoots(order, d.links), byId), le);
  }

  class TreeViewState {
    /** The sorted root nodes (`treeData`). */
    var treeData: seq<NodeIn>
    /** The `children` arrays of the Map's nodes, by id. */
    var children: map<string, seq<string>>
    var expandedNodes: set<string>
    var firstNodeFound: bool
    /** The node handed to `onFirstNodeFound`. */
    var announced: Option<NodeIn>

    constructor ()
      ensures treeData == [] && children == map[] && expandedNodes == {} && !firstNodeFound && announced.None?
    {
      treeData, children, expandedNodes, firstNodeFound, announced := [], map[], {}, false, None;
    }

    /** The tree-building effect: the children lists, the sorted roots,
        every root expanded, and the first sorted root announced once. */
    method ProcessData(data: Option<TreeData>, hasFirstNodeCallback: bool, le: (string, string) -> bool)
      modifies this
      ensures data.None? ==> unchanged(this)
      ensures data.Some? ==>
        && treeData == SortedRoots(data.value, le)
        && children.Keys == MapValues(data.value.nodes).Keys
        && (forall p :: p in children ==> children[p] == ChildrenFrom(MapValues(data.value.nodes), data.value.links, p))
        && expandedNodes == old(expandedNodes) + Ids(treeData)
        && (if treeData != [] && hasFirstNodeCallback && !old(firstNodeFound)
            then firstNodeFound && announced == Some(treeData[0])
            else firstNodeFound == old(firstNodeFound) && announced == old(announced))
    {
      if data.None? {
        return;
      }
      var ch, roots := BuildTree(data.value, le);
      children := ch;
      treeData := roots;
      for i := 0 to |roots|
        invariant expandedNodes == old(expandedNodes) + Ids(roots[..i])
        invariant treeData == roots && children == ch
        invariant firstNodeFound == old(firstNodeFound) && announced == old(announced)
      {
        assert roots[..i + 1][..i] == roots[..i];
        expandedNodes := expandedNodes + {roots[i].id};
      }
      assert roots[..|roots|] == roots;
      if |roots| > 0 && hasFirstNodeCallback && !firstNodeFound {
        announced := Some(roots[0]);
        firstNodeFound := true;
      }
    }

    method ToggleNode(id: string)
      modifies this
      ensures expandedNodes == Toggled(old(expandedNodes), id)
      ensures treeData == old(treeData) && children == old(children)
      ensures firstNodeFound == old(firstNodeFound) && announced == old(announced)
    {
      var newSet := expandedNodes;
      if id in newSet {
        newSet := newSet - {id};
      } else {
        newSet := newSet + {id};
      }
      expandedNodes := newSet;
    }
  }
}
