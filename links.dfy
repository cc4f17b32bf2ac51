/** What graph-view.tsx and tree-view.tsx share: the id -> node lookup built
    from the node list, the type-rank table, and the rule that turns an
    arbitrarily directed link into a (parent, child) pair. The two views
    repeat this code verbatim; each then uses the pairs differently. */
module Links {
  import opened Js

  /** A node as the views receive it: `id`, `label` (here `title`) and `type`
      (here `kind`), the fields the hierarchy code reads. */
  datatype NodeIn = NodeIn(id: string, title: string, kind: string)

  /** A link endpoint: a plain id string, or an object that exposes `.id`. */
  datatype Endpoint = Plain(id: string) | Nested(ref: string)

  datatype Link = Link(source: Endpoint, target: Endpoint)

  /** `typeof e === "string" ? e : e.id` */
  function EndpointId(e: Endpoint): string
  {
    match e
    case Plain(s) => s
    case Nested(s) => s
  }

  predicate Distinct(s: seq<string>)
  {
    forall i, j :: 0 <= i < j < |s| ==> s[i] != s[j]
  }

  // ---------------------------------------------------------------------
  // The node map: `data.nodes.forEach(n => nodeMap.set(n.id, { ...n }))`
  // ---------------------------------------------------------------------

  /** Iteration order of the Map: each id once, where it was first set. */
  function MapOrder(nodes: seq<NodeIn>): seq<string>
  {
    if nodes == [] then []
    else
      var before := MapOrder(nodes[..|nodes| - 1]);
      var id := nodes[|nodes| - 1].id;
      if id in before then before else before + [id]
  }

  /** Contents of the Map: a later node with the same id replaces the earlier. */
  function MapValues(nodes: seq<NodeIn>): map<string, NodeIn>
  {
    if nodes == [] then map[]
    else MapValues(nodes[..|nodes| - 1])[nodes[|nodes| - 1].id := nodes[|nodes| - 1]]
  }

  /** The map built in a loop, as both views build it. */
  method BuildNodeMap(nodes: seq<NodeIn>) returns (order: seq<string>, byId: map<string, NodeIn>)
    ensures order == MapOrder(nodes) && byId == MapValues(nodes)
    ensures Distinct(order)
    ensures forall k :: k in byId <==> k in order
  {
    order, byId := [], map[];
    for i := 0 to |nodes|
      invariant order == MapOrder(nodes[..i]) && byId == MapValues(nodes[..i])
    {
      assert nodes[..i + 1][..i] == nodes[..i];
      if nodes[i].id !in order {
        order := order + [nodes[i].id];
      }
      byId := byId[nodes[i].id := nodes[i]];
    }
    assert nodes[..|nodes|] == nodes;
    MapShape(nodes);
  }

  /** The Map's keys are exactly the node ids, each once in the iteration
      order, and each key holds a node carrying that id. */
  lemma {:induction false} MapShape(nodes: seq<NodeIn>)
    ensures Distinct(MapOrder(nodes))
    ensures forall k :: k in MapValues(nodes) <==> k in MapOrder(nodes)
    ensures forall k :: k in MapValues(nodes) <==> exists i :: 0 <= i < |nodes| && nodes[i].id == k
    ensures forall k :: k in MapValues(nodes) ==> MapValues(nodes)[k].id == k
  {
    if nodes != [] {
      var pre := nodes[..|nodes| - 1];
      MapShape(pre);
      forall k | k in MapValues(nodes)
        ensures exists i :: 0 <= i < |nodes| && nodes[i].id == k
      {
        if k != nodes[|nodes| - 1].id {
          assert k in MapValues(pre);
          var i :| 0 <= i < |pre| && pre[i].id == k;
          assert nodes[i].id == k;
        }
      }
      forall k | exists i :: 0 <= i < |nodes| && nodes[i].id == k
        ensures k in MapValues(nodes)
      {
        var i :| 0 <= i < |nodes| && nodes[i].id == k;
        if i < |pre| { assert pre[i].id == k; }
      }
    }
  }

  /** A node whose id does not occur again later in the list is the one the
      Map keeps for that id. */
  lemma {:induction false} LastNodeWins(nodes: seq<NodeIn>, i: nat)
    requires i < |nodes|
    requires forall j :: i < j < |nodes| ==> nodes[j].id != nodes[i].id
    ensures nodes[i].id in MapValues(nodes) && MapValues(nodes)[nodes[i].id] == nodes[i]
  {
    if i < |nodes| - 1 {
      var pre := nodes[..|nodes| - 1];
      LastNodeWins(pre, i);
    }
  }

  /** With unique ids, the Map keeps every node, in list order. */
  lemma {:induction false} UniqueIdsKeepOrder(nodes: seq<NodeIn>)
    requires forall i, j :: 0 <= i < j < |nodes| ==> nodes[i].id != nodes[j].id
    ensures MapOrder(nodes) == seq(|nodes|, i requires 0 <= i < |nodes| => nodes[i].id)
    ensures forall i :: 0 <= i < |nodes| ==> nodes[i].id in MapValues(nodes) && MapValues(nodes)[nodes[i].id] == nodes[i]
  {
    if nodes != [] {
      var n := |nodes|;
      var pre := nodes[..n - 1];
      UniqueIdsKeepOrder(pre);
      var last := nodes[n - 1].id;
      assert last !in MapOrder(pre) by {
        forall i | 0 <= i < |pre| ensures MapOrder(pre)[i] != last {
          assert MapOrder(pre)[i] == nodes[i].id;
        }
      }
      assert MapOrder(nodes) == MapOrder(pre) + [last];
      forall i | 0 <= i < n
        ensures nodes[i].id in MapValues(nodes) && MapValues(nodes)[nodes[i].id] == nodes[i]
      {
        LastNodeWins(nodes, i);
      }
    }
  }

  // ---------------------------------------------------------------------
  // The rank rule
  // ---------------------------------------------------------------------

  /** `nodeTypeRank[type]`; any other type has no rank (undefined). */
  function Rank(t: string): (r: Option<nat>)
    ensures r.Some? <==> t in {"facility", "area", "mini_factory", "line", "workstation"}
    ensures r.Some? ==> 1 <= r.value <= 5
  {
    if t == "facility" then Some(1)
    else if t == "area" then Some(2)
    else if t == "mini_factory" then Some(3)
    else if t == "line" then Some(4)
    else if t == "workstation" then Some(5)
    else None
  }

  /** `rank[s] < rank[t]` and `rank[s] > rank[t]` in JavaScript: a
      comparison with undefined is false. */
  predicate RankBelow(s: string, t: string)
  {
    Rank(s).Some? && Rank(t).Some? && Rank(s).value < Rank(t).value
  }

  /** The (parent, child) pair a link yields, or None when an endpoint is
      not in the node map (the link is skipped). The lower-ranked endpoint
      is the parent; on equal ranks, or when a type has no rank, the link's
      source is. */
  function Resolve(byId: map<string, NodeIn>, l: Link): (r: Option<(string, string)>)
    ensures var s, t := EndpointId(l.source), EndpointId(l.target);
      && (r.Some? <==> s in byId && t in byId)
      && (r.Some? && RankBelow(byId[s].kind, byId[t].kind) ==> r.value == (s, t))
      && (r.Some? && RankBelow(byId[t].kind, byId[s].kind) ==> r.value == (t, s))
      && (r.Some? && !RankBelow(byId[s].kind, byId[t].kind) && !RankBelow(byId[t].kind, byId[s].kind) ==> r.value == (s, t))
      && (r.Some? ==> r.value.0 in byId && r.value.1 in byId && {r.value.0, r.value.1} == {s, t})
  {
    var s := EndpointId(l.source);
    var t := EndpointId(l.target);
    if s in byId && t in byId then
      if RankBelow(byId[s].kind, byId[t].kind) then Some((s, t))
      else if RankBelow(byId[t].kind, byId[s].kind) then Some((t, s))
      else Some((s, t))
    else None
  }

  /** The children a node collects in its `children` array: one entry per
      resolvable link that makes it the parent, in link order (duplicates
      included). */
  function ChildrenFrom(byId: map<string, NodeIn>, links: seq<Link>, p: string): seq<string>
  {
    if links == [] then []
    else
      var last := Resolve(byId, links[|links| - 1]);
      ChildrenFrom(byId, links[..|links| - 1], p)
        + (if last.Some? && last.value.0 == p then [last.value.1] else [])
  }

  /** Every child recorded is a key of the node map. */
  lemma {:induction false} ChildrenAreNodes(byId: map<string, NodeIn>, links: seq<Link>, p: string)
    ensures forall c :: c in ChildrenFrom(byId, links, p) ==> c in byId
  {
    if links != [] {
      ChildrenAreNodes(byId, links[..|links| - 1], p);
    }
  }

  /** Processing links in two batches appends the second batch's children. */
  lemma {:induction false} ChildrenFromAppend(byId: map<string, NodeIn>, a: seq<Link>, b: seq<Link>, p: string)
    ensures ChildrenFrom(byId, a + b, p) == ChildrenFrom(byId, a, p) + ChildrenFrom(byId, b, p)
    decreases |b|
  {
    if b == [] {
      assert a + b == a;
    } else {
      var b' := b[..|b| - 1];
      assert (a + b)[..|a + b| - 1] == a + b';
      ChildrenFromAppend(byId, a, b', p);
    }
  }

  /** The contribution of a single link. */
  lemma {:induction false} SingleLinkChildren(byId: map<string, NodeIn>, l: Link, p: string)
    ensures ChildrenFrom(byId, [l], p)
      == (if Resolve(byId, l).Some? && Resolve(byId, l).value.0 == p then [Resolve(byId, l).value.1] else [])
  {
    assert [l][..0] == [];
  }

  /** Cutting the link list around position j. */
  lemma {:induction false} ChildrenFromAround(byId: map<string, NodeIn>, links: seq<Link>, j: nat, p: string)
    requires j < |links|
    ensures ChildrenFrom(byId, links, p)
      == ChildrenFrom(byId, links[..j], p) + ChildrenFrom(byId, [links[j]], p) + ChildrenFrom(byId, links[j + 1..], p)
  {
    assert links == (links[..j] + [links[j]]) + links[j + 1..];
    ChildrenFromAppend(byId, links[..j] + [links[j]], links[j + 1..], p);
    ChildrenFromAppend(byId, links[..j], [links[j]], p);
  }

  /** A child appears in a parent's list for every link that makes it so: in
      particular, a child stays in an earlier parent's list when a later link
      gives it another parent. */
  lemma {:induction false} ChildOccurs(byId: map<string, NodeIn>, links: seq<Link>, j: nat)
    requires j < |links| && Resolve(byId, links[j]).Some?
    ensures Resolve(byId, links[j]).value.1 in ChildrenFrom(byId, links, Resolve(byId, links[j]).value.0)
  {
    var pc := Resolve(byId, links[j]).value;
    ChildrenFromAround(byId, links, j, pc.0);
    SingleLinkChildren(byId, links[j], pc.0);
  }

  /** A link with a missing endpoint contributes nothing: dropping it leaves
      every children list as it was. */
  lemma {:induction false} UnresolvedLinkIgnored(byId: map<string, NodeIn>, links: seq<Link>, j: nat, p: string)
    requires j < |links| && Resolve(byId, links[j]).None?
    ensures ChildrenFrom(byId, links[..j] + links[j + 1..], p) == ChildrenFrom(byId, links, p)
  {
    ChildrenFromAround(byId, links, j, p);
    SingleLinkChildren(byId, links[j], p);
    ChildrenFromAppend(byId, links[..j], links[j + 1..], p);
  }
}
