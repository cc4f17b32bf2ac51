/** The hierarchy endpoint's transform (app/api/factory-hierarchy/route.ts):
    one node per asset, keyed by `asset_id`, and a parent-child link for each
    asset whose `parent_id` names a known node. */
module HierarchyRoute {
  import opened Js
  import opened FactoryService

  /** A node of the endpoint's answer. `id` and `code` are copied as they
      are: a null one stays null in the JSON answer, a missing one is left
      out of it. Random positions are not modelled. */
  datatype HNode = HNode(
    id: Field,
    title: string,
    kind: string,
    code: Field,
    status: string,
    assetData: Asset)

  /** `target` is the child's `asset_id`, which may be null or missing. */
  datatype HLink = HLink(source: string, target: Field, kind: string)

  /** The node made from an asset. */
  function HNodeFor(a: Asset): (n: HNode)
    ensures n.id == a.asset_id && n.code == a.code && n.assetData == a
    ensures n.title == (if a.name.Truthy() then a.name.text
                        else if a.description.Truthy() then a.description.text
                        else "Asset " + a.asset_id.Show())
    ensures n.kind == (if a.kind.Truthy() then a.kind.text else "workstation")
    ensures n.status == (if a.status.Truthy() then a.status.text else "active")
  {
    HNode(a.asset_id, a.name.Or(a.description).OrElse("Asset " + a.asset_id.Show()),
          a.kind.OrElse("workstation"), a.code, a.status.OrElse("active"), a)
  }

  /** An asset whose `asset_id` is null and which has neither name nor
      description is titled "Asset null", and its node keeps `id: null`. */
  lemma {:induction false} NullIdKept(a: Asset)
    requires a.asset_id.Null? && !a.name.Truthy() && !a.description.Truthy()
    ensures HNodeFor(a).title == "Asset null" && HNodeFor(a).id == Null
  {
  }

  /** The ids `nodeMap.has` can find: the string `asset_id`s. (A null or
      missing `asset_id` becomes the key `null` or `undefined`, which a
      truthy `parent_id` never equals.) */
  function KnownIds(assets: seq<Asset>): (r: set<string>)
    ensures forall k :: k in r <==> exists i :: 0 <= i < |assets| && assets[i].asset_id == Str(k)
  {
    if assets == [] then {}
    else
      var last := assets[|assets| - 1];
      var before := KnownIds(assets[..|assets| - 1]);
      assert forall i :: 0 <= i < |assets| - 1 ==> assets[..|assets| - 1][i] == assets[i];
      if last.asset_id.Str? then before + {last.asset_id.text} else before
  }

  /** The link an asset contributes, given the known ids. */
  function LinkOf(a: Asset, known: set<string>): seq<HLink>
  {
    if a.parent_id.Truthy() && a.parent_id.text in known
    then [HLink(a.parent_id.text, a.asset_id, "parent-child")] else []
  }

  /** The second pass over the assets. */
  function HLinks(assets: seq<Asset>, known: set<string>): (r: seq<HLink>)
    ensures |r| <= |assets|
  {
    if assets == [] then []
    else HLinks(assets[..|assets| - 1], known) + LinkOf(assets[|assets| - 1], known)
  }

  /** Both passes as the source runs them. */
  method TransformAssetsToHierarchy(assets: seq<Asset>) returns (nodes: seq<HNode>, links: seq<HLink>)
    ensures |nodes| == |assets| && forall i :: 0 <= i < |assets| ==> nodes[i] == HNodeFor(assets[i])
    ensures links == HLinks(assets, KnownIds(assets))
  {
    var nodeMap;
    nodes, nodeMap := NodePass(assets);
    links := LinkPass(assets, nodeMap);
  }

  /** The first `forEach`: a node per asset, and the map from `asset_id` to
      node. */
  method NodePass(assets: seq<Asset>) returns (nodes: seq<HNode>, nodeMap: map<string, HNode>)
    ensures NodesMade(assets, nodes, |assets|)
    ensures nodeMap.Keys == KnownIds(assets)
  {
    nodes, nodeMap := [], map[];
    for i := 0 to |assets|
      invariant NodesMade(assets, nodes, i)
      invariant nodeMap.Keys == KnownIds(assets[..i])
    {
      var node := HNodeFor(assets[i]);
      NodesStep(assets, i, nodes, node);
      KnownStep(assets, i, nodeMap, node);
      nodes := nodes + [node];
      if assets[i].asset_id.Str? {
        nodeMap := nodeMap[assets[i].asset_id.text := node];
      }
    }
    assert assets[..|assets|] == assets;
  }

  /** The second `forEach`: a link for each asset whose parent is in the
      map. */
  method LinkPass(assets: seq<Asset>, nodeMap: map<string, HNode>) returns (links: seq<HLink>)
    ensures links == HLinks(assets, nodeMap.Keys)
  {
    links := [];
    for i := 0 to |assets|
      invariant links == HLinks(assets[..i], nodeMap.Keys)
    {
      LinksSnoc(assets, i, nodeMap.Keys);
      var parentId := assets[i].parent_id;
      if parentId.Truthy() && parentId.text in nodeMap {
        links := links + [HLink(parentId.text, assets[i].asset_id, "parent-child")];
      }
    }
    assert assets[..|assets|] == assets;
  }

  /** The first `i` nodes, one per asset in order. */
  predicate NodesMade(assets: seq<Asset>, nodes: seq<HNode>, i: nat)
    requires i <= |assets|
  {
    |nodes| == i && forall j :: 0 <= j < i ==> nodes[j] == HNodeFor(assets[j])
  }

  lemma {:induction false} NodesStep(assets: seq<Asset>, i: nat, nodes: seq<HNode>, node: HNode)
    requires i < |assets| && NodesMade(assets, nodes, i) && node == HNodeFor(assets[i])
    ensures NodesMade(assets, nodes + [node], i + 1)
  {
    forall j | 0 <= j < i + 1
      ensures (nodes + [node])[j] == HNodeFor(assets[j])
    {
      if j < i {
        assert (nodes + [node])[j] == nodes[j];
      }
    }
  }

  /** The first pass, one asset further. */
  lemma {:induction false} KnownSnoc(assets: seq<Asset>, i: nat)
    requires i < |assets|
    ensures KnownIds(assets[..i + 1])
      == KnownIds(assets[..i]) + (if assets[i].asset_id.Str? then {assets[i].asset_id.text} else {})
  {
    assert assets[..i + 1][..i] == assets[..i];
  }

  /** Registering one more node keeps the map's keys the known ids. */
  lemma {:induction false} KnownStep(assets: seq<Asset>, i: nat, nodeMap: map<string, HNode>, node: HNode)
    requires i < |assets| && nodeMap.Keys == KnownIds(assets[..i])
    ensures assets[i].asset_id.Str? ==> nodeMap[assets[i].asset_id.text := node].Keys == KnownIds(assets[..i + 1])
    ensures !assets[i].asset_id.Str? ==> nodeMap.Keys == KnownIds(assets[..i + 1])
  {
    KnownSnoc(assets, i);
  }

  /** The second pass, one asset further. */
  lemma {:induction false} LinksSnoc(assets: seq<Asset>, i: nat, known: set<string>)
    requires i < |assets|
    ensures HLinks(assets[..i + 1], known) == HLinks(assets[..i], known) + LinkOf(assets[i], known)
  {
    assert assets[..i + 1][..i] == assets[..i];
  }

  /** Asset `i` is one whose truthy `parent_id` names a known node, and `l`
      is the link it contributes. */
  predicate LinkFrom(assets: seq<Asset>, known: set<string>, i: int, l: HLink)
  {
    0 <= i < |assets| && assets[i].parent_id.Truthy() && assets[i].parent_id.text in known
      && l == HLink(assets[i].parent_id.text, assets[i].asset_id, "parent-child")
  }

  /** A witness in a prefix is a witness in the whole list. */
  lemma {:induction false} LinkFromPrefix(assets: seq<Asset>, known: set<string>, i: int, l: HLink)
    requires assets != [] && LinkFrom(assets[..|assets| - 1], known, i, l)
    ensures LinkFrom(assets, known, i, l)
  {
    assert assets[i] == assets[..|assets| - 1][i];
  }

  /** A link is in the answer exactly when some asset has a truthy
      `parent_id` naming a known node; it runs from that parent to the
      asset's own id, so both ends are node ids. */
  lemma {:induction false} LinkIff(assets: seq<Asset>, known: set<string>, l: HLink)
    ensures l in HLinks(assets, known) <==> exists i :: LinkFrom(assets, known, i, l)
  {
    if assets != [] {
      var pre := assets[..|assets| - 1];
      var last := |assets| - 1;
      LinkIff(pre, known, l);
      assert HLinks(assets, known) == HLinks(pre, known) + LinkOf(assets[last], known);
      if l in HLinks(pre, known) {
        var i :| LinkFrom(pre, known, i, l);
        LinkFromPrefix(assets, known, i, l);
      } else if l in LinkOf(assets[last], known) {
        assert LinkFrom(assets, known, last, l);
      }
      if exists i :: LinkFrom(assets, known, i, l) {
        var i :| LinkFrom(assets, known, i, l);
        if i < last {
          assert pre[i] == assets[i];
          assert LinkFrom(pre, known, i, l);
        } else {
          assert l in LinkOf(assets[last], known);
        }
      }
    }
  }

  /** Every link's source is the `asset_id` of some node and its target that
      of the asset it came from. */
  lemma {:induction false} LinksJoinNodes(assets: seq<Asset>, l: HLink)
    requires l in HLinks(assets, KnownIds(assets))
    ensures exists i :: 0 <= i < |assets| && assets[i].asset_id == Str(l.source)
    ensures exists i :: 0 <= i < |assets| && assets[i].asset_id == l.target && assets[i].parent_id == Str(l.source)
  {
    LinkIff(assets, KnownIds(assets), l);
  }

  /** An asset whose `parent_id` names no asset contributes no link, and
      no link of the answer has that parent as its source. */
  lemma {:induction false} MissingParentDropped(assets: seq<Asset>, a: Asset)
    requires forall i :: 0 <= i < |assets| ==> assets[i].asset_id != a.parent_id
    ensures LinkOf(a, KnownIds(assets)) == []
    ensures a.parent_id.Str? ==> forall l :: l in HLinks(assets, KnownIds(assets)) ==> l.source != a.parent_id.text
  {
    if a.parent_id.Str? {
      forall l | l in HLinks(assets, KnownIds(assets)) ensures l.source != a.parent_id.text {
        LinksJoinNodes(assets, l);
      }
    }
  }
}
