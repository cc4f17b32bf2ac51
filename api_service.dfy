/** The client-side API service (services/api-service.ts): URL resolution,
    the node-id guard, node lookups with their mock fallbacks, and the
    hierarchy fetch that accepts several response shapes. A failed call is
    an absent `upstream` answer. */
module ApiService {
  import opened Js

  // ---------------------------------------------------------------------
  // URLs
  // ---------------------------------------------------------------------

  /** `API_URL`: the public variable, else the private one, else "/api". */
  function ApiUrl(publicUrl: Option<string>, privateUrl: Option<string>): (r: string)
    ensures Truthy(publicUrl) ==> r == publicUrl.value
    ensures !Truthy(publicUrl) && Truthy(privateUrl) ==> r == privateUrl.value
    ensures !Truthy(publicUrl) && !Truthy(privateUrl) ==> r == "/api"
  {
    OrElse(Or(publicUrl, privateUrl), "/api")
  }

  /** The address `apiFetch` requests: absolute URLs and paths under "/api"
      are used as they are, anything else is put under `API_URL`. */
  function FullUrl(apiUrl: string, url: string): (r: string)
    ensures StartsWith(url, "http") || StartsWith(url, "/api") ==> r == url
    ensures !StartsWith(url, "http") && !StartsWith(url, "/api") ==> r == apiUrl + url
  {
    if StartsWith(url, "http") then url else (if StartsWith(url, "/api") then "" else apiUrl) + url
  }

  /** Every request address ends with the path that was asked for. */
  lemma {:induction false} FullUrlEndsWithUrl(apiUrl: string, url: string)
    ensures |url| <= |FullUrl(apiUrl, url)|
    ensures FullUrl(apiUrl, url)[|FullUrl(apiUrl, url)| - |url|..] == url
  {
  }

  // ---------------------------------------------------------------------
  // Node details
  // ---------------------------------------------------------------------

  /** The ids both `fetchNodeDetails` and `updateNodeDetails` refuse. */
  predicate InvalidId(nodeId: Field)
  {
    !nodeId.Truthy() || nodeId.text == "0" || nodeId.text == "undefined" || nodeId.text == "null"
  }

  /** What `fetchNodeDetails` answers for a refused id, without fetching:
      the id is rendered as text ("Node null" for a null id), and
      `nodeId?.toUpperCase() || ""` gives the code. */
  function Placeholder(nodeId: Field): (r: Json)
    requires InvalidId(nodeId)
    ensures Get(r, "description") == JStr("Node " + nodeId.Show())
    ensures nodeId.Null? ==> Get(r, "description") == JStr("Node null")
    ensures nodeId.Undefined? ==> Get(r, "description") == JStr("Node undefined")
    ensures Get(r, "code") == JStr(if nodeId.Str? then ToUpper(nodeId.text) else "")
    ensures Get(r, "status") == JStr("unknown")
  {
    var code := if nodeId.Str? then ToUpper(nodeId.text) else "";
    assert "Node " + "null" == "Node null" && "Node " + "undefined" == "Node undefined";
    JObj(map["description" := JStr("Node " + nodeId.Show()), "code" := JStr(code), "status" := JStr("unknown")])
  }

  /** A node of the built-in mock hierarchy. */
  datatype MockNode = MockNode(id: string, title: string, kind: string, x: int, y: int, parent: Option<string>)

  datatype MockLink = MockLink(source: string, target: string)

  function MockNodes(): seq<MockNode>
  {
    [ MockNode("facility-1", "Main Facility", "facility", 100, 100, None),
      MockNode("area-1", "Production Area", "area", 100, 200, Some("facility-1")),
      MockNode("area-2", "Assembly Area", "area", 300, 200, Some("facility-1")),
      MockNode("mf-1", "Mini Factory 1", "mini_factory", 100, 300, Some("area-1")),
      MockNode("mf-2", "Mini Factory 2", "mini_factory", 300, 300, Some("area-2")),
      MockNode("line-1", "Assembly Line A", "line", 100, 400, Some("mf-1")),
      MockNode("line-2", "Assembly Line B", "line", 300, 400, Some("mf-2")),
      MockNode("ws-1", "Workstation 1", "workstation", 100, 500, Some("line-1")),
      MockNode("ws-2", "Workstation 2", "workstation", 200, 500, Some("line-1")),
      MockNode("ws-3", "Workstation 3", "workstation", 300, 500, Some("line-2")),
      MockNode("ws-4", "Workstation 4", "workstation", 400, 500, Some("line-2")) ]
  }

  function MockLinks(): seq<MockLink>
  {
    [ MockLink("facility-1", "area-1"),
      MockLink("facility-1", "area-2"),
      MockLink("area-1", "mf-1"),
      MockLink("area-2", "mf-2"),
      MockLink("mf-1", "line-1"),
      MockLink("mf-2", "line-2"),
      MockLink("line-1", "ws-1"),
      MockLink("line-1", "ws-2"),
      MockLink("line-2", "ws-3"),
      MockLink("line-2", "ws-4") ]
  }

  /** Every mock link joins two mock nodes, and its target records its
      source as `parent_id`: link i targets node i + 1, and its source is
      the node at `src[i]`. */
  lemma {:induction false} MockLinksMatchParents()
    ensures var ns, ls, src := MockNodes(), MockLinks(), [0, 0, 1, 2, 3, 4, 5, 5, 6, 6];
      && |ns| == 11 && |ls| == 10
      && forall i :: 0 <= i < 10 ==>
           && ls[i].target == ns[i + 1].id && ns[i + 1].parent == Some(ls[i].source)
           && 0 <= src[i] < 11 && ns[src[i]].id == ls[i].source
  {
  }

  /** The index of the first mock node with the given id (`find`). */
  function FindMock(ns: seq<MockNode>, id: string): (r: Option<nat>)
    ensures r.Some? ==> r.value < |ns| && ns[r.value].id == id && forall j :: 0 <= j < r.value ==> ns[j].id != id
    ensures r.None? ==> forall j :: 0 <= j < |ns| ==> ns[j].id != id
  {
    if ns == [] then None
    else if ns[0].id == id then Some(0)
    else match FindMock(ns[1..], id)
      case None => None
      case Some(k) => Some(k + 1)
  }

  /** The record used when the node endpoint cannot be reached. */
  function MockDetails(nodeId: string): (r: Json)
    ensures var k := FindMock(MockNodes(), nodeId);
      && Get(r, "code") == JStr(ToUpper(nodeId))
      && Get(r, "status") == JStr("active")
      && Get(r, "id") == JStr(nodeId)
      && (k.Some? ==> Get(r, "label") == JStr(MockNodes()[k.value].title)
                      && Get(r, "type") == JStr(MockNodes()[k.value].kind)
                      && Get(r, "description") == JStr("Mock data for " + MockNodes()[k.value].title))
      && (k.None? ==> Get(r, "label") == JStr("Node " + nodeId)
                      && Get(r, "type") == JUndefined
                      && Get(r, "description") == JStr("Mock data for node " + nodeId))
  {
    match FindMock(MockNodes(), nodeId)
    case Some(k) =>
      var m := MockNodes()[k];
      JObj(map["id" := JStr(m.id), "label" := JStr(m.title), "type" := JStr(m.kind), "code" := JStr(ToUpper(m.id)),
               "status" := JStr("active"), "description" := JStr("Mock data for " + m.title)])
    case None =>
      JObj(map["id" := JStr(nodeId), "label" := JStr("Node " + nodeId), "code" := JStr(ToUpper(nodeId)),
               "status" := JStr("active"), "description" := JStr("Mock data for node " + nodeId)])
  }

  /** `fetchNodeDetails`. The upstream answer is used as it is; a missing
      answer, or one that is null (reading `.error` of it throws), falls back
      to the mock records. */
  function FetchNodeDetails(nodeId: Field, upstream: Option<Json>): (r: Json)
    ensures InvalidId(nodeId) ==> r == Placeholder(nodeId)
    ensures !InvalidId(nodeId) && upstream.Some? && !Nullish(upstream.value) ==> r == upstream.value
    ensures !InvalidId(nodeId) && (upstream.None? || Nullish(upstream.value)) ==> r == MockDetails(nodeId.text)
  {
    if InvalidId(nodeId) then Placeholder(nodeId)
    else if upstream.Some? && !Nullish(upstream.value) then upstream.value
    else MockDetails(nodeId.text)
  }

  /** `updateNodeDetails`: a refused id throws "Invalid node ID"; when the
      update cannot be sent, the data comes back marked as updated. */
  function UpdateNodeDetails(nodeId: Field, data: Json, upstream: Option<Json>, now: string): (r: Result<Json>)
    ensures r.Failure? <==> InvalidId(nodeId)
    ensures r.Failure? ==> r.error == "Invalid node ID"
    ensures r.Success? && (upstream.None? || Nullish(upstream.value)) ==>
      && r.value.JObj? && r.value.fields.Keys == Spread(data).Keys + {"id", "updated", "updatedAt"}
      && Get(r.value, "id") == JStr(nodeId.text) && Get(r.value, "updated") == JBool(true)
      && Get(r.value, "updatedAt") == JStr(now)
      && forall k :: k in Spread(data) && k !in {"id", "updated", "updatedAt"} ==> Get(r.value, k) == Spread(data)[k]
    ensures r.Success? && upstream.Some? && !Nullish(upstream.value) ==> r.value == upstream.value
  {
    if InvalidId(nodeId) then Failure("Invalid node ID")
    else if upstream.Some? && !Nullish(upstream.value) then Success(upstream.value)
    else Success(JObj(Spread(data)["id" := JStr(nodeId.text)]["updated" := JBool(true)]["updatedAt" := JStr(now)]))
  }

  datatype Result<T> = Success(value: T) | Failure(error: string)

  /** The refused ids are exactly the falsy one and three spellings. */
  lemma {:induction false} InvalidIds(nodeId: Field)
    ensures InvalidId(nodeId) <==> !nodeId.Str? || nodeId.text in {"", "0", "undefined", "null"}
  {
  }

  // ---------------------------------------------------------------------
  // The hierarchy fetch
  // ---------------------------------------------------------------------

  /** The links built from an array of nodes: one per node with a truthy
      `parent_id`, from the parent to the node's `id`. Reading a property
      of a null node throws: None. */
  function ArrayLinks(nodes: seq<Json>): (r: Option<seq<Json>>)
    ensures r.None? <==> exists i :: 0 <= i < |nodes| && Nullish(nodes[i])
  {
    if nodes == [] then Some([])
    else
      var last := nodes[|nodes| - 1];
      var pre := nodes[..|nodes| - 1];
      assert forall i :: 0 <= i < |pre| ==> pre[i] == nodes[i];
      match ArrayLinks(pre)
      case None => None
      case Some(ls) =>
        if Nullish(last) then None
        else Some(ls + (if JTruthy(Get(last, "parent_id")) then [ParentLink(last)] else []))
  }

  function ParentLink(node: Json): Json
  {
    JObj(map["source" := Get(node, "parent_id"), "target" := Get(node, "id"), "type" := JStr("parent-child")])
  }

  /** The forEach that builds the links. */
  method BuildArrayLinks(nodes: seq<Json>) returns (r: Option<seq<Json>>)
    ensures r == ArrayLinks(nodes)
  {
    var links: seq<Json> := [];
    for i := 0 to |nodes|
      invariant ArrayLinks(nodes[..i]) == Some(links)
    {
      ArrayLinksStep(nodes[..i + 1]);
      assert nodes[..i + 1][..i] == nodes[..i];
      assert nodes[..i + 1][i] == nodes[i];
      if Nullish(nodes[i]) {
        ArrayLinksFail(nodes, i);
        return None;
      }
      if JTruthy(Get(nodes[i], "parent_id")) {
        links := links + [ParentLink(nodes[i])];
      } else {
        assert links + [] == links;
      }
    }
    assert nodes[..|nodes|] == nodes;
    return Some(links);
  }

  lemma {:induction false} ArrayLinksStep(nodes: seq<Json>)
    requires nodes != []
    ensures var last := nodes[|nodes| - 1];
      ArrayLinks(nodes) == match ArrayLinks(nodes[..|nodes| - 1])
        case None => None
        case Some(ls) =>
          if Nullish(last) then None
          else Some(ls + (if JTruthy(Get(last, "parent_id")) then [ParentLink(last)] else []))
  {
  }

  lemma {:induction false} ArrayLinksFail(nodes: seq<Json>, i: nat)
    requires i < |nodes| && Nullish(nodes[i])
    ensures ArrayLinks(nodes).None?
  {
  }

  /** The number of nodes with a truthy `parent_id`. */
  function ParentedCount(nodes: seq<Json>): nat
  {
    if nodes == [] then 0
    else ParentedCount(nodes[..|nodes| - 1]) + (if JTruthy(Get(nodes[|nodes| - 1], "parent_id")) then 1 else 0)
  }

  /** There is exactly one link per node with a truthy `parent_id`, in node
      order: the node at index i, when it has a parent, gives the link at the
      position counting the parented nodes before it, and every link is
      such a node's link. */
  lemma {:induction false} ArrayLinksShape(nodes: seq<Json>)
    requires ArrayLinks(nodes).Some?
    ensures |ArrayLinks(nodes).value| == ParentedCount(nodes)
    ensures forall i :: 0 <= i < |nodes| && JTruthy(Get(nodes[i], "parent_id")) ==>
      ParentedCount(nodes[..i]) < |ArrayLinks(nodes).value|
      && ArrayLinks(nodes).value[ParentedCount(nodes[..i])] == ParentLink(nodes[i])
    ensures forall l :: l in ArrayLinks(nodes).value ==>
      exists i :: 0 <= i < |nodes| && JTruthy(Get(nodes[i], "parent_id")) && l == ParentLink(nodes[i])
  {
    if nodes != [] {
      var pre := nodes[..|nodes| - 1];
      var links := ArrayLinks(nodes).value;
      ArrayLinksShape(pre);
      forall i | 0 <= i < |nodes| && JTruthy(Get(nodes[i], "parent_id"))
        ensures ParentedCount(nodes[..i]) < |links| && links[ParentedCount(nodes[..i])] == ParentLink(nodes[i])
      {
        if i == |nodes| - 1 {
          assert nodes[..i] == pre;
        } else {
          assert nodes[..i] == pre[..i] && pre[i] == nodes[i];
          PrefixCountBound(pre, i);
        }
      }
      forall l | l in links
        ensures exists i :: 0 <= i < |nodes| && JTruthy(Get(nodes[i], "parent_id")) && l == ParentLink(nodes[i])
      {
        if l in ArrayLinks(pre).value {
          var i :| 0 <= i < |pre| && JTruthy(Get(pre[i], "parent_id")) && l == ParentLink(pre[i]);
          assert pre[i] == nodes[i];
        }
      }
    }
  }

  /** A parented node is counted after every node before it. */
  lemma {:induction false} PrefixCountBound(nodes: seq<Json>, i: nat)
    requires i < |nodes|
    ensures ParentedCount(nodes[..i]) + (if JTruthy(Get(nodes[i], "parent_id")) then 1 else 0) <= ParentedCount(nodes)
    decreases |nodes|
  {
    var pre := nodes[..|nodes| - 1];
    if i == |nodes| - 1 {
      assert nodes[..i] == pre;
    } else {
      assert nodes[..i] == pre[..i] && pre[i] == nodes[i];
      PrefixCountBound(pre, i);
    }
  }

  function MockNodeJson(m: MockNode): Json
  {
    var base := map["id" := JStr(m.id), "label" := JStr(m.title), "type" := JStr(m.kind), "x" := JNum(m.x), "y" := JNum(m.y)];
    JObj(if m.parent.Some? then base["parent_id" := JStr(m.parent.value)] else base)
  }

  function MockLinkJson(l: MockLink): Json
  {
    JObj(map["source" := JStr(l.source), "target" := JStr(l.target), "type" := JStr("parent-child")])
  }

  function MockHierarchy(): Json
  {
    JObj(map[
      "nodes" := JArr(seq(|MockNodes()|, i requires 0 <= i < |MockNodes()| => MockNodeJson(MockNodes()[i]))),
      "links" := JArr(seq(|MockLinks()|, i requires 0 <= i < |MockLinks()| => MockLinkJson(MockLinks()[i])))])
  }

  /** `fetchFactoryHierarchy`: the shapes it recognises, in order; a failed
      fetch, a null answer or a null node in an array answer gives the mock
      hierarchy. */
  function FetchFactoryHierarchy(upstream: Option<Json>): (r: Json)
    ensures upstream.None? || Nullish(upstream.value) ==> r == MockHierarchy()
    ensures upstream.Some? && JTruthy(Get(upstream.value, "nodes")) && JTruthy(Get(upstream.value, "links")) ==>
      r == upstream.value
    ensures (&& upstream.Some?
             && !(JTruthy(Get(upstream.value, "nodes")) && JTruthy(Get(upstream.value, "links")))
             && JTruthy(Get(upstream.value, "treeData")) && JTruthy(Get(upstream.value, "graphData")))
      ==> r == Get(upstream.value, "graphData")
    ensures upstream.Some? && upstream.value.JArr? && ArrayLinks(upstream.value.items).Some? ==>
      r == JObj(map["nodes" := upstream.value, "links" := JArr(ArrayLinks(upstream.value.items).value)])
    ensures upstream.Some? && upstream.value.JArr? && ArrayLinks(upstream.value.items).None? ==>
      r == MockHierarchy()
    ensures (&& upstream.Some? && !Nullish(upstream.value) && !upstream.value.JArr?
             && !(JTruthy(Get(upstream.value, "nodes")) && JTruthy(Get(upstream.value, "links")))
             && !(JTruthy(Get(upstream.value, "treeData")) && JTruthy(Get(upstream.value, "graphData"))))
      ==> r == upstream.value
  {
    if upstream.None? || Nullish(upstream.value) then MockHierarchy()
    else
      var data := upstream.value;
      if JTruthy(Get(data, "nodes")) && JTruthy(Get(data, "links")) then data
      else if JTruthy(Get(data, "treeData")) && JTruthy(Get(data, "graphData")) then Get(data, "graphData")
      else if data.JArr? then
        match ArrayLinks(data.items)
        case None => MockHierarchy()
        case Some(ls) => JObj(map["nodes" := data, "links" := JArr(ls)])
      else data
  }
}
