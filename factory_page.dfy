/** Loading the factory page (app/factory/page.tsx): the fetched hierarchy
    is checked for its shape, one guard at a time, and its nodes and links
    are normalised; any failure shows an error and falls back to a fixed
    five-node chain. */
module FactoryPage {
  import opened Js

  /** What the hierarchy fetch produced: a value, or an Error with a message.
      `Threw` is kept for the page's own `try`: the service's
      `fetchFactoryHierarchy` catches every failure and answers the mock
      hierarchy, so from that caller the page always receives a value. */
  datatype Fetched = Fetched(data: Json) | Threw(message: string)

  /** Why loading failed: an Error with a known message, or a TypeError from
      reading a property of null during normalisation (its text comes from
      the JavaScript engine and is not modelled). */
  datatype Failure = Message(text: string) | TypeError

  datatype PageData = Loaded(nodes: seq<Json>, links: seq<Json>) | Failed(why: Failure, mock: Json)

  /** The shape guards, in the order the page runs them: the first that
      fails decides the message. */
  function Validate(data: Json): (r: Option<string>)
    ensures r.None? <==> JTruthy(data) && Get(data, "nodes").JArr? && Get(data, "links").JArr?
    ensures !JTruthy(data) ==> r == Some("API returned no data")
    ensures JTruthy(data) && !JTruthy(Get(data, "nodes")) ==> r == Some("Invalid data format: nodes array is missing")
    ensures JTruthy(data) && JTruthy(Get(data, "nodes")) && !Get(data, "nodes").JArr? ==>
      r == Some("Invalid data format: nodes is not an array")
    ensures JTruthy(data) && Get(data, "nodes").JArr? && !JTruthy(Get(data, "links")) ==>
      r == Some("Invalid data format: links array is missing")
    ensures JTruthy(data) && Get(data, "nodes").JArr? && JTruthy(Get(data, "links")) && !Get(data, "links").JArr? ==>
      r == Some("Invalid data format: links is not an array")
  {
    if !JTruthy(data) then Some("API returned no data")
    else if !JTruthy(Get(data, "nodes")) then Some("Invalid data format: nodes array is missing")
    else if !Get(data, "nodes").JArr? then Some("Invalid data format: nodes is not an array")
    else if !JTruthy(Get(data, "links")) then Some("Invalid data format: links array is missing")
    else if !Get(data, "links").JArr? then Some("Invalid data format: links is not an array")
    else None
  }

  /** One normalised node. Reading a property of a null (or undefined) node
      throws (None).
      `place` stands for the random coordinates a node without its own gets. */
  function NormaliseNode(node: Json, index: nat, place: (Json, Json)): (r: Option<Json>)
    ensures r.None? <==> Nullish(node)
  {
    if Nullish(node) then None
    else
      Some(JObj(Spread(node)[
        "x" := JOr(Get(node, "x"), place.0)][
        "y" := JOr(Get(node, "y"), place.1)][
        "id" := JOr(Get(node, "id"), JStr("node-" + NatToString(index)))][
        "label" := JOr(Get(node, "label"), JOr(Get(node, "name"), JStr("Node " + NatToString(index))))][
        "type" := JOr(Get(node, "type"), JStr("workstation"))]))
  }

  /** A normalised node keeps its own id, label (or name), type and
      coordinates when they are truthy and gets the defaults otherwise; all
      its other properties are copied. */
  lemma {:induction false} NormalisedFields(node: Json, index: nat, place: (Json, Json))
    requires !Nullish(node)
    ensures var r := NormaliseNode(node, index, place).value;
      && Get(r, "id") == JOr(Get(node, "id"), JStr("node-" + NatToString(index)))
      && Get(r, "label") == JOr(Get(node, "label"), JOr(Get(node, "name"), JStr("Node " + NatToString(index))))
      && Get(r, "type") == JOr(Get(node, "type"), JStr("workstation"))
      && Get(r, "x") == JOr(Get(node, "x"), place.0)
      && Get(r, "y") == JOr(Get(node, "y"), place.1)
      && forall k :: k in Spread(node) && k !in {"id", "label", "type", "x", "y"} ==> Get(r, k) == Spread(node)[k]
  {
  }

  /** `typeof e === "object" ? e.id : e`; `typeof null` is "object" too, and
      reading `.id` of null throws (None). An array is an object without an
      `id`, so it becomes undefined. */
  function EndpointValue(e: Json): (r: Option<Json>)
    ensures r.None? <==> e == JNull
    ensures e.JObj? ==> r == Some(Get(e, "id"))
    ensures e.JArr? ==> r == Some(JUndefined)
    ensures !e.JObj? && !e.JArr? && e != JNull ==> r == Some(e)
  {
    match e
    case JNull => None
    case JObj(_) => Some(Get(e, "id"))
    case JArr(_) => Some(JUndefined)
    case _ => Some(e)
  }

  /** One normalised link. */
  function NormaliseLink(link: Json): (r: Option<Json>)
    ensures r.None? <==> Nullish(link) || EndpointValue(Get(link, "source")).None? || EndpointValue(Get(link, "target")).None?
    ensures r.Some? ==>
      && Some(Get(r.value, "source")) == EndpointValue(Get(link, "source"))
      && Some(Get(r.value, "target")) == EndpointValue(Get(link, "target"))
      && Get(r.value, "type") == JOr(Get(link, "type"), JStr("parent-child"))
  {
    if Nullish(link) then None
    else
      var s := EndpointValue(Get(link, "source"));
      var t := EndpointValue(Get(link, "target"));
      if s.None? || t.None? then None
      else Some(JObj(Spread(link)["source" := s.value]["target" := t.value]["type" := JOr(Get(link, "type"), JStr("parent-child"))]))
  }

  /** `nodes.map(...)`, or None when one of them throws. */
  function NormaliseNodes(nodes: seq<Json>, place: nat -> (Json, Json)): (r: Option<seq<Json>>)
    ensures r.Some? ==> (|r.value| == |nodes|
      && forall i :: 0 <= i < |nodes| ==> NormaliseNode(nodes[i], i, place(i)) == Some(r.value[i]))
    ensures r.None? <==> AnyNullish(nodes)
  {
    if nodes == [] then Some([])
    else
      var k := |nodes| - 1;
      match NormaliseNodes(nodes[..k], place)
      case None =>
        assert forall i :: 0 <= i < k ==> nodes[..k][i] == nodes[i];
        None
      case Some(pre) =>
        match NormaliseNode(nodes[k], k, place(k))
        case None => None
        case Some(n) =>
          NodesSnoc(nodes, place, pre, n);
          Some(pre + [n])
  }

  /** The nodes before the last normalised, then the last one. */
  lemma {:induction false} NodesSnoc(nodes: seq<Json>, place: nat -> (Json, Json), pre: seq<Json>, n: Json)
    requires nodes != [] && NormaliseNode(nodes[|nodes| - 1], |nodes| - 1, place(|nodes| - 1)) == Some(n)
    requires |pre| == |nodes| - 1
    requires forall i :: 0 <= i < |pre| ==> NormaliseNode(nodes[..|pre|][i], i, place(i)) == Some(pre[i])
    requires !AnyNullish(nodes[..|pre|])
    ensures |pre + [n]| == |nodes| && !AnyNullish(nodes)
      && forall i :: 0 <= i < |nodes| ==> NormaliseNode(nodes[i], i, place(i)) == Some((pre + [n])[i])
  {
    assert forall i :: 0 <= i < |pre| ==> nodes[..|pre|][i] == nodes[i];
  }

  /** Some entry is null or undefined. */
  predicate AnyNullish(nodes: seq<Json>)
  {
    exists i :: 0 <= i < |nodes| && Nullish(nodes[i])
  }

  function NormaliseLinks(links: seq<Json>): (r: Option<seq<Json>>)
    ensures r.Some? ==> (|r.value| == |links| && forall i :: 0 <= i < |links| ==> NormaliseLink(links[i]) == Some(r.value[i]))
    ensures r.None? <==> exists i :: 0 <= i < |links| && NormaliseLink(links[i]).None?
  {
    if links == [] then Some([])
    else
      match NormaliseLinks(links[1..])
      case None =>
        assert forall i :: 1 <= i < |links| ==> links[i] == links[1..][i - 1];
        None
      case Some(rest) =>
        match NormaliseLink(links[0])
        case None => None
        case Some(l) => Some([l] + rest)
  }

  /** `fetchFactoryData`: the loaded graph, or the failure and the mock data.
      Once the guards pass, the graph loads exactly when no node is null and
      no link (or its endpoint) is null, and then holds the normalised nodes
      and links; otherwise the TypeError falls back to the mock data. A
      `Threw` input cannot come from the service, which never rethrows. */
  function FetchFactoryData(fetched: Fetched, place: nat -> (Json, Json)): (r: PageData)
    ensures fetched.Threw? ==> r == Failed(Message(fetched.message), MockData())
    ensures fetched.Fetched? && Validate(fetched.data).Some? ==>
      r == Failed(Message(Validate(fetched.data).value), MockData())
    ensures r.Loaded? <==>
      && fetched.Fetched? && Validate(fetched.data).None?
      && !AnyNullish(Get(fetched.data, "nodes").items)
      && forall i :: 0 <= i < |Get(fetched.data, "links").items| ==> NormaliseLink(Get(fetched.data, "links").items[i]).Some?
    ensures r.Loaded? ==>
      && Some(r.nodes) == NormaliseNodes(Get(fetched.data, "nodes").items, place)
      && Some(r.links) == NormaliseLinks(Get(fetched.data, "links").items)
    ensures fetched.Fetched? && Validate(fetched.data).None? && !r.Loaded? ==> r == Failed(TypeError, MockData())
  {
    match fetched
    case Threw(m) => Failed(Message(m), MockData())
    case Fetched(data) =>
      match Validate(data)
      case Some(m) => Failed(Message(m), MockData())
      case None =>
        match (NormaliseNodes(Get(data, "nodes").items, place), NormaliseLinks(Get(data, "links").items))
        case (Some(ns), Some(ls)) => Loaded(ns, ls)
        case _ => Failed(TypeError, MockData())
  }

  /** A null node in a well-shaped answer makes the page fall back to the
      mock data with a TypeError. */
  lemma {:induction false} NullNodeFails(data: Json, place: nat -> (Json, Json), i: nat)
    requires Validate(data).None? && i < |Get(data, "nodes").items| && Nullish(Get(data, "nodes").items[i])
    ensures FetchFactoryData(Fetched(data), place) == Failed(TypeError, MockData())
  {
    assert AnyNullish(Get(data, "nodes").items);
  }

  /** Loading keeps every node and every link: the counts the success toast
      reports are the input counts. */
  lemma {:induction false} CountsKept(data: Json, place: nat -> (Json, Json))
    requires FetchFactoryData(Fetched(data), place).Loaded?
    ensures var r := FetchFactoryData(Fetched(data), place);
      |r.nodes| == |Get(data, "nodes").items| && |r.links| == |Get(data, "links").items|
  {
  }

  // ---------------------------------------------------------------------
  // The fallback data
  // ---------------------------------------------------------------------

  function MockNode(id: string, title: string, kind: string, y: int, parent: Option<string>): (r: Json)
    ensures Get(r, "id") == JStr(id) && Get(r, "parent_id") == FromOpt(parent)
  {
    var base := map["id" := JStr(id), "label" := JStr(title), "type" := JStr(kind), "x" := JNum(100), "y" := JNum(y)];
    JObj(if parent.Some? then base["parent_id" := JStr(parent.value)] else base)
  }

  function MockLink(source: string, target: string): (r: Json)
    ensures Get(r, "source") == JStr(source) && Get(r, "target") == JStr(target)
  {
    JObj(map["source" := JStr(source), "target" := JStr(target), "type" := JStr("parent-child")])
  }

  function MockNodes(): seq<Json>
  {
    [ MockNode("facility-1", "Main Facility", "facility", 100, None),
      MockNode("area-1", "Production Area", "area", 200, Some("facility-1")),
      MockNode("mf-1", "Mini Factory 1", "mini_factory", 300, Some("area-1")),
      MockNode("line-1", "Assembly Line", "line", 400, Some("mf-1")),
      MockNode("ws-1", "Workstation 1", "workstation", 500, Some("line-1")) ]
  }

  function MockLinks(): seq<Json>
  {
    [ MockLink("facility-1", "area-1"),
      MockLink("area-1", "mf-1"),
      MockLink("mf-1", "line-1"),
      MockLink("line-1", "ws-1") ]
  }

  function MockData(): Json
  {
    JObj(map["nodes" := JArr(MockNodes()), "links" := JArr(MockLinks())])
  }

  /** The fallback is a chain: link i joins node i to node i + 1, and node
      i + 1 records node i as its `parent_id`. */
  lemma {:induction false} MockIsChain()
    ensures |MockNodes()| == 5 && |MockLinks()| == 4
    ensures forall i :: 0 <= i < 4 ==>
      && Get(MockLinks()[i], "source") == Get(MockNodes()[i], "id")
      && Get(MockLinks()[i], "target") == Get(MockNodes()[i + 1], "id")
      && Get(MockNodes()[i + 1], "parent_id") == Get(MockLinks()[i], "source")
  {
    forall i | 0 <= i < 4
      ensures Get(MockLinks()[i], "source") == Get(MockNodes()[i], "id")
      ensures Get(MockLinks()[i], "target") == Get(MockNodes()[i + 1], "id")
      ensures Get(MockNodes()[i + 1], "parent_id") == Get(MockLinks()[i], "source")
    {
      MockStep(i);
    }
  }

  /** Link i of the fallback and the two nodes it joins. */
  lemma {:induction false} MockStep(i: nat)
    requires i < 4
    ensures Get(MockLinks()[i], "source") == Get(MockNodes()[i], "id")
    ensures Get(MockLinks()[i], "target") == Get(MockNodes()[i + 1], "id")
    ensures Get(MockNodes()[i + 1], "parent_id") == Get(MockLinks()[i], "source")
  {
    var ns, ls := MockNodes(), MockLinks();
    if i == 0 {
      assert ls[0] == MockLink("facility-1", "area-1");
      assert ns[0] == MockNode("facility-1", "Main Facility", "facility", 100, None);
      assert ns[1] == MockNode("area-1", "Production Area", "area", 200, Some("facility-1"));
    } else if i == 1 {
      assert ls[1] == MockLink("area-1", "mf-1");
      assert ns[1] == MockNode("area-1", "Production Area", "area", 200, Some("facility-1"));
      assert ns[2] == MockNode("mf-1", "Mini Factory 1", "mini_factory", 300, Some("area-1"));
    } else if i == 2 {
      assert ls[2] == MockLink("mf-1", "line-1");
      assert ns[2] == MockNode("mf-1", "Mini Factory 1", "mini_factory", 300, Some("area-1"));
      assert ns[3] == MockNode("line-1", "Assembly Line", "line", 400, Some("mf-1"));
    } else {
      assert ls[3] == MockLink("line-1", "ws-1");
      assert ns[3] == MockNode("line-1", "Assembly Line", "line", 400, Some("mf-1"));
      assert ns[4] == MockNode("ws-1", "Workstation 1", "workstation", 500, Some("line-1"));
    }
  }

  /** Only the first node of the fallback has no parent. */
  lemma {:induction false} MockParents()
    ensures Get(MockNodes()[0], "parent_id") == JUndefined
    ensures forall i :: 1 <= i < 5 ==> Get(MockNodes()[i], "parent_id").JStr?
  {
    var ns := MockNodes();
    assert ns[0] == MockNode("facility-1", "Main Facility", "facility", 100, None);
    assert ns[1] == MockNode("area-1", "Production Area", "area", 200, Some("facility-1"));
    assert ns[2] == MockNode("mf-1", "Mini Factory 1", "mini_factory", 300, Some("area-1"));
    assert ns[3] == MockNode("line-1", "Assembly Line", "line", 400, Some("mf-1"));
    assert ns[4] == MockNode("ws-1", "Workstation 1", "workstation", 500, Some("line-1"));
  }

  /** The fallback passes the page's own shape guards. */
  lemma {:induction false} MockPassesGuards()
    ensures Validate(MockData()).None?
  {
    assert Get(MockData(), "nodes") == JArr(MockNodes());
    assert Get(MockData(), "links") == JArr(MockLinks());
  }
}
