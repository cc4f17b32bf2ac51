/** The node-creation endpoint (app/api/factory-node/route.ts): the request
    body is checked for its required fields, forwarded upstream, and the
    created record is reshaped for the client; when the upstream call fails
    the request itself is echoed back as if it had been created. */
module NodeRoute {
  import opened Js

  /** An HTTP answer: a status and a JSON body. */
  datatype Response = Response(status: int, body: Json)

  function ErrorBody(message: string): Json
  {
    JObj(map["error" := JStr(message)])
  }

  /** The first required field the request lacks, in the order the source
      checks them. */
  function MissingField(nodeData: Json): (r: Option<string>)
    ensures r == Some("asset_id") <==> !JTruthy(Get(nodeData, "asset_id"))
    ensures r == Some("name") <==> JTruthy(Get(nodeData, "asset_id")) && !JTruthy(Get(nodeData, "name"))
    ensures r == Some("type") <==>
      JTruthy(Get(nodeData, "asset_id")) && JTruthy(Get(nodeData, "name")) && !JTruthy(Get(nodeData, "type"))
    ensures r.None? <==>
      JTruthy(Get(nodeData, "asset_id")) && JTruthy(Get(nodeData, "name")) && JTruthy(Get(nodeData, "type"))
  {
    if !JTruthy(Get(nodeData, "asset_id")) then Some("asset_id")
    else if !JTruthy(Get(nodeData, "name")) then Some("name")
    else if !JTruthy(Get(nodeData, "type")) then Some("type")
    else None
  }

  /** The client's view of the record the upstream API created. */
  function TransformedNode(created: Json): (r: Json)
    requires !Nullish(created)
    ensures var id := JOr(Get(created, "asset_id"), Get(created, "id"));
      && Get(r, "id") == id
      && Get(r, "label") == JOr(Get(created, "name"), JStr("Asset " + Render(id)))
      && Get(r, "type") == Get(created, "type")
      && Get(r, "status") == JOr(Get(created, "status"), JStr("active"))
      && Get(r, "code") == Get(created, "code")
      && Get(r, "description") == JOr(Get(created, "description"), JStr(""))
      && Get(r, "parameters") == JOr(Get(created, "parameters"), JObj(map[]))
      && Get(r, "assetData") == created
      && Get(r, "created") == JUndefined
  {
    var id := JOr(Get(created, "asset_id"), Get(created, "id"));
    JObj(map[
      "id" := id,
      "label" := JOr(Get(created, "name"), JStr("Asset " + Render(id))),
      "type" := Get(created, "type"),
      "status" := JOr(Get(created, "status"), JStr("active")),
      "code" := Get(created, "code"),
      "description" := JOr(Get(created, "description"), JStr("")),
      "parameters" := JOr(Get(created, "parameters"), JObj(map[])),
      "assetData" := created])
  }

  /** The echo returned when the upstream call fails; `now` is the creation
      timestamp. */
  function FallbackNode(nodeData: Json, now: string): (r: Json)
    ensures Get(r, "id") == Get(nodeData, "asset_id") && Get(r, "label") == Get(nodeData, "name")
    ensures Get(r, "type") == Get(nodeData, "type") && Get(r, "code") == Get(nodeData, "code")
    ensures Get(r, "status") == JOr(Get(nodeData, "status"), JStr("active"))
    ensures Get(r, "description") == JOr(Get(nodeData, "description"), JStr(""))
    ensures Get(r, "parameters") == JOr(Get(nodeData, "parameters"), JObj(map[]))
    ensures Get(r, "assetData") == nodeData
    ensures Get(r, "created") == JBool(true) && Get(r, "createdAt") == JStr(now)
  {
    JObj(map[
      "id" := Get(nodeData, "asset_id"),
      "label" := Get(nodeData, "name"),
      "type" := Get(nodeData, "type"),
      "status" := JOr(Get(nodeData, "status"), JStr("active")),
      "code" := Get(nodeData, "code"),
      "description" := JOr(Get(nodeData, "description"), JStr("")),
      "parameters" := JOr(Get(nodeData, "parameters"), JObj(map[])),
      "assetData" := nodeData,
      "created" := JBool(true),
      "createdAt" := JStr(now)])
  }

  /** `POST`. `body` is the parsed request (None when it is not JSON);
      `upstream` is the created record the remote API answered with (None
      when the call failed, answered with an error status or sent no JSON). */
  function Post(body: Option<Json>, upstream: Option<Json>, now: string): (r: Response)
    ensures body.None? || Nullish(body.value) ==> r == Response(500, ErrorBody("Failed to create node"))
    ensures body.Some? && !Nullish(body.value) && MissingField(body.value).Some? ==>
      r == Response(400, ErrorBody(MissingField(body.value).value + " is required"))
    ensures body.Some? && !Nullish(body.value) && MissingField(body.value).None? ==>
      && r.status == 200
      && (upstream.Some? && !Nullish(upstream.value) ==> r.body == TransformedNode(upstream.value))
      && (upstream.None? || Nullish(upstream.value) ==> r.body == FallbackNode(body.value, now))
  {
    if body.None? || Nullish(body.value) then Response(500, ErrorBody("Failed to create node"))
    else
      var nodeData := body.value;
      var missing := MissingField(nodeData);
      if missing.Some? then Response(400, ErrorBody(missing.value + " is required"))
      else if upstream.Some? && !Nullish(upstream.value) then Response(200, TransformedNode(upstream.value))
      else Response(200, FallbackNode(nodeData, now))
  }

  /** A request lacking both `asset_id` and `name` is refused for `asset_id`:
      the first missing field wins. */
  lemma {:induction false} FirstMissingWins(nodeData: Json, upstream: Option<Json>, now: string)
    requires !Nullish(nodeData) && !JTruthy(Get(nodeData, "asset_id"))
    ensures Post(Some(nodeData), upstream, now) == Response(400, ErrorBody("asset_id is required"))
  {
    assert "asset_id" + " is required" == "asset_id is required";
  }

  /** Only the fallback carries `created`, and both keep the record they
      were made from. */
  lemma {:induction false} CreatedOnlyInFallback(nodeData: Json, upstream: Option<Json>, now: string)
    requires !Nullish(nodeData) && MissingField(nodeData).None?
    ensures var b := Post(Some(nodeData), upstream, now).body;
      && (Get(b, "created") == JBool(true) <==> upstream.None? || Nullish(upstream.value))
      && Get(b, "assetData") == (if upstream.Some? && !Nullish(upstream.value) then upstream.value else nodeData)
  {
  }
}
