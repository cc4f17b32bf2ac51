/** The node details panel (app/masters/factory/node-details-panel.tsx): the
    child-type action buttons, the form that is filled from one of several
    places inside a node record, the save that writes the edited fields
    back into the place they came from, and the collapsible sections. */
module NodeDetailsPanel {
  import opened Js
  import Links
  import AddNodeModal

  // ---------------------------------------------------------------------
  // The action buttons
  // ---------------------------------------------------------------------

  /** A button that opens the add-node dialog for `addType`. */
  datatype ActionButton = ActionButton(title: string, addType: string)

  /** `getActionButtons`: a switch on the raw (not lower-cased) node type. */
  function ActionButtons(nodeType: Option<string>): (r: seq<ActionButton>)
  {
    if nodeType == Some("facility") then
      [ActionButton("Add Area", "area")]
    else if nodeType == Some("area") then
      [ActionButton("Add Mini Factory", "mini_factory"), ActionButton("Add Area", "area")]
    else if nodeType == Some("mini_factory") then
      [ActionButton("Add Line", "line"), ActionButton("Add Mini Factory", "mini_factory")]
    else if nodeType == Some("line") then
      [ActionButton("Add Workstation", "workstation"), ActionButton("Add Line", "line")]
    else if nodeType == Some("workstation") then
      [ActionButton("Add Workstation", "workstation")]
    else []
  }

  /** A node of a ranked type can add a child one level down (except a
      workstation, the lowest level) and a sibling of its own type (except a
      facility, the top level); a node of any other type has no buttons. The
      first button is always the level below, or the same level for a
      workstation. */
  lemma {:induction false} ActionsFollowRanks(nodeType: Option<string>)
    ensures var r := ActionButtons(nodeType);
      (r == [] <==> nodeType.None? || Links.Rank(nodeType.value).None?)
      && (r != [] ==>
            var k := Links.Rank(nodeType.value).value;
            Links.Rank(r[0].addType) == Some(if k == 5 then 5 else k + 1)
            && |r| == (if 1 < k < 5 then 2 else 1)
            && (|r| == 2 ==> r[1].addType == nodeType.value))
  {
  }

  /** Each button carries the title the add-node dialog shows for its type,
      so a facility can never be added from the panel. */
  lemma {:induction false} ActionTitlesMatchDialog(nodeType: Option<string>)
    ensures forall b :: b in ActionButtons(nodeType) ==>
      b.title == AddNodeModal.NodeTypeTitle(b.addType) && b.addType != "facility"
  {
  }

  // ---------------------------------------------------------------------
  // Property paths: `a?.b?.c` and `a.b = a.b || {}; a.b.c = v`
  // ---------------------------------------------------------------------

  /** Two paths that part at some key, so neither is a prefix of the other. */
  predicate Diverges(p: seq<string>, q: seq<string>)
    decreases |p|
  {
    |p| > 0 && |q| > 0 && (p[0] != q[0] || Diverges(p[1..], q[1..]))
  }

  lemma {:induction false} GetPathSnoc(j: Json, p: seq<string>, k: string)
    ensures GetPath(j, p + [k]) == Get(GetPath(j, p), k)
    decreases |p|
  {
    if p != [] {
      assert (p + [k])[1..] == p[1..] + [k];
      GetPathSnoc(Get(j, p[0]), p[1..], k);
    }
  }

  /** The assignment at the end of a path, after each container on the way
      has been defaulted with `x = x || {}`. Assigning a property of a
      primitive throws a TypeError in strict code, which is `None` here. */
  function Assign(j: Json, p: seq<string>, v: Json): (r: Option<Json>)
    requires |p| > 0
    ensures r.Some? ==> j.JObj? && r.value.JObj?
    decreases |p|
  {
    if !j.JObj? then None
    else if |p| == 1 then Some(JObj(j.fields[p[0] := v]))
    else
      match Assign(JOr(Get(j, p[0]), JObj(map[])), p[1..], v)
      case None => None
      case Some(c) => Some(JObj(j.fields[p[0] := c]))
  }

  /** After the assignment, the path reads the assigned value, and every
      container on the way is an object. */
  lemma {:induction false} AssignThenGet(j: Json, p: seq<string>, v: Json, r: Json)
    requires |p| > 0 && Assign(j, p, v) == Some(r)
    ensures GetPath(r, p) == v
    ensures forall i :: 0 <= i < |p| ==> GetPath(r, p[..i]).JObj?
    decreases |p|
  {
    if |p| > 1 {
      var c := Assign(JOr(Get(j, p[0]), JObj(map[])), p[1..], v).value;
      AssignThenGet(JOr(Get(j, p[0]), JObj(map[])), p[1..], v, c);
      assert Get(r, p[0]) == c;
      forall i | 1 <= i < |p|
        ensures GetPath(r, p[..i]).JObj?
      {
        assert p[..i][1..] == p[1..][..i - 1];
      }
    }
    assert p[..0] == [];
  }

  /** Paths that part from the assigned one read as before. */
  lemma {:induction false} AssignKeepsOthers(j: Json, p: seq<string>, v: Json, r: Json, q: seq<string>)
    requires |p| > 0 && Assign(j, p, v) == Some(r) && Diverges(p, q)
    ensures GetPath(r, q) == GetPath(j, q)
    decreases |p|
  {
    if p[0] != q[0] {
      assert Get(r, q[0]) == Get(j, q[0]);
    } else {
      var c := Assign(JOr(Get(j, p[0]), JObj(map[])), p[1..], v).value;
      assert Get(r, q[0]) == c;
      AssignKeepsOthers(JOr(Get(j, p[0]), JObj(map[])), p[1..], v, c, q[1..]);
      if !JTruthy(Get(j, q[0])) {
        UndefinedPath(q[1..]);
      }
    }
  }

  /** Every property of undefined, at any depth, reads as undefined. */
  lemma {:induction false} UndefinedPath(q: seq<string>)
    ensures GetPath(JUndefined, q) == JUndefined
    decreases |q|
  {
    if q != [] {
      UndefinedPath(q[1..]);
    }
  }

  /** A container that `x = x || {}` turns into an object: an object already,
      or a falsy value. */
  predicate Slot(x: Json)
  {
    x.JObj? || !JTruthy(x)
  }

  /** The assignment succeeds when every container on the way is an object
      or missing. */
  lemma {:induction false} AssignSucceeds(j: Json, p: seq<string>, v: Json)
    requires |p| > 0 && j.JObj?
    requires forall i :: 1 <= i < |p| ==> Slot(GetPath(j, p[..i]))
    ensures Assign(j, p, v).Some?
    decreases |p|
  {
    if |p| > 1 {
      var child := JOr(Get(j, p[0]), JObj(map[]));
      assert p[..1] == [p[0]] && [p[0]][1..] == [];
      assert GetPath(j, p[..1]) == Get(j, p[0]);
      assert child.JObj?;
      forall i | 1 <= i < |p| - 1
        ensures Slot(GetPath(child, p[1..][..i]))
      {
        assert p[..i + 1][1..] == p[1..][..i];
        if !JTruthy(Get(j, p[0])) {
          UndefinedPath(p[1..][..i][1..]);
        }
      }
      AssignSucceeds(child, p[1..], v);
    }
  }

  /** The paths `p + [k]` for the keys written. */
  predicate ApartFrom(p: seq<string>, kvs: seq<(string, Json)>, q: seq<string>)
  {
    forall i :: 0 <= i < |kvs| ==> Diverges(p + [kvs[i].0], q)
  }

  predicate DistinctKeys(kvs: seq<(string, Json)>)
  {
    forall a, b :: 0 <= a < b < |kvs| ==> kvs[a].0 != kvs[b].0
  }

  /** Several properties assigned, one after the other, on one container. */
  function WriteAll(j: Json, p: seq<string>, kvs: seq<(string, Json)>): (r: Option<Json>)
    requires |p| > 0
    ensures j.JObj? && r.Some? ==> r.value.JObj?
    decreases |kvs|
  {
    if kvs == [] then Some(j)
    else
      match Assign(j, p + [kvs[0].0], kvs[0].1)
      case None => None
      case Some(j1) => WriteAll(j1, p, kvs[1..])
  }

  lemma {:induction false} DivergesAfter(p: seq<string>, k1: string, k2: string)
    requires k1 != k2
    ensures Diverges(p + [k1], p + [k2])
    decreases |p|
  {
    if p != [] {
      assert (p + [k1])[1..] == p[1..] + [k1];
      assert (p + [k2])[1..] == p[1..] + [k2];
      DivergesAfter(p[1..], k1, k2);
    }
  }

  lemma {:induction false} DivergesExtend(p: seq<string>, k: string, q: seq<string>)
    requires Diverges(p, q)
    ensures Diverges(p + [k], q)
    decreases |p|
  {
    if p[0] == q[0] {
      assert (p + [k])[1..] == p[1..] + [k];
      DivergesExtend(p[1..], k, q[1..]);
    }
  }

  /** After the assignments, each written property reads its value, the
      container and each one above it are objects, and every path apart from
      the written ones reads as before. */
  lemma {:induction false} WriteAllShape(j: Json, p: seq<string>, kvs: seq<(string, Json)>, r: Json)
    requires |p| > 0 && DistinctKeys(kvs) && WriteAll(j, p, kvs) == Some(r)
    ensures forall i :: 0 <= i < |kvs| ==> GetPath(r, p + [kvs[i].0]) == kvs[i].1
    ensures |kvs| > 0 ==> forall i :: 0 <= i <= |p| ==> GetPath(r, p[..i]).JObj?
    ensures forall q :: ApartFrom(p, kvs, q) ==> GetPath(r, q) == GetPath(j, q)
    decreases |kvs|
  {
    if kvs != [] {
      var k := kvs[0].0;
      var j1 := Assign(j, p + [k], kvs[0].1).value;
      AssignThenGet(j, p + [k], kvs[0].1, j1);
      var rest := kvs[1..];
      assert DistinctKeys(rest) by {
        forall a, b | 0 <= a < b < |rest|
          ensures rest[a].0 != rest[b].0
        {
          assert rest[a] == kvs[a + 1] && rest[b] == kvs[b + 1];
        }
      }
      WriteAllShape(j1, p, rest, r);
      forall i | 0 <= i <= |p|
        ensures GetPath(j1, p[..i]).JObj?
      {
        assert (p + [k])[..i] == p[..i];
      }
      forall m | 0 <= m < |rest|
        ensures Diverges(p + [rest[m].0], p + [k])
      {
        assert rest[m] == kvs[m + 1];
        DivergesAfter(p, rest[m].0, k);
      }
      assert ApartFrom(p, rest, p + [k]);
      forall q | ApartFrom(p, kvs, q)
        ensures GetPath(r, q) == GetPath(j, q)
      {
        assert Diverges(p + [k], q);
        AssignKeepsOthers(j, p + [k], kvs[0].1, j1, q);
        forall m | 0 <= m < |rest|
          ensures Diverges(p + [rest[m].0], q)
        {
          assert rest[m] == kvs[m + 1];
        }
      }
      forall i | 1 <= i < |kvs|
        ensures GetPath(r, p + [kvs[i].0]) == kvs[i].1
      {
        assert kvs[i] == rest[i - 1];
      }
    }
  }

  /** The assignments all succeed when the container and every one above it
      is an object or missing. */
  lemma {:induction false} WriteAllSucceeds(j: Json, p: seq<string>, kvs: seq<(string, Json)>)
    requires |p| > 0 && j.JObj?
    requires forall i :: 1 <= i <= |p| ==> Slot(GetPath(j, p[..i]))
    ensures WriteAll(j, p, kvs).Some?
    decreases |kvs|
  {
    if kvs != [] {
      var k := kvs[0].0;
      forall i | 1 <= i < |p| + 1
        ensures Slot(GetPath(j, (p + [k])[..i]))
      {
        assert (p + [k])[..i] == p[..i];
      }
      AssignSucceeds(j, p + [k], kvs[0].1);
      var j1 := Assign(j, p + [k], kvs[0].1).value;
      AssignThenGet(j, p + [k], kvs[0].1, j1);
      forall i | 1 <= i <= |p|
        ensures Slot(GetPath(j1, p[..i]))
      {
        assert (p + [k])[..i] == p[..i];
      }
      WriteAllSucceeds(j1, p, kvs[1..]);
    }
  }

  // ---------------------------------------------------------------------
  // The form and where its fields live in a node
  // ---------------------------------------------------------------------

  /** The edit form. The text fields hold whatever value they were filled
      from. */
  datatype Form = Form(
    description: Json, code: Json, status: Json,
    city: Json, country: Json,
    plcName: Json, plcIpAddress: Json, plcMacAddress: Json,
    serverConnectionAttribute: Json, allPlcDataStreamed: bool)

  /** The form before any node was shown, and the base every load starts
      from. */
  function BlankForm(description: Json, code: Json, status: Json): Form
  {
    Form(description, code, status, JStr(""), JStr(""), JStr(""), JStr(""), JStr(""), JStr(""), false)
  }

  const AssetDemographics: seq<string> := ["assetData", "parameters", "specs", "demographics"]
  const Demographics: seq<string> := ["parameters", "specs", "demographics"]
  const AssetLocation: seq<string> := ["assetData", "location"]
  const Location: seq<string> := ["location"]
  const Details: seq<string> := ["parameters", "specs", "details"]
  const AssetDetails: seq<string> := ["assetData", "parameters", "specs", "details"]
  const AssetDescription: seq<string> := ["assetData", "description"]

  /** Where a facility keeps its city and country: the first of four places
      that holds a truthy value. */
  function FacilityPlace(node: Json): (r: Option<seq<string>>)
    ensures r.Some? ==> JTruthy(GetPath(node, r.value))
    ensures JTruthy(GetPath(node, AssetDemographics)) ==> r == Some(AssetDemographics)
    ensures !JTruthy(GetPath(node, AssetDemographics)) && JTruthy(GetPath(node, Demographics)) ==>
      r == Some(Demographics)
    ensures (&& !JTruthy(GetPath(node, AssetDemographics)) && !JTruthy(GetPath(node, Demographics))
             && JTruthy(GetPath(node, AssetLocation)))
      ==> r == Some(AssetLocation)
    ensures (&& !JTruthy(GetPath(node, AssetDemographics)) && !JTruthy(GetPath(node, Demographics))
             && !JTruthy(GetPath(node, AssetLocation)) && JTruthy(GetPath(node, Location)))
      ==> r == Some(Location)
    ensures r == None <==>
      !JTruthy(GetPath(node, AssetDemographics)) && !JTruthy(GetPath(node, Demographics))
      && !JTruthy(GetPath(node, AssetLocation)) && !JTruthy(GetPath(node, Location))
  {
    if JTruthy(GetPath(node, AssetDemographics)) then Some(AssetDemographics)
    else if JTruthy(GetPath(node, Demographics)) then Some(Demographics)
    else if JTruthy(GetPath(node, AssetLocation)) then Some(AssetLocation)
    else if JTruthy(GetPath(node, Location)) then Some(Location)
    else None
  }

  /** `nodeType?.toLowerCase() === "workstation"` */
  predicate IsWorkstation(nodeType: Option<string>)
  {
    nodeType.Some? && ToLower(nodeType.value) == "workstation"
  }

  /** `x || ""` */
  function OrEmpty(x: Json): Json
  {
    JOr(x, JStr(""))
  }

  /** The common fields of a load: description, code and status, each with
      its default. */
  function LoadBase(node: Json): Form
  {
    BlankForm(
      JOr(Get(node, "description"), OrEmpty(GetPath(node, AssetDescription))),
      OrEmpty(Get(node, "code")),
      JOr(Get(node, "status"), JStr("active")))
  }

  /** A facility's city and country, from the first place that holds them. */
  function LoadFacility(node: Json, base: Form): Form
  {
    match FacilityPlace(node)
    case None => base
    case Some(p) =>
      var c := GetPath(node, p);
      base.(city := OrEmpty(Get(c, "city")), country := OrEmpty(Get(c, "country")))
  }

  /** Where a load finds a workstation's PLC fields: its own details when
      truthy, else its asset's, else an empty object. */
  function DetailsOf(node: Json): Json
  {
    JOr(JOr(GetPath(node, Details), GetPath(node, AssetDetails)), JObj(map[]))
  }

  /** A workstation's PLC fields, from its own details or else its asset's. */
  function LoadDetails(node: Json, base: Form): Form
  {
    var d := DetailsOf(node);
    base.(plcName := OrEmpty(Get(d, "plc_name")),
          plcIpAddress := OrEmpty(Get(d, "plc_ip_address")),
          plcMacAddress := OrEmpty(Get(d, "plc_mac_address")),
          serverConnectionAttribute := OrEmpty(Get(d, "server_connection_attribute")),
          allPlcDataStreamed := Get(d, "all_plc_data_streamed_into_server") == JStr("yes"))
  }

  /** The effect that fills the form when the node changes; nothing happens
      while no node is shown. */
  function LoadForm(node: Json, nodeType: Option<string>, current: Form): (f: Form)
    ensures !JTruthy(node) ==> f == current
  {
    if !JTruthy(node) then current
    else if nodeType == Some("facility") then LoadFacility(node, LoadBase(node))
    else if IsWorkstation(nodeType) then LoadDetails(node, LoadBase(node))
    else LoadBase(node)
  }

  // ---------------------------------------------------------------------
  // Saving
  // ---------------------------------------------------------------------

  datatype SaveOutcome =
    | Refused          // "Node ID is missing"
    | Failed           // a TypeError while writing a field
    | Saved(data: Json)

  function Outcome(o: Option<Json>): SaveOutcome
  {
    match o
    case None => Failed
    case Some(d) => Saved(d)
  }

  /** The edited record before it is posted: the node's own properties with
      the form's description, code and status. */
  function SaveBase(node: Json, form: Form): Json
  {
    JObj(Spread(node)["description" := form.description]["code" := form.code]["status" := form.status])
  }

  /** The place the facility fields are written to. */
  function FacilityTarget(node: Json): seq<string>
  {
    match FacilityPlace(node)
    case Some(p) => p
    case None => Demographics
  }

  /** The place the PLC fields are written to. */
  function DetailsTarget(node: Json): seq<string>
  {
    if JTruthy(GetPath(node, Details)) then Details
    else if JTruthy(GetPath(node, AssetDetails)) then AssetDetails
    else Details
  }

  function FacilityFields(form: Form): seq<(string, Json)>
  {
    [("city", form.city), ("country", form.country)]
  }

  function YesNo(b: bool): Json
  {
    JStr(if b then "yes" else "no")
  }

  function DetailsFields(form: Form): seq<(string, Json)>
  {
    [("plc_name", form.plcName), ("plc_ip_address", form.plcIpAddress),
     ("plc_mac_address", form.plcMacAddress),
     ("server_connection_attribute", form.serverConnectionAttribute),
     ("all_plc_data_streamed_into_server", YesNo(form.allPlcDataStreamed))]
  }

  /** `handleSave` up to the request it posts. */
  function Save(node: Json, nodeType: Option<string>, form: Form): (r: SaveOutcome)
    ensures r == Refused <==> !JTruthy(node) || !JTruthy(Get(node, "id"))
    ensures r.Saved? ==> r.data.JObj?
  {
    if !JTruthy(node) || !JTruthy(Get(node, "id")) then Refused
    else if nodeType == Some("facility") then
      Outcome(WriteAll(SaveBase(node, form), FacilityTarget(node), FacilityFields(form)))
    else if IsWorkstation(nodeType) then
      Outcome(WriteAll(SaveBase(node, form), DetailsTarget(node), DetailsFields(form)))
    else Saved(SaveBase(node, form))
  }

  // ---------------------------------------------------------------------
  // Save, then load again
  // ---------------------------------------------------------------------

  /** A path that starts with a key other than the three the form sets
      reads the same in the edited record as in the node. */
  lemma {:induction false} SaveBaseReads(node: Json, form: Form, q: seq<string>)
    requires node.JObj? && |q| > 0 && q[0] != "description" && q[0] != "code" && q[0] != "status"
    ensures GetPath(SaveBase(node, form), q) == GetPath(node, q)
  {
  }

  /** The edited record reads the form's three common fields. */
  lemma {:induction false} SaveBaseTop(node: Json, form: Form)
    ensures Get(SaveBase(node, form), "description") == form.description
    ensures Get(SaveBase(node, form), "code") == form.code
    ensures Get(SaveBase(node, form), "status") == form.status
  {
  }

  lemma {:induction false} ApartFromAll(p: seq<string>, kvs: seq<(string, Json)>, q: seq<string>)
    requires Diverges(p, q)
    ensures ApartFrom(p, kvs, q)
  {
    forall i | 0 <= i < |kvs|
      ensures Diverges(p + [kvs[i].0], q)
    {
      DivergesExtend(p, kvs[i].0, q);
    }
  }

  /** Writing fields under `p` leaves every path apart from `p` as it was. */
  lemma {:induction false} WrittenReads(j: Json, p: seq<string>, kvs: seq<(string, Json)>, q: seq<string>)
    requires |p| > 0 && DistinctKeys(kvs) && WriteAll(j, p, kvs).Some? && Diverges(p, q)
    ensures GetPath(WriteAll(j, p, kvs).value, q) == GetPath(j, q)
  {
    WriteAllShape(j, p, kvs, WriteAll(j, p, kvs).value);
    ApartFromAll(p, kvs, q);
  }

  /** A one-key path read through `GetPath`. */
  lemma {:induction false} GetPathOne(j: Json, k: string)
    ensures GetPath(j, [k]) == Get(j, k)
  {
    assert [k][1..] == [];
  }

  /** Every place a save may write to is apart from the common fields and
      from the asset's description. */
  lemma {:induction false} TargetsApart(t: seq<string>)
    requires t in {AssetDemographics, Demographics, AssetLocation, Location, Details, AssetDetails}
    ensures Diverges(t, ["description"]) && Diverges(t, ["code"]) && Diverges(t, ["status"])
    ensures Diverges(t, AssetDescription)
  {
  }

  /** The keys each kind of save writes are distinct. */
  lemma {:induction false} FieldsDistinct(form: Form)
    ensures DistinctKeys(FacilityFields(form)) && DistinctKeys(DetailsFields(form))
  {
  }

  /** The three common fields, and the asset's description, as a save
      leaves them in the record it posts. */
  predicate KeepsCommon(d: Json, node: Json, form: Form)
  {
    Get(d, "description") == form.description && Get(d, "code") == form.code
    && Get(d, "status") == form.status
    && GetPath(d, AssetDescription) == GetPath(node, AssetDescription)
  }

  /** Writing the facility or PLC fields into the edited record keeps the
      common fields. */
  lemma {:induction false} WrittenKeepsCommon(node: Json, form: Form, t: seq<string>, kvs: seq<(string, Json)>)
    requires node.JObj? && |t| > 0 && DistinctKeys(kvs)
    requires WriteAll(SaveBase(node, form), t, kvs).Some?
    requires Diverges(t, ["description"]) && Diverges(t, ["code"]) && Diverges(t, ["status"])
    requires Diverges(t, AssetDescription)
    ensures KeepsCommon(WriteAll(SaveBase(node, form), t, kvs).value, node, form)
  {
    var base := SaveBase(node, form);
    var d := WriteAll(base, t, kvs).value;
    SaveBaseTop(node, form);
    SaveBaseReads(node, form, AssetDescription);
    WrittenReads(base, t, kvs, AssetDescription);
    WrittenReads(base, t, kvs, ["description"]);
    WrittenReads(base, t, kvs, ["code"]);
    WrittenReads(base, t, kvs, ["status"]);
    GetPathOne(d, "description");
    GetPathOne(base, "description");
    GetPathOne(d, "code");
    GetPathOne(base, "code");
    GetPathOne(d, "status");
    GetPathOne(base, "status");
  }

  /** Every successful save keeps the common fields. */
  lemma {:induction false} SavedKeepsCommon(node: Json, nodeType: Option<string>, form: Form)
    requires Save(node, nodeType, form).Saved?
    ensures KeepsCommon(Save(node, nodeType, form).data, node, form)
  {
    FieldsDistinct(form);
    if nodeType == Some("facility") {
      TargetsApart(FacilityTarget(node));
      WrittenKeepsCommon(node, form, FacilityTarget(node), FacilityFields(form));
    } else if IsWorkstation(nodeType) {
      TargetsApart(DetailsTarget(node));
      WrittenKeepsCommon(node, form, DetailsTarget(node), DetailsFields(form));
    } else {
      SaveBaseTop(node, form);
      SaveBaseReads(node, form, AssetDescription);
    }
  }

  /** A load reads the code, the status and the description from the node,
      whatever its type. */
  lemma {:induction false} LoadFormCommon(d: Json, nodeType: Option<string>, current: Form)
    requires JTruthy(d)
    ensures var f := LoadForm(d, nodeType, current);
      f.code == OrEmpty(Get(d, "code"))
      && f.status == JOr(Get(d, "status"), JStr("active"))
      && f.description == JOr(Get(d, "description"), OrEmpty(GetPath(d, AssetDescription)))
  {
    var base := LoadBase(d);
    var f := LoadForm(d, nodeType, current);
    assert f == LoadFacility(d, base) || f == LoadDetails(d, base) || f == base;
  }

  /** A saved record reads back the code, the status and the description the
      form held; an empty description falls back to the asset's own, which
      the save leaves alone. */
  lemma {:induction false} CommonRoundTrip(node: Json, nodeType: Option<string>, form: Form, current: Form)
    requires Save(node, nodeType, form).Saved?
    ensures var f := LoadForm(Save(node, nodeType, form).data, nodeType, current);
      f.code == OrEmpty(form.code)
      && f.status == JOr(form.status, JStr("active"))
      && f.description == JOr(form.description, OrEmpty(GetPath(node, AssetDescription)))
  {
    var d := Save(node, nodeType, form).data;
    SavedKeepsCommon(node, nodeType, form);
    LoadFormCommon(d, nodeType, current);
  }

  /** What a save writes under its target: each field, in an object. */
  lemma {:induction false} WrittenFields(j: Json, p: seq<string>, kvs: seq<(string, Json)>)
    requires j.JObj? && |p| > 0 && |kvs| > 0 && DistinctKeys(kvs) && WriteAll(j, p, kvs).Some?
    ensures var c := GetPath(WriteAll(j, p, kvs).value, p);
      c.JObj? && forall i :: 0 <= i < |kvs| ==> Get(c, kvs[i].0) == kvs[i].1
  {
    var r := WriteAll(j, p, kvs).value;
    WriteAllShape(j, p, kvs, r);
    assert p[..|p|] == p;
    forall i | 0 <= i < |kvs|
      ensures Get(GetPath(r, p), kvs[i].0) == kvs[i].1
    {
      GetPathSnoc(r, p, kvs[i].0);
    }
  }

  /** After a facility save, the first truthy place the load searches is
      the one the fields were written to, and it holds them. */
  lemma {:induction false} SavedPlaceFound(node: Json, form: Form, d: Json)
    requires node.JObj? && WriteAll(SaveBase(node, form), FacilityTarget(node), FacilityFields(form)) == Some(d)
    ensures FacilityPlace(d) == Some(FacilityTarget(node))
    ensures var c := GetPath(d, FacilityTarget(node));
      Get(c, "city") == form.city && Get(c, "country") == form.country
  {
    var base := SaveBase(node, form);
    var t, kvs := FacilityTarget(node), FacilityFields(form);
    FieldsDistinct(form);
    WrittenFields(base, t, kvs);
    assert kvs[0] == ("city", form.city) && kvs[1] == ("country", form.country);
    // the places searched before the target read as they did in the node
    forall q | q in {AssetDemographics, Demographics, AssetLocation} && q != t && Diverges(t, q)
      ensures GetPath(d, q) == GetPath(node, q)
    {
      WrittenReads(base, t, kvs, q);
      SaveBaseReads(node, form, q);
    }
    assert Diverges(Demographics, AssetDemographics);
    assert Diverges(AssetLocation, AssetDemographics) && Diverges(AssetLocation, Demographics);
    assert Diverges(Location, AssetDemographics) && Diverges(Location, Demographics)
      && Diverges(Location, AssetLocation);
  }

  /** A facility's city and country are written to the place the form read
      them from, or to `parameters.specs.demographics` when there was none,
      and that is exactly where the next load finds them. */
  lemma {:induction false} FacilityRoundTrip(node: Json, form: Form, current: Form)
    requires Save(node, Some("facility"), form).Saved?
    ensures var d := Save(node, Some("facility"), form).data;
      FacilityPlace(d) == Some(FacilityTarget(node))
      && LoadForm(d, Some("facility"), current).city == OrEmpty(form.city)
      && LoadForm(d, Some("facility"), current).country == OrEmpty(form.country)
  {
    var d := Save(node, Some("facility"), form).data;
    assert WriteAll(SaveBase(node, form), FacilityTarget(node), FacilityFields(form)) == Some(d);
    SavedPlaceFound(node, form, d);
    assert LoadForm(d, Some("facility"), current) == LoadFacility(d, LoadBase(d));
  }

  /** The PLC fields of the form, as a container holds them after a save. */
  predicate HoldsDetails(c: Json, form: Form)
  {
    Get(c, "plc_name") == form.plcName && Get(c, "plc_ip_address") == form.plcIpAddress
    && Get(c, "plc_mac_address") == form.plcMacAddress
    && Get(c, "server_connection_attribute") == form.serverConnectionAttribute
    && Get(c, "all_plc_data_streamed_into_server") == YesNo(form.allPlcDataStreamed)
  }

  lemma {:induction false} DetailsWritten(c: Json, form: Form)
    requires forall i :: 0 <= i < |DetailsFields(form)| ==> Get(c, DetailsFields(form)[i].0) == DetailsFields(form)[i].1
    ensures HoldsDetails(c, form)
  {
    var kvs := DetailsFields(form);
    assert kvs[0] == ("plc_name", form.plcName) && kvs[1] == ("plc_ip_address", form.plcIpAddress);
    assert kvs[2] == ("plc_mac_address", form.plcMacAddress);
    assert kvs[3] == ("server_connection_attribute", form.serverConnectionAttribute);
    assert kvs[4] == ("all_plc_data_streamed_into_server", YesNo(form.allPlcDataStreamed));
  }

  /** A lower-cased "workstation" is not "facility". */
  lemma {:induction false} WorkstationNotFacility(nodeType: Option<string>)
    requires IsWorkstation(nodeType)
    ensures nodeType != Some("facility")
  {
    assert |ToLower(nodeType.value)| == |nodeType.value|;
  }

  /** A workstation loads its PLC fields from `DetailsOf`. */
  lemma {:induction false} LoadDetailsBack(d: Json, nodeType: Option<string>, current: Form, form: Form)
    requires IsWorkstation(nodeType) && JTruthy(d) && HoldsDetails(DetailsOf(d), form)
    ensures var f := LoadForm(d, nodeType, current);
      f.plcName == OrEmpty(form.plcName)
      && f.plcIpAddress == OrEmpty(form.plcIpAddress)
      && f.plcMacAddress == OrEmpty(form.plcMacAddress)
      && f.serverConnectionAttribute == OrEmpty(form.serverConnectionAttribute)
      && f.allPlcDataStreamed == form.allPlcDataStreamed
  {
    WorkstationNotFacility(nodeType);
    assert LoadForm(d, nodeType, current) == LoadDetails(d, LoadBase(d));
  }

  /** After a workstation save, `DetailsOf` finds the container the PLC
      fields were written to. */
  lemma {:induction false} SavedDetailsFound(node: Json, form: Form, d: Json)
    requires node.JObj? && WriteAll(SaveBase(node, form), DetailsTarget(node), DetailsFields(form)) == Some(d)
    ensures DetailsOf(d) == GetPath(d, DetailsTarget(node)) && HoldsDetails(DetailsOf(d), form)
  {
    var base, t, kvs := SaveBase(node, form), DetailsTarget(node), DetailsFields(form);
    FieldsDistinct(form);
    WrittenFields(base, t, kvs);
    DetailsWritten(GetPath(d, t), form);
    if t == AssetDetails {
      assert Diverges(AssetDetails, Details);
      WrittenReads(base, t, kvs, Details);
      SaveBaseReads(node, form, Details);
    }
  }

  /** A workstation's PLC fields are written to the node's own details when
      those are truthy, else to its asset's when those are, else to new
      `parameters.specs.details`; the next load reads them all back, and the
      streamed flag survives as "yes" or "no". */
  lemma {:induction false} WorkstationRoundTrip(node: Json, nodeType: Option<string>, form: Form, current: Form)
    requires IsWorkstation(nodeType) && Save(node, nodeType, form).Saved?
    ensures var f := LoadForm(Save(node, nodeType, form).data, nodeType, current);
      f.plcName == OrEmpty(form.plcName)
      && f.plcIpAddress == OrEmpty(form.plcIpAddress)
      && f.plcMacAddress == OrEmpty(form.plcMacAddress)
      && f.serverConnectionAttribute == OrEmpty(form.serverConnectionAttribute)
      && f.allPlcDataStreamed == form.allPlcDataStreamed
  {
    WorkstationNotFacility(nodeType);
    var d := Save(node, nodeType, form).data;
    assert WriteAll(SaveBase(node, form), DetailsTarget(node), DetailsFields(form)) == Some(d);
    SavedDetailsFound(node, form, d);
    LoadDetailsBack(d, nodeType, current, form);
  }

  /** Clearing the description does not stick when the asset has one: the
      next load shows the asset's description again. */
  lemma {:induction false} ClearedDescriptionReturns(node: Json, nodeType: Option<string>, form: Form, current: Form)
    requires Save(node, nodeType, form).Saved? && form.description == JStr("")
    requires JTruthy(GetPath(node, AssetDescription))
    ensures LoadForm(Save(node, nodeType, form).data, nodeType, current).description
            == GetPath(node, AssetDescription)
  {
    CommonRoundTrip(node, nodeType, form, current);
  }

  /** A facility save succeeds when the place it writes to, and each
      container above it, is an object or missing. */
  lemma {:induction false} FacilitySaveSucceeds(node: Json, form: Form)
    requires node.JObj? && JTruthy(Get(node, "id"))
    requires forall i :: 1 <= i <= |FacilityTarget(node)| ==> Slot(GetPath(node, FacilityTarget(node)[..i]))
    ensures Save(node, Some("facility"), form).Saved?
  {
    var t := FacilityTarget(node);
    forall i | 1 <= i <= |t|
      ensures Slot(GetPath(SaveBase(node, form), t[..i]))
    {
      SaveBaseReads(node, form, t[..i]);
    }
    WriteAllSucceeds(SaveBase(node, form), t, FacilityFields(form));
  }

  /** A facility with no city or country anywhere, and no `parameters` or
      `parameters.specs` in the way, gets a new
      `parameters.specs.demographics` holding them. */
  lemma {:induction false} FacilityCreatesDemographics(node: Json, form: Form)
    requires node.JObj? && JTruthy(Get(node, "id")) && FacilityPlace(node) == None
    requires Slot(Get(node, "parameters")) && Slot(GetPath(node, ["parameters", "specs"]))
    ensures Save(node, Some("facility"), form).Saved?
    ensures var c := GetPath(Save(node, Some("facility"), form).data, Demographics);
      c.JObj? && Get(c, "city") == form.city && Get(c, "country") == form.country
  {
    var t := Demographics;
    assert t[..1] == ["parameters"] && t[..2] == ["parameters", "specs"] && t[..3] == t;
    GetPathOne(node, "parameters");
    FacilitySaveSucceeds(node, form);
    WrittenFields(SaveBase(node, form), t, FacilityFields(form));
  }

  /** A node whose `parameters` are those of a new workstation keeps its PLC
      details at `parameters.specs.details`. */
  lemma {:induction false} NewDetailsFound(record: map<string, Json>, form: map<string, Json>)
    ensures DetailsOf(JObj(record["parameters" := AddNodeModal.WorkstationParameters(form)]))
            == AddNodeModal.PlcDetails(form)
  {
    var params := AddNodeModal.WorkstationParameters(form);
    var node := JObj(record["parameters" := params]);
    AddNodeModal.WorkstationDetails(form);
    assert Details[1..] == ["specs", "details"] && Details[1..][1..] == ["details"];
    assert GetPath(node, Details) == GetPath(params, ["specs", "details"]);
    GetPathOne(Get(params, "specs"), "details");
  }

  /** A workstation created by the add-node dialog opens in the panel with
      the PLC details and the streamed flag the dialog was given. */
  lemma {:induction false} NewWorkstationLoads(record: map<string, Json>, form: map<string, Json>,
                            nodeType: Option<string>, current: Form)
    requires IsWorkstation(nodeType)
    ensures var node := JObj(record["parameters" := AddNodeModal.WorkstationParameters(form)]);
      var f := LoadForm(node, nodeType, current);
      f.plcName == OrEmpty(AddNodeModal.Field(form, "plcName"))
      && f.allPlcDataStreamed == JTruthy(AddNodeModal.Field(form, "allPlcDataStreamed"))
  {
    WorkstationNotFacility(nodeType);
    var node := JObj(record["parameters" := AddNodeModal.WorkstationParameters(form)]);
    AddNodeModal.WorkstationDetails(form);
    NewDetailsFound(record, form);
    assert LoadForm(node, nodeType, current) == LoadDetails(node, LoadBase(node));
  }

  // ---------------------------------------------------------------------
  // The panel's own state
  // ---------------------------------------------------------------------

  datatype Section = BasicInfo | LocationInfo | PlcInfo | ConnectionInfo

  /** The panel's collapsible sections, its add-node dialog and its form. */
  class NodeDetailsPanelState {
    var basicInfo: bool
    var locationInfo: bool
    var plcInfo: bool
    var connectionInfo: bool
    var addModalOpen: bool
    var addNodeType: string
    var form: Form

    /** All sections start open, the dialog closed, and the form blank. */
    constructor ()
      ensures basicInfo && locationInfo && plcInfo && connectionInfo
      ensures !addModalOpen && addNodeType == "area"
      ensures form == BlankForm(JStr(""), JStr(""), JStr("active"))
    {
      basicInfo, locationInfo, plcInfo, connectionInfo := true, true, true, true;
      addModalOpen, addNodeType := false, "area";
      form := BlankForm(JStr(""), JStr(""), JStr("active"));
    }

    function IsOpen(s: Section): bool
      reads this
    {
      match s
      case BasicInfo => basicInfo
      case LocationInfo => locationInfo
      case PlcInfo => plcInfo
      case ConnectionInfo => connectionInfo
    }

    /** `toggleSection`: flips the named section and nothing else. */
    method ToggleSection(s: Section)
      modifies this
      ensures IsOpen(s) == !old(IsOpen(s))
      ensures forall t :: t != s ==> IsOpen(t) == old(IsOpen(t))
      ensures addModalOpen == old(addModalOpen) && addNodeType == old(addNodeType) && form == old(form)
    {
      match s
      case BasicInfo => basicInfo := !basicInfo;
      case LocationInfo => locationInfo := !locationInfo;
      case PlcInfo => plcInfo := !plcInfo;
      case ConnectionInfo => connectionInfo := !connectionInfo;
    }

    /** Clicking an action button opens the add-node dialog for its type. */
    method ClickAction(b: ActionButton)
      modifies this
      ensures addModalOpen && addNodeType == b.addType
      ensures forall t :: IsOpen(t) == old(IsOpen(t))
      ensures form == old(form)
    {
      addNodeType := b.addType;
      addModalOpen := true;
    }

    /** The effect that runs when the node or its type changes. */
    method NodeChanged(node: Json, nodeType: Option<string>)
      modifies this
      ensures form == LoadForm(node, nodeType, old(form))
      ensures basicInfo == old(basicInfo) && locationInfo == old(locationInfo)
      ensures plcInfo == old(plcInfo) && connectionInfo == old(connectionInfo)
      ensures addModalOpen == old(addModalOpen) && addNodeType == old(addNodeType)
    {
      form := LoadForm(node, nodeType, form);
    }
  }
}
