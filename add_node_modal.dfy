/** The add-node dialog (app/masters/factory/add-node-modal.tsx): its title,
    its form state with the fixed defaults, and the record it submits for a
    new child node. The generated asset id and the current time are
    parameters. */
module AddNodeModal {
  import opened Js
  import NodeLegend

  // ---------------------------------------------------------------------
  // The title
  // ---------------------------------------------------------------------

  /** `getNodeTypeTitle`. */
  function NodeTypeTitle(nodeType: string): string
  {
    match nodeType
    case "area" => "Add Area"
    case "line" => "Add Line"
    case "workstation" => "Add Workstation"
    case "mini_factory" => "Add Mini Factory"
    case _ => "Add Node"
  }

  /** The four child types are titled "Add " and their legend label. */
  lemma {:induction false} TitleFromLegend(t: string)
    requires t == "area" || t == "line" || t == "workstation" || t == "mini_factory"
    ensures NodeTypeTitle(t) == "Add " + NodeLegend.Label(t)
  {
    if t == "area" {
      AreaTitle(t);
    } else if t == "line" {
      LineTitle(t);
    } else if t == "workstation" {
      WorkstationTitle(t);
    } else {
      MiniFactoryTitle(t);
    }
  }

  /** The four titles, each "Add " and a label. */
  lemma {:induction false} TitleSpelled(word: string, title: string)
    requires (word == "Area" && title == "Add Area") || (word == "Line" && title == "Add Line")
      || (word == "Workstation" && title == "Add Workstation")
      || (word == "Mini Factory" && title == "Add Mini Factory")
    ensures title == "Add " + word
  {
  }

  lemma {:induction false} AreaTitle(t: string)
    requires t == "area"
    ensures NodeTypeTitle(t) == "Add " + NodeLegend.Label(t)
  {
    NodeLegend.AreaLabel(t);
    TitleSpelled("Area", NodeTypeTitle(t));
  }

  lemma {:induction false} LineTitle(t: string)
    requires t == "line"
    ensures NodeTypeTitle(t) == "Add " + NodeLegend.Label(t)
  {
    NodeLegend.LineLabel(t);
    TitleSpelled("Line", NodeTypeTitle(t));
  }

  lemma {:induction false} WorkstationTitle(t: string)
    requires t == "workstation"
    ensures NodeTypeTitle(t) == "Add " + NodeLegend.Label(t)
  {
    NodeLegend.WorkstationLabel(t);
    TitleSpelled("Workstation", NodeTypeTitle(t));
  }

  lemma {:induction false} MiniFactoryTitle(t: string)
    requires t == "mini_factory"
    ensures NodeTypeTitle(t) == "Add " + NodeLegend.Label(t)
  {
    NodeLegend.MiniFactoryLabel(t);
    TitleSpelled("Mini Factory", NodeTypeTitle(t));
  }

  /** Any other type, including "facility", gets the generic title. */
  lemma {:induction false} GenericTitle(t: string)
    requires t !in {"area", "line", "workstation", "mini_factory"}
    ensures NodeTypeTitle(t) == "Add Node"
  {
  }

  // ---------------------------------------------------------------------
  // The form
  // ---------------------------------------------------------------------

  /** The form state both at mount and after every reset. */
  function Defaults(): map<string, Json>
  {
    map[
      "name" := JStr(""), "description" := JStr(""), "code" := JStr(""),
      "status" := JStr("active"), "city" := JStr(""), "country" := JStr(""),
      "plcName" := JStr(""), "plcIpAddress" := JStr(""), "plcMacAddress" := JStr(""),
      "serverConnectionAttribute" := JStr(""), "allPlcDataStreamed" := JBool(true),
      "shift1StartTime" := JStr("00:00:00"), "shift1EndTime" := JStr("07:59:59"),
      "shift1Target" := JStr("500"),
      "shift2StartTime" := JStr("08:00:00"), "shift2EndTime" := JStr("15:59:59"),
      "shift2Target" := JStr("500"),
      "shift3StartTime" := JStr("16:00:00"), "shift3EndTime" := JStr("23:59:59"),
      "shift3Target" := JStr("500")]
  }

  function DigitValue(c: char): Option<nat>
  {
    if '0' <= c <= '9' then Some(c as int - '0' as int) else None
  }

  /** Seconds since midnight of an "HH:MM:SS" time, or None when `s` does not
      have that form. */
  function Clock(s: string): (r: Option<nat>)
    ensures r.Some? ==> |s| == 8
  {
    if |s| != 8 || s[2] != ':' || s[5] != ':' then None
    else
      var ds := [DigitValue(s[0]), DigitValue(s[1]), DigitValue(s[3]),
                 DigitValue(s[4]), DigitValue(s[6]), DigitValue(s[7])];
      if exists i :: 0 <= i < 6 && ds[i].None? then None
      else
        Some((ds[0].value * 10 + ds[1].value) * 3600 + (ds[2].value * 10 + ds[3].value) * 60
             + ds[4].value * 10 + ds[5].value)
  }

  /** The default shifts cover the whole day, back to back: each starts one
      second after the previous one ends. */
  lemma {:induction false} DefaultShiftsTileTheDay()
    ensures Clock("00:00:00") == Some(0)
    ensures Clock("07:59:59") == Some(8 * 3600 - 1) && Clock("08:00:00") == Some(8 * 3600)
    ensures Clock("15:59:59") == Some(16 * 3600 - 1) && Clock("16:00:00") == Some(16 * 3600)
    ensures Clock("23:59:59") == Some(24 * 3600 - 1)
  {
  }

  /** A checkbox change stores its `checked` flag; any other input its
      text. */
  function InputValue(value: string, inputType: string, checked: bool): (v: Json)
    ensures inputType == "checkbox" ==> v == JBool(checked)
    ensures inputType != "checkbox" ==> v == JStr(value)
  {
    if inputType == "checkbox" then JBool(checked) else JStr(value)
  }

  /** The dialog's form state. */
  class AddNodeForm {
    var fields: map<string, Json>

    constructor ()
      ensures fields == Defaults()
    {
      fields := Defaults();
    }

    /** The effect that runs when the node type changes or the dialog
        opens. */
    method Reset()
      modifies this
      ensures fields == Defaults()
    {
      fields := Defaults();
    }

    /** `handleInputChange`: only the named field changes. */
    method InputChange(name: string, value: string, inputType: string, checked: bool)
      modifies this
      ensures fields == old(fields)[name := InputValue(value, inputType, checked)]
      ensures forall k :: k in old(fields) && k != name ==> k in fields && fields[k] == old(fields)[k]
    {
      fields := fields[name := InputValue(value, inputType, checked)];
    }

    /** `handleStatusChange` */
    method StatusChange(value: string)
      modifies this
      ensures fields == old(fields)["status" := JStr(value)]
    {
      fields := fields["status" := JStr(value)];
    }
  }

  // ---------------------------------------------------------------------
  // The submitted record
  // ---------------------------------------------------------------------

  /** `formData.<name>`: a field the form holds, or undefined. */
  function Field(form: map<string, Json>, name: string): Json
  {
    if name in form then form[name] else JUndefined
  }

  /** The common part of every new record. `now` is the ISO timestamp that
      `new Date().toISOString()` produces. */
  function BaseRecord(form: map<string, Json>, nodeType: string, parentId: string,
                      assetId: string, now: string): map<string, Json>
  {
    map[
      "asset_id" := JStr(assetId),
      "name" := Field(form, "name"),
      "description" := Field(form, "description"),
      "code" := Field(form, "code"),
      "status" := Field(form, "status"),
      "type" := JStr(nodeType),
      "parent_id" := JStr(parentId),
      "created_by" := JStr("user123"),
      "created_timestamp" := JStr(now),
      "updated_by" := JStr("user123"),
      "updated_timestamp" := JStr(now),
      "approved_by" := JStr("admin"),
      "approved_timestamp" := JStr(now),
      "eff_date_from" := JStr(BeforeFirst(now, 'T')),
      "eff_date_to" := JStr("9999-12-31"),
      "parameters" := JObj(map[])]
  }

  function YesNo(b: bool): Json
  {
    JStr(if b then "yes" else "no")
  }

  /** One shift of a new workstation, from the three form fields named. */
  function Shift(form: map<string, Json>, start: string, end: string, target: string): Json
  {
    JObj(map[
      "start_time" := Field(form, start),
      "end_time" := Field(form, end),
      "target" := Field(form, target)])
  }

  /** The PLC details of a new workstation. */
  function PlcDetails(form: map<string, Json>): Json
  {
    JObj(map[
      "plc_name" := Field(form, "plcName"),
      "plc_ip_address" := Field(form, "plcIpAddress"),
      "plc_mac_address" := Field(form, "plcMacAddress"),
      "server_connection_attribute" := Field(form, "serverConnectionAttribute"),
      "all_plc_data_streamed_into_server" := YesNo(JTruthy(Field(form, "allPlcDataStreamed")))])
  }

  /** The three shifts of a new workstation. */
  function Shifts(form: map<string, Json>): Json
  {
    JObj(map[
      "Shift 1" := Shift(form, "shift1StartTime", "shift1EndTime", "shift1Target"),
      "Shift 2" := Shift(form, "shift2StartTime", "shift2EndTime", "shift2Target"),
      "Shift 3" := Shift(form, "shift3StartTime", "shift3EndTime", "shift3Target")])
  }

  /** The parameters of a new workstation: its PLC details and its three
      shifts. */
  function WorkstationParameters(form: map<string, Json>): Json
  {
    JObj(map["specs" := JObj(map["details" := PlcDetails(form)]), "shift" := Shifts(form)])
  }

  /** The record `handleSubmit` builds before posting it: the base record,
      whose `parameters` are then replaced for a workstation. */
  method BuildNodeData(form: map<string, Json>, nodeType: string, parentId: string,
                       assetId: string, now: string) returns (nodeData: Json)
    ensures nodeData.JObj?
    ensures nodeType != "workstation" ==>
      nodeData.fields == BaseRecord(form, nodeType, parentId, assetId, now)
    ensures nodeType == "workstation" ==>
      nodeData.fields == BaseRecord(form, nodeType, parentId, assetId, now)["parameters" := WorkstationParameters(form)]
  {
    nodeData := JObj(BaseRecord(form, nodeType, parentId, assetId, now));
    if nodeType == "workstation" {
      nodeData := JObj(nodeData.fields["parameters" := WorkstationParameters(form)]);
    }
  }

  /** What the record promises about where the new node goes: the
      requested type and parent, the generated id, an open-ended validity,
      and empty parameters (which a workstation then replaces). */
  lemma {:induction false} RecordPlacement(form: map<string, Json>, nodeType: string, parentId: string,
                                           assetId: string, now: string)
    ensures var r := BaseRecord(form, nodeType, parentId, assetId, now);
      r["type"] == JStr(nodeType) && r["parent_id"] == JStr(parentId)
      && r["asset_id"] == JStr(assetId) && r["eff_date_to"] == JStr("9999-12-31")
      && r["parameters"] == JObj(map[])
  {
  }

  /** The record carries the form's name, description, code and status. */
  lemma {:induction false} RecordFields(form: map<string, Json>, nodeType: string, parentId: string,
                                        assetId: string, now: string)
    ensures var r := BaseRecord(form, nodeType, parentId, assetId, now);
      r["name"] == Field(form, "name") && r["description"] == Field(form, "description")
      && r["code"] == Field(form, "code") && r["status"] == Field(form, "status")
  {
  }

  /** A new workstation's details carry the four PLC fields from the form
      and the streamed flag as "yes" or "no" by its truthiness. */
  lemma {:induction false} WorkstationDetails(form: map<string, Json>)
    ensures var d := Get(Get(WorkstationParameters(form), "specs"), "details");
      d == PlcDetails(form)
      && Get(d, "plc_name") == Field(form, "plcName")
      && Get(d, "plc_ip_address") == Field(form, "plcIpAddress")
      && Get(d, "plc_mac_address") == Field(form, "plcMacAddress")
      && Get(d, "server_connection_attribute") == Field(form, "serverConnectionAttribute")
      && (Get(d, "all_plc_data_streamed_into_server") == JStr("yes") <==> JTruthy(Field(form, "allPlcDataStreamed")))
      && (Get(d, "all_plc_data_streamed_into_server") == JStr("no") <==> !JTruthy(Field(form, "allPlcDataStreamed")))
  {
  }

  /** A new workstation has exactly three shifts, the n-th taken from the
      form's `shift<n>` fields. */
  lemma {:induction false} WorkstationShifts(form: map<string, Json>)
    ensures var sh := Get(WorkstationParameters(form), "shift");
      sh.JObj? && sh.fields.Keys == {"Shift 1", "Shift 2", "Shift 3"}
      && Get(sh, "Shift 1") == Shift(form, "shift1StartTime", "shift1EndTime", "shift1Target")
      && Get(sh, "Shift 2") == Shift(form, "shift2StartTime", "shift2EndTime", "shift2Target")
      && Get(sh, "Shift 3") == Shift(form, "shift3StartTime", "shift3EndTime", "shift3Target")
  {
  }

  /** The default form has the streamed box ticked. */
  lemma {:induction false} DefaultsStreamed()
    ensures Field(Defaults(), "allPlcDataStreamed") == JBool(true)
  {
  }

  /** The streamed flag of a new workstation, read along its path. */
  lemma {:induction false} StreamedPath(form: map<string, Json>)
    ensures GetPath(WorkstationParameters(form), ["specs", "details", "all_plc_data_streamed_into_server"])
            == YesNo(JTruthy(Field(form, "allPlcDataStreamed")))
  {
    var p := ["specs", "details", "all_plc_data_streamed_into_server"];
    assert p[1..] == ["details", "all_plc_data_streamed_into_server"];
    assert p[1..][1..] == ["all_plc_data_streamed_into_server"];
    assert p[1..][1..][1..] == [];
  }

  /** With the default form, a new workstation streams all PLC data. */
  lemma {:induction false} DefaultWorkstation()
    ensures GetPath(WorkstationParameters(Defaults()),
                    ["specs", "details", "all_plc_data_streamed_into_server"]) == JStr("yes")
  {
    DefaultsStreamed();
    StreamedPath(Defaults());
  }
}
