/** The parameter-row editor of the data-attribute mapping screen
    (app/masters/factory/map-data-attributes.tsx): a list of rows that can
    grow by inserting an empty row after a position, shrink by deleting a
    row (never below one), and be edited field by field. */
module MapDataAttributes {
  import opened Js

  /** A limit value: text as typed, or the number `Number.parseFloat` reads
      from the text `source`. */
  datatype LimitValue = Text(s: string) | Number(source: string)

  /** A parameter row. `extra` holds any other top-level field an edit sets. */
  datatype Row = Row(id: string, parameter: string, model_no: string,
                     limits: map<string, LimitValue>, extra: map<string, string>)

  function EmptyRow(id: string): Row
  {
    Row(id, "", "", map[], map[])
  }

  /** Where `Array.prototype.splice` starts for `start` on a list of length
      `len`: a negative start counts from the end, and the result is
      clamped to `0..len`. */
  function SpliceStart(start: int, len: nat): (r: nat)
    ensures r <= len
    ensures 0 <= start <= len ==> r == start
    ensures start > len ==> r == len
    ensures start < 0 ==> r == if len + start < 0 then 0 else len + start
  {
    if start < 0 then (if len + start < 0 then 0 else len + start)
    else if start > len then len
    else start
  }

  /** `splice(k, 0, row)` */
  function InsertAt(s: seq<Row>, k: nat, row: Row): (r: seq<Row>)
    requires k <= |s|
    ensures |r| == |s| + 1 && r[k] == row && r[..k] == s[..k] && r[k + 1..] == s[k..]
  {
    s[..k] + [row] + s[k..]
  }

  /** `splice(k, 1)`: removes the row at k, or nothing when k is the length. */
  function RemoveAt(s: seq<Row>, k: nat): (r: seq<Row>)
    requires k <= |s|
    ensures k < |s| ==> |r| == |s| - 1 && r[..k] == s[..k] && r[k..] == s[k + 1..]
    ensures k == |s| ==> r == s
  {
    if k == |s| then s else s[..k] + s[k + 1..]
  }

  /** `handleInsert(position)` on the rows `s`. */
  function Inserted(s: seq<Row>, position: int, freshId: string): seq<Row>
  {
    InsertAt(s, SpliceStart(position + 1, |s|), EmptyRow(freshId))
  }

  /** `handleDelete(position)` on the rows `s`. */
  function Deleted(s: seq<Row>, position: int): seq<Row>
  {
    if |s| <= 1 then s else RemoveAt(s, SpliceStart(position, |s|))
  }

  /** Inserting after a row of the list puts the fresh empty row right after
      it and keeps every other row in order; past the end it appends; on an
      empty list it gives the single fresh row. */
  lemma {:induction false} InsertedShape(s: seq<Row>, position: int, freshId: string)
    ensures var r := Inserted(s, position, freshId);
      && |r| == |s| + 1
      && (0 <= position < |s| ==> r == s[..position + 1] + [EmptyRow(freshId)] + s[position + 1..])
      && (position >= |s| ==> r == s + [EmptyRow(freshId)])
      && (s == [] ==> r == [EmptyRow(freshId)])
  {
    var r := Inserted(s, position, freshId);
    if position >= |s| {
      assert r == s[..|s|] + [EmptyRow(freshId)] + s[|s|..];
      assert s[..|s|] == s && s[|s|..] == [];
    }
  }

  /** Deleting never empties a non-empty list; a list of one row is left as
      it is; otherwise the row at the position goes and the others keep
      their order; a position past the end changes nothing, and a negative
      one counts from the end, as `splice` does. */
  lemma {:induction false} DeletedShape(s: seq<Row>, position: int)
    ensures var r := Deleted(s, position);
      && (|s| >= 1 ==> |r| >= 1)
      && (|s| <= 1 ==> r == s)
      && (|s| > 1 && 0 <= position < |s| ==> r == s[..position] + s[position + 1..])
      && (|s| > 1 && position >= |s| ==> r == s)
      && (|s| > 1 && -|s| <= position < 0 ==> r == s[..|s| + position] + s[|s| + position + 1..])
  {
  }

  // ---------------------------------------------------------------------
  // Editing one field
  // ---------------------------------------------------------------------

  /** The limit key an input named "limits.K" edits (`name.split(".")[1]`). */
  function LimitKey(name: string): string
    requires StartsWith(name, "limits.")
  {
    BeforeFirst(name[7..], '.')
  }

  /** The value stored for a limit: LCL and HCL inputs are read as numbers
      when `Number.parseFloat` gives a non-zero number (`numeric`), and kept
      as text otherwise. */
  function LimitValueOf(name: string, value: string, numeric: string -> bool): LimitValue
  {
    if (Includes(name, "LCL") || Includes(name, "HCL")) && numeric(value) then Number(value) else Text(value)
  }

  /** One row after an edit of field `name` to `value`. */
  function UpdateRow(row: Row, name: string, value: string, numeric: string -> bool): (r: Row)
    ensures StartsWith(name, "limits.") ==>
      && r == row.(limits := row.limits[LimitKey(name) := LimitValueOf(name, value, numeric)])
      && (forall k :: k != LimitKey(name) ==> (k in r.limits <==> k in row.limits))
      && (forall k :: k in row.limits && k != LimitKey(name) ==> r.limits[k] == row.limits[k])
    ensures !StartsWith(name, "limits.") ==> r.limits == row.limits
  {
    if StartsWith(name, "limits.") then row.(limits := row.limits[LimitKey(name) := LimitValueOf(name, value, numeric)])
    else if name == "id" then row.(id := value)
    else if name == "parameter" then row.(parameter := value)
    else if name == "model_no" then row.(model_no := value)
    else row.(extra := row.extra[name := value])
  }

  /** `handleUpdate`: every row with the id is edited, every other row is
      kept; the length and the order do not change. */
  function UpdateRows(rows: seq<Row>, id: string, name: string, value: string, numeric: string -> bool): (r: seq<Row>)
    ensures |r| == |rows|
    ensures forall i :: 0 <= i < |rows| ==> r[i] == if rows[i].id == id then UpdateRow(rows[i], name, value, numeric) else rows[i]
  {
    if rows == [] then []
    else [if rows[0].id == id then UpdateRow(rows[0], name, value, numeric) else rows[0]]
         + UpdateRows(rows[1..], id, name, value, numeric)
  }

  /** A top-level edit sets exactly the named field and leaves the others. */
  lemma {:induction false} TopLevelEdit(row: Row, name: string, value: string, numeric: string -> bool)
    requires !StartsWith(name, "limits.")
    ensures var r := UpdateRow(row, name, value, numeric);
      && (name == "parameter" ==> r == row.(parameter := value))
      && (name == "model_no" ==> r == row.(model_no := value))
      && (name == "id" ==> r == row.(id := value))
      && (name !in {"id", "parameter", "model_no"} ==> r == row.(extra := row.extra[name := value]))
  {
  }

  /** An edit of a limit field of "limits.CPP" on a row stores the text under
      "CPP" and nothing else. */
  lemma {:induction false} CppEdit(row: Row, value: string, numeric: string -> bool)
    ensures UpdateRow(row, "limits.CPP", value, numeric) == row.(limits := row.limits["CPP" := Text(value)])
  {
    CppKey("limits.CPP");
    CppIsText("limits.CPP", value, numeric);
  }

  /** "limits.CPP" edits the limit "CPP". */
  lemma {:induction false} CppKey(name: string)
    requires name == "limits.CPP"
    ensures StartsWith(name, "limits.") && LimitKey(name) == "CPP"
  {
    assert name[..7] == "limits.";
    assert name[7..] == "CPP";
    assert BeforeFirst("CPP", '.') == "CPP";
  }

  /** "limits.CPP" names neither an LCL nor an HCL, so its value stays text. */
  lemma {:induction false} CppIsText(name: string, value: string, numeric: string -> bool)
    requires name == "limits.CPP"
    ensures LimitValueOf(name, value, numeric) == Text(value)
  {
    NotIncludedWithoutHead(name, "LCL");
    NotIncludedWithoutHead(name, "HCL");
  }

  /** A text whose first character does not occur in s is not included in s. */
  lemma {:induction false} NotIncludedWithoutHead(s: string, sub: string)
    requires sub != [] && sub[0] !in s
    ensures !Includes(s, sub)
    decreases |s|
  {
    if s != [] {
      assert forall c :: c in s[1..] ==> c in s;
      NotIncludedWithoutHead(s[1..], sub);
    }
  }

  // ---------------------------------------------------------------------
  // The component state
  // ---------------------------------------------------------------------

  /** The sample rows the screen loads; their ids are fresh uuids. */
  function SampleRows(ids: seq<string>): seq<Row>
    requires |ids| == 9
  {
    var names := ["Axial_play_for_ESA", "Axial_play_for_ESG", "Flap_Screw1_Angle", "Flap_screw1_tightening_torque",
                  "Flap_Screw1_Torque", "Flap_Screw2_Angle", "Flap_Screw2_Result", "Flap_screw2_tightening_torque",
                  "Gap_Adjust_Result"];
    seq(9, i requires 0 <= i < 9 =>
      Row(ids[i], names[i], "7.07155.07.9", if i == 8 then map["Low-LCL" := Number("0.140000001")] else map[], map[]))
  }

  class ParameterEditor {
    var parameters: seq<Row>

    constructor ()
      ensures parameters == []
    {
      parameters := [];
    }

    /** The mount effect: one empty row when there are none, then the sample
        rows (both state updates land in the same render, the second wins). */
    method Mount(freshId: string, sampleIds: seq<string>)
      requires |sampleIds| == 9
      modifies this
      ensures parameters == SampleRows(sampleIds)
    {
      if |parameters| == 0 {
        HandleInsert(0, freshId);
      }
      parameters := SampleRows(sampleIds);
    }

    method HandleInsert(position: int, freshId: string)
      modifies this
      ensures parameters == Inserted(old(parameters), position, freshId)
    {
      var updated := parameters;
      var k := SpliceStart(position + 1, |updated|);
      updated := updated[..k] + [EmptyRow(freshId)] + updated[k..];
      parameters := updated;
    }

    method HandleDelete(position: int)
      modifies this
      ensures parameters == Deleted(old(parameters), position)
      ensures |old(parameters)| >= 1 ==> |parameters| >= 1
    {
      if |parameters| <= 1 {
        return;
      }
      var updated := parameters;
      var k := SpliceStart(position, |updated|);
      if k < |updated| {
        updated := updated[..k] + updated[k + 1..];
      }
      parameters := updated;
      DeletedShape(old(parameters), position);
    }

    method HandleUpdate(id: string, name: string, value: string, numeric: string -> bool)
      modifies this
      ensures parameters == UpdateRows(old(parameters), id, name, value, numeric)
    {
      parameters := UpdateRows(parameters, id, name, value, numeric);
    }
  }
}
