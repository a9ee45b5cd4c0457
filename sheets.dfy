/**
 * Spreadsheet requests and replies (sheet.go): the path each operation
 * addresses under a spreadsheet token, the `{"values": …}` body of writes
 * and appends, the one-request bodies of `sheets_batch_update`, the shapes
 * the replies decode to, and how `AddSheet` picks the new sheet's id.
 */
module Sheets {
  import opened Wire
  import opened Errors
  import opened Dispatch

  const SpreadsheetsPath := "/sheets/v3/spreadsheets/"
  const DimensionTypeRow := "ROW"
  const DimensionTypeColumn := "COLUMN"

  function MetainfoPath(sheetToken: string): (p: string)
    ensures SpreadsheetsPath + sheetToken + "/" <= p
    ensures EndsWith(p, "/metainfo")
  {
    SpreadsheetsPath + sheetToken + "/metainfo"
  }

  function ValuesPath(sheetToken: string, range: string): (p: string)
    ensures SpreadsheetsPath + sheetToken + "/" <= p
    ensures EndsWith(p, "/values/" + range)
  {
    SpreadsheetsPath + sheetToken + "/values/" + range
  }

  function AppendPath(sheetToken: string, range: string): (p: string)
    ensures SpreadsheetsPath + sheetToken + "/" <= p
    ensures ValuesPath(sheetToken, range) <= p && |p| == |ValuesPath(sheetToken, range)| + 7
  {
    ValuesPath(sheetToken, range) + ":append"
  }

  function ClearPath(sheetToken: string, range: string): (p: string)
    ensures SpreadsheetsPath + sheetToken + "/" <= p
    ensures ValuesPath(sheetToken, range) <= p && |p| == |ValuesPath(sheetToken, range)| + 6
  {
    ValuesPath(sheetToken, range) + ":clear"
  }

  function BatchUpdatePath(sheetToken: string): (p: string)
    ensures SpreadsheetsPath + sheetToken + "/" <= p
    ensures EndsWith(p, "/sheets_batch_update")
  {
    SpreadsheetsPath + sheetToken + "/sheets_batch_update"
  }

  function SheetsQueryPath(sheetToken: string): (p: string)
    ensures SpreadsheetsPath + sheetToken + "/" <= p
    ensures EndsWith(p, "/sheets/query")
  {
    SpreadsheetsPath + sheetToken + "/sheets/query"
  }

  /** A `[][]interface{}` grid of cell values as JSON, rows in order. */
  function Grid(values: seq<seq<Json>>): (j: Json)
    ensures j.Arr? && |j.items| == |values|
    ensures forall i :: 0 <= i < |values| ==> j.items[i] == Arr(values[i])
  {
    Arr(seq(|values|, i requires 0 <= i < |values| => Arr(values[i])))
  }

  function ValuesBody(values: seq<seq<Json>>): Json
  {
    Obj(map["values" := Grid(values)])
  }

  /** What a reader of a values body gets back: the grid, row by row. */
  function GridOf(body: Json): Option<seq<seq<Json>>>
  {
    if body.Obj? && "values" in body.fields && body.fields["values"].Arr? then
      var rows := body.fields["values"].items;
      if forall i :: 0 <= i < |rows| ==> rows[i].Arr? then
        Some(seq(|rows|, i requires 0 <= i < |rows| && rows[i].Arr? => rows[i].items))
      else None
    else None
  }

  /** The values a write or append sends are the caller's, unchanged. */
  lemma ValuesRoundTrip(values: seq<seq<Json>>)
    ensures GridOf(ValuesBody(values)) == Some(values)
  {
    var rows := ValuesBody(values).fields["values"].items;
    assert forall i :: 0 <= i < |rows| ==> rows[i] == Arr(values[i]);
    var g := GridOf(ValuesBody(values));
    assert g.Some?;
    assert |g.value| == |values|;
    assert forall i :: 0 <= i < |values| ==> g.value[i] == rows[i].items == values[i];
    assert g.value == values;
  }

  function GetCall(sheetToken: string): Call
  {
    Call("GET", MetainfoPath(sheetToken), None)
  }

  function ReadRangeCall(sheetToken: string, range: string): Call
  {
    Call("GET", ValuesPath(sheetToken, range), None)
  }

  function WriteRangeCall(sheetToken: string, range: string, values: seq<seq<Json>>): Call
  {
    Call("PUT", ValuesPath(sheetToken, range), Some(ValuesBody(values)))
  }

  function AppendRangeCall(sheetToken: string, range: string, values: seq<seq<Json>>): Call
  {
    Call("POST", AppendPath(sheetToken, range), Some(ValuesBody(values)))
  }

  function ClearRangeCall(sheetToken: string, range: string): Call
  {
    Call("POST", ClearPath(sheetToken, range), None)
  }

  function GetSheetsCall(sheetToken: string): Call
  {
    Call("GET", SheetsQueryPath(sheetToken), None)
  }

  /** The single request a batch update carries. `style` is the encoded
      `*CellStyle`; the dimension is forwarded as given. */
  datatype BatchOp =
    | AddSheet(title: string)
    | DeleteSheet(sheetId: string)
    | UpdateCells(sheetId: string, range: string, style: Json)
    | MergeCells(sheetId: string, range: string)
    | UpdateDimension(sheetId: string, dimension: string, startIndex: int, endIndex: int, pixelSize: int)

  function OpName(op: BatchOp): string
  {
    match op
    case AddSheet(_) => "addSheet"
    case DeleteSheet(_) => "deleteSheet"
    case UpdateCells(_, _, _) => "updateCells"
    case MergeCells(_, _) => "mergeCells"
    case UpdateDimension(_, _, _, _, _) => "updateDimensionProperties"
  }

  function SheetRange(sheetId: string, range: string): Json
  {
    Obj(map["sheetId" := Str(sheetId), "range" := Str(range)])
  }

  function OpJson(op: BatchOp): (j: Json)
    ensures j.Obj?
    ensures op.AddSheet? ==> j.fields.Keys == {"properties"}
    ensures op.DeleteSheet? ==> j.fields.Keys == {"sheetId"}
    ensures op.UpdateCells? ==> j.fields.Keys == {"range", "style"} && j.fields["style"] == op.style
    ensures op.MergeCells? ==> j.fields.Keys == {"range"}
    ensures op.UpdateDimension? ==> j.fields.Keys == {"range", "properties", "fields"}
  {
    match op
    case AddSheet(title) => Obj(map["properties" := Obj(map["title" := Str(title)])])
    case DeleteSheet(id) => Obj(map["sheetId" := Str(id)])
    case UpdateCells(id, range, style) => Obj(map["range" := SheetRange(id, range), "style" := style])
    case MergeCells(id, range) => Obj(map["range" := SheetRange(id, range)])
    case UpdateDimension(id, dim, start, end, px) =>
      Obj(map[
        "range" := Obj(map["sheetId" := Str(id), "dimension" := Str(dim),
                           "startIndex" := Int(start), "endIndex" := Int(end)]),
        "properties" := Obj(map["pixelSize" := Int(px)]),
        "fields" := Str("pixelSize")])
  }

  function BatchRequest(op: BatchOp): (j: Json)
    ensures j.Obj? && j.fields.Keys == {OpName(op)}
  {
    Obj(map[OpName(op) := OpJson(op)])
  }

  function BatchCall(sheetToken: string, op: BatchOp): (c: Call)
    ensures c.verb == "POST" && c.path == BatchUpdatePath(sheetToken)
    ensures c.body.Some? && c.body.value.Obj? && c.body.value.fields.Keys == {"requests"}
    ensures c.body.value.fields["requests"] == Arr([BatchRequest(op)])
  {
    Call("POST", BatchUpdatePath(sheetToken), Some(Obj(map["requests" := Arr([BatchRequest(op)])])))
  }

  // Reading a batch request back, as the server would.

  function Field(j: Json, k: string): Option<Json>
  {
    if j.Obj? && k in j.fields then Some(j.fields[k]) else None
  }

  function StrAt(j: Json, k: string): Option<string>
  {
    var f := Field(j, k);
    if f.Some? && f.value.Str? then Some(f.value.s) else None
  }

  function IntAt(j: Json, k: string): Option<int>
  {
    var f := Field(j, k);
    if f.Some? && f.value.Int? then Some(f.value.i) else None
  }

  function ParseAddSheet(u: Json): Option<BatchOp>
  {
    var props := Field(u, "properties");
    if props.Some? && StrAt(props.value, "title").Some? then Some(AddSheet(StrAt(props.value, "title").value)) else None
  }

  function ParseDeleteSheet(u: Json): Option<BatchOp>
  {
    var id := StrAt(u, "sheetId");
    if id.Some? then Some(DeleteSheet(id.value)) else None
  }

  function ParseUpdateCells(u: Json): Option<BatchOp>
  {
    var r := Field(u, "range");
    var style := Field(u, "style");
    if r.Some? && StrAt(r.value, "sheetId").Some? && StrAt(r.value, "range").Some? && style.Some?
    then Some(UpdateCells(StrAt(r.value, "sheetId").value, StrAt(r.value, "range").value, style.value))
    else None
  }

  function ParseMergeCells(u: Json): Option<BatchOp>
  {
    var r := Field(u, "range");
    if r.Some? && StrAt(r.value, "sheetId").Some? && StrAt(r.value, "range").Some?
    then Some(MergeCells(StrAt(r.value, "sheetId").value, StrAt(r.value, "range").value))
    else None
  }

  function ParseUpdateDimension(u: Json): Option<BatchOp>
  {
    var r := Field(u, "range");
    var p := Field(u, "properties");
    if r.Some? && p.Some? && StrAt(r.value, "sheetId").Some? && StrAt(r.value, "dimension").Some?
       && IntAt(r.value, "startIndex").Some? && IntAt(r.value, "endIndex").Some? && IntAt(p.value, "pixelSize").Some?
    then Some(UpdateDimension(StrAt(r.value, "sheetId").value, StrAt(r.value, "dimension").value,
                              IntAt(r.value, "startIndex").value, IntAt(r.value, "endIndex").value,
                              IntAt(p.value, "pixelSize").value))
    else None
  }

  function ParseBatchRequest(j: Json): Option<BatchOp>
  {
    if !j.Obj? then None
    else if "addSheet" in j.fields then ParseAddSheet(j.fields["addSheet"])
    else if "deleteSheet" in j.fields then ParseDeleteSheet(j.fields["deleteSheet"])
    else if "updateCells" in j.fields then ParseUpdateCells(j.fields["updateCells"])
    else if "mergeCells" in j.fields then ParseMergeCells(j.fields["mergeCells"])
    else if "updateDimensionProperties" in j.fields then ParseUpdateDimension(j.fields["updateDimensionProperties"])
    else None
  }

  /** Every batch operation POSTs exactly one request to `sheets_batch_update`,
      keyed by the operation's name, and that request reads back as the
      operation it was built from: nothing is dropped or altered, including
      a dimension range whose start lies after its end. */
  lemma BatchCallRoundTrip(sheetToken: string, op: BatchOp)
    ensures var c := BatchCall(sheetToken, op);
            && c.verb == "POST" && c.path == BatchUpdatePath(sheetToken)
            && c.body.Some? && c.body.value.Obj? && c.body.value.fields.Keys == {"requests"}
            && |c.body.value.fields["requests"].items| == 1
            && c.body.value.fields["requests"].items[0].fields.Keys == {OpName(op)}
            && ParseBatchRequest(c.body.value.fields["requests"].items[0]) == Some(op)
  {
    BatchRequestRoundTrip(op);
  }

  /** A batch request reads back as the operation it was built from. */
  lemma BatchRequestRoundTrip(op: BatchOp)
    ensures BatchRequest(op).fields.Keys == {OpName(op)}
    ensures ParseBatchRequest(BatchRequest(op)) == Some(op)
  {
    match op
    case AddSheet(_) => AddSheetReadsBack(op);
    case DeleteSheet(_) => DeleteSheetReadsBack(op);
    case UpdateCells(_, _, _) => UpdateCellsReadsBack(op);
    case MergeCells(_, _) => MergeCellsReadsBack(op);
    case UpdateDimension(_, _, _, _, _) => UpdateDimensionReadsBack(op);
  }

  lemma AddSheetReadsBack(op: BatchOp)
    requires op.AddSheet?
    ensures ParseBatchRequest(BatchRequest(op)) == Some(op)
  {
    assert ParseAddSheet(OpJson(op)) == Some(op);
  }

  lemma DeleteSheetReadsBack(op: BatchOp)
    requires op.DeleteSheet?
    ensures ParseBatchRequest(BatchRequest(op)) == Some(op)
  {
    var j := BatchRequest(op);
    assert "addSheet" !in j.fields;
    assert ParseDeleteSheet(OpJson(op)) == Some(op);
  }

  lemma UpdateCellsReadsBack(op: BatchOp)
    requires op.UpdateCells?
    ensures ParseBatchRequest(BatchRequest(op)) == Some(op)
  {
    var j := BatchRequest(op);
    assert "addSheet" !in j.fields && "deleteSheet" !in j.fields;
    assert ParseUpdateCells(OpJson(op)) == Some(op);
  }

  lemma MergeCellsReadsBack(op: BatchOp)
    requires op.MergeCells?
    ensures ParseBatchRequest(BatchRequest(op)) == Some(op)
  {
    var j := BatchRequest(op);
    assert "addSheet" !in j.fields && "deleteSheet" !in j.fields && "updateCells" !in j.fields;
    assert ParseMergeCells(OpJson(op)) == Some(op);
  }

  lemma UpdateDimensionReadsBack(op: BatchOp)
    requires op.UpdateDimension?
    ensures ParseBatchRequest(BatchRequest(op)) == Some(op)
  {
    var j := BatchRequest(op);
    assert "addSheet" !in j.fields && "deleteSheet" !in j.fields && "updateCells" !in j.fields;
    assert "mergeCells" !in j.fields;
    var r := OpJson(op).fields["range"];
    assert StrAt(r, "sheetId") == Some(op.sheetId) && StrAt(r, "dimension") == Some(op.dimension);
    assert IntAt(r, "startIndex") == Some(op.startIndex) && IntAt(r, "endIndex") == Some(op.endIndex);
    assert IntAt(OpJson(op).fields["properties"], "pixelSize") == Some(op.pixelSize);
    assert ParseUpdateDimension(OpJson(op)) == Some(op);
  }

  /** `SetDimension` asks for the pixel size field only. */
  lemma DimensionUpdatesPixelSizeOnly(sheetId: string, dimension: string, startIndex: int, endIndex: int, pixelSize: int)
    ensures var u := OpJson(UpdateDimension(sheetId, dimension, startIndex, endIndex, pixelSize));
            && u.fields["fields"] == Str("pixelSize")
            && u.fields["properties"].fields.Keys == {"pixelSize"}
  {
  }

  /** The templates of the range operations: reading and writing share one
      path, append and clear add their verb to it, and every path lies
      under the spreadsheet's own. */
  lemma RangePaths(sheetToken: string, range: string)
    ensures ReadRangeCall(sheetToken, range).path == ValuesPath(sheetToken, range)
    ensures forall v :: WriteRangeCall(sheetToken, range, v).path == ValuesPath(sheetToken, range)
    ensures AppendPath(sheetToken, range) == ValuesPath(sheetToken, range) + ":append"
    ensures ClearPath(sheetToken, range) == ValuesPath(sheetToken, range) + ":clear"
    ensures var prefix := SpreadsheetsPath + sheetToken + "/";
            && prefix <= MetainfoPath(sheetToken) && prefix <= ValuesPath(sheetToken, range)
            && prefix <= BatchUpdatePath(sheetToken) && prefix <= SheetsQueryPath(sheetToken)
  {
  }

  /** The write of the library's own test lands on the path its server answers. */
  lemma WriteRangeTestPath(values: seq<seq<Json>>)
    ensures WriteRangeCall("sheet123", "Sheet1!A1:B2", values).path
         == "/sheets/v3/spreadsheets/sheet123/values/Sheet1!A1:B2"
  {
  }

  /** Reads and clears send no body; writes PUT and appends POST the
      caller's values unchanged. */
  lemma RangeVerbsAndBodies(sheetToken: string, range: string, values: seq<seq<Json>>)
    ensures GetCall(sheetToken).body == None && ReadRangeCall(sheetToken, range).body == None
    ensures GetSheetsCall(sheetToken).body == None && ClearRangeCall(sheetToken, range).body == None
    ensures WriteRangeCall(sheetToken, range, values).verb == "PUT"
    ensures AppendRangeCall(sheetToken, range, values).verb == "POST"
    ensures WriteRangeCall(sheetToken, range, values).body.Some?
            && GridOf(WriteRangeCall(sheetToken, range, values).body.value) == Some(values)
    ensures AppendRangeCall(sheetToken, range, values).body == WriteRangeCall(sheetToken, range, values).body
  {
    ValuesRoundTrip(values);
  }

  // ---------------------------------------------------------------------
  // Replies

  /** `Sheet`: the spreadsheet's metadata. */
  datatype SheetMeta = SheetMeta(sheetToken: string, title: string, properties: map<string, Json>)

  /** `SheetInfo`: one worksheet of the spreadsheet. */
  datatype SheetInfo = SheetInfo(sheetId: string, title: string, index: int, properties: map<string, Json>)

  /** How `AddSheet` picks the new sheet's id from the `sheetId` of each
      reply (a reply without one decodes to ""): the first reply must
      carry a non-empty id. */
  function FirstSheetId(replies: seq<string>): (r: Result<string, Error>)
    ensures r.Ok? <==> |replies| > 0 && replies[0] != ""
    ensures r.Ok? ==> r.value == replies[0]
    ensures r.Err? ==> r.error == NoSheetId
  {
    if |replies| == 0 || replies[0] == "" then Err(NoSheetId) else Ok(replies[0])
  }
}
