/**
 * lib/api/screen.js: the legacy screenboard methods mixed into the old
 * HTTP client. `create_screenboard` and `update_screenboard` check the
 * board's shape before sending it; the checks throw, so nothing is sent
 * for a malformed board.
 */
module Screen {
  import opened Wrappers
  import opened Js
  import opened Calls
  import opened Validation
  import Text
  import Http
  import HttpClient

  const WidgetsAt: string := "screenboard[\"widgets\"]"
  const WidgetFields: seq<string> := ["type", "width", "height", "x", "y"]

  const NotObject: string := "`screenboard` parameter must be an object"
  const TitleNotString: string := "`screenboard[\"board_title\"]` must be a string"
  const WidthNotNumber: string := "`screenboard[\"width\"]` must be a number"
  const HeightNotNumber: string := "`screenboard[\"height\"]` must be a number"
  const WidgetsNotArray: string := "`screenboard[\"widgets\"]` must be an array"

  /** `v != undefined && typeof v != 'number'` fails: absent (null or undefined) or a number. */
  predicate NumberOrAbsent(v: Value) {
    IsNullish(v) || TypeOf(v) == "number"
  }

  /**
   * The boards the checks let through: an object whose title is a string,
   * whose width and height are numbers when given, whose widgets are of
   * object type, and each of whose widgets has a truthy type, width,
   * height, x and y.
   */
  predicate Shaped(board: Value) {
    board.Obj?
    && Prop(board, "board_title").Str?
    && NumberOrAbsent(Prop(board, "width"))
    && NumberOrAbsent(Prop(board, "height"))
    && IsObjectType(Prop(board, "widgets"))
    && AllComplete(Prop(board, "widgets"), WidgetFields)
  }

  /** `validate_screenboard(screenboard)`: the first failing check's exception, in the source's order. */
  ghost function Validate(board: Value): (r: Option<Error>)
    ensures r.None? <==> Shaped(board)
    ensures !IsObjectType(board) ==> r == Some(Thrown(NotObject))
    ensures board.Null? ==> r == Some(TypeError("board_title"))
    ensures board.Obj? && !Prop(board, "board_title").Str? ==> r == Some(Thrown(TitleNotString))
    ensures board.Obj? && Prop(board, "board_title").Str? && !NumberOrAbsent(Prop(board, "width")) ==>
      r == Some(Thrown(WidthNotNumber))
    ensures (board.Obj? && Prop(board, "board_title").Str? && NumberOrAbsent(Prop(board, "width"))
             && !NumberOrAbsent(Prop(board, "height"))) ==>
      r == Some(Thrown(HeightNotNumber))
    ensures (board.Obj? && Prop(board, "board_title").Str? && NumberOrAbsent(Prop(board, "width"))
             && NumberOrAbsent(Prop(board, "height")) && !IsObjectType(Prop(board, "widgets"))) ==>
      r == Some(Thrown(WidgetsNotArray))
    ensures (board.Obj? && Prop(board, "board_title").Str? && NumberOrAbsent(Prop(board, "width"))
             && NumberOrAbsent(Prop(board, "height")) && IsObjectType(Prop(board, "widgets"))) ==>
      r == CollectionCheck(WidgetsAt, Prop(board, "widgets"), WidgetFields)
  {
    if !IsObjectType(board) then Some(Thrown(NotObject))
    else if board.Null? then Some(TypeError("board_title"))
    else if !Prop(board, "board_title").Str? then Some(Thrown(TitleNotString))
    else if !NumberOrAbsent(Prop(board, "width")) then Some(Thrown(WidthNotNumber))
    else if !NumberOrAbsent(Prop(board, "height")) then Some(Thrown(HeightNotNumber))
    else if !IsObjectType(Prop(board, "widgets")) then Some(Thrown(WidgetsNotArray))
    else CollectionCheck(WidgetsAt, Prop(board, "widgets"), WidgetFields)
  }

  /** `create_screenboard(screenboard, callback)`: POST /screen with the board, unchanged, once it passes the checks. */
  ghost function CreateScreenboard(board: Value, callback: Value): (r: Result<Call, Error>)
    ensures r.Ok? <==> Shaped(board)
    ensures r.Ok? ==> r.value == WithBody("POST", "/screen", board, callback)
    ensures r.Err? ==> Validate(board) == Some(r.error)
  {
    match Validate(board)
    case Some(e) => Err(e)
    case None => Ok(WithBody("POST", "/screen", board, callback))
  }

  /** `update_screenboard(screen_id, screenboard, callback)`: PUT /screen/{id}, after the same checks. */
  ghost function UpdateScreenboard(id: Value, board: Value, callback: Value): (r: Result<Call, Error>)
    ensures r.Ok? <==> Shaped(board)
    ensures r.Ok? ==> r.value == WithBody("PUT", Format("/screen/", id, ""), board, callback)
    ensures r.Err? ==> Validate(board) == Some(r.error)
  {
    match Validate(board)
    case Some(e) => Err(e)
    case None => Ok(WithBody("PUT", Format("/screen/", id, ""), board, callback))
  }

  /** Creating and updating accept and refuse the same boards, with the same exception. */
  lemma CreateUpdateAgree(id: Value, board: Value, callback: Value)
    ensures CreateScreenboard(board, callback).Ok? <==> UpdateScreenboard(id, board, callback).Ok?
    ensures CreateScreenboard(board, callback).Err? ==>
      CreateScreenboard(board, callback).error == UpdateScreenboard(id, board, callback).error
  {
  }

  /** The smallest board that passes: a title and no widgets; width and height may be left out. */
  lemma MinimalBoardAccepted(title: string, callback: Value)
    ensures CreateScreenboard(Obj(map["board_title" := Str(title), "widgets" := Arr([])]), callback).Ok?
  {
    var board := Obj(map["board_title" := Str(title), "widgets" := Arr([])]);
    assert Prop(board, "width") == Undefined && Prop(board, "height") == Undefined;
    assert Prop(board, "widgets") == Arr([]);
  }

  /**
   * For an array of widgets the exception names the first incomplete
   * widget, by its index, and its first falsy property.
   */
  lemma FirstBadWidgetReported(board: Value, i: nat, callback: Value)
    requires board.Obj? && Prop(board, "board_title").Str?
    requires NumberOrAbsent(Prop(board, "width")) && NumberOrAbsent(Prop(board, "height"))
    requires Prop(board, "widgets").Arr?
    requires var ws := Prop(board, "widgets").items;
      i < |ws| && !Complete(ws[i], WidgetFields) && forall j :: 0 <= j < i ==> Complete(ws[j], WidgetFields)
    ensures var ws := Prop(board, "widgets").items;
      CreateScreenboard(board, callback)
        == Err(ItemCheck(WidgetsAt, Text.NatToString(i), ws[i], WidgetFields).value)
  {
    var ws := Prop(board, "widgets").items;
    assert IsObjectType(Prop(board, "widgets"));
    assert Validate(board) == CollectionCheck(WidgetsAt, Prop(board, "widgets"), WidgetFields);
    FirstIncompleteReported(WidgetsAt, ws, 0, i, WidgetFields);
    assert ItemCheck(WidgetsAt, Text.NatToString(i), ws[i], WidgetFields).Some?;
  }

  /**
   * A widget placed at x = 0 is refused as missing its x, since 0 is falsy,
   * even though every other property is set.
   */
  lemma ZeroXRejected(title: string, kind: string, width: int, height: int, y: int, callback: Value)
    requires kind != "" && width != 0 && height != 0 && y != 0
    ensures var widget := Obj(map["type" := Str(kind), "width" := Num(width), "height" := Num(height),
                                  "x" := Num(0), "y" := Num(y)]);
      CreateScreenboard(Obj(map["board_title" := Str(title), "widgets" := Arr([widget])]), callback)
        == Err(Thrown(Missing(WidgetsAt, "0", "x")))
  {
    var widget := Obj(map["type" := Str(kind), "width" := Num(width), "height" := Num(height),
                          "x" := Num(0), "y" := Num(y)]);
    ZeroXMissing(kind, width, height, y);
    OneWidgetBoard(title, widget, callback);
  }

  /** A board whose one widget is incomplete is refused with that widget's error, under index 0. */
  lemma OneWidgetBoard(title: string, widget: Value, callback: Value)
    requires !Complete(widget, WidgetFields)
    ensures CreateScreenboard(Obj(map["board_title" := Str(title), "widgets" := Arr([widget])]), callback)
      == Err(ItemCheck(WidgetsAt, "0", widget, WidgetFields).value)
  {
    var board := Obj(map["board_title" := Str(title), "widgets" := Arr([widget])]);
    assert Prop(board, "widgets") == Arr([widget]);
    assert Prop(board, "width") == Undefined && Prop(board, "height") == Undefined;
    FirstBadWidgetReported(board, 0, callback);
    assert Text.NatToString(0) == "0";
  }

  /** A widget whose type, width, height and y are set and whose x is 0 is reported as missing its x. */
  lemma ZeroXMissing(kind: string, width: int, height: int, y: int)
    requires kind != "" && width != 0 && height != 0
    ensures var widget := Obj(map["type" := Str(kind), "width" := Num(width), "height" := Num(height),
                                  "x" := Num(0), "y" := Num(y)]);
      !Complete(widget, WidgetFields)
      && ItemCheck(WidgetsAt, "0", widget, WidgetFields) == Some(Thrown(Missing(WidgetsAt, "0", "x")))
  {
    var widget := Obj(map["type" := Str(kind), "width" := Num(width), "height" := Num(height),
                          "x" := Num(0), "y" := Num(y)]);
    assert Truthy(Prop(widget, WidgetFields[0])) && Truthy(Prop(widget, WidgetFields[1]));
    assert Truthy(Prop(widget, WidgetFields[2]));
    assert !Truthy(Prop(widget, WidgetFields[3]));
    assert FirstFalsy(widget, WidgetFields, 0) == 3;
  }

  /** `get_screenboard(screen_id, callback)`: GET /screen/{id}, in the three-argument form. */
  function GetScreenboard(id: Value, callback: Value): Call
  {
    Bare("GET", Format("/screen/", id, ""), callback)
  }

  /** `get_all_screenboards(callback)`: GET /screen, in the three-argument form. */
  function GetAllScreenboards(callback: Value): Call
  {
    Bare("GET", "/screen", callback)
  }

  /** `delete_screenboard(screen_id, callback)`: DELETE /screen/{id}, in the three-argument form. */
  function DeleteScreenboard(id: Value, callback: Value): Call
  {
    Bare("DELETE", Format("/screen/", id, ""), callback)
  }

  /**
   * Reading and deleting through the legacy client: GET /api/{version}/screen,
   * and GET or DELETE on /api/{version}/screen/{id}, carrying only the two
   * keys and no body.
   */
  lemma ReadsAndDeletes(c: HttpClient.LegacyClient, codec: Http.Codec, id: Value, callback: Value)
    requires IsFunction(callback)
    ensures var api := "/api/" + ToString(c.apiVersion);
      var keys := map["api_key" := c.apiKey, "application_key" := c.appKey];
      HttpClient.Request(c, codec, GetScreenboard(id, callback))
        == Ok(Http.HttpRequest(HttpClient.BaseOptions(c, "GET"), api + "/screen/" + ToString(id), keys, None))
      && HttpClient.Request(c, codec, GetAllScreenboards(callback))
        == Ok(Http.HttpRequest(HttpClient.BaseOptions(c, "GET"), api + "/screen", keys, None))
      && HttpClient.Request(c, codec, DeleteScreenboard(id, callback))
        == Ok(Http.HttpRequest(HttpClient.BaseOptions(c, "DELETE"), api + "/screen/" + ToString(id), keys, None))
  {
    Text.UpperVerbs();
    var api := "/api/" + ToString(c.apiVersion);
    FormatUnder(api, "/screen/", id);
    HttpClient.BareRead(c, codec, "GET", Format("/screen/", id, ""), callback);
    HttpClient.BareRead(c, codec, "GET", "/screen", callback);
    HttpClient.BareRead(c, codec, "DELETE", Format("/screen/", id, ""), callback);
  }
}
