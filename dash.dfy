/**
 * lib/api/dash.js: the legacy dashboard methods mixed into the old HTTP
 * client. As written the title check compares the title with the text
 * "string" instead of testing its type, and `update_dashboard` sends an
 * undeclared variable; both are modelled as written and corrected.
 */
module Dash {
  import opened Wrappers
  import opened Js
  import opened Calls
  import opened Validation
  import Text
  import Http
  import HttpClient

  const GraphsAt: string := "dashboard[\"graphs\"]"
  const GraphFields: seq<string> := ["title", "definition"]

  const NotObject: string := "`dashboard` parameter must be an object"
  const TitleNotString: string := "`dashboard[\"title\"]` must be a string"
  const DescriptionNotString: string := "`dashboard[\"description\"]` must be a string"
  const GraphsNotArray: string := "`dashboard[\"graphs\"]` must be an array"

  /**
   * The boards the intended checks let through: an object whose title and
   * description are strings, whose graphs are of object type, and each of
   * whose graphs has a truthy title and definition.
   */
  predicate Shaped(board: Value) {
    board.Obj?
    && Prop(board, "title").Str?
    && Prop(board, "description").Str?
    && IsObjectType(Prop(board, "graphs"))
    && AllComplete(Prop(board, "graphs"), GraphFields)
  }

  /**
   * `title != 'string'` is false, under loose equality, for the text
   * "string" itself and for an array that joins to it; every other title
   * (numbers and booleans compare as NaN with it) differs.
   */
  predicate LooselyTheWordString(title: Value) {
    title == Str("string") || (title.Arr? && JoinValues(title.items) == "string")
  }

  /** The checks after the title, shared by both readings of the title check. */
  ghost function CheckRest(board: Value): (r: Option<Error>)
    requires board.Obj?
    ensures r.None? <==> (Prop(board, "description").Str? && IsObjectType(Prop(board, "graphs"))
      && AllComplete(Prop(board, "graphs"), GraphFields))
  {
    if !Prop(board, "description").Str? then Some(Thrown(DescriptionNotString))
    else if !IsObjectType(Prop(board, "graphs")) then Some(Thrown(GraphsNotArray))
    else CollectionCheck(GraphsAt, Prop(board, "graphs"), GraphFields)
  }

  /**
   * `validate_dashboard(dashboard)` as written: a title is accepted only
   * when it loosely equals the text "string".
   */
  ghost function ValidateAsWritten(board: Value): (r: Option<Error>)
    ensures !IsObjectType(board) ==> r == Some(Thrown(NotObject))
    ensures board.Null? ==> r == Some(TypeError("title"))
    ensures board.Obj? && !LooselyTheWordString(Prop(board, "title")) ==> r == Some(Thrown(TitleNotString))
    ensures r.None? ==> board.Obj? && LooselyTheWordString(Prop(board, "title"))
  {
    if !IsObjectType(board) then Some(Thrown(NotObject))
    else if board.Null? then Some(TypeError("title"))
    else if board.Arr? then Some(Thrown(TitleNotString))  // an array has no title
    else if !LooselyTheWordString(Prop(board, "title")) then Some(Thrown(TitleNotString))
    else CheckRest(board)
  }

  /** `validate_dashboard(dashboard)` with the title's type tested, as its message says. */
  ghost function Validate(board: Value): (r: Option<Error>)
    ensures r.None? <==> Shaped(board)
    ensures !IsObjectType(board) ==> r == Some(Thrown(NotObject))
    ensures board.Null? ==> r == Some(TypeError("title"))
    ensures board.Obj? && !Prop(board, "title").Str? ==> r == Some(Thrown(TitleNotString))
  {
    if !IsObjectType(board) then Some(Thrown(NotObject))
    else if board.Null? then Some(TypeError("title"))
    else if board.Arr? || !Prop(board, "title").Str? then Some(Thrown(TitleNotString))
    else CheckRest(board)
  }

  /**
   * As written, every dashboard with a real title is refused, however
   * well-formed; corrected, the same dashboard passes.
   */
  lemma RealTitlesRefused(board: Value)
    requires Shaped(board) && Prop(board, "title") != Str("string")
    ensures ValidateAsWritten(board) == Some(Thrown(TitleNotString))
    ensures Validate(board).None?
  {
  }

  /** The two readings agree on every board whose title is the text "string". */
  lemma ReadingsAgreeOnTheWord(board: Value)
    requires board.Obj? && Prop(board, "title") == Str("string")
    ensures ValidateAsWritten(board) == Validate(board)
  {
  }

  /** `create_dashboard(dashboard, callback)`: POST /dash with the board, unchanged, once it passes the checks. */
  ghost function CreateDashboard(board: Value, callback: Value): (r: Result<Call, Error>)
    ensures r.Ok? <==> Shaped(board)
    ensures r.Ok? ==> r.value == WithBody("POST", "/dash", board, callback)
    ensures r.Err? ==> Validate(board) == Some(r.error)
  {
    match Validate(board)
    case Some(e) => Err(e)
    case None => Ok(WithBody("POST", "/dash", board, callback))
  }

  /**
   * `update_dashboard(dash_id, dashboard, callback)` as written: a board
   * that passes the checks reaches `{body: dashbboard}`, an undeclared
   * name, so no update is ever sent.
   */
  ghost function UpdateAsWritten(id: Value, board: Value, callback: Value): (r: Result<Call, Error>)
    ensures r.Err?
    ensures ValidateAsWritten(board).None? ==> r == Err(ReferenceError("dashbboard"))
    ensures ValidateAsWritten(board).Some? ==> r == Err(ValidateAsWritten(board).value)
  {
    match ValidateAsWritten(board)
    case Some(e) => Err(e)
    case None => Err(ReferenceError("dashbboard"))
  }

  /** `update_dashboard` sending the board it checked: PUT /dash/{id}. */
  ghost function UpdateDashboard(id: Value, board: Value, callback: Value): (r: Result<Call, Error>)
    ensures r.Ok? <==> Shaped(board)
    ensures r.Ok? ==> r.value == WithBody("PUT", Format("/dash/", id, ""), board, callback)
    ensures r.Err? ==> Validate(board) == Some(r.error)
  {
    match Validate(board)
    case Some(e) => Err(e)
    case None => Ok(WithBody("PUT", Format("/dash/", id, ""), board, callback))
  }

  /** Corrected, updating and creating accept the same boards; as written, updating never succeeds. */
  lemma UpdateMatchesCreate(id: Value, board: Value, callback: Value)
    ensures UpdateDashboard(id, board, callback).Ok? <==> CreateDashboard(board, callback).Ok?
    ensures UpdateAsWritten(id, board, callback).Err?
  {
  }

  /** The smallest dashboard that passes: a title, a description and no graphs. */
  lemma MinimalDashboardAccepted(title: string, description: string, callback: Value)
    ensures CreateDashboard(Obj(map["title" := Str(title), "description" := Str(description), "graphs" := Arr([])]), callback).Ok?
  {
    var board := Obj(map["title" := Str(title), "description" := Str(description), "graphs" := Arr([])]);
    assert Prop(board, "graphs") == Arr([]);
  }

  /** For an array of graphs the exception names the first incomplete graph and its first falsy property. */
  lemma FirstBadGraphReported(board: Value, i: nat, callback: Value)
    requires board.Obj? && Prop(board, "title").Str? && Prop(board, "description").Str?
    requires Prop(board, "graphs").Arr?
    requires var gs := Prop(board, "graphs").items;
      i < |gs| && !Complete(gs[i], GraphFields) && forall j :: 0 <= j < i ==> Complete(gs[j], GraphFields)
    ensures var gs := Prop(board, "graphs").items;
      CreateDashboard(board, callback) == Err(ItemCheck(GraphsAt, Text.NatToString(i), gs[i], GraphFields).value)
  {
    var gs := Prop(board, "graphs").items;
    FirstIncompleteReported(GraphsAt, gs, 0, i, GraphFields);
  }

  /** `get_dashboard(dash_id, callback)`: GET /dash/{id}, in the three-argument form. */
  function GetDashboard(id: Value, callback: Value): Call
  {
    Bare("GET", Format("/dash/", id, ""), callback)
  }

  /** `get_all_dashboards(callback)`: GET /dash, in the three-argument form. */
  function GetAllDashboards(callback: Value): Call
  {
    Bare("GET", "/dash", callback)
  }

  /** `delete_dashboard(dash_id, callback)`: DELETE /dash/{id}, in the three-argument form. */
  function DeleteDashboard(id: Value, callback: Value): Call
  {
    Bare("DELETE", Format("/dash/", id, ""), callback)
  }

  /**
   * Reading and deleting through the legacy client: GET /api/{version}/dash,
   * and GET or DELETE on /api/{version}/dash/{id}, carrying only the two
   * keys and no body.
   */
  lemma ReadsAndDeletes(c: HttpClient.LegacyClient, codec: Http.Codec, id: Value, callback: Value)
    requires IsFunction(callback)
    ensures var api := "/api/" + ToString(c.apiVersion);
      var keys := map["api_key" := c.apiKey, "application_key" := c.appKey];
      HttpClient.Request(c, codec, GetDashboard(id, callback))
        == Ok(Http.HttpRequest(HttpClient.BaseOptions(c, "GET"), api + "/dash/" + ToString(id), keys, None))
      && HttpClient.Request(c, codec, GetAllDashboards(callback))
        == Ok(Http.HttpRequest(HttpClient.BaseOptions(c, "GET"), api + "/dash", keys, None))
      && HttpClient.Request(c, codec, DeleteDashboard(id, callback))
        == Ok(Http.HttpRequest(HttpClient.BaseOptions(c, "DELETE"), api + "/dash/" + ToString(id), keys, None))
  {
    Text.UpperVerbs();
    var api := "/api/" + ToString(c.apiVersion);
    FormatUnder(api, "/dash/", id);
    HttpClient.BareRead(c, codec, "GET", Format("/dash/", id, ""), callback);
    HttpClient.BareRead(c, codec, "GET", "/dash", callback);
    HttpClient.BareRead(c, codec, "DELETE", Format("/dash/", id, ""), callback);
  }
}
