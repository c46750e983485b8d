/** The `/items/`, `/error-test`, `/user/` and `/info` handlers as pure
    functions from a request to the response they write. */
module Handlers {

  import opened Text
  import opened Directory
  import opened Http

  /** A response together with the directory as it stands afterwards. */
  datatype Served = Served(response: Response, directory: Directory)

  const ItemsPrefix := "/items/"
  const UserPrefix := "/user/"

  /** The methods `items` answers; any other gets 405. */
  const ItemsMethods: set<string> := {"GET", "POST", "PUT", "DELETE"}

  const InvalidJson := "Invalid JSON"
  const KeyNotProvided := "Key not provided"
  const MethodNotAllowed := "Method not allowed"

  /** The confirmations the successful branches of `items` write. */
  const GetConfirmation := "Data printed to console\n"
  const PostConfirmation := "POST data printed to console\n"
  const PutConfirmation := "PUT data printed to console\n"
  const DeleteConfirmation := "DELETE operation printed to console\n"

  /** The key a PUT or DELETE names: the path without its `/items/`. */
  function ItemKey(req: Request): string
  {
    TrimPrefix(req.path, ItemsPrefix)
  }

  /** `items`: dispatch on the method. Every branch only logs to the
      console and writes a response; the directory is left as it was.
      PUT checks its key before decoding the body; DELETE does not check
      its key at all. */
  function Items(d: Directory, req: Request): (r: Served)
    ensures r.directory == d
    ensures r.response.status == StatusMethodNotAllowed <==> req.verb !in ItemsMethods
    ensures req.verb !in ItemsMethods ==> r.response.payload == Error(MethodNotAllowed)
    ensures r.response.status == StatusCreated <==> req.verb == "POST" && req.body.asObject.Parsed?
    ensures r.response.status == StatusBadRequest <==>
      || (req.verb == "POST" && req.body.asObject.Invalid?)
      || (req.verb == "PUT" && (ItemKey(req) == "" || req.body.asValueField.Invalid?))
    ensures req.verb == "PUT" && ItemKey(req) == "" ==> r.response.payload == Error(KeyNotProvided)
    ensures r.response.status == StatusBadRequest && !(req.verb == "PUT" && ItemKey(req) == "") ==>
      r.response.payload == Error(InvalidJson)
    ensures r.response.status == StatusOK <==>
      || req.verb in {"GET", "DELETE"}
      || (req.verb == "PUT" && ItemKey(req) != "" && req.body.asValueField.Parsed?)
    ensures req.verb == "GET" ==> r.response.payload == Written(GetConfirmation)
    ensures r.response.status == StatusCreated ==> r.response.payload == Written(PostConfirmation)
    ensures req.verb == "PUT" && r.response.status == StatusOK ==> r.response.payload == Written(PutConfirmation)
    ensures req.verb == "DELETE" ==> r.response.payload == Written(DeleteConfirmation)
    ensures r.response.payload.Written? <==> r.response.status in {StatusOK, StatusCreated}
  {
    var response :=
      if req.verb == "GET" then
        Response(StatusOK, Written(GetConfirmation))
      else if req.verb == "POST" then
        if req.body.asObject.Invalid? then Fail(InvalidJson, StatusBadRequest)
        else Response(StatusCreated, Written(PostConfirmation))
      else if req.verb == "PUT" then
        if ItemKey(req) == "" then Fail(KeyNotProvided, StatusBadRequest)
        else if req.body.asValueField.Invalid? then Fail(InvalidJson, StatusBadRequest)
        else Response(StatusOK, Written(PutConfirmation))
      else if req.verb == "DELETE" then
        Response(StatusOK, Written(DeleteConfirmation))
      else
        Fail(MethodNotAllowed, StatusMethodNotAllowed);
    Served(response, d)
  }

  /** The body is only ever decoded by a POST, or by a PUT that names a
      key: for every other request, any body gives the same response. */
  lemma ItemsBodyIgnored(d: Directory, req: Request, other: Body)
    requires req.verb != "POST"
    requires req.verb == "PUT" ==> ItemKey(req) == ""
    ensures Items(d, req.(body := other)) == Items(d, req)
  {
  }

  /** The response of `items` never depends on what the directory holds. */
  lemma ItemsIgnoresDirectory(d1: Directory, d2: Directory, req: Request)
    ensures Items(d1, req).response == Items(d2, req).response
  {
  }

  /** The directory after a series of `items` requests, each served by the
      directory the previous one left behind. */
  function AfterItems(d: Directory, reqs: seq<Request>): Directory
    decreases |reqs|
  {
    if |reqs| == 0 then d else AfterItems(Items(d, reqs[0]).directory, reqs[1..])
  }

  /** No series of `items` requests, however many PUTs, POSTs and DELETEs
      it contains, changes the directory. */
  lemma {:induction false} ItemsNeverMutate(d: Directory, reqs: seq<Request>)
    ensures AfterItems(d, reqs) == d
    decreases |reqs|
  {
    if |reqs| > 0 {
      ItemsNeverMutate(Items(d, reqs[0]).directory, reqs[1..]);
    }
  }

  /** A PUT that renames Russia's capital leaves the startup directory
      answering Moscow afterwards. */
  lemma PutThenRead(put: Request)
    requires put.verb == "PUT" && put.path == "/items/Russia"
    ensures Items(CountryCapital, put).response.status in {StatusOK, StatusBadRequest}
    ensures var after := AfterItems(CountryCapital, [put]);
      "Russia" in after && after["Russia"] == "Moscow"
  {
    ItemsNeverMutate(CountryCapital, [put]);
  }

  /** `errorTest`: 403 when the `X-Test` header is missing or empty, 500
      when it is exactly "fail", and otherwise nothing is written, which
      the server sends as an empty 200. */
  function ErrorTest(req: Request): (r: Response)
    ensures var x := Get(req.header, "X-Test");
      r.status == StatusForbidden <==> x == ""
    ensures var x := Get(req.header, "X-Test");
      r.status == StatusInternalServerError <==> x == "fail"
    ensures var x := Get(req.header, "X-Test");
      r.status == StatusOK <==> x != "" && x != "fail"
    ensures r.status == StatusForbidden ==> r.payload == Error("X-Test does not exist")
    ensures r.status == StatusInternalServerError ==> r.payload == Error("X-test does not exist fail")
    ensures r.status == StatusOK <==> r.payload == Nothing
  {
    var x := Get(req.header, "X-Test");
    if x == "" then Fail("X-Test does not exist", StatusForbidden)
    else if x == "fail" then Fail("X-test does not exist fail", StatusInternalServerError)
    else Response(StatusOK, Nothing)
  }

  const UserOpen := "{\"userID\": \""
  const UserClose := "\"}"

  /** `userId`: everything after the first six characters of the path
      (the `/user/` the route matched) is the identifier, echoed back
      unchecked inside `{"userID": "<id>"}`, which is then sent as a JSON
      string. The path must be at least that long for the slice. */
  function UserId(req: Request): (r: Response)
    requires |req.path| >= |UserPrefix|
    ensures r.status == StatusOK && r.payload.JsonString?
    ensures Between(UserOpen, UserClose, r.payload.text) == Some(req.path[|UserPrefix|..])
    ensures IsPrefix(UserPrefix, req.path) ==>
      exists id :: UserPrefix + id == req.path && r.payload.text == UserOpen + id + UserClose
  {
    var id := req.path[|UserPrefix|..];
    BetweenWrapped(UserOpen, id, UserClose);
    assert IsPrefix(UserPrefix, req.path) ==> UserPrefix + id == req.path;
    Response(StatusOK, JsonString(UserOpen + id + UserClose))
  }

  /** `/user/42` echoes `42`, and `/user/` echoes the empty identifier. */
  lemma UserIdExamples(req: Request)
    ensures req.path == "/user/42" ==> UserId(req).payload.text == "{\"userID\": \"42\"}"
    ensures req.path == "/user/" ==> UserId(req).payload.text == "{\"userID\": \"\"}"
  {
  }

  const InfoOpen := "{\"message\": \"Hello,"
  const InfoClose := "\"}"

  /** `info`: the `name` query parameter (empty when absent) spliced
      verbatim into `{"message": "Hello,<name>"}`, sent as a JSON string. */
  function Info(req: Request): (r: Response)
    ensures r.status == StatusOK && r.payload.JsonString?
    ensures Between(InfoOpen, InfoClose, r.payload.text) == Some(Get(req.query, "name"))
  {
    var name := Get(req.query, "name");
    BetweenWrapped(InfoOpen, name, InfoClose);
    Response(StatusOK, JsonString(InfoOpen + name + InfoClose))
  }
}
