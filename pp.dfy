/** pp_requests.py: the PassagePoint client. It logs in for a token, builds
    the request header from it, creates visitors and pre-registrations, and
    looks a visitor up by barcode. An HTTP 401 refreshes the token and calls
    the failed operation again, with no bound on the number of refreshes. The
    PassagePoint API is the scripted wire of a `Session`. */
module PassagePoint {
  import opened Py
  import opened Http
  import opened Timestamp

  /** The `PassagePoint` section of the configuration. */
  datatype Config = Config(
    username: Json, password: Json,
    apiRoot: string, loginEndpt: string, createVisitorEndpt: string,
    uniqueIdEndpt: string, createPreregEndpt: string,
    userMapping: map<Json, Json>, locationMapping: map<Json, Json>)

  /** The client's mutable state: `token`, `req_header`, and the API. */
  datatype Session = Session(token: Json, header: map<string, Json>, wire: Wire)

  /** The operations `error_handler` can call again. */
  datatype Call =
    | CreateVisitorCall(visitor: Json)
    | GetVisitorByBarcodeCall(barcode: Json)
    | CreatePreregCall(booking: Json, visitorId: Json)

  // ---- requests and responses ----

  /** `_extract_id`: the `id` of the first element of `data` for a dict, of
      the first element itself for anything else. */
  function ExtractId(apiData: Json): (r: Result<Json>)
    ensures apiData.JObj? && "data" !in apiData.fields ==> r == Err(KeyError(JStr("data")))
    ensures apiData.JList? && apiData.items == [] ==> r == Err(IndexError)
  {
    var data :- if apiData.JObj? then Get(apiData, "data") else Ok(apiData);
    var first :- At(data, 0);
    Get(first, "id")
  }

  /** Both response shapes the client reads ids from. */
  lemma ExtractIdShapes(id: Json, entry: map<string, Json>, rest: seq<Json>, others: map<string, Json>)
    requires "id" in entry
    ensures ExtractId(JList([JObj(entry)] + rest)) == Ok(entry["id"])
    ensures ExtractId(JObj(others["data" := JList([JObj(entry)] + rest)])) == Ok(entry["id"])
  {
  }

  /** The `params` of `create_visitor`, built before the request and in this
      key order, so the first missing key is the one reported. */
  function VisitorParams(userMapping: map<Json, Json>, visitor: Json): (r: Result<map<string, Json>>)
    ensures r.Ok? <==>
      && visitor.JObj?
      && (forall k :: k in ["user_group", "firstName", "lastName", "email", "primary_id", "barcode"] ==>
                        k in visitor.fields)
      && Hashable(visitor.fields["user_group"])
    ensures visitor.JObj? && "user_group" !in visitor.fields ==> r == Err(KeyError(JStr("user_group")))
    ensures r.Ok? ==>
      var v := visitor.fields;
      && r.value.Keys == {"category", "firstName", "lastName", "email", "mobilePhoneNo", "uniqueId"}
      && r.value["category"] == (if v["user_group"] in userMapping then userMapping[v["user_group"]]
                                 else JStr("Visitor"))
      && r.value["firstName"] == v["firstName"] && r.value["lastName"] == v["lastName"]
      && r.value["email"] == v["email"]
      && r.value["mobilePhoneNo"] == v["primary_id"]
      && r.value["uniqueId"] == JStr(PyStr(v["barcode"]))
  {
    var group :- Get(visitor, "user_group");
    var category :- MapGet(userMapping, group, JStr("Visitor"));
    var firstName :- Get(visitor, "firstName");
    var lastName :- Get(visitor, "lastName");
    var email :- Get(visitor, "email");
    var primaryId :- Get(visitor, "primary_id");
    var barcode :- Get(visitor, "barcode");
    Ok(map["category" := category, "firstName" := firstName, "lastName" := lastName,
           "email" := email, "mobilePhoneNo" := primaryId, "uniqueId" := JStr(PyStr(barcode))])
  }

  /** `str(int(datetime.strptime(t, '%Y-%m-%dT%H:%M:%S%z').timestamp()))`. */
  function EpochText(t: Json): (r: Result<Json>)
    ensures !t.JStr? ==> r == Err(TypeError)
    ensures t.JStr? ==> (r.Ok? <==> Parse(t.s).Ok?)
    ensures r.Ok? ==> r.value == JStr(IntToStr(EpochSeconds(Parse(t.s).value)))
  {
    if !t.JStr? then Err(TypeError)
    else
      var dt :- Parse(t.s);
      Ok(JStr(IntToStr(EpochSeconds(dt))))
  }

  /** The JSON body of `create_prereg`. */
  function PreregPayload(locationMapping: map<Json, Json>, booking: Json, visitor: Json): (r: Result<map<string, Json>>)
    ensures r.Ok? <==>
      && booking.JObj?
      && "startTime" in booking.fields && EpochText(booking.fields["startTime"]).Ok?
      && "endTime" in booking.fields && EpochText(booking.fields["endTime"]).Ok?
      && "destination" in booking.fields && Hashable(booking.fields["destination"])
    ensures r.Ok? ==>
      var b := booking.fields;
      && r.value.Keys == {"startTime", "endTime", "visitorId", "destination"}
      && r.value["startTime"] == EpochText(b["startTime"]).value
      && r.value["endTime"] == EpochText(b["endTime"]).value
      && r.value["visitorId"] == JStr(PyStr(visitor))
      && r.value["destination"] == (if b["destination"] in locationMapping then locationMapping[b["destination"]]
                                    else JNull)
    ensures booking.JObj? && "startTime" in booking.fields && EpochText(booking.fields["startTime"]).Ok?
            && "endTime" in booking.fields && EpochText(booking.fields["endTime"]).Ok?
            && "destination" !in booking.fields
            ==> r == Err(KeyError(JStr("destination")))
  {
    var start :- Get(booking, "startTime");
    var startTime :- EpochText(start);
    var end :- Get(booking, "endTime");
    var endTime :- EpochText(end);
    var dest :- Get(booking, "destination");
    var destination :- MapGet(locationMapping, dest, JNull);
    Ok(map["startTime" := startTime, "endTime" := endTime,
           "visitorId" := JStr(PyStr(visitor)), "destination" := destination])
  }

  lemma DecimalExamples()
    ensures IntToStr(1598141100) == "1598141100" && IntToStr(1598148300) == "1598148300"
  {
    assert NatToStr(1) == "1";
    assert NatToStr(15) == "15";
    assert NatToStr(159) == "159";
    assert NatToStr(1598) == "1598";
    assert NatToStr(15981) == "15981";
    assert NatToStr(159814) == "159814";
    assert NatToStr(1598141) == "1598141";
    assert NatToStr(15981411) == "15981411";
    assert NatToStr(159814110) == "159814110";
    assert NatToStr(1598141100) == "1598141100";
    assert NatToStr(1598148) == "1598148";
    assert NatToStr(15981483) == "15981483";
    assert NatToStr(159814830) == "159814830";
    assert NatToStr(1598148300) == "1598148300";
  }

  /** The client's own example pre-registration. */
  lemma PreregPayloadExample(locationMapping: map<Json, Json>)
    ensures var booking := JObj(map["startTime" := JStr("2020-08-22T20:05:00-04:00"),
                                    "endTime" := JStr("2020-08-22T22:05:00-04:00"),
                                    "destination" := JInt(8827)]);
      var r := PreregPayload(locationMapping, booking, JStr("137505764541138"));
      r.Ok? && r.value["startTime"] == JStr("1598141100") && r.value["endTime"] == JStr("1598148300")
  {
    var booking := JObj(map["startTime" := JStr("2020-08-22T20:05:00-04:00"),
                            "endTime" := JStr("2020-08-22T22:05:00-04:00"),
                            "destination" := JInt(8827)]);
    EpochTextExample();
    assert booking.fields["startTime"] == JStr("2020-08-22T20:05:00-04:00");
    assert booking.fields["endTime"] == JStr("2020-08-22T22:05:00-04:00");
    assert booking.fields["destination"] == JInt(8827);
  }

  lemma EpochTextExample()
    ensures EpochText(JStr("2020-08-22T20:05:00-04:00")) == Ok(JStr("1598141100"))
    ensures EpochText(JStr("2020-08-22T22:05:00-04:00")) == Ok(JStr("1598148300"))
  {
    ParseExample();
    ParseExampleEnd();
    EpochSecondsExample();
    EpochSecondsExampleEnd();
    DecimalExamples();
  }

  /** What `fetch_token` makes of the login endpoint's answer: the `token`
      of a successful JSON reply without an `error` key. */
  function Login(x: Exchange): (r: Result<Json>)
    ensures SuccessPayload(x).None? ==> r.Err?
    ensures SuccessPayload(x).Some? && Contains(SuccessPayload(x).value, "error") == Ok(true) ==>
      r.Err? && r.error.Raised?
    ensures r.Ok? <==>
      && SuccessPayload(x).Some?
      && var p := SuccessPayload(x).value;
         p.JObj? && "error" !in p.fields && "token" in p.fields
    ensures r.Ok? ==> r.value == SuccessPayload(x).value.fields["token"]
  {
    if x.Unreachable? then Err(ConnectionError)
    else
      var _ :- RaiseForStatus(x.response);
      var token :- DecodeJson(x.response);
      var failed :- Contains(token, "error");
      if failed then Err(Raised(JStr("Error returned by PassagePoint authentication API: " + PyStr(token))))
      else Get(token, "token")
  }

  /** What `create_visitor` and `create_prereg` make of a successful reply:
      the extracted id, unless `'error' in` the JSON. */
  function IdFrom(r: Response, checkError: bool): (id: Result<Json>)
    ensures r.payload.None? ==> id == Err(JSONDecodeError)
    ensures r.payload.Some? && checkError && Contains(r.payload.value, "error").Err? ==> id == Err(TypeError)
    ensures r.payload.Some? && checkError && Contains(r.payload.value, "error") == Ok(true)
            ==> id == Err(Raised(r.payload.value))
    ensures r.payload.Some? && (!checkError || Contains(r.payload.value, "error") == Ok(false))
            ==> id == ExtractId(r.payload.value)
  {
    var data :- DecodeJson(r);
    var failed :- if checkError then Contains(data, "error") else Ok(false);
    if failed then Err(Raised(data)) else ExtractId(data)
  }

  function LoginRequest(c: Config): Request {
    Request(POST, c.apiRoot + c.loginEndpt, map[], map["username" := c.username, "password" := c.password])
  }

  function Header(token: Json): map<string, Json> {
    map["token" := token, "Content-Type" := JStr("application/json")]
  }

  // ---- the client as functions of its state ----

  /** `fetch_token`. */
  function FetchTokenSpec(c: Config, s: Session): (r: (Result<()>, Session))
    ensures r.1.wire == Send(s.wire, LoginRequest(c)).1 && r.1.header == s.header
    ensures var t := Login(Send(s.wire, LoginRequest(c)).0);
      && (r.0.Ok? <==> t.Ok?)
      && (r.0.Err? ==> r.0.error == t.error)
      && r.1.token == if t.Ok? then t.value else s.token
  {
    var (x, w) := Send(s.wire, LoginRequest(c));
    match Login(x)
    case Ok(t) => (Ok(()), Session(t, s.header, w))
    case Err(e) => (Err(e), Session(s.token, s.header, w))
  }

  /** `make_header`: a fresh token, and the header built from it. */
  function MakeHeaderSpec(c: Config, s: Session): (r: (Result<()>, Session))
    ensures r.1.wire == Send(s.wire, LoginRequest(c)).1
    ensures r.0.Ok? ==> s.wire.script != [] && |r.1.wire.script| < |s.wire.script|
    ensures var t := Login(Send(s.wire, LoginRequest(c)).0);
      && (r.0.Ok? <==> t.Ok?)
      && (r.0.Err? ==> r.0.error == t.error)
      && (t.Ok? ==> r.1.token == t.value && r.1.header == Header(t.value))
      && (t.Err? ==> r.1.token == s.token && r.1.header == s.header)
  {
    var (got, s1) := FetchTokenSpec(c, s);
    if got.Err? then (got, s1)
    else (Ok(()), s1.(header := Header(s1.token)))
  }

  /** `error_handler` followed by the caller's implicit `return None`: on
      401 the header is remade and the operation called again, its result
      dropped; any other status re-raises the HTTPError. */
  function ErrorHandlerSpec(c: Config, status: int, call: Call, s: Session): (Result<Json>, Session)
    decreases |s.wire.script|, 1
  {
    if status == 401 then
      var (h, s1) := MakeHeaderSpec(c, s);
      if h.Err? then (Err(h.error), s1)
      else
        var (again, s2) := InvokeSpec(c, call, s1);
        if again.Err? then (again, s2) else (Ok(JNull), s2)
    else (Err(HTTPError(status)), s)
  }

  function InvokeSpec(c: Config, call: Call, s: Session): (Result<Json>, Session)
    decreases |s.wire.script|, 3
  {
    match call
    case CreateVisitorCall(visitor) => CreateVisitorSpec(c, visitor, s)
    case GetVisitorByBarcodeCall(barcode) => GetVisitorByBarcodeSpec(c, barcode, s)
    case CreatePreregCall(booking, visitor) => CreatePreregSpec(c, booking, visitor, s)
  }

  /** `create_visitor`. An HTTP error whose body mentions
      ALREADY_EXIST_UNIQUE_ID looks the visitor up by barcode instead. */
  function CreateVisitorSpec(c: Config, visitor: Json, s: Session): (Result<Json>, Session)
    decreases |s.wire.script|, 2
  {
    match VisitorParams(c.userMapping, visitor)
    case Err(e) => (Err(e), s)
    case Ok(params) =>
      var (x, w) := Send(s.wire, Request(POST, c.apiRoot + c.createVisitorEndpt, s.header, params));
      var s1 := s.(wire := w);
      if x.Unreachable? then (Err(ConnectionError), s1)
      else if RaiseForStatus(x.response).Err? then
        if IsSubstring("ALREADY_EXIST_UNIQUE_ID", x.response.text) then
          GetVisitorByBarcodeSpec(c, visitor.fields["barcode"], s1)
        else ErrorHandlerSpec(c, x.response.status, CreateVisitorCall(visitor), s1)
      else (IdFrom(x.response, true), s1)
  }

  /** `get_visitor_bybarcode`. */
  function GetVisitorByBarcodeSpec(c: Config, barcode: Json, s: Session): (Result<Json>, Session)
    decreases |s.wire.script|, 2
  {
    var req := Request(GET, c.apiRoot + c.uniqueIdEndpt, s.header, map["uniqueId" := JStr(PyStr(barcode))]);
    var (x, w) := Send(s.wire, req);
    var s1 := s.(wire := w);
    if x.Unreachable? then (Err(ConnectionError), s1)
    else if RaiseForStatus(x.response).Err? then
      ErrorHandlerSpec(c, x.response.status, GetVisitorByBarcodeCall(barcode), s1)
    else (IdFrom(x.response, false), s1)
  }

  /** `create_prereg`. */
  function CreatePreregSpec(c: Config, booking: Json, visitor: Json, s: Session): (Result<Json>, Session)
    decreases |s.wire.script|, 2
  {
    match PreregPayload(c.locationMapping, booking, visitor)
    case Err(e) => (Err(e), s)
    case Ok(payload) =>
      var (x, w) := Send(s.wire, Request(POST, c.apiRoot + c.createPreregEndpt, s.header, payload));
      var s1 := s.(wire := w);
      if x.Unreachable? then (Err(ConnectionError), s1)
      else if RaiseForStatus(x.response).Err? then
        ErrorHandlerSpec(c, x.response.status, CreatePreregCall(booking, visitor), s1)
      else (IdFrom(x.response, true), s1)
  }

  // ---- what the client promises ----

  /** The request `create_visitor` sends. */
  function VisitorRequest(c: Config, s: Session, visitor: Json): Request
    requires VisitorParams(c.userMapping, visitor).Ok?
  {
    Request(POST, c.apiRoot + c.createVisitorEndpt, s.header, VisitorParams(c.userMapping, visitor).value)
  }

  /** A successful reply gives the visitor's id, with one request sent and
      the token kept; an `error` key in it raises instead. */
  lemma CreateVisitorSuccess(c: Config, visitor: Json, s: Session, p: Json)
    requires VisitorParams(c.userMapping, visitor).Ok?
    requires s.wire.script != [] && SuccessPayload(s.wire.script[0]) == Some(p)
    requires Contains(p, "error").Ok?
    ensures var (r, s') := CreateVisitorSpec(c, visitor, s);
      && s' == s.(wire := Wire(s.wire.script[1..], s.wire.sent + [VisitorRequest(c, s, visitor)]))
      && r == if Contains(p, "error").value then Err(Raised(p)) else ExtractId(p)
  {
  }

  /** An HTTP error naming ALREADY_EXIST_UNIQUE_ID turns into a lookup of
      the visitor by barcode. */
  lemma CreateVisitorAlreadyExists(c: Config, visitor: Json, s: Session, resp: Response)
    requires VisitorParams(c.userMapping, visitor).Ok?
    requires s.wire.script != [] && s.wire.script[0] == Reply(resp)
    requires 400 <= resp.status < 600 && IsSubstring("ALREADY_EXIST_UNIQUE_ID", resp.text)
    ensures CreateVisitorSpec(c, visitor, s)
         == GetVisitorByBarcodeSpec(c, visitor.fields["barcode"],
              s.(wire := Wire(s.wire.script[1..], s.wire.sent + [VisitorRequest(c, s, visitor)])))
  {
  }

  /** Any HTTP error other than 401 that does not name
      ALREADY_EXIST_UNIQUE_ID is raised again as it is, and nothing else is
      sent. */
  lemma CreateVisitorOtherError(c: Config, visitor: Json, s: Session, resp: Response)
    requires VisitorParams(c.userMapping, visitor).Ok?
    requires s.wire.script != [] && s.wire.script[0] == Reply(resp)
    requires 400 <= resp.status < 600 && resp.status != 401
    requires !IsSubstring("ALREADY_EXIST_UNIQUE_ID", resp.text)
    ensures var (r, s') := CreateVisitorSpec(c, visitor, s);
      && r == Err(HTTPError(resp.status))
      && s' == s.(wire := Wire(s.wire.script[1..], s.wire.sent + [VisitorRequest(c, s, visitor)]))
  {
  }

  /** The request `create_prereg` sends. */
  function PreregRequest(c: Config, s: Session, booking: Json, visitor: Json): Request
    requires PreregPayload(c.locationMapping, booking, visitor).Ok?
  {
    Request(POST, c.apiRoot + c.createPreregEndpt, s.header, PreregPayload(c.locationMapping, booking, visitor).value)
  }

  /** A successful reply gives the pre-registration's id, with one request
      sent and the token kept; an `error` key in it raises instead. */
  lemma CreatePreregSuccess(c: Config, booking: Json, visitor: Json, s: Session, p: Json)
    requires PreregPayload(c.locationMapping, booking, visitor).Ok?
    requires s.wire.script != [] && SuccessPayload(s.wire.script[0]) == Some(p)
    requires Contains(p, "error").Ok?
    ensures var (r, s') := CreatePreregSpec(c, booking, visitor, s);
      && s' == s.(wire := Wire(s.wire.script[1..], s.wire.sent + [PreregRequest(c, s, booking, visitor)]))
      && r == if Contains(p, "error").value then Err(Raised(p)) else ExtractId(p)
  {
  }

  /** Any HTTP error other than 401 is raised again as it is, and nothing
      else is sent. */
  lemma CreatePreregOtherError(c: Config, booking: Json, visitor: Json, s: Session, resp: Response)
    requires PreregPayload(c.locationMapping, booking, visitor).Ok?
    requires s.wire.script != [] && s.wire.script[0] == Reply(resp)
    requires 400 <= resp.status < 600 && resp.status != 401
    ensures var (r, s') := CreatePreregSpec(c, booking, visitor, s);
      && r == Err(HTTPError(resp.status))
      && s' == s.(wire := Wire(s.wire.script[1..], s.wire.sent + [PreregRequest(c, s, booking, visitor)]))
  {
  }

  /** Any HTTP error other than 401 is raised again as it is, and nothing
      else is sent. */
  lemma GetVisitorOtherError(c: Config, barcode: Json, s: Session, resp: Response)
    requires s.wire.script != [] && s.wire.script[0] == Reply(resp)
    requires 400 <= resp.status < 600 && resp.status != 401
    ensures var (r, s') := GetVisitorByBarcodeSpec(c, barcode, s);
      r == Err(HTTPError(resp.status)) && s'.token == s.token && |s'.wire.sent| == |s.wire.sent| + 1
  {
  }

  /** On 401 the token is fetched again, the header rebuilt from it, and the
      operation called again; whatever that call returns, success comes back
      as None. */
  lemma Refresh(c: Config, call: Call, s: Session, status: int, token: Json)
    requires status == 401
    requires s.wire.script != [] && SuccessPayload(s.wire.script[0]) == Some(JObj(map["token" := token]))
    ensures var after := Session(token, Header(token),
                                 Wire(s.wire.script[1..], s.wire.sent + [LoginRequest(c)]));
      var (again, s2) := InvokeSpec(c, call, after);
      ErrorHandlerSpec(c, status, call, s) == (if again.Err? then again else Ok(JNull), s2)
  {
    assert "error" !in map["token" := token];
  }

  function Unauthorized(): Exchange {
    Reply(Response(401, "", None))
  }

  function LoginOk(token: Json): Exchange {
    Reply(Response(200, "", Some(JObj(map["token" := token]))))
  }

  /** `n` rounds of a 401 answered by a fresh login. */
  function Refusals(n: nat, token: Json): seq<Exchange> {
    if n == 0 then [] else [Unauthorized(), LoginOk(token)] + Refusals(n - 1, token)
  }

  /** The lookup request `get_visitor_bybarcode` sends. */
  function LookupRequest(c: Config, s: Session, barcode: Json): Request {
    Request(GET, c.apiRoot + c.uniqueIdEndpt, s.header, map["uniqueId" := JStr(PyStr(barcode))])
  }

  /** One refusal: a 401 answered by a fresh login leaves the lookup to be
      made again with the new header, its success reported as None. */
  lemma RefusedOnce(c: Config, barcode: Json, s: Session, token: Json)
    requires |s.wire.script| >= 2
    requires s.wire.script[0] == Unauthorized() && s.wire.script[1] == LoginOk(token)
    ensures var s2 := Session(token, Header(token),
                              Wire(s.wire.script[2..], s.wire.sent + [LookupRequest(c, s, barcode), LoginRequest(c)]));
      var (again, s3) := GetVisitorByBarcodeSpec(c, barcode, s2);
      GetVisitorByBarcodeSpec(c, barcode, s) == (if again.Err? then again else Ok(JNull), s3)
  {
    var s1 := s.(wire := Wire(s.wire.script[1..], s.wire.sent + [LookupRequest(c, s, barcode)]));
    assert s1.wire.script[0] == LoginOk(token);
    assert s1.wire.script[1..] == s.wire.script[2..];
    assert "error" !in map["token" := token];
    assert s1.wire.sent + [LoginRequest(c)] == s.wire.sent + [LookupRequest(c, s, barcode), LoginRequest(c)];
    var s2 := Session(token, Header(token), Wire(s.wire.script[2..], s.wire.sent + [LookupRequest(c, s, barcode), LoginRequest(c)]));
    assert MakeHeaderSpec(c, s1) == (Ok(()), s2);
    var call := GetVisitorByBarcodeCall(barcode);
    assert GetVisitorByBarcodeSpec(c, barcode, s) == ErrorHandlerSpec(c, 401, call, s1);
    var (again, s3) := InvokeSpec(c, call, s2);
    assert (again, s3) == GetVisitorByBarcodeSpec(c, barcode, s2);
    assert ErrorHandlerSpec(c, 401, call, s1) == (if again.Err? then again else Ok(JNull), s3);
  }

  /** No bound on refreshes: after any number of 401s the lookup still
      reaches the final answer, sending two requests per refusal, and once
      refused it returns None even when the last call succeeds. */
  lemma {:induction false} GetVisitorRetriesUnbounded(c: Config, barcode: Json, s: Session, n: nat, token: Json, last: Exchange)
    requires s.wire.script == Refusals(n, token) + [last]
    requires SuccessPayload(last).Some? && ExtractId(SuccessPayload(last).value).Ok?
    ensures var (r, s') := GetVisitorByBarcodeSpec(c, barcode, s);
      && r == (if n == 0 then ExtractId(SuccessPayload(last).value) else Ok(JNull))
      && |s'.wire.sent| == |s.wire.sent| + 2 * n + 1
      && s'.wire.script == []
    decreases n
  {
    if n == 0 {
      assert s.wire.script == [last];
    } else {
      assert s.wire.script[2..] == Refusals(n - 1, token) + [last];
      var s2 := Session(token, Header(token),
                        Wire(s.wire.script[2..], s.wire.sent + [LookupRequest(c, s, barcode), LoginRequest(c)]));
      RefusedOnce(c, barcode, s, token);
      GetVisitorRetriesUnbounded(c, barcode, s2, n - 1, token, last);
    }
  }

  // ---- the client ----

  /** The PassagePoint client. */
  class PassagePointRequests {
    const config: Config
    var token: Json
    var reqHeader: map<string, Json>
    var wire: Wire

    /** `__init__` with the configuration already checked; the header is
        made afterwards with `MakeHeader`. */
    constructor (config: Config, wire: Wire)
      ensures this.config == config && this.wire == wire
      ensures token == JNull && reqHeader == map[]
    {
      this.config := config;
      this.wire := wire;
      token := JNull;
      reqHeader := map[];
    }

    function State(): Session
      reads this
    {
      Session(token, reqHeader, wire)
    }

    /** `fetch_token`. */
    method FetchToken() returns (r: Result<()>)
      modifies this
      ensures (r, State()) == FetchTokenSpec(config, old(State()))
    {
      var (x, w) := Send(wire, LoginRequest(config));
      wire := w;
      var t := Login(x);
      if t.Err? {
        return Err(t.error);
      }
      token := t.value;
      r := Ok(());
    }

    /** `make_header`. */
    method MakeHeader() returns (r: Result<()>)
      modifies this
      ensures (r, State()) == MakeHeaderSpec(config, old(State()))
    {
      r := FetchToken();
      if r.Err? {
        return;
      }
      reqHeader := Header(token);
    }

    /** `retry`: remake the header, then call the operation again. */
    method Retry(call: Call) returns (r: Result<Json>)
      modifies this
      decreases |wire.script|, 2
      ensures var (h, s1) := MakeHeaderSpec(config, old(State()));
        (r, State()) == if h.Err? then (Err(h.error), s1) else InvokeSpec(config, call, s1)
    {
      var h := MakeHeader();
      if h.Err? {
        return Err(h.error);
      }
      r := Invoke(call);
    }

    /** `error_handler`, with the caller's implicit `return None`. */
    method ErrorHandler(status: int, call: Call) returns (r: Result<Json>)
      modifies this
      decreases |wire.script|, 3
      ensures (r, State()) == ErrorHandlerSpec(config, status, call, old(State()))
    {
      if status == 401 {
        var again := Retry(call);
        if again.Err? {
          return Err(again.error);
        }
        return Ok(JNull);
      }
      r := Err(HTTPError(status));
    }

    method Invoke(call: Call) returns (r: Result<Json>)
      modifies this
      decreases |wire.script|, 5
      ensures (r, State()) == InvokeSpec(config, call, old(State()))
    {
      match call
      case CreateVisitorCall(visitor) => r := CreateVisitor(visitor);
      case GetVisitorByBarcodeCall(barcode) => r := GetVisitorByBarcode(barcode);
      case CreatePreregCall(booking, visitor) => r := CreatePrereg(booking, visitor);
    }

    /** `create_visitor`. */
    method CreateVisitor(visitor: Json) returns (r: Result<Json>)
      modifies this
      decreases |wire.script|, 4
      ensures (r, State()) == CreateVisitorSpec(config, visitor, old(State()))
    {
      var built := VisitorParams(config.userMapping, visitor);
      if built.Err? {
        return Err(built.error);
      }
      var (x, w) := Send(wire, Request(POST, config.apiRoot + config.createVisitorEndpt, reqHeader, built.value));
      wire := w;
      if x.Unreachable? {
        return Err(ConnectionError);
      }
      var resp := x.response;
      if RaiseForStatus(resp).Err? {
        if IsSubstring("ALREADY_EXIST_UNIQUE_ID", resp.text) {
          r := GetVisitorByBarcode(visitor.fields["barcode"]);
          return;
        }
        r := ErrorHandler(resp.status, CreateVisitorCall(visitor));
        return;
      }
      r := IdFrom(resp, true);
    }

    /** `get_visitor_bybarcode`. */
    method GetVisitorByBarcode(barcode: Json) returns (r: Result<Json>)
      modifies this
      decreases |wire.script|, 4
      ensures (r, State()) == GetVisitorByBarcodeSpec(config, barcode, old(State()))
    {
      var params := map["uniqueId" := JStr(PyStr(barcode))];
      var (x, w) := Send(wire, Request(GET, config.apiRoot + config.uniqueIdEndpt, reqHeader, params));
      wire := w;
      if x.Unreachable? {
        return Err(ConnectionError);
      }
      var resp := x.response;
      if RaiseForStatus(resp).Err? {
        r := ErrorHandler(resp.status, GetVisitorByBarcodeCall(barcode));
        return;
      }
      r := IdFrom(resp, false);
    }

    /** `create_prereg`. */
    method CreatePrereg(booking: Json, visitor: Json) returns (r: Result<Json>)
      modifies this
      decreases |wire.script|, 4
      ensures (r, State()) == CreatePreregSpec(config, booking, visitor, old(State()))
    {
      var prereg := PreregPayload(config.locationMapping, booking, visitor);
      if prereg.Err? {
        return Err(prereg.error);
      }
      var (x, w) := Send(wire, Request(POST, config.apiRoot + config.createPreregEndpt, reqHeader, prereg.value));
      wire := w;
      if x.Unreachable? {
        return Err(ConnectionError);
      }
      var resp := x.response;
      if RaiseForStatus(resp).Err? {
        r := ErrorHandler(resp.status, CreatePreregCall(booking, visitor));
        return;
      }
      r := IdFrom(resp, true);
    }
  }
}
