/**
 * The Messana REST client: URL building, the single request routine with its
 * error classification, and one normaliser per endpoint.
 */
module Api {
  import opened Wrappers
  import opened Json
  import opened Text

  datatype Method = GET | PUT

  /** One HTTP request as handed to the transport: the API key always travels as a query parameter. */
  datatype Request = Request(verb: Method, url: string, params: map<string, string>, json: Option<JsonValue>, timeout: real)

  /** The body of an answered request: decoded JSON, or the decoder's complaint. */
  datatype Body = Decoded(value: JsonValue) | Undecodable(reason: string)

  /** What the transport yields for a request: no answer at all, or a status line and a body. */
  datatype Response =
    | TransportFailure(message: string)
    | HttpResponse(status: int, reason: string, body: Body)

  /** The controller as seen by the client: every request gets a response. */
  type Device = Request -> Response

  datatype Client = Client(baseUrl: string, apiKey: string, timeout: real)

  /** The timeout a client gets when it is built from a URL and a key alone, in seconds. */
  const DefaultTimeout: real := 10.0

  /** `MessanaClient(hass=..., base_url=..., api_key=...)`, as the integration builds it. */
  function NewClient(baseUrl: string, apiKey: string): (c: Client)
    ensures c.baseUrl == baseUrl && c.apiKey == apiKey && c.timeout == DefaultTimeout
  {
    Client(baseUrl, apiKey, DefaultTimeout)
  }

  /**
   * The exceptions that can leave a client method. `ApiError` is `MessanaApiError`;
   * `ZoneCountError` is the `ValueError` of `get_zone_count`; `ConversionFailed` is a
   * `TypeError`/`ValueError` from an unguarded `int(...)`; `MissingMethod` is an
   * `AttributeError` for a method the client does not define.
   */
  datatype Error =
    | ApiError(message: string)
    | ZoneCountError(response: Object)
    | ConversionFailed(kind: ConversionError)
    | MissingMethod(name: string)

  /** The exceptions raised inside the `try` block of `_request`, before its handlers run. */
  datatype Raised =
    | RaisedAuth(message: string)
    | RaisedHttp(status: int, reason: string)
    | RaisedOther(message: string)

  const UnauthorizedMessage := "Unauthorized (check API key)"

  function HttpErrorMessage(status: int, reason: string): string {
    "HTTP error " + IntToString(status) + ": " + reason
  }

  /** `base_url` without its trailing slashes, followed by `path` verbatim. */
  function Url(c: Client, path: string): (u: string)
    ensures |path| <= |u| && u[|u| - |path|..] == path
    ensures var host := u[..|u| - |path|];
      && host <= c.baseUrl
      && (|host| == 0 || host[|host| - 1] != '/')
      && forall k :: |host| <= k < |c.baseUrl| ==> c.baseUrl[k] == '/'
  {
    var host := RStrip(c.baseUrl, '/');
    assert (host + path)[..|host|] == host;
    host + path
  }

  function BuildRequest(c: Client, verb: Method, path: string, json: Option<JsonValue>): (r: Request)
    ensures r.params.Keys == {"apikey"} && r.params["apikey"] == c.apiKey
    ensures r.url == Url(c, path) && r.verb == verb && r.json == json && r.timeout == c.timeout
  {
    Request(verb, Url(c, path), map["apikey" := c.apiKey], json, c.timeout)
  }

  /** The device answered: a status below 400 and a body that decoded. */
  predicate Answered(resp: Response) {
    resp.HttpResponse? && resp.status < 400 && resp.body.Decoded?
  }

  /** A decoded body that is not an object becomes the one-field object `{"value": body}`. */
  function AsObject(v: JsonValue): Object {
    if v.JObject? then v.fields else map["value" := v]
  }

  /**
   * The `try` block of `_request`: a 401 raises the auth error, any status of 400 or
   * more raises aiohttp's response error, a transport or decoding failure raises
   * whatever the transport raised; otherwise the body is normalised to an object.
   */
  function Exchange(c: Client, dev: Device, verb: Method, path: string, json: Option<JsonValue>): (r: Result<Object, Raised>)
    ensures var resp := dev(BuildRequest(c, verb, path, json));
      && (resp.TransportFailure? ==> r == Failure(RaisedOther(resp.message)))
      && (resp.HttpResponse? && resp.status == 401 ==> r == Failure(RaisedAuth(UnauthorizedMessage)))
      && (resp.HttpResponse? && resp.status != 401 && resp.status >= 400 ==> r == Failure(RaisedHttp(resp.status, resp.reason)))
      && (resp.HttpResponse? && resp.status < 400 && resp.body.Undecodable? ==> r == Failure(RaisedOther(resp.body.reason)))
      && (r.Success? <==> Answered(resp))
      && (r.Success? ==> r.value == AsObject(resp.body.value))
  {
    match dev(BuildRequest(c, verb, path, json))
    case TransportFailure(m) => Failure(RaisedOther(m))
    case HttpResponse(status, reason, body) =>
      if status == 401 then Failure(RaisedAuth(UnauthorizedMessage))
      else if status >= 400 then Failure(RaisedHttp(status, reason))
      else
        match body
        case Undecodable(m) => Failure(RaisedOther(m))
        case Decoded(v) => Success(AsObject(v))
  }

  /**
   * The two `except` clauses of `_request`: aiohttp's response error gets the
   * "HTTP error" text, everything else (the auth error included) is rewrapped with
   * its own text. Either way the result is a plain `MessanaApiError`.
   */
  function Handle(x: Raised): (e: Error)
    ensures e.ApiError?
    ensures x.RaisedHttp? ==> e.message == HttpErrorMessage(x.status, x.reason)
    ensures x.RaisedAuth? ==> e.message == x.message
    ensures x.RaisedOther? ==> e.message == x.message
  {
    match x
    case RaisedHttp(status, reason) => ApiError(HttpErrorMessage(status, reason))
    case RaisedAuth(m) => ApiError(m)
    case RaisedOther(m) => ApiError(m)
  }

  /** `_request`: one HTTP exchange, every failure surfaced as a plain API error. */
  function Send(c: Client, dev: Device, verb: Method, path: string, json: Option<JsonValue>): (r: Result<Object, Error>)
    ensures r.Failure? ==> r.error.ApiError?
    ensures Exchange(c, dev, verb, path, json).Success? ==> r == Exchange(c, dev, verb, path, json).PropagateSuccess()
  {
    match Exchange(c, dev, verb, path, json)
    case Success(o) => Success(o)
    case Failure(x) => Failure(Handle(x))
  }

  /**
   * How `_request` ends for each kind of response: a 401 gives the generic API error
   * "Unauthorized (check API key)" (the auth error does not survive the handlers), any
   * other status of 400 or more gives "HTTP error {status}: {reason}", a transport or
   * decoding failure gives its own text, and a decoded body comes back as an object.
   */
  lemma SendClassification(c: Client, dev: Device, verb: Method, path: string, json: Option<JsonValue>)
    ensures var resp := dev(BuildRequest(c, verb, path, json));
      var r := Send(c, dev, verb, path, json);
      && (resp.HttpResponse? && resp.status == 401 ==> r == Failure(ApiError(UnauthorizedMessage)))
      && (resp.HttpResponse? && resp.status != 401 && resp.status >= 400 ==>
            r == Failure(ApiError(HttpErrorMessage(resp.status, resp.reason))))
      && (resp.TransportFailure? ==> r == Failure(ApiError(resp.message)))
      && (resp.HttpResponse? && resp.status < 400 && resp.body.Undecodable? ==> r == Failure(ApiError(resp.body.reason)))
      && (resp.HttpResponse? && resp.status < 400 && resp.body.Decoded? ==> r == Success(AsObject(resp.body.value)))
  {
  }

  /** The bare body and the object `{"value": body}` are indistinguishable after normalisation. */
  lemma AsObjectNormalises(v: JsonValue)
    ensures !v.JObject? ==> AsObject(v).Keys == {"value"} && AsObject(v)["value"] == v
    ensures v.JObject? ==> AsObject(v) == v.fields
    ensures AsObject(JObject(AsObject(v))) == AsObject(v)
    ensures !v.JObject? ==> AsObject(JObject(map["value" := v])) == AsObject(v)
  {
  }

  // -------- field extraction --------

  function Fetch(c: Client, dev: Device, path: string): Result<Object, Error> {
    Send(c, dev, GET, path, None)
  }

  function Put(c: Client, dev: Device, path: string, body: Object): Result<Object, Error> {
    Send(c, dev, PUT, path, Some(JObject(body)))
  }

  /** The answer to a GET of `path` arrived and has no `key` field, so a default applies. */
  predicate LacksField(c: Client, dev: Device, path: string, key: string) {
    var o := Fetch(c, dev, path);
    o.Success? && key !in o.value
  }

  /** `int(data.get(key, default))`: the default only when the key is absent; a null or non-number raises. */
  function IntField(p: Parsers, o: Object, key: string, default: int): (r: Result<int, Error>)
    ensures key !in o ==> r == Success(default)
    ensures key in o ==> (r.Success? <==> PyInt(p, o[key]).Success?)
    ensures r.Success? && key in o ==> r.value == PyInt(p, o[key]).value
    ensures r.Failure? ==> r.error.ConversionFailed?
  {
    match PyInt(p, Get(o, key, JInt(default)))
    case Success(n) => Success(n)
    case Failure(k) => Failure(ConversionFailed(k))
  }

  /** Readings at or below this value are the device's "no reading" placeholder (-3276.8). */
  const SentinelThreshold: real := -3000.0

  /** `float(data.get("value"))`, with a missing, null or unparseable value read as no reading. */
  function ReadingOf(p: Parsers, o: Object): (t: Option<real>)
    ensures t.None? <==> "value" !in o || o["value"].JNull? || PyFloat(p, o["value"]).Failure?
    ensures t.Some? ==> "value" in o && PyFloat(p, o["value"]) == Success(t.value)
  {
    var v := Get(o, "value", JNull);
    if v.JNull? then None
    else match PyFloat(p, v)
      case Success(x) => Some(x)
      case Failure(_) => None
  }

  /** The temperature normaliser: a reading, except that the sentinel range also means no reading. */
  function TemperatureOf(p: Parsers, o: Object): (t: Option<real>)
    ensures t.Some? ==> t.value > SentinelThreshold
    ensures t.None? <==> "value" !in o || o["value"].JNull? || PyFloat(p, o["value"]).Failure?
                         || PyFloat(p, o["value"]).value <= SentinelThreshold
    ensures t.Some? ==> "value" in o && PyFloat(p, o["value"]) == Success(t.value)
  {
    var v := Get(o, "value", JNull);
    if v.JNull? then None
    else match PyFloat(p, v)
      case Success(x) => if x <= SentinelThreshold then None else Some(x)
      case Failure(_) => None
  }

  /** The temperature normaliser is the plain reading filtered by the sentinel, and nothing else. */
  lemma TemperatureIsFilteredReading(p: Parsers, o: Object)
    ensures TemperatureOf(p, o) == (match ReadingOf(p, o)
                                    case Some(x) => if x <= SentinelThreshold then None else Some(x)
                                    case None => None)
  {
  }

  /** The sentinel boundary: -3000 and -3276.8 mean no temperature, -2999.9 is a temperature; other readings keep -3276.8. */
  lemma SentinelBoundary(p: Parsers)
    ensures TemperatureOf(p, map["value" := JFloat(-3000.0)]) == None
    ensures TemperatureOf(p, map["value" := JInt(-3000)]) == None
    ensures TemperatureOf(p, map["value" := JFloat(-3276.8)]) == None
    ensures TemperatureOf(p, map["value" := JFloat(-2999.9)]) == Some(-2999.9)
    ensures ReadingOf(p, map["value" := JFloat(-3276.8)]) == Some(-3276.8)
  {
  }

  /** Only the `value` key is read: a body carrying just `values` has no reading. */
  lemma ReadingIgnoresValuesKey(p: Parsers, x: real)
    ensures ReadingOf(p, map["values" := JFloat(x)]) == None
    ensures ReadingOf(p, map["value" := JFloat(x)]) == Some(x)
  {
  }

  // -------- system --------

  const SystemStatusPath := "/api/system/status"
  const TempUnitPath := "/api/system/tempUnit"
  const ZoneCountPath := "/api/system/zoneCount"
  const HcGroupCountPath := "/api/system/HCgroupCount"

  function GetSystemStatus(c: Client, dev: Device, p: Parsers): (r: Result<int, Error>)
    ensures r.Failure? ==> r.error.ApiError? || r.error.ConversionFailed?
    ensures var resp := dev(BuildRequest(c, GET, SystemStatusPath, None));
      && (!Answered(resp) ==> r.Failure? && r.error.ApiError?)
      && (Answered(resp) ==> r == IntField(p, AsObject(resp.body.value), "value", 0))
  {
    var o :- Fetch(c, dev, SystemStatusPath);
    IntField(p, o, "value", 0)
  }

  function SystemStatusBody(on: bool): Object {
    map["value" := JInt(if on then 1 else 0)]
  }

  function SetSystemStatus(c: Client, dev: Device, on: bool): (r: Result<(), Error>)
    ensures r.Failure? ==> r.error.ApiError?
    ensures var resp := dev(Request(PUT, Url(c, SystemStatusPath), map["apikey" := c.apiKey],
                                    Some(JObject(map["value" := JInt(if on then 1 else 0)])), c.timeout));
      r.Success? <==> Answered(resp)
  {
    var _ :- Put(c, dev, SystemStatusPath, SystemStatusBody(on));
    Success(())
  }

  function GetTempUnit(c: Client, dev: Device, p: Parsers): (r: Result<string, Error>)
    ensures r.Failure? ==> r.error.ApiError?
    ensures var resp := dev(BuildRequest(c, GET, TempUnitPath, None));
      && (!Answered(resp) ==> r.Failure? && r.error.ApiError?)
      && (Answered(resp) ==> r == Success(PyStr(p, Get(AsObject(resp.body.value), "value", JString("Celsius")))))
  {
    var o :- Fetch(c, dev, TempUnitPath);
    Success(PyStr(p, Get(o, "value", JString("Celsius"))))
  }

  /** `int(data["count"])`, where every way of failing becomes the zone-count `ValueError`. */
  function ZoneCountOf(p: Parsers, o: Object): (r: Result<int, Error>)
    ensures r.Success? <==> "count" in o && PyInt(p, o["count"]).Success?
    ensures r.Success? ==> r.value == PyInt(p, o["count"]).value
    ensures r.Failure? ==> r.error == ZoneCountError(o)
  {
    if "count" !in o then Failure(ZoneCountError(o))
    else match PyInt(p, o["count"])
      case Success(n) => Success(n)
      case Failure(_) => Failure(ZoneCountError(o))
  }

  function GetZoneCount(c: Client, dev: Device, p: Parsers): (r: Result<int, Error>)
    ensures r.Failure? ==> r.error.ApiError? || r.error.ZoneCountError?
    ensures var resp := dev(BuildRequest(c, GET, ZoneCountPath, None));
      && (!Answered(resp) ==> r.Failure? && r.error.ApiError?)
      && (Answered(resp) ==> r == ZoneCountOf(p, AsObject(resp.body.value)))
  {
    var o :- Fetch(c, dev, ZoneCountPath);
    ZoneCountOf(p, o)
  }

  function GetHcGroupCount(c: Client, dev: Device, p: Parsers): (r: Result<int, Error>)
    ensures r.Failure? ==> r.error.ApiError? || r.error.ConversionFailed?
    ensures var resp := dev(BuildRequest(c, GET, HcGroupCountPath, None));
      && (!Answered(resp) ==> r.Failure? && r.error.ApiError?)
      && (Answered(resp) ==> r == IntField(p, AsObject(resp.body.value), "value", 0))
  {
    var o :- Fetch(c, dev, HcGroupCountPath);
    IntField(p, o, "value", 0)
  }

  // -------- H/C group --------

  function HcModePath(gid: int): string { "/api/hc/mode/" + IntToString(gid) }
  function HcSeasonPath(gid: int): string { "/api/hc/executiveSeason/" + IntToString(gid) }

  /** Mode 0 is heat, 1 cool, 2 auto; a missing mode reads as auto. */
  function GetHcMode(c: Client, dev: Device, p: Parsers, gid: int): (r: Result<int, Error>)
    ensures r.Failure? ==> r.error.ApiError? || r.error.ConversionFailed?
    ensures var resp := dev(BuildRequest(c, GET, HcModePath(gid), None));
      && (!Answered(resp) ==> r.Failure? && r.error.ApiError?)
      && (Answered(resp) ==> r == IntField(p, AsObject(resp.body.value), "value", 2))
  {
    var o :- Fetch(c, dev, HcModePath(gid));
    IntField(p, o, "value", 2)
  }

  function HcModeBody(gid: int, mode: int): Object {
    map["id" := JInt(gid), "value" := JInt(mode)]
  }

  function SetHcMode(c: Client, dev: Device, gid: int, mode: int): (r: Result<(), Error>)
    ensures r.Failure? ==> r.error.ApiError?
    ensures var resp := dev(Request(PUT, Url(c, "/api/hc/mode"), map["apikey" := c.apiKey],
                                    Some(JObject(map["id" := JInt(gid), "value" := JInt(mode)])), c.timeout));
      r.Success? <==> Answered(resp)
  {
    var _ :- Put(c, dev, "/api/hc/mode", HcModeBody(gid, mode));
    Success(())
  }

  /** Season 0 is heating, 1 cooling; a missing season reads as heating. */
  function GetHcExecutiveSeason(c: Client, dev: Device, p: Parsers, gid: int): (r: Result<int, Error>)
    ensures r.Failure? ==> r.error.ApiError? || r.error.ConversionFailed?
    ensures var resp := dev(BuildRequest(c, GET, HcSeasonPath(gid), None));
      && (!Answered(resp) ==> r.Failure? && r.error.ApiError?)
      && (Answered(resp) ==> r == IntField(p, AsObject(resp.body.value), "value", 0))
  {
    var o :- Fetch(c, dev, HcSeasonPath(gid));
    IntField(p, o, "value", 0)
  }

  // -------- zone --------

  function ZoneNamePath(zid: int): string { "/api/zone/name/" + IntToString(zid) }
  function ZoneTemperaturePath(zid: int): string { "/api/zone/temperature/" + IntToString(zid) }
  function ZoneHumidityPath(zid: int): string { "/api/zone/humidity/" + IntToString(zid) }
  function ZoneDewpointPath(zid: int): string { "/api/zone/dewpoint/" + IntToString(zid) }
  function ZoneSetpointPath(zid: int): string { "/api/zone/setpoint/" + IntToString(zid) }
  function ZoneStatusPath(zid: int): string { "/api/zone/status/" + IntToString(zid) }

  /** The name shown for a zone whose name is unknown: "Zone {id}". */
  function DefaultZoneName(zid: int): string {
    "Zone " + IntToString(zid)
  }

  function GetZoneName(c: Client, dev: Device, p: Parsers, zid: int): (r: Result<string, Error>)
    ensures r.Failure? ==> r.error.ApiError?
    ensures var resp := dev(BuildRequest(c, GET, ZoneNamePath(zid), None));
      && (!Answered(resp) ==> r.Failure? && r.error.ApiError?)
      && (Answered(resp) ==> r == Success(PyStr(p, Get(AsObject(resp.body.value), "name", JString(DefaultZoneName(zid))))))
  {
    var o :- Fetch(c, dev, ZoneNamePath(zid));
    Success(PyStr(p, Get(o, "name", JString(DefaultZoneName(zid)))))
  }

  function GetZoneTemperature(c: Client, dev: Device, p: Parsers, zid: int): (r: Result<Option<real>, Error>)
    ensures r.Failure? ==> r.error.ApiError?
    ensures r.Success? && r.value.Some? ==> r.value.value > SentinelThreshold
    ensures var resp := dev(BuildRequest(c, GET, ZoneTemperaturePath(zid), None));
      && (!Answered(resp) ==> r.Failure? && r.error.ApiError?)
      && (Answered(resp) ==> r == Success(TemperatureOf(p, AsObject(resp.body.value))))
  {
    var o :- Fetch(c, dev, ZoneTemperaturePath(zid));
    Success(TemperatureOf(p, o))
  }

  function GetZoneHumidity(c: Client, dev: Device, p: Parsers, zid: int): (r: Result<Option<real>, Error>)
    ensures r.Failure? ==> r.error.ApiError?
    ensures var resp := dev(BuildRequest(c, GET, ZoneHumidityPath(zid), None));
      && (!Answered(resp) ==> r.Failure? && r.error.ApiError?)
      && (Answered(resp) ==> r == Success(ReadingOf(p, AsObject(resp.body.value))))
  {
    var o :- Fetch(c, dev, ZoneHumidityPath(zid));
    Success(ReadingOf(p, o))
  }

  function GetZoneDewpoint(c: Client, dev: Device, p: Parsers, zid: int): (r: Result<Option<real>, Error>)
    ensures r.Failure? ==> r.error.ApiError?
    ensures var resp := dev(BuildRequest(c, GET, ZoneDewpointPath(zid), None));
      && (!Answered(resp) ==> r.Failure? && r.error.ApiError?)
      && (Answered(resp) ==> r == Success(ReadingOf(p, AsObject(resp.body.value))))
  {
    var o :- Fetch(c, dev, ZoneDewpointPath(zid));
    Success(ReadingOf(p, o))
  }

  function GetZoneSetpoint(c: Client, dev: Device, p: Parsers, zid: int): (r: Result<Option<real>, Error>)
    ensures r.Failure? ==> r.error.ApiError?
    ensures var resp := dev(BuildRequest(c, GET, ZoneSetpointPath(zid), None));
      && (!Answered(resp) ==> r.Failure? && r.error.ApiError?)
      && (Answered(resp) ==> r == Success(ReadingOf(p, AsObject(resp.body.value))))
  {
    var o :- Fetch(c, dev, ZoneSetpointPath(zid));
    Success(ReadingOf(p, o))
  }

  function SetpointBody(zid: int, temperature: real): Object {
    map["id" := JInt(zid), "value" := JFloat(temperature)]
  }

  function SetZoneSetpoint(c: Client, dev: Device, zid: int, temperature: real): (r: Result<(), Error>)
    ensures r.Failure? ==> r.error.ApiError?
    ensures var resp := dev(Request(PUT, Url(c, "/api/zone/setpoint"), map["apikey" := c.apiKey],
                                    Some(JObject(map["id" := JInt(zid), "value" := JFloat(temperature)])), c.timeout));
      r.Success? <==> Answered(resp)
  {
    var _ :- Put(c, dev, "/api/zone/setpoint", SetpointBody(zid, temperature));
    Success(())
  }

  function GetZoneStatus(c: Client, dev: Device, p: Parsers, zid: int): (r: Result<int, Error>)
    ensures r.Failure? ==> r.error.ApiError? || r.error.ConversionFailed?
    ensures var resp := dev(BuildRequest(c, GET, ZoneStatusPath(zid), None));
      && (!Answered(resp) ==> r.Failure? && r.error.ApiError?)
      && (Answered(resp) ==> r == IntField(p, AsObject(resp.body.value), "value", 0))
  {
    var o :- Fetch(c, dev, ZoneStatusPath(zid));
    IntField(p, o, "value", 0)
  }

  function ZoneStatusBody(zid: int, on: bool): Object {
    map["id" := JInt(zid), "value" := JInt(if on then 1 else 0)]
  }

  function SetZoneStatus(c: Client, dev: Device, zid: int, on: bool): (r: Result<(), Error>)
    ensures r.Failure? ==> r.error.ApiError?
    ensures var resp := dev(Request(PUT, Url(c, "/api/zone/status"), map["apikey" := c.apiKey],
                                    Some(JObject(map["id" := JInt(zid), "value" := JInt(if on then 1 else 0)])), c.timeout));
      r.Success? <==> Answered(resp)
  {
    var _ :- Put(c, dev, "/api/zone/status", ZoneStatusBody(zid, on));
    Success(())
  }

  /** Absent system fields take their defaults: status 0, unit "Celsius", H/C group count 0. The zone count has none: without `count` the call fails. */
  lemma SystemFieldDefaults(c: Client, dev: Device, p: Parsers)
    ensures LacksField(c, dev, SystemStatusPath, "value") ==> GetSystemStatus(c, dev, p) == Success(0)
    ensures LacksField(c, dev, TempUnitPath, "value") ==> GetTempUnit(c, dev, p) == Success("Celsius")
    ensures LacksField(c, dev, HcGroupCountPath, "value") ==> GetHcGroupCount(c, dev, p) == Success(0)
    ensures LacksField(c, dev, ZoneCountPath, "count") ==>
              GetZoneCount(c, dev, p) == Failure(ZoneCountError(Fetch(c, dev, ZoneCountPath).value))
  {
  }

  /** Absent H/C group fields take their defaults: mode 2 (auto) and executive season 0 (heating). */
  lemma GroupFieldDefaults(c: Client, dev: Device, p: Parsers, gid: int)
    ensures LacksField(c, dev, HcModePath(gid), "value") ==> GetHcMode(c, dev, p, gid) == Success(2)
    ensures LacksField(c, dev, HcSeasonPath(gid), "value") ==> GetHcExecutiveSeason(c, dev, p, gid) == Success(0)
  {
  }

  /** Absent zone fields take their defaults: name "Zone {id}", status 0, and no reading. */
  lemma ZoneFieldDefaults(c: Client, dev: Device, p: Parsers, zid: int)
    ensures LacksField(c, dev, ZoneNamePath(zid), "name") ==> GetZoneName(c, dev, p, zid) == Success(DefaultZoneName(zid))
    ensures LacksField(c, dev, ZoneStatusPath(zid), "value") ==> GetZoneStatus(c, dev, p, zid) == Success(0)
    ensures LacksField(c, dev, ZoneTemperaturePath(zid), "value") ==> GetZoneTemperature(c, dev, p, zid) == Success(None)
    ensures LacksField(c, dev, ZoneHumidityPath(zid), "value") ==> GetZoneHumidity(c, dev, p, zid) == Success(None)
    ensures LacksField(c, dev, ZoneDewpointPath(zid), "value") ==> GetZoneDewpoint(c, dev, p, zid) == Success(None)
    ensures LacksField(c, dev, ZoneSetpointPath(zid), "value") ==> GetZoneSetpoint(c, dev, p, zid) == Success(None)
  {
  }

  /**
   * Every setter's body, read back by the matching getter's normaliser, gives what was
   * written: power as 1 or 0, the mode as given, the setpoint as given (even below the
   * sentinel, which only the temperature normaliser filters).
   */
  lemma SetterBodiesReadBack(p: Parsers, on: bool, id: int, mode: int, t: real)
    ensures IntField(p, SystemStatusBody(on), "value", 0) == Success(if on then 1 else 0)
    ensures IntField(p, ZoneStatusBody(id, on), "value", 0) == Success(if on then 1 else 0)
    ensures IntField(p, HcModeBody(id, mode), "value", 2) == Success(mode)
    ensures ReadingOf(p, SetpointBody(id, t)) == Some(t)
    ensures TemperatureOf(p, SetpointBody(id, t)) == (if t <= SentinelThreshold then None else Some(t))
  {
  }
}
