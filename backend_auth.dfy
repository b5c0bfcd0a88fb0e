/** The backend's session cookie, the login check and the downlink endpoint's
    validation and request body (backend/main.py). */
module Auth {
  import opened Json
  import opened Py

  /** The settings main.py reads from its environment. */
  datatype Config = Config(webhookSecret: string, adminUser: string, adminPass: string)

  /** The signed-cookie serializer: `dumps` signs a value into a token and
      `loads` gives the value back, or fails (None) when the token does not
      decode or its signature does not match. Its signing is not modelled. */
  datatype Serializer = Serializer(dumps: Json -> string, loads: string -> Option<Json>)

  /** What the handlers rely on of the serializer: a token it issued decodes
      to the value it was issued for, and a token is never empty. */
  ghost predicate Sound(ser: Serializer)
  {
    forall v :: ser.loads(ser.dumps(v)) == Some(v) && ser.dumps(v) != ""
  }

  /** The value a session cookie carries, `{"ok": True}`. */
  const SessionValue: Json := JObj(map["ok" := JBool(true)])

  /** The cookie named "session", when the request carries one that is not empty. */
  function SessionCookie(cookies: map<string, string>): Option<string>
  {
    if "session" in cookies && cookies["session"] != "" then Some(cookies["session"]) else None
  }

  /** `require_session`: the request passes when its session cookie decodes
      to a dict whose "ok" equals True. A missing cookie, a token that does
      not decode and a dict without `ok == True` are each refused with 401; a
      token that decodes to something other than a dict makes `data.get`
      raise, which is a 500. */
  function RequireSession(cookies: map<string, string>, ser: Serializer): (r: Result<()>)
    ensures r.Ok? <==>
      && SessionCookie(cookies).Some?
      && ser.loads(SessionCookie(cookies).value).Some?
      && ser.loads(SessionCookie(cookies).value).value.JObj?
      && EqualsTrue(Member(ser.loads(SessionCookie(cookies).value).value, "ok"))
    ensures (r.Err? && r.failure.HttpError?) <==>
      || SessionCookie(cookies).None?
      || ser.loads(SessionCookie(cookies).value).None?
      || (ser.loads(SessionCookie(cookies).value).value.JObj?
          && !EqualsTrue(Member(ser.loads(SessionCookie(cookies).value).value, "ok")))
    ensures r.Err? && r.failure.HttpError? ==> r.failure.status == 401
  {
    match SessionCookie(cookies)
    case None => Err(HttpError(401, "No session"))
    case Some(cookie) =>
      match ser.loads(cookie)
      case None => Err(HttpError(401, "Bad session"))
      case Some(data) =>
        if !data.JObj? then Err(Crash)
        else if !EqualsTrue(Member(data, "ok")) then Err(HttpError(401, "Invalid session"))
        else Ok(())
  }

  /** `login`: when both "user" and "pass" match the configured credentials
      the answer sets the session cookie to a freshly signed `{"ok": True}`;
      otherwise it is refused with 401 and no cookie. The result is the
      cookie's value. */
  function Login(form: map<string, string>, cfg: Config, ser: Serializer): (r: Result<string>)
    ensures r.Ok? <==>
      "user" in form && form["user"] == cfg.adminUser && "pass" in form && form["pass"] == cfg.adminPass
    ensures r.Ok? ==> r.value == ser.dumps(SessionValue)
    ensures r.Err? ==> r.failure == HttpError(401, "Credenciales inválidas")
  {
    var user := if "user" in form then Some(form["user"]) else None;
    var pass := if "pass" in form then Some(form["pass"]) else None;
    if user == Some(cfg.adminUser) && pass == Some(cfg.adminPass) then Ok(ser.dumps(SessionValue))
    else Err(HttpError(401, "Credenciales inválidas"))
  }

  /** A cookie set by a successful login passes `require_session`. */
  lemma LoginOpensSession(form: map<string, string>, cfg: Config, ser: Serializer)
    requires Sound(ser)
    requires Login(form, cfg, ser).Ok?
    ensures RequireSession(map["session" := Login(form, cfg, ser).value], ser) == Ok(())
  {
  }

  /** One entry of the body sent to The Things Network's downlink queue. */
  datatype DownlinkMessage = DownlinkMessage(fPort: int, frmPayload: Json, confirmed: bool, priority: string)

  /** The "replace the downlink queue" request for one device: the device it
      is addressed to and the `downlinks` list of its JSON body. */
  datatype DownlinkReplace = DownlinkReplace(deviceId: Json, downlinks: seq<DownlinkMessage>)

  /** `payload.get(key, default)` on the request's JSON object. */
  function Field(payload: map<string, Json>, key: string, default: Json): Json
  {
    if key in payload then payload[key] else default
  }

  /** `downlink` up to the call to The Things Network: the session check
      first, then `confirmed` and `f_port` with their defaults (False and 10;
      an `f_port` that `int()` cannot convert raises before anything else is
      checked), then the 400 for a missing `device_id` or `frm_payload_b64`,
      then the request with exactly one downlink of priority "NORMAL". */
  function Downlink(payload: map<string, Json>, cookies: map<string, string>, ser: Serializer)
    : (r: Result<DownlinkReplace>)
    ensures RequireSession(cookies, ser).Err? ==> r == Err(RequireSession(cookies, ser).failure)
    ensures r.Ok? <==>
      && RequireSession(cookies, ser).Ok?
      && ToInt(Field(payload, "f_port", JNum(10.0))).Ok?
      && Truthy(Field(payload, "device_id", JNull)) && Truthy(Field(payload, "frm_payload_b64", JNull))
    ensures RequireSession(cookies, ser).Ok? && ToInt(Field(payload, "f_port", JNum(10.0))).Err? ==> r == Err(Crash)
    ensures r == Err(HttpError(400, "device_id y frm_payload_b64 son requeridos")) <==>
      && RequireSession(cookies, ser).Ok?
      && ToInt(Field(payload, "f_port", JNum(10.0))).Ok?
      && !(Truthy(Field(payload, "device_id", JNull)) && Truthy(Field(payload, "frm_payload_b64", JNull)))
    ensures r.Ok? ==>
      && "device_id" in payload && r.value.deviceId == payload["device_id"]
      && |r.value.downlinks| == 1
      && "frm_payload_b64" in payload
      && r.value.downlinks[0].frmPayload == payload["frm_payload_b64"]
      && r.value.downlinks[0].priority == "NORMAL"
      && r.value.downlinks[0].confirmed == ("confirmed" in payload && Truthy(payload["confirmed"]))
      && ("f_port" !in payload ==> r.value.downlinks[0].fPort == 10)
      && ("f_port" in payload ==> ToInt(payload["f_port"]) == Ok(r.value.downlinks[0].fPort))
  {
    var session :- RequireSession(cookies, ser);
    var deviceId := Field(payload, "device_id", JNull);
    var frmPayload := Field(payload, "frm_payload_b64", JNull);
    var confirmed := Truthy(Field(payload, "confirmed", JBool(false)));
    var fPort :- ToInt(Field(payload, "f_port", JNum(10.0)));
    if !(Truthy(deviceId) && Truthy(frmPayload)) then
      Err(HttpError(400, "device_id y frm_payload_b64 son requeridos"))
    else
      Ok(DownlinkReplace(deviceId, [DownlinkMessage(fPort, frmPayload, confirmed, "NORMAL")]))
  }

  /** A port sent as the decimal text of an integer reaches the request as
      that integer. */
  lemma PortFromDecimalText(payload: map<string, Json>, cookies: map<string, string>, ser: Serializer, port: int)
    requires RequireSession(cookies, ser).Ok?
    requires "device_id" in payload && Truthy(payload["device_id"])
    requires "frm_payload_b64" in payload && Truthy(payload["frm_payload_b64"])
    ensures var r := Downlink(payload["f_port" := JStr(Show(port))], cookies, ser);
      r.Ok? && r.value.downlinks[0].fPort == port
  {
    ParseIntShow(port);
    var p := payload["f_port" := JStr(Show(port))];
    assert Field(p, "device_id", JNull) == payload["device_id"];
    assert Field(p, "frm_payload_b64", JNull) == payload["frm_payload_b64"];
  }
}
