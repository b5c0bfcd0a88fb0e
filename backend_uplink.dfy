/** `ttn_uplink` up to its store effects: the authorization check, the
    required-field check and the extraction of one reading from The Things
    Network v3 uplink webhook body (backend/main.py). */
module Uplink {
  import opened Json
  import opened Py

  /** One reading as the handler extracts it. Its fields are the columns of
      the readings row and, under the same names, the keys of the JSON object
      pushed to the stream listeners. */
  datatype Reading = Reading(
    deviceId: Json,
    ts: Json,
    fCnt: Json,
    temperatureC: Json,
    pressureBar: Json,
    rssi: Json,
    snr: Json,
    gatewayId: Json)

  /** What the first `rx_metadata` entry contributes. */
  datatype Radio = Radio(rssi: Json, snr: Json, gatewayId: Json, lat: Json, lon: Json)

  const NoRadio: Radio := Radio(JNull, JNull, JNull, JNull, JNull)

  /** A parsed uplink: the reading and the receiving gateway's coordinates. */
  datatype Uplink = Uplink(reading: Reading, gatewayLat: Json, gatewayLon: Json)

  /** The value of the Authorization header the webhook must carry. */
  function Expected(secret: string): string
  {
    "Bearer " + secret
  }

  /** `body.get(key, default)` on a body that is a dict. */
  function Lookup(body: Json, key: string, default: Json): Json
    requires body.JObj?
  {
    if key in body.fields then body.fields[key] else default
  }

  /** A body on which the handler gets as far as its field check: a dict
      whose `end_device_ids` (default `{}`) is a dict. */
  predicate Reachable(body: Json)
  {
    body.JObj? && Lookup(body, "end_device_ids", EmptyObject).JObj?
  }

  function DeviceIdOf(body: Json): Json
    requires Reachable(body)
  {
    Member(Lookup(body, "end_device_ids", EmptyObject), "device_id")
  }

  function MessageOf(body: Json): Json
    requires Reachable(body)
  {
    Lookup(body, "uplink_message", EmptyObject)
  }

  /** A `rx_metadata` entry the handler can read: a dict whose `gateway_ids`
      (after `or {}`) is a dict and whose `location`, when truthy, is a dict. */
  predicate ReadableEntry(e: Json)
  {
    && e.JObj?
    && Or(Member(e, "gateway_ids"), EmptyObject).JObj?
    && (Truthy(Member(e, "location")) ==> Member(e, "location").JObj?)
  }

  /** The radio fields from `rx_metadata` after its `or []`: all None when it
      is empty or missing, otherwise read from its first entry only. A
      first entry the lookups cannot read, or a `rx_metadata` that is truthy
      but not a list, makes them raise. */
  function FirstRadio(meta: Json): (r: Result<Radio>)
    ensures r.Ok? <==> !Truthy(meta) || (meta.JArr? && ReadableEntry(meta.items[0]))
    ensures !Truthy(meta) ==> r == Ok(NoRadio)
    ensures r.Err? ==> r.failure == Crash
    ensures r.Ok? && Truthy(meta) ==>
      && r.value.rssi == Member(meta.items[0], "rssi")
      && r.value.snr == Member(meta.items[0], "snr")
      && r.value.gatewayId ==
           (if Truthy(Member(meta.items[0], "gateway_ids"))
            then Member(Member(meta.items[0], "gateway_ids"), "gateway_id") else JNull)
      && r.value.lat ==
           (if Truthy(Member(meta.items[0], "location"))
            then Member(Member(meta.items[0], "location"), "latitude") else JNull)
      && r.value.lon ==
           (if Truthy(Member(meta.items[0], "location"))
            then Member(Member(meta.items[0], "location"), "longitude") else JNull)
  {
    if !Truthy(meta) then Ok(NoRadio)
    else if !meta.JArr? || !meta.items[0].JObj? then Err(Crash)
    else
      var first := meta.items[0];
      var ids := Or(Member(first, "gateway_ids"), EmptyObject);
      var loc := Member(first, "location");
      if !ids.JObj? || (Truthy(loc) && !loc.JObj?) then Err(Crash)
      else
        var lat := if Truthy(loc) then Member(loc, "latitude") else JNull;
        var lon := if Truthy(loc) then Member(loc, "longitude") else JNull;
        Ok(Radio(Member(first, "rssi"), Member(first, "snr"), Member(ids, "gateway_id"), lat, lon))
  }

  /** Entries after the first never influence the radio fields. */
  lemma OnlyFirstEntry(first: Json, rest: seq<Json>, rest': seq<Json>)
    ensures FirstRadio(JArr([first] + rest)) == FirstRadio(JArr([first] + rest'))
  {
  }

  /** The decoded measurements after `or {}`. */
  function Decoded(up: Json): Json
  {
    Or(Member(up, "decoded_payload"), EmptyObject)
  }

  /** An `uplink_message` every lookup of the handler can read: a dict whose
      `decoded_payload` (after `or {}`) is a dict and whose radio metadata
      is readable. */
  predicate ReadableMessage(up: Json)
  {
    && up.JObj?
    && Decoded(up).JObj?
    && FirstRadio(Or(Member(up, "rx_metadata"), JArr([]))).Ok?
  }

  /** `ttn_uplink` before it touches the database. `authorization` is the
      header (None when absent), `body` the decoded request body (None when
      it is not JSON, which makes `req.json()` raise) and `now` the handler's
      clock reading, used when `received_at` is missing or empty. Each
      `.get` on a value that is not a dict raises, which is a 500 (Crash). */
  function ParseUplink(secret: string, authorization: Option<string>, body: Option<Json>, now: string)
    : (r: Result<Uplink>)
    ensures r == Err(HttpError(401, "unauthorized")) <==> authorization != Some(Expected(secret))
    ensures r == Err(HttpError(400, "bad payload")) <==>
      && authorization == Some(Expected(secret))
      && body.Some? && Reachable(body.value)
      && (!Truthy(DeviceIdOf(body.value)) || !Truthy(MessageOf(body.value)))
    ensures r.Ok? <==>
      && authorization == Some(Expected(secret))
      && body.Some? && Reachable(body.value)
      && Truthy(DeviceIdOf(body.value)) && Truthy(MessageOf(body.value))
      && ReadableMessage(MessageOf(body.value))
    ensures r == Err(Crash) <==>
      && authorization == Some(Expected(secret))
      && (|| body.None? || !Reachable(body.value)
          || (&& Truthy(DeviceIdOf(body.value)) && Truthy(MessageOf(body.value))
              && !ReadableMessage(MessageOf(body.value))))
    ensures r.Ok? ==>
      && r.value.reading.deviceId == DeviceIdOf(body.value)
      && r.value.reading.fCnt == Member(MessageOf(body.value), "f_cnt")
      && (Truthy(Member(MessageOf(body.value), "received_at")) ==>
            r.value.reading.ts == Member(MessageOf(body.value), "received_at"))
      && (!Truthy(Member(MessageOf(body.value), "received_at")) ==> r.value.reading.ts == JStr(now))
      && r.value.reading.temperatureC == Member(Decoded(MessageOf(body.value)), "temperature_c")
      && r.value.reading.pressureBar == Member(Decoded(MessageOf(body.value)), "pressure_bar")
      && FirstRadio(Or(Member(MessageOf(body.value), "rx_metadata"), JArr([]))) ==
           Ok(Radio(r.value.reading.rssi, r.value.reading.snr, r.value.reading.gatewayId,
                    r.value.gatewayLat, r.value.gatewayLon))
  {
    if authorization != Some(Expected(secret)) then Err(HttpError(401, "unauthorized"))
    else if body.None? || !body.value.JObj? then Err(Crash)
    else
      var ids := Lookup(body.value, "end_device_ids", EmptyObject);
      if !ids.JObj? then Err(Crash)
      else
        var deviceId := Member(ids, "device_id");
        var up := Lookup(body.value, "uplink_message", EmptyObject);
        if !Truthy(deviceId) || !Truthy(up) then Err(HttpError(400, "bad payload"))
        else if !up.JObj? then Err(Crash)
        else
          var ts := Or(Member(up, "received_at"), JStr(now));
          var decoded := Decoded(up);
          if !decoded.JObj? then Err(Crash)
          else
            var radio :- FirstRadio(Or(Member(up, "rx_metadata"), JArr([])));
            var reading := Reading(
              deviceId, ts, Member(up, "f_cnt"),
              Member(decoded, "temperature_c"), Member(decoded, "pressure_bar"),
              radio.rssi, radio.snr, radio.gatewayId);
            Ok(Uplink(reading, radio.lat, radio.lon))
  }

  /** One `rx_metadata` entry: a gateway with its identifiers and location. */
  function MetadataEntry(rssi: Json, snr: Json, gatewayId: string, lat: Json, lon: Json): Json
  {
    JObj(map[
      "rssi" := rssi, "snr" := snr,
      "gateway_ids" := JObj(map["gateway_id" := JStr(gatewayId)]),
      "location" := JObj(map["latitude" := lat, "longitude" := lon])])
  }

  /** Such an entry is read into the gateway's id and coordinates. */
  lemma ReadMetadataEntry(rssi: Json, snr: Json, gatewayId: string, lat: Json, lon: Json)
    ensures FirstRadio(JArr([MetadataEntry(rssi, snr, gatewayId, lat, lon)]))
            == Ok(Radio(rssi, snr, JStr(gatewayId), lat, lon))
  {
    var e := MetadataEntry(rssi, snr, gatewayId, lat, lon);
    assert Truthy(Member(e, "location")) by {
      assert "latitude" in Member(e, "location").fields;
    }
    assert Truthy(Member(e, "gateway_ids")) by {
      assert "gateway_id" in Member(e, "gateway_ids").fields;
    }
  }

  /** An `uplink_message` as The Things Network sends it: the frame counter,
      the reception time, the decoded temperature and pressure, and one
      metadata entry. */
  function UplinkMessage(fCnt: Json, receivedAt: string, temperature: Json, pressure: Json, entry: Json): Json
  {
    JObj(map[
      "f_cnt" := fCnt,
      "received_at" := JStr(receivedAt),
      "decoded_payload" := JObj(map["temperature_c" := temperature, "pressure_bar" := pressure]),
      "rx_metadata" := JArr([entry])])
  }

  /** The lookups the handler makes on such a message. */
  lemma UplinkMessageFields(fCnt: Json, receivedAt: string, temperature: Json, pressure: Json, entry: Json)
    ensures var up := UplinkMessage(fCnt, receivedAt, temperature, pressure, entry);
      && Truthy(up)
      && Member(up, "f_cnt") == fCnt
      && Member(up, "received_at") == JStr(receivedAt)
      && Decoded(up) == JObj(map["temperature_c" := temperature, "pressure_bar" := pressure])
      && Member(up, "rx_metadata") == JArr([entry])
  {
  }

  /** A webhook body: the device's identifiers and its uplink message. */
  function WebhookBody(deviceId: string, message: Json): Json
  {
    JObj(map[
      "end_device_ids" := JObj(map["device_id" := JStr(deviceId)]),
      "uplink_message" := message])
  }

  lemma WebhookBodyFields(deviceId: string, message: Json)
    ensures var body := WebhookBody(deviceId, message);
      Reachable(body) && DeviceIdOf(body) == JStr(deviceId) && MessageOf(body) == message
  {
  }

  /** An authorised body whose device id and message are truthy and whose
      message every lookup can read is accepted; the reading's timestamp is a
      truthy `received_at`, its measurements come from the decoded payload and
      its radio fields from the metadata. */
  lemma Accepted(secret: string, body: Json, now: string, reading: Reading, lat: Json, lon: Json)
    requires Reachable(body) && Truthy(DeviceIdOf(body))
    requires var up := MessageOf(body);
      && Truthy(up) && up.JObj? && Decoded(up).JObj?
      && reading.deviceId == DeviceIdOf(body)
      && reading.fCnt == Member(up, "f_cnt")
      && Truthy(Member(up, "received_at")) && reading.ts == Member(up, "received_at")
      && reading.temperatureC == Member(Decoded(up), "temperature_c")
      && reading.pressureBar == Member(Decoded(up), "pressure_bar")
      && FirstRadio(Or(Member(up, "rx_metadata"), JArr([])))
         == Ok(Radio(reading.rssi, reading.snr, reading.gatewayId, lat, lon))
    ensures ParseUplink(secret, Some(Expected(secret)), Some(body), now) == Ok(Uplink(reading, lat, lon))
  {
  }

  /** An authorised webhook of The Things Network's shape is accepted, and
      the reading holds exactly what the body carries. */
  lemma ParseWebhookBody(secret: string, now: string, deviceId: string, fCnt: Json, receivedAt: string,
                         temperature: Json, pressure: Json, rssi: Json, snr: Json, gatewayId: string,
                         lat: Json, lon: Json)
    requires deviceId != "" && receivedAt != ""
    ensures ParseUplink(secret, Some(Expected(secret)),
                        Some(WebhookBody(deviceId, UplinkMessage(fCnt, receivedAt, temperature, pressure,
                                                                 MetadataEntry(rssi, snr, gatewayId, lat, lon)))),
                        now)
            == Ok(Uplink(Reading(JStr(deviceId), JStr(receivedAt), fCnt, temperature, pressure, rssi, snr, JStr(gatewayId)),
                         lat, lon))
  {
    var entry := MetadataEntry(rssi, snr, gatewayId, lat, lon);
    ReadMetadataEntry(rssi, snr, gatewayId, lat, lon);
    var up := UplinkMessage(fCnt, receivedAt, temperature, pressure, entry);
    UplinkMessageFields(fCnt, receivedAt, temperature, pressure, entry);
    WebhookBodyFields(deviceId, up);
    Accepted(secret, WebhookBody(deviceId, up), now,
             Reading(JStr(deviceId), JStr(receivedAt), fCnt, temperature, pressure, rssi, snr, JStr(gatewayId)),
             lat, lon);
  }

  /** The gateway row is written only when the uplink names a gateway and
      carries both of its coordinates (`gw_lat is not None`). */
  predicate HasGatewayFix(u: Uplink)
  {
    Truthy(u.reading.gatewayId) && u.gatewayLat != JNull && u.gatewayLon != JNull
  }

  /** The JSON object pushed to the device's stream listeners. */
  function Payload(r: Reading): (p: Json)
    ensures p.JObj? && p.fields.Keys == {"device_id", "ts", "f_cnt", "temperature_c", "pressure_bar", "rssi", "snr", "gateway_id"}
    ensures Member(p, "device_id") == r.deviceId && Member(p, "ts") == r.ts && Member(p, "f_cnt") == r.fCnt
    ensures Member(p, "temperature_c") == r.temperatureC && Member(p, "pressure_bar") == r.pressureBar
    ensures Member(p, "rssi") == r.rssi && Member(p, "snr") == r.snr && Member(p, "gateway_id") == r.gatewayId
  {
    JObj(map[
      "device_id" := r.deviceId, "ts" := r.ts, "f_cnt" := r.fCnt,
      "temperature_c" := r.temperatureC, "pressure_bar" := r.pressureBar,
      "rssi" := r.rssi, "snr" := r.snr, "gateway_id" := r.gatewayId])
  }
}
