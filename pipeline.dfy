/** From the webhook to the chart: the JSON object `ttn_uplink` puts on a
    listener's queue (backend/main.py) is the object the dashboard's
    `onmessage` parses (frontend/app/dashboard/page.tsx), the event-stream
    text in between being `json.dumps` and `JSON.parse` of the same value. */
module Pipeline {
  import opened Json
  import opened Py
  import opened Uplink
  import opened Window
  import opened Projection

  /** A live reading lands at the front of the window and at the right end
      of both charts, with the temperature and pressure the uplink carried. */
  lemma UplinkReachesChart(r: Reading, prev: seq<Json>, format: Json -> string)
    ensures var w := LivePush(Payload(r), prev);
      var c := Project(w, format);
      var n := |w|;
      && n > 0
      && w[0] == Payload(r)
      && c.temps[n - 1] == r.temperatureC
      && c.press[n - 1] == r.pressureBar
      && c.labels[n - 1] == format(r.ts)
  {
  }

  /** End to end: the decoded temperature and pressure of an accepted
      webhook, and its reception time, are what the chart draws last. */
  lemma WebhookReachesChart(secret: string, now: string, deviceId: string, fCnt: Json, receivedAt: string,
                            temperature: Json, pressure: Json, rssi: Json, snr: Json, gatewayId: string,
                            lat: Json, lon: Json, prev: seq<Json>, format: Json -> string)
    requires deviceId != "" && receivedAt != ""
    ensures var p := ParseUplink(secret, Some(Expected(secret)),
                                 Some(WebhookBody(deviceId, UplinkMessage(fCnt, receivedAt, temperature, pressure,
                                                                          MetadataEntry(rssi, snr, gatewayId, lat, lon)))),
                                 now);
      && p.Ok?
      && var c := Project(LivePush(Payload(p.value.reading), prev), format);
      var n := |c.temps|;
      && n > 0
      && c.temps[n - 1] == temperature
      && c.press[n - 1] == pressure
      && c.labels[n - 1] == format(JStr(receivedAt))
  {
    ParseWebhookBody(secret, now, deviceId, fCnt, receivedAt, temperature, pressure, rssi, snr, gatewayId, lat, lon);
    var r := Reading(JStr(deviceId), JStr(receivedAt), fCnt, temperature, pressure, rssi, snr, JStr(gatewayId));
    UplinkReachesChart(r, prev, format);
  }
}
