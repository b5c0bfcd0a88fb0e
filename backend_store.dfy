/** The three tables `ttn_uplink` writes to, as abstract collections, and the
    effect of each of its statements on them (backend/main.py). The tables'
    unique keys are those the ON CONFLICT clauses name: `devices(device_id)`,
    `gateways(gateway_id)` and `readings(device_id, f_cnt)`. */
module Store {
  import opened Json
  import opened Uplink

  /** A gateways row: its last reported coordinates. */
  datatype GatewayRow = GatewayRow(lat: Json, lon: Json)

  type Devices = set<Json>
  type Gateways = map<Json, GatewayRow>
  /** The readings table; rows may repeat, since a NULL key never conflicts. */
  type Readings = multiset<Reading>

  /** `INSERT INTO devices(device_id) VALUES($1) ON CONFLICT DO NOTHING`. */
  function InsertDevice(devices: Devices, id: Json): (r: Devices)
    ensures id in r
    ensures forall d :: d in r <==> d in devices || d == id
  {
    devices + {id}
  }

  /** Inserting a device that is already there changes nothing. */
  lemma InsertDeviceIdempotent(devices: Devices, id: Json)
    requires id in devices
    ensures InsertDevice(devices, id) == devices
  {
  }

  /** `INSERT INTO gateways ... ON CONFLICT (gateway_id) DO UPDATE SET lat,
      lon`: afterwards the id holds the new coordinates, every other gateway
      keeps its own and no other gateway appears. */
  function UpsertGateway(gateways: Gateways, id: Json, row: GatewayRow): (r: Gateways)
    ensures r.Keys == gateways.Keys + {id}
    ensures r[id] == row
    ensures forall g :: g in gateways && g != id ==> r[g] == gateways[g]
  {
    gateways[id := row]
  }

  /** Of two upserts for the same gateway only the later one is visible. */
  lemma UpsertLastWins(gateways: Gateways, id: Json, first: GatewayRow, second: GatewayRow)
    ensures UpsertGateway(UpsertGateway(gateways, id, first), id, second) == UpsertGateway(gateways, id, second)
  {
  }

  /** Whether a row of `t` has the same (device_id, f_cnt) key as `x`. A NULL
      f_cnt never equals anything in SQL, so such a row conflicts with none. */
  predicate Conflicts(t: Readings, x: Reading)
  {
    x.fCnt != JNull && exists y :: y in t && y.fCnt != JNull && y.deviceId == x.deviceId && y.fCnt == x.fCnt
  }

  /** `INSERT INTO readings ... ON CONFLICT (device_id, f_cnt) DO NOTHING`:
      the row is added exactly when no row has its key; either way a row
      with its key is present afterwards. */
  function InsertReading(t: Readings, x: Reading): (r: Readings)
    ensures r == t || r == t + multiset{x}
    ensures t <= r && |r| <= |t| + 1
    ensures r == t <==> Conflicts(t, x)
    ensures x.fCnt != JNull ==> Conflicts(r, x)
  {
    if Conflicts(t, x) then t else t + multiset{x}
  }

  /** The table never holds two rows with the same non-NULL key. */
  ghost predicate KeysUnique(t: Readings)
  {
    && (forall y :: y in t && y.fCnt != JNull ==> t[y] == 1)
    && (forall y, z :: y in t && z in t && y.fCnt != JNull && y.deviceId == z.deviceId && y.fCnt == z.fCnt ==> y == z)
  }

  lemma InsertKeepsKeysUnique(t: Readings, x: Reading)
    requires KeysUnique(t)
    ensures KeysUnique(InsertReading(t, x))
  {
  }

  /** Re-ingesting a reading with a frame counter, or any reading with the
      same device and frame counter, leaves the table as it was. */
  lemma InsertReadingIdempotent(t: Readings, x: Reading, x': Reading)
    requires x.fCnt != JNull
    requires x'.deviceId == x.deviceId && x'.fCnt == x.fCnt
    ensures InsertReading(InsertReading(t, x), x') == InsertReading(t, x)
  {
  }

  /** A reading without a frame counter is stored again on every delivery. */
  lemma NullFrameCounterDuplicates(t: Readings, x: Reading)
    requires x.fCnt == JNull
    ensures InsertReading(InsertReading(t, x), x) == t + multiset{x, x}
    ensures InsertReading(InsertReading(t, x), x)[x] == t[x] + 2
  {
  }
}
