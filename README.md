# LoRaWAN dashboard: uplink ingestion and the live reading window

A Dafny model of the two stateful parts of a small LoRaWAN telemetry dashboard.

The backend (`backend/main.py`) receives The Things Network v3 uplink webhooks. For each one it:

- checks the webhook's bearer secret and the required fields;
- extracts one reading, taking the radio fields from the first `rx_metadata` entry;
- writes the reading to three tables with `ON CONFLICT` semantics;
- pushes it to the queue of every open event stream for that device.

The backend also has a signed session cookie (`login`, `require_session`). Its `downlink` endpoint validates a command and builds the request body for The Things Network.

The dashboard page (`frontend/app/dashboard/page.tsx`) keeps a newest-first window of at most 200 readings for the selected device:

- a snapshot fetch replaces the whole window;
- each server-sent message becomes `latest` and is prepended to the window, which is then cut to 200;
- changing the device closes the previous stream;
- the charts draw the window reversed, oldest first.

## How the model is built

Modules, one per part of the source:

| module | file | models |
|---|---|---|
| `Json` | json.dfy | JSON values shared by both sides; numbers are reals carried as opaque values |
| `Py` | python_rules.dfy | the Python semantics the handlers depend on: truthiness, `x == True`, `int()`, exception to 500 |
| `Auth` | backend_auth.dfy | `require_session`, `login`, `downlink` up to the network call |
| `Uplink` | backend_uplink.dfy | `ttn_uplink` parsing and validation |
| `Store` | backend_store.dfy | the `devices`, `gateways` and `readings` tables as a set, a map and a multiset, with the conflict rules |
| `Server` | backend_server.dfy | class `Server` with the tables and the `listeners` registry (a map from device id to a set of `Queue` objects); `TtnUplink`, `OpenStream`, `CloseStream` and the fan-out loop |
| `Window` | dashboard_window.dfy | the live prepend-and-truncate update |
| `Projection` | dashboard_projection.dfy | labels, temperatures and pressures, oldest first |
| `Dashboard` | dashboard_session.dfy | class `Dashboard` with `deviceId`, `readings`, `latest`, the gateway, the current `EventSource`, and one method per event handler |
| `Pipeline` | pipeline.dfy | a reading pushed by the backend ends up in the chart |

Modelling conventions:

- A Python exception other than an `HTTPException` is `Crash`, which the framework answers with 500. `.get` on a value that is not a dict is one example.
- The current time, the signing serializer and the label format are parameters.
- The dashboard does not deduplicate readings; it does not check whether a response belongs to the device now selected; it does not clear the window when the device changes; and it keeps at most 200 readings. So `Dashboard.Dashboard.SnapshotLoaded` applies a late snapshot for a previous device to the current window.

## Model

| member | source | states |
|---|---|---|
| `Py.Truncate` | backend/main.py:162 | `int()` of a float truncates toward zero: the result is within 1 of the input, on the zero side |
| `Py.ToInt` | backend/main.py:162 | `int()` of a JSON value: it succeeds exactly for booleans, numbers and parseable strings, and raises otherwise; a number is truncated toward zero (an integral one maps to itself), a string gives the value `ParseInt` reads, and booleans give 0 and 1 |
| `Py.ParseIntShow` | backend/main.py:162 | parsing a string as `int()` does reads back any integer printed in decimal |
| `Auth.PortFromDecimalText` | backend/main.py:162 | an `f_port` sent as the decimal text of an integer reaches the downlink as that integer |
| `Auth.RequireSession` | backend/main.py:35-44 | passes iff the cookie is present and non-empty, decodes, and is a dict whose `ok` equals True; 401 iff the cookie is missing, does not decode, or is a dict without `ok == True`; a decoded non-dict raises |
| `Auth.Login` | backend/main.py:46-54 | succeeds iff both `user` and `pass` equal the configured credentials; on success the cookie is the signed `{"ok": True}`, otherwise 401 |
| `Auth.LoginOpensSession` | backend/main.py:35-54 | with a serializer that reads back its own tokens, the cookie set by a successful login passes `require_session` |
| `Auth.Downlink` | backend/main.py:155-175 | session failures propagate first; a valid session with an `f_port` that `int()` rejects is a 500; it succeeds iff the session is valid, `f_port` converts and both `device_id` and `frm_payload_b64` are truthy; 400 iff `device_id` or `frm_payload_b64` is falsy, once the session and `f_port` are fine; on success exactly one downlink with the given payload and device, priority "NORMAL", `f_port` defaulting to 10 and `confirmed` to False |
| `Uplink.FirstRadio` | backend/main.py:78-84 | succeeds iff the metadata is missing or empty, or is a list whose first entry is a dict with a dict (or falsy) `gateway_ids` and a dict (or falsy) `location`, and raises otherwise; rssi, snr, gateway id and coordinates then come from that first entry, and all are None when there is none |
| `Uplink.OnlyFirstEntry` | backend/main.py:79-82 | entries after the first never change the radio fields |
| `Uplink.ParseUplink` | backend/main.py:62-84 | 401 iff the Authorization header is not exactly `Bearer <secret>`; 400 iff the device id or the uplink message is missing or empty; it succeeds iff authorised with both truthy and a message whose `decoded_payload` and metadata every lookup can read, and raises (500) in every other case; on success the reading's device id and `f_cnt` come from the body, `ts` is `received_at` when truthy and the clock otherwise, temperature and pressure come from `decoded_payload` (default `{}`), and the radio fields are those of the first metadata entry |
| `Uplink.ReadMetadataEntry` | backend/main.py:78-84 | a metadata entry with gateway ids and a location is read into that gateway's id and coordinates |
| `Uplink.Accepted` | backend/main.py:62-84 | an authorised body with a truthy device id and a readable message yields exactly the reading built from its fields |
| `Uplink.ParseWebhookBody` | backend/main.py:62-84 | a webhook of The Things Network's shape is accepted, and the reading carries its device id, frame counter, reception time, temperature, pressure and gateway |
| `Uplink.Payload` | backend/main.py:101-106 | the pushed object has exactly the eight keys, each holding the reading's field of that name |
| `Store.InsertDevice` | backend/main.py:87 | the device is present afterwards and no other device is added or removed |
| `Store.InsertDeviceIdempotent` | backend/main.py:87 | inserting an existing device leaves the device set unchanged |
| `Store.UpsertGateway` | backend/main.py:88-93 | the gateway holds the new lat/lon; every other gateway is unchanged and none is added |
| `Store.UpsertLastWins` | backend/main.py:89-93 | of two upserts for the same gateway only the second is visible |
| `Store.InsertReading` | backend/main.py:94-98 | the table either stays as it was or gains exactly the reading itself; it is unchanged iff a row with the same non-NULL (device_id, f_cnt) key exists; afterwards the key is present |
| `Store.InsertKeepsKeysUnique` | backend/main.py:94-98 | the insert keeps the invariant that no two rows share a non-NULL (device_id, f_cnt) key |
| `Store.InsertReadingIdempotent` | backend/main.py:94-98 | re-ingesting a reading with the same device and non-NULL `f_cnt` leaves the table unchanged |
| `Store.NullFrameCounterDuplicates` | backend/main.py:94-98 | a reading without `f_cnt` is stored again on every delivery, because a NULL key never conflicts |
| `Server.Subscribe` | backend/main.py:145 | the queue is added to the device's set, which is created when absent; other devices are unchanged |
| `Server.Unsubscribe` | backend/main.py:151-152 | only that queue leaves the device's set; the entry and other devices remain; a device without an entry is unchanged |
| `Server.CloseUndoesOpen` | backend/main.py:144-152 | closing a stream restores the registry as before its opening, except that the device keeps an entry, possibly empty |
| `Server.Broadcast` | backend/main.py:107-108 | every target queue gets the payload appended exactly once |
| `Server.Server.constructor` | backend/main.py:29 | a process start: the tables are those the database holds, and the listener registry is empty |
| `Server.Server.OpenStream` | backend/main.py:142-145 | a fresh empty queue is registered for the device; the tables are unchanged |
| `Server.Server.CloseStream` | backend/main.py:151-152 | the registry becomes `Unsubscribe` of the old one; the tables are unchanged |
| `Server.Server.Record` | backend/main.py:86-98 | the three statements an accepted uplink runs on one connection: device inserted, gateway upserted only with a full fix, reading inserted under the conflict rule |
| `Server.Server.TtnUplink` | backend/main.py:62-110 | a refused or failing request stores nothing and pushes nothing; otherwise status 200, a device insert, a gateway upsert only with a full fix, a reading insert, and the payload appended to exactly the queues registered for the device (also for a duplicate reading), with other queues untouched |
| `Window.LivePush` | frontend/app/dashboard/page.tsx:63-66 | the new window has at most 200 readings; its head is the message; its rest is a prefix of the old window in the same order; below capacity it grows by exactly one |
| `Window.DeliveredTwiceKeptTwice` | frontend/app/dashboard/page.tsx:66 | the same reading delivered twice is kept twice (no deduplication) |
| `Window.Reversed` | frontend/app/dashboard/page.tsx:71-73 | reversing keeps the length |
| `Window.ReversedAt` | frontend/app/dashboard/page.tsx:71-73 | element i of the reversed window is element n-1-i of the window |
| `Window.PushAllKeepsNewest` | frontend/app/dashboard/page.tsx:63-66 | after any run of live messages the window is the newest 200 of (messages newest first, then the old window), and never longer than 200 |
| `Projection.OldestFirst` | frontend/app/dashboard/page.tsx:71-73 | reverse-then-map has the window's length, and entry i comes from reading n-1-i |
| `Projection.Project` | frontend/app/dashboard/page.tsx:71-73 | labels, temps and press all have the window's length, and `temps[i]`, `press[i]` and `labels[i]` come from `readings[n-1-i]` |
| `Projection.LiveMessagePlottedLast` | frontend/app/dashboard/page.tsx:63-73 | after a live message the last label, temperature and pressure are the message's |
| `Dashboard.PickGateway` | frontend/app/dashboard/page.tsx:51-52 | the gateway shown is the first row, or null when there is none; a first row that is an object is always shown |
| `Dashboard.InitialDevice` | frontend/app/dashboard/page.tsx:47-49 | the first listed device is selected; an empty list keeps the current selection |
| `Dashboard.Dashboard.constructor` | frontend/app/dashboard/page.tsx:39-53 | nothing selected, an empty window, no stream, and the device-list and gateway fetches issued |
| `Dashboard.Dashboard.SelectDevice` | frontend/app/dashboard/page.tsx:55-69 | re-selecting the same id does nothing; otherwise the old stream is closed; an empty id fetches and opens nothing; a non-empty id issues the 200-row snapshot fetch and the latest fetch and opens one stream for it; the window and `latest` are kept |
| `Dashboard.Dashboard.DevicesLoaded` | frontend/app/dashboard/page.tsx:46-50 | the list is stored and its first device becomes the selection, with the effects of a device switch when that changes it (old stream closed, fetches issued, stream opened) and none otherwise; window, `latest` and gateway are kept |
| `Dashboard.Dashboard.GatewayLoaded` | frontend/app/dashboard/page.tsx:51-52 | the gateway becomes `PickGateway` of the rows |
| `Dashboard.Dashboard.SnapshotLoaded` | frontend/app/dashboard/page.tsx:57-58 | the window is replaced wholesale by the fetched rows, whatever device is selected by then |
| `Dashboard.Dashboard.LatestLoaded` | frontend/app/dashboard/page.tsx:59-60 | `latest` becomes the fetched reading |
| `Dashboard.Dashboard.Message` | frontend/app/dashboard/page.tsx:63-67 | a message on an open stream sets `latest` to exactly the reading that is prepended to the window; an unparseable message or a closed (superseded) stream changes nothing |
| `Dashboard.Dashboard.Unmount` | frontend/app/dashboard/page.tsx:68 | every stream the page opened is closed |
| `Pipeline.UplinkReachesChart` | frontend/app/dashboard/page.tsx:63-73 | a reading pushed by the backend becomes the window's head and the chart's last point, with its temperature, pressure and timestamp |
| `Pipeline.WebhookReachesChart` | backend/main.py:62-106 | the decoded temperature and pressure and the reception time of an accepted webhook are the chart's last point once pushed to the dashboard |

## Left out

- HTTP plumbing: FastAPI routing, the CORS middleware, the startup pool and `StreamingResponse`. The event-stream framing (`data: ...`) and the generator's blocking `q.get()` are left out too. Each queue is a sequence of pushed objects; taking from it is not modelled.
- Concurrency: each handler and each event is one atomic step. The `await` interleavings inside `ttn_uplink` are not modelled, so neither is a stream opening or closing between its statements.
- The SQL engine and `asyncpg`: tables are abstract collections carrying the `ON CONFLICT` rules. The unique index on `readings(device_id, f_cnt)` is assumed, with PostgreSQL's default that NULLs are distinct.
- Column types: the table schema is not part of this model. The driver rejecting a parameter of the wrong type (a non-string device id, say) is not modelled, so the model stores any JSON value. Such a failure would leave the statements already run in place.
- Server.Server.TtnUplink: for a list or dict device id, the model answers 200 without a push. In the source the insert's driver rejects such an id (500), and `dev_id in listeners` would raise in any case.
- Server.Server.constructor: the tables' contents at start are whatever the database holds, and are taken as parameters.
- The `updated_at` column of `gateways` is not modelled.
- `logout`, `list_devices`, `get_readings`, `latest` and `gateway` (backend/main.py:56-60, 112-140) only read or clear state. The dashboard receives their responses as method inputs. A response body that is not a JSON array is not modelled.
- The call to The Things Network (backend/main.py:166-179): the URL, the headers, the HTTP request and the handling of its status are a foreign network call. `Auth.Downlink` returns the device id and the body the handler would send.
- `itsdangerous` signing: the serializer is a pair of functions, `dumps` and `loads` (partial). Its key (`WEBHOOK_SECRET or "change-me"`) is not modelled. `Auth.LoginOpensSession` assumes that `loads` reads back what `dumps` wrote.
- Py.ParseInt: Python's `int()` also accepts non-ASCII digits and non-ASCII whitespace. The model rejects those, as a ValueError.
- Json: JSON numbers are exact reals, so the `NaN` and `Infinity` that Python's decoder accepts cannot be represented. Python rounds a float literal to the nearest double before `int()` or a truth test sees it; the model does not. So `"f_port": 10.99999999999999999` gives 11 in the handler and 10 in `Auth.Downlink`. And `"device_id": 1e-400` decodes to 0.0, which is falsy (a 400), but is truthy in `Uplink.ParseUplink`.
- Json: integers and floats are not told apart. Among the modelled handlers, only `int()` and truth tests look at numbers, and both treat `1` and `1.0` alike.
- The request body that `req.json()` cannot decode is the input None.
- Dashboard: React rendering, Chart.js, maplibre and `fetch`/`EventSource` transport are left out. Label formatting (`new Date(ts).toLocaleString()`) is a parameter. A rejected fetch is simply an event that never happens.
- Dashboard: the device list is taken as the device ids it contains.
- `frontend/app/login/page.tsx` and `frontend/app/layout.tsx`: a form and a layout with no stateful logic.
