/** The dashboard page's state and the events that change it
    (frontend/app/dashboard/page.tsx): the device list and the initial
    device, the gateway shown, the selected device with its event stream and
    its two fetches, the snapshot that replaces the window, and each live
    message that sets `latest` and prepends to the window. */
module Dashboard {
  import opened Json
  import opened Window

  /** A fetch the page issues; its response arrives later as an event. */
  datatype Request =
    | DevicesRequest
    | GatewayRequest
    | ReadingsRequest(deviceId: string, limit: nat)
    | LatestRequest(deviceId: string)

  /** The browser's EventSource for `/api/stream/<deviceId>`. Once closed it
      delivers no more messages. */
  class EventSource {
    const deviceId: string
    var open: bool

    constructor (deviceId: string)
      ensures this.deviceId == deviceId && open
    {
      this.deviceId := deviceId;
      open := true;
    }

    method Close()
      modifies this
      ensures !open
    {
      open := false;
    }
  }

  /** JavaScript's truth value of a parsed JSON value. */
  predicate JsTruthy(v: Json)
  {
    match v
    case JNull => false
    case JBool(b) => b
    case JNum(n) => n != 0.0
    case JStr(s) => s != ""
    case _ => true
  }

  /** `g[0] || null`: the first gateway row, or null when there is none. */
  function PickGateway(rows: seq<Json>): (r: Json)
    ensures r == JNull || (|rows| > 0 && r == rows[0])
    ensures |rows| > 0 && (rows[0].JObj? || rows[0].JArr?) ==> r == rows[0]
    ensures r != JNull ==> JsTruthy(r)
  {
    if |rows| > 0 && JsTruthy(rows[0]) then rows[0] else JNull
  }

  /** `if (d[0]) setDeviceId(d[0].device_id)`: the first listed device, or
      the current selection (initially '') when the list is empty. */
  function InitialDevice(ids: seq<string>, current: string): (r: string)
    ensures |ids| > 0 ==> r == ids[0]
    ensures |ids| == 0 ==> r == current
  {
    if |ids| > 0 then ids[0] else current
  }

  class Dashboard {
    var devices: seq<string>
    var deviceId: string
    /** Newest first. */
    var readings: seq<Json>
    var latest: Json
    var gateway: Json
    /** The stream opened by the effect for the current `deviceId`. */
    var source: EventSource?
    /** The fetches issued so far, in order. */
    var requests: seq<Request>
    /** Every stream the page has opened. */
    ghost var sources: set<EventSource>

    /** There is a stream exactly when a device is selected; it is the
        selected device's, and every earlier stream has been closed. */
    ghost predicate Valid()
      reads this, sources
    {
      && (source == null <==> deviceId == "")
      && (source != null ==> source in sources && source.open && source.deviceId == deviceId)
      && (forall s :: s in sources && s != source ==> !s.open)
    }

    /** Mounting: nothing selected, an empty window, and the device list and
        gateway fetches on their way. */
    constructor ()
      ensures Valid()
      ensures devices == [] && deviceId == "" && readings == [] && latest == JNull && gateway == JNull
      ensures source == null && sources == {}
      ensures requests == [DevicesRequest, GatewayRequest]
    {
      devices, deviceId, readings, latest, gateway := [], "", [], JNull, JNull;
      source := null;
      requests := [DevicesRequest, GatewayRequest];
      sources := {};
    }

    /** `setDeviceId(id)` and the effect that depends on it. Setting the same
        id again runs nothing. Otherwise the previous stream is closed;
        then, unless the new id is empty, the snapshot (at most 200 rows) and
        latest-reading fetches are issued and a stream for the new device is
        opened. The window and `latest` are not cleared. */
    method SelectDevice(id: string)
      requires Valid()
      modifies this, sources
      ensures Valid()
      ensures deviceId == id && devices == old(devices) && gateway == old(gateway)
      ensures readings == old(readings) && latest == old(latest)
      ensures id == old(deviceId) ==>
        && source == old(source) && sources == old(sources) && requests == old(requests)
        && forall s :: s in sources ==> s.open == old(s.open)
      ensures id != old(deviceId) ==>
        && (old(source) != null ==> !old(source).open)
        && (id == "" ==> source == null && sources == old(sources) && requests == old(requests))
        && (id != "" ==>
              && source != null && fresh(source) && source.deviceId == id
              && sources == old(sources) + {source}
              && requests == old(requests) + [ReadingsRequest(id, Capacity), LatestRequest(id)])
    {
      if id == deviceId {
        return;
      }
      if source != null {
        source.Close();
      }
      deviceId := id;
      if id == "" {
        source := null;
      } else {
        requests := requests + [ReadingsRequest(id, Capacity), LatestRequest(id)];
        var es := new EventSource(id);
        source := es;
        sources := sources + {es};
      }
    }

    /** The device list arrives: it is stored and its first device selected. */
    method DevicesLoaded(ids: seq<string>)
      requires Valid()
      modifies this, sources
      ensures Valid()
      ensures devices == ids
      ensures deviceId == InitialDevice(ids, old(deviceId))
      ensures readings == old(readings) && latest == old(latest) && gateway == old(gateway)
      ensures deviceId == old(deviceId) ==>
        && source == old(source) && sources == old(sources) && requests == old(requests)
        && forall s :: s in sources ==> s.open == old(s.open)
      ensures deviceId != old(deviceId) ==>
        && (old(source) != null ==> !old(source).open)
        && (deviceId == "" ==> source == null && sources == old(sources) && requests == old(requests))
        && (deviceId != "" ==>
              && source != null && fresh(source) && source.deviceId == deviceId
              && sources == old(sources) + {source}
              && requests == old(requests) + [ReadingsRequest(deviceId, Capacity), LatestRequest(deviceId)])
    {
      devices := ids;
      if |ids| > 0 {
        SelectDevice(ids[0]);
      }
    }

    /** The gateway list arrives: `setGw(g[0] || null)`. */
    method GatewayLoaded(rows: seq<Json>)
      modifies this`gateway
      ensures gateway == PickGateway(rows)
    {
      gateway := PickGateway(rows);
    }

    /** The snapshot fetch issued for `requested` resolves: `setReadings(rows)`
        replaces the window wholesale. Nothing compares `requested` with the
        device now selected, so a late answer for a previous device replaces
        the new device's window too. */
    method SnapshotLoaded(requested: string, rows: seq<Json>)
      requires ReadingsRequest(requested, Capacity) in requests
      modifies this`readings
      ensures readings == rows
    {
      readings := rows;
    }

    /** The latest-reading fetch issued for `requested` resolves:
        `setLatest(v)`, again whichever device is selected by then. */
    method LatestLoaded(requested: string, v: Json)
      requires LatestRequest(requested) in requests
      modifies this`latest
      ensures latest == v
    {
      latest := v;
    }

    /** `es.onmessage`: `data` is the parsed event data, None when
        `JSON.parse` throws (the handler then stops before any update). A
        delivered message becomes `latest` and is pushed onto the window; a
        closed stream delivers nothing, so a stream superseded by a device
        switch can no longer change the page. */
    method Message(src: EventSource, data: Option<Json>)
      requires Valid()
      modifies this`readings, this`latest
      ensures Valid()
      ensures src.open && data.Some? ==>
        latest == data.value && readings == LivePush(data.value, old(readings))
      ensures !(src.open && data.Some?) ==> readings == old(readings) && latest == old(latest)
      ensures src in sources && src != source ==> readings == old(readings) && latest == old(latest)
    {
      if src.open && data.Some? {
        latest := data.value;
        readings := LivePush(data.value, readings);
      }
    }

    /** Leaving the page: the effect's cleanup closes the stream. */
    method Unmount()
      requires Valid()
      modifies sources
      ensures forall s :: s in sources ==> !s.open
    {
      if source != null {
        source.Close();
      }
    }
  }
}
