/** The backend's mutable state and the handlers that change it
    (backend/main.py): the three tables, the `listeners` registry that maps a
    device id to the queues of its open streams, `ttn_uplink` with its store
    effects and fan-out, and the registration and removal of a stream's queue. */
module Server {
  import opened Json
  import opened Py
  import opened Uplink
  import opened Store

  /** One open stream's queue: the payloads put on it and not yet sent. */
  class Queue {
    var items: seq<Json>

    constructor ()
      ensures items == []
    {
      items := [];
    }
  }

  /** The queues registered for a device; none when it has no entry. */
  function Registered<Q>(reg: map<string, set<Q>>, device: string): set<Q>
  {
    if device in reg then reg[device] else {}
  }

  /** `listeners.setdefault(device, set()).add(q)`. */
  function Subscribe<Q>(reg: map<string, set<Q>>, device: string, q: Q): (r: map<string, set<Q>>)
    ensures r.Keys == reg.Keys + {device}
    ensures q in r[device] && r[device] - {q} == Registered(reg, device) - {q}
    ensures forall d :: d in reg && d != device ==> r[d] == reg[d]
  {
    reg[device := Registered(reg, device) + {q}]
  }

  /** `listeners[device].discard(q)`. The entry itself stays, possibly empty;
      for a device without an entry the lookup raises KeyError and nothing
      changes. */
  function Unsubscribe<Q>(reg: map<string, set<Q>>, device: string, q: Q): (r: map<string, set<Q>>)
    ensures r.Keys == reg.Keys
    ensures device in reg ==> q !in r[device] && r[device] + {q} == reg[device] + {q}
    ensures forall d :: d in reg && d != device ==> r[d] == reg[d]
  {
    if device in reg then reg[device := reg[device] - {q}] else reg
  }

  /** Closing a stream undoes its opening: only its own queue leaves the
      registry, and the device keeps an entry (an empty set when it was the
      last one). */
  lemma CloseUndoesOpen<Q>(reg: map<string, set<Q>>, device: string, q: Q)
    requires q !in Registered(reg, device)
    ensures Unsubscribe(Subscribe(reg, device, q), device, q) == reg[device := Registered(reg, device)]
  {
  }

  /** The fan-out loop: `for q in list(listeners[dev_id]): await q.put(payload)`.
      Every target queue gets the payload appended, once. */
  method Broadcast(targets: set<Queue>, payload: Json)
    modifies targets
    ensures forall q :: q in targets ==> q.items == old(q.items) + [payload]
  {
    var pending := targets;
    while pending != {}
      invariant pending <= targets
      invariant forall q :: q in targets && q !in pending ==> q.items == old(q.items) + [payload]
      invariant forall q :: q in pending ==> q.items == old(q.items)
      decreases pending
    {
      var q :| q in pending;
      q.items := q.items + [payload];
      pending := pending - {q};
    }
  }

  class Server {
    /** WEBHOOK_SECRET. */
    const secret: string
    var devices: Devices
    var gateways: Gateways
    var readings: Readings
    var listeners: map<string, set<Queue>>

    /** Every queue registered for some device. */
    ghost function Queues(): set<Queue>
      reads this
    {
      set d, q | d in listeners && q in listeners[d] :: q
    }

    /** The queues an uplink for `device` is pushed to. The registry's keys
        are the path parameters of open streams, so a device id that is not
        a string is never one of them. */
    ghost function Targets(device: Json): (r: set<Queue>)
      reads this
      ensures r <= Queues()
    {
      if device.JStr? && device.s in listeners then listeners[device.s] else {}
    }

    /** A process start: the tables hold whatever the database holds, and
        no stream is open yet (`listeners = {}`). */
    constructor (secret: string, devices: Devices, gateways: Gateways, readings: Readings)
      ensures this.secret == secret
      ensures this.devices == devices && this.gateways == gateways && this.readings == readings
      ensures listeners == map[]
    {
      this.secret := secret;
      this.devices, this.gateways, this.readings := devices, gateways, readings;
      listeners := map[];
    }

    /** `stream`: a new, empty queue is registered for the device. */
    method OpenStream(device: string) returns (q: Queue)
      modifies this
      ensures fresh(q) && q.items == []
      ensures listeners == Subscribe(old(listeners), device, q)
      ensures devices == old(devices) && gateways == old(gateways) && readings == old(readings)
    {
      q := new Queue();
      listeners := Subscribe(listeners, device, q);
    }

    /** The `finally` of the stream's event generator: the queue is removed
        from its device's set, and only that queue. */
    method CloseStream(device: string, q: Queue)
      modifies this
      ensures listeners == Unsubscribe(old(listeners), device, q)
      ensures devices == old(devices) && gateways == old(gateways) && readings == old(readings)
    {
      listeners := Unsubscribe(listeners, device, q);
    }

    /** `ttn_uplink`. A request refused by the parser (401, 400) or one on
        which it raises (500) changes nothing and pushes nothing. Otherwise:
        the device is inserted unless present, the gateway is upserted when
        the uplink carries a full fix, the reading is inserted unless its
        (device_id, f_cnt) key exists, and every queue registered for the
        device gets the payload, also when the reading was a duplicate;
        queues of other devices are left alone. */
    method TtnUplink(authorization: Option<string>, body: Option<Json>, now: string) returns (status: int)
      modifies this, Queues()
      ensures listeners == old(listeners)
      ensures var p := ParseUplink(secret, authorization, body, now);
        && (p.Err? ==>
              && status == StatusOf(p.failure)
              && devices == old(devices) && gateways == old(gateways) && readings == old(readings))
        && (p.Ok? ==>
              && status == 200
              && devices == InsertDevice(old(devices), p.value.reading.deviceId)
              && gateways == (if HasGatewayFix(p.value)
                              then UpsertGateway(old(gateways), p.value.reading.gatewayId,
                                                 GatewayRow(p.value.gatewayLat, p.value.gatewayLon))
                              else old(gateways))
              && readings == InsertReading(old(readings), p.value.reading))
      ensures var p := ParseUplink(secret, authorization, body, now);
        forall q :: q in old(Queues()) ==>
          q.items == if p.Ok? && q in old(Targets(p.value.reading.deviceId))
                     then old(q.items) + [Payload(p.value.reading)]
                     else old(q.items)
    {
      var parsed := ParseUplink(secret, authorization, body, now);
      if parsed.Err? {
        status := StatusOf(parsed.failure);
        return;
      }
      var u := parsed.value;
      Record(u);
      var id := u.reading.deviceId;
      if id.JStr? && id.s in listeners {
        var targets := listeners[id.s];
        assert targets <= Queues() by {
          forall q | q in targets ensures q in Queues() {
            assert id.s in listeners && q in listeners[id.s];
          }
        }
        Broadcast(targets, Payload(u.reading));
      }
      status := 200;
    }

    /** The three statements an accepted uplink runs, one after the other, on
        one connection (no transaction wraps them). */
    method Record(u: Uplink)
      modifies this`devices, this`gateways, this`readings
      ensures devices == InsertDevice(old(devices), u.reading.deviceId)
      ensures gateways == (if HasGatewayFix(u)
                           then UpsertGateway(old(gateways), u.reading.gatewayId, GatewayRow(u.gatewayLat, u.gatewayLon))
                           else old(gateways))
      ensures readings == InsertReading(old(readings), u.reading)
    {
      devices := InsertDevice(devices, u.reading.deviceId);
      if HasGatewayFix(u) {
        gateways := UpsertGateway(gateways, u.reading.gatewayId, GatewayRow(u.gatewayLat, u.gatewayLon));
      }
      readings := InsertReading(readings, u.reading);
    }
  }
}
