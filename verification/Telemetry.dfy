/**
 * TelemetryConsumer.consume (api/.../event/TelemetryConsumer.java): deduplication by event
 * id, validation in order, and application in one transaction.
 */
module TelemetryConsumption {
  import opened Common
  import opened Deliveries
  import Orders

  /**
   * Event ids: a telemetry id is the UUIDv5 (section 5.5 of RFC 9562) of the creating event
   * and the step, taken to be injective; every other event has an id of its own.
   */
  datatype EventId = StepEvent(created: int, step: nat) | OtherEvent(number: int)

  datatype Envelope = Envelope(
    id: EventId,
    contractOk: bool,          // event type, schema version and trace id as required
    delivery: int,
    vehicle: Option<string>,   // None unless it is a JSON string
    reading: Reading)

  datatype Api = Api(db: Orders.Db, processed: set<EventId>, points: seq<EventId>)

  datatype Verdict = Duplicate | Judged(outcome: Outcome)

  /** One delivery attempt of a record at time `now`. A rejection throws, so nothing is committed. */
  ghost function Consume(api: Api, e: Envelope, now: int, skew: nat): (Api, Verdict) {
    if e.id in api.processed then (api, Duplicate)
    else if !e.contractOk || e.delivery !in api.db.deliveries then (api, Judged(Rejected))
    else if e.vehicle != Some(api.db.deliveries[e.delivery].request.vehicle) then (api, Judged(Rejected))
    else if e.reading.occurredAt.None? || e.reading.occurredAt.value > now + skew then (api, Judged(Rejected))
    else
      var (db, outcome) := Orders.Telemetry(api.db, e.delivery, e.reading);
      if outcome == Rejected then (api, Judged(Rejected))
      else (Api(db, api.processed + {e.id}, api.points + [e.id]), Judged(outcome))
  }

  /** Orders and deliveries stay coupled, and each processed event left exactly one telemetry point. */
  ghost predicate Inv(api: Api) {
    && Orders.Inv(api.db)
    && forall id :: multiset(api.points)[id] == if id in api.processed then 1 else 0
  }

  /** At-least-once delivery has exactly-once effect: consuming an event again changes nothing. */
  lemma {:induction false} RedeliveryChangesNothing(api: Api, e: Envelope, now: int, later: int, skew: nat)
    requires Inv(api)
    ensures var (api', verdict) := Consume(api, e, now, skew);
            && Inv(api') && api.processed <= api'.processed
            && (verdict != Judged(Rejected) ==> Consume(api', e, later, skew) == (api', Duplicate))
            && (verdict == Judged(Rejected) ==> api' == api)
  {
    Orders.TelemetryKeepsInv(api.db, e.delivery, e.reading);
    hide Orders.Inv, Orders.Telemetry;
  }

  // ---------------------------------------------------------------- which telemetry is taken

  /** The event keeps the contract, names the delivery's vehicle, is not stamped too far ahead, and is in range. */
  predicate Acceptable(row: DeliveryRow, e: Envelope, now: int, skew: nat) {
    var r := e.reading;
    && e.contractOk && e.vehicle == Some(row.request.vehicle)
    && r.occurredAt.Some? && r.occurredAt.value <= now + skew
    && r.lat.Finite? && -90.0 <= r.lat.value <= 90.0 && r.lon.Finite? && -180.0 <= r.lon.value <= 180.0
    && r.progress.Finite? && 0.0 <= r.progress.value <= 1.0
    && r.status in {Some(IN_TRANSIT), Some(DELAYED), Some(DELIVERED)}
    && (r.status == Some(DELIVERED) <==> r.progress.value == 1.0)
  }

  /** The delivery is done, or has telemetry at least as recent. */
  predicate Late(row: DeliveryRow, at: int) {
    row.status == DELIVERED || (row.lastTelemetryAt.Some? && at <= row.lastTelemetryAt.value)
  }

  /**
   * An event not seen before is taken exactly when its delivery is stored, it is acceptable, and
   * it is late or does not move progress back. Taken, it leaves one telemetry point; unless late
   * it also moves the delivery to the reading and, on arrival, fulfils the linked order.
   */
  lemma {:induction false} VerdictIsExact(api: Api, e: Envelope, now: int, skew: nat)
    requires Inv(api) && e.id !in api.processed
    ensures var (later, verdict) := Consume(api, e, now, skew);
            var known := e.delivery in api.db.deliveries && Acceptable(api.db.deliveries[e.delivery], e, now, skew);
            && (verdict == Judged(Stale) <==> known && Late(api.db.deliveries[e.delivery], e.reading.occurredAt.value))
            && (verdict == Judged(Applied) <==>
                  && known && !Late(api.db.deliveries[e.delivery], e.reading.occurredAt.value)
                  && api.db.deliveries[e.delivery].progress <= e.reading.progress.value)
            && (verdict != Judged(Rejected) ==> later.processed == api.processed + {e.id} && later.points == api.points + [e.id])
            && (verdict == Judged(Stale) ==> later.db == api.db)
            && (verdict == Judged(Applied) ==> MovedTo(api.db, later.db, e.delivery, e.reading))
  {
    Orders.TelemetryKeepsInv(api.db, e.delivery, e.reading);
    if e.delivery in api.db.deliveries {
      Orders.RowsAreOk(api.db, e.delivery);
      if Orders.Telemetry(api.db, e.delivery, e.reading).1 == Applied { TelemetryMoves(api.db, e.delivery, e.reading); }
    }
    hide Orders.Inv, Orders.Telemetry, MovedTo;
  }

  /** The delivery stands where the reading says; its order is fulfilled if that is the end; nothing else changes. */
  ghost predicate MovedTo(db: Orders.Db, later: Orders.Db, d: int, r: Reading) {
    && d in db.deliveries && r.status.Some? && r.progress.Finite?
    && later.deliveries == db.deliveries[d := db.deliveries[d].(
         lat := r.lat, lon := r.lon, progress := r.progress.value, status := r.status.value, lastTelemetryAt := r.occurredAt)]
    && var order := db.deliveries[d].orderId;
    if r.status.value == DELIVERED && order.Some? then
      && order.value in db.orders
      && later.orders == db.orders[order.value := db.orders[order.value].(status := Orders.FULFILLED)]
      && later.outbox == db.outbox + [Orders.OrderFulfilled(order.value, d)]
    else later.orders == db.orders && later.outbox == db.outbox
  }

  lemma TelemetryMoves(db: Orders.Db, d: int, r: Reading)
    requires Orders.Inv(db) && d in db.deliveries && Orders.Telemetry(db, d, r).1 == Applied
    ensures MovedTo(db, Orders.Telemetry(db, d, r).0, d, r)
  {
    if db.deliveries[d].orderId.Some? { Orders.LinkUnique(db.deliveries, db.deliveries[d].orderId.value, d); }
    hide Orders.RowsOk, Orders.Announced, Orders.OrderKeysUnique, Orders.DeliveryKeysUnique;
  }

  /** Records consumed one after the other, each at its own time. */
  ghost function Stream(api: Api, records: seq<(Envelope, int)>, skew: nat): Api {
    if records == [] then api
    else Consume(Stream(api, records[..|records| - 1], skew), records[|records| - 1].0, records[|records| - 1].1, skew).0
  }

  lemma {:induction false} StreamKeepsInv(api: Api, records: seq<(Envelope, int)>, skew: nat)
    requires Inv(api)
    ensures Inv(Stream(api, records, skew))
  {
    if records != [] {
      var n := |records| - 1;
      StreamKeepsInv(api, records[..n], skew);
      hide Inv, Consume;
      RedeliveryChangesNothing(Stream(api, records[..n], skew), records[n].0, records[n].1, records[n].1, skew);
    }
  }

  /** Whatever is consumed, every telemetry point added came from a record that was acceptable for its delivery then. */
  lemma {:induction false} EveryPointIsEvidenced(api: Api, records: seq<(Envelope, int)>, skew: nat, id: EventId) returns (k: nat)
    requires Inv(api) && id in Stream(api, records, skew).points && id !in api.points
    ensures k < |records| && records[k].0.id == id
    ensures var (e, before) := (records[k].0, Stream(api, records[..k], skew).db.deliveries);
            e.delivery in before && Acceptable(before[e.delivery], e, records[k].1, skew)
  {
    var n := |records| - 1;
    var before := Stream(api, records[..n], skew);
    if id in before.points {
      k := EveryPointIsEvidenced(api, records[..n], skew, id);
      assert records[..n][..k] == records[..k];
    } else {
      k := n;
      StreamKeepsInv(api, records[..n], skew);
      var e := records[n].0;
      RedeliveryChangesNothing(before, e, records[n].1, records[n].1, skew);
      if e.id !in before.processed { VerdictIsExact(before, e, records[n].1, skew); }
      hide Inv, Acceptable, MovedTo;
    }
  }

  // ---------------------------------------------------------------- the consumer

  class TelemetryConsumer {
    const orders: Orders.OrderService
    const skew: nat
    var processed: set<EventId>
    var points: seq<EventId>

    ghost function State(): Api
      reads this, orders
    {
      Api(orders.Rows(), processed, points)
    }

    constructor (orders: Orders.OrderService, skew: nat)
      ensures this.orders == orders && this.skew == skew && processed == {} && points == []
    {
      this.orders, this.skew := orders, skew;
      processed, points := {}, [];
    }

    /** consume(raw), in its transaction. */
    method ConsumeEvent(e: Envelope, now: int) returns (verdict: Verdict)
      modifies this, orders
      ensures (State(), verdict) == Consume(old(State()), e, now, skew)
    {
      if e.id in processed {
        return Duplicate;
      }
      verdict := Judged(Rejected);
      if !e.contractOk || e.delivery !in orders.deliveries {
        return;
      }
      var before, pointsBefore := orders.deliveries, points;
      var row := before[e.delivery];
      if e.vehicle != Some(row.request.vehicle) {
        return;
      }
      if e.reading.occurredAt.None? || e.reading.occurredAt.value > now + skew {
        return;
      }
      var delivery := new Delivery.Load(row);
      var r := e.reading;
      var outcome := delivery.Apply(r.lat, r.lon, r.progress, r.status, r.occurredAt);
      if outcome == Rejected {
        return;
      }
      points := points + [e.id];
      if outcome == Applied {
        orders.deliveries := before[e.delivery := delivery.Row()];
        var fulfilled := orders.Fulfill(e.delivery);
        if fulfilled.Refused? {
          orders.deliveries, points := before, pointsBefore;
          return;
        }
      }
      processed := processed + {e.id};
      verdict := Judged(outcome);
    }
  }
}
