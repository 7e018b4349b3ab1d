/** Delivery (api/.../delivery/Delivery.java): creation and the telemetry guards. */
module Deliveries {
  import opened Common

  datatype Status = CREATED | IN_TRANSIT | DELAYED | DELIVERED

  datatype Place = Place(name: string, lat: Num, lon: Num)

  datatype DeliveryRequest = DeliveryRequest(orderNumber: string, vehicle: string, origin: Place, destination: Place)

  datatype DeliveryRow = DeliveryRow(
    request: DeliveryRequest,
    orderId: Option<int>,
    key: string,
    status: Status,
    lat: Num,
    lon: Num,
    progress: real,
    lastTelemetryAt: Option<int>)

  /** One telemetry payload; a missing or unknown status or time is None. */
  datatype Reading = Reading(lat: Num, lon: Num, progress: Num, status: Option<Status>, occurredAt: Option<int>)

  datatype Outcome = Rejected | Stale | Applied

  predicate ValidPlace(p: Place) {
    Required(Some(p.name), 160) && Within(p.lat, -90.0, 90.0) && Within(p.lon, -180.0, 180.0)
  }

  predicate ValidDelivery(r: DeliveryRequest) {
    && Required(Some(r.orderNumber), 80) && Required(Some(r.vehicle), 80)
    && ValidPlace(r.origin) && ValidPlace(r.destination)
  }

  function Created(r: DeliveryRequest, key: string, orderId: Option<int>): DeliveryRow {
    DeliveryRow(r, orderId, key, CREATED, r.origin.lat, r.origin.lon, 0.0, None)
  }

  /** The checks that throw before the stale rule is looked at. */
  predicate WellFormedReading(r: Reading) {
    && Within(r.lat, -90.0, 90.0) && Within(r.lon, -180.0, 180.0) && Within(r.progress, 0.0, 1.0)
    && r.status.Some? && r.status.value != CREATED
    && (r.status.value == DELIVERED <==> r.progress.value == 1.0)
    && r.occurredAt.Some?
  }

  predicate IsStale(d: DeliveryRow, occurredAt: int) {
    d.status == DELIVERED || (d.lastTelemetryAt.Some? && d.lastTelemetryAt.value >= occurredAt)
  }

  function ApplyTelemetry(d: DeliveryRow, r: Reading): (DeliveryRow, Outcome) {
    if !WellFormedReading(r) then (d, Rejected)
    else if IsStale(d, r.occurredAt.value) then (d, Stale)
    else if r.progress.value < d.progress then (d, Rejected)
    else (d.(lat := r.lat, lon := r.lon, progress := r.progress.value, status := r.status.value,
             lastTelemetryAt := r.occurredAt), Applied)
  }

  /** What every stored delivery satisfies; the schema states the second clause as a constraint. */
  ghost predicate RowOk(d: DeliveryRow) {
    && 0.0 <= d.progress <= 1.0
    && (d.status == DELIVERED <==> d.progress == 1.0)
    && (d.status == CREATED <==> d.lastTelemetryAt.None?)
    && (d.status == CREATED ==> d.progress == 0.0)
    && Within(d.lat, -90.0, 90.0) && Within(d.lon, -180.0, 180.0)
  }

  /**
   * Telemetry keeps a delivery well formed, only moves it forward in progress and time,
   * and never touches a delivered one or its identity.
   */
  lemma {:induction false} TelemetryMovesForward(d: DeliveryRow, r: Reading)
    requires RowOk(d)
    ensures var (d', outcome) := ApplyTelemetry(d, r);
            && RowOk(d') && d.progress <= d'.progress
            && (outcome != Applied ==> d' == d)
            && (outcome == Applied ==> d.status != DELIVERED && d'.lastTelemetryAt.Some?)
            && (outcome == Applied && d.lastTelemetryAt.Some? ==> d.lastTelemetryAt.value < d'.lastTelemetryAt.value)
            && (d'.request, d'.orderId, d'.key) == (d.request, d.orderId, d.key)
  {
  }

  /** Re-applying a reading that was applied once, at any later point, changes nothing: it is stale. */
  lemma {:induction false} AppliedReadingIsStaleLater(d: DeliveryRow, r: Reading, rest: seq<Reading>)
    requires RowOk(d) && ApplyTelemetry(d, r).1 == Applied
    ensures ApplyTelemetry(Fold(ApplyTelemetry(d, r).0, rest), r).1 == Stale
  {
    FoldMovesForward(ApplyTelemetry(d, r).0, rest);
  }

  /** A whole stream of readings. */
  function Fold(d: DeliveryRow, rs: seq<Reading>): DeliveryRow {
    if rs == [] then d else ApplyTelemetry(Fold(d, rs[..|rs| - 1]), rs[|rs| - 1]).0
  }

  lemma {:induction false} FoldMovesForward(d: DeliveryRow, rs: seq<Reading>)
    requires RowOk(d)
    ensures RowOk(Fold(d, rs)) && d.progress <= Fold(d, rs).progress
    ensures d.status == DELIVERED ==> Fold(d, rs) == d
    ensures d.lastTelemetryAt.Some? ==>
              Fold(d, rs).lastTelemetryAt.Some? && d.lastTelemetryAt.value <= Fold(d, rs).lastTelemetryAt.value
  {
    if rs != [] {
      FoldMovesForward(d, rs[..|rs| - 1]);
      TelemetryMovesForward(Fold(d, rs[..|rs| - 1]), rs[|rs| - 1]);
    }
  }

  class Delivery {
    const request: DeliveryRequest
    const orderId: Option<int>
    const idempotencyKey: string
    var status: Status
    var currentLat: Num
    var currentLon: Num
    var progress: real
    var lastTelemetryAt: Option<int>

    function Row(): DeliveryRow
      reads this
    {
      DeliveryRow(request, orderId, idempotencyKey, status, currentLat, currentLon, progress, lastTelemetryAt)
    }

    constructor Create(r: DeliveryRequest, key: string, order: Option<int>)
      ensures Row() == Created(r, key, order)
      ensures status == CREATED && progress == 0.0 && (currentLat, currentLon) == (r.origin.lat, r.origin.lon) && lastTelemetryAt.None?
      ensures ValidDelivery(r) ==> RowOk(Row())
    {
      request, orderId, idempotencyKey := r, order, key;
      status, progress, lastTelemetryAt := CREATED, 0.0, None;
      currentLat, currentLon := r.origin.lat, r.origin.lon;
    }

    /** The entity as stored. */
    constructor Load(row: DeliveryRow)
      ensures Row() == row
    {
      request, orderId, idempotencyKey := row.request, row.orderId, row.key;
      status, progress, lastTelemetryAt := row.status, row.progress, row.lastTelemetryAt;
      currentLat, currentLon := row.lat, row.lon;
    }

    method Apply(lat: Num, lon: Num, progress: Num, status: Option<Status>, occurredAt: Option<int>)
      returns (outcome: Outcome)
      modifies this
      ensures (Row(), outcome) == ApplyTelemetry(old(Row()), Reading(lat, lon, progress, status, occurredAt))
    {
      if !Within(lat, -90.0, 90.0) || !Within(lon, -180.0, 180.0) || !Within(progress, 0.0, 1.0) {
        return Rejected;
      }
      if status.None? || status.value == CREATED {
        return Rejected;
      }
      if (status.value == DELIVERED) != (progress.value == 1.0) {
        return Rejected;
      }
      if occurredAt.None? {
        return Rejected;
      }
      if this.status == DELIVERED || (lastTelemetryAt.Some? && lastTelemetryAt.value >= occurredAt.value) {
        return Stale;
      }
      if progress.value < this.progress {
        return Rejected;
      }
      currentLat, currentLon, this.progress := lat, lon, progress.value;
      this.status, lastTelemetryAt := status.value, occurredAt;
      outcome := Applied;
    }
  }
}
