/**
 * Orders and the deliveries they are linked to (api/.../order/OrderService.java,
 * order/CustomerOrder.java, delivery/DeliveryService.java): commands, their idempotency
 * keys, telemetry, and the outbox rows written in the same transactions.
 */
module Orders {
  import opened Common
  import opened Deliveries

  datatype OrderStatus = READY | DISPATCHED | FULFILLED

  datatype OrderRequest = OrderRequest(orderNumber: string, origin: Place, destination: Place)

  datatype OrderRow = OrderRow(request: OrderRequest, status: OrderStatus, key: string, dispatchKey: Option<string>)

  /** The outbox rows of this slice: the three order events and the delivery event. */
  datatype Event =
    | OrderCreated(order: int)
    | OrderDispatched(order: int, delivery: int)
    | OrderFulfilled(order: int, delivery: int)
    | DeliveryCreated(delivery: int)

  datatype Db = Db(orders: map<int, OrderRow>, deliveries: map<int, DeliveryRow>, outbox: seq<Event>)

  const EMPTY := Db(map[], map[], [])

  predicate ValidOrder(r: OrderRequest) {
    Required(Some(r.orderNumber), 80) && ValidPlace(r.origin) && ValidPlace(r.destination)
  }

  // ---------------------------------------------------------------- lookups

  type OrderTable = map<int, OrderRow>
  type DeliveryTable = map<int, DeliveryRow>

  ghost function OrderByKey(orders: OrderTable, key: string): Option<int> {
    if o :| o in orders && orders[o].key == key then Some(o) else None
  }

  ghost function OrderByDispatchKey(orders: OrderTable, key: string): Option<int> {
    if o :| o in orders && orders[o].dispatchKey == Some(key) then Some(o) else None
  }

  ghost function DeliveryByKey(deliveries: DeliveryTable, key: string): Option<int> {
    if d :| d in deliveries && deliveries[d].key == key then Some(d) else None
  }

  ghost function DeliveryOf(deliveries: DeliveryTable, order: int): (r: Option<int>)
    ensures r.Some? ==> Linked(deliveries, order, r.value)
    ensures r.None? ==> forall d :: !Linked(deliveries, order, d)
  {
    if d :| Linked(deliveries, order, d) then Some(d) else None
  }

  ghost predicate Linked(deliveries: DeliveryTable, order: int, d: int) {
    d in deliveries && deliveries[d].orderId == Some(order)
  }

  ghost predicate NumberTaken(orders: OrderTable, number: string) {
    exists o :: o in orders && orders[o].request.orderNumber == number
  }

  // ---------------------------------------------------------------- commands

  /** POST /orders; `id` is the fresh UUID. */
  ghost function CreateOrder(db: Db, id: int, r: OrderRequest, key: Option<string>): (Db, Result<int>) {
    if !Required(key, 160) || !ValidOrder(r) then (db, Refused)
    else
      var existing := OrderByKey(db.orders, key.value);
      if existing.Some? then
        (db, if db.orders[existing.value].request == r then Ok(existing.value) else Refused)
      else if NumberTaken(db.orders, r.orderNumber) || id in db.orders then (db, Refused)
      else
        (db.(orders := db.orders[id := OrderRow(r, READY, key.value, None)], outbox := db.outbox + [OrderCreated(id)]),
         Ok(id))
  }

  /** DeliveryService.create; `order` is the linking order, if any. */
  ghost function CreateDelivery(db: Db, id: int, r: DeliveryRequest, key: Option<string>, order: Option<int>): (Db, Result<int>) {
    if !Required(key, 160) || !ValidDelivery(r) then (db, Refused)
    else
      var existing := DeliveryByKey(db.deliveries, key.value);
      if existing.Some? then
        var row := db.deliveries[existing.value];
        (db, if (order.Some? && row.orderId != order) || row.request != r then Refused else Ok(existing.value))
      else if order.Some? && DeliveryOf(db.deliveries, order.value).Some? then (db, Ok(DeliveryOf(db.deliveries, order.value).value))
      else if id in db.deliveries then (db, Refused)
      else
        (db.(deliveries := db.deliveries[id := Created(r, key.value, order)],
             outbox := db.outbox + [DeliveryCreated(id)]),
         Ok(id))
  }

  function DispatchRequest(o: OrderRow, vehicle: string): DeliveryRequest {
    DeliveryRequest(o.request.orderNumber, vehicle, o.request.origin, o.request.destination)
  }

  /** OrderService.dispatch; `id` is the fresh UUID of the delivery. */
  ghost function Dispatch(db: Db, id: int, order: int, vehicle: string, key: Option<string>): (Db, Result<int>) {
    if !Required(key, 160) || !Required(Some(vehicle), 80) then (db, Refused)
    else
      var prior := OrderByDispatchKey(db.orders, key.value);
      if prior.Some? then
        var linked := DeliveryOf(db.deliveries, order);
        (db, if prior.value != order || linked.None? || db.deliveries[linked.value].request.vehicle != vehicle
             then Refused else Ok(linked.value))
      else if order !in db.orders then (db, Refused)
      else
        var row, existing := db.orders[order], DeliveryOf(db.deliveries, order);
        if existing.Some? then
          if db.deliveries[existing.value].request.vehicle != vehicle then (db, Refused)
          else if row.dispatchKey.Some? then
            (db, if row.dispatchKey == key then Ok(existing.value) else Refused)
          else if row.status != DISPATCHED then (db, Refused)
          else (db.(orders := db.orders[order := row.(dispatchKey := key)]), Ok(existing.value))
        else if row.status != READY then (db, Refused)
        else
          var (db', r) := CreateDelivery(db, id, DispatchRequest(row, vehicle), key, Some(order));
          if r.Refused? then (db, Refused)
          else
            (db'.(orders := db'.orders[order := row.(status := DISPATCHED, dispatchKey := key)],
                  outbox := db'.outbox + [OrderDispatched(order, r.value)]),
             r)
  }

  /** OrderService.fulfillFromDelivery; None when it throws. */
  function FulfillFromDelivery(db: Db, delivery: int): Option<Db>
    requires delivery in db.deliveries
  {
    var row := db.deliveries[delivery];
    if row.orderId.None? || row.status != DELIVERED then Some(db)
    else if row.orderId.value !in db.orders then None
    else
      var order := db.orders[row.orderId.value];
      if order.status == FULFILLED then Some(db)
      else if order.status != DISPATCHED then None
      else
        Some(db.(orders := db.orders[row.orderId.value := order.(status := FULFILLED)],
                 outbox := db.outbox + [OrderFulfilled(row.orderId.value, delivery)]))
  }

  /** Telemetry for one delivery: apply it and, when that delivers, fulfil the linked order. */
  ghost function Telemetry(db: Db, delivery: int, r: Reading): (Db, Outcome) {
    if delivery !in db.deliveries then (db, Rejected)
    else
      var (row, outcome) := ApplyTelemetry(db.deliveries[delivery], r);
      if outcome != Applied then (db, outcome)
      else
        var done := FulfillFromDelivery(db.(deliveries := db.deliveries[delivery := row]), delivery);
        if done.None? then (db, Rejected) else (done.value, Applied)
  }

  datatype Step =
    | DoCreateOrder(id: int, order: OrderRequest, key: Option<string>)
    | DoCreateDelivery(id: int, delivery: DeliveryRequest, key: Option<string>)
    | DoDispatch(id: int, orderId: int, vehicle: string, key: Option<string>)
    | DoTelemetry(id: int, reading: Reading)

  ghost function Apply(db: Db, step: Step): Db {
    match step
    case DoCreateOrder(id, r, key) => CreateOrder(db, id, r, key).0
    case DoCreateDelivery(id, r, key) => CreateDelivery(db, id, r, key, None).0
    case DoDispatch(id, order, vehicle, key) => Dispatch(db, id, order, vehicle, key).0
    case DoTelemetry(id, r) => Telemetry(db, id, r).0
  }

  ghost function Run(db: Db, steps: seq<Step>): Db {
    if steps == [] then db else Apply(Run(db, steps[..|steps| - 1]), steps[|steps| - 1])
  }

  // ---------------------------------------------------------------- the coupling

  /** The status an order should have, given the delivery linked to it. */
  ghost function Expected(deliveries: DeliveryTable, order: int): OrderStatus {
    var d := DeliveryOf(deliveries, order);
    if d.None? then READY else if deliveries[d.value].status == DELIVERED then FULFILLED else DISPATCHED
  }

  ghost predicate Coupled(db: Db) {
    && (forall o :: o in db.orders ==> db.orders[o].status == Expected(db.deliveries, o))
    && (forall d :: d in db.deliveries && db.deliveries[d].orderId.Some? ==> db.deliveries[d].orderId.value in db.orders)
  }

  ghost predicate RowsOk(db: Db) {
    forall d :: d in db.deliveries ==> RowOk(db.deliveries[d])
  }

  ghost predicate OrderKeysUnique(orders: OrderTable) {
    forall o, p :: o in orders && p in orders && o != p ==>
      && orders[o].key != orders[p].key
      && orders[o].request.orderNumber != orders[p].request.orderNumber
      && (orders[o].dispatchKey.None? || orders[o].dispatchKey != orders[p].dispatchKey)
  }

  ghost predicate DeliveryKeysUnique(deliveries: DeliveryTable) {
    forall d, e :: d in deliveries && e in deliveries && d != e ==>
      && deliveries[d].key != deliveries[e].key
      && (deliveries[d].orderId.None? || deliveries[d].orderId != deliveries[e].orderId)
  }

  /** How often an event should stand in the outbox. */
  ghost function Due(db: Db, e: Event): nat {
    match e
    case OrderCreated(o) => if o in db.orders then 1 else 0
    case DeliveryCreated(d) => if d in db.deliveries then 1 else 0
    case OrderDispatched(o, d) => if Linked(db.deliveries, o, d) then 1 else 0
    case OrderFulfilled(o, d) => if Linked(db.deliveries, o, d) && db.deliveries[d].status == DELIVERED then 1 else 0
  }

  ghost predicate Announced(db: Db) {
    forall e :: multiset(db.outbox)[e] == Due(db, e)
  }

  ghost predicate Inv(db: Db) {
    && OrderKeysUnique(db.orders) && DeliveryKeysUnique(db.deliveries)
    && RowsOk(db) && Coupled(db) && Announced(db)
  }

  lemma LinkUnique(deliveries: DeliveryTable, order: int, d: int)
    requires DeliveryKeysUnique(deliveries) && Linked(deliveries, order, d)
    ensures DeliveryOf(deliveries, order) == Some(d)
  {
  }

  lemma CreateOrderKeepsInv(db: Db, id: int, r: OrderRequest, key: Option<string>)
    requires Inv(db)
    ensures Inv(CreateOrder(db, id, r, key).0)
  {
    var db' := CreateOrder(db, id, r, key).0;
    if db' != db {
      hide DeliveryKeysUnique, RowsOk, RowOk;
      assert forall d :: !Linked(db.deliveries, id, d);
      assert forall e :: Due(db', e) == Due(db, e) + if e == OrderCreated(id) then 1 else 0;
    }
  }

  /** What inserting a fresh delivery row does to the table's keys and links. */
  lemma FreshDelivery(db: Db, id: int, r: DeliveryRequest, key: string, order: Option<int>)
    requires DeliveryKeysUnique(db.deliveries) && RowsOk(db) && id !in db.deliveries && ValidDelivery(r)
    requires DeliveryByKey(db.deliveries, key).None?
    requires order.Some? ==> DeliveryOf(db.deliveries, order.value).None?
    ensures var table := db.deliveries[id := Created(r, key, order)];
            && DeliveryKeysUnique(table) && RowsOk(db.(deliveries := table))
            && forall o, d :: Linked(table, o, d) <==> Linked(db.deliveries, o, d) || (d == id && order == Some(o))
  {
    assert RowOk(Created(r, key, order));
    hide RowOk;
    var table := db.deliveries[id := Created(r, key, order)];
    assert forall d :: d in db.deliveries ==> table[d] == db.deliveries[d] && db.deliveries[d].key != key;
    if order.Some? {
      assert forall d :: d in db.deliveries ==> !Linked(db.deliveries, order.value, d);
    }
  }

  lemma CreateDeliveryKeepsInv(db: Db, id: int, r: DeliveryRequest, key: Option<string>)
    requires Inv(db)
    ensures Inv(CreateDelivery(db, id, r, key, None).0)
  {
    if CreateDelivery(db, id, r, key, None).0 != db { CreatedKeepsInv(db, id, r, key.value); }
    hide Inv, Created, ValidDelivery;
  }

  lemma CreatedKeepsInv(db: Db, id: int, r: DeliveryRequest, key: string)
    requires Inv(db) && id !in db.deliveries && ValidDelivery(r) && DeliveryByKey(db.deliveries, key).None?
    ensures Inv(db.(deliveries := db.deliveries[id := Created(r, key, None)], outbox := db.outbox + [DeliveryCreated(id)]))
  {
    var db' := db.(deliveries := db.deliveries[id := Created(r, key, None)], outbox := db.outbox + [DeliveryCreated(id)]);
    FreshDelivery(db, id, r, key, None);
    hide RowsOk, RowOk, ValidDelivery, DeliveryByKey;
    forall o ensures Expected(db'.deliveries, o) == Expected(db.deliveries, o) {
      SameLinks(db.deliveries, db'.deliveries, o);
    }
    hide DeliveryKeysUnique, OrderKeysUnique, Expected;
    assert forall e :: Due(db', e) == Due(db, e) + if e == DeliveryCreated(id) then 1 else 0;
  }

  /** An order's expected status depends only on the links and the linked delivery's status. */
  lemma SameLinks(before: DeliveryTable, later: DeliveryTable, o: int)
    requires DeliveryKeysUnique(before) && DeliveryKeysUnique(later)
    requires forall d :: Linked(later, o, d) <==> Linked(before, o, d)
    requires forall d :: Linked(before, o, d) && Linked(later, o, d) ==> later[d].status == before[d].status
    ensures Expected(later, o) == Expected(before, o)
  {
    if DeliveryOf(before, o).Some? { LinkUnique(later, o, DeliveryOf(before, o).value); }
  }

  /** Dispatching an order that has no delivery creates exactly one, or is refused. */
  lemma DispatchCreates(db: Db, id: int, r: DeliveryRequest, key: Option<string>, order: int)
    requires DeliveryOf(db.deliveries, order).None?
    ensures var (db', result) := CreateDelivery(db, id, r, key, Some(order));
            result.Ok? ==>
              && result.value == id && id !in db.deliveries && ValidDelivery(r) && key.Some?
              && DeliveryByKey(db.deliveries, key.value).None?
              && db' == db.(deliveries := db.deliveries[id := Created(r, key.value, Some(order))],
                            outbox := db.outbox + [DeliveryCreated(id)])
  {
    var existing := if key.Some? then DeliveryByKey(db.deliveries, key.value) else None;
    if existing.Some? { assert !Linked(db.deliveries, order, existing.value); }
  }

  lemma DispatchKeepsInv(db: Db, id: int, order: int, vehicle: string, key: Option<string>)
    requires Inv(db)
    ensures Inv(Dispatch(db, id, order, vehicle, key).0)
  {
    var db' := Dispatch(db, id, order, vehicle, key).0;
    if db' != db {
      var row := db.orders[order];
      if DeliveryOf(db.deliveries, order).Some? {
        hide DeliveryKeysUnique, RowsOk, RowOk;
        assert forall e :: Due(db', e) == Due(db, e);
      } else {
        DispatchCreates(db, id, DispatchRequest(row, vehicle), key, order);
        DispatchNewKeepsInv(db, id, order, row, DispatchRequest(row, vehicle), key, db');
      }
    }
  }

  lemma DispatchNewKeepsInv(db: Db, id: int, order: int, row: OrderRow, r: DeliveryRequest, key: Option<string>, db': Db)
    requires Inv(db) && order in db.orders && row == db.orders[order] && DeliveryOf(db.deliveries, order).None?
    requires id !in db.deliveries && ValidDelivery(r) && key.Some?
    requires DeliveryByKey(db.deliveries, key.value).None? && OrderByDispatchKey(db.orders, key.value).None?
    requires db' == Db(db.orders[order := row.(status := DISPATCHED, dispatchKey := key)],
                       db.deliveries[id := Created(r, key.value, Some(order))],
                       db.outbox + [DeliveryCreated(id)] + [OrderDispatched(order, id)])
    ensures Inv(db')
  {
    FreshDelivery(db, id, r, key.value, Some(order));
    hide RowsOk, RowOk;
    forall o | o != order ensures Expected(db'.deliveries, o) == Expected(db.deliveries, o) {
      SameLinks(db.deliveries, db'.deliveries, o);
    }
    LinkUnique(db'.deliveries, order, id);
    hide Linked, DeliveryOf, DeliveryKeysUnique;
    DispatchDue(db, id, order, r, key, db');
  }

  lemma DispatchDue(db: Db, id: int, order: int, r: DeliveryRequest, key: Option<string>, db': Db)
    requires Announced(db) && order in db.orders && id !in db.deliveries && key.Some?
    requires db'.orders.Keys == db.orders.Keys
    requires db'.deliveries == db.deliveries[id := Created(r, key.value, Some(order))]
    requires db'.outbox == db.outbox + [DeliveryCreated(id)] + [OrderDispatched(order, id)]
    ensures Announced(db')
  {
    forall e ensures multiset(db'.outbox)[e] == Due(db', e) {
      var added := if e == DeliveryCreated(id) || e == OrderDispatched(order, id) then 1 else 0;
      assert Due(db', e) == Due(db, e) + added;
    }
  }

  lemma {:induction false} TelemetryKeepsInv(db: Db, d: int, r: Reading)
    requires Inv(db)
    ensures Inv(Telemetry(db, d, r).0)
    ensures d in db.deliveries ==> Telemetry(db, d, r).1 == ApplyTelemetry(db.deliveries[d], r).1
  {
    if d in db.deliveries {
      RowsAreOk(db, d);
      TelemetryMovesForward(db.deliveries[d], r);
      if ApplyTelemetry(db.deliveries[d], r).1 == Applied { TelemetryAppliedKeepsInv(db, d, r); }
    }
    hide Inv, ApplyTelemetry, RowOk;
  }

  /** The links and keys of the table with the moved row. */
  lemma MovedRowKeepsTable(db: Db, d: int, row': DeliveryRow)
    requires DeliveryKeysUnique(db.deliveries) && RowsOk(db) && d in db.deliveries && RowOk(row')
    requires (row'.request, row'.orderId, row'.key) == (db.deliveries[d].request, db.deliveries[d].orderId, db.deliveries[d].key)
    ensures var table := db.deliveries[d := row'];
            && DeliveryKeysUnique(table) && RowsOk(db.(deliveries := table))
            && (forall o, e :: Linked(table, o, e) <==> Linked(db.deliveries, o, e))
            && forall o :: row'.orderId != Some(o) ==> Expected(table, o) == Expected(db.deliveries, o)
  {
    hide RowOk;
    var table := db.deliveries[d := row'];
    forall o, e ensures Linked(table, o, e) <==> Linked(db.deliveries, o, e) {}
    assert DeliveryKeysUnique(table);
    forall o | row'.orderId != Some(o) ensures Expected(table, o) == Expected(db.deliveries, o) {
      SameLinks(db.deliveries, table, o);
    }
  }

  lemma TelemetryAppliedKeepsInv(db: Db, d: int, r: Reading)
    requires Inv(db) && d in db.deliveries && ApplyTelemetry(db.deliveries[d], r).1 == Applied
    ensures Inv(Telemetry(db, d, r).0) && Telemetry(db, d, r).1 == Applied
  {
    var row, row' := db.deliveries[d], ApplyTelemetry(db.deliveries[d], r).0;
    RowsAreOk(db, d);
    TelemetryMovesForward(row, r);
    hide RowOk, ApplyTelemetry;
    MovedRowKeepsTable(db, d, row');
    MovedRowCouples(db, d, row');
    TelemetryStored(db, d, r);
    TelemetryDue(db, d, row', Telemetry(db, d, r).0);
    hide RowsOk, DeliveryKeysUnique, Announced, Coupled, Telemetry;
  }

  /** The order the moved row belongs to, once it is fulfilled if that is due. */
  function OrdersAfter(orders: OrderTable, row': DeliveryRow): OrderTable
    requires row'.orderId.Some? ==> row'.orderId.value in orders
  {
    if row'.orderId.Some? && row'.status == DELIVERED then orders[row'.orderId.value := orders[row'.orderId.value].(status := FULFILLED)] else orders
  }

  lemma MovedRowCouples(db: Db, d: int, row': DeliveryRow)
    requires Inv(db) && d in db.deliveries && RowOk(row') && db.deliveries[d].status != DELIVERED && row'.status != CREATED
    requires (row'.request, row'.orderId, row'.key) == (db.deliveries[d].request, db.deliveries[d].orderId, db.deliveries[d].key)
    ensures row'.orderId.Some? ==> row'.orderId.value in db.orders && db.orders[row'.orderId.value].status == DISPATCHED
    ensures Coupled(db.(orders := OrdersAfter(db.orders, row'), deliveries := db.deliveries[d := row'])) && OrderKeysUnique(OrdersAfter(db.orders, row'))
  {
    var table := db.deliveries[d := row'];
    MovedRowKeepsTable(db, d, row');
    hide RowOk, RowsOk, Announced;
    if row'.orderId.Some? {
      LinkUnique(db.deliveries, row'.orderId.value, d);
      LinkUnique(table, row'.orderId.value, d);
      assert Expected(table, row'.orderId.value) == if row'.status == DELIVERED then FULFILLED else DISPATCHED;
    }
    hide DeliveryKeysUnique, Expected, Linked;
  }

  lemma TelemetryStored(db: Db, d: int, r: Reading)
    requires d in db.deliveries && ApplyTelemetry(db.deliveries[d], r).1 == Applied
    requires var row' := ApplyTelemetry(db.deliveries[d], r).0;
             row'.orderId.Some? ==> row'.orderId.value in db.orders && db.orders[row'.orderId.value].status == DISPATCHED
    ensures var row' := ApplyTelemetry(db.deliveries[d], r).0;
            && Telemetry(db, d, r).1 == Applied
            && Telemetry(db, d, r).0 == Db(OrdersAfter(db.orders, row'), db.deliveries[d := row'],
                 if row'.orderId.Some? && row'.status == DELIVERED then db.outbox + [OrderFulfilled(row'.orderId.value, d)] else db.outbox)
  {
    hide ApplyTelemetry;
  }

  /** Exactly the fulfilment row is added, and only when the delivery is delivered now and was not before. */
  lemma TelemetryDue(db: Db, d: int, row': DeliveryRow, db': Db)
    requires Announced(db) && d in db.deliveries
    requires row'.orderId == db.deliveries[d].orderId && db.deliveries[d].status != DELIVERED
    requires db'.orders.Keys == db.orders.Keys && db'.deliveries == db.deliveries[d := row']
    requires db'.outbox == if row'.orderId.Some? && row'.status == DELIVERED
                           then db.outbox + [OrderFulfilled(row'.orderId.value, d)] else db.outbox
    ensures Announced(db')
  {
    forall e ensures multiset(db'.outbox)[e] == Due(db', e) {
      var delivers := row'.orderId.Some? && row'.status == DELIVERED;
      var added := if delivers && e == OrderFulfilled(row'.orderId.value, d) then 1 else 0;
      assert Due(db', e) == Due(db, e) + added;
    }
  }

  lemma StepKeepsInv(db: Db, step: Step)
    requires Inv(db)
    ensures Inv(Apply(db, step))
  {
    match step
    case DoCreateOrder(id, r, key) => CreateOrderKeepsInv(db, id, r, key);
    case DoCreateDelivery(id, r, key) => CreateDeliveryKeepsInv(db, id, r, key);
    case DoDispatch(id, order, vehicle, key) => DispatchKeepsInv(db, id, order, vehicle, key);
    case DoTelemetry(id, r) => TelemetryKeepsInv(db, id, r);
  }

  lemma {:induction false} RunKeepsInv(db: Db, steps: seq<Step>)
    requires Inv(db)
    ensures Inv(Run(db, steps))
  {
    if steps != [] {
      RunKeepsInv(db, steps[..|steps| - 1]);
      StepKeepsInv(Run(db, steps[..|steps| - 1]), steps[|steps| - 1]);
    }
  }

  // ---------------------------------------------------------------- main results

  /**
   * In every reachable state an order is READY iff nothing is linked to it, DISPATCHED iff
   * its one delivery is under way and FULFILLED iff that delivery is delivered (and only a
   * delivered one has progress 1).
   */
  lemma {:induction false} OrderAndDeliveryCoupled(steps: seq<Step>, o: int)
    requires o in Run(EMPTY, steps).orders
    ensures var db := Run(EMPTY, steps);
            && (db.orders[o].status == READY <==> forall d :: !Linked(db.deliveries, o, d))
            && (db.orders[o].status == DISPATCHED <==>
                  exists d :: Linked(db.deliveries, o, d) && db.deliveries[d].progress < 1.0)
            && (db.orders[o].status == FULFILLED <==>
                  exists d :: Linked(db.deliveries, o, d) && db.deliveries[d].progress == 1.0)
            && (forall d, e :: Linked(db.deliveries, o, d) && Linked(db.deliveries, o, e) ==> d == e)
  {
    RunKeepsInv(EMPTY, steps);
    var db := Run(EMPTY, steps);
    forall d | Linked(db.deliveries, o, d) ensures DeliveryOf(db.deliveries, o) == Some(d) && RowOk(db.deliveries[d]) {
      LinkUnique(db.deliveries, o, d);
    }
    hide Announced, OrderKeysUnique, DeliveryKeysUnique;
  }

  /**
   * Under any commands, retries and telemetry the outbox holds exactly one row per order
   * status reached: created once, dispatched once with the linked delivery, fulfilled once
   * when that delivery is delivered, and nothing else about the order.
   */
  lemma {:induction false} OutboxMatchesStatuses(steps: seq<Step>, o: int, d: int)
    ensures var db := Run(EMPTY, steps);
            var rows := multiset(db.outbox);
            && rows[OrderCreated(o)] == (if o in db.orders then 1 else 0)
            && rows[DeliveryCreated(d)] == (if d in db.deliveries then 1 else 0)
            && rows[OrderDispatched(o, d)] == (if Linked(db.deliveries, o, d) then 1 else 0)
            && rows[OrderFulfilled(o, d)]
               == (if o in db.orders && db.orders[o].status == FULFILLED && Linked(db.deliveries, o, d) then 1 else 0)
  {
    RunKeepsInv(EMPTY, steps);
    var db := Run(EMPTY, steps);
    assert Due(db, OrderCreated(o)) == multiset(db.outbox)[OrderCreated(o)];
    assert Due(db, DeliveryCreated(d)) == multiset(db.outbox)[DeliveryCreated(d)];
    assert Due(db, OrderDispatched(o, d)) == multiset(db.outbox)[OrderDispatched(o, d)];
    assert Due(db, OrderFulfilled(o, d)) == multiset(db.outbox)[OrderFulfilled(o, d)];
    if Linked(db.deliveries, o, d) { LinkUnique(db.deliveries, o, d); }
    hide Announced, OrderKeysUnique, DeliveryKeysUnique, RowsOk;
  }

  /** Creating an order again with the same key and request answers the same id, whatever ran since. */
  lemma {:induction false} CreateRetryIsIdempotent(db: Db, id: int, r: OrderRequest, key: Option<string>, steps: seq<Step>, id': int)
    requires Inv(db) && CreateOrder(db, id, r, key).1.Ok?
    ensures var (db', result) := CreateOrder(db, id, r, key);
            var later := Run(db', steps);
            && CreateOrder(later, id', r, key) == (later, result)
            && forall other :: other != r ==> CreateOrder(later, id', other, key) == (later, Refused)
  {
    var (db', result) := CreateOrder(db, id, r, key);
    CreateOrderKeepsInv(db, id, r, key);
    OrderPersists(db', result.value, steps);
    RunKeepsInv(db', steps);
    hide RowsOk, Announced, Coupled, DeliveryKeysUnique;
  }

  lemma {:induction false} OrderPersists(db: Db, o: int, steps: seq<Step>)
    requires Inv(db) && o in db.orders
    ensures var later := Run(db, steps);
            o in later.orders && later.orders[o].key == db.orders[o].key && later.orders[o].request == db.orders[o].request
  {
    if steps != [] {
      OrderPersists(db, o, steps[..|steps| - 1]);
      hide Inv, ApplyTelemetry, DeliveryOf;
      DispatchOnlyLinks(Run(db, steps[..|steps| - 1]), steps[|steps| - 1], o);
    }
  }

  lemma DispatchOnlyLinks(db: Db, step: Step, o: int)
    requires o in db.orders
    ensures var later := Apply(db, step);
            o in later.orders && later.orders[o].key == db.orders[o].key && later.orders[o].request == db.orders[o].request
  {
  }

  /** A dispatch that succeeded answers the same, and changes nothing, whenever it is retried. */
  lemma {:induction false} DispatchRetryIsIdempotent(db: Db, id: int, order: int, vehicle: string, key: Option<string>, steps: seq<Step>, id': int)
    requires Inv(db)
    requires Dispatch(db, id, order, vehicle, key).1.Ok?
    ensures var (db', r) := Dispatch(db, id, order, vehicle, key);
            var later := Run(db', steps);
            Dispatch(later, id', order, vehicle, key) == (later, r)
  {
    var (db', r) := Dispatch(db, id, order, vehicle, key);
    DispatchKeepsInv(db, id, order, vehicle, key);
    DispatchBinds(db, id, order, vehicle, key);
    BindingPersists(db', order, r.value, vehicle, key, steps);
    RunKeepsInv(db', steps);
    BoundDispatchRepeats(Run(db', steps), id', order, r.value, vehicle, key);
  }

  /** The order carries the key and its one delivery drives that vehicle. */
  ghost predicate Bound(db: Db, order: int, d: int, vehicle: string, key: Option<string>) {
    && order in db.orders && key.Some? && db.orders[order].dispatchKey == key
    && Linked(db.deliveries, order, d) && db.deliveries[d].request.vehicle == vehicle
  }

  lemma DispatchBinds(db: Db, id: int, order: int, vehicle: string, key: Option<string>)
    requires Inv(db) && Dispatch(db, id, order, vehicle, key).1.Ok?
    ensures var (db', r) := Dispatch(db, id, order, vehicle, key); Bound(db', order, r.value, vehicle, key)
  {
    hide RowsOk, Announced, Coupled, DeliveryKeysUnique;
    if DeliveryOf(db.deliveries, order).None? && order in db.orders {
      DispatchCreates(db, id, DispatchRequest(db.orders[order], vehicle), key, order);
    }
  }

  lemma BoundDispatchRepeats(db: Db, id: int, order: int, d: int, vehicle: string, key: Option<string>)
    requires Inv(db) && Bound(db, order, d, vehicle, key)
    requires Required(key, 160) && Required(Some(vehicle), 80)
    ensures Dispatch(db, id, order, vehicle, key) == (db, Ok(d))
  {
    LinkUnique(db.deliveries, order, d);
    hide RowsOk, Announced, Coupled, DeliveryKeysUnique;
  }

  lemma {:induction false} BindingPersists(db: Db, order: int, d: int, vehicle: string, key: Option<string>, steps: seq<Step>)
    requires Inv(db) && Bound(db, order, d, vehicle, key)
    ensures Bound(Run(db, steps), order, d, vehicle, key)
  {
    if steps != [] {
      BindingPersists(db, order, d, vehicle, key, steps[..|steps| - 1]);
      RunKeepsInv(db, steps[..|steps| - 1]);
      StepKeepsBinding(Run(db, steps[..|steps| - 1]), steps[|steps| - 1], order, d, vehicle, key);
    }
  }

  lemma StepKeepsBinding(db: Db, step: Step, order: int, d: int, vehicle: string, key: Option<string>)
    requires Inv(db) && Bound(db, order, d, vehicle, key)
    ensures Bound(Apply(db, step), order, d, vehicle, key)
  {
    hide RowsOk, Announced, Coupled, DeliveryKeysUnique, OrderKeysUnique;
    match step
    case DoTelemetry(e, r) =>
      if e in db.deliveries { RowsAreOk(db, e); TelemetryMovesForward(db.deliveries[e], r); hide ApplyTelemetry; }
    case DoDispatch(id, o, v, k) =>
      if o in db.orders && DeliveryOf(db.deliveries, o).None? {
        DispatchCreates(db, id, DispatchRequest(db.orders[o], v), k, o);
        hide CreateDelivery;
      }
    case _ =>
  }

  lemma RowsAreOk(db: Db, d: int)
    requires RowsOk(db) && d in db.deliveries
    ensures RowOk(db.deliveries[d])
  {
  }

  // ---------------------------------------------------------------- what commands accept and store

  predicate Located(p: Place) {
    && Required(Some(p.name), 160)
    && p.lat.Finite? && -90.0 <= p.lat.value <= 90.0 && p.lon.Finite? && -180.0 <= p.lon.value <= 180.0
  }

  /** A linked delivery drives its order: same number, origin and destination. */
  predicate Serves(d: DeliveryRow, o: OrderRow) {
    d.request.orderNumber == o.request.orderNumber && d.request.origin == o.request.origin && d.request.destination == o.request.destination
  }

  ghost predicate Sound(db: Db) {
    && (forall o :: o in db.orders ==>
          Required(Some(db.orders[o].request.orderNumber), 80) && Located(db.orders[o].request.origin) && Located(db.orders[o].request.destination))
    && (forall o, d :: o in db.orders && Linked(db.deliveries, o, d) ==> Serves(db.deliveries[d], db.orders[o]))
  }

  /** Under a key no order carries, an order is created exactly for a valid request with a new number. */
  lemma {:induction false} CreatesOrderExactly(db: Db, id: int, r: OrderRequest, key: Option<string>)
    requires id !in db.orders && forall o :: o in db.orders ==> Some(db.orders[o].key) != key
    ensures var accepted := && Required(key, 160) && Required(Some(r.orderNumber), 80) && Located(r.origin) && Located(r.destination)
                            && forall o :: o in db.orders ==> db.orders[o].request.orderNumber != r.orderNumber;
            CreateOrder(db, id, r, key) ==
              if accepted
              then (Db(db.orders[id := OrderRow(r, READY, key.value, None)], db.deliveries, db.outbox + [OrderCreated(id)]), Ok(id))
              else (db, Refused)
  {
    RequiredIsPresent(key, 160);
    hide Required;
  }

  /** Under a key no delivery carries, a delivery for no order or one without a delivery is created exactly for a valid request. */
  lemma {:induction false} CreatesDeliveryExactly(db: Db, id: int, r: DeliveryRequest, key: Option<string>, order: Option<int>)
    requires id !in db.deliveries && forall d :: d in db.deliveries ==> Some(db.deliveries[d].key) != key
    requires order.Some? ==> forall d :: !Linked(db.deliveries, order.value, d)
    ensures var accepted := && Required(key, 160) && Required(Some(r.orderNumber), 80) && Required(Some(r.vehicle), 80)
                            && Located(r.origin) && Located(r.destination);
            CreateDelivery(db, id, r, key, order) ==
              if accepted
              then (Db(db.orders,
                       db.deliveries[id := DeliveryRow(r, order, key.value, CREATED, r.origin.lat, r.origin.lon, 0.0, None)],
                       db.outbox + [DeliveryCreated(id)]), Ok(id))
              else (db, Refused)
  {
    RequiredIsPresent(key, 160);
    hide Required;
  }

  /**
   * Under a key no order was dispatched with, an order without a delivery is dispatched exactly when
   * key and vehicle are valid and no delivery carries the key: one delivery from the order's origin
   * to its destination by that vehicle, linked to it and announced.
   */
  lemma {:induction false} DispatchesExactly(db: Db, id: int, order: int, vehicle: string, key: Option<string>)
    requires Inv(db) && Sound(db) && order in db.orders && id !in db.deliveries
    requires forall d :: !Linked(db.deliveries, order, d)
    requires forall o :: o in db.orders ==> db.orders[o].dispatchKey.None? || db.orders[o].dispatchKey != key
    ensures var row := db.orders[order];
            var r := DeliveryRequest(row.request.orderNumber, vehicle, row.request.origin, row.request.destination);
            var accepted := && Required(key, 160) && Required(Some(vehicle), 80)
                            && forall d :: d in db.deliveries ==> Some(db.deliveries[d].key) != key;
            Dispatch(db, id, order, vehicle, key) ==
              if accepted
              then (Db(db.orders[order := row.(status := DISPATCHED, dispatchKey := key)],
                       db.deliveries[id := DeliveryRow(r, Some(order), key.value, CREATED, r.origin.lat, r.origin.lon, 0.0, None)],
                       db.outbox + [DeliveryCreated(id)] + [OrderDispatched(order, id)]), Ok(id))
              else (db, Refused)
  {
    RequiredIsPresent(key, 160);
    assert db.orders[order].status == READY;
    if Required(key, 160) {
      if forall d :: d in db.deliveries ==> Some(db.deliveries[d].key) != key {
        CreatesDeliveryExactly(db, id, DispatchRequest(db.orders[order], vehicle), key, Some(order));
        hide CreateDelivery;
      } else {
        var other := DeliveryByKey(db.deliveries, key.value).value;
        assert !Linked(db.deliveries, order, other);
      }
    }
    hide Required, Inv, Located;
  }

  /** A dispatched order whose key is unknown yet takes a new key once, for the vehicle that drives it. */
  lemma {:induction false} LateDispatchKey(db: Db, id: int, order: int, d: int, vehicle: string, key: Option<string>)
    requires Inv(db) && order in db.orders && Linked(db.deliveries, order, d)
    requires forall o :: o in db.orders ==> db.orders[o].dispatchKey.None? || db.orders[o].dispatchKey != key
    ensures var row := db.orders[order];
            var accepted := && Required(key, 160) && Required(Some(vehicle), 80) && db.deliveries[d].request.vehicle == vehicle
                            && row.dispatchKey.None? && db.deliveries[d].status != DELIVERED;
            Dispatch(db, id, order, vehicle, key) ==
              if accepted then (db.(orders := db.orders[order := row.(dispatchKey := key)]), Ok(d)) else (db, Refused)
  {
    RequiredIsPresent(key, 160);
    LinkUnique(db.deliveries, order, d);
    assert db.orders[order].status == Expected(db.deliveries, order);
    hide Required, Inv, CreateDelivery;
  }

  lemma CreateOrderKeepsSound(db: Db, id: int, r: OrderRequest, key: Option<string>)
    requires Inv(db) && Sound(db)
    ensures Sound(CreateOrder(db, id, r, key).0)
  {
    if CreateOrder(db, id, r, key).0 != db { assert forall d :: !Linked(db.deliveries, id, d); }
    hide Required, OrderKeysUnique, DeliveryKeysUnique, Announced, RowsOk;
  }

  lemma DispatchKeepsSound(db: Db, id: int, order: int, vehicle: string, key: Option<string>)
    requires Sound(db)
    ensures Sound(Dispatch(db, id, order, vehicle, key).0)
  {
    hide Required, Located;
    if order in db.orders && DeliveryOf(db.deliveries, order).None? {
      DispatchCreates(db, id, DispatchRequest(db.orders[order], vehicle), key, order);
      hide CreateDelivery;
    }
  }

  /** Telemetry changes neither what is asked of a delivery nor of an order. */
  lemma TelemetryKeepsRequests(db: Db, d: int, r: Reading)
    ensures var later := Telemetry(db, d, r).0;
            && later.orders.Keys == db.orders.Keys && later.deliveries.Keys == db.deliveries.Keys
            && (forall o :: o in db.orders ==> later.orders[o].request == db.orders[o].request)
            && (forall e :: e in db.deliveries ==> (later.deliveries[e].request, later.deliveries[e].orderId)
                                                   == (db.deliveries[e].request, db.deliveries[e].orderId))
  {
    hide WellFormedReading, IsStale;
  }

  lemma SameRequestsKeepSound(db: Db, later: Db)
    requires Sound(db) && later.orders.Keys == db.orders.Keys && later.deliveries.Keys == db.deliveries.Keys
    requires forall o :: o in db.orders ==> later.orders[o].request == db.orders[o].request
    requires forall e :: e in db.deliveries ==> (later.deliveries[e].request, later.deliveries[e].orderId)
                                                == (db.deliveries[e].request, db.deliveries[e].orderId)
    ensures Sound(later)
  {
    hide Required, Located;
    forall o, d | o in later.orders && Linked(later.deliveries, o, d) ensures Serves(later.deliveries[d], later.orders[o]) {
      assert Linked(db.deliveries, o, d);
    }
  }

  lemma TelemetryKeepsSound(db: Db, d: int, r: Reading)
    requires Sound(db)
    ensures Sound(Telemetry(db, d, r).0)
  {
    hide *;
    TelemetryKeepsRequests(db, d, r);
    SameRequestsKeepSound(db, Telemetry(db, d, r).0);
  }

  lemma StepKeepsSound(db: Db, step: Step)
    requires Inv(db) && Sound(db)
    ensures Sound(Apply(db, step))
  {
    match step {
      case DoCreateOrder(id, r, key) => hide Inv, Sound; CreateOrderKeepsSound(db, id, r, key);
      case DoCreateDelivery(id, r, key) => hide Required, Inv, Located;
      case DoDispatch(id, order, vehicle, key) => hide Inv, Sound; DispatchKeepsSound(db, id, order, vehicle, key);
      case DoTelemetry(d, r) => hide Inv, Sound; TelemetryKeepsSound(db, d, r);
    }
  }

  lemma {:induction false} RunKeepsSound(steps: seq<Step>)
    ensures Sound(Run(EMPTY, steps))
  {
    if steps != [] {
      RunKeepsSound(steps[..|steps| - 1]);
      RunKeepsInv(EMPTY, steps[..|steps| - 1]);
      StepKeepsSound(Run(EMPTY, steps[..|steps| - 1]), steps[|steps| - 1]);
    }
  }

  /** In every run, the delivery linked to an order carries its number from its origin to its destination. */
  lemma {:induction false} LinkedDeliveryServesOrder(steps: seq<Step>, o: int, d: int)
    requires o in Run(EMPTY, steps).orders && Linked(Run(EMPTY, steps).deliveries, o, d)
    ensures var (order, delivery) := (Run(EMPTY, steps).orders[o].request, Run(EMPTY, steps).deliveries[d].request);
            && delivery.orderNumber == order.orderNumber
            && delivery.origin == order.origin && delivery.destination == order.destination
  {
    RunKeepsSound(steps);
    hide Run;
  }

  // ---------------------------------------------------------------- the service

  class OrderService {
    var orders: OrderTable
    var deliveries: DeliveryTable
    var outbox: seq<Event>

    ghost function Rows(): Db
      reads this
    {
      Db(orders, deliveries, outbox)
    }

    constructor ()
      ensures Rows() == EMPTY && Inv(Rows())
    {
      orders, deliveries, outbox := map[], map[], [];
    }

    method Create(id: int, r: OrderRequest, key: Option<string>) returns (result: Result<int>)
      requires Inv(Rows())
      modifies this
      ensures (Rows(), result) == CreateOrder(old(Rows()), id, r, key)
    {
      if !Required(key, 160) || !ValidOrder(r) {
        return Refused;
      }
      if existing: int :| existing in orders && orders[existing].key == key.value {
        return if orders[existing].request == r then Ok(existing) else Refused;
      }
      if (exists o :: o in orders && orders[o].request.orderNumber == r.orderNumber) || id in orders {
        return Refused;
      }
      orders := orders[id := OrderRow(r, READY, key.value, None)];
      outbox := outbox + [OrderCreated(id)];
      result := Ok(id);
    }

    method CreateForOrder(id: int, r: DeliveryRequest, key: Option<string>, order: Option<int>) returns (result: Result<int>)
      requires Inv(Rows())
      modifies this
      ensures (Rows(), result) == CreateDelivery(old(Rows()), id, r, key, order)
    {
      hide RowsOk, Coupled, Announced, OrderKeysUnique;
      if !Required(key, 160) || !ValidDelivery(r) {
        return Refused;
      }
      if existing: int :| existing in deliveries && deliveries[existing].key == key.value {
        if order.Some? && deliveries[existing].orderId != order {
          return Refused;
        }
        return if deliveries[existing].request == r then Ok(existing) else Refused;
      }
      if order.Some? {
        if linked: int :| linked in deliveries && deliveries[linked].orderId == order {
          LinkUnique(deliveries, order.value, linked);
          return Ok(linked);
        }
      }
      if id in deliveries {
        return Refused;
      }
      deliveries := deliveries[id := Created(r, key.value, order)];
      outbox := outbox + [DeliveryCreated(id)];
      result := Ok(id);
    }

    method DispatchOrder(id: int, order: int, vehicle: string, key: Option<string>) returns (result: Result<int>)
      requires Inv(Rows())
      modifies this
      ensures (Rows(), result) == Dispatch(old(Rows()), id, order, vehicle, key)
    {
      hide RowsOk, Coupled, Announced;
      if !Required(key, 160) || !Required(Some(vehicle), 80) {
        return Refused;
      }
      var existing: Option<int> := None;
      if linked: int :| linked in deliveries && deliveries[linked].orderId == Some(order) {
        existing := Some(linked);
        LinkUnique(deliveries, order, linked);
      }
      assert existing == DeliveryOf(deliveries, order);
      hide DeliveryKeysUnique;
      if prior: int :| prior in orders && orders[prior].dispatchKey == key {
        return if prior != order || existing.None? || deliveries[existing.value].request.vehicle != vehicle
               then Refused else Ok(existing.value);
      }
      if order !in orders {
        return Refused;
      }
      var row := orders[order];
      if existing.Some? {
        if deliveries[existing.value].request.vehicle != vehicle {
          return Refused;
        }
        if row.dispatchKey.Some? && row.dispatchKey != key {
          return Refused;
        }
        if row.dispatchKey.None? {
          if row.status != DISPATCHED {
            return Refused;
          }
          orders := orders[order := row.(dispatchKey := key)];
        }
        return Ok(existing.value);
      }
      if row.status != READY {
        return Refused;
      }
      result := CreateForOrder(id, DispatchRequest(row, vehicle), key, Some(order));
      if result.Ok? {
        orders := orders[order := row.(status := DISPATCHED, dispatchKey := key)];
        outbox := outbox + [OrderDispatched(order, result.value)];
      }
    }

    method Fulfill(delivery: int) returns (result: Result<()>)
      requires delivery in deliveries
      modifies this`orders, this`outbox
      ensures result.Ok? <==> FulfillFromDelivery(old(Rows()), delivery).Some?
      ensures Rows() == if result.Ok? then FulfillFromDelivery(old(Rows()), delivery).value else old(Rows())
    {
      var row := deliveries[delivery];
      if row.orderId.None? || row.status != DELIVERED {
        return Ok(());
      }
      var id := row.orderId.value;
      if id !in orders {
        return Refused;
      }
      if orders[id].status == FULFILLED {
        return Ok(());
      }
      if orders[id].status != DISPATCHED {
        return Refused;
      }
      orders := orders[id := orders[id].(status := FULFILLED)];
      outbox := outbox + [OrderFulfilled(id, delivery)];
      result := Ok(());
    }
  }
}
