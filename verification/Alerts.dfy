/**
 * Delivery alerts (api/.../alert/AlertService.java, DeliveryAlert.java): opening, escalating
 * and resolving with hysteresis, acknowledging once, and the outbox event of each change.
 */
module Alerts {
  import opened Common
  import AlertPolicies
  import RouteDeviation

  datatype Kind = DELAY | ROUTE_DEVIATION

  datatype Severity = WARNING | CRITICAL

  datatype Status = ACTIVE | RESOLVED

  /** An observed double: metres or seconds, and an unknown position is infinitely far off. */
  datatype Measure = Measure(value: real) | Unbounded

  datatype Alert = Alert(
    delivery: int, kind: Kind, severity: Severity, status: Status, observed: Measure, occurrences: nat,
    acknowledgedBy: Option<string>, acknowledgementKey: Option<string>)

  datatype Change = Opened | Escalated | Acknowledged | Resolved

  /** The outbox row written with a change; an alert is named by its position in the table. */
  datatype Event = Event(alert: nat, delivery: int, kind: Kind, change: Change, severity: Severity, observed: Measure)

  datatype System = System(alerts: seq<Alert>, events: seq<Event>)

  const EMPTY := System([], [])

  /** What evaluate sees of a delivery with a planned route: deviation, status DELAYED, seconds late. */
  datatype Seen = Seen(delivery: int, deviation: RouteDeviation.Distance, delayed: bool, late: int)

  datatype Step =
    | Evaluate(seen: Seen, policy: AlertPolicies.Thresholds)
    | Acknowledge(alert: nat, actor: Option<string>, key: Option<string>)

  // ---------------------------------------------------------------- operations

  function MeasureOf(d: RouteDeviation.Distance): Measure {
    if d.Infinite? then Unbounded else Measure(d.value)
  }

  predicate AtLeast(m: Measure, threshold: Num) { m.Unbounded? || (threshold.Finite? && m.value >= threshold.value) }

  predicate AtMost(m: Measure, threshold: Num) { m.Measure? && threshold.Finite? && m.value <= threshold.value }

  predicate IsActive(a: Alert, delivery: int, kind: Kind) { a.delivery == delivery && a.kind == kind && a.status == ACTIVE }

  function FindActive(alerts: seq<Alert>, delivery: int, kind: Kind): (r: Option<nat>)
    ensures r.Some? ==> r.value < |alerts| && IsActive(alerts[r.value], delivery, kind)
    ensures r.None? ==> forall i :: 0 <= i < |alerts| ==> !IsActive(alerts[i], delivery, kind)
  {
    if alerts == [] then None
    else if IsActive(alerts[|alerts| - 1], delivery, kind) then Some(|alerts| - 1)
    else FindActive(alerts[..|alerts| - 1], delivery, kind)
  }

  function EventOf(i: nat, a: Alert, change: Change): Event {
    Event(i, a.delivery, a.kind, change, a.severity, a.observed)
  }

  function Add(s: System, a: Alert): System {
    System(s.alerts + [a], s.events + [EventOf(|s.alerts|, a, Opened)])
  }

  /** Save a row without an event. */
  function Touch(s: System, i: nat, a: Alert): System
    requires i < |s.alerts|
  {
    s.(alerts := s.alerts[i := a])
  }

  /** Save a row and emit its change. */
  function Put(s: System, i: nat, a: Alert, change: Change): System
    requires i < |s.alerts|
  {
    System(s.alerts[i := a], s.events + [EventOf(i, a, change)])
  }

  predicate Escalates(a: Alert, severity: Severity) { severity.CRITICAL? && a.severity.WARNING? }

  /** observe: severity only ever rises. */
  function Observed(a: Alert, severity: Severity, value: Measure): Alert {
    a.(severity := if Escalates(a, severity) then severity else a.severity, observed := value, occurrences := a.occurrences + 1)
  }

  function Reconcile(s: System, delivery: int, kind: Kind, value: Measure, open: bool, close: bool, severity: Severity): System {
    var active := FindActive(s.alerts, delivery, kind);
    if active.None? then
      if open then Add(s, Alert(delivery, kind, severity, ACTIVE, value, 1, None, None)) else s
    else
      var i, a := active.value, s.alerts[active.value];
      if close then Put(s, i, a.(status := RESOLVED, observed := value), Resolved)
      else if open && Escalates(a, severity) then Put(s, i, Observed(a, severity, value), Escalated)
      else if open then Touch(s, i, Observed(a, severity, value))
      else s
  }

  function ReconcileDeviation(s: System, seen: Seen, p: AlertPolicies.Thresholds): System {
    var value := MeasureOf(seen.deviation);
    Reconcile(s, seen.delivery, ROUTE_DEVIATION, value, AtLeast(value, p.deviationOpen), AtMost(value, p.deviationClose),
              if AtLeast(value, p.deviationCritical) then CRITICAL else WARNING)
  }

  function ReconcileDelay(s: System, seen: Seen, p: AlertPolicies.Thresholds): System {
    Reconcile(s, seen.delivery, DELAY, Measure(if seen.late > 0 then seen.late as real else 0.0),
              seen.delayed || seen.late >= p.delayOpen, !seen.delayed && seen.late <= p.delayClose,
              if seen.late >= p.delayCritical then CRITICAL else WARNING)
  }

  function FindByKey(alerts: seq<Alert>, key: string): (r: Option<nat>)
    ensures r.Some? ==> r.value < |alerts| && alerts[r.value].acknowledgementKey == Some(key)
    ensures r.None? ==> forall i :: 0 <= i < |alerts| ==> alerts[i].acknowledgementKey != Some(key)
  {
    if alerts == [] then None
    else if alerts[|alerts| - 1].acknowledgementKey == Some(key) then Some(|alerts| - 1)
    else FindByKey(alerts[..|alerts| - 1], key)
  }

  /** acknowledge after its key check. */
  function AcknowledgeRow(s: System, i: nat, actor: string, key: Option<string>): (System, Result<Alert>) {
    if i >= |s.alerts| then (s, Refused)
    else
      var a := s.alerts[i];
      if key.Some? && a.acknowledgedBy.Some? then
        if a.acknowledgementKey.Some? || a.acknowledgedBy != Some(actor) then (s, Refused)
        else (Touch(s, i, a.(acknowledgementKey := key)), Ok(a.(acknowledgementKey := key)))
      else if a.status != ACTIVE then (s, Refused)
      else if a.acknowledgedBy.Some? then (s, Ok(a))
      else
        var saved := a.(acknowledgedBy := Some(actor), acknowledgementKey := key);
        (Put(s, i, saved, Acknowledged), Ok(saved))
  }

  function AcknowledgeAlert(s: System, i: nat, actor: Option<string>, key: Option<string>): (System, Result<Alert>) {
    if !Required(actor, 120) || (key.Some? && !Required(key, 160)) then (s, Refused)
    else
      var prior := if key.Some? then FindByKey(s.alerts, key.value) else None;
      if prior.Some? then
        (s, if prior.value == i && s.alerts[i].acknowledgedBy == actor then Ok(s.alerts[i]) else Refused)
      else AcknowledgeRow(s, i, actor.value, key)
  }

  function Apply(s: System, step: Step): System {
    match step
    case Evaluate(seen, policy) => ReconcileDelay(ReconcileDeviation(s, seen, policy), seen, policy)
    case Acknowledge(i, actor, key) => AcknowledgeAlert(s, i, actor, key).0
  }

  function Run(s: System, steps: seq<Step>): System {
    if steps == [] then s else Apply(Run(s, steps[..|steps| - 1]), steps[|steps| - 1])
  }

  // ---------------------------------------------------------------- the life of one alert

  /** Where an alert is according to its events alone. */
  datatype Stage = Absent | Open(escalated: bool, acknowledged: bool) | Closed(escalated: bool, acknowledged: bool) | Broken

  function Next(stage: Stage, change: Change): Stage {
    match change
    case Opened => if stage.Absent? then Open(false, false) else Broken
    case Escalated => if stage.Open? && !stage.escalated then Open(true, stage.acknowledged) else Broken
    case Acknowledged => if stage.Open? && !stage.acknowledged then Open(stage.escalated, true) else Broken
    case Resolved => if stage.Open? then Closed(stage.escalated, stage.acknowledged) else Broken
  }

  function StageOf(events: seq<Event>, i: nat): Stage {
    if events == [] then Absent
    else
      var before := StageOf(events[..|events| - 1], i);
      if events[|events| - 1].alert == i then Next(before, events[|events| - 1].change) else before
  }

  /** The changes of one alert, in order. */
  function Trace(events: seq<Event>, i: nat): seq<Change> {
    if events == [] then []
    else if events[|events| - 1].alert == i then Trace(events[..|events| - 1], i) + [events[|events| - 1].change]
    else Trace(events[..|events| - 1], i)
  }

  /** OPENED, then at most one ESCALATED and one ACKNOWLEDGED in any order, then at most one RESOLVED. */
  predicate LegalTrace(t: seq<Change>) {
    && |t| <= 4 && (t != [] ==> t[0] == Opened)
    && (forall i, j :: 0 <= i < j < |t| ==> t[i] != t[j] && t[i] != Resolved)
  }

  /** The row is where its events say it is. */
  predicate RowOk(a: Alert, stage: Stage) {
    && (a.status == ACTIVE ==> stage.Open?) && (a.status == RESOLVED ==> stage.Closed?)
    && (stage.Open? || stage.Closed?) && stage.acknowledged == a.acknowledgedBy.Some?
    && (stage.escalated ==> a.severity == CRITICAL)
    && (a.acknowledgementKey.Some? ==> a.acknowledgedBy.Some?)
  }

  predicate StageOk(s: System, i: nat) {
    if i < |s.alerts| then RowOk(s.alerts[i], StageOf(s.events, i)) else StageOf(s.events, i) == Absent
  }

  // ---------------------------------------------------------------- one delivery and kind

  /** Whether the last opening of a delivery and kind is still unresolved, according to the events. */
  predicate OpenNow(events: seq<Event>, delivery: int, kind: Kind) {
    events != [] &&
    var e := events[|events| - 1];
    if e.delivery == delivery && e.kind == kind && e.change == Opened then true
    else if e.delivery == delivery && e.kind == kind && e.change == Resolved then false
    else OpenNow(events[..|events| - 1], delivery, kind)
  }

  /** Openings and resolutions of each delivery and kind alternate. */
  predicate Alternates(events: seq<Event>) {
    events == [] ||
    var front, e := events[..|events| - 1], events[|events| - 1];
    && Alternates(front)
    && (e.change == Opened ==> !OpenNow(front, e.delivery, e.kind))
    && (e.change == Resolved ==> OpenNow(front, e.delivery, e.kind))
  }

  ghost predicate OpenOk(s: System, delivery: int, kind: Kind) {
    FindActive(s.alerts, delivery, kind).Some? <==> OpenNow(s.events, delivery, kind)
  }

  predicate OneActive(alerts: seq<Alert>) {
    forall i, j :: 0 <= i < j < |alerts| && alerts[i].status == ACTIVE ==> !IsActive(alerts[j], alerts[i].delivery, alerts[i].kind)
  }

  predicate KeysUnique(alerts: seq<Alert>) {
    forall i, j :: 0 <= i < j < |alerts| && alerts[i].acknowledgementKey.Some? ==> alerts[i].acknowledgementKey != alerts[j].acknowledgementKey
  }

  ghost predicate Inv(s: System) {
    && (forall i: nat :: StageOk(s, i))
    && (forall d, k :: OpenOk(s, d, k))
    && Alternates(s.events) && OneActive(s.alerts) && KeysUnique(s.alerts)
  }

  // ---------------------------------------------------------------- the three ways a row changes

  lemma EventAppended(events: seq<Event>, e: Event)
    ensures forall i: nat :: StageOf(events + [e], i) == if e.alert == i then Next(StageOf(events, i), e.change) else StageOf(events, i)
    ensures forall d, k :: OpenNow(events + [e], d, k) ==
                           if e.delivery == d && e.kind == k && (e.change == Opened || e.change == Resolved) then e.change == Opened
                           else OpenNow(events, d, k)
    ensures Alternates(events + [e]) <==>
            && Alternates(events)
            && (e.change == Opened ==> !OpenNow(events, e.delivery, e.kind))
            && (e.change == Resolved ==> OpenNow(events, e.delivery, e.kind))
  {
    assert (events + [e])[..|events|] == events;
  }

  lemma NewRowKeepsActive(alerts: seq<Alert>, a: Alert)
    requires OneActive(alerts) && FindActive(alerts, a.delivery, a.kind).None? && a.status == ACTIVE
    ensures OneActive(alerts + [a])
    ensures forall d, k :: FindActive(alerts + [a], d, k).Some? <==> FindActive(alerts, d, k).Some? || (d == a.delivery && k == a.kind)
  {
    assert (alerts + [a])[..|alerts|] == alerts;
  }

  lemma AddKeepsStages(s: System, a: Alert)
    requires (forall i: nat :: StageOk(s, i)) && a.status == ACTIVE && a.acknowledgedBy.None? && a.acknowledgementKey.None?
    ensures forall i: nat :: StageOk(Add(s, a), i)
  {
    EventAppended(s.events, EventOf(|s.alerts|, a, Opened));
    hide StageOf, OpenNow, Alternates;
    forall i: nat ensures StageOk(Add(s, a), i) { assert StageOk(s, i); }
  }

  lemma AddKeepsInv(s: System, a: Alert)
    requires Inv(s) && a.status == ACTIVE && a.acknowledgedBy.None? && a.acknowledgementKey.None?
    requires FindActive(s.alerts, a.delivery, a.kind).None?
    ensures Inv(Add(s, a))
  {
    var after := Add(s, a);
    AddKeepsStages(s, a);
    EventAppended(s.events, EventOf(|s.alerts|, a, Opened));
    NewRowKeepsActive(s.alerts, a);
    assert OpenOk(s, a.delivery, a.kind);
    hide StageOk, StageOf, OpenNow, Alternates, FindActive, OneActive;
    forall d, k ensures OpenOk(after, d, k) { assert OpenOk(s, d, k); }
    hide OpenOk;
    assert KeysUnique(after.alerts);
  }

  /** Changing a row in place without opening or resolving it. */
  predicate SameLife(a: Alert, b: Alert) {
    a.delivery == b.delivery && a.kind == b.kind && a.status == b.status
  }

  lemma RowKeepsActive(alerts: seq<Alert>, i: nat, b: Alert)
    requires i < |alerts| && SameLife(alerts[i], b) && OneActive(alerts)
    ensures OneActive(alerts[i := b])
    ensures forall d, k :: FindActive(alerts[i := b], d, k).Some? <==> FindActive(alerts, d, k).Some?
  {
    forall d, k ensures FindActive(alerts[i := b], d, k).Some? <==> FindActive(alerts, d, k).Some? {
      var x, y := FindActive(alerts, d, k), FindActive(alerts[i := b], d, k);
      if x.Some? { assert IsActive(alerts[i := b][x.value], d, k); }
      if y.Some? { assert IsActive(alerts[y.value], d, k); }
    }
    hide FindActive;
  }

  predicate KeyFits(alerts: seq<Alert>, i: nat, b: Alert)
    requires i < |alerts|
  {
    b.acknowledgementKey.None? || forall j :: 0 <= j < |alerts| && j != i ==> alerts[j].acknowledgementKey != b.acknowledgementKey
  }

  lemma TouchKeepsInv(s: System, i: nat, b: Alert)
    requires Inv(s) && i < |s.alerts| && SameLife(s.alerts[i], b) && KeyFits(s.alerts, i, b)
    requires s.alerts[i].acknowledgedBy.Some? == b.acknowledgedBy.Some? && b.severity == s.alerts[i].severity
    requires b.acknowledgementKey.Some? ==> b.acknowledgedBy.Some?
    ensures Inv(Touch(s, i, b))
  {
    var after := Touch(s, i, b);
    RowKeepsActive(s.alerts, i, b);
    hide StageOf, OpenNow, Alternates, FindActive, OneActive;
    forall j: nat ensures StageOk(after, j) { assert StageOk(s, j); }
    forall d, k ensures OpenOk(after, d, k) { assert OpenOk(s, d, k); }
    hide RowOk, StageOk, OpenOk;
    assert KeysUnique(after.alerts);
  }

  lemma PutKeepsInv(s: System, i: nat, b: Alert, change: Change)
    requires Inv(s) && i < |s.alerts| && SameLife(s.alerts[i], b) && KeyFits(s.alerts, i, b)
    requires change == Escalated || change == Acknowledged
    requires RowOk(b, Next(StageOf(s.events, i), change))
    ensures Inv(Put(s, i, b, change))
  {
    var after := Put(s, i, b, change);
    RowKeepsActive(s.alerts, i, b);
    EventAppended(s.events, EventOf(i, b, change));
    hide StageOf, OpenNow, Alternates, FindActive, OneActive, Next, RowOk;
    forall j: nat ensures StageOk(after, j) { assert StageOk(s, j); }
    forall d, k ensures OpenOk(after, d, k) { assert OpenOk(s, d, k); }
    hide StageOk, OpenOk;
    assert KeysUnique(after.alerts);
  }

  /** Resolving the one active row of its delivery and kind. */
  lemma ResolvedKeepsActive(alerts: seq<Alert>, i: nat, b: Alert)
    requires i < |alerts| && OneActive(alerts) && alerts[i].status == ACTIVE
    requires b.delivery == alerts[i].delivery && b.kind == alerts[i].kind && b.status == RESOLVED
    ensures OneActive(alerts[i := b])
    ensures forall d, k :: FindActive(alerts[i := b], d, k).Some? <==>
                           FindActive(alerts, d, k).Some? && !(d == b.delivery && k == b.kind)
  {
    forall d, k ensures FindActive(alerts[i := b], d, k).Some? <==> FindActive(alerts, d, k).Some? && !(d == b.delivery && k == b.kind) {
      var x, y := FindActive(alerts, d, k), FindActive(alerts[i := b], d, k);
      if x.Some? && !(d == b.delivery && k == b.kind) { assert IsActive(alerts[i := b][x.value], d, k); }
      if y.Some? { assert IsActive(alerts[y.value], d, k) && y.value != i; }
    }
    hide FindActive;
  }

  lemma ResolveKeepsInv(s: System, i: nat, b: Alert)
    requires Inv(s) && i < |s.alerts| && s.alerts[i].status == ACTIVE
    requires b == s.alerts[i].(status := RESOLVED, observed := b.observed)
    ensures Inv(Put(s, i, b, Resolved))
  {
    var after := Put(s, i, b, Resolved);
    ResolvedKeepsActive(s.alerts, i, b);
    EventAppended(s.events, EventOf(i, b, Resolved));
    assert OpenOk(s, b.delivery, b.kind);
    assert FindActive(s.alerts, b.delivery, b.kind).Some? by { assert IsActive(s.alerts[i], b.delivery, b.kind); }
    hide StageOf, OpenNow, Alternates, FindActive, OneActive;
    forall j: nat ensures StageOk(after, j) { assert StageOk(s, j); }
    forall d, k ensures OpenOk(after, d, k) { assert OpenOk(s, d, k); }
    hide RowOk, StageOk, OpenOk;
    assert KeysUnique(after.alerts);
  }

  // ---------------------------------------------------------------- every step keeps the invariant

  lemma OwnKeyFits(alerts: seq<Alert>, i: nat, b: Alert)
    requires KeysUnique(alerts) && i < |alerts| && b.acknowledgementKey == alerts[i].acknowledgementKey
    ensures KeyFits(alerts, i, b)
  {
  }

  lemma ReconcileKeepsInv(s: System, delivery: int, kind: Kind, value: Measure, open: bool, close: bool, severity: Severity)
    requires Inv(s)
    ensures Inv(Reconcile(s, delivery, kind, value, open, close, severity))
  {
    var active := FindActive(s.alerts, delivery, kind);
    if active.None? {
      hide Inv, FindActive;
      if open { AddKeepsInv(s, Alert(delivery, kind, severity, ACTIVE, value, 1, None, None)); }
    } else {
      var i, a := active.value, s.alerts[active.value];
      assert StageOk(s, i);
      OwnKeyFits(s.alerts, i, Observed(a, severity, value));
      hide Inv, FindActive, StageOf, KeyFits;
      if close {
        ResolveKeepsInv(s, i, a.(status := RESOLVED, observed := value));
      } else if open && Escalates(a, severity) {
        PutKeepsInv(s, i, Observed(a, severity, value), Escalated);
      } else if open {
        TouchKeepsInv(s, i, Observed(a, severity, value));
      }
    }
  }

  lemma AcknowledgeKeepsInv(s: System, i: nat, actor: Option<string>, key: Option<string>)
    requires Inv(s)
    ensures Inv(AcknowledgeAlert(s, i, actor, key).0)
  {
    RequiredIsPresent(actor, 120);
    hide Required;
    var after := AcknowledgeAlert(s, i, actor, key).0;
    if after != s {
      var a := s.alerts[i];
      assert StageOk(s, i);
      assert KeyFits(s.alerts, i, a.(acknowledgementKey := key));
      hide Inv, StageOf, FindByKey;
      if a.acknowledgedBy.Some? {
        TouchKeepsInv(s, i, a.(acknowledgementKey := key));
      } else {
        PutKeepsInv(s, i, a.(acknowledgedBy := Some(actor.value), acknowledgementKey := key), Acknowledged);
      }
    }
  }

  lemma StepKeepsInv(s: System, step: Step)
    requires Inv(s)
    ensures Inv(Apply(s, step))
  {
    hide Inv, Reconcile, AcknowledgeAlert;
    match step
    case Evaluate(seen, p) =>
      var value := MeasureOf(seen.deviation);
      var mid := ReconcileDeviation(s, seen, p);
      ReconcileKeepsInv(s, seen.delivery, ROUTE_DEVIATION, value, AtLeast(value, p.deviationOpen), AtMost(value, p.deviationClose),
                        if AtLeast(value, p.deviationCritical) then CRITICAL else WARNING);
      ReconcileKeepsInv(mid, seen.delivery, DELAY, Measure(if seen.late > 0 then seen.late as real else 0.0),
                        seen.delayed || seen.late >= p.delayOpen, !seen.delayed && seen.late <= p.delayClose,
                        if seen.late >= p.delayCritical then CRITICAL else WARNING);
    case Acknowledge(i, actor, key) => AcknowledgeKeepsInv(s, i, actor, key);
  }

  lemma {:induction false} RunKeepsInv(s: System, steps: seq<Step>)
    requires Inv(s)
    ensures Inv(Run(s, steps))
  {
    if steps != [] {
      RunKeepsInv(s, steps[..|steps| - 1]);
      StepKeepsInv(Run(s, steps[..|steps| - 1]), steps[|steps| - 1]);
    }
  }

  lemma EmptyIsOk()
    ensures Inv(EMPTY)
  {
  }

  // ---------------------------------------------------------------- main results

  /** In every run, a delivery never has two ACTIVE alerts of one kind. */
  lemma {:induction false} OneActivePerDeliveryAndKind(steps: seq<Step>, i: nat, j: nat)
    requires i < j < |Run(EMPTY, steps).alerts|
    ensures var alerts := Run(EMPTY, steps).alerts;
            !(alerts[i].status == alerts[j].status == ACTIVE && alerts[i].delivery == alerts[j].delivery && alerts[i].kind == alerts[j].kind)
  {
    EmptyIsOk();
    RunKeepsInv(EMPTY, steps);
    hide Run, StageOk, OpenOk, Alternates, KeysUnique;
  }

  /** What the fold says about the changes it read. */
  lemma {:induction false} StageExplainsTrace(events: seq<Event>, i: nat)
    requires !StageOf(events, i).Broken?
    ensures LegalTrace(Trace(events, i))
    ensures var t, stage := Trace(events, i), StageOf(events, i);
            && (stage.Absent? <==> t == [])
            && (stage.Closed? <==> Resolved in t)
            && (stage.Open? || stage.Closed? ==> (stage.escalated <==> Escalated in t) && (stage.acknowledged <==> Acknowledged in t))
            && |t| == match stage
                      case Open(e, a) => 1 + (if e then 1 else 0) + (if a then 1 else 0)
                      case Closed(e, a) => 2 + (if e then 1 else 0) + (if a then 1 else 0)
                      case _ => 0
  {
    if events != [] {
      var front, e := events[..|events| - 1], events[|events| - 1];
      StageExplainsTrace(front, i);
      hide StageOf;
      if e.alert == i { TraceGrows(Trace(front, i), e.change); }
    }
  }

  lemma TraceGrows(t: seq<Change>, change: Change)
    requires LegalTrace(t) && |t| <= 3 && change !in t && Resolved !in t && (t == [] <==> change == Opened)
    ensures LegalTrace(t + [change])
  {
    forall k | 0 <= k < |t| ensures t[k] != change && t[k] != Resolved { assert t[k] in t; }
  }

  /**
   * In every run, each alert's events are OPENED, then at most one ESCALATED and one
   * ACKNOWLEDGED, then at most one RESOLVED; and the row shows just what they say.
   */
  lemma {:induction false} TraceOfEveryAlert(steps: seq<Step>, i: nat)
    ensures var s := Run(EMPTY, steps);
            var t := Trace(s.events, i);
            && LegalTrace(t)
            && (t == [] <==> i >= |s.alerts|)
            && (i < |s.alerts| ==>
                  && (s.alerts[i].status == RESOLVED <==> Resolved in t)
                  && (s.alerts[i].acknowledgedBy.Some? <==> Acknowledged in t)
                  && (Escalated in t ==> s.alerts[i].severity == CRITICAL))
  {
    EmptyIsOk();
    RunKeepsInv(EMPTY, steps);
    assert StageOk(Run(EMPTY, steps), i);
    StageExplainsTrace(Run(EMPTY, steps).events, i);
    hide Run, StageOf, Trace, LegalTrace, Inv;
  }

  // ---------------------------------------------------------------- hysteresis

  /** Openings of a deviation are at or above the open threshold; resolutions at or below the close threshold. */
  predicate Bounded(events: seq<Event>, p: AlertPolicies.Thresholds) {
    forall i :: 0 <= i < |events| && events[i].kind == ROUTE_DEVIATION ==>
      && (events[i].change == Opened ==> AtLeast(events[i].observed, p.deviationOpen))
      && (events[i].change == Resolved ==> AtMost(events[i].observed, p.deviationClose))
  }

  predicate Under(steps: seq<Step>, p: AlertPolicies.Thresholds) {
    steps == [] || (Under(steps[..|steps| - 1], p) && (steps[|steps| - 1].Evaluate? ==> steps[|steps| - 1].policy == p))
  }

  lemma StepKeepsBounded(s: System, step: Step, p: AlertPolicies.Thresholds)
    requires Bounded(s.events, p) && (step.Evaluate? ==> step.policy == p)
    ensures Bounded(Apply(s, step).events, p)
  {
    hide FindActive, FindByKey, Required, AtLeast, AtMost;
    if step.Evaluate? {
      assert Bounded(ReconcileDeviation(s, step.seen, p).events, p);
    }
  }

  lemma {:induction false} RunKeepsBounded(steps: seq<Step>, p: AlertPolicies.Thresholds)
    requires Under(steps, p)
    ensures Bounded(Run(EMPTY, steps).events, p)
  {
    if steps != [] {
      RunKeepsBounded(steps[..|steps| - 1], p);
      StepKeepsBounded(Run(EMPTY, steps[..|steps| - 1]), steps[|steps| - 1], p);
    }
  }

  predicate Is(e: Event, delivery: int, kind: Kind, change: Change) {
    e.delivery == delivery && e.kind == kind && e.change == change
  }

  /** Something closed since an opening after which the pair is not open. */
  lemma {:induction false} ClosedSince(events: seq<Event>, delivery: int, kind: Kind, i: nat) returns (k: nat)
    requires i < |events| && Is(events[i], delivery, kind, Opened) && !OpenNow(events, delivery, kind)
    ensures i < k < |events| && Is(events[k], delivery, kind, Resolved)
  {
    if Is(events[|events| - 1], delivery, kind, Resolved) {
      k := |events| - 1;
    } else {
      k := ClosedSince(events[..|events| - 1], delivery, kind, i);
    }
  }

  lemma {:induction false} OpeningWasClosed(events: seq<Event>, delivery: int, kind: Kind, j: nat)
    requires Alternates(events) && j < |events| && Is(events[j], delivery, kind, Opened)
    ensures !OpenNow(events[..j], delivery, kind)
  {
    if j < |events| - 1 {
      OpeningWasClosed(events[..|events| - 1], delivery, kind, j);
      assert events[..|events| - 1][..j] == events[..j];
    }
  }

  /**
   * Hysteresis. Under one policy, between two openings of a delivery's deviation alert there is
   * a resolution at or below the close threshold, and the second opening is at or above the
   * open threshold, which is strictly higher.
   */
  lemma {:induction false} ReopeningNeedsCloseThenOpen(steps: seq<Step>, p: AlertPolicies.Thresholds, delivery: int, i: nat, j: nat) returns (k: nat)
    requires AlertPolicies.Ordered(p) && Under(steps, p) && i < j < |Run(EMPTY, steps).events|
    requires Is(Run(EMPTY, steps).events[i], delivery, ROUTE_DEVIATION, Opened) && Is(Run(EMPTY, steps).events[j], delivery, ROUTE_DEVIATION, Opened)
    ensures i < k < j && Is(Run(EMPTY, steps).events[k], delivery, ROUTE_DEVIATION, Resolved)
    ensures AtMost(Run(EMPTY, steps).events[k].observed, p.deviationClose) && AtLeast(Run(EMPTY, steps).events[j].observed, p.deviationOpen)
    ensures p.deviationClose.value < p.deviationOpen.value
  {
    EmptyIsOk();
    RunKeepsInv(EMPTY, steps);
    RunKeepsBounded(steps, p);
    var events := Run(EMPTY, steps).events;
    hide Run, StageOk, OpenOk, OneActive, KeysUnique, AtLeast, AtMost;
    OpeningWasClosed(events, delivery, ROUTE_DEVIATION, j);
    k := ClosedSince(events[..j], delivery, ROUTE_DEVIATION, i);
  }

  // ---------------------------------------------------------------- acknowledgement keys

  lemma ReconcileKeepsKeys(s: System, delivery: int, kind: Kind, value: Measure, open: bool, close: bool, severity: Severity, i: nat)
    requires i < |s.alerts|
    ensures var after := Reconcile(s, delivery, kind, value, open, close, severity).alerts;
            && |after| >= |s.alerts|
            && after[i].acknowledgedBy == s.alerts[i].acknowledgedBy && after[i].acknowledgementKey == s.alerts[i].acknowledgementKey
  {
    hide FindActive;
  }

  lemma StepKeepsAcknowledgement(s: System, step: Step, i: nat)
    requires i < |s.alerts| && s.alerts[i].acknowledgedBy.Some? && s.alerts[i].acknowledgementKey.Some?
    ensures var after := Apply(s, step).alerts;
            && i < |after|
            && after[i].acknowledgedBy == s.alerts[i].acknowledgedBy && after[i].acknowledgementKey == s.alerts[i].acknowledgementKey
  {
    hide Reconcile, Required, FindByKey;
    match step
    case Evaluate(seen, p) =>
      var value := MeasureOf(seen.deviation);
      ReconcileKeepsKeys(s, seen.delivery, ROUTE_DEVIATION, value, AtLeast(value, p.deviationOpen), AtMost(value, p.deviationClose),
                         if AtLeast(value, p.deviationCritical) then CRITICAL else WARNING, i);
      ReconcileKeepsKeys(ReconcileDeviation(s, seen, p), seen.delivery, DELAY, Measure(if seen.late > 0 then seen.late as real else 0.0),
                         seen.delayed || seen.late >= p.delayOpen, !seen.delayed && seen.late <= p.delayClose,
                         if seen.late >= p.delayCritical then CRITICAL else WARNING, i);
    case Acknowledge(_, _, _) =>
  }

  lemma {:induction false} AcknowledgementIsForGood(s: System, steps: seq<Step>, i: nat)
    requires i < |s.alerts| && s.alerts[i].acknowledgedBy.Some? && s.alerts[i].acknowledgementKey.Some?
    ensures var later := Run(s, steps).alerts;
            && i < |later|
            && later[i].acknowledgedBy == s.alerts[i].acknowledgedBy && later[i].acknowledgementKey == s.alerts[i].acknowledgementKey
  {
    if steps != [] {
      AcknowledgementIsForGood(s, steps[..|steps| - 1], i);
      StepKeepsAcknowledgement(Run(s, steps[..|steps| - 1]), steps[|steps| - 1], i);
    }
  }

  lemma KeyedSuccess(s: System, i: nat, actor: Option<string>, key: Option<string>)
    requires key.Some? && AcknowledgeAlert(s, i, actor, key).1.Ok?
    ensures var first := AcknowledgeAlert(s, i, actor, key).0.alerts;
            i < |first| && first[i].acknowledgementKey == key && first[i].acknowledgedBy == actor && actor.Some?
    ensures Required(actor, 120) && Required(key, 160)
  {
    RequiredIsPresent(actor, 120);
    hide FindByKey, Required;
  }

  lemma HolderIsUnique(alerts: seq<Alert>, i: nat, key: string)
    requires KeysUnique(alerts) && i < |alerts| && alerts[i].acknowledgementKey == Some(key)
    ensures FindByKey(alerts, key) == Some(i)
  {
    var found := FindByKey(alerts, key);
    hide FindByKey;
  }

  /** After a keyed acknowledgement, in every continuation its key changes nothing and answers only the same request. */
  lemma {:induction false} KeyReuseChangesNothing(s: System, i: nat, actor: Option<string>, key: Option<string>, steps: seq<Step>, j: nat, actor2: Option<string>)
    requires Inv(s) && key.Some? && AcknowledgeAlert(s, i, actor, key).1.Ok?
    ensures var later := Run(AcknowledgeAlert(s, i, actor, key).0, steps);
            && AcknowledgeAlert(later, j, actor2, key).0 == later
            && (AcknowledgeAlert(later, j, actor2, key).1.Ok? <==> j == i && actor2 == actor)
  {
    var first := AcknowledgeAlert(s, i, actor, key).0;
    AcknowledgeKeepsInv(s, i, actor, key);
    KeyedSuccess(s, i, actor, key);
    AcknowledgementIsForGood(first, steps, i);
    RunKeepsInv(first, steps);
    var later := Run(first, steps);
    HolderIsUnique(later.alerts, i, key.value);
    hide Run, Inv, FindByKey, AcknowledgeRow, Required;
  }

  // ---------------------------------------------------------------- what an evaluation decides

  /**
   * One delivery and kind was reconciled: its active alert is resolved if `close`, else seen once
   * more if `open` - critical from then on if `critical` - and one is opened if there is none and
   * `open`; no other alert changes. Just the opening, the rise to critical or the end is announced.
   */
  ghost predicate Decided(s: System, after: System, delivery: int, kind: Kind, value: Measure, open: bool, close: bool, critical: bool) {
    && |s.alerts| <= |after.alerts|
    && (forall i :: 0 <= i < |s.alerts| && !IsActive(s.alerts[i], delivery, kind) ==> after.alerts[i] == s.alerts[i])
    && (forall i :: 0 <= i < |s.alerts| && IsActive(s.alerts[i], delivery, kind) ==>
          var a, b := s.alerts[i], after.alerts[i];
          && |after.alerts| == |s.alerts|
          && b == (if close then a.(status := RESOLVED, observed := value)
                   else if open then a.(severity := if critical then CRITICAL else a.severity, observed := value, occurrences := a.occurrences + 1)
                   else a)
          && after.events == s.events + if close then [Event(i, delivery, kind, Resolved, b.severity, value)]
                                        else if open && critical && a.severity == WARNING then [Event(i, delivery, kind, Escalated, CRITICAL, value)]
                                        else [])
    && ((forall i :: 0 <= i < |s.alerts| ==> !IsActive(s.alerts[i], delivery, kind)) ==>
          var severity := if critical then CRITICAL else WARNING;
          after == if open then System(s.alerts + [Alert(delivery, kind, severity, ACTIVE, value, 1, None, None)],
                                       s.events + [Event(|s.alerts|, delivery, kind, Opened, severity, value)])
                   else s)
  }

  lemma ReconcileDecides(s: System, delivery: int, kind: Kind, value: Measure, open: bool, close: bool, severity: Severity)
    requires OneActive(s.alerts)
    ensures Decided(s, Reconcile(s, delivery, kind, value, open, close, severity), delivery, kind, value, open, close, severity == CRITICAL)
  {
    var active := FindActive(s.alerts, delivery, kind);
    hide FindActive;
  }

  /**
   * An evaluation decides the deviation alert first - open at or beyond the open distance, closed at
   * or below the close distance, and an unknown position is beyond all - and then the delay alert:
   * open when marked delayed or late by the open seconds, closed when neither marked nor later than
   * the close seconds. Critical means at or beyond the critical threshold.
   */
  lemma {:induction false} EvaluationDecides(s: System, seen: Seen, p: AlertPolicies.Thresholds) returns (between: System)
    requires Inv(s) && AlertPolicies.Ordered(p)
    ensures var (off, value) := (seen.deviation, if seen.deviation.Infinite? then Unbounded else Measure(seen.deviation.value));
            Decided(s, between, seen.delivery, ROUTE_DEVIATION, value,
                    off.Infinite? || off.value >= p.deviationOpen.value,
                    !off.Infinite? && off.value <= p.deviationClose.value,
                    off.Infinite? || off.value >= p.deviationCritical.value)
    ensures Decided(between, Apply(s, Evaluate(seen, p)), seen.delivery, DELAY, Measure(if seen.late > 0 then seen.late as real else 0.0),
                    seen.delayed || p.delayOpen <= seen.late, !seen.delayed && p.delayClose >= seen.late, p.delayCritical <= seen.late)
  {
    between := ReconcileDeviation(s, seen, p);
    var value := MeasureOf(seen.deviation);
    ReconcileDecides(s, seen.delivery, ROUTE_DEVIATION, value, AtLeast(value, p.deviationOpen), AtMost(value, p.deviationClose),
                     if AtLeast(value, p.deviationCritical) then CRITICAL else WARNING);
    ReconcileKeepsInv(s, seen.delivery, ROUTE_DEVIATION, value, AtLeast(value, p.deviationOpen), AtMost(value, p.deviationClose),
                      if AtLeast(value, p.deviationCritical) then CRITICAL else WARNING);
    assert OneActive(between.alerts) by { hide StageOk, OpenOk, Alternates, KeysUnique; }
    ReconcileDecides(between, seen.delivery, DELAY, Measure(if seen.late > 0 then seen.late as real else 0.0),
                     seen.delayed || seen.late >= p.delayOpen, !seen.delayed && seen.late <= p.delayClose,
                     if seen.late >= p.delayCritical then CRITICAL else WARNING);
    hide Inv, Decided, Reconcile, OneActive;
  }

  /**
   * Under a key no alert carries, or none, an acknowledgement in order of an active alert nobody
   * acknowledged records operator and key; a key comes late for the operator who acknowledged without
   * one; without a key an active acknowledged alert answers as it is. Everything else is refused.
   */
  lemma {:induction false} AcknowledgesExactly(s: System, i: nat, actor: Option<string>, key: Option<string>)
    requires key.Some? ==> forall j :: 0 <= j < |s.alerts| ==> s.alerts[j].acknowledgementKey != key
    ensures var (after, reply) := AcknowledgeAlert(s, i, actor, key);
            var valid := Required(actor, 120) && (key.Some? ==> Required(key, 160)) && i < |s.alerts|;
            var first := valid && s.alerts[i].status == ACTIVE && s.alerts[i].acknowledgedBy.None?;
            var late := valid && key.Some? && s.alerts[i].acknowledgedBy == actor && s.alerts[i].acknowledgementKey.None?;
            var again := valid && key.None? && s.alerts[i].status == ACTIVE && s.alerts[i].acknowledgedBy.Some?;
            && (reply.Ok? <==> first || late || again)
            && after.alerts == (if first then s.alerts[i := s.alerts[i].(acknowledgedBy := actor, acknowledgementKey := key)]
                                else if late then s.alerts[i := s.alerts[i].(acknowledgementKey := key)] else s.alerts)
            && (reply.Ok? ==> reply.value == after.alerts[i])
            && after.events == if first then s.events + [EventOf(i, after.alerts[i], Acknowledged)] else s.events
  {
    RequiredIsPresent(actor, 120);
    hide Required, FindByKey;
  }

  // ---------------------------------------------------------------- the entity and the service

  class DeliveryAlert {
    var row: Alert

    constructor (row: Alert)
      ensures this.row == row
    {
      this.row := row;
    }

    method Observe(severity: Severity, value: Measure) returns (escalated: bool)
      modifies this
      ensures escalated == Escalates(old(row), severity) && row == Observed(old(row), severity, value)
    {
      escalated := severity.CRITICAL? && row.severity.WARNING?;
      if escalated { row := row.(severity := severity); }
      row := row.(observed := value, occurrences := row.occurrences + 1);
    }

    method Resolve(value: Measure)
      modifies this
      ensures row == old(row).(status := RESOLVED, observed := value)
    {
      row := row.(status := RESOLVED);
      row := row.(observed := value);
    }

    /** Ok(true) when this call acknowledged the alert, Ok(false) when an earlier one had. */
    method AcknowledgeBy(actor: string, key: Option<string>) returns (r: Result<bool>)
      modifies this
      ensures r.Ok? <==> old(row).status == ACTIVE
      ensures r.Ok? ==> (r.value <==> old(row).acknowledgedBy.None?)
      ensures row == if r == Ok(true) then old(row).(acknowledgedBy := Some(actor), acknowledgementKey := key) else old(row)
    {
      if row.status != ACTIVE { return Refused; }
      if row.acknowledgedBy.Some? { return Ok(false); }
      row := row.(acknowledgedBy := Some(actor));
      row := row.(acknowledgementKey := key);
      r := Ok(true);
    }

    method BindAcknowledgementKey(actor: string, key: string) returns (r: Result<()>)
      modifies this
      ensures r.Ok? <==> old(row).acknowledgedBy == Some(actor) && old(row).acknowledgementKey.None?
      ensures row == if r.Ok? then old(row).(acknowledgementKey := Some(key)) else old(row)
    {
      if row.acknowledgedBy.None? || row.acknowledgementKey.Some? || row.acknowledgedBy.value != actor { return Refused; }
      row := row.(acknowledgementKey := Some(key));
      r := Ok(());
    }
  }

  class AlertService {
    var alerts: seq<Alert>
    var events: seq<Event>

    ghost function State(): System
      reads this
    {
      System(alerts, events)
    }

    constructor ()
      ensures State() == EMPTY
    {
      alerts, events := [], [];
    }

    method ReconcileAlert(delivery: int, kind: Kind, value: Measure, open: bool, close: bool, severity: Severity)
      modifies this
      ensures State() == Reconcile(old(State()), delivery, kind, value, open, close, severity)
    {
      var active := FindActive(alerts, delivery, kind);
      if active.None? {
        if open {
          var created := Alert(delivery, kind, severity, ACTIVE, value, 1, None, None);
          events := events + [EventOf(|alerts|, created, Opened)];
          alerts := alerts + [created];
        }
        return;
      }
      var alert := new DeliveryAlert(alerts[active.value]);
      if close {
        alert.Resolve(value);
        alerts := alerts[active.value := alert.row];
        events := events + [EventOf(active.value, alert.row, Resolved)];
      } else if open {
        var escalated := alert.Observe(severity, value);
        alerts := alerts[active.value := alert.row];
        if escalated { events := events + [EventOf(active.value, alert.row, Escalated)]; }
      }
    }

    /** evaluate, for a delivery with a planned route. */
    method EvaluateDelivery(seen: Seen, p: AlertPolicies.Thresholds)
      modifies this
      ensures State() == Apply(old(State()), Evaluate(seen, p))
    {
      var value := MeasureOf(seen.deviation);
      ReconcileAlert(seen.delivery, ROUTE_DEVIATION, value, AtLeast(value, p.deviationOpen), AtMost(value, p.deviationClose),
                     if AtLeast(value, p.deviationCritical) then CRITICAL else WARNING);
      ReconcileAlert(seen.delivery, DELAY, Measure(if seen.late > 0 then seen.late as real else 0.0),
                     seen.delayed || seen.late >= p.delayOpen, !seen.delayed && seen.late <= p.delayClose,
                     if seen.late >= p.delayCritical then CRITICAL else WARNING);
    }

    method AcknowledgeDelivery(i: nat, actor: Option<string>, key: Option<string>) returns (r: Result<Alert>)
      modifies this
      ensures (State(), r) == AcknowledgeAlert(old(State()), i, actor, key)
    {
      if !Required(actor, 120) { return Refused; }
      if key.Some? {
        if !Required(key, 160) { return Refused; }
        var prior := FindByKey(alerts, key.value);
        if prior.Some? {
          return if prior.value == i && alerts[i].acknowledgedBy == actor then Ok(alerts[i]) else Refused;
        }
      }
      if i >= |alerts| { return Refused; }
      var alert := new DeliveryAlert(alerts[i]);
      if key.Some? && alert.row.acknowledgedBy.Some? {
        var bound := alert.BindAcknowledgementKey(actor.value, key.value);
        if bound.Refused? { return Refused; }
        alerts := alerts[i := alert.row];
        return Ok(alert.row);
      }
      var acknowledged := alert.AcknowledgeBy(actor.value, key);
      if acknowledged.Refused? { return Refused; }
      if acknowledged.value {
        alerts := alerts[i := alert.row];
        events := events + [EventOf(i, alert.row, Acknowledged)];
      }
      r := Ok(alert.row);
    }
  }
}
