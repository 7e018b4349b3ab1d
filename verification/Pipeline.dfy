/**
 * The telemetry pipeline end to end: simulator runs of one delivery, the append-only
 * telemetry log, and the API consumer (simulator/logitrack_sim/main.py, simulate;
 * api/.../event/TelemetryConsumer.java). Runs may be duplicated, interleaved, lost and
 * restarted; the consumer's position may rewind; other traffic shares log and tables.
 */
module Pipeline {
  import opened Common
  import opened Deliveries
  import opened Steps
  import opened TelemetryConsumption
  import Orders

  datatype Config = Config(
    delivery: int,
    created: int,                     // event id of delivery.created
    vehicle: string,
    plan: Plan,
    route: seq<(Num, Num)>,           // latitude and longitude of each step
    resume: bool,                     // SIMULATION_RESUME_FROM_API
    skew: nat)                        // the consumer's tolerated future skew

  predicate ValidConfig(c: Config) {
    && ValidPlan(c.plan) && |c.route| == c.plan.steps
    && forall i :: 0 <= i < |c.route| ==> Within(c.route[i].0, -90.0, 90.0) && Within(c.route[i].1, -180.0, 180.0)
  }

  /** One execution of simulate(): the steps left, and a stamped envelope not yet appended. */
  datatype SimRun = SimRun(pending: seq<nat>, stamped: Option<Envelope>)

  datatype System = System(
    api: Api,
    log: seq<Envelope>,
    read: nat,                // the consumer's next position
    high: nat,                // the furthest position it has ever reached
    runs: map<int, SimRun>,
    strays: set<Envelope>,    // sent by runs that died before the broker's answer
    clock: int,
    applied: seq<Envelope>,   // this delivery's applied telemetry, in order
    rejected: nat)            // this delivery's rejected telemetry

  datatype Step =
    | StartRun(run: int)
    | Stamp(run: int, pause: nat)
    | Append(run: int)
    | LoseRun(run: int)
    | CrashSimulator
    | AppendStray(stray: Envelope)
    | AppendOther(other: Envelope)
    | Command(command: Orders.Step)
    | ConsumeNext(pause: nat)
    | Rewind(to: nat)

  predicate Own(c: Config, e: Envelope) {
    e.id.StepEvent? && e.id.created == c.created
  }

  function StepStatus(c: Config, k: nat): Status {
    if k == c.plan.steps then DELIVERED else IN_TRANSIT
  }

  /** The telemetry simulate() builds for step k at time t. */
  function StepEnvelope(c: Config, k: nat, t: int): Envelope
    requires ValidConfig(c) && 1 <= k <= c.plan.steps
  {
    Envelope(StepEvent(c.created, k), true, c.delivery, Some(c.vehicle),
             Reading(c.route[k - 1].0, c.route[k - 1].1, Finite(Progress(c.plan, k)), Some(StepStatus(c, k)), Some(t)))
  }

  function StampedOf(runs: map<int, SimRun>): set<Envelope> {
    set r | r in runs && runs[r].stamped.Some? :: runs[r].stamped.value
  }

  /** The consumer handles the record at its position at time `now`. */
  ghost function Consumed(c: Config, s: System, now: int): System
    requires s.read < |s.log|
  {
    var e := s.log[s.read];
    var (api, verdict) := Consume(s.api, e, now, c.skew);
    s.(api := api, clock := now, read := s.read + 1,
       high := if s.read + 1 > s.high then s.read + 1 else s.high,
       applied := if Own(c, e) && verdict == Judged(Applied) then s.applied + [e] else s.applied,
       rejected := if Own(c, e) && verdict.Judged? && verdict.outcome != Applied then s.rejected + 1 else s.rejected)
  }

  ghost function Apply(c: Config, s: System, step: Step): System
    requires ValidConfig(c)
  {
    match step
    case StartRun(r) =>
      if r in s.runs || c.delivery !in s.api.db.deliveries then s
      else
        var row := s.api.db.deliveries[c.delivery];
        if c.resume && row.status == DELIVERED then s
        else s.(runs := s.runs[r := SimRun(PendingSteps(c.plan, if c.resume then row.progress else 0.0), None)])
    case Stamp(r, pause) =>
      if r !in s.runs || s.runs[r].stamped.Some? || s.runs[r].pending == [] then s
      else
        var t, k := s.clock + 1 + pause, s.runs[r].pending[0];
        if 1 <= k <= c.plan.steps
        then s.(clock := t, runs := s.runs[r := s.runs[r].(stamped := Some(StepEnvelope(c, k, t)))])
        else s
    case Append(r) =>
      if r !in s.runs || s.runs[r].stamped.None? || s.runs[r].pending == [] then s
      else s.(log := s.log + [s.runs[r].stamped.value], runs := s.runs[r := SimRun(s.runs[r].pending[1..], None)])
    case LoseRun(r) =>
      if r !in s.runs then s
      else
        s.(runs := s.runs - {r},
           strays := s.strays + if s.runs[r].stamped.Some? then {s.runs[r].stamped.value} else {})
    case CrashSimulator =>
      s.(runs := map[], strays := s.strays + StampedOf(s.runs))
    case AppendStray(e) =>
      if e in s.strays then s.(log := s.log + [e], strays := s.strays - {e}) else s
    case AppendOther(e) =>
      if Own(c, e) || e.delivery == c.delivery then s else s.(log := s.log + [e])
    case Command(command) =>
      if command.DoTelemetry? then s else s.(api := s.api.(db := Orders.Apply(s.api.db, command)))
    case ConsumeNext(pause) => if s.read < |s.log| then Consumed(c, s, s.clock + 1 + pause) else s
    case Rewind(to) => if to <= s.read then s.(read := to) else s
  }

  ghost function Run(c: Config, s: System, steps: seq<Step>): System
    requires ValidConfig(c)
  {
    if steps == [] then s else Apply(c, Run(c, s, steps[..|steps| - 1]), steps[|steps| - 1])
  }

  /** Any reachable tables that hold this delivery, freshly created; nothing sent yet. */
  ghost predicate Initial(c: Config, s: System) {
    && ValidConfig(c) && TelemetryConsumption.Inv(s.api)
    && c.delivery in s.api.db.deliveries
    && s.api.db.deliveries[c.delivery].status == CREATED
    && s.api.db.deliveries[c.delivery].request.vehicle == c.vehicle
    && (forall k: nat :: StepEvent(c.created, k) !in s.api.processed)
    && s.log == [] && s.read == s.high == 0 && s.runs == map[] && s.strays == {}
    && s.applied == [] && s.rejected == 0
  }

  function SamplePlace(): Place { Place("depot", Finite(37.5), Finite(127.0)) }

  function SampleRequest(): DeliveryRequest { DeliveryRequest("O-1", "V-1", SamplePlace(), SamplePlace()) }

  /** The results below are not about nothing: one creation command leads to an initial state. */
  lemma InitialIsPossible() returns (c: Config, s: System)
    ensures Initial(c, s)
  {
    var db := Orders.CreateDelivery(Orders.EMPTY, 1, SampleRequest(), Some("key"), None).0;
    SampleIsValid();
    Orders.CreateDeliveryKeepsInv(Orders.EMPTY, 1, SampleRequest(), Some("key"));
    c := Config(1, 7, "V-1", Plan(2, {}), [(Finite(0.0), Finite(0.0)), (Finite(1.0), Finite(1.0))], true, 300);
    s := System(Api(db, {}, []), [], 0, 0, map[], {}, 0, [], 0);
    hide Orders.Inv, Required;
  }

  lemma SampleIsValid()
    ensures ValidDelivery(SampleRequest()) && Required(Some("key"), 160)
  {
    assert "key"[0] > ' ' && "O-1"[0] > ' ' && "V-1"[0] > ' ' && "depot"[0] > ' ';
  }

  // ---------------------------------------------------------------- what the log says

  /** Times of the first occurrences of steps 1, 2, 3, ... in the log, as far as they go. */
  function Firsts(c: Config, log: seq<Envelope>): seq<int> {
    if log == [] then []
    else
      var before, e := Firsts(c, log[..|log| - 1]), log[|log| - 1];
      if Own(c, e) && e.id.step == |before| + 1 && e.reading.occurredAt.Some?
      then before + [e.reading.occurredAt.value] else before
  }

  /** An envelope of ours that may enter the log now: its predecessor is there, with an earlier stamp. */
  ghost predicate Admissible(c: Config, firsts: seq<int>, e: Envelope, clock: int)
    requires ValidConfig(c)
  {
    && e.id.StepEvent? && 1 <= e.id.step <= c.plan.steps && e.id.step <= |firsts| + 1
    && e.reading.occurredAt.Some? && e.reading.occurredAt.value <= clock
    && e == StepEnvelope(c, e.id.step, e.reading.occurredAt.value)
    && (e.id.step > 1 ==> firsts[e.id.step - 2] < e.reading.occurredAt.value)
  }

  /** Every log entry is ours and was admissible when appended, or is not about this delivery. */
  ghost predicate LogOk(c: Config, log: seq<Envelope>, clock: int)
    requires ValidConfig(c)
  {
    log != [] ==>
      && LogOk(c, log[..|log| - 1], clock)
      && (var e := log[|log| - 1];
          if Own(c, e) then Admissible(c, Firsts(c, log[..|log| - 1]), e, clock) else e.delivery != c.delivery)
  }

  /** First occurrences come in step order with increasing stamps, none later than the clock. */
  lemma {:induction false} FirstsIncrease(c: Config, log: seq<Envelope>, clock: int)
    requires ValidConfig(c) && LogOk(c, log, clock)
    ensures Increasing(Firsts(c, log)) && |Firsts(c, log)| <= c.plan.steps
    ensures Firsts(c, log) != [] ==> Firsts(c, log)[|Firsts(c, log)| - 1] <= clock
  {
    if log != [] {
      FirstsIncrease(c, log[..|log| - 1], clock);
      var before := Firsts(c, log[..|log| - 1]);
      assert Firsts(c, log) == before || Firsts(c, log)[..|Firsts(c, log)| - 1] == before;
    }
  }

  /** Appending only extends what is known of the first occurrences. */
  lemma {:induction false} FirstsOfPrefix(c: Config, log: seq<Envelope>, n: nat)
    requires n <= |log|
    ensures Firsts(c, log[..n]) <= Firsts(c, log)
  {
    if n == |log| {
      assert log[..n] == log;
    } else {
      FirstsOfPrefix(c, log[..|log| - 1], n);
      assert log[..|log| - 1][..n] == log[..n];
    }
  }

  /** An entry of ours at position n repeats a step already seen, or is the next one. */
  lemma {:induction false} EntryAdmissible(c: Config, log: seq<Envelope>, n: nat, clock: int)
    requires ValidConfig(c) && LogOk(c, log, clock) && n < |log|
    ensures if Own(c, log[n]) then Admissible(c, Firsts(c, log[..n]), log[n], clock) else log[n].delivery != c.delivery
  {
    if n < |log| - 1 {
      EntryAdmissible(c, log[..|log| - 1], n, clock);
      assert log[..|log| - 1][..n] == log[..n];
    }
  }

  lemma {:induction false} LogOkLater(c: Config, log: seq<Envelope>, clock: int, later: int)
    requires ValidConfig(c) && LogOk(c, log, clock) && clock <= later
    ensures LogOk(c, log, later)
  {
    if log != [] { LogOkLater(c, log[..|log| - 1], clock, later); }
  }

  // ---------------------------------------------------------------- the invariant

  /** The stored delivery is where m steps of the plan leave it. */
  ghost predicate RowAt(c: Config, row: DeliveryRow, m: nat, times: seq<int>)
    requires ValidConfig(c) && m <= c.plan.steps && m <= |times|
  {
    && row.request.vehicle == c.vehicle
    && (m == 0 ==> row.status == CREATED && row.progress == 0.0 && row.lastTelemetryAt == None)
    && (m > 0 ==>
          && (row.lat, row.lon) == c.route[m - 1]
          && row.progress == Progress(c.plan, m) && row.status == StepStatus(c, m)
          && row.lastTelemetryAt == Some(times[m - 1]))
  }

  /** What has been consumed so far: exactly the first occurrences, each applied once. */
  ghost predicate ConsumedOk(c: Config, s: System)
    requires ValidConfig(c)
  {
    && s.read <= s.high <= |s.log| && s.rejected == 0
    && var f := Firsts(c, s.log[..s.high]);
    && |s.applied| == |f| <= c.plan.steps
    && (forall i :: 0 <= i < |f| ==> s.applied[i] == StepEnvelope(c, i + 1, f[i]))
    && (forall k: nat :: StepEvent(c.created, k) in s.api.processed <==> 1 <= k <= |f|)
    && c.delivery in s.api.db.deliveries && RowAt(c, s.api.db.deliveries[c.delivery], |f|, f)
  }

  /** A run has published everything before its pending steps, which go to the end of the plan. */
  ghost predicate RunOk(c: Config, r: SimRun, firsts: seq<int>, clock: int)
    requires ValidConfig(c)
  {
    && |r.pending| <= c.plan.steps <= |firsts| + |r.pending|
    && r.pending == Range(c.plan.steps - |r.pending| + 1, c.plan.steps)
    && (r.stamped.Some? ==>
          r.pending != [] && Admissible(c, firsts, r.stamped.value, clock) && r.stamped.value.id.step == r.pending[0])
  }

  ghost predicate SendersOk(c: Config, s: System)
    requires ValidConfig(c)
  {
    && (forall r :: r in s.runs ==> RunOk(c, s.runs[r], Firsts(c, s.log), s.clock))
    && (forall e :: e in s.strays ==> Admissible(c, Firsts(c, s.log), e, s.clock))
  }

  ghost predicate Inv(c: Config, s: System) {
    && ValidConfig(c) && TelemetryConsumption.Inv(s.api)
    && LogOk(c, s.log, s.clock) && SendersOk(c, s) && ConsumedOk(c, s)
  }

  lemma AdmissibleLater(c: Config, firsts: seq<int>, more: seq<int>, e: Envelope, clock: int, later: int)
    requires ValidConfig(c) && Admissible(c, firsts, e, clock) && firsts <= more && clock <= later
    ensures Admissible(c, more, e, later)
  {
  }

  /** Time passing and the log growing hurt no sender. */
  lemma SendersOkLater(c: Config, s: System, s': System)
    requires ValidConfig(c) && SendersOk(c, s)
    requires s'.runs == s.runs && s'.strays == s.strays
    requires Firsts(c, s.log) <= Firsts(c, s'.log) && s.clock <= s'.clock
    ensures SendersOk(c, s')
  {
    var f, f' := Firsts(c, s.log), Firsts(c, s'.log);
    hide Firsts, Admissible;
    forall r | r in s.runs && s.runs[r].stamped.Some? ensures Admissible(c, f', s.runs[r].stamped.value, s'.clock) {
      AdmissibleLater(c, f, f', s.runs[r].stamped.value, s.clock, s'.clock);
    }
    forall e | e in s.strays ensures Admissible(c, f', e, s'.clock) {
      AdmissibleLater(c, f, f', e, s.clock, s'.clock);
    }
  }

  /** Appending an admissible envelope of ours: the log stays in order, and its step is now published. */
  lemma AppendOwn(c: Config, log: seq<Envelope>, e: Envelope, clock: int)
    requires ValidConfig(c) && LogOk(c, log, clock)
    requires Own(c, e) && Admissible(c, Firsts(c, log), e, clock)
    ensures LogOk(c, log + [e], clock)
    ensures Firsts(c, log) <= Firsts(c, log + [e]) && e.id.step <= |Firsts(c, log + [e])|
  {
    assert (log + [e])[..|log|] == log;
  }

  lemma AppendForeign(c: Config, log: seq<Envelope>, e: Envelope, clock: int)
    requires ValidConfig(c) && LogOk(c, log, clock) && !Own(c, e) && e.delivery != c.delivery
    ensures LogOk(c, log + [e], clock) && Firsts(c, log + [e]) == Firsts(c, log)
  {
    assert (log + [e])[..|log|] == log;
  }

  /** The consumed prefix of the log is untouched by appends. */
  lemma ConsumedOkAppend(c: Config, s: System, s': System)
    requires ValidConfig(c) && ConsumedOk(c, s)
    requires s.log <= s'.log && (s'.api, s'.read, s'.high) == (s.api, s.read, s.high)
    requires (s'.applied, s'.rejected) == (s.applied, s.rejected)
    ensures ConsumedOk(c, s')
  {
    assert s'.log[..s'.high] == s.log[..s.high];
  }

  /** The steps a new run starts with begin right after some step that is already published. */
  lemma FreshRunOk(c: Config, progress: real, m: nat, firsts: seq<int>, clock: int)
    requires ValidConfig(c) && m <= |firsts| && m <= c.plan.steps && progress == Progress(c.plan, m)
    ensures RunOk(c, SimRun(PendingSteps(c.plan, progress), None), firsts, clock)
  {
    ResumeContinues(c.plan, m);
    hide PendingSteps, Progress, Admissible;
    assert c.plan.steps - (c.plan.steps - m) == m;
  }

  lemma StartRunKeepsInv(c: Config, s: System, r: int)
    requires Inv(c, s)
    ensures Inv(c, Apply(c, s, StartRun(r)))
  {
    RoundEndpoints(c.plan);
    FirstsOfPrefix(c, s.log, s.high);
    hide Firsts, LogOk, RunOk, PendingSteps, Round4, TelemetryConsumption.Inv;
    FreshRunOk(c, Progress(c.plan, |s.applied|), |s.applied|, Firsts(c, s.log), s.clock);
    FreshRunOk(c, 0.0, 0, Firsts(c, s.log), s.clock);
    hide Progress, Admissible, StepEnvelope;
  }

  lemma StampKeepsInv(c: Config, s: System, r: int, pause: nat)
    requires Inv(c, s)
    ensures Inv(c, Apply(c, s, Stamp(r, pause)))
  {
    hide Admissible, TelemetryConsumption.Inv, ConsumedOk, StepEnvelope;
    var s' := Apply(c, s, Stamp(r, pause));
    ConsumedOkAppend(c, s, s');
    if s' != s {
      FirstsIncrease(c, s.log, s.clock);
      LogOkLater(c, s.log, s.clock, s'.clock);
      hide Firsts, LogOk;
      SendersOkLater(c, s, s'.(runs := s.runs));
      StampedRunOk(c, s.runs[r], Firsts(c, s.log), s.clock, s'.clock);
      hide RunOk, Increasing;
    }
  }

  lemma StampedRunOk(c: Config, r: SimRun, firsts: seq<int>, clock: int, t: int)
    requires ValidConfig(c) && RunOk(c, r, firsts, clock) && r.stamped.None? && r.pending != [] && 1 <= r.pending[0] <= c.plan.steps
    requires Increasing(firsts) && clock < t && (firsts != [] ==> firsts[|firsts| - 1] <= clock)
    ensures RunOk(c, r.(stamped := Some(StepEnvelope(c, r.pending[0], t))), firsts, t)
  {
    StampAdmissible(c, firsts, r.pending[0], clock, t);
    hide Admissible, Increasing;
  }

  /** A fresh stamp is later than every earlier step's first occurrence. */
  lemma StampAdmissible(c: Config, firsts: seq<int>, k: nat, clock: int, t: int)
    requires ValidConfig(c) && Increasing(firsts) && 1 <= k <= c.plan.steps && k <= |firsts| + 1 && clock < t
    requires firsts != [] ==> firsts[|firsts| - 1] <= clock
    ensures Admissible(c, firsts, StepEnvelope(c, k, t), t)
  {
    if 1 < k < |firsts| + 1 { IncreasingAt(firsts, k - 2, |firsts| - 1); }
  }

  lemma AppendKeepsInv(c: Config, s: System, r: int)
    requires Inv(c, s)
    ensures Inv(c, Apply(c, s, Append(r)))
  {
    if Apply(c, s, Append(r)) != s { AppendedKeepsInv(c, s, r); }
    hide Inv;
  }

  /** The run whose envelope was appended goes on with the rest of its steps. */
  lemma AppendedRunOk(c: Config, run: SimRun, firsts: seq<int>, more: seq<int>, clock: int)
    requires ValidConfig(c) && RunOk(c, run, firsts, clock) && run.pending != []
    requires firsts <= more && run.pending[0] <= |more|
    ensures RunOk(c, SimRun(run.pending[1..], None), more, clock)
  {
    var n := c.plan.steps - |run.pending|;
    assert Range(n + 1, c.plan.steps)[1..] == Range(n + 2, c.plan.steps);
    hide Admissible, ValidConfig;
  }

  lemma AppendedKeepsInv(c: Config, s: System, r: int)
    requires Inv(c, s) && r in s.runs && s.runs[r].stamped.Some? && s.runs[r].pending != []
    ensures Inv(c, s.(log := s.log + [s.runs[r].stamped.value], runs := s.runs[r := SimRun(s.runs[r].pending[1..], None)]))
  {
    var run := s.runs[r];
    var e := run.stamped.value;
    var s' := s.(log := s.log + [e], runs := s.runs[r := SimRun(run.pending[1..], None)]);
    AppendOwn(c, s.log, e, s.clock);
    hide Firsts, LogOk, Admissible, TelemetryConsumption.Inv, ConsumedOk, ValidConfig;
    ConsumedOkAppend(c, s, s');
    SendersOkLater(c, s, s'.(runs := s.runs));
    AppendedRunOk(c, run, Firsts(c, s.log), Firsts(c, s'.log), s.clock);
    hide RunOk;
  }

  lemma LoseKeepsInv(c: Config, s: System, r: int)
    requires Inv(c, s)
    ensures Inv(c, Apply(c, s, LoseRun(r)))
    ensures Inv(c, Apply(c, s, CrashSimulator))
  {
    ConsumedOkAppend(c, s, Apply(c, s, LoseRun(r)));
    ConsumedOkAppend(c, s, Apply(c, s, CrashSimulator));
    hide Firsts, LogOk, Admissible, TelemetryConsumption.Inv, ConsumedOk;
  }

  lemma StrayKeepsInv(c: Config, s: System, e: Envelope)
    requires Inv(c, s)
    ensures Inv(c, Apply(c, s, AppendStray(e)))
  {
    var t := Apply(c, s, AppendStray(e));
    if t != s {
      assert Own(c, e);
      AppendOwn(c, s.log, e, s.clock);
      ConsumedOkAppend(c, s, t);
      SendersOkLater(c, s, t.(strays := s.strays));
      hide Firsts, LogOk, Admissible, TelemetryConsumption.Inv, ConsumedOk;
    }
  }

  lemma OtherKeepsInv(c: Config, s: System, e: Envelope)
    requires Inv(c, s)
    ensures Inv(c, Apply(c, s, AppendOther(e)))
  {
    var u := Apply(c, s, AppendOther(e));
    if u != s {
      AppendForeign(c, s.log, e, s.clock);
      ConsumedOkAppend(c, s, u);
      SendersOkLater(c, s, u);
      hide Firsts, LogOk, Admissible, TelemetryConsumption.Inv, ConsumedOk;
    }
  }

  /** Commands keep the tables coupled and do not touch an existing delivery. */
  lemma CommandKeepsRow(db: Orders.Db, command: Orders.Step, d: int)
    requires Orders.Inv(db) && d in db.deliveries && !command.DoTelemetry?
    ensures var db' := Orders.Apply(db, command);
            Orders.Inv(db') && d in db'.deliveries && db'.deliveries[d] == db.deliveries[d]
  {
    Orders.StepKeepsInv(db, command);
    hide Orders.Inv, Orders.DeliveryOf, Required, ValidDelivery, Orders.ValidOrder, Orders.DeliveryByKey, Orders.OrderByKey, Orders.OrderByDispatchKey,
      Orders.NumberTaken, Created, Orders.DispatchRequest, Orders.FulfillFromDelivery, ApplyTelemetry;
  }

  lemma CommandKeepsInv(c: Config, s: System, command: Orders.Step)
    requires Inv(c, s)
    ensures Inv(c, Apply(c, s, Command(command)))
  {
    if !command.DoTelemetry? {
      CommandKeepsRow(s.api.db, command, c.delivery);
      hide Firsts, LogOk, Admissible, Orders.Inv, Orders.Apply, RowAt;
    }
  }

  lemma RewindKeepsInv(c: Config, s: System, to: nat)
    requires Inv(c, s)
    ensures Inv(c, Apply(c, s, Rewind(to)))
  {
    hide Firsts, LogOk, Admissible, TelemetryConsumption.Inv, RowAt;
  }

  // ---------------------------------------------------------------- consuming

  /** Consuming an entry of ours: a step already seen is a duplicate, the next step is applied. */
  lemma {:induction false} ConsumeOwn(c: Config, api: Api, e: Envelope, now: int, m: nat, times: seq<int>)
    requires ValidConfig(c) && TelemetryConsumption.Inv(api)
    requires c.delivery in api.db.deliveries && m == |times| <= c.plan.steps
    requires RowAt(c, api.db.deliveries[c.delivery], m, times)
    requires forall k: nat :: StepEvent(c.created, k) in api.processed <==> 1 <= k <= m
    requires Own(c, e) && Admissible(c, times, e, now)
    ensures var (api', verdict) := Consume(api, e, now, c.skew);
            var k := e.id.step;
            if k <= m then api' == api && verdict == Duplicate
            else
              && verdict == Judged(Applied) && k == m + 1 && api'.processed == api.processed + {e.id}
              && c.delivery in api'.db.deliveries
              && RowAt(c, api'.db.deliveries[c.delivery], k, times + [e.reading.occurredAt.value])
  {
    if e.id.step > m {
      var row := api.db.deliveries[c.delivery];
      NextStepApplies(c, row, e, m, times);
      Orders.TelemetryKeepsInv(api.db, c.delivery, e.reading);
      TelemetryStores(api.db, c.delivery, e.reading);
      hide Orders.Inv, Orders.Telemetry, ApplyTelemetry, RowAt, Admissible, Progress;
    }
  }

  lemma TelemetryStores(db: Orders.Db, d: int, r: Reading)
    requires d in db.deliveries && Orders.Telemetry(db, d, r).1 == Applied
    ensures d in Orders.Telemetry(db, d, r).0.deliveries
    ensures Orders.Telemetry(db, d, r).0.deliveries[d] == ApplyTelemetry(db.deliveries[d], r).0
  {
    hide ApplyTelemetry;
  }

  /** The next step's reading passes every guard of applyTelemetry. */
  lemma NextStepApplies(c: Config, row: DeliveryRow, e: Envelope, m: nat, times: seq<int>)
    requires ValidConfig(c) && m == |times| && m < c.plan.steps && RowAt(c, row, m, times)
    requires e.id.StepEvent? && e.id.step == m + 1 && e.reading.occurredAt.Some?
    requires e == StepEnvelope(c, m + 1, e.reading.occurredAt.value)
    requires m > 0 ==> times[m - 1] < e.reading.occurredAt.value
    ensures var (row', outcome) := ApplyTelemetry(row, e.reading);
            outcome == Applied && RowAt(c, row', m + 1, times + [e.reading.occurredAt.value])
  {
    ProgressEndpoints(c.plan, m + 1);
    RoundIncreases(c.plan, m, m + 1);
    RoundEndpoints(c.plan);
    hide Round4;
  }

  /** Consuming anything else leaves this delivery alone. */
  lemma ConsumeForeign(c: Config, api: Api, e: Envelope, now: int)
    requires TelemetryConsumption.Inv(api) && c.delivery in api.db.deliveries
    requires !Own(c, e) && e.delivery != c.delivery
    ensures var (api', _) := Consume(api, e, now, c.skew);
            && c.delivery in api'.db.deliveries
            && api'.db.deliveries[c.delivery] == api.db.deliveries[c.delivery]
            && forall k: nat :: StepEvent(c.created, k) in api'.processed <==> StepEvent(c.created, k) in api.processed
  {
    hide Orders.Inv, ApplyTelemetry;
  }

  /** Reading one entry further: its step is among the first occurrences from then on. */
  lemma FirstsNext(c: Config, log: seq<Envelope>, n: nat, clock: int)
    requires ValidConfig(c) && LogOk(c, log, clock) && n < |log|
    ensures var f, e := Firsts(c, log[..n]), log[n];
            Firsts(c, log[..n + 1])
            == if Own(c, e) && e.id.step == |f| + 1 && e.reading.occurredAt.Some?
               then f + [e.reading.occurredAt.value] else f
    ensures Own(c, log[n]) ==> log[n].id.step <= |Firsts(c, log[..n + 1])|
  {
    EntryAdmissible(c, log, n, clock);
    assert log[..n + 1][..n] == log[..n];
  }

  lemma FirstsBetween(c: Config, log: seq<Envelope>, i: nat, j: nat)
    requires i <= j <= |log|
    ensures Firsts(c, log[..i]) <= Firsts(c, log[..j])
  {
    FirstsOfPrefix(c, log[..j], i);
    assert log[..j][..i] == log[..i];
  }

  lemma ConsumedFrame(c: Config, s: System, now: int)
    requires s.read < |s.log|
    ensures var s' := Consumed(c, s, now);
            && s'.log == s.log && s'.runs == s.runs && s'.strays == s.strays && s'.clock == now
            && s'.api == Consume(s.api, s.log[s.read], now, c.skew).0
  {
  }

  lemma InvParts(c: Config, s: System)
    ensures Inv(c, s) <==>
            ValidConfig(c) && TelemetryConsumption.Inv(s.api) && LogOk(c, s.log, s.clock) && SendersOk(c, s) && ConsumedOk(c, s)
  {
  }

  lemma ConsumedKeepsInv(c: Config, s: System, now: int)
    requires Inv(c, s) && s.read < |s.log| && s.clock < now
    ensures Inv(c, Consumed(c, s, now))
  {
    var s', e := Consumed(c, s, now), s.log[s.read];
    hide *;
    InvParts(c, s);
    ConsumedFrame(c, s, now);
    LogOkLater(c, s.log, s.clock, now);
    SendersOkLater(c, s, s');
    RedeliveryChangesNothing(s.api, e, now, now, c.skew);
    if Own(c, e) {
      ConsumeOwnKeeps(c, s, s', e, now);
    } else {
      ConsumeForeignKeeps(c, s, s', e, now);
    }
    InvParts(c, s');
  }

  lemma ConsumeKeepsInv(c: Config, s: System, pause: nat)
    requires Inv(c, s)
    ensures Inv(c, Apply(c, s, ConsumeNext(pause)))
  {
    hide Inv, Consumed;
    if s.read < |s.log| { ConsumedKeepsInv(c, s, s.clock + 1 + pause); }
  }

  lemma ConsumeForeignKeeps(c: Config, s: System, s': System, e: Envelope, now: int)
    requires Inv(c, s) && s.read < |s.log| && e == s.log[s.read] && !Own(c, e)
    requires s.clock < now && s' == Consumed(c, s, now)
    ensures ConsumedOk(c, s')
  {
    hide Firsts, LogOk, SendersOk, TelemetryConsumption.Inv, Own;
    EntryAdmissible(c, s.log, s.read, s.clock);
    FirstsNext(c, s.log, s.read, s.clock);
    ConsumeForeign(c, s.api, e, now);
    hide Admissible, Consume, RowAt;
  }

  lemma ConsumeOwnKeeps(c: Config, s: System, s': System, e: Envelope, now: int)
    requires Inv(c, s) && s.read < |s.log| && e == s.log[s.read] && Own(c, e)
    requires s.clock < now && s' == Consumed(c, s, now)
    ensures ConsumedOk(c, s')
  {
    hide Firsts, LogOk, SendersOk, TelemetryConsumption.Inv, Consume;
    OwnEntryNow(c, s, e, now);
    var f := Firsts(c, s.log[..s.high]);
    var (api', verdict) := Consume(s.api, e, now, c.skew);
    ConsumeOwn(c, s.api, e, now, |f|, f);
    hide Admissible, RowAt, StepEnvelope;
    if s.read < s.high {
      assert s'.log[..s'.high] == s.log[..s.high];
    } else if e.id.step <= |f| {
      assert Firsts(c, s'.log[..s'.high]) == f;
    } else {
      assert Firsts(c, s'.log[..s'.high]) == f + [e.reading.occurredAt.value];
    }
  }

  /** The entry about to be consumed is admissible against everything consumed so far. */
  lemma OwnEntryNow(c: Config, s: System, e: Envelope, now: int)
    requires Inv(c, s) && s.read < |s.log| && e == s.log[s.read] && Own(c, e) && s.clock < now
    ensures var f := Firsts(c, s.log[..s.high]);
            && Admissible(c, f, e, now) && |f| <= c.plan.steps
            && 1 <= e.id.step <= c.plan.steps && e.reading.occurredAt.Some?
            && e == StepEnvelope(c, e.id.step, e.reading.occurredAt.value)
            && (s.read < s.high ==> e.id.step <= |f|)
            && (s.read == s.high ==> Firsts(c, s.log[..s.high + 1])
                                     == if e.id.step == |f| + 1 then f + [e.reading.occurredAt.value] else f)
  {
    var f := Firsts(c, s.log[..s.high]);
    hide Firsts, LogOk, SendersOk, TelemetryConsumption.Inv, Admissible, RowAt, StepEnvelope, Inv, ConsumedOk, ValidConfig;
    InvReads(c, s);
    EntryAdmissible(c, s.log, s.read, s.clock);
    FirstsNext(c, s.log, s.read, s.clock);
    FirstsBetween(c, s.log, s.read, s.high);
    AdmissibleLater(c, Firsts(c, s.log[..s.read]), f, e, s.clock, now);
    AdmissibleHas(c, f, e, now);
    FirstsFit(c, s, now);
    if s.read < s.high { FirstsBetween(c, s.log, s.read + 1, s.high); }
  }

  lemma InvReads(c: Config, s: System)
    requires Inv(c, s)
    ensures ValidConfig(c) && LogOk(c, s.log, s.clock) && s.read <= s.high <= |s.log|
  {
    hide ValidConfig, Firsts;
  }

  lemma AdmissibleHas(c: Config, firsts: seq<int>, e: Envelope, clock: int)
    requires ValidConfig(c) && Admissible(c, firsts, e, clock)
    ensures e.id.StepEvent? && 1 <= e.id.step <= c.plan.steps && e.id.step <= |firsts| + 1
    ensures e.reading.occurredAt.Some? && e == StepEnvelope(c, e.id.step, e.reading.occurredAt.value)
  {
  }

  /** An entry of ours is for a step of the plan, so the first occurrences never outrun it. */
  lemma FirstsFit(c: Config, s: System, now: int)
    requires Inv(c, s)
    ensures forall n :: 0 <= n <= |s.log| ==> |Firsts(c, s.log[..n])| <= c.plan.steps
  {
    FirstsIncrease(c, s.log, s.clock);
    forall n | 0 <= n <= |s.log| ensures |Firsts(c, s.log[..n])| <= c.plan.steps {
      FirstsOfPrefix(c, s.log, n);
    }
  }

  lemma StepKeepsInv(c: Config, s: System, step: Step)
    requires Inv(c, s)
    ensures Inv(c, Apply(c, s, step))
  {
    match step
    case StartRun(r) => StartRunKeepsInv(c, s, r);
    case Stamp(r, pause) => StampKeepsInv(c, s, r, pause);
    case Append(r) => AppendKeepsInv(c, s, r);
    case LoseRun(r) => LoseKeepsInv(c, s, r);
    case CrashSimulator => LoseKeepsInv(c, s, 0);
    case AppendStray(e) => StrayKeepsInv(c, s, e);
    case AppendOther(e) => OtherKeepsInv(c, s, e);
    case Command(command) => CommandKeepsInv(c, s, command);
    case ConsumeNext(pause) => ConsumeKeepsInv(c, s, pause);
    case Rewind(to) => RewindKeepsInv(c, s, to);
  }

  lemma {:induction false} RunKeepsInv(c: Config, s: System, steps: seq<Step>)
    requires Initial(c, s)
    ensures Inv(c, Run(c, s, steps))
  {
    if steps == [] {
      InitialInv(c, s);
    } else {
      RunKeepsInv(c, s, steps[..|steps| - 1]);
      StepKeepsInv(c, Run(c, s, steps[..|steps| - 1]), steps[|steps| - 1]);
    }
  }

  lemma InitialInv(c: Config, s: System)
    requires Initial(c, s)
    ensures Inv(c, s)
  {
    assert RowOk(s.api.db.deliveries[c.delivery]);
  }

  // ---------------------------------------------------------------- main results

  /**
   * The applied telemetry is steps 1..m of the plan, in order, each once, with strictly
   * increasing times; none was rejected or stale, and the stored delivery is exactly where
   * step m puts it.
   */
  ghost predicate FollowsPlan(c: Config, s: System)
    requires ValidConfig(c)
  {
    var m := |s.applied|;
    && m <= c.plan.steps && s.rejected == 0
    && (forall i :: 0 <= i < m ==> s.applied[i].reading.occurredAt.Some?)
    && (forall i :: 0 <= i < m ==> s.applied[i] == StepEnvelope(c, i + 1, s.applied[i].reading.occurredAt.value))
    && (forall i, j :: 0 <= i < j < m ==>
          s.applied[i].reading.occurredAt.value < s.applied[j].reading.occurredAt.value)
    && c.delivery in s.api.db.deliveries
    && var row := s.api.db.deliveries[c.delivery];
    && row.progress == Progress(c.plan, m)
    && row.status == (if m == 0 then CREATED else StepStatus(c, m))
    && (m > 0 ==> (row.lat, row.lon) == c.route[m - 1])
  }

  /**
   * For every interleaving of duplicated, lost and restarted runs, late appends, consumer
   * rewinds, commands and other traffic.
   */
  lemma {:induction false} AppliedIsAPrefixOfThePlan(c: Config, s: System, steps: seq<Step>)
    requires Initial(c, s)
    ensures FollowsPlan(c, Run(c, s, steps))
  {
    RunKeepsInv(c, s, steps);
    InvFollowsPlan(c, Run(c, s, steps));
  }

  lemma InvFollowsPlan(c: Config, s: System)
    requires Inv(c, s)
    ensures FollowsPlan(c, s)
  {
    RoundEndpoints(c.plan);
    TimesIncrease(c, s);
    hide Firsts, LogOk, SendersOk, TelemetryConsumption.Inv, Round4;
  }

  lemma TimesIncrease(c: Config, s: System)
    requires Inv(c, s)
    ensures forall i, j :: 0 <= i < j < |s.applied| ==>
              Firsts(c, s.log[..s.high])[i] < Firsts(c, s.log[..s.high])[j]
  {
    PrefixLogOk(c, s.log, s.high, s.clock);
    FirstsIncrease(c, s.log[..s.high], s.clock);
    var f := Firsts(c, s.log[..s.high]);
    forall i, j | 0 <= i < j < |s.applied| ensures f[i] < f[j] { IncreasingAt(f, i, j); }
  }

  lemma {:induction false} PrefixLogOk(c: Config, log: seq<Envelope>, n: nat, clock: int)
    requires ValidConfig(c) && LogOk(c, log, clock) && n <= |log|
    ensures LogOk(c, log[..n], clock)
  {
    if n == |log| {
      assert log[..n] == log;
    } else {
      PrefixLogOk(c, log[..|log| - 1], n, clock);
      assert log[..|log| - 1][..n] == log[..n];
    }
  }

  /** Nothing is lost: once some run has published all its steps and the log is consumed, it is delivered. */
  lemma {:induction false} FinishedAndConsumedIsDelivered(c: Config, s: System, steps: seq<Step>, r: int)
    requires Initial(c, s)
    requires var later := Run(c, s, steps);
             r in later.runs && later.runs[r].pending == [] && later.read == |later.log|
    ensures var later := Run(c, s, steps);
            && |later.applied| == c.plan.steps
            && c.delivery in later.api.db.deliveries && later.api.db.deliveries[c.delivery].status == DELIVERED
            && (var order := later.api.db.deliveries[c.delivery].orderId;
                order.Some? ==> order.value in later.api.db.orders
                                && later.api.db.orders[order.value].status == Orders.FULFILLED)
  {
    RunKeepsInv(c, s, steps);
    var later := Run(c, s, steps);
    hide Run, Inv, Initial;
    FinishedRunHasPublished(c, later, r);
    AllPublishedIsDelivered(c, later);
  }

  /** Every step of the plan is in the log. */
  ghost predicate AllPublished(c: Config, s: System) {
    |Firsts(c, s.log)| >= c.plan.steps
  }

  lemma FinishedRunHasPublished(c: Config, s: System, r: int)
    requires Inv(c, s) && r in s.runs && s.runs[r].pending == []
    ensures AllPublished(c, s)
  {
    assert RunOk(c, s.runs[r], Firsts(c, s.log), s.clock);
  }

  /** A delivery is DELIVERED only by its last step, so whoever reads that status has nothing left to send. */
  lemma DeliveredHasPublished(c: Config, s: System)
    requires Inv(c, s) && s.api.db.deliveries[c.delivery].status == DELIVERED
    ensures AllPublished(c, s)
  {
    FirstsOfPrefix(c, s.log, s.high);
    hide Firsts, LogOk, SendersOk;
  }

  lemma AllPublishedIsDelivered(c: Config, s: System)
    requires Inv(c, s) && AllPublished(c, s) && s.read == |s.log|
    ensures |s.applied| == c.plan.steps
    ensures c.delivery in s.api.db.deliveries && s.api.db.deliveries[c.delivery].status == DELIVERED
    ensures var order := s.api.db.deliveries[c.delivery].orderId;
            order.Some? ==> order.value in s.api.db.orders && s.api.db.orders[order.value].status == Orders.FULFILLED
  {
    assert s.log[..s.high] == s.log;
    var row := s.api.db.deliveries[c.delivery];
    hide Firsts, LogOk, SendersOk;
    if row.orderId.Some? { Orders.LinkUnique(s.api.db.deliveries, row.orderId.value, c.delivery); }
  }

  /** The log only grows, so what is published stays published. */
  lemma StepKeepsAllPublished(c: Config, s: System, step: Step)
    requires Inv(c, s) && AllPublished(c, s)
    ensures AllPublished(c, Apply(c, s, step))
  {
    var later := Apply(c, s, step);
    assert s.log <= later.log by { hide Firsts, Consume, StepEnvelope, PendingSteps, Orders.Apply, Inv, AllPublished; }
    FirstsOfPrefix(c, later.log, |s.log|);
    assert later.log[..|s.log|] == s.log;
    hide Apply, Firsts, Inv;
  }

  /**
   * A run that resumes after m applied steps starts with exactly the steps after m, and does not
   * start at all once all are applied; one that does not resume starts with the whole plan.
   */
  lemma {:induction false} RunStartsWhereAppliedEnds(c: Config, s: System, steps: seq<Step>, r: int)
    requires Initial(c, s) && r !in Run(c, s, steps).runs
    ensures var later := Run(c, s, steps);
            var m := |later.applied|;
            && m <= c.plan.steps
            && Apply(c, later, StartRun(r)) ==
               if c.resume && m == c.plan.steps then later
               else later.(runs := later.runs[r := SimRun(Range(if c.resume then m + 1 else 1, c.plan.steps), None)])
  {
    RunKeepsInv(c, s, steps);
    var later := Run(c, s, steps);
    InvFollowsPlan(c, later);
    hide Run, Initial, Inv;
    RoundEndpoints(c.plan);
    ResumeContinues(c.plan, |later.applied|);
    ResumeContinues(c.plan, 0);
    hide PendingSteps, Range, Round4;
  }

  // ---------------------------------------------------------------- the crash-free run

  /** One run, nothing lost, each step consumed as soon as it is appended. */
  function CleanSchedule(m: nat): seq<Step> {
    if m == 0 then [StartRun(0)] else CleanSchedule(m - 1) + [Stamp(0, 0), Append(0), ConsumeNext(0)]
  }

  lemma AppendRuns(c: Config, s: System, before: seq<Step>, more: seq<Step>)
    requires ValidConfig(c)
    ensures Run(c, s, before + more) == Run(c, Run(c, s, before), more)
    decreases |more|
  {
    hide Apply;
    if more == [] {
      assert before + more == before;
    } else {
      var all := before + more;
      assert all[..|all| - 1] == before + more[..|more| - 1];
      AppendRuns(c, s, before, more[..|more| - 1]);
    }
  }

  lemma RunOne(c: Config, s: System, a: Step, b: Step, d: Step)
    requires ValidConfig(c)
    ensures Run(c, s, [a, b, d]) == Apply(c, Apply(c, Apply(c, s, a), b), d)
  {
    hide Apply;
    assert [a, b, d][..2] == [a, b] && [a, b][..1] == [a] && [a][..0] == [];
    assert Run(c, s, []) == s && Run(c, s, [a]) == Apply(c, s, a);
    assert Run(c, s, [a, b]) == Apply(c, Run(c, s, [a]), b);
  }

  /** Everything sent is consumed, m steps are applied, and run 0 has the rest of the plan to go. */
  ghost predicate CaughtUp(c: Config, s: System, m: nat) {
    && Inv(c, s) && |s.applied| == m <= c.plan.steps && s.read == s.high == |s.log|
    && s.runs == map[0 := SimRun(Range(m + 1, c.plan.steps), None)]
  }

  lemma CleanStart(c: Config, s: System)
    requires Initial(c, s)
    ensures CaughtUp(c, Run(c, s, [StartRun(0)]), 0)
  {
    assert [StartRun(0)][..0] == [];
    assert Run(c, s, []) == s;
    InitialInv(c, s);
    StartRunKeepsInv(c, s, 0);
    ResumeContinues(c.plan, 0);
    RoundEndpoints(c.plan);
    hide PendingSteps, Range, Round4, Inv;
  }

  /** After m steps of the crash-free schedule, exactly m steps are published and applied. */
  lemma {:induction false} CleanScheduleApplies(c: Config, s: System, m: nat)
    requires Initial(c, s) && m <= c.plan.steps
    ensures CaughtUp(c, Run(c, s, CleanSchedule(m)), m)
  {
    hide *;
    ValidWhenInitial(c, s);
    CleanScheduleNext(m);
    if m == 0 {
      CleanStart(c, s);
    } else {
      CleanScheduleApplies(c, s, m - 1);
      AppendRuns(c, s, CleanSchedule(m - 1), [Stamp(0, 0), Append(0), ConsumeNext(0)]);
      CleanStep(c, Run(c, s, CleanSchedule(m - 1)), m);
    }
  }

  lemma CleanScheduleNext(m: nat)
    ensures CleanSchedule(m) == if m == 0 then [StartRun(0)] else CleanSchedule(m - 1) + [Stamp(0, 0), Append(0), ConsumeNext(0)]
  {
  }

  lemma ValidWhenInitial(c: Config, s: System)
    requires Initial(c, s)
    ensures ValidConfig(c)
  {
  }

  lemma CleanStampAppend(c: Config, s: System, m: nat)
    requires 1 <= m && CaughtUp(c, s, m - 1) && m <= c.plan.steps
    ensures var e := StepEnvelope(c, m, s.clock + 1);
            Apply(c, Apply(c, s, Stamp(0, 0)), Append(0))
            == s.(clock := s.clock + 1, log := s.log + [e], runs := map[0 := SimRun(Range(m + 1, c.plan.steps), None)])
  {
    hide Inv;
    assert Range(m, c.plan.steps)[1..] == Range(m + 1, c.plan.steps);
  }

  /** Publishing and consuming one step from a caught-up state. */
  lemma CleanStep(c: Config, s: System, m: nat)
    requires 1 <= m && CaughtUp(c, s, m - 1) && m <= c.plan.steps
    ensures CaughtUp(c, Run(c, s, [Stamp(0, 0), Append(0), ConsumeNext(0)]), m)
  {
    RunOne(c, s, Stamp(0, 0), Append(0), ConsumeNext(0));
    CleanStampAppend(c, s, m);
    StampKeepsInv(c, s, 0, 0);
    AppendKeepsInv(c, Apply(c, s, Stamp(0, 0)), 0);
    hide Run;
    CleanConsume(c, Apply(c, Apply(c, s, Stamp(0, 0)), Append(0)), m);
  }

  lemma CleanConsume(c: Config, b: System, m: nat)
    requires Inv(c, b) && 1 <= m <= c.plan.steps && |b.applied| == m - 1 && b.read == b.high == |b.log| - 1
    requires b.log[b.read] == StepEnvelope(c, m, b.clock)
    requires b.runs == map[0 := SimRun(Range(m + 1, c.plan.steps), None)]
    ensures CaughtUp(c, Apply(c, b, ConsumeNext(0)), m)
  {
    ConsumeKeepsInv(c, b, 0);
    CleanConsumeApplies(c, b, m);
    hide Inv, Consume;
  }

  lemma CleanConsumeApplies(c: Config, b: System, m: nat)
    requires Inv(c, b) && 1 <= m <= c.plan.steps && |b.applied| == m - 1 && b.read == b.high == |b.log| - 1
    requires b.log[b.read] == StepEnvelope(c, m, b.clock)
    ensures Consume(b.api, b.log[b.read], b.clock + 1, c.skew).1 == Judged(Applied)
  {
    var e := b.log[b.read];
    hide Firsts, LogOk, SendersOk, TelemetryConsumption.Inv, Consume;
    OwnEntryNow(c, b, e, b.clock + 1);
    ConsumeOwn(c, b.api, e, b.clock + 1, m - 1, Firsts(c, b.log[..b.high]));
  }

  /** A step applies telemetry to the delivery, or leaves its row alone. */
  ghost predicate AppliesOrKeeps(c: Config, s: System, later: System) {
    && c.delivery in s.api.db.deliveries && c.delivery in later.api.db.deliveries && |s.applied| <= |later.applied|
    && (|later.applied| == |s.applied| ==> later.api.db.deliveries[c.delivery] == s.api.db.deliveries[c.delivery])
  }

  lemma ConsumedAppliesOrKeeps(c: Config, s: System, now: int)
    requires Inv(c, s) && s.read < |s.log| && s.clock < now
    ensures AppliesOrKeeps(c, s, Consumed(c, s, now))
  {
    var e, f := s.log[s.read], Firsts(c, s.log[..s.high]);
    EntryAdmissible(c, s.log, s.read, s.clock);
    if Own(c, e) { OwnEntryNow(c, s, e, now); }
    hide Firsts, LogOk, SendersOk, Consume, TelemetryConsumption.Inv, RowAt, Admissible;
    if Own(c, e) { ConsumeOwn(c, s.api, e, now, |f|, f); } else { ConsumeForeign(c, s.api, e, now); }
  }

  lemma HasDelivery(c: Config, s: System)
    requires Inv(c, s)
    ensures ValidConfig(c) && c.delivery in s.api.db.deliveries && Orders.Inv(s.api.db)
  {
  }

  lemma StepKeepsApi(c: Config, s: System, step: Step)
    requires ValidConfig(c) && !step.Command? && !step.ConsumeNext?
    ensures Apply(c, s, step).api == s.api && Apply(c, s, step).applied == s.applied
  {
    hide StepEnvelope, PendingSteps, StampedOf, ValidConfig;
  }

  lemma StepAppliesOrKeeps(c: Config, s: System, step: Step)
    requires Inv(c, s)
    ensures AppliesOrKeeps(c, s, Apply(c, s, step))
  {
    hide Inv, ValidConfig, Consumed, Orders.Apply, Orders.Inv, StepEnvelope, PendingSteps, StampedOf;
    HasDelivery(c, s);
    if step.Command? {
      if !step.command.DoTelemetry? { CommandKeepsRow(s.api.db, step.command, c.delivery); }
    } else if step.ConsumeNext? {
      if s.read < |s.log| { ConsumedAppliesOrKeeps(c, s, s.clock + 1 + step.pause); }
    } else {
      StepKeepsApi(c, s, step);
      hide Apply;
    }
  }

  /** Until its first telemetry is applied, the delivery is as it was created. */
  lemma {:induction false} UntouchedUntilApplied(c: Config, s: System, steps: seq<Step>)
    requires Initial(c, s)
    ensures AppliesOrKeeps(c, s, Run(c, s, steps))
  {
    if steps != [] {
      UntouchedUntilApplied(c, s, steps[..|steps| - 1]);
      RunKeepsInv(c, s, steps[..|steps| - 1]);
      hide Apply, Inv, Initial;
      StepAppliesOrKeeps(c, Run(c, s, steps[..|steps| - 1]), steps[|steps| - 1]);
    }
  }

  /**
   * Crashes, duplicates and redeliveries are invisible in the tables: however m steps came
   * to be applied, position, progress and status are those of one crash-free run of m steps.
   */
  lemma {:induction false} InterleavingsRefineTheCleanRun(c: Config, s: System, steps: seq<Step>)
    requires Initial(c, s)
    ensures var later := Run(c, s, steps);
            && |later.applied| <= c.plan.steps
            && var clean := Run(c, s, CleanSchedule(|later.applied|));
            && c.delivery in later.api.db.deliveries && c.delivery in clean.api.db.deliveries
            && |clean.applied| == |later.applied|
            && (forall i :: 0 <= i < |later.applied| ==> clean.applied[i].id == later.applied[i].id)
            && var row, ideal := later.api.db.deliveries[c.delivery], clean.api.db.deliveries[c.delivery];
            (row.lat, row.lon, row.progress, row.status) == (ideal.lat, ideal.lon, ideal.progress, ideal.status)
  {
    AppliedIsAPrefixOfThePlan(c, s, steps);
    var m := |Run(c, s, steps).applied|;
    CleanScheduleApplies(c, s, m);
    AppliedIsAPrefixOfThePlan(c, s, CleanSchedule(m));
    UntouchedUntilApplied(c, s, steps);
    UntouchedUntilApplied(c, s, CleanSchedule(m));
    assert s.applied == [];
    hide Run, CleanSchedule, Initial, ValidConfig, FollowsPlan;
    if m > 0 { SamePlanSamePlace(c, Run(c, s, steps), Run(c, s, CleanSchedule(m))); }
  }

  lemma SamePlanSamePlace(c: Config, a: System, b: System)
    requires ValidConfig(c) && FollowsPlan(c, a) && FollowsPlan(c, b) && |a.applied| == |b.applied| > 0
    ensures forall i :: 0 <= i < |a.applied| ==> b.applied[i].id == a.applied[i].id
    ensures var row, ideal := a.api.db.deliveries[c.delivery], b.api.db.deliveries[c.delivery];
            (row.lat, row.lon, row.progress, row.status) == (ideal.lat, ideal.lon, ideal.progress, ideal.status)
  {
    hide Progress;
  }

  // ---------------------------------------------------------------- the publishing loop

  /** Run r starts and publishes as many steps as there are pauses, undisturbed. */
  function Publishing(r: int, pauses: seq<nat>): seq<Step> {
    if pauses == [] then [StartRun(r)]
    else Publishing(r, pauses[..|pauses| - 1]) + [Stamp(r, pauses[|pauses| - 1]), Append(r)]
  }

  lemma RunTwoMore(c: Config, s: System, before: seq<Step>, a: Step, b: Step)
    requires ValidConfig(c)
    ensures Run(c, s, before + [a, b]) == Apply(c, Apply(c, Run(c, s, before), a), b)
  {
    hide Apply;
    AppendRuns(c, s, before, [a, b]);
    assert [a, b][..1] == [a] && [a][..0] == [];
    assert Run(c, Run(c, s, before), []) == Run(c, s, before);
    assert Run(c, Run(c, s, before), [a]) == Apply(c, Run(c, s, before), a);
  }

  lemma PublishingStep(c: Config, s: System, r: int, pauses: seq<nat>, i: nat)
    requires ValidConfig(c) && i < |pauses|
    ensures Run(c, s, Publishing(r, pauses[..i + 1]))
            == Apply(c, Apply(c, Run(c, s, Publishing(r, pauses[..i])), Stamp(r, pauses[i])), Append(r))
  {
    hide Apply, Run;
    assert pauses[..i + 1][..i] == pauses[..i];
    RunTwoMore(c, s, Publishing(r, pauses[..i]), Stamp(r, pauses[i]), Append(r));
  }

  lemma PublishOne(c: Config, m: System, r: int, pause: nat)
    requires ValidConfig(c) && r in m.runs && m.runs[r].stamped.None? && m.runs[r].pending != []
    requires 1 <= m.runs[r].pending[0] <= c.plan.steps
    ensures var after := Apply(c, Apply(c, m, Stamp(r, pause)), Append(r));
            && after.clock == m.clock + 1 + pause
            && after.log == m.log + [StepEnvelope(c, m.runs[r].pending[0], after.clock)]
            && r in after.runs && after.runs[r] == SimRun(m.runs[r].pending[1..], None)
  {
    hide StepEnvelope;
  }

  lemma RunStarts(c: Config, s: System, r: int)
    requires ValidConfig(c) && c.delivery in s.api.db.deliveries && r !in s.runs
    requires c.resume ==> s.api.db.deliveries[c.delivery].status != DELIVERED
    ensures var m := Run(c, s, Publishing(r, []));
            && m.log == s.log && m.clock == s.clock && r in m.runs
            && m.runs[r] == SimRun(PendingSteps(c.plan, if c.resume then s.api.db.deliveries[c.delivery].progress else 0.0), None)
  {
    assert [StartRun(r)][..0] == [];
    assert Run(c, s, []) == s;
    hide PendingSteps;
  }

  /** After i publications: what run r has sent, and what it has left. */
  ghost predicate Underway(c: Config, s: System, r: int, pauses: seq<nat>, pending: seq<nat>, sent: seq<Envelope>, clock: int)
    requires ValidConfig(c)
  {
    |sent| <= |pending| == |pauses| &&
    var m := Run(c, s, Publishing(r, pauses[..|sent|]));
    m.log == s.log + sent && m.clock == clock && r in m.runs && m.runs[r] == SimRun(pending[|sent|..], None)
  }

  lemma UnderwayNext(c: Config, s: System, r: int, pauses: seq<nat>, pending: seq<nat>, sent: seq<Envelope>, clock: int)
    requires ValidConfig(c) && Underway(c, s, r, pauses, pending, sent, clock) && |sent| < |pending|
    requires 1 <= pending[|sent|] <= c.plan.steps
    ensures var t := clock + 1 + pauses[|sent|];
            Underway(c, s, r, pauses, pending, sent + [StepEnvelope(c, pending[|sent|], t)], t)
  {
    hide Run, Apply, Publishing, StepEnvelope;
    var i := |sent|;
    PublishingStep(c, s, r, pauses, i);
    PublishOne(c, Run(c, s, Publishing(r, pauses[..i])), r, pauses[i]);
    assert pending[i..][1..] == pending[i + 1..];
  }

  lemma UnderwayFirst(c: Config, s: System, r: int, pauses: seq<nat>, pending: seq<nat>)
    requires ValidConfig(c) && c.delivery in s.api.db.deliveries && r !in s.runs && |pauses| == |pending|
    requires c.resume ==> s.api.db.deliveries[c.delivery].status != DELIVERED
    requires pending == PendingSteps(c.plan, if c.resume then s.api.db.deliveries[c.delivery].progress else 0.0)
    ensures Underway(c, s, r, pauses, pending, [], s.clock)
  {
    RunStarts(c, s, r);
    hide Run, PendingSteps;
    assert pauses[..0] == [] && pending[0..] == pending && s.log + [] == s.log;
  }

  /** A publication that is not confirmed: the envelope may yet reach the log, the run is over. */
  lemma LosePublication(c: Config, m: System, r: int, pause: nat)
    requires ValidConfig(c) && r in m.runs && m.runs[r].stamped.None? && m.runs[r].pending != []
    requires 1 <= m.runs[r].pending[0] <= c.plan.steps
    ensures var after := Apply(c, Apply(c, m, Stamp(r, pause)), LoseRun(r));
            && after.log == m.log && r !in after.runs
            && StepEnvelope(c, m.runs[r].pending[0], m.clock + 1 + pause) in after.strays
  {
    hide StepEnvelope;
  }

  /** Whether the loop of simulate ended as the system does: all published, or stopped at the first refusal. */
  ghost predicate PublishedAs(c: Config, s: System, r: int, pauses: seq<nat>, answers: seq<bool>, pending: seq<nat>, sent: seq<Envelope>)
    requires ValidConfig(c) && |answers| == |pauses| == |pending|
  {
    && |sent| <= |pauses| && (forall i :: 0 <= i < |sent| ==> answers[i])
    && Run(c, s, Publishing(r, pauses[..|sent|])).log == s.log + sent
    && (|sent| < |pauses| ==>
          && !answers[|sent|]
          && var lost := Run(c, s, Publishing(r, pauses[..|sent|]) + [Stamp(r, pauses[|sent|]), LoseRun(r)]);
          && lost.log == s.log + sent && r !in lost.runs
          && exists e :: e in lost.strays && e.id == StepEvent(c.created, pending[|sent|]))
  }

  lemma RefusedPublication(c: Config, s: System, r: int, pauses: seq<nat>, answers: seq<bool>, pending: seq<nat>, sent: seq<Envelope>, clock: int)
    requires ValidConfig(c) && Underway(c, s, r, pauses, pending, sent, clock) && |sent| < |pending| && |answers| == |pauses|
    requires 1 <= pending[|sent|] <= c.plan.steps
    requires (forall i :: 0 <= i < |sent| ==> answers[i]) && !answers[|sent|]
    ensures PublishedAs(c, s, r, pauses, answers, pending, sent)
  {
    hide Run, Apply, Publishing;
    var i := |sent|;
    RunTwoMore(c, s, Publishing(r, pauses[..i]), Stamp(r, pauses[i]), LoseRun(r));
    LosePublication(c, Run(c, s, Publishing(r, pauses[..i])), r, pauses[i]);
  }

  lemma EveryPublicationConfirmed(c: Config, s: System, r: int, pauses: seq<nat>, answers: seq<bool>, pending: seq<nat>, sent: seq<Envelope>, clock: int)
    requires ValidConfig(c) && Underway(c, s, r, pauses, pending, sent, clock) && |sent| == |pending| && |answers| == |pauses|
    requires forall i :: 0 <= i < |sent| ==> answers[i]
    ensures PublishedAs(c, s, r, pauses, answers, pending, sent)
  {
  }

  /** The loop of simulate over its pending steps; `answers` says which publications the broker confirms. */
  method PublishAll(c: Config, s: System, r: int, pending: seq<nat>, now: int, pauses: seq<nat>, answers: seq<bool>)
    returns (sent: seq<Envelope>, ok: bool)
    requires ValidConfig(c) && Underway(c, s, r, pauses, pending, [], now) && |answers| == |pauses| == |pending|
    requires forall i :: 0 <= i < |pending| ==> 1 <= pending[i] <= c.plan.steps
    ensures PublishedAs(c, s, r, pauses, answers, pending, sent)
    ensures ok <==> |sent| == |pauses|
  {
    hide *;
    var clock := now;
    sent := [];
    while |sent| < |pending|
      invariant |sent| <= |pending| && Underway(c, s, r, pauses, pending, sent, clock)
      invariant forall i :: 0 <= i < |sent| ==> answers[i]
    {
      if !answers[|sent|] {
        RefusedPublication(c, s, r, pauses, answers, pending, sent, clock);
        return sent, false;
      }
      UnderwayNext(c, s, r, pauses, pending, sent, clock);
      clock := clock + 1 + pauses[|sent|];
      sent := sent + [StepEnvelope(c, pending[|sent|], clock)];
    }
    EveryPublicationConfirmed(c, s, r, pauses, answers, pending, sent, clock);
    ok := true;
  }

  /** simulate, from the progress and status it reads; not ok when a publication raised. */
  method Simulate(c: Config, s: System, r: int, progress: real, status: Status, now: int, pauses: seq<nat>, answers: seq<bool>)
    returns (sent: seq<Envelope>, ok: bool)
    requires ValidConfig(c) && c.delivery in s.api.db.deliveries && r !in s.runs && now == s.clock
    requires if c.resume then progress == s.api.db.deliveries[c.delivery].progress && status == s.api.db.deliveries[c.delivery].status
             else progress == 0.0 && status == CREATED
    requires |answers| == |pauses| == |PendingSteps(c.plan, progress)|
    ensures status == DELIVERED ==> sent == [] && ok
    ensures status != DELIVERED ==> PublishedAs(c, s, r, pauses, answers, PendingSteps(c.plan, progress), sent) && (ok <==> |sent| == |pauses|)
  {
    if status == DELIVERED { return [], true; }
    PendingWithin(c.plan, progress, 1);
    UnderwayFirst(c, s, r, pauses, PendingSteps(c.plan, progress));
    hide Run, Publishing, PendingFrom, Underway, PublishedAs;
    sent, ok := PublishAll(c, s, r, PendingSteps(c.plan, progress), now, pauses, answers);
  }
}
