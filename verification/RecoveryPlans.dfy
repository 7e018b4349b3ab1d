/**
 * Batch replay and discard plans (api/.../replay/ReplayPlanService.java,
 * DiscardPlanService.java, ReplayPlan.java, DiscardPlan.java). An execution holds its
 * plan's row lock while each event is resolved in a transaction of its own, so the events
 * commit before, and survive without, the plan's own transaction.
 */
module RecoveryPlans {
  import opened Common
  import opened DeadLetterRecovery

  datatype PlanStatus = PREPARED | EXECUTED | PARTIAL | EXPIRED

  /** A replay plan or, with a Discard action, a discard plan. */
  datatype Plan = Plan(
    actor: string,
    action: Action,
    ids: seq<int>,
    requestKey: string,
    status: PlanStatus,
    expires: int,
    executionKey: Option<string>,
    succeeded: nat,
    failed: nat)

  /** An execute() in progress, not yet committed. */
  datatype Execution = Execution(key: Option<string>, succeeded: nat, failed: nat)

  type PlanTable = map<int, Plan>
  type Executions = map<int, Execution>

  datatype System = System(maxBatch: nat, db: Db, plans: PlanTable, running: Executions, now: int)

  datatype Step =
    | Elsewhere(step: DeadLetterRecovery.Step)  // captures, and operators outside any plan
    | Prepare(plan: int, ids: seq<int>, action: Action, actor: Option<string>, key: Option<string>)
    | Begin(plan: int, actor: Option<string>, approved: bool, key: Option<string>)
    | Next(plan: int, sendOk: bool, ending: Ending)
    | Finish(plan: int)
    | Lose(plan: int)  // crash, interruption, or a failed commit of the plan's transaction
    | Tick(elapsed: nat)

  const EXPIRY := 600

  // ---------------------------------------------------------------- preparing

  /** Replay plans and discard plans live in tables of their own. */
  predicate SameKind(a: Action, b: Action) { a.Replay? <==> b.Replay? }

  /** First occurrences, in order. */
  function Distinct(ids: seq<int>): seq<int> {
    if ids == [] then []
    else
      var front := Distinct(ids[..|ids| - 1]);
      if ids[|ids| - 1] in front then front else front + [ids[|ids| - 1]]
  }

  predicate NoDuplicates(ids: seq<int>) {
    ids == [] || (NoDuplicates(ids[..|ids| - 1]) && ids[|ids| - 1] !in ids[..|ids| - 1])
  }

  ghost function PlanByRequestKey(plans: PlanTable, action: Action, key: string): (r: Option<int>)
    ensures r.Some? ==> r.value in plans && SameKind(plans[r.value].action, action) && plans[r.value].requestKey == key
    ensures r.None? ==> forall p :: p in plans ==> !(SameKind(plans[p].action, action) && plans[p].requestKey == key)
  {
    if p :| p in plans && SameKind(plans[p].action, action) && plans[p].requestKey == key then Some(p) else None
  }

  predicate AllPending(events: map<int, DeadLetter>, ids: seq<int>) {
    forall i :: 0 <= i < |ids| ==> ids[i] in events && events[ids[i]].status == PENDING
  }

  ghost function Prepared(s: System, id: int, ids: seq<int>, action: Action, actor: Option<string>, key: Option<string>): (System, Result<int>) {
    var distinct := Distinct(ids);
    if !Required(actor, 120) || ids == [] || !ValidAction(action) || |distinct| > s.maxBatch || !Required(key, 160) then (s, Refused)
    else
      var prior := PlanByRequestKey(s.plans, action, key.value);
      if prior.Some? then
        var p := s.plans[prior.value];
        (s, if p.actor == actor.value && p.action == action && p.ids == distinct then Ok(prior.value) else Refused)
      else if !AllPending(s.db.events, distinct) || id in s.plans then (s, Refused)
      else
        (s.(plans := s.plans[id := Plan(actor.value, action, distinct, key.value, PREPARED, s.now + EXPIRY, None, 0, 0)]),
         Ok(id))
  }

  // ---------------------------------------------------------------- executing

  /** The execution key a plan has, or will have when its running execution commits. */
  function KeyOf(plans: PlanTable, running: Executions, p: int): Option<string>
    requires p in plans
  {
    if p in running then running[p].key else plans[p].executionKey
  }

  /** No other transaction holds the row, nor the advisory lock of the key. */
  predicate Unlocked(s: System, p: int, key: Option<string>) {
    && p !in s.running
    && (p in s.plans && key.Some? ==>
          forall q :: q in s.running && q in s.plans && SameKind(s.plans[q].action, s.plans[p].action) ==> s.running[q].key != key)
  }

  ghost function PlanByExecutionKey(plans: PlanTable, action: Action, key: string): (r: Option<int>)
    ensures r.Some? ==> r.value in plans && SameKind(plans[r.value].action, action) && plans[r.value].executionKey == Some(key)
    ensures r.None? ==> forall p :: p in plans ==> !(SameKind(plans[p].action, action) && plans[p].executionKey == Some(key))
  {
    if p :| p in plans && SameKind(plans[p].action, action) && plans[p].executionKey == Some(key) then Some(p) else None
  }

  /** bindExecutionRequest: a key may be bound once. */
  function Bind(plan: Plan, key: Option<string>): Option<Plan> {
    if key.None? then Some(plan)
    else if plan.executionKey.Some? then None
    else Some(plan.(executionKey := key))
  }

  /** execute() up to its loop. Ok names the plan returned or now being executed. */
  ghost function Begun(s: System, p: int, actor: Option<string>, approved: bool, key: Option<string>): (System, Result<int>) {
    if !Required(actor, 120) || !approved || (key.Some? && !Required(key, 160)) || p !in s.plans then (s, Refused)
    else
      var plan := s.plans[p];
      var prior := if key.Some? then PlanByExecutionKey(s.plans, plan.action, key.value) else None;
      if prior.Some? then (s, if prior.value == p && plan.actor == actor.value then Ok(p) else Refused)
      else if plan.actor != actor.value || Bind(plan, key).None? then (s, Refused)
      else if plan.status != PREPARED then (s.(plans := s.plans[p := Bind(plan, key).value]), Ok(p))
      else if plan.expires <= s.now then (s.(plans := s.plans[p := Bind(plan, key).value.(status := EXPIRED)]), Ok(p))
      else (s.(running := s.running[p := Execution(key, 0, 0)]), Ok(p))
  }

  function RequestOf(plan: Plan, id: int): Request {
    Request(id, plan.action, Some(plan.actor), None)
  }

  /** One turn of the loop: a refused or lost attempt counts as failed. */
  function Advanced(e: Execution, reply: Result<DeadLetter>): Execution {
    if reply.Ok? then e.(succeeded := e.succeeded + 1) else e.(failed := e.failed + 1)
  }

  function Completed(plan: Plan, e: Execution): Plan {
    plan.(status := if e.failed == 0 then EXECUTED else PARTIAL, succeeded := e.succeeded, failed := e.failed,
          executionKey := if e.key.Some? then e.key else plan.executionKey)
  }

  function Turn(s: System, p: int, sendOk: bool, ending: Ending): System
    requires p in s.running && p in s.plans && s.running[p].succeeded + s.running[p].failed < |s.plans[p].ids|
  {
    var (db, reply) := Attempt(s.db, RequestOf(s.plans[p], s.plans[p].ids[s.running[p].succeeded + s.running[p].failed]), sendOk, ending);
    s.(db := db, running := s.running[p := Advanced(s.running[p], reply)])
  }

  ghost function Apply(s: System, step: Step): System {
    match step
    case Elsewhere(inner) => s.(db := DeadLetterRecovery.Apply(s.db, inner))
    case Prepare(id, ids, action, actor, key) => Prepared(s, id, ids, action, actor, key).0
    case Begin(p, actor, approved, key) => if Unlocked(s, p, key) then Begun(s, p, actor, approved, key).0 else s
    case Next(p, sendOk, ending) =>
      if p in s.running && p in s.plans && s.running[p].succeeded + s.running[p].failed < |s.plans[p].ids|
      then Turn(s, p, sendOk, ending) else s
    case Finish(p) =>
      if p in s.running && p in s.plans && s.running[p].succeeded + s.running[p].failed == |s.plans[p].ids|
      then s.(plans := s.plans[p := Completed(s.plans[p], s.running[p])], running := s.running - {p}) else s
    case Lose(p) => s.(running := s.running - {p})
    case Tick(elapsed) => s.(now := s.now + elapsed)
  }

  ghost function Run(s: System, steps: seq<Step>): System {
    if steps == [] then s else Apply(Run(s, steps[..|steps| - 1]), steps[|steps| - 1])
  }

  function Init(maxBatch: nat): System { System(maxBatch, EMPTY, map[], map[], 0) }

  // ---------------------------------------------------------------- the invariant

  /** How many of the ids were resolved as the plan asks, by the plan's actor. */
  function ResolvedCount(events: map<int, DeadLetter>, ids: seq<int>, action: Action, actor: string): (n: nat)
    ensures n <= |ids|
  {
    if ids == [] then 0
    else
      var last := ids[|ids| - 1];
      ResolvedCount(events, ids[..|ids| - 1], action, actor)
        + if last in events && ResolvedBy(events[last], action, actor) then 1 else 0
  }

  predicate PlanOk(maxBatch: nat, events: map<int, DeadLetter>, p: Plan) {
    && p.ids != [] && NoDuplicates(p.ids) && |p.ids| <= maxBatch && Required(Some(p.actor), 120) && ValidAction(p.action)
    && (p.status == PREPARED || p.status == EXPIRED ==> p.succeeded == p.failed == 0)
    && (p.status == PREPARED ==> p.executionKey.None?)
    && (p.status == EXECUTED || p.status == PARTIAL ==>
          && p.succeeded + p.failed == |p.ids|
          && (p.status == EXECUTED <==> p.failed == 0)
          && p.succeeded <= ResolvedCount(events, p.ids, p.action, p.actor))
  }

  predicate ExecutionOk(events: map<int, DeadLetter>, p: Plan, e: Execution) {
    && p.status == PREPARED && e.succeeded + e.failed <= |p.ids|
    && e.succeeded <= ResolvedCount(events, p.ids[..e.succeeded + e.failed], p.action, p.actor)
  }

  ghost predicate PlansOk(maxBatch: nat, events: map<int, DeadLetter>, plans: PlanTable) {
    forall p :: p in plans ==> PlanOk(maxBatch, events, plans[p])
  }

  ghost predicate ExecutionsOk(events: map<int, DeadLetter>, plans: PlanTable, running: Executions) {
    forall p :: p in running ==> p in plans && ExecutionOk(events, plans[p], running[p])
  }

  ghost predicate RequestKeysUnique(plans: PlanTable) {
    forall p, q :: p in plans && q in plans && p != q ==>
      !(SameKind(plans[p].action, plans[q].action) && plans[p].requestKey == plans[q].requestKey)
  }

  ghost predicate ExecutionKeysUnique(plans: PlanTable, running: Executions) {
    forall p, q :: p in plans && q in plans && p != q && KeyOf(plans, running, p).Some? ==>
      !(SameKind(plans[p].action, plans[q].action) && KeyOf(plans, running, p) == KeyOf(plans, running, q))
  }

  ghost predicate PlansInv(s: System) {
    && DeadLetterRecovery.Inv(s.db)
    && PlansOk(s.maxBatch, s.db.events, s.plans)
    && ExecutionsOk(s.db.events, s.plans, s.running)
    && RequestKeysUnique(s.plans)
    && ExecutionKeysUnique(s.plans, s.running)
  }

  // ---------------------------------------------------------------- lists and counts

  lemma {:induction false} DistinctKeepsMembers(ids: seq<int>)
    ensures NoDuplicates(Distinct(ids))
    ensures forall x :: x in Distinct(ids) <==> x in ids
    ensures ids != [] ==> Distinct(ids) != []
  {
    if ids != [] {
      var front := Distinct(ids[..|ids| - 1]);
      DistinctKeepsMembers(ids[..|ids| - 1]);
      assert ids == ids[..|ids| - 1] + [ids[|ids| - 1]];
      assert (front + [ids[|ids| - 1]])[..|front|] == front;
    }
  }

  /** Resolved events stay resolved. */
  ghost predicate Preserves(events: map<int, DeadLetter>, later: map<int, DeadLetter>) {
    forall id :: id in events && events[id].status != DeadLetterRecovery.PENDING ==> id in later && later[id] == events[id]
  }

  lemma {:induction false} CountGrows(events: map<int, DeadLetter>, later: map<int, DeadLetter>, ids: seq<int>, action: Action, actor: string)
    requires Preserves(events, later)
    ensures ResolvedCount(events, ids, action, actor) <= ResolvedCount(later, ids, action, actor)
  {
    if ids != [] { CountGrows(events, later, ids[..|ids| - 1], action, actor); }
  }

  lemma {:induction false} FullCount(events: map<int, DeadLetter>, ids: seq<int>, action: Action, actor: string, i: nat)
    requires ResolvedCount(events, ids, action, actor) == |ids| && i < |ids|
    ensures ids[i] in events && ResolvedBy(events[ids[i]], action, actor)
  {
    if i < |ids| - 1 { FullCount(events, ids[..|ids| - 1], action, actor, i); }
  }

  lemma StepPreserves(db: Db, step: DeadLetterRecovery.Step)
    ensures Preserves(db.events, DeadLetterRecovery.Apply(db, step).events)
  {
    if step.Operate? { AttemptShape(db, step.request, step.sendOk, step.ending); }
    hide Attempt;
  }

  lemma RowsSurvive(maxBatch: nat, events: map<int, DeadLetter>, later: map<int, DeadLetter>, plans: PlanTable, running: Executions)
    requires Preserves(events, later) && PlansOk(maxBatch, events, plans) && ExecutionsOk(events, plans, running)
    ensures PlansOk(maxBatch, later, plans) && ExecutionsOk(later, plans, running)
  {
    forall p | p in plans ensures PlanOk(maxBatch, later, plans[p]) {
      CountGrows(events, later, plans[p].ids, plans[p].action, plans[p].actor);
    }
    hide Preserves, PlansOk;
    forall p | p in running ensures p in plans && ExecutionOk(later, plans[p], running[p]) {
      CountGrows(events, later, plans[p].ids[..running[p].succeeded + running[p].failed], plans[p].action, plans[p].actor);
    }
  }

  // ---------------------------------------------------------------- every step keeps the invariant

  lemma ElsewhereKeepsInv(s: System, step: DeadLetterRecovery.Step)
    requires PlansInv(s)
    ensures PlansInv(s.(db := DeadLetterRecovery.Apply(s.db, step)))
  {
    var later := DeadLetterRecovery.Apply(s.db, step);
    DeadLetterRecovery.StepKeepsInv(s.db, step);
    StepPreserves(s.db, step);
    hide DeadLetterRecovery.Inv, DeadLetterRecovery.Apply, Preserves, PlansOk, ExecutionsOk, RequestKeysUnique, ExecutionKeysUnique;
    RowsSurvive(s.maxBatch, s.db.events, later.events, s.plans, s.running);
  }

  /** A new row under a request key of its own, with no execution key. */
  lemma NewRowKeepsKeys(plans: PlanTable, running: Executions, id: int, plan: Plan)
    requires id !in plans && id !in running && plan.executionKey.None?
    requires forall p :: p in plans ==> !(SameKind(plans[p].action, plan.action) && plans[p].requestKey == plan.requestKey)
    requires RequestKeysUnique(plans) && ExecutionKeysUnique(plans, running)
    ensures RequestKeysUnique(plans[id := plan]) && ExecutionKeysUnique(plans[id := plan], running)
  {
  }

  lemma NewPlanIsOk(s: System, ids: seq<int>, plan: Plan)
    requires ids != [] && plan.ids == Distinct(ids) && |plan.ids| <= s.maxBatch && Required(Some(plan.actor), 120) && ValidAction(plan.action)
    requires plan.status == PREPARED && plan.executionKey.None? && plan.succeeded == plan.failed == 0
    ensures PlanOk(s.maxBatch, s.db.events, plan)
  {
    DistinctKeepsMembers(ids);
    hide Distinct, NoDuplicates, Required;
  }

  lemma PrepareKeepsInv(s: System, id: int, ids: seq<int>, action: Action, actor: Option<string>, key: Option<string>)
    requires PlansInv(s)
    ensures PlansInv(Prepared(s, id, ids, action, actor, key).0)
  {
    assert Required(actor, 120) ==> actor.Some?;
    hide DeadLetterRecovery.Inv, Distinct, Required, AllPending, PlanOk, ExecutionOk, RequestKeysUnique, ExecutionKeysUnique,
      ValidAction, SameKind;
    var after := Prepared(s, id, ids, action, actor, key).0;
    if after != s {
      assert id !in s.running;
      NewRowKeepsKeys(s.plans, s.running, id, after.plans[id]);
      NewPlanIsOk(s, ids, after.plans[id]);
      hide PlanByRequestKey;
    }
  }

  /** Changing one row's status and binding a key nobody else has. */
  lemma RowChangeKeepsKeys(plans: PlanTable, running: Executions, p: int, plan: Plan, key: Option<string>)
    requires p in plans && p !in running && plan.requestKey == plans[p].requestKey && plan.action == plans[p].action
    requires plan.executionKey == if key.Some? then key else plans[p].executionKey
    requires RequestKeysUnique(plans) && ExecutionKeysUnique(plans, running)
    requires key.Some? ==> forall q :: q in plans && q != p && SameKind(plans[q].action, plan.action) ==> KeyOf(plans, running, q) != key
    ensures RequestKeysUnique(plans[p := plan]) && ExecutionKeysUnique(plans[p := plan], running)
  {
    RequestKeysStay(plans, p, plan);
  }

  lemma RequestKeysStay(plans: PlanTable, p: int, plan: Plan)
    requires p in plans && plan.requestKey == plans[p].requestKey && plan.action == plans[p].action && RequestKeysUnique(plans)
    ensures RequestKeysUnique(plans[p := plan])
  {
  }

  /** With no committed holder and no running holder, the key is nobody's. */
  lemma KeyIsFree(s: System, p: int, key: string)
    requires p in s.plans && Unlocked(s, p, Some(key)) && PlanByExecutionKey(s.plans, s.plans[p].action, key).None?
    ensures forall q :: q in s.plans && q != p && SameKind(s.plans[q].action, s.plans[p].action) ==> KeyOf(s.plans, s.running, q) != Some(key)
  {
  }

  lemma StartKeepsKeys(plans: PlanTable, running: Executions, p: int, e: Execution)
    requires p in plans && p !in running && plans[p].executionKey.None?
    requires ExecutionKeysUnique(plans, running)
    requires e.key.Some? ==> forall q :: q in plans && q != p && SameKind(plans[q].action, plans[p].action) ==> KeyOf(plans, running, q) != e.key
    ensures ExecutionKeysUnique(plans, running[p := e])
  {
  }

  lemma StartKeepsInv(s: System, p: int, key: Option<string>)
    requires PlansInv(s) && p in s.plans && p !in s.running && s.plans[p].status == PREPARED
    requires key.Some? ==> forall q :: q in s.plans && q != p && SameKind(s.plans[q].action, s.plans[p].action) ==> KeyOf(s.plans, s.running, q) != key
    ensures PlansInv(s.(running := s.running[p := Execution(key, 0, 0)]))
  {
    hide DeadLetterRecovery.Inv, RequestKeysUnique, ExecutionKeysUnique, NoDuplicates, Required;
    assert PlanOk(s.maxBatch, s.db.events, s.plans[p]);
    StartKeepsKeys(s.plans, s.running, p, Execution(key, 0, 0));
    assert s.plans[p].ids[..0] == [];
    hide PlansOk, PlanOk;
  }

  /** Binding a free key to a row, and expiring it if it was prepared. */
  lemma BindKeepsInv(s: System, p: int, plan: Plan, key: Option<string>)
    requires PlansInv(s) && p in s.plans && p !in s.running && Bind(s.plans[p], key).Some?
    requires plan == if s.plans[p].status == PREPARED then Bind(s.plans[p], key).value.(status := EXPIRED) else Bind(s.plans[p], key).value
    requires key.Some? ==> forall q :: q in s.plans && q != p && SameKind(s.plans[q].action, s.plans[p].action) ==> KeyOf(s.plans, s.running, q) != key
    ensures PlansInv(s.(plans := s.plans[p := plan]))
  {
    hide DeadLetterRecovery.Inv, RequestKeysUnique, ExecutionKeysUnique, NoDuplicates, Required;
    assert PlanOk(s.maxBatch, s.db.events, s.plans[p]);
    RowChangeKeepsKeys(s.plans, s.running, p, plan, key);
    assert PlanOk(s.maxBatch, s.db.events, plan);
    hide PlanOk, ExecutionOk;
  }

  lemma BeginKeepsInv(s: System, p: int, actor: Option<string>, approved: bool, key: Option<string>)
    requires PlansInv(s) && Unlocked(s, p, key)
    ensures PlansInv(Begun(s, p, actor, approved, key).0)
  {
    var after := Begun(s, p, actor, approved, key).0;
    if after != s {
      if key.Some? { KeyIsFree(s, p, key.value); }
      hide PlansInv, Required, Unlocked, PlanByExecutionKey;
      if p in after.running {
        StartKeepsInv(s, p, key);
      } else {
        BindKeepsInv(s, p, after.plans[p], key);
      }
    }
  }

  lemma AttemptCounts(db: Db, plan: Plan, id: int, sendOk: bool, ending: Ending)
    requires Required(Some(plan.actor), 120)
    ensures var (after, reply) := Attempt(db, RequestOf(plan, id), sendOk, ending);
            reply.Ok? ==> id in after.events && ResolvedBy(after.events[id], plan.action, plan.actor)
  {
    hide Required, FindByKey;
  }

  /** One more id, counted as succeeded only when it is resolved. */
  lemma TurnCounts(events: map<int, DeadLetter>, later: map<int, DeadLetter>, plan: Plan, e: Execution, reply: Result<DeadLetter>)
    requires ExecutionOk(events, plan, e) && e.succeeded + e.failed < |plan.ids| && Preserves(events, later)
    requires reply.Ok? ==> var id := plan.ids[e.succeeded + e.failed]; id in later && ResolvedBy(later[id], plan.action, plan.actor)
    ensures ExecutionOk(later, plan, Advanced(e, reply))
  {
    var i := e.succeeded + e.failed;
    CountGrows(events, later, plan.ids[..i], plan.action, plan.actor);
    assert plan.ids[..i + 1][..i] == plan.ids[..i];
    hide Preserves;
  }

  lemma NextKeepsInv(s: System, p: int, sendOk: bool, ending: Ending)
    requires PlansInv(s) && p in s.running && p in s.plans && s.running[p].succeeded + s.running[p].failed < |s.plans[p].ids|
    ensures PlansInv(Turn(s, p, sendOk, ending))
  {
    var plan, e := s.plans[p], s.running[p];
    var id := plan.ids[e.succeeded + e.failed];
    var (db, reply) := Attempt(s.db, RequestOf(plan, id), sendOk, ending);
    assert DeadLetterRecovery.Apply(s.db, Operate(RequestOf(plan, id), sendOk, ending)) == db;
    ElsewhereKeepsInv(s, Operate(RequestOf(plan, id), sendOk, ending));
    StepPreserves(s.db, Operate(RequestOf(plan, id), sendOk, ending));
    AttemptCounts(s.db, plan, id, sendOk, ending);
    TurnCounts(s.db.events, db.events, plan, e, reply);
    CountingKeepsKeys(s.plans, s.running, p, Advanced(e, reply));
    hide Attempt, Preserves, ExecutionOk, PlansOk, RequestKeysUnique, ExecutionKeysUnique, DeadLetterRecovery.Inv, ResolvedBy;
  }

  lemma CountingKeepsKeys(plans: PlanTable, running: Executions, p: int, e: Execution)
    requires p in plans && p in running && e.key == running[p].key && ExecutionKeysUnique(plans, running)
    ensures ExecutionKeysUnique(plans, running[p := e])
  {
    hide SameKind;
    forall q | q in plans ensures KeyOf(plans, running[p := e], q) == KeyOf(plans, running, q) {}
  }

  lemma FinishKeepsInv(s: System, p: int)
    requires PlansInv(s) && p in s.running && p in s.plans && s.running[p].succeeded + s.running[p].failed == |s.plans[p].ids|
    ensures PlansInv(s.(plans := s.plans[p := Completed(s.plans[p], s.running[p])], running := s.running - {p}))
  {
    var plan, e := s.plans[p], s.running[p];
    assert plan.ids[..|plan.ids|] == plan.ids;
    assert PlanOk(s.maxBatch, s.db.events, plan) && ExecutionOk(s.db.events, plan, e);
    assert PlanOk(s.maxBatch, s.db.events, Completed(plan, e));
    RequestKeysStay(s.plans, p, Completed(plan, e));
    hide DeadLetterRecovery.Inv, PlanOk, ExecutionOk, RequestKeysUnique, ResolvedCount;
    assert KeyOf(s.plans[p := Completed(plan, e)], s.running - {p}, p) == KeyOf(s.plans, s.running, p) by {
      assert plan.status == PREPARED && plan.executionKey.None? by { PreparedIsUnkeyed(s, p); }
    }
  }

  lemma PreparedIsUnkeyed(s: System, p: int)
    requires PlansInv(s) && p in s.running
    ensures p in s.plans && s.plans[p].status == PREPARED && s.plans[p].executionKey.None?
  {
    assert PlanOk(s.maxBatch, s.db.events, s.plans[p]) && ExecutionOk(s.db.events, s.plans[p], s.running[p]);
  }

  lemma LoseKeepsInv(s: System, p: int)
    requires PlansInv(s)
    ensures PlansInv(s.(running := s.running - {p}))
  {
    if p in s.running { PreparedIsUnkeyed(s, p); }
    hide DeadLetterRecovery.Inv, PlanOk, ExecutionOk, RequestKeysUnique;
  }

  lemma StepKeepsInv(s: System, step: Step)
    requires PlansInv(s)
    ensures PlansInv(Apply(s, step))
  {
    match step
    case Elsewhere(inner) => hide PlansInv; ElsewhereKeepsInv(s, inner);
    case Prepare(id, ids, action, actor, key) => hide PlansInv, Prepared; PrepareKeepsInv(s, id, ids, action, actor, key);
    case Begin(p, actor, approved, key) =>
      hide PlansInv, Begun;
      if Unlocked(s, p, key) { BeginKeepsInv(s, p, actor, approved, key); }
    case Next(p, sendOk, ending) =>
      hide PlansInv, Turn;
      if p in s.running && p in s.plans && s.running[p].succeeded + s.running[p].failed < |s.plans[p].ids| {
        NextKeepsInv(s, p, sendOk, ending);
      }
    case Finish(p) =>
      hide PlansInv, Completed;
      if p in s.running && p in s.plans && s.running[p].succeeded + s.running[p].failed == |s.plans[p].ids| {
        FinishKeepsInv(s, p);
      }
    case Lose(p) => hide PlansInv; LoseKeepsInv(s, p);
    case Tick(elapsed) => hide PlansOk, ExecutionsOk, RequestKeysUnique, ExecutionKeysUnique, DeadLetterRecovery.Inv;
  }

  lemma {:induction false} RunKeepsInv(s: System, steps: seq<Step>)
    requires PlansInv(s)
    ensures PlansInv(Run(s, steps))
  {
    if steps != [] {
      RunKeepsInv(s, steps[..|steps| - 1]);
      StepKeepsInv(Run(s, steps[..|steps| - 1]), steps[|steps| - 1]);
    }
  }

  lemma InitIsOk(maxBatch: nat)
    ensures PlansInv(Init(maxBatch))
  {
  }

  // ---------------------------------------------------------------- main results

  // ---------------------------------------------------------------- when an execution starts

  /** No plan of the same kind was executed, or is being executed, under the key. */
  ghost predicate KeyUnused(s: System, p: int, key: Option<string>)
    requires p in s.plans
  {
    key.Some? ==> forall q :: q in s.plans && SameKind(s.plans[q].action, s.plans[p].action) ==>
      s.plans[q].executionKey != key && (q in s.running ==> s.running[q].key != key)
  }

  /** Everything an execution needs but time: a prepared plan nobody is executing, its own actor's approval, a fresh key if any. */
  ghost predicate Startable(s: System, p: int, actor: Option<string>, approved: bool, key: Option<string>) {
    && p in s.plans && p !in s.running && s.plans[p].status == PREPARED
    && approved && actor == Some(s.plans[p].actor) && (key.Some? ==> Required(key, 160)) && KeyUnused(s, p, key)
  }

  /**
   * An execution starts exactly when it is startable and the plan has not expired; startable but
   * too late, it marks the plan EXPIRED and starts nothing. No other execution is touched.
   */
  lemma {:induction false} StartsExactly(s: System, p: int, actor: Option<string>, approved: bool, key: Option<string>)
    requires PlansInv(s)
    ensures var after := Apply(s, Begin(p, actor, approved, key));
            && after.db == s.db && after.now == s.now
            && after.running == (if Startable(s, p, actor, approved, key) && s.now < s.plans[p].expires
                                 then s.running[p := Execution(key, 0, 0)] else s.running)
            && (Startable(s, p, actor, approved, key) ==>
                  after.plans == if s.now < s.plans[p].expires then s.plans
                                 else s.plans[p := s.plans[p].(status := EXPIRED, executionKey := key)])
  {
    if p in s.plans {
      assert PlanOk(s.maxBatch, s.db.events, s.plans[p]);
      FreeKey(s, p, key);
    }
    hide PlansInv, Required, PlanByExecutionKey, NoDuplicates, ResolvedCount, Unlocked, KeyUnused, SameKind, ValidAction;
  }

  /** The key is free by the lookup and the locks exactly when nobody used or is using it. */
  lemma FreeKey(s: System, p: int, key: Option<string>)
    requires PlansInv(s) && p in s.plans
    ensures p !in s.running && KeyUnused(s, p, key) ==>
              Unlocked(s, p, key) && (key.Some? ==> PlanByExecutionKey(s.plans, s.plans[p].action, key.value).None?)
    ensures Unlocked(s, p, key) && (key.Some? ==> PlanByExecutionKey(s.plans, s.plans[p].action, key.value).None?) ==>
              p !in s.running && KeyUnused(s, p, key)
  {
    forall q | q in s.running ensures q in s.plans { PreparedIsUnkeyed(s, q); }
    hide PlansInv;
  }

  /** What execute() answers when no execution is under way: the plan, to its own actor, unless the key is another's or the plan has one. */
  lemma {:induction false} BeginAnswers(s: System, p: int, actor: Option<string>, approved: bool, key: Option<string>)
    requires PlansInv(s) && s.running == map[]
    ensures Begun(s, p, actor, approved, key).1 ==
            if p in s.plans && approved && actor == Some(s.plans[p].actor)
               && (key.Some? ==> Required(key, 160) && (s.plans[p].executionKey == key || (s.plans[p].executionKey.None? && KeyUnused(s, p, key))))
            then Ok(p) else Refused
  {
    if p in s.plans {
      assert PlanOk(s.maxBatch, s.db.events, s.plans[p]);
      FreeKey(s, p, key);
      if key.Some? && s.plans[p].executionKey == key { HolderIsUnique(s, s.plans[p].action, p, key.value); }
      if s.plans[p].executionKey.None? && key.Some? { hide PlansOk; }
    }
    hide PlansInv, Required, NoDuplicates, ResolvedCount, KeyUnused, SameKind, ValidAction;
  }

  /** In every run, each execution was begun by its plan's actor, approved, before the plan expired and on a prepared plan. */
  lemma {:induction false} ExecutionsAreApproved(maxBatch: nat, steps: seq<Step>, p: int) returns (i: nat)
    requires p in Run(Init(maxBatch), steps).running
    ensures i < |steps| && p in Run(Init(maxBatch), steps[..i]).plans
    ensures var (before, key) := (Run(Init(maxBatch), steps[..i]), Run(Init(maxBatch), steps).running[p].key);
            && steps[i] == Begin(p, Some(before.plans[p].actor), true, key)
            && before.plans[p].status == PREPARED && before.now < before.plans[p].expires
  {
    var n := |steps| - 1;
    var before := Run(Init(maxBatch), steps[..n]);
    InitIsOk(maxBatch);
    RunKeepsInv(Init(maxBatch), steps[..n]);
    if p in before.running {
      i := ExecutionsAreApproved(maxBatch, steps[..n], p);
      assert steps[..n][..i] == steps[..i];
      StepKeepsExecutionKey(before, steps[n], p);
    } else {
      i := n;
      OnlyBeginStarts(before, steps[n], p);
    }
  }

  lemma OnlyBeginStarts(s: System, step: Step, p: int)
    requires PlansInv(s) && p !in s.running && p in Apply(s, step).running
    ensures p in s.plans && s.plans[p].status == PREPARED && s.now < s.plans[p].expires
    ensures step == Begin(p, Some(s.plans[p].actor), true, Apply(s, step).running[p].key)
  {
    if step.Begin? { StartsExactly(s, step.plan, step.actor, step.approved, step.key); }
    hide PlansInv, Begun, Unlocked, Attempt, DeadLetterRecovery.Apply, Completed, Required, Distinct, AllPending;
  }

  lemma StepKeepsExecutionKey(s: System, step: Step, p: int)
    requires PlansInv(s) && p in s.running && p in Apply(s, step).running
    ensures Apply(s, step).running[p].key == s.running[p].key
  {
    if step.Begin? { StartsExactly(s, step.plan, step.actor, step.approved, step.key); }
    hide PlansInv, Begun, Unlocked, Attempt, DeadLetterRecovery.Apply, Completed, Required, Distinct, AllPending;
  }

  lemma AllPendingMembers(events: map<int, DeadLetter>, ids: seq<int>)
    ensures AllPending(events, Distinct(ids)) <==> forall e :: e in ids ==> e in events && events[e].status == DeadLetterRecovery.PENDING
  {
    var d := Distinct(ids);
    DistinctKeepsMembers(ids);
    hide Distinct, NoDuplicates;
    forall i | 0 <= i < |d| ensures d[i] in ids { var e := d[i]; assert e in d; assert e in Distinct(ids); }
    forall e | e in ids ensures exists i :: 0 <= i < |d| && d[i] == e { assert e in Distinct(ids); }
  }

  /**
   * Under a key no plan of the kind carries, a plan is prepared exactly for a valid request of at
   * most maxBatch events that all are pending; it expires ten minutes later.
   */
  lemma {:induction false} PreparesExactly(s: System, id: int, ids: seq<int>, action: Action, actor: Option<string>, key: Option<string>)
    requires id !in s.plans && (key.Some? ==> forall p :: p in s.plans && SameKind(s.plans[p].action, action) ==> s.plans[p].requestKey != key.value)
    ensures var (after, reply) := Prepared(s, id, ids, action, actor, key);
            var valid := && Required(actor, 120) && Required(key, 160) && ValidAction(action)
                         && ids != [] && |Distinct(ids)| <= s.maxBatch
                         && forall e :: e in ids ==> e in s.db.events && s.db.events[e].status == DeadLetterRecovery.PENDING;
            && reply == (if valid then Ok(id) else Refused)
            && after == if valid
                        then s.(plans := s.plans[id := Plan(actor.value, action, Distinct(ids), key.value, PREPARED, s.now + 600, None, 0, 0)])
                        else s
  {
    DistinctKeepsMembers(ids);
    RequiredIsPresent(actor, 120);
    RequiredIsPresent(key, 160);
    AllPendingMembers(s.db.events, ids);
    hide Required, Distinct, AllPending, ValidAction, SameKind;
  }

  /**
   * In every run, an executed or partial plan's counts sum to its size, at least `succeeded`
   * of its events are resolved as the plan asks by the plan's actor, and an EXECUTED plan's
   * events all are - whatever other operators, crashes and retries did in between.
   */
  lemma {:induction false} ExecutedMeansAllResolved(maxBatch: nat, steps: seq<Step>, p: int)
    requires p in Run(Init(maxBatch), steps).plans
    ensures var s := Run(Init(maxBatch), steps);
            var plan := s.plans[p];
            && (plan.status == EXECUTED || plan.status == PARTIAL ==>
                  plan.succeeded + plan.failed == |plan.ids|
                  && plan.succeeded <= ResolvedCount(s.db.events, plan.ids, plan.action, plan.actor))
            && (plan.status == PARTIAL ==> plan.failed > 0)
            && (plan.status == EXECUTED ==>
                  forall i :: 0 <= i < |plan.ids| ==>
                    plan.ids[i] in s.db.events && ResolvedBy(s.db.events[plan.ids[i]], plan.action, plan.actor))
  {
    var s := Run(Init(maxBatch), steps);
    InitIsOk(maxBatch);
    RunKeepsInv(Init(maxBatch), steps);
    var plan := s.plans[p];
    assert PlanOk(maxBatch, s.db.events, plan) by { BatchIsConstant(Init(maxBatch), steps); }
    hide Run, PlansInv;
    if plan.status == EXECUTED {
      forall i | 0 <= i < |plan.ids|
        ensures plan.ids[i] in s.db.events && ResolvedBy(s.db.events[plan.ids[i]], plan.action, plan.actor)
      {
        FullCount(s.db.events, plan.ids, plan.action, plan.actor, i);
      }
    }
  }

  lemma {:induction false} BatchIsConstant(s: System, steps: seq<Step>)
    ensures Run(s, steps).maxBatch == s.maxBatch
  {
    if steps != [] { BatchIsConstant(s, steps[..|steps| - 1]); }
  }

  lemma TurnIsAnAttempt(s: System, p: int, sendOk: bool, ending: Ending)
    requires p in s.running && p in s.plans && s.running[p].succeeded + s.running[p].failed < |s.plans[p].ids|
    ensures Turn(s, p, sendOk, ending).db
            == DeadLetterRecovery.Apply(s.db, Operate(RequestOf(s.plans[p], s.plans[p].ids[s.running[p].succeeded + s.running[p].failed]), sendOk, ending))
  {
    hide Attempt;
  }

  lemma StepNeverResends(s: System, step: Step, id: int)
    requires id in s.db.events && s.db.events[id].status != DeadLetterRecovery.PENDING
    ensures SameEvent(s.db, Apply(s, step).db, id)
  {
    hide Turn, Attempt, DeadLetterRecovery.Apply, AuditsOf, SendsOf, Completed, Unlocked;
    match step
    case Elsewhere(inner) => StepKeepsTerminal(s.db, inner, id);
    case Next(p, sendOk, ending) =>
      if p in s.running && p in s.plans && s.running[p].succeeded + s.running[p].failed < |s.plans[p].ids| {
        var r := RequestOf(s.plans[p], s.plans[p].ids[s.running[p].succeeded + s.running[p].failed]);
        TurnIsAnAttempt(s, p, sendOk, ending);
        StepKeepsTerminal(s.db, Operate(r, sendOk, ending), id);
      }
    case _ =>
  }

  /**
   * Crash resume. Once an event's replay or discard has committed, no continuation - plans lost
   * and executed again, overlapping plans, other operators - sends, changes or audits it again.
   */
  lemma {:induction false} CommittedEventsAreNeverResent(s: System, steps: seq<Step>, id: int)
    requires id in s.db.events && s.db.events[id].status != DeadLetterRecovery.PENDING
    ensures SameEvent(s.db, Run(s, steps).db, id)
  {
    if steps != [] {
      CommittedEventsAreNeverResent(s, steps[..|steps| - 1], id);
      StepNeverResends(Run(s, steps[..|steps| - 1]), steps[|steps| - 1], id);
    }
  }

  /** Executing again counts an event the plan's actor already resolved as a success, without touching it. */
  lemma {:induction false} ResumeCountsCommitted(s: System, p: int, sendOk: bool)
    requires PlansInv(s) && p in s.running && s.running[p].succeeded + s.running[p].failed < |s.plans[p].ids|
    requires var plan := s.plans[p]; var id := plan.ids[s.running[p].succeeded + s.running[p].failed];
             id in s.db.events && ResolvedBy(s.db.events[id], plan.action, plan.actor)
    ensures Turn(s, p, sendOk, Confirmed)
            == s.(running := s.running[p := s.running[p].(succeeded := s.running[p].succeeded + 1)])
  {
    PreparedIsUnkeyed(s, p);
    assert PlanOk(s.maxBatch, s.db.events, s.plans[p]);
    hide PlansInv, Required, FindByKey, ResolvedBy, ResolvedCount, NoDuplicates;
  }

  /** What may still change in a plan that was executed or expired: an execution key it lacks. */
  ghost predicate FinalPlan(plans: PlanTable, later: PlanTable, p: int) {
    && p in plans && p in later && plans[p].status != PREPARED
    && later[p] == plans[p].(executionKey := later[p].executionKey)
    && (plans[p].executionKey.Some? ==> later[p].executionKey == plans[p].executionKey)
  }

  lemma StepKeepsFinalPlan(s: System, step: Step, p: int)
    requires PlansInv(s) && p in s.plans && s.plans[p].status != PREPARED
    ensures FinalPlan(s.plans, Apply(s, step).plans, p)
  {
    if p in s.running { PreparedIsUnkeyed(s, p); }
    hide PlansInv, Required, AllPending, Distinct, ValidAction, Unlocked, Turn;
  }

  /** Plans move once: an executed, partial or expired plan keeps its outcome in every continuation. */
  lemma {:induction false} PlanOutcomeIsFinal(s: System, steps: seq<Step>, p: int)
    requires PlansInv(s) && p in s.plans && s.plans[p].status != PREPARED
    ensures FinalPlan(s.plans, Run(s, steps).plans, p)
    ensures p !in Run(s, steps).running
  {
    RunKeepsInv(s, steps);
    if steps != [] {
      PlanOutcomeIsFinal(s, steps[..|steps| - 1], p);
      RunKeepsInv(s, steps[..|steps| - 1]);
      StepKeepsFinalPlan(Run(s, steps[..|steps| - 1]), steps[|steps| - 1], p);
    }
    if p in Run(s, steps).running { PreparedIsUnkeyed(Run(s, steps), p); }
  }

  /**
   * A used execution key. In every continuation, executing any plan of that kind under the key
   * of a finished execution changes nothing, and answers only the plan's own actor for that plan.
   */
  lemma {:induction false} ExecutionKeyReuse(s: System, steps: seq<Step>, p: int, q: int, actor: Option<string>, approved: bool)
    requires PlansInv(s) && p in s.plans && s.plans[p].status != PREPARED && s.plans[p].executionKey.Some?
    requires q in Run(s, steps).plans && SameKind(Run(s, steps).plans[q].action, s.plans[p].action)
    ensures var later := Run(s, steps);
            var (after, reply) := Begun(later, q, actor, approved, s.plans[p].executionKey);
            after == later && (reply.Ok? ==> q == p && actor == Some(s.plans[p].actor))
  {
    PlanOutcomeIsFinal(s, steps, p);
    var later := Run(s, steps);
    RunKeepsInv(s, steps);
    var key := s.plans[p].executionKey.value;
    var holder := PlanByExecutionKey(later.plans, later.plans[q].action, key);
    assert later.plans[p].executionKey == Some(key);
    assert holder.Some?;
    if holder.value in later.running { PreparedIsUnkeyed(later, holder.value); }
    assert KeyOf(later.plans, later.running, holder.value) == Some(key) && KeyOf(later.plans, later.running, p) == Some(key);
    assert holder.value == p;
    hide Run, PlansInv, Required, PlanByExecutionKey;
  }

  /** A plan that is prepared, or found, under a request key is the one that key finds afterwards. */
  lemma PreparedIsFound(s: System, id: int, ids: seq<int>, action: Action, actor: Option<string>, key: Option<string>, action2: Action)
    requires PlansInv(s) && Prepared(s, id, ids, action, actor, key).1.Ok? && SameKind(action, action2)
    ensures var (later, first) := Prepared(s, id, ids, action, actor, key);
            && key.Some? && Required(key, 160)
            && PlanByRequestKey(later.plans, action2, key.value) == Some(first.value) && first.value in later.plans
            && var p := later.plans[first.value];
            Some(p.actor) == actor && p.action == action && p.ids == Distinct(ids)
  {
    var later := Prepared(s, id, ids, action, actor, key).0;
    var first := Prepared(s, id, ids, action, actor, key).1.value;
    PrepareKeepsInv(s, id, ids, action, actor, key);
    RequiredIsPresent(key, 160);
    RequiredIsPresent(actor, 120);
    hide PlansOk, ExecutionsOk, ExecutionKeysUnique, DeadLetterRecovery.Inv, RequestKeysUnique, Required, Distinct, AllPending, ValidAction, PlanByRequestKey;
    PreparedHolds(s, id, ids, action, actor, key);
    FoundUnderRequestKey(later.plans, first, action2, key.value);
  }

  lemma PreparedHolds(s: System, id: int, ids: seq<int>, action: Action, actor: Option<string>, key: Option<string>)
    requires Prepared(s, id, ids, action, actor, key).1.Ok?
    ensures var (later, first) := Prepared(s, id, ids, action, actor, key);
            && key.Some? && Required(key, 160) && first.value in later.plans
            && var p := later.plans[first.value];
            p.requestKey == key.value && Some(p.actor) == actor && p.action == action && p.ids == Distinct(ids)
  {
    RequiredIsPresent(key, 160);
    RequiredIsPresent(actor, 120);
    hide Required, Distinct, AllPending, ValidAction;
  }

  lemma FoundUnderRequestKey(plans: PlanTable, p: int, action: Action, key: string)
    requires RequestKeysUnique(plans) && p in plans && SameKind(plans[p].action, action) && plans[p].requestKey == key
    ensures PlanByRequestKey(plans, action, key) == Some(p)
  {
    var found := PlanByRequestKey(plans, action, key);
  }

  /** Preparing again under the same key changes nothing, and answers only the same request. */
  lemma {:induction false} PrepareRetry(s: System, id: int, ids: seq<int>, action: Action, actor: Option<string>, key: Option<string>,
                     again: int, ids2: seq<int>, action2: Action, actor2: Option<string>)
    requires PlansInv(s) && Prepared(s, id, ids, action, actor, key).1.Ok? && SameKind(action, action2)
    ensures var (later, first) := Prepared(s, id, ids, action, actor, key);
            var (after, reply) := Prepared(later, again, ids2, action2, actor2, key);
            && after == later
            && (reply.Ok? ==> reply == first && action2 == action && actor2 == actor && Distinct(ids2) == Distinct(ids))
  {
    PreparedIsFound(s, id, ids, action, actor, key, action2);
    var later := Prepared(s, id, ids, action, actor, key).0;
    RequiredIsPresent(actor2, 120);
    hide PlansInv, Required, Distinct, AllPending, ValidAction, PlanByRequestKey;
    PreparedUnderUsedKey(later, again, ids2, action2, actor2, key);
  }

  lemma PreparedUnderUsedKey(s: System, id: int, ids: seq<int>, action: Action, actor: Option<string>, key: Option<string>)
    requires key.Some? && PlanByRequestKey(s.plans, action, key.value).Some?
    ensures Prepared(s, id, ids, action, actor, key).0 == s
    ensures Prepared(s, id, ids, action, actor, key).1.Ok? ==>
              var p := s.plans[PlanByRequestKey(s.plans, action, key.value).value];
              && Prepared(s, id, ids, action, actor, key).1 == Ok(PlanByRequestKey(s.plans, action, key.value).value)
              && Some(p.actor) == actor && p.action == action && p.ids == Distinct(ids)
  {
    RequiredIsPresent(actor, 120);
    hide Required, Distinct, AllPending, ValidAction, PlanByRequestKey;
  }

  // ---------------------------------------------------------------- one uninterrupted execution

  /** The broker's and the database's answers to one attempt. */
  datatype Answer = Answer(sendOk: bool, ending: Ending)

  /** The loop of execute, over the first |answers| ids. */
  function Batch(db: Db, plan: Plan, e: Execution, answers: seq<Answer>): (Db, Execution)
    requires |answers| <= |plan.ids|
  {
    if answers == [] then (db, e)
    else
      var n := |answers| - 1;
      var (before, counted) := Batch(db, plan, e, answers[..n]);
      var (after, reply) := Attempt(before, RequestOf(plan, plan.ids[n]), answers[n].sendOk, answers[n].ending);
      (after, Advanced(counted, reply))
  }

  lemma BatchNext(db: Db, plan: Plan, e: Execution, answers: seq<Answer>, i: nat)
    requires i < |answers| <= |plan.ids|
    ensures var (before, counted) := Batch(db, plan, e, answers[..i]);
            var (after, reply) := Attempt(before, RequestOf(plan, plan.ids[i]), answers[i].sendOk, answers[i].ending);
            Batch(db, plan, e, answers[..i + 1]) == (after, Advanced(counted, reply))
  {
    hide Attempt, Advanced, RequestOf;
    assert answers[..i + 1][..i] == answers[..i];
  }

  lemma AdvancedWithKey(e: Execution, key: Option<string>, reply: Result<DeadLetter>)
    ensures Advanced(e.(key := key), reply) == (if reply.Ok? then e.(succeeded := e.succeeded + 1) else e.(failed := e.failed + 1)).(key := key)
  {
  }

  function NextSteps(p: int, answers: seq<Answer>): (steps: seq<Step>)
    ensures |steps| == |answers|
  {
    if answers == [] then []
    else NextSteps(p, answers[..|answers| - 1]) + [Next(p, answers[|answers| - 1].sendOk, answers[|answers| - 1].ending)]
  }

  lemma {:induction false} BatchCounts(db: Db, plan: Plan, e: Execution, answers: seq<Answer>)
    requires |answers| <= |plan.ids|
    ensures var after := Batch(db, plan, e, answers).1;
            after.succeeded + after.failed == e.succeeded + e.failed + |answers| && after.key == e.key
  {
    if answers != [] { BatchCounts(db, plan, e, answers[..|answers| - 1]); }
  }

  /** Undisturbed, the steps of an execution do exactly what the loop does. */
  lemma {:induction false} StepsRefineBatch(s: System, p: int, key: Option<string>, answers: seq<Answer>)
    requires p in s.plans && p in s.running && s.running[p] == Execution(key, 0, 0) && |answers| <= |s.plans[p].ids|
    ensures var (db, e) := Batch(s.db, s.plans[p], Execution(key, 0, 0), answers);
            Run(s, NextSteps(p, answers)) == s.(db := db, running := s.running[p := e])
  {
    hide Attempt;
    if answers != [] {
      var n := |answers| - 1;
      StepsRefineBatch(s, p, key, answers[..n]);
      BatchCounts(s.db, s.plans[p], Execution(key, 0, 0), answers[..n]);
      var steps := NextSteps(p, answers);
      assert steps[..n] == NextSteps(p, answers[..n]);
      var mid := Run(s, steps[..n]);
      assert Run(s, steps) == Apply(mid, Next(p, answers[n].sendOk, answers[n].ending));
      hide Run;
    } else {
      assert s.running[p := s.running[p]] == s.running;
    }
  }

  /** Every send delivered and every commit confirmed. */
  function AllWell(n: nat): (answers: seq<Answer>)
    ensures |answers| == n
  {
    if n == 0 then [] else AllWell(n - 1) + [Answer(true, Confirmed)]
  }

  lemma {:induction false} AllWellPrefix(n: nat, k: nat)
    requires k <= n
    ensures AllWell(n)[..k] == AllWell(k)
  {
    if k < n {
      AllWellPrefix(n - 1, k);
      assert AllWell(n)[..k] == AllWell(n - 1)[..k];
    }
  }

  /** What an attempt that goes well leaves behind: the same attempt again changes nothing. */
  predicate Settled(db: Db, plan: Plan, id: int, reply: Result<DeadLetter>) {
    if reply.Ok? then id in db.events && ResolvedBy(db.events[id], plan.action, plan.actor)
    else id !in db.events || (db.events[id].status != DeadLetterRecovery.PENDING && !ResolvedBy(db.events[id], plan.action, plan.actor))
  }

  predicate ValidPlan(plan: Plan) {
    Required(Some(plan.actor), 120) && ValidAction(plan.action)
  }

  lemma AttemptSettles(db: Db, plan: Plan, id: int)
    requires ValidPlan(plan)
    ensures var (after, reply) := Attempt(db, RequestOf(plan, id), true, Confirmed); Settled(after, plan, id, reply)
  {
    hide Required, FindByKey;
  }

  lemma SettledRepeats(db: Db, plan: Plan, id: int, reply: Result<DeadLetter>, counted: Execution)
    requires ValidPlan(plan) && Settled(db, plan, id, reply)
    ensures var (after, again) := Attempt(db, RequestOf(plan, id), true, Confirmed);
            after == db && Advanced(counted, again) == Advanced(counted, reply)
  {
    hide Required, FindByKey;
  }

  lemma SettledStays(db: Db, plan: Plan, id: int, reply: Result<DeadLetter>, other: int)
    requires ValidPlan(plan) && Settled(db, plan, id, reply)
    ensures Settled(Attempt(db, RequestOf(plan, other), true, Confirmed).0, plan, id, reply)
  {
    hide Required, FindByKey;
  }

  /** The reply the j-th attempt of an all-well batch gets. */
  function ReplyAt(db: Db, plan: Plan, e: Execution, j: nat): Result<DeadLetter>
    requires j < |plan.ids|
  {
    Attempt(Batch(db, plan, e, AllWell(j)).0, RequestOf(plan, plan.ids[j]), true, Confirmed).1
  }

  lemma BatchUnfolds(db: Db, plan: Plan, e: Execution, n: nat)
    requires n < |plan.ids|
    ensures var (before, counted) := Batch(db, plan, e, AllWell(n));
            var (after, reply) := Attempt(before, RequestOf(plan, plan.ids[n]), true, Confirmed);
            Batch(db, plan, e, AllWell(n + 1)) == (after, Advanced(counted, reply)) && ReplyAt(db, plan, e, n) == reply
  {
    AllWellPrefix(n + 1, n);
    hide Attempt, Advanced;
  }

  lemma {:induction false} BatchSettles(db: Db, plan: Plan, e: Execution, k: nat, j: nat)
    requires ValidPlan(plan) && j < k <= |plan.ids|
    ensures Settled(Batch(db, plan, e, AllWell(k)).0, plan, plan.ids[j], ReplyAt(db, plan, e, j))
  {
    hide Attempt, Batch, Settled, ReplyAt;
    BatchUnfolds(db, plan, e, k - 1);
    var before := Batch(db, plan, e, AllWell(k - 1)).0;
    if j == k - 1 {
      AttemptSettles(before, plan, plan.ids[j]);
    } else {
      BatchSettles(db, plan, e, k - 1, j);
      SettledStays(before, plan, plan.ids[j], ReplyAt(db, plan, e, j), plan.ids[k - 1]);
    }
  }

  /** Going over the part already done changes nothing and counts the same. */
  lemma {:induction false} RepeatedPart(db: Db, plan: Plan, e: Execution, k: nat, j: nat)
    requires ValidPlan(plan) && j <= k <= |plan.ids|
    ensures var part := Batch(db, plan, e, AllWell(k)).0;
            Batch(part, plan, e, AllWell(j)) == (part, Batch(db, plan, e, AllWell(j)).1)
  {
    if j == 0 {
      BatchOfNone(db, plan, e);
      BatchOfNone(Batch(db, plan, e, AllWell(k)).0, plan, e);
    } else {
      hide *;
      var part := Batch(db, plan, e, AllWell(k)).0;
      RepeatedPart(db, plan, e, k, j - 1);
      BatchUnfolds(part, plan, e, j - 1);
      BatchUnfolds(db, plan, e, j - 1);
      BatchSettles(db, plan, e, k, j - 1);
      SettledRepeats(part, plan, plan.ids[j - 1], ReplyAt(db, plan, e, j - 1), Batch(db, plan, e, AllWell(j - 1)).1);
    }
  }

  lemma BatchOfNone(db: Db, plan: Plan, e: Execution)
    ensures Batch(db, plan, e, AllWell(0)) == (db, e)
  {
  }

  /**
   * A plan lost after any number of its events and executed again leaves exactly the events,
   * audits, sends and counts of one uninterrupted execution.
   */
  lemma {:induction false} CrashResumeEqualsOneExecution(db: Db, plan: Plan, e: Execution, k: nat, n: nat)
    requires ValidPlan(plan) && k <= n <= |plan.ids|
    ensures Batch(Batch(db, plan, e, AllWell(k)).0, plan, e, AllWell(n)) == Batch(db, plan, e, AllWell(n))
  {
    hide *;
    if n == k {
      RepeatedPart(db, plan, e, k, k);
    } else {
      CrashResumeEqualsOneExecution(db, plan, e, k, n - 1);
      BatchUnfolds(Batch(db, plan, e, AllWell(k)).0, plan, e, n - 1);
      BatchUnfolds(db, plan, e, n - 1);
    }
  }

  // ---------------------------------------------------------------- resuming after any first execution

  /** An attempt that goes well succeeds for an event pending or already resolved as the plan asks. */
  predicate Wins(events: map<int, DeadLetter>, plan: Plan, id: int) {
    id in events && (events[id].status == DeadLetterRecovery.PENDING || ResolvedBy(events[id], plan.action, plan.actor))
  }

  /** The first n events of the plan resolved, as far as they were pending. */
  function Marked(events: map<int, DeadLetter>, plan: Plan, n: nat): map<int, DeadLetter>
    requires n <= |plan.ids|
  {
    map id | id in events ::
      if events[id].status == DeadLetterRecovery.PENDING && id in plan.ids[..n]
      then Mark(events[id], plan.action, plan.actor) else events[id]
  }

  function Counted(e: Execution, won: bool): Execution {
    if won then e.(succeeded := e.succeeded + 1) else e.(failed := e.failed + 1)
  }

  /** The counts of an all-well execution of the first n events. */
  function Tally(events: map<int, DeadLetter>, plan: Plan, e: Execution, n: nat): Execution
    requires n <= |plan.ids|
  {
    if n == 0 then e else Counted(Tally(events, plan, e, n - 1), Wins(events, plan, plan.ids[n - 1]))
  }

  /** Some of the pending ones among the first n events have been resolved as the plan asks, and nothing else. */
  ghost predicate Partway(events: map<int, DeadLetter>, later: map<int, DeadLetter>, plan: Plan, n: nat)
    requires n <= |plan.ids|
  {
    && later.Keys == events.Keys
    && forall id :: id in events ==>
         later[id] == events[id]
         || (events[id].status == DeadLetterRecovery.PENDING && id in plan.ids[..n] && later[id] == Mark(events[id], plan.action, plan.actor))
  }

  lemma AllWellAttempt(db: Db, plan: Plan, id: int)
    requires ValidPlan(plan)
    ensures var (after, reply) := Attempt(db, RequestOf(plan, id), true, Confirmed);
            && (reply.Ok? <==> Wins(db.events, plan, id))
            && after.events == if id in db.events && db.events[id].status == DeadLetterRecovery.PENDING
                               then db.events[id := Mark(db.events[id], plan.action, plan.actor)] else db.events
  {
    hide Required, FindByKey;
  }

  lemma AnyAttempt(db: Db, plan: Plan, id: int, answer: Answer)
    requires ValidPlan(plan)
    ensures var after := Attempt(db, RequestOf(plan, id), answer.sendOk, answer.ending).0;
            || after.events == db.events
            || (id in db.events && db.events[id].status == DeadLetterRecovery.PENDING
                && after.events == db.events[id := Mark(db.events[id], plan.action, plan.actor)])
  {
    hide Required, FindByKey, Mark;
  }

  lemma {:induction false} BatchPartway(db: Db, plan: Plan, e: Execution, answers: seq<Answer>)
    requires ValidPlan(plan) && |answers| <= |plan.ids|
    ensures Partway(db.events, Batch(db, plan, e, answers).0.events, plan, |answers|)
  {
    if answers != [] {
      var n := |answers| - 1;
      BatchPartway(db, plan, e, answers[..n]);
      AnyAttempt(Batch(db, plan, e, answers[..n]).0, plan, plan.ids[n], answers[n]);
      assert plan.ids[..n + 1] == plan.ids[..n] + [plan.ids[n]];
      hide Attempt, ValidPlan;
    }
  }

  lemma MarkedNext(events: map<int, DeadLetter>, plan: Plan, n: nat)
    requires n < |plan.ids|
    ensures var before, id := Marked(events, plan, n), plan.ids[n];
            && (Wins(before, plan, id) <==> Wins(events, plan, id))
            && Marked(events, plan, n + 1) == if id in before && before[id].status == DeadLetterRecovery.PENDING
                                              then before[id := Mark(before[id], plan.action, plan.actor)] else before
  {
    assert plan.ids[..n + 1] == plan.ids[..n] + [plan.ids[n]];
  }

  lemma {:induction false} AllWellBatch(db: Db, plan: Plan, e: Execution, n: nat)
    requires ValidPlan(plan) && n <= |plan.ids|
    ensures Batch(db, plan, e, AllWell(n)).0.events == Marked(db.events, plan, n)
    ensures Batch(db, plan, e, AllWell(n)).1 == Tally(db.events, plan, e, n)
  {
    if n == 0 {
      BatchOfNone(db, plan, e);
      assert Marked(db.events, plan, 0) == db.events;
    } else {
      AllWellBatch(db, plan, e, n - 1);
      BatchUnfolds(db, plan, e, n - 1);
      AllWellAttempt(Batch(db, plan, e, AllWell(n - 1)).0, plan, plan.ids[n - 1]);
      MarkedNext(db.events, plan, n - 1);
      hide Attempt, Batch, Marked, Wins, ReplyAt, AllWell, ValidPlan, RequestOf;
    }
  }

  lemma PartwayMarks(events: map<int, DeadLetter>, later: map<int, DeadLetter>, plan: Plan, k: nat, n: nat)
    requires k <= n <= |plan.ids| && Partway(events, later, plan, k)
    ensures Marked(later, plan, n) == Marked(events, plan, n)
  {
    assert plan.ids[..n][..k] == plan.ids[..k];
    forall id | id in plan.ids[..k] ensures id in plan.ids[..n] {
      var i :| 0 <= i < k && plan.ids[i] == id;
      assert plan.ids[..n][i] == id;
    }
    var a, b := Marked(later, plan, n), Marked(events, plan, n);
    assert a.Keys == b.Keys;
    forall id | id in events ensures a[id] == b[id] {}
  }

  lemma {:induction false} PartwayCounts(events: map<int, DeadLetter>, later: map<int, DeadLetter>, plan: Plan, e: Execution, k: nat, n: nat)
    requires k <= |plan.ids| && n <= |plan.ids| && Partway(events, later, plan, k)
    ensures Tally(later, plan, e, n) == Tally(events, plan, e, n)
  {
    if n > 0 {
      PartwayCounts(events, later, plan, e, k, n - 1);
      assert Wins(later, plan, plan.ids[n - 1]) <==> Wins(events, plan, plan.ids[n - 1]);
    }
  }

  /**
   * After any first execution of any part of a plan - failed sends, rolled-back or unanswered
   * commits included - a second one that goes well leaves the events and counts of a single one
   * that goes well.
   */
  lemma {:induction false} ResumeAfterAnyExecution(db: Db, plan: Plan, first: Execution, answers: seq<Answer>, e: Execution, n: nat)
    requires ValidPlan(plan) && |answers| <= n <= |plan.ids|
    ensures var resumed := Batch(Batch(db, plan, first, answers).0, plan, e, AllWell(n));
            var once := Batch(db, plan, e, AllWell(n));
            resumed.0.events == once.0.events && resumed.1 == once.1
  {
    var part := Batch(db, plan, first, answers).0;
    BatchPartway(db, plan, first, answers);
    hide *;
    AllWellBatch(db, plan, e, n);
    AllWellBatch(part, plan, e, n);
    PartwayMarks(db.events, part.events, plan, |answers|, n);
    PartwayCounts(db.events, part.events, plan, e, |answers|, n);
  }

  // ---------------------------------------------------------------- a whole undisturbed execution

  /** Which of the first n events can be resolved as the plan asks. */
  function Won(events: map<int, DeadLetter>, plan: Plan, n: nat): set<nat>
    requires n <= |plan.ids|
  {
    set i: nat | i < n && Wins(events, plan, plan.ids[i])
  }

  lemma WonNext(events: map<int, DeadLetter>, plan: Plan, n: nat)
    requires n < |plan.ids|
    ensures Won(events, plan, n + 1) == if Wins(events, plan, plan.ids[n]) then Won(events, plan, n) + {n} else Won(events, plan, n)
    ensures n !in Won(events, plan, n)
  {
    hide Wins;
  }

  lemma {:induction false} TallyCounts(events: map<int, DeadLetter>, plan: Plan, key: Option<string>, n: nat)
    requires n <= |plan.ids|
    ensures |Won(events, plan, n)| <= n
    ensures Tally(events, plan, Execution(key, 0, 0), n) == Execution(key, |Won(events, plan, n)|, n - |Won(events, plan, n)|)
    ensures |Won(events, plan, n)| == n <==> forall i :: 0 <= i < n ==> Wins(events, plan, plan.ids[i])
  {
    if n == 0 {
      assert Won(events, plan, 0) == {};
    } else {
      TallyCounts(events, plan, key, n - 1);
      WonNext(events, plan, n - 1);
      hide Wins, Won;
    }
  }

  /** Begin, an attempt for each event, and Finish, with every send delivered and every commit confirmed. */
  function WholeExecution(plan: Plan, p: int, key: Option<string>): seq<Step> {
    [Begin(p, Some(plan.actor), true, key)] + NextSteps(p, AllWell(|plan.ids|)) + [Finish(p)]
  }

  lemma {:induction false} RunAppends(s: System, before: seq<Step>, more: seq<Step>)
    ensures Run(s, before + more) == Run(Run(s, before), more)
    decreases |more|
  {
    hide Apply;
    var all := before + more;
    if more == [] {
      assert all == before;
    } else {
      assert all[..|all| - 1] == before + more[..|more| - 1];
      RunAppends(s, before, more[..|more| - 1]);
    }
  }

  lemma RunOfOne(s: System, step: Step)
    ensures Run(s, [step]) == Apply(s, step)
  {
    hide Apply;
    assert [step][..0] == [];
    assert Run(s, []) == s;
  }

  /** What a whole execution leaves, through its loop. */
  lemma WholeExecutionRuns(s: System, p: int, key: Option<string>)
    requires PlansInv(s) && p in s.plans && Startable(s, p, Some(s.plans[p].actor), true, key) && s.now < s.plans[p].expires
    ensures var (db, e) := Batch(s.db, s.plans[p], Execution(key, 0, 0), AllWell(|s.plans[p].ids|));
            && e.succeeded + e.failed == |s.plans[p].ids|
            && Run(s, WholeExecution(s.plans[p], p, key)) == s.(db := db, plans := s.plans[p := Completed(s.plans[p], e)])
  {
    var plan := s.plans[p];
    var begin, nexts := Begin(p, Some(plan.actor), true, key), NextSteps(p, AllWell(|plan.ids|));
    hide *;
    StartsRunning(s, p, key);
    var started := s.(running := s.running[p := Execution(key, 0, 0)]);
    StepsRefineBatch(started, p, key, AllWell(|plan.ids|));
    BatchCounts(s.db, plan, Execution(key, 0, 0), AllWell(|plan.ids|));
    var (db, e) := Batch(s.db, plan, Execution(key, 0, 0), AllWell(|plan.ids|));
    var done := started.(db := db, running := started.running[p := e]);
    FinishEnds(s, p, done, e);
    WholeExecutionIs(plan, p, key);
    RunEnclosed(s, begin, nexts, Finish(p));
  }

  lemma RunEnclosed(s: System, first: Step, middle: seq<Step>, last: Step)
    ensures Run(s, [first] + middle + [last]) == Apply(Run(Apply(s, first), middle), last)
  {
    hide *;
    RunOfOne(s, first);
    RunAppends(s, [first], middle);
    RunAppends(s, [first] + middle, [last]);
    RunOfOne(Run(Apply(s, first), middle), last);
  }

  lemma StartsRunning(s: System, p: int, key: Option<string>)
    requires PlansInv(s) && p in s.plans && Startable(s, p, Some(s.plans[p].actor), true, key) && s.now < s.plans[p].expires
    ensures p !in s.running
    ensures Apply(s, Begin(p, Some(s.plans[p].actor), true, key)) == s.(running := s.running[p := Execution(key, 0, 0)])
  {
    StartsExactly(s, p, Some(s.plans[p].actor), true, key);
    BeginKeepsRest(s, p, Some(s.plans[p].actor), true, key);
    hide Apply, PlansInv, KeyUnused;
  }

  lemma FinishEnds(s: System, p: int, done: System, e: Execution)
    requires p in s.plans && p !in s.running && e.succeeded + e.failed == |s.plans[p].ids|
    requires done == s.(db := done.db, running := s.running[p := e])
    ensures Apply(done, Finish(p)) == s.(db := done.db, plans := s.plans[p := Completed(s.plans[p], e)])
  {
    hide Completed;
    assert s.running[p := e] - {p} == s.running;
  }

  lemma WholeExecutionIs(plan: Plan, p: int, key: Option<string>)
    ensures WholeExecution(plan, p, key) == [Begin(p, Some(plan.actor), true, key)] + NextSteps(p, AllWell(|plan.ids|)) + [Finish(p)]
  {
  }

  lemma BeginKeepsRest(s: System, p: int, actor: Option<string>, approved: bool, key: Option<string>)
    ensures Apply(s, Begin(p, actor, approved, key)).maxBatch == s.maxBatch
  {
    hide Required, PlanByExecutionKey, Unlocked;
  }

  /** The plan after an execution in which n of its events ended as it asks. */
  function Concluded(plan: Plan, key: Option<string>, n: nat): Plan
    requires n <= |plan.ids|
  {
    Plan(plan.actor, plan.action, plan.ids, plan.requestKey, if n == |plan.ids| then EXECUTED else PARTIAL, plan.expires,
         if key.Some? then key else plan.executionKey, n, |plan.ids| - n)
  }

  /**
   * Undisturbed, a startable plan resolves each of its events that is pending - the others stay as
   * they are - counts as succeeded just those now resolved as it asks, and is EXECUTED exactly when
   * that is all of them.
   */
  lemma {:induction false} WholeExecutionResolvesAll(s: System, p: int, key: Option<string>, i: nat)
    requires PlansInv(s) && p in s.plans && Startable(s, p, Some(s.plans[p].actor), true, key) && s.now < s.plans[p].expires
    requires i < |s.plans[p].ids|
    ensures |Won(s.db.events, s.plans[p], |s.plans[p].ids|)| <= |s.plans[p].ids|
    ensures var (plan, later) := (s.plans[p], Run(s, WholeExecution(s.plans[p], p, key)));
            var (id, won) := (plan.ids[i], Won(s.db.events, plan, |plan.ids|));
            && later.running == s.running
            && later.plans == s.plans[p := Concluded(plan, key, |won|)]
            && (Wins(s.db.events, plan, id) ==> id in later.db.events && ResolvedBy(later.db.events[id], plan.action, plan.actor))
            && (!Wins(s.db.events, plan, id) ==> (id in later.db.events <==> id in s.db.events)
                                                 && (id in s.db.events ==> later.db.events[id] == s.db.events[id]))
            && (|won| == |plan.ids| <==> forall j :: 0 <= j < |plan.ids| ==> Wins(s.db.events, plan, plan.ids[j]))
  {
    var plan := s.plans[p];
    hide *;
    WholeExecutionLeaves(s, p, key);
    TallyCounts(s.db.events, plan, key, |plan.ids|);
    MarkedAll(s.db.events, plan, i);
  }

  /** The events, marked as far as they were pending, and the completed plan. */
  lemma WholeExecutionLeaves(s: System, p: int, key: Option<string>)
    requires PlansInv(s) && p in s.plans && Startable(s, p, Some(s.plans[p].actor), true, key) && s.now < s.plans[p].expires
    ensures |Won(s.db.events, s.plans[p], |s.plans[p].ids|)| <= |s.plans[p].ids|
    ensures var (plan, later) := (s.plans[p], Run(s, WholeExecution(s.plans[p], p, key)));
            var n := |Won(s.db.events, plan, |plan.ids|)|;
            && later.running == s.running && later.db.events == Marked(s.db.events, plan, |plan.ids|)
            && later.plans == s.plans[p := Concluded(plan, key, n)]
  {
    hide *;
    WholeExecutionRuns(s, p, key);
    BatchConcludes(s, p, key);
  }

  lemma BatchConcludes(s: System, p: int, key: Option<string>)
    requires PlansInv(s) && p in s.plans
    ensures |Won(s.db.events, s.plans[p], |s.plans[p].ids|)| <= |s.plans[p].ids|
    ensures var plan := s.plans[p];
            var (db, e) := Batch(s.db, plan, Execution(key, 0, 0), AllWell(|plan.ids|));
            && db.events == Marked(s.db.events, plan, |plan.ids|)
            && Completed(plan, e) == Concluded(plan, key, |Won(s.db.events, plan, |plan.ids|)|)
  {
    var plan, n := s.plans[p], |s.plans[p].ids|;
    hide *;
    PlanIsValid(s, p);
    AllWellBatch(s.db, plan, Execution(key, 0, 0), n);
    TallyCounts(s.db.events, plan, key, n);
    CompletedFields(plan, key, |Won(s.db.events, plan, n)|);
  }

  lemma PlanIsValid(s: System, p: int)
    requires PlansInv(s) && p in s.plans
    ensures ValidPlan(s.plans[p])
  {
    assert PlanOk(s.maxBatch, s.db.events, s.plans[p]);
    hide PlansInv, Required, NoDuplicates, ResolvedCount;
  }

  lemma CompletedFields(plan: Plan, key: Option<string>, n: nat)
    requires n <= |plan.ids|
    ensures Completed(plan, Execution(key, n, |plan.ids| - n))
            == Concluded(plan, key, n)
  {
  }

  lemma MarkedAll(events: map<int, DeadLetter>, plan: Plan, i: nat)
    requires i < |plan.ids|
    ensures var (marked, id) := (Marked(events, plan, |plan.ids|), plan.ids[i]);
            && (Wins(events, plan, id) ==> id in marked && ResolvedBy(marked[id], plan.action, plan.actor))
            && (!Wins(events, plan, id) ==> (id in marked <==> id in events) && (id in events ==> marked[id] == events[id]))
  {
    assert plan.ids[..|plan.ids|] == plan.ids;
  }

  // ---------------------------------------------------------------- the entity and the service

  /** Either plan entity. */
  class PlanRow {
    var row: Plan

    constructor (row: Plan)
      ensures this.row == row
    {
      this.row := row;
    }

    method Expire()
      modifies this
      ensures row == if old(row).status == PREPARED then old(row).(status := EXPIRED) else old(row)
    {
      if row.status == PREPARED { row := row.(status := EXPIRED); }
    }

    method BindExecutionRequest(key: string) returns (r: Result<()>)
      modifies this
      ensures r.Ok? <==> Bind(old(row), Some(key)).Some?
      ensures row == if r.Ok? then Bind(old(row), Some(key)).value else old(row)
    {
      if row.executionKey.Some? { return Refused; }
      row := row.(executionKey := Some(key));
      r := Ok(());
    }

    method Complete(succeeded: nat, failed: nat) returns (r: Result<()>)
      modifies this
      ensures r.Ok? <==> old(row).status == PREPARED
      ensures row == if r.Ok? then Completed(old(row), Execution(None, succeeded, failed)) else old(row)
    {
      if row.status != PREPARED { return Refused; }
      row := row.(succeeded := succeeded);
      row := row.(failed := failed);
      row := row.(status := if failed == 0 then EXECUTED else PARTIAL);
      r := Ok(());
    }
  }

  /** Both plan services over one replay service. */
  class PlanService {
    const maxBatch: nat
    const replay: ReplayService
    var plans: PlanTable

    constructor (maxBatch: nat, replay: ReplayService)
      ensures this.maxBatch == maxBatch && this.replay == replay && plans == map[]
    {
      this.maxBatch := maxBatch;
      this.replay := replay;
      plans := map[];
    }

    ghost function State(now: int): System
      reads this, replay
    {
      System(maxBatch, replay.State(), plans, map[], now)
    }

    /** execute(planId, actor, approval, requestKey) up to its loop. */
    method BeginPlan(p: int, header: Option<string>, approved: bool, key: Option<string>, now: int) returns (r: Result<int>, started: bool)
      requires PlansInv(State(now))
      modifies this`plans
      ensures r == Begun(old(State(now)), p, header, approved, key).1
      ensures started <==> p in Begun(old(State(now)), p, header, approved, key).0.running
      ensures plans == Begun(old(State(now)), p, header, approved, key).0.plans
    {
      assert Required(header, 120) ==> header.Some?;
      hide PlansInv, Required, SameKind, PlanByExecutionKey, PlanOk;
      r, started := Refused, false;
      if !Required(header, 120) || !approved { return; }
      if key.Some? && !Required(key, 160) { return; }
      if p !in plans { return; }
      if key.Some? {
        var holder := FindByExecutionKey(plans[p].action, key.value, now);
        if holder.Some? {
          if holder.value == p && plans[p].actor == header.value { r := Ok(p); }
          return;
        }
      }
      var plan := new PlanRow(plans[p]);
      if plan.row.actor != header.value { return; }
      if key.Some? {
        var bound := plan.BindExecutionRequest(key.value);
        if bound.Refused? { return; }
      }
      r := Ok(p);
      if plan.row.status == PREPARED && plan.row.expires > now {
        started := true;
        return;
      }
      plan.Expire();
      plans := plans[p := plan.row];
    }

    /** execute, undisturbed; `answers` are what its attempts meet. */
    method Execute(p: int, header: Option<string>, approved: bool, key: Option<string>, now: int, answers: seq<Answer>)
      returns (r: Result<int>)
      requires PlansInv(State(now))
      requires p in plans ==> |answers| == |plans[p].ids|
      modifies this`plans, replay
      ensures r == Begun(old(State(now)), p, header, approved, key).1
      ensures p !in Begun(old(State(now)), p, header, approved, key).0.running ==>
                State(now) == Begun(old(State(now)), p, header, approved, key).0
      ensures p in Begun(old(State(now)), p, header, approved, key).0.running ==>
                var (db, e) := Batch(old(replay.State()), old(plans)[p], Execution(key, 0, 0), answers);
                replay.State() == db && plans == old(plans)[p := Completed(old(plans)[p], e)]
    {
      StartedIsPrepared(State(now), p, header, approved, key);
      hide PlansInv, Begun, Batch;
      var started;
      r, started := BeginPlan(p, header, approved, key, now);
      if started {
        var plan := new PlanRow(plans[p]);
        if key.Some? { var bound := plan.BindExecutionRequest(key.value); }
        BatchIgnoresKey(replay.State(), plan.row, plans[p], Execution(key, 0, 0), answers);
        var e := ExecuteAll(plan.row, key, answers);
        var completed := plan.Complete(e.succeeded, e.failed);
        plans := plans[p := plan.row];
      }
    }

    method FindByExecutionKey(action: Action, key: string, now: int) returns (holder: Option<int>)
      requires PlansInv(State(now))
      ensures holder == PlanByExecutionKey(plans, action, key)
    {
      if q: int :| q in plans && SameKind(plans[q].action, action) && plans[q].executionKey == Some(key) {
        HolderIsUnique(State(now), action, q, key);
        return Some(q);
      }
      holder := None;
    }

    /** The loop over the plan's events. */
    method ExecuteAll(plan: Plan, ghost key: Option<string>, answers: seq<Answer>) returns (e: Execution)
      requires |answers| == |plan.ids|
      modifies replay
      ensures (replay.State(), e.(key := key)) == Batch(old(replay.State()), plan, Execution(key, 0, 0), answers)
    {
      e := Execution(None, 0, 0);
      var i := 0;
      ghost var before, start := replay.State(), Execution(key, 0, 0);
      assert (before, start) == Batch(before, plan, start, answers[..0]);
      hide *;
      while i < |plan.ids|
        invariant 0 <= i <= |plan.ids| && i == e.succeeded + e.failed
        invariant (replay.State(), e.(key := key)) == Batch(before, plan, start, answers[..i])
      {
        BatchNext(before, plan, start, answers, i);
        var reply := replay.Transact(RequestOf(plan, plan.ids[i]), answers[i].sendOk, answers[i].ending);
        AdvancedWithKey(e, key, reply);
        if reply.Ok? { e := e.(succeeded := e.succeeded + 1); } else { e := e.(failed := e.failed + 1); }
        i := i + 1;
      }
      assert answers[..i] == answers;
    }
  }

  /** An execution starts from a prepared plan without a key, and changes nothing else; otherwise nothing runs. */
  lemma StartedIsPrepared(s: System, p: int, actor: Option<string>, approved: bool, key: Option<string>)
    requires PlansInv(s) && s.running == map[]
    ensures var after := Begun(s, p, actor, approved, key).0;
            && after.db == s.db && after.now == s.now && after.maxBatch == s.maxBatch
            && (p in after.running ==> after.plans == s.plans && p in s.plans && s.plans[p].status == PREPARED && s.plans[p].executionKey.None?)
            && (p !in after.running ==> after.running == map[])
  {
    if p in s.plans { assert PlanOk(s.maxBatch, s.db.events, s.plans[p]); }
    hide PlansInv, Required, PlanByExecutionKey, NoDuplicates, ResolvedCount;
  }

  /** The plan holding an execution key is the one the lookup finds. */
  lemma HolderIsUnique(s: System, action: Action, q: int, key: string)
    requires PlansInv(s) && s.running == map[]
    requires q in s.plans && SameKind(s.plans[q].action, action) && s.plans[q].executionKey == Some(key)
    ensures PlanByExecutionKey(s.plans, action, key) == Some(q)
  {
    var found := PlanByExecutionKey(s.plans, action, key);
    assert KeyOf(s.plans, s.running, q) == Some(key);
    if found.Some? { assert KeyOf(s.plans, s.running, found.value) == Some(key); }
  }

  /** The loop reads only the plan's ids, action and actor. */
  lemma {:induction false} BatchIgnoresKey(db: Db, plan: Plan, other: Plan, e: Execution, answers: seq<Answer>)
    requires |answers| <= |plan.ids| && other.ids == plan.ids && other.action == plan.action && other.actor == plan.actor
    ensures Batch(db, plan, e, answers) == Batch(db, other, e, answers)
  {
    if answers != [] { BatchIgnoresKey(db, plan, other, e, answers[..|answers| - 1]); }
  }
}
