/**
 * Vehicle alert policies and their audit trail (api/.../alert/AlertPolicyService.java,
 * AlertPolicy.java, AlertPolicyAudit.java): upsert, reset, restore, resolve, and request keys.
 */
module AlertPolicies {
  import opened Common

  datatype Thresholds = Thresholds(
    deviationOpen: Num, deviationClose: Num, deviationCritical: Num, delayOpen: int, delayClose: int, delayCritical: int)

  datatype Policy = Policy(thresholds: Thresholds, active: bool, actor: string, at: int)

  datatype Action = UPSERT | RESET | RESTORE

  /** A snapshot of the policy just saved; an audit is named by its position in the trail. */
  datatype Audit = Audit(
    vehicle: string, thresholds: Thresholds, action: Action, actor: string, at: int,
    key: Option<string>, restoredFrom: Option<nat>)

  type PolicyTable = map<string, Policy>

  /** `frozen`: the deployed schema rejects any update of an audit row (V29__immutable_audit_records.sql). */
  datatype Db = Db(frozen: bool, policies: PolicyTable, audits: seq<Audit>)

  datatype Step =
    | DoUpsert(vehicle: Option<string>, thresholds: Thresholds, actor: Option<string>, key: Option<string>, now: int)
    | DoReset(vehicle: Option<string>, actor: Option<string>, key: Option<string>, now: int)
    | DoRestore(audit: nat, actor: Option<string>, key: Option<string>, now: int)

  const DEFAULT_VEHICLE := "*"

  /** The row V11__vehicle_alert_policies.sql inserts. */
  const SEED := Policy(Thresholds(Finite(500.0), Finite(300.0), Finite(1500.0), 600, 300, 1800), true, "system", 0)

  function Init(frozen: bool): Db { Db(frozen, map[DEFAULT_VEHICLE := SEED], []) }

  /** AlertPolicy.validate: 0 <= close < open <= critical, twice. */
  predicate Ordered(t: Thresholds) {
    && t.deviationOpen.Finite? && t.deviationClose.Finite? && t.deviationCritical.Finite?
    && 0.0 <= t.deviationClose.value < t.deviationOpen.value <= t.deviationCritical.value
    && 0 <= t.delayClose < t.delayOpen <= t.delayCritical
  }

  // ---------------------------------------------------------------- lookups in the trail

  function FindByKey(audits: seq<Audit>, key: string): (r: Option<nat>)
    ensures r.Some? ==> r.value < |audits| && audits[r.value].key == Some(key)
    ensures r.None? ==> forall i :: 0 <= i < |audits| ==> audits[i].key != Some(key)
  {
    if audits == [] then None
    else if audits[|audits| - 1].key == Some(key) then Some(|audits| - 1)
    else FindByKey(audits[..|audits| - 1], key)
  }

  predicate IsRestoreOf(a: Audit, snapshot: nat, actor: string) { a.restoredFrom == Some(snapshot) && a.actor == actor }

  function FindRestore(audits: seq<Audit>, snapshot: nat, actor: string): (r: Option<nat>)
    ensures r.Some? ==> r.value < |audits| && IsRestoreOf(audits[r.value], snapshot, actor)
    ensures r.None? ==> forall i :: 0 <= i < |audits| ==> !IsRestoreOf(audits[i], snapshot, actor)
  {
    if audits == [] then None
    else if IsRestoreOf(audits[|audits| - 1], snapshot, actor) then Some(|audits| - 1)
    else FindRestore(audits[..|audits| - 1], snapshot, actor)
  }

  predicate IsResetOf(a: Audit, vehicle: string, actor: string, at: int) {
    a.vehicle == vehicle && a.action == RESET && a.actor == actor && a.at == at
  }

  /** The latest reset of the vehicle by the actor at that time. */
  function FindReset(audits: seq<Audit>, vehicle: string, actor: string, at: int): (r: Option<nat>)
    ensures r.Some? ==> r.value < |audits| && IsResetOf(audits[r.value], vehicle, actor, at)
    ensures r.None? ==> forall i :: 0 <= i < |audits| ==> !IsResetOf(audits[i], vehicle, actor, at)
  {
    if audits == [] then None
    else if IsResetOf(audits[|audits| - 1], vehicle, actor, at) then Some(|audits| - 1)
    else FindReset(audits[..|audits| - 1], vehicle, actor, at)
  }

  // ---------------------------------------------------------------- the operations

  function PolicyOf(policies: PolicyTable, vehicle: string): Option<Policy> {
    if vehicle in policies then Some(policies[vehicle]) else None
  }

  /** The vehicle's active policy, else the active default. */
  function Resolve(db: Db, vehicle: string): Option<Policy> {
    if vehicle in db.policies && db.policies[vehicle].active then Some(db.policies[vehicle])
    else if DEFAULT_VEHICLE in db.policies && db.policies[DEFAULT_VEHICLE].active then Some(db.policies[DEFAULT_VEHICLE])
    else None
  }

  /** Is the policy still as the audited operation left it? */
  predicate Unchanged(policy: Policy, a: Audit) {
    policy.thresholds == a.thresholds && policy.active == (a.action != RESET) && policy.actor == a.actor && policy.at == a.at
  }

  /** A request whose key is on an audit: answer with the policy as it is, or refuse. */
  function Repeated(db: Db, a: Audit, sameRequest: bool): Result<Policy> {
    if sameRequest && a.vehicle in db.policies && Unchanged(db.policies[a.vehicle], a) then Ok(db.policies[a.vehicle]) else Refused
  }

  function Save(db: Db, vehicle: string, policy: Policy, action: Action, key: Option<string>, restoredFrom: Option<nat>): Db {
    db.(policies := db.policies[vehicle := policy],
        audits := db.audits + [Audit(vehicle, policy.thresholds, action, policy.actor, policy.at, key, restoredFrom)])
  }

  /** bindRequestKey on a stored audit: once per audit, and only where audits may be updated. */
  function BindKey(db: Db, i: nat, key: string): Option<Db>
    requires i < |db.audits|
  {
    if db.frozen || db.audits[i].key.Some? then None else Some(db.(audits := db.audits[i := db.audits[i].(key := Some(key))]))
  }

  function Upsert(db: Db, vehicle: Option<string>, t: Thresholds, actor: Option<string>, key: Option<string>, now: int): (Db, Result<Policy>) {
    if !Required(vehicle, 120) || !Required(actor, 120) || !Required(key, 160) then (db, Refused)
    else
      var prior := FindByKey(db.audits, key.value);
      if prior.Some? then
        var a := db.audits[prior.value];
        (db, Repeated(db, a, a.action == UPSERT && a.actor == actor.value && a.vehicle == vehicle.value && a.thresholds == t))
      else if !Ordered(t) then (db, Refused)
      else (Save(db, vehicle.value, Policy(t, true, actor.value, now), UPSERT, key, None), Ok(Policy(t, true, actor.value, now)))
  }

  /** reset after its key check. */
  function ResetRow(db: Db, vehicle: string, actor: string, key: Option<string>, now: int): (Db, Result<Policy>) {
    if vehicle !in db.policies then (db, Refused)
    else
      var policy := db.policies[vehicle];
      if policy.active then
        var saved := policy.(active := false, actor := actor, at := now);
        (Save(db, vehicle, saved, RESET, key, None), Ok(saved))
      else if key.None? then (db, if policy.actor == actor then Ok(policy) else Refused)
      else
        var prior := FindReset(db.audits, vehicle, actor, policy.at);
        var bound := if prior.Some? then BindKey(db, prior.value, key.value) else None;
        if bound.Some? then (bound.value, Ok(policy)) else (db, Refused)
  }

  function Reset(db: Db, vehicle: Option<string>, actor: Option<string>, key: Option<string>, now: int): (Db, Result<Policy>) {
    if !Required(vehicle, 120) || !Required(actor, 120) || vehicle.value == DEFAULT_VEHICLE
       || (key.Some? && !Required(key, 160)) then (db, Refused)
    else
      var prior := if key.Some? then FindByKey(db.audits, key.value) else None;
      if prior.Some? then
        var a := db.audits[prior.value];
        (db, Repeated(db, a, a.action == RESET && a.actor == actor.value && a.vehicle == vehicle.value))
      else ResetRow(db, vehicle.value, actor.value, key, now)
  }

  /** restore after its key check. */
  function RestoreRow(db: Db, i: nat, actor: string, key: Option<string>, now: int): (Db, Result<Policy>) {
    if i >= |db.audits| then (db, Refused)
    else
      var snapshot := db.audits[i];
      var prior := FindRestore(db.audits, i, actor);
      if prior.Some? then
        var a := db.audits[prior.value];
        if snapshot.vehicle in db.policies && db.policies[snapshot.vehicle].thresholds == a.thresholds
           && db.policies[snapshot.vehicle].active && db.policies[snapshot.vehicle].actor == actor then
          if key.None? then (db, Ok(db.policies[snapshot.vehicle]))
          else
            var bound := BindKey(db, prior.value, key.value);
            if bound.Some? then (bound.value, Ok(db.policies[snapshot.vehicle])) else (db, Refused)
        else (db, Refused)
      else if !Ordered(snapshot.thresholds) then (db, Refused)
      else
        var saved := Policy(snapshot.thresholds, true, actor, now);
        (Save(db, snapshot.vehicle, saved, RESTORE, key, Some(i)), Ok(saved))
  }

  function Restore(db: Db, i: nat, actor: Option<string>, key: Option<string>, now: int): (Db, Result<Policy>) {
    if !Required(actor, 120) || (key.Some? && !Required(key, 160)) then (db, Refused)
    else
      var prior := if key.Some? then FindByKey(db.audits, key.value) else None;
      if prior.Some? then
        var a := db.audits[prior.value];
        (db, Repeated(db, a, a.action == RESTORE && a.actor == actor.value && a.restoredFrom == Some(i)))
      else RestoreRow(db, i, actor.value, key, now)
  }

  function Apply(db: Db, step: Step): (Db, Result<Policy>) {
    match step
    case DoUpsert(vehicle, t, actor, key, now) => Upsert(db, vehicle, t, actor, key, now)
    case DoReset(vehicle, actor, key, now) => Reset(db, vehicle, actor, key, now)
    case DoRestore(i, actor, key, now) => Restore(db, i, actor, key, now)
  }

  function Run(db: Db, steps: seq<Step>): Db {
    if steps == [] then db else Apply(Run(db, steps[..|steps| - 1]), steps[|steps| - 1]).0
  }

  // ---------------------------------------------------------------- replaying the trail

  /**
   * The policy an auditor reconstructs: an upsert sets the thresholds it recorded, a reset
   * deactivates what was there, a restore brings back those of the audit it names.
   */
  function Replayed(audits: seq<Audit>, vehicle: string): Option<Policy> {
    if audits == [] then (if vehicle == DEFAULT_VEHICLE then Some(SEED) else None)
    else
      var front, a := audits[..|audits| - 1], audits[|audits| - 1];
      if a.vehicle != vehicle then Replayed(front, vehicle)
      else match a.action
        case UPSERT => Some(Policy(a.thresholds, true, a.actor, a.at))
        case RESET =>
          var before := Replayed(front, vehicle);
          if before.Some? then Some(before.value.(active := false, actor := a.actor, at := a.at)) else None
        case RESTORE =>
          if a.restoredFrom.Some? && a.restoredFrom.value < |front|
          then Some(Policy(front[a.restoredFrom.value].thresholds, true, a.actor, a.at)) else None
  }

  // ---------------------------------------------------------------- the invariant

  ghost predicate TableOk(db: Db) {
    forall v :: PolicyOf(db.policies, v) == Replayed(db.audits, v)
  }

  predicate AuditOk(a: Audit) {
    && Ordered(a.thresholds) && (a.action == RESET ==> a.vehicle != DEFAULT_VEHICLE)
    && (a.action != RESTORE ==> a.restoredFrom.None?)
  }

  predicate RowsOk(policies: PolicyTable, audits: seq<Audit>) {
    && (forall v :: v in policies ==> Ordered(policies[v].thresholds))
    && (forall i :: 0 <= i < |audits| ==> AuditOk(audits[i]))
    && DEFAULT_VEHICLE in policies && policies[DEFAULT_VEHICLE].active
  }

  predicate KeysUnique(audits: seq<Audit>) {
    forall i, j :: 0 <= i < j < |audits| && audits[i].key.Some? ==> audits[i].key != audits[j].key
  }

  predicate RestoresUnique(audits: seq<Audit>) {
    forall i, j :: 0 <= i < j < |audits| && audits[i].restoredFrom.Some? ==>
      !(audits[i].restoredFrom == audits[j].restoredFrom && audits[i].actor == audits[j].actor)
  }

  ghost predicate Inv(db: Db) {
    TableOk(db) && RowsOk(db.policies, db.audits) && KeysUnique(db.audits) && RestoresUnique(db.audits)
  }

  // ---------------------------------------------------------------- what an operation does to the trail

  /** Nothing; or one saved policy with its audit; or one key bound to an audit without one. */
  predicate Saves(db: Db, after: Db, a: Audit, policy: Policy) {
    && after == db.(policies := db.policies[a.vehicle := policy], audits := db.audits + [a])
    && policy == Policy(a.thresholds, a.action != RESET, a.actor, a.at)
    && AuditOk(a)
    && (a.key.Some? ==> FindByKey(db.audits, a.key.value).None?)
    && match a.action
       case UPSERT => a.restoredFrom.None?
       case RESET => a.restoredFrom.None? && a.vehicle in db.policies && db.policies[a.vehicle].thresholds == a.thresholds
       case RESTORE =>
         && a.restoredFrom.Some? && a.restoredFrom.value < |db.audits|
         && FindRestore(db.audits, a.restoredFrom.value, a.actor).None?
         && db.audits[a.restoredFrom.value].thresholds == a.thresholds
         && db.audits[a.restoredFrom.value].vehicle == a.vehicle
  }

  predicate Binds(db: Db, after: Db, i: nat, key: string) {
    && !db.frozen && i < |db.audits| && db.audits[i].key.None? && FindByKey(db.audits, key).None?
    && after == db.(audits := db.audits[i := db.audits[i].(key := Some(key))])
  }

  ghost predicate Changes(db: Db, after: Db, key: Option<string>) {
    || after == db
    || (exists a, policy :: Saves(db, after, a, policy) && a.key == key)
    || (key.Some? && exists i: nat :: Binds(db, after, i, key.value))
  }

  lemma SavesSeen(db: Db, after: Db, vehicle: string, policy: Policy, action: Action, key: Option<string>, restoredFrom: Option<nat>)
    requires after == Save(db, vehicle, policy, action, key, restoredFrom)
    requires Saves(db, after, Audit(vehicle, policy.thresholds, action, policy.actor, policy.at, key, restoredFrom), policy)
    ensures Changes(db, after, key)
  {
  }

  lemma UpsertChanges(db: Db, vehicle: Option<string>, t: Thresholds, actor: Option<string>, key: Option<string>, now: int)
    ensures Changes(db, Upsert(db, vehicle, t, actor, key, now).0, key)
  {
    var after := Upsert(db, vehicle, t, actor, key, now).0;
    RequiredIsPresent(vehicle, 120);
    RequiredIsPresent(actor, 120);
    RequiredIsPresent(key, 160);
    hide Required, FindByKey, Ordered, Repeated;
    if after != db { SavesSeen(db, after, vehicle.value, Policy(t, true, actor.value, now), UPSERT, key, None); }
  }

  lemma ResetChanges(db: Db, vehicle: string, actor: string, key: Option<string>, now: int)
    requires RowsOk(db.policies, db.audits) && vehicle != DEFAULT_VEHICLE
    requires key.Some? ==> FindByKey(db.audits, key.value).None?
    ensures Changes(db, ResetRow(db, vehicle, actor, key, now).0, key)
  {
    hide Ordered, FindReset, IsResetOf;
    var after := ResetRow(db, vehicle, actor, key, now).0;
    if after != db {
      if db.policies[vehicle].active {
        SavesSeen(db, after, vehicle, db.policies[vehicle].(active := false, actor := actor, at := now), RESET, key, None);
      } else {
        var i := FindReset(db.audits, vehicle, actor, db.policies[vehicle].at).value;
        assert Binds(db, after, i, key.value);
      }
    }
  }

  lemma RestoreChanges(db: Db, i: nat, actor: string, key: Option<string>, now: int)
    requires RowsOk(db.policies, db.audits)
    requires key.Some? ==> FindByKey(db.audits, key.value).None?
    ensures Changes(db, RestoreRow(db, i, actor, key, now).0, key)
  {
    hide Ordered, FindRestore, IsRestoreOf;
    var after := RestoreRow(db, i, actor, key, now).0;
    if after != db {
      var prior := FindRestore(db.audits, i, actor);
      if prior.Some? {
        assert Binds(db, after, prior.value, key.value);
      } else {
        SavesSeen(db, after, db.audits[i].vehicle, Policy(db.audits[i].thresholds, true, actor, now), RESTORE, key, Some(i));
      }
    }
  }

  lemma StepChanges(db: Db, step: Step)
    requires RowsOk(db.policies, db.audits)
    ensures Changes(db, Apply(db, step).0, step.key)
  {
    RequiredIsPresent(step.actor, 120);
    if step.DoReset? { RequiredIsPresent(step.vehicle, 120); }
    hide Required, FindByKey, Repeated, Changes, RowsOk, ResetRow, RestoreRow;
    match step
    case DoUpsert(vehicle, t, actor, key, now) => UpsertChanges(db, vehicle, t, actor, key, now);
    case DoReset(vehicle, actor, key, now) =>
      NothingChanges(db, key);
      if Reset(db, vehicle, actor, key, now).0 != db { ResetChanges(db, vehicle.value, actor.value, key, now); }
    case DoRestore(i, actor, key, now) =>
      NothingChanges(db, key);
      if Restore(db, i, actor, key, now).0 != db { RestoreChanges(db, i, actor.value, key, now); }
  }

  lemma NothingChanges(db: Db, key: Option<string>)
    ensures Changes(db, db, key)
  {
  }

  // ---------------------------------------------------------------- every step keeps the invariant

  lemma SaveKeepsTable(db: Db, after: Db, a: Audit, policy: Policy)
    requires TableOk(db) && Saves(db, after, a, policy)
    ensures TableOk(after)
  {
    assert (db.audits + [a])[..|db.audits|] == db.audits;
    hide Ordered, FindByKey, FindRestore;
    forall v ensures PolicyOf(after.policies, v) == Replayed(after.audits, v) {
      assert PolicyOf(db.policies, v) == Replayed(db.audits, v);
    }
  }

  lemma {:induction false} ReplayIgnoresKeys(audits: seq<Audit>, i: nat, key: Option<string>, vehicle: string)
    requires i < |audits|
    ensures Replayed(audits[i := audits[i].(key := key)], vehicle) == Replayed(audits, vehicle)
  {
    var changed := audits[i := audits[i].(key := key)];
    var front := audits[..|audits| - 1];
    if i < |front| {
      ReplayIgnoresKeys(front, i, key, vehicle);
      assert changed[..|front|] == front[i := front[i].(key := key)];
    } else {
      assert changed[..|front|] == front;
    }
  }

  lemma BindKeepsTable(db: Db, after: Db, i: nat, key: string)
    requires TableOk(db) && Binds(db, after, i, key)
    ensures TableOk(after)
  {
    forall v ensures PolicyOf(after.policies, v) == Replayed(after.audits, v) {
      assert PolicyOf(db.policies, v) == Replayed(db.audits, v);
      ReplayIgnoresKeys(db.audits, i, Some(key), v);
    }
  }

  lemma SaveKeepsRows(db: Db, after: Db, a: Audit, policy: Policy)
    requires RowsOk(db.policies, db.audits) && KeysUnique(db.audits) && RestoresUnique(db.audits) && Saves(db, after, a, policy)
    ensures RowsOk(after.policies, after.audits) && KeysUnique(after.audits) && RestoresUnique(after.audits)
  {
    hide Ordered, FindByKey, FindRestore;
    assert KeysUnique(after.audits);
    assert RestoresUnique(after.audits) by {
      if a.restoredFrom.Some? {
        forall i | 0 <= i < |db.audits| ensures !(db.audits[i].restoredFrom == a.restoredFrom && db.audits[i].actor == a.actor) {
          assert !IsRestoreOf(db.audits[i], a.restoredFrom.value, a.actor);
        }
      }
    }
  }

  lemma BindKeepsRows(db: Db, after: Db, i: nat, key: string)
    requires RowsOk(db.policies, db.audits) && KeysUnique(db.audits) && RestoresUnique(db.audits) && Binds(db, after, i, key)
    ensures RowsOk(after.policies, after.audits) && KeysUnique(after.audits) && RestoresUnique(after.audits)
  {
    hide Ordered, FindByKey;
  }

  lemma StepKeepsInv(db: Db, step: Step)
    requires Inv(db)
    ensures Inv(Apply(db, step).0)
  {
    StepChanges(db, step);
    var after := Apply(db, step).0;
    hide Apply, RowsOk, KeysUnique, RestoresUnique, TableOk, Saves, Binds;
    if after != db {
      if a, policy :| Saves(db, after, a, policy) && a.key == step.key {
        SaveKeepsTable(db, after, a, policy);
        SaveKeepsRows(db, after, a, policy);
      } else {
        var i: nat :| Binds(db, after, i, step.key.value);
        BindKeepsTable(db, after, i, step.key.value);
        BindKeepsRows(db, after, i, step.key.value);
      }
    }
  }

  lemma InitIsOk(frozen: bool)
    ensures Inv(Init(frozen))
  {
  }

  lemma {:induction false} RunKeepsInv(db: Db, steps: seq<Step>)
    requires Inv(db)
    ensures Inv(Run(db, steps))
  {
    if steps != [] {
      RunKeepsInv(db, steps[..|steps| - 1]);
      StepKeepsInv(Run(db, steps[..|steps| - 1]), steps[|steps| - 1]);
    }
  }

  // ---------------------------------------------------------------- main results

  /** The table is the replay of its audit trail, for every vehicle after every run. */
  lemma {:induction false} TableIsReplay(frozen: bool, steps: seq<Step>, vehicle: string)
    ensures var db := Run(Init(frozen), steps);
            PolicyOf(db.policies, vehicle) == Replayed(db.audits, vehicle)
  {
    InitIsOk(frozen);
    RunKeepsInv(Init(frozen), steps);
    hide Run, Replayed;
  }

  /** In every run, thresholds satisfy 0 <= close < open <= critical in the table and in every snapshot. */
  lemma {:induction false} ThresholdsAreOrdered(frozen: bool, steps: seq<Step>)
    ensures var db := Run(Init(frozen), steps);
            && (forall v :: v in db.policies ==> Ordered(db.policies[v].thresholds))
            && (forall i :: 0 <= i < |db.audits| ==> Ordered(db.audits[i].thresholds))
  {
    InitIsOk(frozen);
    RunKeepsInv(Init(frozen), steps);
    var db := Run(Init(frozen), steps);
    hide Run, Ordered;
    forall i | 0 <= i < |db.audits| ensures Ordered(db.audits[i].thresholds) { assert AuditOk(db.audits[i]); }
  }

  /** In every run, an actor restores a snapshot at most once, and a key is on at most one audit. */
  lemma {:induction false} OneRestorePerSnapshotAndActor(frozen: bool, steps: seq<Step>, i: nat, j: nat)
    requires i < j < |Run(Init(frozen), steps).audits|
    ensures var audits := Run(Init(frozen), steps).audits;
            && (audits[i].restoredFrom.Some? && audits[i].restoredFrom == audits[j].restoredFrom ==> audits[i].actor != audits[j].actor)
            && (audits[i].key.Some? ==> audits[i].key != audits[j].key)
  {
    InitIsOk(frozen);
    RunKeepsInv(Init(frozen), steps);
    hide Run;
  }

  /** resolve never fails: it returns the vehicle's active policy, else the default, which no run deactivates. */
  lemma {:induction false} ResolveNeverFails(frozen: bool, steps: seq<Step>, vehicle: string)
    ensures var db := Run(Init(frozen), steps);
            var p := Resolve(db, vehicle);
            && p.Some? && p.value.active && Ordered(p.value.thresholds)
            && p == if Replayed(db.audits, vehicle).Some? && Replayed(db.audits, vehicle).value.active
                    then Replayed(db.audits, vehicle) else Replayed(db.audits, DEFAULT_VEHICLE)
  {
    InitIsOk(frozen);
    RunKeepsInv(Init(frozen), steps);
    TableIsReplay(frozen, steps, vehicle);
    TableIsReplay(frozen, steps, DEFAULT_VEHICLE);
    hide Run, Replayed, Ordered;
  }

  lemma StepKeepsKey(db: Db, step: Step, key: string)
    requires RowsOk(db.policies, db.audits) && FindByKey(db.audits, key).Some?
    ensures FindByKey(Apply(db, step).0.audits, key).Some?
    ensures step.key == Some(key) ==> Apply(db, step).0 == db
  {
    var i := FindByKey(db.audits, key).value;
    StepChanges(db, step);
    var after := Apply(db, step).0;
    assert step.key == Some(key) ==> after == db by { hide Ordered, Required; }
    hide Apply, FindByKey, RowsOk;
    if after != db { assert after.audits[i].key == Some(key); }
  }

  /** A key on an audit is used up: in every continuation, any operation under it changes nothing. */
  lemma {:induction false} UsedKeyChangesNothing(db: Db, steps: seq<Step>, step: Step)
    requires Inv(db) && step.key.Some? && FindByKey(db.audits, step.key.value).Some?
    ensures FindByKey(Run(db, steps).audits, step.key.value).Some?
    ensures Apply(Run(db, steps), step).0 == Run(db, steps)
  {
    if steps != [] {
      UsedKeyChangesNothing(db, steps[..|steps| - 1], step);
      RunKeepsInv(db, steps[..|steps| - 1]);
      StepKeepsKey(Run(db, steps[..|steps| - 1]), steps[|steps| - 1], step.key.value);
    }
    RunKeepsInv(db, steps);
    StepKeepsKey(Run(db, steps), step, step.key.value);
  }

  /** An operation that succeeds under a fresh key leaves the key on an audit of its own kind. */
  lemma {:induction false} SuccessUsesKey(db: Db, step: Step)
    requires Inv(db) && step.key.Some? && Apply(db, step).1.Ok?
    ensures FindByKey(Apply(db, step).0.audits, step.key.value).Some?
  {
    StepChanges(db, step);
    var after := Apply(db, step).0;
    if after == db {
      hide Required, Ordered, Changes;
      assert FindByKey(db.audits, step.key.value).Some?;
    } else {
      hide Apply, Inv, FindByKey;
      if a, policy :| Saves(db, after, a, policy) && a.key == step.key {
        assert after.audits[|db.audits|].key == step.key;
      } else {
        var i: nat :| Binds(db, after, i, step.key.value);
        assert after.audits[i].key == step.key;
      }
    }
  }

  lemma UpsertRetry(db: Db, vehicle: Option<string>, t: Thresholds, actor: Option<string>, key: Option<string>, now: int, again: int)
    requires Upsert(db, vehicle, t, actor, key, now).1.Ok? && |Upsert(db, vehicle, t, actor, key, now).0.audits| > |db.audits|
    ensures var (after, reply) := Upsert(db, vehicle, t, actor, key, now); Upsert(after, vehicle, t, actor, key, again) == (after, reply)
  {
    var after := Upsert(db, vehicle, t, actor, key, now).0;
    FoundAtEnd(after.audits, key.value);
    hide Required, Ordered, FindByKey;
  }

  lemma ResetRetry(db: Db, vehicle: Option<string>, actor: Option<string>, key: Option<string>, now: int, again: int)
    requires key.Some? && Reset(db, vehicle, actor, key, now).1.Ok? && |Reset(db, vehicle, actor, key, now).0.audits| > |db.audits|
    ensures var (after, reply) := Reset(db, vehicle, actor, key, now); Reset(after, vehicle, actor, key, again) == (after, reply)
  {
    var after := Reset(db, vehicle, actor, key, now).0;
    FoundAtEnd(after.audits, key.value);
    hide Required, Ordered, FindByKey, FindReset;
  }

  lemma RestoreRetry(db: Db, i: nat, actor: Option<string>, key: Option<string>, now: int, again: int)
    requires key.Some? && Restore(db, i, actor, key, now).1.Ok? && |Restore(db, i, actor, key, now).0.audits| > |db.audits|
    ensures var (after, reply) := Restore(db, i, actor, key, now); Restore(after, i, actor, key, again) == (after, reply)
  {
    var after := Restore(db, i, actor, key, now).0;
    FoundAtEnd(after.audits, key.value);
    hide Required, Ordered, FindByKey, FindRestore;
  }

  /** Repeating a keyed upsert, reset or first restore at once answers with the policy it saved. */
  lemma {:induction false} ImmediateRetry(db: Db, step: Step, again: int)
    requires step.key.Some? && Apply(db, step).1.Ok? && |Apply(db, step).0.audits| > |db.audits|
    ensures var (after, reply) := Apply(db, step);
            Apply(after, step.(now := again)) == (after, reply)
  {
    hide Upsert, Reset, Restore;
    match step
    case DoUpsert(vehicle, t, actor, key, now) => UpsertRetry(db, vehicle, t, actor, key, now, again);
    case DoReset(vehicle, actor, key, now) => ResetRetry(db, vehicle, actor, key, now, again);
    case DoRestore(i, actor, key, now) => RestoreRetry(db, i, actor, key, now, again);
  }

  // ---------------------------------------------------------------- which operations are accepted

  ghost predicate KeyUnused(db: Db, key: Option<string>) {
    key.Some? ==> forall i :: 0 <= i < |db.audits| ==> db.audits[i].key != key
  }

  /** What saving a policy leaves: that policy, and its snapshot at the end of the trail. */
  predicate SavedAs(db: Db, after: Db, vehicle: string, policy: Policy, action: Action, key: Option<string>, restoredFrom: Option<nat>) {
    && after.frozen == db.frozen && after.policies == db.policies[vehicle := policy]
    && after.audits == db.audits + [Audit(vehicle, policy.thresholds, action, policy.actor, policy.at, key, restoredFrom)]
  }

  /** Under an unused key, an upsert is saved exactly when its texts are in order and its thresholds ordered. */
  lemma {:induction false} UpsertsExactly(db: Db, vehicle: Option<string>, t: Thresholds, actor: Option<string>, key: Option<string>, now: int)
    requires KeyUnused(db, key)
    ensures var (after, reply) := Upsert(db, vehicle, t, actor, key, now);
            var accepted := && Required(vehicle, 120) && Required(actor, 120) && Required(key, 160)
                            && t.deviationOpen.Finite? && t.deviationClose.Finite? && t.deviationCritical.Finite?
                            && 0.0 <= t.deviationClose.value < t.deviationOpen.value <= t.deviationCritical.value
                            && 0 <= t.delayClose < t.delayOpen <= t.delayCritical;
            && (if accepted then reply == Ok(Policy(t, true, actor.value, now)) else reply == Refused && after == db)
            && (accepted ==> SavedAs(db, after, vehicle.value, Policy(t, true, actor.value, now), UPSERT, key, None))
  {
    RequiredIsPresent(key, 160);
    RequiredIsPresent(actor, 120);
    RequiredIsPresent(vehicle, 120);
    hide Required, FindByKey;
  }

  /**
   * Under an unused key or none, a reset deactivates a vehicle's active policy, keeping its
   * thresholds; an inactive one answers an unkeyed reset by the operator who reset it. The default
   * policy cannot be reset.
   */
  lemma {:induction false} ResetsExactly(db: Db, vehicle: Option<string>, actor: Option<string>, key: Option<string>, now: int)
    requires KeyUnused(db, key)
    requires vehicle.Some? && vehicle.value in db.policies && !db.policies[vehicle.value].active ==> key.None?
    ensures var (after, reply) := Reset(db, vehicle, actor, key, now);
            var valid := && Required(vehicle, 120) && Required(actor, 120) && (key.Some? ==> Required(key, 160))
                         && vehicle.value != "*" && vehicle.value in db.policies;
            && (valid && db.policies[vehicle.value].active ==>
                  var saved := Policy(db.policies[vehicle.value].thresholds, false, actor.value, now);
                  reply == Ok(saved) && SavedAs(db, after, vehicle.value, saved, RESET, key, None))
            && (!(valid && db.policies[vehicle.value].active) ==>
                  && after == db
                  && reply == if valid && db.policies[vehicle.value].actor == actor.value then Ok(db.policies[vehicle.value]) else Refused)
  {
    RequiredIsPresent(actor, 120);
    RequiredIsPresent(vehicle, 120);
    hide Required, FindByKey, FindReset;
  }

  /** Under an unused key or none, an operator's first restore of an audit brings its thresholds back, active. */
  lemma {:induction false} RestoresExactly(db: Db, i: nat, actor: Option<string>, key: Option<string>, now: int)
    requires Inv(db) && KeyUnused(db, key) && forall j :: 0 <= j < |db.audits| ==> !(db.audits[j].restoredFrom == Some(i) && Some(db.audits[j].actor) == actor)
    ensures var (after, reply) := Restore(db, i, actor, key, now);
            var accepted := Required(actor, 120) && (key.Some? ==> Required(key, 160)) && i < |db.audits|;
            && (if accepted then reply == Ok(Policy(db.audits[i].thresholds, true, actor.value, now)) else reply == Refused && after == db)
            && (accepted ==> SavedAs(db, after, db.audits[i].vehicle, Policy(db.audits[i].thresholds, true, actor.value, now), RESTORE, key, Some(i)))
  {
    RequiredIsPresent(actor, 120);
    if i < |db.audits| { assert AuditOk(db.audits[i]); }
    hide Required, FindByKey, FindRestore, TableOk, KeysUnique, RestoresUnique, Ordered;
  }

  // ---------------------------------------------------------------- keyed repeats in any continuation

  /** The step asks for what the audit records. */
  predicate Matches(step: Step, a: Audit) {
    && Some(a.actor) == step.actor
    && match step
       case DoUpsert(vehicle, t, _, _, _) => a.action == UPSERT && Some(a.vehicle) == vehicle && a.thresholds == t
       case DoReset(vehicle, _, _, _) => a.action == RESET && Some(a.vehicle) == vehicle
       case DoRestore(i, _, _, _) => a.action == RESTORE && a.restoredFrom == Some(i)
  }

  /** Its texts pass the checks every operation starts with. */
  predicate Admissible(step: Step) {
    && Required(step.actor, 120) && Required(step.key, 160)
    && (step.DoUpsert? ==> Required(step.vehicle, 120))
    && (step.DoReset? ==> Required(step.vehicle, 120) && step.vehicle != Some(DEFAULT_VEHICLE))
  }

  lemma RepeatAnswers(db: Db, step: Step, i: nat)
    requires Admissible(step) && step.key.Some? && FindByKey(db.audits, step.key.value) == Some(i) && i < |db.audits|
    requires Matches(step, db.audits[i])
    ensures Apply(db, step) == (db, Repeated(db, db.audits[i], true))
  {
    hide Required, FindByKey, Repeated;
  }

  lemma HolderIsUnique(audits: seq<Audit>, i: nat, key: string)
    requires KeysUnique(audits) && i < |audits| && audits[i].key == Some(key)
    ensures FindByKey(audits, key) == Some(i)
  {
    var found := FindByKey(audits, key);
    hide FindByKey;
  }

  /** A success is admissible, and puts the key on an audit of just this request. */
  lemma SuccessIsRecorded(db: Db, step: Step) returns (i: nat)
    requires RowsOk(db.policies, db.audits) && step.key.Some? && Apply(db, step).1.Ok?
    ensures Admissible(step)
    ensures var after := Apply(db, step).0.audits; i < |after| && after[i].key == step.key && Matches(step, after[i])
    ensures |Apply(db, step).0.audits| > |db.audits| ==>
              var a := Apply(db, step).0.audits[i];
              Apply(db, step).1 == Ok(Policy(a.thresholds, a.action != RESET, a.actor, a.at))
  {
    RequiredIsPresent(step.actor, 120);
    if step.DoUpsert? || step.DoReset? { RequiredIsPresent(step.vehicle, 120); }
    hide Required, FindByKey, Ordered, FindReset, FindRestore;
    var prior := FindByKey(db.audits, step.key.value);
    if prior.Some? {
      i := prior.value;
    } else if |Apply(db, step).0.audits| > |db.audits| {
      i := |db.audits|;
    } else if step.DoReset? {
      i := FindReset(db.audits, step.vehicle.value, step.actor.value, db.policies[step.vehicle.value].at).value;
    } else {
      i := FindRestore(db.audits, step.audit, step.actor.value).value;
      assert AuditOk(db.audits[i]);
    }
  }

  /** An audit with a key never changes. */
  lemma {:induction false} KeyedAuditStays(db: Db, steps: seq<Step>, i: nat)
    requires Inv(db) && i < |db.audits| && db.audits[i].key.Some?
    ensures i < |Run(db, steps).audits| && Run(db, steps).audits[i] == db.audits[i]
  {
    if steps != [] {
      KeyedAuditStays(db, steps[..|steps| - 1], i);
      RunKeepsInv(db, steps[..|steps| - 1]);
      StepChanges(Run(db, steps[..|steps| - 1]), steps[|steps| - 1]);
      hide Apply, Inv;
    }
  }

  /**
   * A keyed success repeated after any continuation changes nothing. It answers with the policy
   * exactly when that is still as the audited operation left it, and is refused otherwise; if the
   * first call saved a policy, that answer is the first answer.
   */
  lemma {:induction false} KeyedRepeat(db: Db, step: Step, steps: seq<Step>, again: int) returns (i: nat)
    requires Inv(db) && step.key.Some? && Apply(db, step).1.Ok?
    ensures var (after, first) := Apply(db, step);
            var later := Run(after, steps);
            && i < |after.audits| && i < |later.audits| && later.audits[i] == after.audits[i]
            && var a := later.audits[i];
            && a.key == step.key && Matches(step, a)
            && Apply(later, step.(now := again)).0 == later
            && Apply(later, step.(now := again)).1 ==
                 (if a.vehicle in later.policies && Unchanged(later.policies[a.vehicle], a) then Ok(later.policies[a.vehicle]) else Refused)
            && (|after.audits| > |db.audits| && Apply(later, step.(now := again)).1.Ok? ==> Apply(later, step.(now := again)).1 == first)
  {
    var after := Apply(db, step).0;
    StepKeepsInv(db, step);
    i := SuccessIsRecorded(db, step);
    KeyedAuditStays(after, steps, i);
    RunKeepsInv(after, steps);
    var later := Run(after, steps);
    HolderIsUnique(later.audits, i, step.key.value);
    hide Inv, Run, Apply, FindByKey, Required;
    RepeatAnswers(later, step.(now := again), i);
  }

  // ---------------------------------------------------------------- adding a key later

  lemma FoundAtEnd(audits: seq<Audit>, key: string)
    requires audits != [] && audits[|audits| - 1].key == Some(key)
    ensures FindByKey(audits, key) == Some(|audits| - 1)
  {
  }

  /** Which steps ask to put a key on an operation already audited without one. */
  predicate AddsKeyToReset(db: Db, step: Step) {
    && step.DoReset? && Required(step.vehicle, 120) && Required(step.actor, 120) && Required(step.key, 160)
    && step.vehicle.value in db.policies && !db.policies[step.vehicle.value].active
    && FindByKey(db.audits, step.key.value).None?
  }

  predicate AddsKeyToRestore(db: Db, step: Step) {
    && step.DoRestore? && Required(step.actor, 120) && Required(step.key, 160)
    && step.audit < |db.audits| && FindRestore(db.audits, step.audit, step.actor.value).Some?
    && FindByKey(db.audits, step.key.value).None?
  }

  /**
   * Adding a key to a finished reset works exactly when the actor's reset is the policy's
   * last one, still has no key, and audits may be updated - so never in the deployed schema.
   */
  lemma {:induction false} KeyForFinishedReset(db: Db, step: Step)
    requires Inv(db) && AddsKeyToReset(db, step)
    ensures Apply(db, step).1.Ok? <==>
            var prior := FindReset(db.audits, step.vehicle.value, step.actor.value, db.policies[step.vehicle.value].at);
            !db.frozen && prior.Some? && db.audits[prior.value].key.None?
    ensures Apply(db, step).1.Refused? ==> Apply(db, step).0 == db
  {
    assert PolicyOf(db.policies, DEFAULT_VEHICLE).Some? && db.policies[DEFAULT_VEHICLE].active;
    RequiredIsPresent(step.vehicle, 120);
    RequiredIsPresent(step.actor, 120);
    RequiredIsPresent(step.key, 160);
    hide FindByKey, FindReset, Required, TableOk, KeysUnique, RestoresUnique, Ordered;
  }

  /** The same for a finished restore, whose policy must also still be as restored. */
  lemma {:induction false} KeyForFinishedRestore(db: Db, step: Step)
    requires Inv(db) && AddsKeyToRestore(db, step)
    ensures Apply(db, step).1.Ok? <==>
            var prior := db.audits[FindRestore(db.audits, step.audit, step.actor.value).value];
            var vehicle := db.audits[step.audit].vehicle;
            && !db.frozen && prior.key.None?
            && vehicle in db.policies && db.policies[vehicle].active
            && db.policies[vehicle].thresholds == prior.thresholds && db.policies[vehicle].actor == step.actor.value
    ensures Apply(db, step).1.Refused? ==> Apply(db, step).0 == db
  {
    RequiredIsPresent(step.actor, 120);
    RequiredIsPresent(step.key, 160);
    hide FindByKey, FindRestore, Required, Inv, Ordered;
  }

  // ---------------------------------------------------------------- runs in which the trigger decides

  function SampleSaved(): Step { DoUpsert(Some("V-1"), SEED.thresholds, Some("ops"), Some("k1"), 1) }

  function SampleReset(): Step { DoReset(Some("V-1"), Some("ops"), None, 2) }

  function SampleRestore(): Step { DoRestore(0, Some("ops"), None, 2) }

  /** A retry that now carries a key. */
  function WithKey(step: Step): Step { step.(key := Some("k2"), now := 3) }

  lemma SampleTexts()
    ensures Required(Some("V-1"), 120) && Required(Some("ops"), 120) && Required(Some("k1"), 160) && Required(Some("k2"), 160)
  {
    assert "V-1"[0] > ' ' && "ops"[0] > ' ' && "k1"[0] > ' ' && "k2"[0] > ' ';
  }

  lemma RunOfTwo(db: Db, a: Step, b: Step)
    ensures Run(db, [a, b]) == Apply(Apply(db, a).0, b).0
  {
    hide Apply;
    assert [a, b][..1] == [a] && [a][..0] == [];
    assert Run(db, [a]) == Apply(Run(db, []), a).0;
  }

  /** After an upsert and an unkeyed reset, the keyed retry of the reset succeeds exactly without the trigger. */
  lemma {:induction false} LateResetKeyNeedsUpdates(frozen: bool)
    ensures var db := Run(Init(frozen), [SampleSaved(), SampleReset()]);
            AddsKeyToReset(db, WithKey(SampleReset())) && (Apply(db, WithKey(SampleReset())).1.Ok? <==> !frozen)
  {
    SampleTexts();
    hide Required;
    RunOfTwo(Init(frozen), SampleSaved(), SampleReset());
    var saved := Apply(Init(frozen), SampleSaved()).0;
    assert saved.audits == [Audit("V-1", SEED.thresholds, UPSERT, "ops", 1, Some("k1"), None)];
    var db := Apply(saved, SampleReset()).0;
    assert db.audits == saved.audits + [Audit("V-1", SEED.thresholds, RESET, "ops", 2, None, None)];
  }

  /** After an upsert and an unkeyed restore of it, the keyed retry of the restore succeeds exactly without the trigger. */
  lemma {:induction false} LateRestoreKeyNeedsUpdates(frozen: bool)
    ensures var db := Run(Init(frozen), [SampleSaved(), SampleRestore()]);
            AddsKeyToRestore(db, WithKey(SampleRestore())) && (Apply(db, WithKey(SampleRestore())).1.Ok? <==> !frozen)
  {
    SampleTexts();
    hide Required;
    RunOfTwo(Init(frozen), SampleSaved(), SampleRestore());
    var saved := Apply(Init(frozen), SampleSaved()).0;
    assert saved.audits == [Audit("V-1", SEED.thresholds, UPSERT, "ops", 1, Some("k1"), None)];
    var db := Apply(saved, SampleRestore()).0;
    assert db.audits == saved.audits + [Audit("V-1", SEED.thresholds, RESTORE, "ops", 2, None, Some(0))];
  }

  /** With the trail frozen, every run only appends to it. */
  lemma {:induction false} FrozenTrailOnlyGrows(db: Db, steps: seq<Step>)
    requires Inv(db) && db.frozen
    ensures Run(db, steps).frozen && db.audits <= Run(db, steps).audits
  {
    if steps != [] {
      FrozenTrailOnlyGrows(db, steps[..|steps| - 1]);
      RunKeepsInv(db, steps[..|steps| - 1]);
      StepChanges(Run(db, steps[..|steps| - 1]), steps[|steps| - 1]);
      hide Apply, Inv;
    }
  }

  // ---------------------------------------------------------------- the entity and the service

  class AlertPolicy {
    const vehicle: string
    var row: Policy

    constructor (vehicle: string, row: Policy)
      ensures this.vehicle == vehicle && this.row == row
    {
      this.vehicle := vehicle;
      this.row := row;
    }

    method Update(t: Thresholds, actor: string, now: int) returns (r: Result<()>)
      modifies this
      ensures r.Ok? <==> Ordered(t)
      ensures row == if r.Ok? then Policy(t, true, actor, now) else old(row)
    {
      if !Ordered(t) { return Refused; }
      row := row.(thresholds := t);
      row := row.(at := now, actor := actor);
      row := row.(active := true);
      r := Ok(());
    }

    method Deactivate(actor: string, now: int) returns (r: Result<()>)
      modifies this
      ensures r.Ok? <==> vehicle != DEFAULT_VEHICLE
      ensures row == if r.Ok? then old(row).(active := false, actor := actor, at := now) else old(row)
    {
      if vehicle == DEFAULT_VEHICLE { return Refused; }
      row := row.(active := false);
      row := row.(at := now, actor := actor);
      r := Ok(());
    }
  }

  class AlertPolicyService {
    const frozen: bool
    var policies: PolicyTable
    var audits: seq<Audit>

    ghost function State(): Db
      reads this
    {
      Db(frozen, policies, audits)
    }

    constructor (frozen: bool)
      ensures State() == Init(frozen)
    {
      this.frozen := frozen;
      policies, audits := map[DEFAULT_VEHICLE := SEED], [];
    }

    /** Save the policy and its snapshot. */
    method SaveWithAudit(policy: AlertPolicy, action: Action, key: Option<string>, restoredFrom: Option<nat>)
      modifies this
      ensures State() == Save(old(State()), policy.vehicle, policy.row, action, key, restoredFrom)
    {
      policies := policies[policy.vehicle := policy.row];
      audits := audits + [Audit(policy.vehicle, policy.row.thresholds, action, policy.row.actor, policy.row.at, key, restoredFrom)];
    }

    /** prior.bindRequestKey(requestKey), flushed. */
    method BindRequestKey(i: nat, key: string) returns (r: Result<()>)
      requires i < |audits|
      modifies this`audits
      ensures r.Ok? <==> BindKey(old(State()), i, key).Some?
      ensures State() == if r.Ok? then BindKey(old(State()), i, key).value else old(State())
    {
      if audits[i].key.Some? || frozen { return Refused; }
      audits := audits[i := audits[i].(key := Some(key))];
      r := Ok(());
    }

    method UpsertPolicy(vehicle: Option<string>, t: Thresholds, actor: Option<string>, key: Option<string>, now: int)
      returns (r: Result<Policy>)
      modifies this
      ensures (State(), r) == Upsert(old(State()), vehicle, t, actor, key, now)
    {
      if !Required(vehicle, 120) || !Required(actor, 120) || !Required(key, 160) { return Refused; }
      var prior := FindByKey(audits, key.value);
      if prior.Some? {
        var completed := audits[prior.value];
        if completed.action != UPSERT || completed.actor != actor.value
           || completed.vehicle != vehicle.value || completed.thresholds != t { return Refused; }
        if vehicle.value in policies && Unchanged(policies[vehicle.value], completed) { return Ok(policies[vehicle.value]); }
        return Refused;
      }
      var policy := new AlertPolicy(vehicle.value, if vehicle.value in policies then policies[vehicle.value] else SEED);
      var updated := policy.Update(t, actor.value, now);
      if updated.Refused? { return Refused; }
      SaveWithAudit(policy, UPSERT, key, None);
      r := Ok(policy.row);
    }

    method ResetPolicy(vehicle: Option<string>, actor: Option<string>, key: Option<string>, now: int) returns (r: Result<Policy>)
      modifies this
      ensures (State(), r) == Reset(old(State()), vehicle, actor, key, now)
    {
      if !Required(vehicle, 120) || !Required(actor, 120) || vehicle.value == DEFAULT_VEHICLE { return Refused; }
      var name := vehicle.value;
      if key.Some? {
        if !Required(key, 160) { return Refused; }
        var prior := FindByKey(audits, key.value);
        if prior.Some? {
          var completed := audits[prior.value];
          if completed.action != RESET || completed.actor != actor.value || completed.vehicle != name { return Refused; }
          if name in policies && Unchanged(policies[name], completed) { return Ok(policies[name]); }
          return Refused;
        }
      }
      if name !in policies { return Refused; }
      var policy := new AlertPolicy(name, policies[name]);
      if !policy.row.active {
        if key.Some? {
          var prior := FindReset(audits, name, actor.value, policy.row.at);
          if prior.None? { return Refused; }
          var bound := BindRequestKey(prior.value, key.value);
          return if bound.Ok? then Ok(policy.row) else Refused;
        }
        return if policy.row.actor == actor.value then Ok(policy.row) else Refused;
      }
      var deactivated := policy.Deactivate(actor.value, now);
      SaveWithAudit(policy, RESET, key, None);
      r := Ok(policy.row);
    }

    method RestorePolicy(i: nat, actor: Option<string>, key: Option<string>, now: int) returns (r: Result<Policy>)
      modifies this
      ensures (State(), r) == Restore(old(State()), i, actor, key, now)
    {
      if !Required(actor, 120) { return Refused; }
      if key.Some? {
        if !Required(key, 160) { return Refused; }
        var completed := FindByKey(audits, key.value);
        if completed.Some? {
          var prior := audits[completed.value];
          if prior.action != RESTORE || prior.actor != actor.value || prior.restoredFrom != Some(i) { return Refused; }
          if prior.vehicle in policies && Unchanged(policies[prior.vehicle], prior) { return Ok(policies[prior.vehicle]); }
          return Refused;
        }
      }
      if i >= |audits| { return Refused; }
      var snapshot := audits[i];
      var prior := FindRestore(audits, i, actor.value);
      if prior.Some? {
        if snapshot.vehicle !in policies { return Refused; }
        var current := policies[snapshot.vehicle];
        if current.thresholds != audits[prior.value].thresholds || !current.active || current.actor != actor.value { return Refused; }
        if key.Some? {
          var bound := BindRequestKey(prior.value, key.value);
          if bound.Refused? { return Refused; }
        }
        return Ok(current);
      }
      var policy := new AlertPolicy(snapshot.vehicle, if snapshot.vehicle in policies then policies[snapshot.vehicle] else SEED);
      var updated := policy.Update(snapshot.thresholds, actor.value, now);
      if updated.Refused? { return Refused; }
      SaveWithAudit(policy, RESTORE, key, Some(i));
      r := Ok(policy.row);
    }
  }
}
