/**
 * The transactional outbox: publish attempts with bounded backoff, dead rows, and audited
 * manual retries (api/.../outbox/OutboxEvent.java, OutboxPublishAttempt.java,
 * OutboxRecoveryService.java).
 */
module Outbox {
  import opened Common

  datatype Status = PENDING | PUBLISHED | FAILED

  /** Times are seconds on the one clock the database and the service share. */
  datatype Event = Event(status: Status, attempts: nat, next: real)

  datatype Audit = Audit(event: int, actor: string, key: string)

  datatype System = System(events: map<int, Event>, audits: seq<Audit>, now: real)

  const EMPTY := System(map[], [], 0.0)

  datatype Step =
    | Create(event: int)
    | Publish(event: int, sendOk: bool, elapsed: real, committed: bool)
    | Retry(event: int, actor: Option<string>, key: Option<string>)
    | Tick(elapsed: real)

  const MAX_ATTEMPTS: nat := 20

  // ---------------------------------------------------------------- one row

  /** 1L << shift. */
  function Shifted(shift: nat): nat { if shift == 0 then 1 else 2 * Shifted(shift - 1) }

  function Min(a: nat, b: nat): nat { if a < b then a else b }

  /** Seconds until the next attempt after the given number of failures. */
  function Delay(attempts: nat): nat
    requires attempts > 0
  {
    Min(300, Shifted(Min(attempts - 1, 8)))
  }

  function Failed(e: Event, now: real): Event {
    var attempts := e.attempts + 1;
    if attempts >= MAX_ATTEMPTS then Event(FAILED, attempts, e.next)
    else Event(e.status, attempts, now + Delay(attempts) as real)
  }

  function Retried(now: real): Event { Event(PENDING, 0, now) }

  /** What lockNextPending may return; SKIP LOCKED lets any due row be next. */
  predicate Due(e: Event, now: real) { e.status == PENDING && e.next <= now }

  // ---------------------------------------------------------------- the services

  /** publishNext on a due row: the answer arrives `elapsed` seconds later; a lost commit undoes the row. */
  function Published(s: System, id: int, sendOk: bool, elapsed: real, committed: bool): System
    requires id in s.events
  {
    var later := s.now + elapsed;
    var row := if sendOk then s.events[id].(status := PUBLISHED) else Failed(s.events[id], later);
    s.(now := later, events := if committed then s.events[id := row] else s.events)
  }

  function FindByKey(audits: seq<Audit>, key: string): Option<Audit> {
    if audits == [] then None
    else if audits[|audits| - 1].key == key then Some(audits[|audits| - 1])
    else FindByKey(audits[..|audits| - 1], key)
  }

  function RetryEvent(s: System, id: int, actor: Option<string>, key: Option<string>): (System, Result<Event>) {
    if !Required(actor, 120) || !Required(key, 160) then (s, Refused)
    else
      var prior := FindByKey(s.audits, key.value);
      if prior.Some? then
        (s, if prior.value.event == id && prior.value.actor == actor.value && id in s.events then Ok(s.events[id]) else Refused)
      else if id !in s.events || s.events[id].status != FAILED then (s, Refused)
      else (s.(events := s.events[id := Retried(s.now)], audits := s.audits + [Audit(id, actor.value, key.value)]), Ok(Retried(s.now)))
  }

  function Apply(s: System, step: Step): System {
    match step
    case Create(id) => if id in s.events then s else s.(events := s.events[id := Event(PENDING, 0, s.now)])
    case Publish(id, sendOk, elapsed, committed) =>
      if id in s.events && Due(s.events[id], s.now) && elapsed >= 0.0 then Published(s, id, sendOk, elapsed, committed) else s
    case Retry(id, actor, key) => RetryEvent(s, id, actor, key).0
    case Tick(elapsed) => if elapsed >= 0.0 then s.(now := s.now + elapsed) else s
  }

  function Run(steps: seq<Step>): System {
    if steps == [] then EMPTY else Apply(Run(steps[..|steps| - 1]), steps[|steps| - 1])
  }

  // ---------------------------------------------------------------- what an observer of one row sees

  predicate Revived(before: System, after: System, id: int) {
    id in before.events && id in after.events && before.events[id].status == FAILED && after.events[id].status == PENDING
  }

  predicate FailedOnceMore(before: System, after: System, id: int) {
    id in before.events && id in after.events && after.events[id].attempts > before.events[id].attempts
  }

  /** When the row's failures since its creation or last FAILED -> PENDING transition happened. */
  function Failures(steps: seq<Step>, id: int): seq<real> {
    if steps == [] then []
    else
      var front := steps[..|steps| - 1];
      if Revived(Run(front), Run(steps), id) then []
      else if FailedOnceMore(Run(front), Run(steps), id) then Failures(front, id) + [Run(steps).now]
      else Failures(front, id)
  }

  /** How often the row went from FAILED to PENDING. */
  function Revivals(steps: seq<Step>, id: int): nat {
    if steps == [] then 0
    else Revivals(steps[..|steps| - 1], id) + if Revived(Run(steps[..|steps| - 1]), Run(steps), id) then 1 else 0
  }

  function AuditsOf(audits: seq<Audit>, id: int): seq<Audit> {
    if audits == [] then []
    else if audits[|audits| - 1].event == id then AuditsOf(audits[..|audits| - 1], id) + [audits[|audits| - 1]]
    else AuditsOf(audits[..|audits| - 1], id)
  }

  // ---------------------------------------------------------------- the invariant

  /** Each failure is at least its delay after the one before. */
  predicate Spaced(times: seq<real>) {
    |times| < 2
    || (times[|times| - 1] >= times[|times| - 2] + Delay(|times| - 1) as real && Spaced(times[..|times| - 1]))
  }

  /** What the row and the observed failures say about each other. */
  predicate RowOk(e: Event, times: seq<real>, now: real) {
    && e.attempts == |times| <= MAX_ATTEMPTS && Spaced(times)
    && (e.status == FAILED <==> |times| == MAX_ATTEMPTS)
    && (times != [] ==> times[|times| - 1] <= now)
    && (e.status == PENDING && times != [] ==> e.next >= times[|times| - 1] + Delay(|times|) as real)
  }

  predicate Tracked(steps: seq<Step>, id: int) {
    if id in Run(steps).events then RowOk(Run(steps).events[id], Failures(steps, id), Run(steps).now)
    else Failures(steps, id) == [] && Revivals(steps, id) == 0
  }

  lemma {:induction false} DelayValue(attempts: nat)
    requires 0 < attempts
    ensures Delay(attempts) == if attempts <= 9 then Shifted(attempts - 1) else 256
    ensures 1 <= Delay(attempts) <= 256
  {
    assert Shifted(4) == 16 && Shifted(8) == 256;
    if attempts <= 9 { ShiftedGrows(attempts - 1, 8); }
  }

  lemma {:induction false} ShiftedGrows(a: nat, b: nat)
    requires a <= b
    ensures 1 <= Shifted(a) <= Shifted(b)
    decreases b - a, b
  {
    if a < b { ShiftedGrows(a, b - 1); } else if a > 0 { ShiftedGrows(a - 1, b - 1); }
  }

  /** One step on one row, seen from its observer. */
  lemma RowStep(before: System, step: Step, id: int, times: seq<real>)
    requires id in before.events && RowOk(before.events[id], times, before.now)
    ensures var after := Apply(before, step);
            && id in after.events
            && var seen := if Revived(before, after, id) then [] else if FailedOnceMore(before, after, id) then times + [after.now] else times;
            RowOk(after.events[id], seen, after.now)
  {
    hide Required, FindByKey, Delay;
    var more := times + [Apply(before, step).now];
    assert more[..|times|] == times;
    if step.Publish? && step.event == id && Due(before.events[id], before.now) && step.elapsed >= 0.0 && !step.sendOk && step.committed {
      assert Spaced(more);
    }
  }

  lemma NewRowStep(before: System, step: Step, id: int)
    requires id !in before.events
    ensures var after := Apply(before, step);
            id in after.events ==> RowOk(after.events[id], [], after.now)
  {
    hide Required, FindByKey, Delay;
  }

  lemma {:induction false} RunTracks(steps: seq<Step>, id: int)
    ensures Tracked(steps, id)
  {
    if steps != [] {
      var front := steps[..|steps| - 1];
      RunTracks(front, id);
      hide Apply, RowOk;
      if id in Run(front).events {
        RowStep(Run(front), steps[|steps| - 1], id, Failures(front, id));
      } else {
        NewRowStep(Run(front), steps[|steps| - 1], id);
      }
    }
  }

  // ---------------------------------------------------------------- main results

  function TotalDelay(n: nat): nat { if n == 0 then 0 else TotalDelay(n - 1) + Delay(n) }

  lemma {:induction false} SpacedTotal(times: seq<real>)
    requires times != [] && Spaced(times)
    ensures times[|times| - 1] - times[0] >= TotalDelay(|times| - 1) as real
  {
    if |times| > 1 { SpacedTotal(times[..|times| - 1]); }
  }

  lemma TotalOfNineteen()
    ensures TotalDelay(19) == 3071
  {
    assert Shifted(4) == 16 && Shifted(8) == 256;
    assert TotalDelay(4) == 15;
    assert TotalDelay(9) == TotalDelay(4) + 16 + 32 + 64 + 128 + 256 by { assert Shifted(6) == 64; assert TotalDelay(7) == TotalDelay(4) + 16 + 32 + 64; }
    assert TotalDelay(13) == TotalDelay(9) + 4 * 256;
    assert TotalDelay(17) == TotalDelay(13) + 4 * 256;
  }

  /**
   * In every run, a pending row has failed fewer than 20 times since it was created or revived,
   * a row is FAILED exactly when it failed 20 times, and the 20th failure comes at least 3071
   * seconds after the first.
   */
  lemma {:induction false} Lifecycle(steps: seq<Step>, id: int)
    requires id in Run(steps).events
    ensures var e, times := Run(steps).events[id], Failures(steps, id);
            && e.attempts == |times|
            && (e.status == PENDING ==> |times| < 20)
            && (e.status == FAILED <==> |times| == 20)
            && (e.status == FAILED ==> times[19] - times[0] >= 3071.0)
  {
    RunTracks(steps, id);
    TotalOfNineteen();
    if Failures(steps, id) != [] { SpacedTotal(Failures(steps, id)); }
    hide Run, Failures, Spaced, TotalDelay;
  }

  lemma AuditAppended(audits: seq<Audit>, a: Audit, id: int)
    ensures |AuditsOf(audits + [a], id)| == |AuditsOf(audits, id)| + if a.event == id then 1 else 0
    ensures forall key :: FindByKey(audits + [a], key) == if a.key == key then Some(a) else FindByKey(audits, key)
  {
    assert (audits + [a])[..|audits|] == audits;
  }

  /** What one step adds to the audits: nothing, or one audit of the row it revives. */
  lemma StepAudits(s: System, step: Step, id: int)
    ensures var after := Apply(s, step);
            || (after.audits == s.audits && !Revived(s, after, id))
            || (step.Retry? && Required(step.key, 160) && FindByKey(s.audits, step.key.value).None? && step.actor.Some?
                && after.audits == s.audits + [Audit(step.event, step.actor.value, step.key.value)]
                && (Revived(s, after, id) <==> id == step.event))
  {
    hide FindByKey;
  }

  /** Every FAILED -> PENDING transition of a row is audited, and nothing else is. */
  lemma {:induction false} AuditsAreRevivals(steps: seq<Step>, id: int)
    ensures |AuditsOf(Run(steps).audits, id)| == Revivals(steps, id)
  {
    if steps != [] {
      var front, step := steps[..|steps| - 1], steps[|steps| - 1];
      AuditsAreRevivals(front, id);
      StepAudits(Run(front), step, id);
      if step.Retry? && step.actor.Some? && step.key.Some? {
        AuditAppended(Run(front).audits, Audit(step.event, step.actor.value, step.key.value), id);
      }
      hide Apply, AuditsOf, Revived, FindByKey, Required;
    }
  }

  lemma StepKeepsKey(s: System, step: Step, key: string)
    requires FindByKey(s.audits, key).Some?
    ensures FindByKey(Apply(s, step).audits, key) == FindByKey(s.audits, key)
  {
    StepAudits(s, step, 0);
    if step.Retry? && step.actor.Some? && step.key.Some? {
      AuditAppended(s.audits, Audit(step.event, step.actor.value, step.key.value), 0);
    }
    hide Apply, FindByKey, Required;
  }

  function RunFrom(s: System, steps: seq<Step>): System {
    if steps == [] then s else Apply(RunFrom(s, steps[..|steps| - 1]), steps[|steps| - 1])
  }

  lemma {:induction false} KeyIsForGood(s: System, steps: seq<Step>, key: string)
    requires FindByKey(s.audits, key).Some?
    ensures FindByKey(RunFrom(s, steps).audits, key) == FindByKey(s.audits, key)
  {
    if steps != [] {
      KeyIsForGood(s, steps[..|steps| - 1], key);
      StepKeepsKey(RunFrom(s, steps[..|steps| - 1]), steps[|steps| - 1], key);
    }
  }

  /** After a retry under a key, in every continuation that key revives nothing again and answers only the same request. */
  lemma {:induction false} KeyReuseChangesNothing(s: System, id: int, actor: Option<string>, key: Option<string>, steps: seq<Step>, again: int, actor2: Option<string>)
    requires RetryEvent(s, id, actor, key).1.Ok?
    ensures var later := RunFrom(RetryEvent(s, id, actor, key).0, steps);
            && RetryEvent(later, again, actor2, key).0 == later
            && (RetryEvent(later, again, actor2, key).1.Ok? ==> again == id && actor2 == actor)
  {
    var first := RetryEvent(s, id, actor, key).0;
    if FindByKey(s.audits, key.value).None? { AuditAppended(s.audits, Audit(id, actor.value, key.value), id); }
    assert FindByKey(first.audits, key.value).Some?;
    assert FindByKey(first.audits, key.value).value.event == id && FindByKey(first.audits, key.value).value.actor == actor.value;
    KeyIsForGood(first, steps, key.value);
    hide FindByKey, Required, RunFrom;
  }

  lemma StepKeepsPublished(s: System, step: Step, id: int)
    requires id in s.events && s.events[id].status == PUBLISHED
    ensures id in Apply(s, step).events && Apply(s, step).events[id] == s.events[id]
  {
    hide FindByKey, Required, Failed;
  }

  /** A published row never changes again, so it is never sent again. */
  lemma {:induction false} PublishedIsFinal(s: System, steps: seq<Step>, id: int)
    requires id in s.events && s.events[id].status == PUBLISHED
    ensures id in RunFrom(s, steps).events && RunFrom(s, steps).events[id] == s.events[id]
  {
    if steps != [] {
      PublishedIsFinal(s, steps[..|steps| - 1], id);
      StepKeepsPublished(RunFrom(s, steps[..|steps| - 1]), steps[|steps| - 1], id);
    }
  }

  // ---------------------------------------------------------------- what each step does to a row

  /** The step sends a due row, and its transaction commits. */
  predicate Sends(s: System, step: Step, id: int) {
    && step.Publish? && step.event == id && id in s.events && step.elapsed >= 0.0 && step.committed
    && s.events[id].status == PENDING && s.events[id].next <= s.now
  }

  /** The step asks in order to retry the failed row under a key of its own. */
  predicate Revives(s: System, step: Step, id: int) {
    && step.Retry? && step.event == id && id in s.events && s.events[id].status == FAILED
    && Required(step.actor, 120) && Required(step.key, 160) && forall a :: a in s.audits ==> Some(a.key) != step.key
  }

  /** Seconds from the given failure to the next attempt. */
  function Backoff(failures: nat): nat
    requires failures > 0
  {
    if failures <= 9 then Shifted(failures - 1) else 256
  }

  lemma {:induction false} AbsentKey(audits: seq<Audit>, key: string)
    ensures FindByKey(audits, key).None? <==> forall a :: a in audits ==> a.key != key
  {
    if audits != [] {
      AbsentKey(audits[..|audits| - 1], key);
      assert audits == audits[..|audits| - 1] + [audits[|audits| - 1]];
    }
  }

  /**
   * A stored row is published by an acknowledged send of it alone; a send that is not acknowledged
   * counts one failure and puts the next attempt off, or at the 20th fails the row; a failed row is
   * revived by a retry in order alone; nothing else changes it.
   */
  lemma {:induction false} RowChangesExactly(s: System, step: Step, id: int)
    requires id in s.events
    ensures var (row, after) := (s.events[id], Apply(s, step));
            && id in after.events
            && after.events[id] ==
               if Sends(s, step, id) then
                 if step.sendOk then Event(PUBLISHED, row.attempts, row.next)
                 else if row.attempts + 1 >= 20 then Event(FAILED, row.attempts + 1, row.next)
                 else Event(PENDING, row.attempts + 1, s.now + step.elapsed + Backoff(row.attempts + 1) as real)
               else if Revives(s, step, id) then Event(PENDING, 0, s.now)
               else row
  {
    if step.Retry? && step.key.Some? { AbsentKey(s.audits, step.key.value); }
    RequiredIsPresent(if step.Retry? then step.key else None, 160);
    DelayValue(s.events[id].attempts + 1);
    hide Required, FindByKey, Delay, Shifted;
  }

  /** A row appears by its creation alone, due at once. */
  lemma {:induction false} CreatedDue(s: System, step: Step, id: int)
    requires id !in s.events
    ensures var after := Apply(s, step);
            (id in after.events <==> step == Create(id)) && (id in after.events ==> after.events[id] == Event(PENDING, 0, s.now))
  {
    hide Required, FindByKey, Failed;
  }

  /** In every run, a published row was sent by a step the broker acknowledged and the database committed. */
  lemma {:induction false} PublishedWasSent(steps: seq<Step>, id: int) returns (i: nat)
    requires id in Run(steps).events && Run(steps).events[id].status == PUBLISHED
    ensures i < |steps| && Sends(Run(steps[..i]), steps[i], id) && steps[i].sendOk
  {
    var n := |steps| - 1;
    var before := Run(steps[..n]);
    i := n;
    if id !in before.events {
      CreatedDue(before, steps[n], id);
    } else if before.events[id].status == PUBLISHED {
      i := PublishedWasSent(steps[..n], id);
      assert steps[..n][..i] == steps[..i];
    } else {
      RowChangesExactly(before, steps[n], id);
    }
  }

  // ---------------------------------------------------------------- the entity

  class OutboxEvent {
    var status: Status
    var attempts: nat
    var next: real

    ghost function Row(): Event
      reads this
    {
      Event(status, attempts, next)
    }

    constructor (now: real)
      ensures Row() == Retried(now)
    {
      status, attempts, next := PENDING, 0, now;
    }

    method MarkPublished()
      modifies this
      ensures Row() == old(Row()).(status := PUBLISHED)
    {
      status := PUBLISHED;
    }

    method MarkFailed(now: real)
      modifies this
      ensures Row() == Failed(old(Row()), now)
    {
      attempts := attempts + 1;
      if attempts >= 20 {
        status := FAILED;
      } else {
        var shift := if attempts - 1 < 8 then attempts - 1 else 8;
        var seconds := Shifted(shift);
        next := now + (if seconds < 300 then seconds else 300) as real;
      }
    }

    method Revive(now: real) returns (r: Result<()>)
      modifies this
      ensures r.Ok? <==> old(Row()).status == FAILED
      ensures Row() == if r.Ok? then Retried(now) else old(Row())
    {
      if status != FAILED { return Refused; }
      status, attempts, next := PENDING, 0, now;
      r := Ok(());
    }
  }
}
