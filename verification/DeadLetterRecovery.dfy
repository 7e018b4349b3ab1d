/**
 * Replaying and discarding dead letters (api/.../replay/ReplayService.java,
 * replay/DeadLetterEvent.java): each attempt is one transaction of its own, except that a
 * broker send is never undone.
 */
module DeadLetterRecovery {
  import opened Common

  datatype Status = PENDING | REPLAYED | DISCARDED

  datatype DeadLetter = DeadLetter(
    status: Status, replayedBy: Option<string>, discardedBy: Option<string>, discardReason: Option<string>)

  const FRESH := DeadLetter(PENDING, None, None, None)

  /** What an operator asks for; the reason belongs to the request. */
  datatype Action = Replay | Discard(reason: string)

  datatype Audit = Audit(event: int, action: Action, actor: string, key: Option<string>)

  datatype Db = Db(
    events: map<int, DeadLetter>,
    audits: seq<Audit>,
    sends: seq<int>)  // every send attempt, delivered or not

  const EMPTY := Db(map[], [], [])

  /** `actor` is the trimmed X-Operator header, `key` the Idempotency-Key header. */
  datatype Request = Request(event: int, action: Action, actor: Option<string>, key: Option<string>)

  /** How the inner transaction ends: a lost answer may follow a commit or a rollback. */
  datatype Ending = Confirmed | RolledBack | Unconfirmed

  datatype Step =
    | Capture(event: int)
    | Operate(request: Request, sendOk: bool, ending: Ending)

  // ---------------------------------------------------------------- one attempt

  /** replay treats a missing operator as "unknown"; discard refuses it. */
  function ActorOf(action: Action, header: Option<string>): Option<string> {
    if header.None? then (if action.Replay? then Some("unknown") else None)
    else if Required(header, 120) then header else None
  }

  predicate ValidAction(action: Action) {
    action.Replay? || Required(Some(action.reason), 500)
  }

  function Mark(e: DeadLetter, action: Action, actor: string): DeadLetter {
    match action
    case Replay => e.(status := REPLAYED, replayedBy := Some(actor))
    case Discard(reason) => e.(status := DISCARDED, discardedBy := Some(actor), discardReason := Some(reason))
  }

  predicate ResolvedBy(e: DeadLetter, action: Action, actor: string) {
    match action
    case Replay => e.status == REPLAYED && e.replayedBy == Some(actor)
    case Discard(reason) => e.status == DISCARDED && e.discardedBy == Some(actor) && e.discardReason == Some(reason)
  }

  function FindByKey(audits: seq<Audit>, key: string): Option<Audit> {
    if audits == [] then None
    else if audits[|audits| - 1].key == Some(key) then Some(audits[|audits| - 1])
    else FindByKey(audits[..|audits| - 1], key)
  }

  /** The part after the key check: lock the row, send, mark, audit. */
  function ResolveRow(db: Db, id: int, action: Action, actor: string, key: Option<string>, sendOk: bool): (Db, Result<DeadLetter>) {
    if id !in db.events then (db, Refused)
    else if key.None? && ResolvedBy(db.events[id], action, actor) then (db, Ok(db.events[id]))
    else if db.events[id].status != PENDING then (db, Refused)
    else
      var sends := if action.Replay? then db.sends + [id] else db.sends;
      if action.Replay? && !sendOk then (db.(sends := sends), Refused)
      else
        var row := Mark(db.events[id], action, actor);
        (Db(db.events[id := row], db.audits + [Audit(id, action, actor, key)], sends), Ok(row))
  }

  function Resolve(db: Db, r: Request, sendOk: bool): (Db, Result<DeadLetter>) {
    var actor := ActorOf(r.action, r.actor);
    if actor.None? || !ValidAction(r.action) || (r.key.Some? && !Required(r.key, 160)) then (db, Refused)
    else if r.key.Some? && FindByKey(db.audits, r.key.value).Some? then
      var prior := FindByKey(db.audits, r.key.value).value;
      if prior.event != r.event || prior.action != r.action || prior.actor != actor.value || r.event !in db.events
      then (db, Refused)
      else (db, Ok(db.events[r.event]))
    else ResolveRow(db, r.event, r.action, actor.value, r.key, sendOk)
  }

  function Attempt(db: Db, r: Request, sendOk: bool, ending: Ending): (Db, Result<DeadLetter>) {
    var (after, reply) := Resolve(db, r, sendOk);
    match ending
    case Confirmed => (after, reply)
    case RolledBack => (db.(sends := after.sends), Refused)
    case Unconfirmed => (after, Refused)
  }

  function Captured(db: Db, id: int): Db {
    if id in db.events then db else db.(events := db.events[id := FRESH])
  }

  function Apply(db: Db, step: Step): Db {
    match step
    case Capture(id) => Captured(db, id)
    case Operate(r, sendOk, ending) => Attempt(db, r, sendOk, ending).0
  }

  function Run(db: Db, steps: seq<Step>): Db {
    if steps == [] then db else Apply(Run(db, steps[..|steps| - 1]), steps[|steps| - 1])
  }

  // ---------------------------------------------------------------- the invariant

  function AuditsOf(audits: seq<Audit>, id: int): seq<Audit> {
    if audits == [] then []
    else if audits[|audits| - 1].event == id then AuditsOf(audits[..|audits| - 1], id) + [audits[|audits| - 1]]
    else AuditsOf(audits[..|audits| - 1], id)
  }

  function SendsOf(sends: seq<int>, id: int): nat {
    if sends == [] then 0
    else SendsOf(sends[..|sends| - 1], id) + if sends[|sends| - 1] == id then 1 else 0
  }

  /** A pending event has no audit; a terminal one has exactly the audit that explains it. */
  predicate EventOk(e: DeadLetter, own: seq<Audit>, sent: nat) {
    if e.status == PENDING then e == FRESH && own == []
    else
      && |own| == 1 && e == Mark(FRESH, own[0].action, own[0].actor)
      && (own[0].action.Replay? ==> sent > 0)
  }

  ghost predicate RowOk(db: Db, id: int) {
    if id in db.events then EventOk(db.events[id], AuditsOf(db.audits, id), SendsOf(db.sends, id))
    else AuditsOf(db.audits, id) == []
  }

  predicate KeysUnique(audits: seq<Audit>) {
    audits == []
    || (KeysUnique(audits[..|audits| - 1])
        && (audits[|audits| - 1].key.Some? ==> FindByKey(audits[..|audits| - 1], audits[|audits| - 1].key.value).None?))
  }

  ghost predicate Inv(db: Db) {
    (forall id :: RowOk(db, id)) && KeysUnique(db.audits)
  }

  // ---------------------------------------------------------------- appending

  lemma AuditAppended(audits: seq<Audit>, a: Audit)
    ensures AuditsOf(audits + [a], a.event) == AuditsOf(audits, a.event) + [a]
    ensures forall id :: id != a.event ==> AuditsOf(audits + [a], id) == AuditsOf(audits, id)
    ensures forall key :: FindByKey(audits + [a], key) == if a.key == Some(key) then Some(a) else FindByKey(audits, key)
    ensures KeysUnique(audits + [a]) <==> KeysUnique(audits) && (a.key.Some? ==> FindByKey(audits, a.key.value).None?)
  {
    assert (audits + [a])[..|audits|] == audits;
  }

  lemma SendAppended(sends: seq<int>, id: int)
    ensures SendsOf(sends + [id], id) == SendsOf(sends, id) + 1
    ensures forall o :: o != id ==> SendsOf(sends + [id], o) == SendsOf(sends, o)
  {
    assert (sends + [id])[..|sends|] == sends;
  }

  // ---------------------------------------------------------------- what one attempt does

  /** Either nothing changes, or one send is attempted, or one pending event is resolved and audited. */
  predicate Resolves(db: Db, after: Db, id: int, action: Action, actor: string, key: Option<string>) {
    && id in db.events && db.events[id].status == PENDING
    && (key.Some? ==> FindByKey(db.audits, key.value).None?)
    && after.events == db.events[id := Mark(db.events[id], action, actor)]
    && after.audits == db.audits + [Audit(id, action, actor, key)]
    && after.sends == if action.Replay? then db.sends + [id] else db.sends
  }

  predicate OnlySends(db: Db, after: Db, id: int) {
    && after.events == db.events && after.audits == db.audits
    && (after.sends == db.sends
        || (after.sends == db.sends + [id] && id in db.events && db.events[id].status == PENDING))
  }

  lemma {:induction false} AttemptShape(db: Db, r: Request, sendOk: bool, ending: Ending)
    ensures var after := Attempt(db, r, sendOk, ending).0;
            || OnlySends(db, after, r.event)
            || (ActorOf(r.action, r.actor).Some?
                && Resolves(db, after, r.event, r.action, ActorOf(r.action, r.actor).value, r.key))
  {
    hide Mark, FindByKey, ResolvedBy, Required;
  }

  // ---------------------------------------------------------------- which requests resolve an event

  /** The texts of a request pass the checks: replay accepts a missing operator, discard does not. */
  predicate Admissible(r: Request) {
    && (r.actor.None? ==> r.action.Replay?) && (r.actor.Some? ==> Required(r.actor, 120))
    && (r.action.Discard? ==> Required(Some(r.action.reason), 500))
    && (r.key.Some? ==> Required(r.key, 160))
  }

  function Operator(r: Request): string { if r.actor.Some? then r.actor.value else "unknown" }

  /** The event is already just as an unkeyed request asks. */
  predicate AlreadySo(db: Db, r: Request) {
    && r.key.None? && r.event in db.events
    && var e := db.events[r.event];
    match r.action
    case Replay => e.status == REPLAYED && e.replayedBy == Some(Operator(r))
    case Discard(reason) => e.status == DISCARDED && e.discardedBy == Some(Operator(r)) && e.discardReason == Some(reason)
  }

  /** The request is in order, its event pending, and the broker takes a replay. */
  predicate Succeeds(db: Db, r: Request, sendOk: bool) {
    && Admissible(r) && r.event in db.events && db.events[r.event].status == PENDING && (r.action.Replay? ==> sendOk)
  }

  /** The event as the request leaves it. */
  function Outcome(e: DeadLetter, r: Request): DeadLetter {
    match r.action
    case Replay => DeadLetter(REPLAYED, Some(Operator(r)), e.discardedBy, e.discardReason)
    case Discard(reason) => DeadLetter(DISCARDED, e.replayedBy, Some(Operator(r)), Some(reason))
  }

  /**
   * A request whose key, if any, is new resolves and audits its event exactly when it is in order,
   * the event is pending and the send of a replay is acknowledged. Otherwise events and audits
   * stay, and it answers only an event that already is as asked.
   */
  lemma {:induction false} ResolvesExactly(db: Db, r: Request, sendOk: bool)
    requires r.key.Some? ==> forall a :: a in db.audits ==> a.key != r.key
    ensures var (after, reply) := Resolve(db, r, sendOk);
            && (reply.Ok? <==> Succeeds(db, r, sendOk) || (Admissible(r) && AlreadySo(db, r)))
            && (reply.Ok? ==> r.event in after.events && reply.value == after.events[r.event])
            && after.events == (if Succeeds(db, r, sendOk) then db.events[r.event := Outcome(db.events[r.event], r)] else db.events)
            && after.audits == (if Succeeds(db, r, sendOk) then db.audits + [Audit(r.event, r.action, Operator(r), r.key)] else db.audits)
            && after.sends == if r.action.Replay? && Succeeds(db, r, true) then db.sends + [r.event] else db.sends
  {
    if r.key.Some? { AbsentKey(db.audits, r.key.value); }
    if r.actor.Some? { RequiredIsPresent(r.actor, 120); }
    hide Required, FindByKey;
  }

  lemma {:induction false} AbsentKey(audits: seq<Audit>, key: string)
    requires forall a :: a in audits ==> a.key != Some(key)
    ensures FindByKey(audits, key).None?
  {
    if audits != [] { AbsentKey(audits[..|audits| - 1], key); }
  }

  /** A captured event is pending; capturing it again, or another, changes no event. */
  lemma {:induction false} CaptureOnce(db: Db, id: int)
    ensures var after := Apply(db, Capture(id));
            && after.events.Keys == db.events.Keys + {id} && after.audits == db.audits && after.sends == db.sends
            && (forall o :: o in db.events ==> after.events[o] == db.events[o])
            && (id !in db.events ==> after.events[id] == DeadLetter(PENDING, None, None, None))
  {
    assert id in Captured(db, id).events;
  }

  lemma OnlySendsKeepsInv(db: Db, after: Db, id: int)
    requires Inv(db) && OnlySends(db, after, id)
    ensures Inv(after)
  {
    if after.sends != db.sends { SendAppended(db.sends, id); }
    hide SendsOf, AuditsOf, KeysUnique;
    forall o ensures RowOk(after, o) { assert RowOk(db, o); }
  }

  lemma ResolvesKeepsInv(db: Db, after: Db, id: int, action: Action, actor: string, key: Option<string>)
    requires Inv(db) && Resolves(db, after, id, action, actor, key)
    ensures Inv(after)
  {
    AuditAppended(db.audits, Audit(id, action, actor, key));
    if action.Replay? { SendAppended(db.sends, id); }
    hide SendsOf, AuditsOf, KeysUnique, FindByKey;
    forall o ensures RowOk(after, o) { assert RowOk(db, o); }
  }

  lemma StepKeepsInv(db: Db, step: Step)
    requires Inv(db)
    ensures Inv(Apply(db, step))
  {
    match step
    case Capture(id) =>
      hide SendsOf, AuditsOf, KeysUnique;
      forall o ensures RowOk(Captured(db, id), o) { assert RowOk(db, o); }
    case Operate(r, sendOk, ending) =>
      AttemptShape(db, r, sendOk, ending);
      hide Inv, Attempt;
      var after := Attempt(db, r, sendOk, ending).0;
      if OnlySends(db, after, r.event) { OnlySendsKeepsInv(db, after, r.event); }
      else { ResolvesKeepsInv(db, after, r.event, r.action, ActorOf(r.action, r.actor).value, r.key); }
  }

  lemma {:induction false} RunKeepsInv(db: Db, steps: seq<Step>)
    requires Inv(db)
    ensures Inv(Run(db, steps))
  {
    if steps != [] {
      RunKeepsInv(db, steps[..|steps| - 1]);
      StepKeepsInv(Run(db, steps[..|steps| - 1]), steps[|steps| - 1]);
    }
  }

  lemma EmptyIsOk()
    ensures Inv(EMPTY)
  {
  }

  // ---------------------------------------------------------------- main results

  /** Step i is a replay of the event that the broker acknowledged and that was not rolled back, and it marked the event. */
  ghost predicate Acknowledged(steps: seq<Step>, i: nat, id: int, actor: string)
    requires i < |steps|
  {
    && steps[i].Operate? && steps[i].request.event == id && steps[i].request.action == Replay && Operator(steps[i].request) == actor
    && steps[i].sendOk && steps[i].ending != RolledBack
    && id in Run(EMPTY, steps[..i]).events && Run(EMPTY, steps[..i]).events[id].status == PENDING
    && id in Run(EMPTY, steps[..i + 1]).events && Run(EMPTY, steps[..i + 1]).events[id].status == REPLAYED
  }

  lemma AttemptAcknowledges(db: Db, step: Step, id: int)
    requires Inv(db) && id in Apply(db, step).events && Apply(db, step).events[id].status == REPLAYED
    requires id in db.events ==> db.events[id].status != REPLAYED
    ensures step.Operate? && step.request.event == id && step.request.action == Replay && step.sendOk && step.ending != RolledBack
    ensures id in db.events && db.events[id].status == PENDING
    ensures Apply(db, step).events[id].replayedBy == Some(Operator(step.request))
  {
    hide Required, FindByKey, Inv;
  }

  /** In every run, a replayed event was marked by exactly one acknowledged replay, made by the operator it names. */
  lemma {:induction false} ReplayedWasAcknowledged(steps: seq<Step>, id: int) returns (i: nat)
    requires id in Run(EMPTY, steps).events && Run(EMPTY, steps).events[id].status == REPLAYED
    ensures i < |steps| && Run(EMPTY, steps).events[id].replayedBy.Some?
    ensures Acknowledged(steps, i, id, Run(EMPTY, steps).events[id].replayedBy.value)
    ensures forall j: nat, actor :: j < |steps| && Acknowledged(steps, j, id, actor) ==> j == i
  {
    var n := |steps| - 1;
    var before := Run(EMPTY, steps[..n]);
    assert steps[..n + 1] == steps;
    EmptyIsOk();
    RunKeepsInv(EMPTY, steps[..n]);
    hide Apply, Inv;
    if id in before.events && before.events[id].status == REPLAYED {
      i := ReplayedWasAcknowledged(steps[..n], id);
      StepKeepsTerminal(before, steps[n], id);
      assert steps[..n][..i] == steps[..i] && steps[..n][..i + 1] == steps[..i + 1];
      hide Run;
      forall j: nat, actor | j < |steps| && Acknowledged(steps, j, id, actor) ensures j == i {
        if j < n {
          assert steps[..n][..j] == steps[..j] && steps[..n][..j + 1] == steps[..j + 1];
          assert Acknowledged(steps[..n], j, id, actor);
        }
      }
    } else {
      i := n;
      AttemptAcknowledges(before, steps[n], id);
      hide Run;
      forall j: nat, actor | j < n ensures !Acknowledged(steps, j, id, actor) {
        if Acknowledged(steps, j, id, actor) { ReplayedStays(steps, j + 1, n, id); }
      }
    }
  }

  lemma ReplayedStays(steps: seq<Step>, i: nat, n: nat, id: int)
    requires i <= n <= |steps| && id in Run(EMPTY, steps[..i]).events && Run(EMPTY, steps[..i]).events[id].status == REPLAYED
    ensures id in Run(EMPTY, steps[..n]).events && Run(EMPTY, steps[..n]).events[id].status == REPLAYED
    decreases n - i
  {
    if i < n {
      assert steps[..i + 1][..i] == steps[..i];
      StepKeepsTerminal(Run(EMPTY, steps[..i]), steps[i], id);
      hide Apply;
      ReplayedStays(steps, i + 1, n, id);
    }
  }

  /**
   * Conservation. In every run, a catalogued event is terminal exactly when it has an audit,
   * then exactly one, whose action and actor are those of the event; a replayed event's audit
   * was written by an acknowledged send.
   */
  lemma {:induction false} TerminalIffAudited(steps: seq<Step>, id: int)
    ensures var db := Run(EMPTY, steps);
            && (AuditsOf(db.audits, id) != [] <==> id in db.events && db.events[id].status != PENDING)
            && (AuditsOf(db.audits, id) != [] ==>
                  var own := AuditsOf(db.audits, id);
                  && |own| == 1 && ResolvedBy(db.events[id], own[0].action, own[0].actor)
                  && (own[0].action.Replay? <==> db.events[id].status == REPLAYED)
                  && (own[0].action.Replay? ==>
                        SendsOf(db.sends, id) > 0 && exists i: nat :: i < |steps| && Acknowledged(steps, i, id, own[0].actor)))
  {
    EmptyIsOk();
    RunKeepsInv(EMPTY, steps);
    var db := Run(EMPTY, steps);
    assert RowOk(db, id);
    hide Run, AuditsOf, SendsOf, Acknowledged;
    if id in db.events && db.events[id].status == REPLAYED { var i := ReplayedWasAcknowledged(steps, id); }
  }

  /** What one event looks like from outside: its row, its audits, and how often it was sent. */
  ghost predicate SameEvent(db: Db, later: Db, id: int) {
    && id in db.events && id in later.events && later.events[id] == db.events[id]
    && AuditsOf(later.audits, id) == AuditsOf(db.audits, id)
    && SendsOf(later.sends, id) == SendsOf(db.sends, id)
  }

  lemma StepKeepsTerminal(db: Db, step: Step, id: int)
    requires id in db.events && db.events[id].status != PENDING
    ensures SameEvent(db, Apply(db, step), id)
  {
    if step.Operate? {
      var r := step.request;
      AttemptShape(db, r, step.sendOk, step.ending);
      SendAppended(db.sends, r.event);
      if ActorOf(r.action, r.actor).Some? {
        AuditAppended(db.audits, Audit(r.event, r.action, ActorOf(r.action, r.actor).value, r.key));
      }
      hide Attempt, AuditsOf, SendsOf, KeysUnique, FindByKey, Mark;
    }
  }

  /** One-way states: once terminal, an event never changes, is never audited and never sent again. */
  lemma {:induction false} TerminalIsFinal(db: Db, steps: seq<Step>, id: int)
    requires id in db.events && db.events[id].status != PENDING
    ensures SameEvent(db, Run(db, steps), id)
  {
    if steps != [] {
      TerminalIsFinal(db, steps[..|steps| - 1], id);
      StepKeepsTerminal(Run(db, steps[..|steps| - 1]), steps[|steps| - 1], id);
    }
  }

  lemma StepKeepsKey(db: Db, step: Step, key: string)
    requires FindByKey(db.audits, key).Some?
    ensures FindByKey(Apply(db, step).audits, key) == FindByKey(db.audits, key)
  {
    if step.Operate? {
      var r := step.request;
      AttemptShape(db, r, step.sendOk, step.ending);
      if ActorOf(r.action, r.actor).Some? {
        AuditAppended(db.audits, Audit(r.event, r.action, ActorOf(r.action, r.actor).value, r.key));
      }
      hide Attempt, AuditsOf, KeysUnique, FindByKey, Mark;
    }
  }

  lemma {:induction false} KeyIsForGood(db: Db, steps: seq<Step>, key: string)
    requires FindByKey(db.audits, key).Some?
    ensures FindByKey(Run(db, steps).audits, key) == FindByKey(db.audits, key)
  {
    if steps != [] {
      KeyIsForGood(db, steps[..|steps| - 1], key);
      StepKeepsKey(Run(db, steps[..|steps| - 1]), steps[|steps| - 1], key);
    }
  }

  lemma {:induction false} FoundIsOwn(audits: seq<Audit>, key: string)
    requires FindByKey(audits, key).Some?
    ensures FindByKey(audits, key).value in AuditsOf(audits, FindByKey(audits, key).value.event)
    ensures FindByKey(audits, key).value.key == Some(key)
  {
    if audits[|audits| - 1].key != Some(key) { FoundIsOwn(audits[..|audits| - 1], key); }
  }

  /** An audited key names an event that is terminal in just the way the audit says. */
  lemma KeyedEvent(db: Db, key: string)
    requires Inv(db) && FindByKey(db.audits, key).Some?
    ensures var prior := FindByKey(db.audits, key).value;
            prior.event in db.events && db.events[prior.event].status != PENDING
            && ResolvedBy(db.events[prior.event], prior.action, prior.actor)
  {
    var prior := FindByKey(db.audits, key).value;
    FoundIsOwn(db.audits, key);
    assert RowOk(db, prior.event);
    hide AuditsOf, FindByKey, KeysUnique, SendsOf;
  }

  /** A success under a key leaves an audit under that key. */
  lemma SuccessIsKeyed(db: Db, r: Request, sendOk: bool)
    requires Inv(db) && r.key.Some? && Resolve(db, r, sendOk).1.Ok?
    ensures ActorOf(r.action, r.actor).Some?
    ensures FindByKey(Resolve(db, r, sendOk).0.audits, r.key.value)
            == Some(Audit(r.event, r.action, ActorOf(r.action, r.actor).value, r.key))
  {
    var actor := ActorOf(r.action, r.actor).value;
    AuditAppended(db.audits, Audit(r.event, r.action, actor, r.key));
    if FindByKey(db.audits, r.key.value).Some? { FoundIsOwn(db.audits, r.key.value); }
    hide FindByKey, AuditsOf, KeysUnique, Mark, Required;
  }

  /**
   * Idempotency. After a keyed success, whatever happens in between, the same request
   * answers with the same terminal event and changes nothing; any other request under that
   * key is refused and changes nothing.
   */
  lemma {:induction false} KeyReuseChangesNothing(db: Db, r: Request, sendOk: bool, steps: seq<Step>, again: Request, sendAgain: bool)
    requires Inv(db) && r.key.Some? && Resolve(db, r, sendOk).1.Ok? && again.key == r.key
    ensures var later := Run(Resolve(db, r, sendOk).0, steps);
            var same := again.event == r.event && again.action == r.action
                        && ActorOf(again.action, again.actor) == ActorOf(r.action, r.actor);
            && Resolve(later, again, sendAgain).0 == later
            && (Resolve(later, again, sendAgain).1.Ok? <==> same)
            && (same ==> Resolve(later, again, sendAgain).1 == Resolve(db, r, sendOk).1)
  {
    var first := Resolve(db, r, sendOk).0;
    AttemptShape(db, r, sendOk, Confirmed);
    StepKeepsInv(db, Operate(r, sendOk, Confirmed));
    SuccessIsKeyed(db, r, sendOk);
    KeyIsForGood(first, steps, r.key.value);
    KeyedEvent(first, r.key.value);
    TerminalIsFinal(first, steps, r.event);
    hide FindByKey, AuditsOf, KeysUnique, Mark, Required, Run, Inv, SendsOf;
  }

  lemma {:induction false} UniqueKeysDiffer(audits: seq<Audit>, i: nat, j: nat)
    requires KeysUnique(audits) && i < j < |audits| && audits[i].key.Some?
    ensures audits[i].key != audits[j].key
  {
    var front := audits[..|audits| - 1];
    if j < |front| { UniqueKeysDiffer(front, i, j); } else { PresentKeyIsFound(front, i); }
  }

  /** In every run, each request key is on at most one audit. */
  lemma {:induction false} KeyOnOneAudit(steps: seq<Step>, i: nat, j: nat)
    requires i < j < |Run(EMPTY, steps).audits| && Run(EMPTY, steps).audits[i].key.Some?
    ensures Run(EMPTY, steps).audits[i].key != Run(EMPTY, steps).audits[j].key
  {
    EmptyIsOk();
    RunKeepsInv(EMPTY, steps);
    hide Run;
    UniqueKeysDiffer(Run(EMPTY, steps).audits, i, j);
  }

  lemma {:induction false} PresentKeyIsFound(audits: seq<Audit>, i: nat)
    requires i < |audits| && audits[i].key.Some?
    ensures FindByKey(audits, audits[i].key.value).Some?
  {
    if i < |audits| - 1 { PresentKeyIsFound(audits[..|audits| - 1], i); }
  }

  /** Without a key: repeating a success, in any later state, answers with the same event and changes nothing. */
  lemma {:induction false} UnkeyedRetryChangesNothing(db: Db, r: Request, sendOk: bool, steps: seq<Step>, sendAgain: bool)
    requires Inv(db) && r.key.None? && Resolve(db, r, sendOk).1.Ok?
    ensures var later := Run(Resolve(db, r, sendOk).0, steps);
            Resolve(later, r, sendAgain) == (later, Resolve(db, r, sendOk).1)
  {
    var first := Resolve(db, r, sendOk).0;
    SuccessIsTerminal(db, r, sendOk);
    TerminalIsFinal(first, steps, r.event);
    hide FindByKey, AuditsOf, KeysUnique, Mark, Required, Run, Inv, SendsOf;
  }

  lemma SuccessIsTerminal(db: Db, r: Request, sendOk: bool)
    requires Inv(db) && r.key.None? && Resolve(db, r, sendOk).1.Ok?
    ensures var (after, reply) := Resolve(db, r, sendOk);
            && ActorOf(r.action, r.actor).Some? && r.event in after.events && reply.value == after.events[r.event]
            && reply.value.status != PENDING && ResolvedBy(reply.value, r.action, ActorOf(r.action, r.actor).value)
  {
    assert RowOk(db, r.event);
    hide FindByKey, AuditsOf, KeysUnique, Required, SendsOf;
  }

  // ---------------------------------------------------------------- the entity and the service

  class DeadLetterEvent {
    var row: DeadLetter

    constructor ()
      ensures row == FRESH
    {
      row := FRESH;
    }

    method MarkReplayed(actor: string) returns (r: Result<()>)
      modifies this
      ensures r.Ok? <==> old(row).status == PENDING
      ensures row == if r.Ok? then Mark(old(row), Replay, actor) else old(row)
    {
      if row.status != PENDING { return Refused; }
      row := row.(status := REPLAYED);
      row := row.(replayedBy := Some(actor));
      r := Ok(());
    }

    method DiscardFor(actor: string, reason: string) returns (r: Result<()>)
      modifies this
      ensures r.Ok? <==> old(row).status == PENDING
      ensures row == if r.Ok? then Mark(old(row), Discard(reason), actor) else old(row)
    {
      if row.status != PENDING { return Refused; }
      row := row.(status := DISCARDED);
      row := row.(discardedBy := Some(actor));
      row := row.(discardReason := Some(reason));
      r := Ok(());
    }
  }

  class ReplayService {
    var events: map<int, DeadLetter>
    var audits: seq<Audit>
    var sends: seq<int>

    ghost function State(): Db
      reads this
    {
      Db(events, audits, sends)
    }

    constructor ()
      ensures State() == EMPTY
    {
      events, audits, sends := map[], [], [];
    }

    /** replay(id, actor, requestKey); `sendOk` is the broker's answer to the send, if one happens. */
    method ReplayEvent(id: int, header: Option<string>, key: Option<string>, sendOk: bool) returns (r: Result<DeadLetter>)
      modifies this
      ensures (State(), r) == Resolve(old(State()), Request(id, Replay, header, key), sendOk)
    {
      var actor := if header.Some? then header.value else "unknown";
      if header.Some? && !Required(header, 120) { return Refused; }
      if key.Some? {
        if !Required(key, 160) { return Refused; }
        var prior := FindByKey(audits, key.value);
        if prior.Some? {
          if prior.value.event != id || prior.value.action != Replay || prior.value.actor != actor { return Refused; }
          return if id in events then Ok(events[id]) else Refused;
        }
      }
      if id !in events { return Refused; }
      var row := new DeadLetterEvent();
      row.row := events[id];
      if key.None? && row.row.status == REPLAYED && row.row.replayedBy == Some(actor) { return Ok(row.row); }
      if row.row.status != PENDING { return Refused; }
      sends := sends + [id];
      if !sendOk { return Refused; }
      var marked := row.MarkReplayed(actor);
      events := events[id := row.row];
      audits := audits + [Audit(id, Replay, actor, key)];
      r := Ok(row.row);
    }

    /** discard(id, actor, reason, requestKey). */
    method DiscardEvent(id: int, header: Option<string>, reason: string, key: Option<string>) returns (r: Result<DeadLetter>)
      modifies this
      ensures forall sendOk :: (State(), r) == Resolve(old(State()), Request(id, Discard(reason), header, key), sendOk)
    {
      if !Required(header, 120) || !Required(Some(reason), 500) { return Refused; }
      var actor := header.value;
      if key.Some? {
        if !Required(key, 160) { return Refused; }
        var prior := FindByKey(audits, key.value);
        if prior.Some? {
          if prior.value.event != id || prior.value.action != Discard(reason) || prior.value.actor != actor { return Refused; }
          return if id in events then Ok(events[id]) else Refused;
        }
      }
      if id !in events { return Refused; }
      var row := new DeadLetterEvent();
      row.row := events[id];
      if key.None? && row.row.status == DISCARDED && row.row.discardedBy == Some(actor)
         && row.row.discardReason == Some(reason)
      {
        return Ok(row.row);
      }
      var discarded := row.DiscardFor(actor, reason);
      if discarded.Refused? { return Refused; }
      events := events[id := row.row];
      audits := audits + [Audit(id, Discard(reason), actor, key)];
      r := Ok(row.row);
    }

    /** The REQUIRES_NEW transaction around either call, ending as the database and network decide. */
    method Transact(request: Request, sendOk: bool, ending: Ending) returns (r: Result<DeadLetter>)
      modifies this
      ensures (State(), r) == Attempt(old(State()), request, sendOk, ending)
    {
      var events0, audits0 := events, audits;
      hide Resolve;
      if request.action.Replay? {
        assert request == Request(request.event, Replay, request.actor, request.key);
        r := ReplayEvent(request.event, request.actor, request.key, sendOk);
      } else {
        var reason := request.action.reason;
        assert request == Request(request.event, Discard(reason), request.actor, request.key);
        r := DiscardEvent(request.event, request.actor, reason, request.key);
      }
      if ending == RolledBack {
        events, audits := events0, audits0;
      }
      if ending != Confirmed {
        r := Refused;
      }
    }
  }
}
