/**
 * RoutePlanner (analytics/app/routing.py) as a transition system: callers, shielded
 * planning tasks, cancellations and finalizers around one in-flight table and one cache.
 * No lock section awaits while it holds the lock, so each section is one step.
 */
module RoutePlanner {
  import opened Common
  import opened RouteCache

  datatype TaskState = Running | Done(route: Route) | Failed

  /** A planning task and the key whose coordinates it was created for. */
  datatype Task = Task(key: Key, state: TaskState)

  /** What the lock protects; a task is named by its index among all tasks ever created. */
  datatype Shared = Shared(cache: seq<Slot>, inflight: map<Key, nat>)

  datatype Entry = Hit(route: Route) | Await(task: nat)

  datatype Waiter = Waiter(key: Key, task: nat)

  datatype CacheWrite = CacheWrite(key: Key, route: Route, at: real)

  datatype Planner = Planner(
    ttl: real,
    shared: Shared,
    tasks: seq<Task>,
    waiting: map<int, Waiter>,      // callers awaiting a shielded task
    finalizers: multiset<nat>,      // tasks with a scheduled _finalize_abandoned
    now: real,
    touches: seq<Key>,              // keys hit fresh or written, in order
    writes: seq<CacheWrite>,        // results stored in the cache, and when
    returned: seq<(Key, Route)>)    // results handed to callers, in order

  datatype Step =
    | Arrive(caller: int, key: Key)
    | EndTask(task: nat, route: Option<Route>)
    | Resume(caller: int)
    | Abandon(caller: int)  // the caller is cancelled, or its task raised
    | FinalizerWakes(task: nat)
    | Tick(elapsed: real)

  // ---------------------------------------------------------------- the lock sections

  predicate InFlight(h: Shared, key: Key, task: nat) {
    key in h.inflight && h.inflight[key] == task
  }

  function Pop(h: Shared, key: Key, task: nat): map<Key, nat> {
    if InFlight(h, key, task) then h.inflight - {key} else h.inflight
  }

  function Store(cache: seq<Slot>, key: Key, route: Route, now: real, ttl: real): seq<Slot> {
    if ttl > 0.0 then Write(cache, Slot(key, now + ttl, route)) else cache
  }

  /** The first section of plan; `next` names the task it would create. */
  function Enter(h: Shared, key: Key, now: real, next: nat): (Shared, Entry) {
    var cached := Lookup(h.cache, key);
    if cached.Some? && cached.value.expires > now
    then (h.(cache := MoveToEnd(h.cache, cached.value)), Hit(cached.value.route))
    else if key in h.inflight then (h, Await(h.inflight[key]))
    else (h.(inflight := h.inflight[key := next]), Await(next))
  }

  /** The last section of plan, once the shielded task returned. */
  function Settle(h: Shared, key: Key, task: nat, route: Route, now: real, ttl: real): Shared {
    Shared(Store(h.cache, key, route, now, ttl), Pop(h, key, task))
  }

  /** The section of plan's exception handler; the flag says whether it schedules a finalizer. */
  function GiveUp(h: Shared, key: Key, task: nat, done: bool): (Shared, bool) {
    if done then (h.(inflight := Pop(h, key, task)), false) else (h, InFlight(h, key, task))
  }

  /** The section of _finalize_abandoned. */
  function Finalize(h: Shared, key: Key, task: nat, result: Option<Route>, now: real, ttl: real): Shared {
    if !InFlight(h, key, task) then h
    else Shared(if result.Some? then Store(h.cache, key, result.value, now, ttl) else h.cache, h.inflight - {key})
  }

  // ---------------------------------------------------------------- steps and runs

  function Init(ttl: real): Planner {
    Planner(ttl, Shared([], map[]), [], map[], multiset{}, 0.0, [], [], [])
  }

  predicate ValidTtl(ttl: real) { 0.0 <= ttl <= 86400.0 }

  function Arrived(s: Planner, caller: int, key: Key): Planner {
    var (shared, entry) := Enter(s.shared, key, s.now, |s.tasks|);
    match entry
    case Hit(route) => s.(shared := shared, touches := s.touches + [key], returned := s.returned + [(key, route)])
    case Await(t) =>
      s.(shared := shared, waiting := s.waiting[caller := Waiter(key, t)],
         tasks := if t == |s.tasks| then s.tasks + [Task(key, Running)] else s.tasks)
  }

  function Resumed(s: Planner, caller: int, w: Waiter, route: Route): Planner {
    s.(shared := Settle(s.shared, w.key, w.task, route, s.now, s.ttl),
       waiting := s.waiting - {caller},
       touches := if s.ttl > 0.0 then s.touches + [w.key] else s.touches,
       writes := if s.ttl > 0.0 then s.writes + [CacheWrite(w.key, route, s.now)] else s.writes,
       returned := s.returned + [(w.key, route)])
  }

  function Abandoned(s: Planner, caller: int, w: Waiter, done: bool): Planner {
    var (shared, finalize) := GiveUp(s.shared, w.key, w.task, done);
    s.(shared := shared, waiting := s.waiting - {caller},
       finalizers := if finalize then s.finalizers + multiset{w.task} else s.finalizers)
  }

  function Result(state: TaskState): Option<Route> {
    if state.Done? then Some(state.route) else None
  }

  function Woken(s: Planner, t: nat, task: Task): Planner {
    s.(shared := Finalize(s.shared, task.key, t, Result(task.state), s.now, s.ttl),
       finalizers := s.finalizers - multiset{t},
       touches := if InFlight(s.shared, task.key, t) && task.state.Done? && s.ttl > 0.0
                  then s.touches + [task.key] else s.touches,
       writes := if InFlight(s.shared, task.key, t) && task.state.Done? && s.ttl > 0.0
                 then s.writes + [CacheWrite(task.key, task.state.route, s.now)] else s.writes)
  }

  function Apply(s: Planner, step: Step): Planner {
    match step
    case Arrive(caller, key) => if caller in s.waiting then s else Arrived(s, caller, key)
    case EndTask(t, route) =>
      if t < |s.tasks| && s.tasks[t].state.Running? then
        s.(tasks := s.tasks[t := s.tasks[t].(state := if route.Some? then Done(route.value) else Failed)])
      else s
    case Resume(caller) =>
      if caller in s.waiting && s.waiting[caller].task < |s.tasks| && s.tasks[s.waiting[caller].task].state.Done?
      then Resumed(s, caller, s.waiting[caller], s.tasks[s.waiting[caller].task].state.route)
      else s
    case Abandon(caller) =>
      if caller in s.waiting && s.waiting[caller].task < |s.tasks|
      then Abandoned(s, caller, s.waiting[caller], !s.tasks[s.waiting[caller].task].state.Running?)
      else s
    case FinalizerWakes(t) =>
      if t in s.finalizers && t < |s.tasks| && !s.tasks[t].state.Running? then Woken(s, t, s.tasks[t]) else s
    case Tick(elapsed) => if elapsed >= 0.0 then s.(now := s.now + elapsed) else s
  }

  function Run(s: Planner, steps: seq<Step>): Planner {
    if steps == [] then s else Apply(Run(s, steps[..|steps| - 1]), steps[|steps| - 1])
  }

  // ---------------------------------------------------------------- the invariant

  /** A running task is its key's in-flight entry, and an entry names a task for its own key. */
  ghost predicate TasksOk(inflight: map<Key, nat>, tasks: seq<Task>) {
    && (forall t: nat :: t < |tasks| && tasks[t].state.Running?
                         ==> tasks[t].key in inflight && inflight[tasks[t].key] == t)
    && (forall k :: k in inflight ==> inflight[k] < |tasks| && tasks[inflight[k]].key == k)
  }

  ghost predicate WaitersOk(waiting: map<int, Waiter>, finalizers: multiset<nat>, tasks: seq<Task>) {
    && (forall c :: c in waiting ==> waiting[c].task < |tasks| && tasks[waiting[c].task].key == waiting[c].key)
    && (forall t :: t in finalizers ==> t < |tasks|)
  }

  /** Somebody will come back for the task. */
  ghost predicate Watched(waiting: map<int, Waiter>, finalizers: multiset<nat>, t: nat) {
    (exists c :: c in waiting && waiting[c].task == t) || t in finalizers
  }

  ghost predicate EntriesWatched(inflight: map<Key, nat>, waiting: map<int, Waiter>, finalizers: multiset<nat>) {
    forall k :: k in inflight ==> Watched(waiting, finalizers, inflight[k])
  }

  /** A task for this very key returned this route. */
  ghost predicate Produced(tasks: seq<Task>, key: Key, route: Route) {
    exists t: nat :: t < |tasks| && tasks[t] == Task(key, Done(route))
  }

  ghost predicate CacheOk(cache: seq<Slot>, tasks: seq<Task>, latest: real) {
    forall slot :: slot in cache ==> Produced(tasks, slot.key, slot.route) && slot.expires <= latest
  }

  /** Every slot was written, a TTL before it expires. */
  ghost predicate WritesOk(ttl: real, cache: seq<Slot>, writes: seq<CacheWrite>) {
    forall slot :: slot in cache ==> CacheWrite(slot.key, slot.route, slot.expires - ttl) in writes
  }

  ghost predicate ReturnedOk(returned: seq<(Key, Route)>, tasks: seq<Task>) {
    forall r :: r in returned ==> Produced(tasks, r.0, r.1)
  }

  ghost predicate CacheIsWindow(ttl: real, cache: seq<Slot>, touches: seq<Key>) {
    && Keys(cache) == Last(Recent(touches), CAPACITY)
    && (ttl == 0.0 ==> cache == [] && touches == [])
  }

  ghost predicate Inv(s: Planner) {
    && ValidTtl(s.ttl)
    && TasksOk(s.shared.inflight, s.tasks)
    && WaitersOk(s.waiting, s.finalizers, s.tasks)
    && EntriesWatched(s.shared.inflight, s.waiting, s.finalizers)
    && CacheOk(s.shared.cache, s.tasks, s.now + s.ttl)
    && ReturnedOk(s.returned, s.tasks)
    && CacheIsWindow(s.ttl, s.shared.cache, s.touches)
    && WritesOk(s.ttl, s.shared.cache, s.writes)
  }

  // ---------------------------------------------------------------- cache lemmas

  lemma {:induction false} LookupFinds(cache: seq<Slot>, key: Key)
    ensures Lookup(cache, key).Some? <==> key in Elements(Keys(cache))
    ensures Lookup(cache, key).Some? ==> Lookup(cache, key).value in cache && Lookup(cache, key).value.key == key
  {
    if cache != [] {
      LookupFinds(cache[..|cache| - 1], key);
      Snoc(Keys(cache[..|cache| - 1]), cache[|cache| - 1].key);
    }
  }

  lemma {:induction false} RemoveMembers(cache: seq<Slot>, key: Key)
    ensures forall slot :: slot in Remove(cache, key) ==> slot in cache
  {
    if cache != [] { RemoveMembers(cache[..|cache| - 1], key); }
  }

  lemma {:induction false} TrimMembers(cache: seq<Slot>)
    ensures forall slot :: slot in Trim(cache) ==> slot in cache
    decreases |cache|
  {
    if |cache| > CAPACITY { TrimMembers(cache[1..]); }
  }

  lemma WriteMembers(cache: seq<Slot>, slot: Slot)
    ensures forall o :: o in Write(cache, slot) ==> o == slot || o in cache
    ensures forall o :: o in MoveToEnd(cache, slot) ==> o == slot || o in cache
  {
    hide Remove, Trim;
    RemoveMembers(cache, slot.key);
    TrimMembers(Remove(cache, slot.key) + [slot]);
  }

  lemma StoreKeepsCache(ttl: real, cache: seq<Slot>, touches: seq<Key>, tasks: seq<Task>, key: Key, route: Route, now: real)
    requires ValidTtl(ttl) && Produced(tasks, key, route)
    requires CacheOk(cache, tasks, now + ttl) && CacheIsWindow(ttl, cache, touches)
    ensures CacheOk(Store(cache, key, route, now, ttl), tasks, now + ttl)
    ensures CacheIsWindow(ttl, Store(cache, key, route, now, ttl), if ttl > 0.0 then touches + [key] else touches)
  {
    hide Produced, Write, Recent, Last, Keys;
    if ttl > 0.0 {
      WriteMembers(cache, Slot(key, now + ttl, route));
      WriteKeepsWindow(cache, Slot(key, now + ttl, route), touches);
    }
  }

  lemma StoreKeepsWrites(ttl: real, cache: seq<Slot>, writes: seq<CacheWrite>, key: Key, route: Route, now: real)
    requires WritesOk(ttl, cache, writes)
    ensures WritesOk(ttl, Store(cache, key, route, now, ttl), if ttl > 0.0 then writes + [CacheWrite(key, route, now)] else writes)
  {
    WriteMembers(cache, Slot(key, now + ttl, route));
    hide Write;
  }

  lemma HitKeepsWrites(ttl: real, cache: seq<Slot>, writes: seq<CacheWrite>, key: Key)
    requires WritesOk(ttl, cache, writes) && Lookup(cache, key).Some?
    ensures WritesOk(ttl, MoveToEnd(cache, Lookup(cache, key).value), writes)
  {
    LookupFinds(cache, key);
    WriteMembers(cache, Lookup(cache, key).value);
    hide MoveToEnd, Lookup;
  }

  lemma HitKeepsCache(ttl: real, cache: seq<Slot>, touches: seq<Key>, tasks: seq<Task>, key: Key, latest: real)
    requires ValidTtl(ttl) && Lookup(cache, key).Some?
    requires CacheOk(cache, tasks, latest) && CacheIsWindow(ttl, cache, touches)
    ensures Lookup(cache, key).value.key == key && Produced(tasks, key, Lookup(cache, key).value.route)
    ensures CacheOk(MoveToEnd(cache, Lookup(cache, key).value), tasks, latest)
    ensures CacheIsWindow(ttl, MoveToEnd(cache, Lookup(cache, key).value), touches + [key])
  {
    hide Produced, Recent, Last, Keys, MoveToEnd, Elements, Lookup;
    LookupFinds(cache, key);
    WriteMembers(cache, Lookup(cache, key).value);
    HitKeepsWindow(cache, Lookup(cache, key).value, touches);
  }

  /** Tasks only gain results. */
  ghost predicate Extends(tasks: seq<Task>, more: seq<Task>) {
    |tasks| <= |more| && forall t: nat :: t < |tasks| && tasks[t].state.Done? ==> more[t] == tasks[t]
  }

  lemma ProducedStays(tasks: seq<Task>, more: seq<Task>, key: Key, route: Route)
    requires Extends(tasks, more) && Produced(tasks, key, route)
    ensures Produced(more, key, route)
  {
    var t: nat :| t < |tasks| && tasks[t] == Task(key, Done(route));
    assert more[t] == Task(key, Done(route));
  }

  lemma ResultsStay(tasks: seq<Task>, more: seq<Task>, cache: seq<Slot>, returned: seq<(Key, Route)>, latest: real)
    requires Extends(tasks, more) && CacheOk(cache, tasks, latest) && ReturnedOk(returned, tasks)
    ensures CacheOk(cache, more, latest) && ReturnedOk(returned, more)
  {
    forall slot | slot in cache ensures Produced(more, slot.key, slot.route) {
      ProducedStays(tasks, more, slot.key, slot.route);
    }
    forall r | r in returned ensures Produced(more, r.0, r.1) { ProducedStays(tasks, more, r.0, r.1); }
  }

  // ---------------------------------------------------------------- every step keeps the invariant

  lemma WaiterSeen(waiting: map<int, Waiter>, finalizers: multiset<nat>, c: int)
    requires c in waiting
    ensures Watched(waiting, finalizers, waiting[c].task)
  {
  }

  /** Adding a waiter, whatever it waits for, unwatches nothing. */
  lemma JoinKeepsWatch(inflight: map<Key, nat>, waiting: map<int, Waiter>, finalizers: multiset<nat>, c: int, w: Waiter)
    requires c !in waiting && EntriesWatched(inflight, waiting, finalizers)
    ensures EntriesWatched(inflight[w.key := w.task], waiting[c := w], finalizers)
    ensures w.key in inflight && inflight[w.key] == w.task ==> EntriesWatched(inflight, waiting[c := w], finalizers)
  {
    WaiterSeen(waiting[c := w], finalizers, c);
    forall k | k in inflight && k != w.key ensures Watched(waiting[c := w], finalizers, inflight[k]) {
      if inflight[k] !in finalizers {
        var o :| o in waiting && waiting[o].task == inflight[k];
        WaiterSeen(waiting[c := w], finalizers, o);
      }
    }
  }

  /** A waiter may leave once its task is out of the table or has a finalizer. */
  lemma LeaveKeepsWatch(inflight: map<Key, nat>, waiting: map<int, Waiter>, finalizers: multiset<nat>,
                        rest: map<Key, nat>, more: multiset<nat>, c: int)
    requires c in waiting && EntriesWatched(inflight, waiting, finalizers)
    requires forall k :: k in rest ==> k in inflight && rest[k] == inflight[k]
    requires forall k :: k in rest ==> rest[k] != waiting[c].task || rest[k] in more
    requires finalizers <= more
    ensures EntriesWatched(rest, waiting - {c}, more)
  {
    forall k | k in rest ensures Watched(waiting - {c}, more, rest[k]) {
      if rest[k] !in more {
        assert rest[k] !in finalizers;
        assert Watched(waiting, finalizers, inflight[k]);
        var o :| o in waiting && waiting[o].task == rest[k];
        WaiterSeen(waiting - {c}, more, o);
      }
    }
  }

  lemma JoinKeepsInv(s: Planner, caller: int, key: Key)
    requires Inv(s) && caller !in s.waiting && key in s.shared.inflight
    ensures Inv(s.(waiting := s.waiting[caller := Waiter(key, s.shared.inflight[key])]))
  {
    hide WritesOk, CacheOk, ReturnedOk, CacheIsWindow, Watched, EntriesWatched;
    JoinKeepsWatch(s.shared.inflight, s.waiting, s.finalizers, caller, Waiter(key, s.shared.inflight[key]));
  }

  lemma CreateKeepsInv(s: Planner, caller: int, key: Key)
    requires Inv(s) && caller !in s.waiting && key !in s.shared.inflight
    ensures Inv(s.(shared := s.shared.(inflight := s.shared.inflight[key := |s.tasks|]),
                   waiting := s.waiting[caller := Waiter(key, |s.tasks|)],
                   tasks := s.tasks + [Task(key, Running)]))
  {
    var more := s.tasks + [Task(key, Running)];
    JoinKeepsWatch(s.shared.inflight, s.waiting, s.finalizers, caller, Waiter(key, |s.tasks|));
    ResultsStay(s.tasks, more, s.shared.cache, s.returned, s.now + s.ttl);
    hide WritesOk, CacheOk, ReturnedOk, CacheIsWindow, Watched, EntriesWatched;
    assert TasksOk(s.shared.inflight[key := |s.tasks|], more);
    assert WaitersOk(s.waiting[caller := Waiter(key, |s.tasks|)], s.finalizers, more);
  }

  lemma ReturnKeepsOk(returned: seq<(Key, Route)>, tasks: seq<Task>, key: Key, route: Route)
    requires ReturnedOk(returned, tasks) && Produced(tasks, key, route)
    ensures ReturnedOk(returned + [(key, route)], tasks)
  {
  }

  lemma ArriveKeepsInv(s: Planner, caller: int, key: Key)
    requires Inv(s) && caller !in s.waiting
    ensures Inv(Arrived(s, caller, key))
  {
    var cached := Lookup(s.shared.cache, key);
    if cached.Some? && cached.value.expires > s.now {
      HitKeepsCache(s.ttl, s.shared.cache, s.touches, s.tasks, key, s.now + s.ttl);
      ReturnKeepsOk(s.returned, s.tasks, key, cached.value.route);
      TtlZeroNeverHits(s, key);
      HitKeepsWrites(s.ttl, s.shared.cache, s.writes, key);
      hide WritesOk, CacheOk, ReturnedOk, Watched, EntriesWatched, TasksOk, WaitersOk, MoveToEnd, Lookup, Produced;
    } else if key in s.shared.inflight {
      assert s.shared.inflight[key] < |s.tasks|;
      JoinKeepsInv(s, caller, key);
      hide WritesOk, CacheOk, ReturnedOk, CacheIsWindow, Watched, EntriesWatched, TasksOk, WaitersOk, Lookup, MoveToEnd;
    } else {
      CreateKeepsInv(s, caller, key);
      hide WritesOk, CacheOk, ReturnedOk, CacheIsWindow, Watched, EntriesWatched, TasksOk, WaitersOk, Lookup, MoveToEnd;
    }
  }

  lemma TtlZeroNeverHits(s: Planner, key: Key)
    requires Inv(s) && Lookup(s.shared.cache, key).Some?
    ensures s.ttl > 0.0
  {
  }

  lemma EndTaskKeepsInv(s: Planner, t: nat, state: TaskState)
    requires Inv(s) && t < |s.tasks| && s.tasks[t].state.Running? && !state.Running?
    ensures Inv(s.(tasks := s.tasks[t := s.tasks[t].(state := state)]))
  {
    var more := s.tasks[t := s.tasks[t].(state := state)];
    ResultsStay(s.tasks, more, s.shared.cache, s.returned, s.now + s.ttl);
    hide WritesOk, CacheOk, ReturnedOk, CacheIsWindow, Watched, EntriesWatched;
    assert TasksOk(s.shared.inflight, more);
    assert WaitersOk(s.waiting, s.finalizers, more);
  }

  /** Taking a finished task's entry out of the table. */
  lemma PopKeepsTasks(h: Shared, tasks: seq<Task>, key: Key, t: nat)
    requires TasksOk(h.inflight, tasks) && t < |tasks| && tasks[t].key == key && !tasks[t].state.Running?
    ensures TasksOk(Pop(h, key, t), tasks)
    ensures forall k :: k in Pop(h, key, t) ==> k in h.inflight && Pop(h, key, t)[k] == h.inflight[k] != t
  {
  }

  lemma LeaveKeepsWaiters(s: Planner, c: int)
    requires WaitersOk(s.waiting, s.finalizers, s.tasks)
    ensures WaitersOk(s.waiting - {c}, s.finalizers, s.tasks)
  {
  }

  lemma ResumeKeepsInv(s: Planner, c: int)
    requires Inv(s) && c in s.waiting && s.waiting[c].task < |s.tasks| && s.tasks[s.waiting[c].task].state.Done?
    ensures Inv(Resumed(s, c, s.waiting[c], s.tasks[s.waiting[c].task].state.route))
  {
    var w := s.waiting[c];
    var route := s.tasks[w.task].state.route;
    assert s.tasks[w.task] == Task(w.key, Done(route));
    assert Produced(s.tasks, w.key, route);
    PopKeepsTasks(s.shared, s.tasks, w.key, w.task);
    LeaveKeepsWatch(s.shared.inflight, s.waiting, s.finalizers, Pop(s.shared, w.key, w.task), s.finalizers, c);
    LeaveKeepsWaiters(s, c);
    hide Watched, EntriesWatched, TasksOk, WaitersOk, Pop, Produced;
    StoreKeepsCache(s.ttl, s.shared.cache, s.touches, s.tasks, w.key, route, s.now);
    ReturnKeepsOk(s.returned, s.tasks, w.key, route);
    StoreKeepsWrites(s.ttl, s.shared.cache, s.writes, w.key, route, s.now);
    hide WritesOk, CacheOk, ReturnedOk, CacheIsWindow, Store;
  }

  lemma AbandonKeepsInv(s: Planner, c: int)
    requires Inv(s) && c in s.waiting && s.waiting[c].task < |s.tasks|
    ensures Inv(Abandoned(s, c, s.waiting[c], !s.tasks[s.waiting[c].task].state.Running?))
  {
    var w := s.waiting[c];
    LeaveKeepsWaiters(s, c);
    hide WritesOk, CacheOk, ReturnedOk, CacheIsWindow;
    if s.tasks[w.task].state.Running? {
      var more := if InFlight(s.shared, w.key, w.task) then s.finalizers + multiset{w.task} else s.finalizers;
      assert InFlight(s.shared, w.key, w.task);
      LeaveKeepsWatch(s.shared.inflight, s.waiting, s.finalizers, s.shared.inflight, more, c);
      hide Watched, EntriesWatched, TasksOk;
    } else {
      PopKeepsTasks(s.shared, s.tasks, w.key, w.task);
      LeaveKeepsWatch(s.shared.inflight, s.waiting, s.finalizers, Pop(s.shared, w.key, w.task), s.finalizers, c);
      hide Watched, EntriesWatched, TasksOk, WaitersOk, Pop;
    }
  }

  lemma WakeKeepsWatch(inflight: map<Key, nat>, waiting: map<int, Waiter>, finalizers: multiset<nat>, rest: map<Key, nat>, t: nat)
    requires EntriesWatched(inflight, waiting, finalizers)
    requires forall k :: k in rest ==> k in inflight && rest[k] == inflight[k] != t
    ensures EntriesWatched(rest, waiting, finalizers - multiset{t})
  {
    forall k | k in rest ensures Watched(waiting, finalizers - multiset{t}, rest[k]) {
      if rest[k] in finalizers {
        assert rest[k] in finalizers - multiset{t};
      } else {
        var o :| o in waiting && waiting[o].task == rest[k];
        WaiterSeen(waiting, finalizers - multiset{t}, o);
      }
    }
  }

  lemma WakeKeepsInv(s: Planner, t: nat)
    requires Inv(s) && t in s.finalizers && t < |s.tasks| && !s.tasks[t].state.Running?
    ensures Inv(Woken(s, t, s.tasks[t]))
  {
    var task := s.tasks[t];
    PopKeepsTasks(s.shared, s.tasks, task.key, t);
    WakeKeepsWatch(s.shared.inflight, s.waiting, s.finalizers, Pop(s.shared, task.key, t), t);
    assert WaitersOk(s.waiting, s.finalizers - multiset{t}, s.tasks);
    if InFlight(s.shared, task.key, t) && task.state.Done? {
      assert task == Task(task.key, Done(task.state.route));
      assert Produced(s.tasks, task.key, task.state.route);
      StoreKeepsCache(s.ttl, s.shared.cache, s.touches, s.tasks, task.key, task.state.route, s.now);
      StoreKeepsWrites(s.ttl, s.shared.cache, s.writes, task.key, task.state.route, s.now);
    }
    hide WritesOk, Watched, EntriesWatched, TasksOk, WaitersOk, CacheOk, ReturnedOk, CacheIsWindow, Store, Produced;
  }

  lemma TickKeepsInv(s: Planner, elapsed: real)
    requires Inv(s) && elapsed >= 0.0
    ensures Inv(s.(now := s.now + elapsed))
  {
    hide WritesOk, TasksOk, WaitersOk, EntriesWatched, ReturnedOk, CacheIsWindow, Produced;
  }

  lemma StepKeepsInv(s: Planner, step: Step)
    requires Inv(s)
    ensures Inv(Apply(s, step))
  {
    hide Inv, Arrived, Resumed, Abandoned, Woken;
    match step
    case Arrive(c, key) => if c !in s.waiting { ArriveKeepsInv(s, c, key); }
    case EndTask(t, route) =>
      if t < |s.tasks| && s.tasks[t].state.Running? {
        EndTaskKeepsInv(s, t, if route.Some? then Done(route.value) else Failed);
      }
    case Resume(c) =>
      if c in s.waiting && s.waiting[c].task < |s.tasks| && s.tasks[s.waiting[c].task].state.Done? { ResumeKeepsInv(s, c); }
    case Abandon(c) => if c in s.waiting && s.waiting[c].task < |s.tasks| { AbandonKeepsInv(s, c); }
    case FinalizerWakes(t) =>
      if t in s.finalizers && t < |s.tasks| && !s.tasks[t].state.Running? { WakeKeepsInv(s, t); }
    case Tick(elapsed) => if elapsed >= 0.0 { TickKeepsInv(s, elapsed); }
  }

  lemma {:induction false} RunKeepsInv(ttl: real, steps: seq<Step>)
    requires ValidTtl(ttl)
    ensures Inv(Run(Init(ttl), steps))
  {
    if steps != [] {
      RunKeepsInv(ttl, steps[..|steps| - 1]);
      StepKeepsInv(Run(Init(ttl), steps[..|steps| - 1]), steps[|steps| - 1]);
    }
  }

  // ---------------------------------------------------------------- main results

  /** Single flight: in every run, two running tasks never plan the same key. */
  lemma {:induction false} OneRunningTaskPerKey(ttl: real, steps: seq<Step>, t: nat, u: nat)
    requires ValidTtl(ttl)
    requires t < |Run(Init(ttl), steps).tasks| && Run(Init(ttl), steps).tasks[t].state.Running?
    requires u < |Run(Init(ttl), steps).tasks| && Run(Init(ttl), steps).tasks[u].state.Running?
    requires Run(Init(ttl), steps).tasks[t].key == Run(Init(ttl), steps).tasks[u].key
    ensures t == u
  {
    RunKeepsInv(ttl, steps);
  }

  /** In every run, each returned and each cached route came from a task created for that key. */
  lemma {:induction false} ResultsBelongToTheirKey(ttl: real, steps: seq<Step>)
    requires ValidTtl(ttl)
    ensures var s := Run(Init(ttl), steps);
            && (forall r :: r in s.returned ==> Produced(s.tasks, r.0, r.1))
            && (forall slot :: slot in s.shared.cache ==> Produced(s.tasks, slot.key, slot.route))
  {
    RunKeepsInv(ttl, steps);
  }

  /** Whoever comes back for a finished task takes it out of the table. */
  predicate ComesBack(s: Planner, step: Step, t: nat) {
    match step
    case Resume(c) => c in s.waiting && s.waiting[c].task == t && t < |s.tasks| && s.tasks[t].state.Done?
    case Abandon(c) => c in s.waiting && s.waiting[c].task == t
    case FinalizerWakes(u) => u == t && t in s.finalizers
    case _ => false
  }

  lemma SomebodyComesBack(inflight: map<Key, nat>, waiting: map<int, Waiter>, finalizers: multiset<nat>)
    requires EntriesWatched(inflight, waiting, finalizers) && inflight != map[]
    ensures waiting != map[] || finalizers != multiset{}
  {
    var k :| k in inflight;
    assert Watched(waiting, finalizers, inflight[k]);
  }

  /**
   * No entry leaks. In every run, each in-flight entry has somebody who will come back for
   * its task; once the task has ended, the first to come back removes the entry; and when
   * nobody is waiting and no finalizer is left, the table is empty.
   */
  lemma {:induction false} NoEntryLeaks(ttl: real, steps: seq<Step>, key: Key, step: Step)
    requires ValidTtl(ttl)
    ensures var s := Run(Init(ttl), steps);
            && (key in s.shared.inflight ==>
                  s.shared.inflight[key] < |s.tasks| && Watched(s.waiting, s.finalizers, s.shared.inflight[key]))
            && (key in s.shared.inflight && !s.tasks[s.shared.inflight[key]].state.Running?
                && ComesBack(s, step, s.shared.inflight[key])
                ==> key !in Apply(s, step).shared.inflight)
            && (s.waiting == map[] && s.finalizers == multiset{} ==> s.shared.inflight == map[])
  {
    var s := Run(Init(ttl), steps);
    RunKeepsInv(ttl, steps);
    if s.shared.inflight != map[] { SomebodyComesBack(s.shared.inflight, s.waiting, s.finalizers); }
    hide Run, CacheOk, ReturnedOk, CacheIsWindow, Watched, Lookup, Write, MoveToEnd, Store;
    if key in s.shared.inflight && !s.tasks[s.shared.inflight[key]].state.Running?
       && ComesBack(s, step, s.shared.inflight[key])
    {
      assert s.tasks[s.shared.inflight[key]].key == key;
    }
  }

  /**
   * LRU: in every run a key is cached exactly when it was touched (hit fresh or written) and
   * fewer than 1024 other keys were touched since; with TTL 0 nothing is ever cached.
   */
  lemma {:induction false} CacheIsMostRecentlyUsed(ttl: real, steps: seq<Step>, key: Key)
    requires ValidTtl(ttl)
    ensures var s := Run(Init(ttl), steps);
            && Keys(s.shared.cache) == Last(Recent(s.touches), CAPACITY)
            && |s.shared.cache| <= CAPACITY
            && (Lookup(s.shared.cache, key).Some? <==> key in Elements(s.touches) && |After(s.touches, key)| < CAPACITY)
            && (ttl == 0.0 ==> s.shared.cache == [])
  {
    var s := Run(Init(ttl), steps);
    RunKeepsInv(ttl, steps);
    TtlIsConstant(Init(ttl), steps);
    assert CacheIsWindow(s.ttl, s.shared.cache, s.touches);
    hide Inv, Run, Recent, Elements;
    LookupFinds(s.shared.cache, key);
    InWindowIff(s.touches, key, CAPACITY);
  }

  lemma {:induction false} TtlIsConstant(s: Planner, steps: seq<Step>)
    ensures Run(s, steps).ttl == s.ttl
  {
    if steps != [] { TtlIsConstant(s, steps[..|steps| - 1]); }
  }

  // ---------------------------------------------------------------- what a caller gets

  lemma {:induction false} LookupIsUnique(cache: seq<Slot>, slot: Slot)
    requires NoDuplicates(Keys(cache)) && slot in cache
    ensures Lookup(cache, slot.key) == Some(slot)
  {
    var front, last := cache[..|cache| - 1], cache[|cache| - 1];
    Snoc(Keys(front), last.key);
    if slot != last {
      assert slot in front;
      LookupIsUnique(front, slot);
      LookupFinds(front, slot.key);
    }
  }

  lemma CacheHasNoDuplicates(ttl: real, cache: seq<Slot>, touches: seq<Key>)
    requires CacheIsWindow(ttl, cache, touches)
    ensures NoDuplicates(Keys(cache))
  {
    RecentNoDuplicates(touches);
    var r := Recent(touches);
    hide Recent, Keys, NoDuplicates;
    if |r| > CAPACITY {
      assert r == r[..|r| - CAPACITY] + r[|r| - CAPACITY..];
      SplitNoDuplicates(r[..|r| - CAPACITY], r[|r| - CAPACITY..]);
    }
  }

  ghost predicate HasFresh(cache: seq<Slot>, key: Key, now: real) {
    exists slot :: slot in cache && slot.key == key && slot.expires > now
  }

  lemma FreshIsFound(cache: seq<Slot>, key: Key, now: real)
    requires NoDuplicates(Keys(cache))
    ensures HasFresh(cache, key, now) <==> Lookup(cache, key).Some? && Lookup(cache, key).value.expires > now
    ensures forall slot :: slot in cache && slot.key == key ==> Lookup(cache, key) == Some(slot)
  {
    LookupFinds(cache, key);
    forall slot | slot in cache && slot.key == key ensures Lookup(cache, key) == Some(slot) { LookupIsUnique(cache, slot); }
  }

  /**
   * In every run, a caller who arrives for a key with an unexpired cached result gets exactly that
   * result, at once and without a task, whatever else is in flight; otherwise the caller joins the
   * task in flight for the key if there is one, and otherwise one task is created for the key.
   */
  lemma {:induction false} ArrivalIsServed(ttl: real, steps: seq<Step>, caller: int, key: Key)
    requires ValidTtl(ttl) && caller !in Run(Init(ttl), steps).waiting
    ensures var s := Run(Init(ttl), steps);
            var after := Apply(s, Arrive(caller, key));
            && (forall slot :: slot in s.shared.cache && slot.key == key && slot.expires > s.now ==>
                  && after.returned == s.returned + [(key, slot.route)] && after.touches == s.touches + [key]
                  && (after.tasks, after.waiting, after.shared.inflight) == (s.tasks, s.waiting, s.shared.inflight))
            && (!HasFresh(s.shared.cache, key, s.now) ==>
                  && (after.returned, after.touches, after.shared.cache) == (s.returned, s.touches, s.shared.cache)
                  && if key in s.shared.inflight then
                       && after.waiting == s.waiting[caller := Waiter(key, s.shared.inflight[key])]
                       && (after.tasks, after.shared.inflight) == (s.tasks, s.shared.inflight)
                     else
                       && after.waiting == s.waiting[caller := Waiter(key, |s.tasks|)]
                       && after.tasks == s.tasks + [Task(key, Running)]
                       && after.shared.inflight == s.shared.inflight[key := |s.tasks|])
  {
    var s := Run(Init(ttl), steps);
    RunKeepsInv(ttl, steps);
    CacheHasNoDuplicates(s.ttl, s.shared.cache, s.touches);
    FreshIsFound(s.shared.cache, key, s.now);
    assert key in s.shared.inflight ==> s.shared.inflight[key] < |s.tasks|;
    hide Run, Inv, Lookup, MoveToEnd, HasFresh, Keys, NoDuplicates;
  }

  lemma {:induction false} TrimKeepsLast(cache: seq<Slot>)
    requires cache != []
    ensures Trim(cache) != [] && Trim(cache)[|Trim(cache)| - 1] == cache[|cache| - 1]
    decreases |cache|
  {
    if |cache| > CAPACITY { TrimKeepsLast(cache[1..]); }
  }

  /** The result is the cache's newest entry, fresh for a TTL; with TTL 0 nothing is stored. */
  predicate Stored(before: seq<Slot>, after: seq<Slot>, key: Key, route: Route, now: real, ttl: real) {
    if ttl > 0.0 then after != [] && after[|after| - 1] == Slot(key, now + ttl, route) else after == before
  }

  lemma StoreStores(cache: seq<Slot>, key: Key, route: Route, now: real, ttl: real)
    ensures Stored(cache, Store(cache, key, route, now, ttl), key, route, now, ttl)
  {
    TrimKeepsLast(Remove(cache, key) + [Slot(key, now + ttl, route)]);
  }

  /** The key's entry is gone if it named the task; all others stay. */
  predicate Popped(before: map<Key, nat>, after: map<Key, nat>, key: Key, task: nat) {
    after == if key in before && before[key] == task then before - {key} else before
  }

  /**
   * Whoever comes back for a task: a caller whose task returned gets its route, which is cached; a
   * caller who gives up a running task schedules a finalizer, unless the key is planned anew; a
   * finalizer caches the result of a task still in the table. A finished task leaves the table.
   */
  lemma {:induction false} ComingBackSettles(s: Planner, caller: int, t: nat)
    requires t < |s.tasks|
    ensures var (task, after) := (s.tasks[t], Apply(s, Resume(caller)));
            caller in s.waiting && s.waiting[caller].task == t && task.state.Done? ==>
              var key := s.waiting[caller].key;
              && after.returned == s.returned + [(key, task.state.route)] && after.waiting == s.waiting - {caller}
              && Stored(s.shared.cache, after.shared.cache, key, task.state.route, s.now, s.ttl)
              && Popped(s.shared.inflight, after.shared.inflight, key, t)
    ensures var (task, after) := (s.tasks[t], Apply(s, Abandon(caller)));
            caller in s.waiting && s.waiting[caller].task == t ==>
              var (key, entry) := (s.waiting[caller].key, s.shared.inflight);
              && after.returned == s.returned && after.waiting == s.waiting - {caller} && after.shared.cache == s.shared.cache
              && (if task.state.Running? then after.shared.inflight == entry else Popped(entry, after.shared.inflight, key, t))
              && after.finalizers == if task.state.Running? && key in entry && entry[key] == t
                                     then s.finalizers + multiset{t} else s.finalizers
    ensures var (task, after) := (s.tasks[t], Apply(s, FinalizerWakes(t)));
            t in s.finalizers && !task.state.Running? ==>
              && Popped(s.shared.inflight, after.shared.inflight, task.key, t)
              && (after.returned, after.waiting) == (s.returned, s.waiting)
              && if task.state.Done? && task.key in s.shared.inflight && s.shared.inflight[task.key] == t
                 then Stored(s.shared.cache, after.shared.cache, task.key, task.state.route, s.now, s.ttl)
                 else after.shared.cache == s.shared.cache
  {
    var task := s.tasks[t];
    if task.state.Done? {
      StoreStores(s.shared.cache, task.key, task.state.route, s.now, s.ttl);
      if caller in s.waiting { StoreStores(s.shared.cache, s.waiting[caller].key, task.state.route, s.now, s.ttl); }
    }
    hide Store, Stored;
  }

  /** The route was stored for the key less than a TTL ago. */
  ghost predicate WrittenWithin(writes: seq<CacheWrite>, key: Key, route: Route, now: real, ttl: real) {
    exists w :: w in writes && w.key == key && w.route == route && w.at <= now < w.at + ttl
  }

  lemma HitIsFresh(h: Shared, tasks: seq<Task>, writes: seq<CacheWrite>, key: Key, now: real, ttl: real, next: nat)
    requires CacheOk(h.cache, tasks, now + ttl) && WritesOk(ttl, h.cache, writes) && Enter(h, key, now, next).1.Hit?
    ensures Produced(tasks, key, Enter(h, key, now, next).1.route)
    ensures WrittenWithin(writes, key, Enter(h, key, now, next).1.route, now, ttl)
  {
    LookupFinds(h.cache, key);
    var slot := Lookup(h.cache, key).value;
    hide Lookup, MoveToEnd, Produced;
    assert slot in h.cache;
    var w := CacheWrite(slot.key, slot.route, slot.expires - ttl);
    assert w in writes && w.at <= now < w.at + ttl;
  }

  /** A hit serves a route that was written for its key less than a TTL ago, by a task for that key. */
  lemma {:induction false} HitsAreFresh(ttl: real, steps: seq<Step>, key: Key)
    requires ValidTtl(ttl)
    requires Enter(Run(Init(ttl), steps).shared, key, Run(Init(ttl), steps).now, |Run(Init(ttl), steps).tasks|).1.Hit?
    ensures var s := Run(Init(ttl), steps);
            var route := Enter(s.shared, key, s.now, |s.tasks|).1.route;
            Produced(s.tasks, key, route) && WrittenWithin(s.writes, key, route, s.now, ttl)
  {
    var s := Run(Init(ttl), steps);
    RunKeepsInv(ttl, steps);
    TtlIsConstant(Init(ttl), steps);
    assert CacheOk(s.shared.cache, s.tasks, s.now + s.ttl) && WritesOk(s.ttl, s.shared.cache, s.writes);
    hide *;
    HitIsFresh(s.shared, s.tasks, s.writes, key, s.now, ttl, |s.tasks|);
  }

  // ---------------------------------------------------------------- the class

  class RoutePlanner {
    const ttl: real
    var cache: seq<Slot>
    var inflight: map<Key, nat>
    var created: nat  // tasks created so far: the next task's name

    ghost function State(): Shared
      reads this
    {
      Shared(cache, inflight)
    }

    constructor (ttl: real)
      requires ValidTtl(ttl)
      ensures this.ttl == ttl && State() == Init(ttl).shared && created == 0
    {
      this.ttl := ttl;
      cache, inflight, created := [], map[], 0;
    }

    /** The first lock section of plan. */
    method EnterPlan(key: Key, now: real) returns (entry: Entry)
      modifies this
      ensures (State(), entry) == Enter(old(State()), key, now, old(created))
      ensures created == if old(State().inflight) == inflight then old(created) else old(created) + 1
    {
      var cached := Lookup(cache, key);
      if cached.Some? && cached.value.expires > now {
        cache := MoveToEnd(cache, cached.value);
        return Hit(cached.value.route);
      }
      if key !in inflight {
        inflight := inflight[key := created];
        created := created + 1;
        assert key in inflight;
      }
      entry := Await(inflight[key]);
    }

    /** Writing a result and evicting from the least recently used end. */
    method StoreResult(key: Key, route: Route, now: real)
      modifies this`cache
      ensures cache == Store(old(cache), key, route, now, ttl)
    {
      if ttl > 0.0 {
        cache := Remove(cache, key) + [Slot(key, now + ttl, route)];
        while |cache| > CAPACITY
          invariant Trim(cache) == Write(old(cache), Slot(key, now + ttl, route))
          decreases |cache|
        {
          cache := cache[1..];
        }
      }
    }

    /** The last lock section of plan. */
    method SettlePlan(key: Key, task: nat, route: Route, now: real)
      modifies this`cache, this`inflight
      ensures State() == Settle(old(State()), key, task, route, now, ttl)
    {
      if key in inflight && inflight[key] == task {
        inflight := inflight - {key};
      }
      StoreResult(key, route, now);
    }

    /** The exception handler's lock section. */
    method GiveUpPlan(key: Key, task: nat, done: bool) returns (finalize: bool)
      modifies this`inflight
      ensures (State(), finalize) == GiveUp(old(State()), key, task, done)
    {
      finalize := false;
      if done && key in inflight && inflight[key] == task {
        inflight := inflight - {key};
      } else if !done && key in inflight && inflight[key] == task {
        finalize := true;
      }
    }

    /** _finalize_abandoned after its shielded wait. */
    method FinalizeAbandoned(key: Key, task: nat, result: Option<Route>, now: real)
      modifies this`cache, this`inflight
      ensures State() == Finalize(old(State()), key, task, result, now, ttl)
    {
      if key !in inflight || inflight[key] != task {
        return;
      }
      inflight := inflight - {key};
      if result.Some? {
        StoreResult(key, result.value, now);
      }
    }
  }
}
