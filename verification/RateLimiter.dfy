/**
 * The fixed-window rate limiter with a bounded subject table and an overflow counter
 * (api/.../config/ApiRateLimitFilter.java), requests served one at a time.
 */
module RateLimiter {
  import opened Common
  import Steps

  /** "subject:..." or "address:...", or the shared overflow key. */
  datatype Key = Subject(id: int) | Overflow

  datatype Window = Window(used: int, expires: int)

  datatype Config = Config(limit: nat, seconds: nat, maxSubjects: nat)

  /** The constructor's check; limit is a Java int. */
  predicate ValidConfig(c: Config) {
    1 <= c.limit <= MAX_INT && 1 <= c.seconds && 1 <= c.maxSubjects
  }

  const MAX_INT: nat := 0x7fff_ffff

  /** One answered request: who, charged to which counter, when, in the window ending when, and whether admitted. */
  datatype Charge = Charge(subject: int, key: Key, at: nat, end: int, admitted: bool)

  type Table = map<Key, Window>

  datatype Limiter = Limiter(windows: Table, log: seq<Charge>, last: nat)

  const EMPTY := Limiter(map[], [], 0)

  datatype Request = Request(subject: int, at: nat)

  // ---------------------------------------------------------------- the filter

  /** now - now % seconds + seconds. */
  function WindowEnd(c: Config, now: nat): int
    requires ValidConfig(c)
  {
    now - Steps.Divided(now, c.seconds).1 + c.seconds
  }

  /** int arithmetic. */
  function Wrap(n: int): int { (n + 0x8000_0000) % 0x1_0000_0000 - 0x8000_0000 }

  function Purged(windows: Table, now: nat): Table {
    map k | k in windows && windows[k].expires > now :: windows[k]
  }

  /** subjectKey, with the table it leaves. */
  function Choose(c: Config, windows: Table, subject: int, now: nat): (Table, Key) {
    if Subject(subject) in windows || |windows| < c.maxSubjects then (windows, Subject(subject))
    else (Purged(windows, now), if |Purged(windows, now)| < c.maxSubjects then Subject(subject) else Overflow)
  }

  /** The window a charge at this time counts in. */
  function ActiveWindow(c: Config, windows: Table, key: Key, now: nat): Window
    requires ValidConfig(c)
  {
    if key in windows && windows[key].expires > now then windows[key] else Window(0, WindowEnd(c, now))
  }

  function Charged(c: Config, s: Limiter, subject: int, key: Key): Limiter
    requires ValidConfig(c)
  {
    var active := ActiveWindow(c, s.windows, key, s.last);
    var used := Wrap(active.used + 1);
    s.(windows := s.windows[key := Window(used, active.expires)],
       log := s.log + [Charge(subject, key, s.last, active.expires, used <= c.limit)])
  }

  function Filter(c: Config, s: Limiter, r: Request): Limiter
    requires ValidConfig(c)
  {
    var (windows, key) := Choose(c, s.windows, r.subject, r.at);
    Charged(c, Limiter(windows, s.log, r.at), r.subject, key)
  }

  predicate Timely(requests: seq<Request>) {
    |requests| < 2 || (requests[|requests| - 2].at <= requests[|requests| - 1].at && Timely(requests[..|requests| - 1]))
  }

  function Run(c: Config, requests: seq<Request>): Limiter
    requires ValidConfig(c)
  {
    if requests == [] then EMPTY else Filter(c, Run(c, requests[..|requests| - 1]), requests[|requests| - 1])
  }

  // ---------------------------------------------------------------- what the log says

  predicate In(e: Charge, key: Key, end: int) { e.key == key && e.end == end }

  /** Requests charged to a counter in the window ending then. */
  function Count(log: seq<Charge>, key: Key, end: int): nat {
    if log == [] then 0 else Count(log[..|log| - 1], key, end) + if In(log[|log| - 1], key, end) then 1 else 0
  }

  /** Requests admitted among them. */
  function Admitted(log: seq<Charge>, key: Key, end: int): nat {
    if log == [] then 0
    else Admitted(log[..|log| - 1], key, end) + if In(log[|log| - 1], key, end) && log[|log| - 1].admitted then 1 else 0
  }

  /** The counter a subject was last charged to in a window. */
  function KeyFor(log: seq<Charge>, subject: int, end: int): Option<Key> {
    if log == [] then None
    else if log[|log| - 1].subject == subject && log[|log| - 1].end == end then Some(log[|log| - 1].key)
    else KeyFor(log[..|log| - 1], subject, end)
  }

  /** The counters charged in a window. */
  function Counters(log: seq<Charge>, end: int): set<Key> {
    if log == [] then {}
    else Counters(log[..|log| - 1], end) + if log[|log| - 1].end == end then {log[|log| - 1].key} else {}
  }

  /** All requests admitted in a window by some of the counters. */
  function AdmittedBy(log: seq<Charge>, keys: set<Key>, end: int): nat {
    if log == [] then 0
    else
      var e := log[|log| - 1];
      AdmittedBy(log[..|log| - 1], keys, end) + if e.end == end && e.key in keys && e.admitted then 1 else 0
  }

  /** Requests one counter admitted at times from..to. */
  function AdmittedBetween(log: seq<Charge>, key: Key, from: int, to: int): nat {
    if log == [] then 0
    else
      var e := log[|log| - 1];
      AdmittedBetween(log[..|log| - 1], key, from, to) + if e.key == key && from <= e.at < to && e.admitted then 1 else 0
  }

  /** Within a window, each charge of a subject goes where its previous one went. */
  predicate OneCounter(log: seq<Charge>) {
    log == [] ||
    var front, e := log[..|log| - 1], log[|log| - 1];
    OneCounter(front) && (KeyFor(front, e.subject, e.end).None? || KeyFor(front, e.subject, e.end) == Some(e.key))
  }

  predicate LogOk(c: Config, log: seq<Charge>, last: nat)
    requires ValidConfig(c)
  {
    log == [] ||
    var e := log[|log| - 1];
    && LogOk(c, log[..|log| - 1], last)
    && e.at <= last && e.end == WindowEnd(c, e.at) && (e.key == Subject(e.subject) || e.key == Overflow)
  }

  // ---------------------------------------------------------------- int counters

  /** How many of the first n charges of a window are admitted. */
  function AdmittedOf(c: Config, n: nat): nat {
    if n == 0 then 0 else AdmittedOf(c, n - 1) + if Wrap(n) <= c.limit then 1 else 0
  }

  lemma {:induction false} AdmittedWithoutWrap(c: Config, n: nat)
    requires ValidConfig(c) && n <= MAX_INT
    ensures AdmittedOf(c, n) == if n <= c.limit then n else c.limit
  {
    if n > 0 { AdmittedWithoutWrap(c, n - 1); }
  }

  lemma {:induction false} AdmittedAfterWrap(c: Config, n: nat)
    requires ValidConfig(c) && n > MAX_INT
    ensures AdmittedOf(c, n) > c.limit
  {
    if n == MAX_INT + 1 { AdmittedWithoutWrap(c, MAX_INT); } else { AdmittedAfterWrap(c, n - 1); }
  }

  lemma WrapNext(n: nat)
    ensures Wrap(Wrap(n) + 1) == Wrap(n + 1)
  {
  }

  // ---------------------------------------------------------------- window ends

  lemma EndBounds(c: Config, now: nat)
    requires ValidConfig(c)
    ensures now < WindowEnd(c, now) <= now + c.seconds
    ensures WindowEnd(c, now) == (Steps.Divided(now, c.seconds).0 + 1) * c.seconds
  {
    Steps.DividedIsDivision(now, c.seconds);
    var (q, r) := Steps.Divided(now, c.seconds);
    assert (q + 1) * c.seconds == q * c.seconds + c.seconds;
    hide Steps.Divided;
  }

  /** Ends are a window apart: a later time has the same end, or one at least a window later. */
  lemma {:induction false} EndsInOrder(c: Config, a: nat, b: nat)
    requires ValidConfig(c) && a <= b
    ensures WindowEnd(c, a) == WindowEnd(c, b) || (WindowEnd(c, a) <= b && WindowEnd(c, a) + c.seconds <= WindowEnd(c, b))
  {
    EndBounds(c, a);
    EndBounds(c, b);
    var p, q := Steps.Divided(a, c.seconds).0 + 1, Steps.Divided(b, c.seconds).0 + 1;
    hide WindowEnd, Steps.Divided;
    if p < q { Steps.NextMultiple(c.seconds, p, q); }
    if q < p { Steps.NextMultiple(c.seconds, q, p); }
  }

  lemma EndsWithinSpan(c: Config, t: nat, u: nat)
    requires ValidConfig(c) && t <= u < t + c.seconds
    ensures WindowEnd(c, u) == WindowEnd(c, t) || WindowEnd(c, u) == WindowEnd(c, t) + c.seconds
  {
    EndBounds(c, t);
    EndBounds(c, u);
    var p, q := Steps.Divided(t, c.seconds).0 + 1, Steps.Divided(u, c.seconds).0 + 1;
    assert (p + 1) * c.seconds == p * c.seconds + c.seconds;
    hide WindowEnd, Steps.Divided;
    if q < p { Steps.NextMultiple(c.seconds, q, p); }
    if p + 1 < q { Steps.NextMultiple(c.seconds, p + 1, q); }
  }

  // ---------------------------------------------------------------- the invariant

  predicate WindowOk(c: Config, s: Limiter, k: Key)
    requires ValidConfig(c)
  {
    && (k in s.windows ==>
          var w := s.windows[k];
          && w.expires <= WindowEnd(c, s.last) && (w.expires > s.last ==> w.expires == WindowEnd(c, s.last))
          && w.used == Wrap(Count(s.log, k, w.expires)))
    && (Count(s.log, k, WindowEnd(c, s.last)) > 0 ==> k in s.windows && s.windows[k].expires == WindowEnd(c, s.last))
  }

  ghost predicate WindowsOk(c: Config, s: Limiter)
    requires ValidConfig(c)
  {
    forall k :: WindowOk(c, s, k)
  }

  ghost predicate AdmittedOk(c: Config, log: seq<Charge>) {
    forall k, end :: Admitted(log, k, end) == AdmittedOf(c, Count(log, k, end))
  }

  /** Once something overflowed, the table is full of live windows for the rest of the window. */
  ghost predicate FullAfterOverflow(c: Config, s: Limiter)
    requires ValidConfig(c)
  {
    Count(s.log, Overflow, WindowEnd(c, s.last)) > 0 ==>
      |s.windows| >= c.maxSubjects && forall k :: k in s.windows ==> s.windows[k].expires == WindowEnd(c, s.last)
  }

  ghost predicate SubjectsOk(c: Config, s: Limiter)
    requires ValidConfig(c)
  {
    forall a :: KeyFor(s.log, a, WindowEnd(c, s.last)) == Some(Overflow) ==> Subject(a) !in s.windows
  }

  predicate SizeOk(c: Config, windows: Table) { |windows.Keys - {Overflow}| <= c.maxSubjects }

  ghost predicate CountersOk(c: Config, log: seq<Charge>) {
    forall end :: |Counters(log, end)| <= c.maxSubjects + 1
  }

  ghost predicate Inv(c: Config, s: Limiter)
    requires ValidConfig(c)
  {
    && LogOk(c, s.log, s.last) && WindowsOk(c, s) && AdmittedOk(c, s.log) && FullAfterOverflow(c, s) && SubjectsOk(c, s)
    && SizeOk(c, s.windows) && OneCounter(s.log) && CountersOk(c, s.log)
  }

  // ---------------------------------------------------------------- facts about the log

  lemma {:induction false} NothingLater(c: Config, log: seq<Charge>, last: nat, end: int)
    requires ValidConfig(c) && LogOk(c, log, last) && end > WindowEnd(c, last)
    ensures forall k :: Count(log, k, end) == 0
    ensures forall a :: KeyFor(log, a, end) == None
  {
    if log != [] {
      EndsInOrder(c, log[|log| - 1].at, last);
      NothingLater(c, log[..|log| - 1], last, end);
    }
  }

  lemma {:induction false} KeyForIsCounted(log: seq<Charge>, a: int, end: int)
    requires KeyFor(log, a, end).Some?
    ensures Count(log, KeyFor(log, a, end).value, end) > 0
  {
    var e := log[|log| - 1];
    if !(e.subject == a && e.end == end) { KeyForIsCounted(log[..|log| - 1], a, end); }
  }

  lemma {:induction false} KeyForIsOwn(c: Config, log: seq<Charge>, last: nat, a: int, end: int)
    requires ValidConfig(c) && LogOk(c, log, last) && KeyFor(log, a, end).Some?
    ensures KeyFor(log, a, end).value == Subject(a) || KeyFor(log, a, end).value == Overflow
  {
    var e := log[|log| - 1];
    if !(e.subject == a && e.end == end) { KeyForIsOwn(c, log[..|log| - 1], last, a, end); }
  }

  lemma {:induction false} CountersAreCounted(log: seq<Charge>, end: int, k: Key)
    requires k in Counters(log, end)
    ensures Count(log, k, end) > 0
  {
    var front, e := log[..|log| - 1], log[|log| - 1];
    if !(e.end == end && e.key == k) { CountersAreCounted(front, end, k); }
  }

  lemma {:induction false} LaterLogOk(c: Config, log: seq<Charge>, last: nat, now: nat)
    requires ValidConfig(c) && LogOk(c, log, last) && last <= now
    ensures LogOk(c, log, now)
  {
    if log != [] { LaterLogOk(c, log[..|log| - 1], last, now); }
  }

  // ---------------------------------------------------------------- time passes, the table is purged

  lemma TickKeepsInv(c: Config, s: Limiter, now: nat)
    requires ValidConfig(c) && Inv(c, s) && s.last <= now
    ensures Inv(c, s.(last := now))
  {
    EndBounds(c, s.last);
    EndBounds(c, now);
    EndsInOrder(c, s.last, now);
    LaterLogOk(c, s.log, s.last, now);
    if WindowEnd(c, now) > WindowEnd(c, s.last) { NothingLater(c, s.log, s.last, WindowEnd(c, now)); }
    hide WindowEnd, Count, KeyFor, Counters, LogOk, AdmittedOk, OneCounter, Wrap;
    forall k ensures WindowOk(c, s.(last := now), k) { assert WindowOk(c, s, k); }
    hide WindowOk;
  }

  lemma FewerKeys(small: set<Key>, large: set<Key>)
    requires small <= large
    ensures |small| <= |large|
  {
    assert large == small + (large - small);
  }

  lemma PurgeKeepsInv(c: Config, s: Limiter)
    requires ValidConfig(c) && Inv(c, s)
    ensures Inv(c, s.(windows := Purged(s.windows, s.last)))
    ensures forall k :: k in Purged(s.windows, s.last) ==> Purged(s.windows, s.last)[k].expires == WindowEnd(c, s.last)
  {
    EndBounds(c, s.last);
    var after := s.(windows := Purged(s.windows, s.last));
    hide WindowEnd, Count, KeyFor, Counters, LogOk, AdmittedOk, OneCounter, Wrap;
    forall k ensures WindowOk(c, after, k) { assert WindowOk(c, s, k); }
    forall k | k in after.windows ensures after.windows[k].expires == WindowEnd(c, s.last) { assert WindowOk(c, s, k); }
    hide WindowOk;
    FewerKeys(after.windows.Keys - {Overflow}, s.windows.Keys - {Overflow});
    if Count(s.log, Overflow, WindowEnd(c, s.last)) > 0 { assert after.windows == s.windows by { EndBounds(c, s.last); } }
  }

  // ---------------------------------------------------------------- one charge

  lemma Appended(log: seq<Charge>, e: Charge)
    ensures forall k, end :: Count(log + [e], k, end) == Count(log, k, end) + if In(e, k, end) then 1 else 0
    ensures forall k, end :: Admitted(log + [e], k, end) == Admitted(log, k, end) + if In(e, k, end) && e.admitted then 1 else 0
    ensures forall a, end :: KeyFor(log + [e], a, end) == if e.subject == a && e.end == end then Some(e.key) else KeyFor(log, a, end)
    ensures forall end :: Counters(log + [e], end) == Counters(log, end) + if e.end == end then {e.key} else {}
    ensures OneCounter(log + [e]) <==> OneCounter(log) && (KeyFor(log, e.subject, e.end).None? || KeyFor(log, e.subject, e.end) == Some(e.key))
  {
    assert (log + [e])[..|log|] == log;
  }

  /** What Choose promises about the counter it picks. */
  ghost predicate MayCharge(c: Config, s: Limiter, subject: int, key: Key)
    requires ValidConfig(c)
  {
    if key == Overflow then
      && Subject(subject) !in s.windows && |s.windows| >= c.maxSubjects
      && forall k :: k in s.windows ==> s.windows[k].expires == WindowEnd(c, s.last)
    else key == Subject(subject) && (key in s.windows || |s.windows| < c.maxSubjects)
  }

  lemma ActiveIsCurrent(c: Config, s: Limiter, key: Key)
    requires ValidConfig(c) && WindowOk(c, s, key)
    ensures ActiveWindow(c, s.windows, key, s.last) == Window(Wrap(Count(s.log, key, WindowEnd(c, s.last))), WindowEnd(c, s.last))
  {
    EndBounds(c, s.last);
    assert Wrap(0) == 0;
    hide WindowEnd, Count, Wrap;
  }

  /** The charge, with its window and verdict read off the log. */
  lemma ChargeIsCounted(c: Config, s: Limiter, subject: int, key: Key)
    requires ValidConfig(c) && WindowOk(c, s, key)
    ensures var end := WindowEnd(c, s.last);
            var n := Count(s.log, key, end) + 1;
            Charged(c, s, subject, key)
            == s.(windows := s.windows[key := Window(Wrap(n), end)], log := s.log + [Charge(subject, key, s.last, end, Wrap(n) <= c.limit)])
  {
    ActiveIsCurrent(c, s, key);
    WrapNext(Count(s.log, key, WindowEnd(c, s.last)));
    hide ActiveWindow, WindowEnd, Count, Wrap;
  }

  lemma ChargeKeepsWindows(c: Config, s: Limiter, subject: int, key: Key)
    requires ValidConfig(c) && WindowsOk(c, s) && AdmittedOk(c, s.log)
    ensures WindowsOk(c, Charged(c, s, subject, key)) && AdmittedOk(c, Charged(c, s, subject, key).log)
  {
    assert WindowOk(c, s, key);
    ChargeIsCounted(c, s, subject, key);
    var after := Charged(c, s, subject, key);
    Appended(s.log, after.log[|s.log|]);
    hide Charged, WindowEnd, Count, Admitted, KeyFor, Counters, OneCounter, Wrap;
    forall k ensures WindowOk(c, after, k) { assert WindowOk(c, s, k); }
    hide WindowOk;
    forall k, end ensures Admitted(after.log, k, end) == AdmittedOf(c, Count(after.log, k, end)) {
      assert Admitted(s.log, k, end) == AdmittedOf(c, Count(s.log, k, end));
    }
  }

  lemma ChargeKeepsFull(c: Config, s: Limiter, subject: int, key: Key)
    requires ValidConfig(c) && WindowOk(c, s, key) && FullAfterOverflow(c, s) && MayCharge(c, s, subject, key)
    ensures FullAfterOverflow(c, Charged(c, s, subject, key))
  {
    ChargeIsCounted(c, s, subject, key);
    var after := Charged(c, s, subject, key);
    Appended(s.log, after.log[|s.log|]);
    hide Charged, WindowEnd, Count, Admitted, KeyFor, Counters, OneCounter, Wrap, WindowOk;
    FewerKeys(s.windows.Keys, after.windows.Keys);
  }

  /** A subject allowed its own counter was not charged to overflow in this window, nor the other way round. */
  lemma ChargeKeepsOneCounter(c: Config, s: Limiter, subject: int, key: Key)
    requires ValidConfig(c) && Inv(c, s) && MayCharge(c, s, subject, key)
    ensures OneCounter(Charged(c, s, subject, key).log)
  {
    var after, end := Charged(c, s, subject, key), WindowEnd(c, s.last);
    assert WindowOk(c, s, key) && WindowOk(c, s, Subject(subject));
    assert FullAfterOverflow(c, s) && SubjectsOk(c, s);
    ChargeIsCounted(c, s, subject, key);
    Appended(s.log, after.log[|s.log|]);
    if KeyFor(s.log, subject, end).Some? {
      KeyForIsCounted(s.log, subject, end);
      KeyForIsOwn(c, s.log, s.last, subject, end);
    }
    hide Inv, Charged, WindowEnd, Count, Admitted, KeyFor, Counters, OneCounter, Wrap;
  }

  lemma ChargeKeepsSubjects(c: Config, s: Limiter, subject: int, key: Key)
    requires ValidConfig(c) && WindowOk(c, s, key) && FullAfterOverflow(c, s) && SubjectsOk(c, s) && MayCharge(c, s, subject, key)
    ensures SubjectsOk(c, Charged(c, s, subject, key))
  {
    var after, end := Charged(c, s, subject, key), WindowEnd(c, s.last);
    ChargeIsCounted(c, s, subject, key);
    Appended(s.log, after.log[|s.log|]);
    hide Charged, WindowEnd, Count, Admitted, KeyFor, Counters, OneCounter, Wrap, WindowOk;
    forall a | KeyFor(after.log, a, end) == Some(Overflow) ensures Subject(a) !in after.windows {
      if key != Overflow && KeyFor(s.log, a, end) == Some(Overflow) { OverflowIsCounted(c, s, a); }
    }
  }

  lemma OverflowIsCounted(c: Config, s: Limiter, a: int)
    requires ValidConfig(c) && KeyFor(s.log, a, WindowEnd(c, s.last)) == Some(Overflow)
    ensures Count(s.log, Overflow, WindowEnd(c, s.last)) > 0
  {
    KeyForIsCounted(s.log, a, WindowEnd(c, s.last));
  }

  lemma TableSize(c: Config, windows: Table)
    requires SizeOk(c, windows)
    ensures |windows| <= c.maxSubjects + 1
  {
    FewerKeys(windows.Keys, (windows.Keys - {Overflow}) + {Overflow});
  }

  lemma NewKeyFits(keys: set<Key>, key: Key, max: nat)
    requires |keys| < max
    ensures |(keys + {key}) - {Overflow}| <= max
  {
    FewerKeys((keys + {key}) - {Overflow}, keys + {key});
    if key in keys { assert keys + {key} == keys; }
  }

  lemma ChargeKeepsSize(c: Config, s: Limiter, subject: int, key: Key)
    requires ValidConfig(c) && SizeOk(c, s.windows) && MayCharge(c, s, subject, key)
    ensures SizeOk(c, Charged(c, s, subject, key).windows)
  {
    ChargedKeys(c, s, subject, key);
    hide Charged, WindowEnd;
    var keys := s.windows.Keys;
    if key == Overflow || key in s.windows {
      assert (keys + {key}) - {Overflow} == keys - {Overflow};
    } else {
      NewKeyFits(keys, key, c.maxSubjects);
    }
  }

  lemma ChargedKeys(c: Config, s: Limiter, subject: int, key: Key)
    requires ValidConfig(c)
    ensures Charged(c, s, subject, key).windows.Keys == s.windows.Keys + {key}
  {
  }

  /** The counters charged in the current window are all still in the table. */
  lemma CountersInTable(c: Config, s: Limiter)
    requires ValidConfig(c) && WindowsOk(c, s)
    ensures Counters(s.log, WindowEnd(c, s.last)) <= s.windows.Keys
  {
    forall k | k in Counters(s.log, WindowEnd(c, s.last)) ensures k in s.windows {
      CountersAreCounted(s.log, WindowEnd(c, s.last), k);
      assert WindowOk(c, s, k);
    }
  }

  lemma ChargeKeepsInv(c: Config, s: Limiter, subject: int, key: Key)
    requires ValidConfig(c) && Inv(c, s) && MayCharge(c, s, subject, key)
    ensures Inv(c, Charged(c, s, subject, key))
  {
    assert WindowOk(c, s, key);
    ChargeIsCounted(c, s, subject, key);
    var after, end := Charged(c, s, subject, key), WindowEnd(c, s.last);
    ChargeKeepsWindows(c, s, subject, key);
    ChargeKeepsOneCounter(c, s, subject, key);
    ChargeKeepsSubjects(c, s, subject, key);
    ChargeKeepsFull(c, s, subject, key);
    ChargeKeepsSize(c, s, subject, key);
    CountersInTable(c, after);
    TableSize(c, after.windows);
    FewerKeys(Counters(after.log, end), after.windows.Keys);
    Appended(s.log, after.log[|s.log|]);
    assert after.log[..|s.log|] == s.log;
    hide Charged, WindowEnd, Count, Admitted, KeyFor, Counters, OneCounter, Wrap, WindowsOk, AdmittedOk, FullAfterOverflow, SubjectsOk, SizeOk;
    assert CountersOk(c, after.log);
  }

  lemma FilterKeepsInv(c: Config, s: Limiter, r: Request)
    requires ValidConfig(c) && Inv(c, s) && s.last <= r.at
    ensures Inv(c, Filter(c, s, r))
  {
    TickKeepsInv(c, s, r.at);
    var now := s.(last := r.at);
    PurgeKeepsInv(c, now);
    var (windows, key) := Choose(c, s.windows, r.subject, r.at);
    hide Inv, Purged, WindowEnd;
    assert MayCharge(c, now.(windows := windows), r.subject, key) by { ChooseAllows(c, now, r.subject); }
    ChargeKeepsInv(c, now.(windows := windows), r.subject, key);
  }

  lemma ChooseAllows(c: Config, s: Limiter, subject: int)
    requires ValidConfig(c)
    requires forall k :: k in Purged(s.windows, s.last) ==> Purged(s.windows, s.last)[k].expires == WindowEnd(c, s.last)
    ensures var (windows, key) := Choose(c, s.windows, subject, s.last); MayCharge(c, s.(windows := windows), subject, key)
  {
    hide WindowEnd;
  }

  lemma FilterAtRequest(c: Config, s: Limiter, r: Request)
    requires ValidConfig(c)
    ensures Filter(c, s, r).last == r.at
  {
  }

  lemma EmptyIsOk(c: Config)
    requires ValidConfig(c)
    ensures Inv(c, EMPTY)
  {
  }

  lemma {:induction false} RunKeepsInv(c: Config, requests: seq<Request>)
    requires ValidConfig(c) && Timely(requests)
    ensures Inv(c, Run(c, requests))
    ensures Run(c, requests).last == if requests == [] then 0 else requests[|requests| - 1].at
  {
    hide Inv, Filter;
    if requests == [] {
      EmptyIsOk(c);
    } else {
      RunKeepsInv(c, requests[..|requests| - 1]);
      FilterAtRequest(c, Run(c, requests[..|requests| - 1]), requests[|requests| - 1]);
      FilterKeepsInv(c, Run(c, requests[..|requests| - 1]), requests[|requests| - 1]);
    }
  }

  // ---------------------------------------------------------------- main results

  lemma {:induction false} SameKeyThroughout(log: seq<Charge>, i: nat, j: nat)
    requires OneCounter(log) && i < j < |log| && log[i].subject == log[j].subject && log[i].end == log[j].end
    ensures log[i].key == log[j].key
  {
    if j < |log| - 1 { SameKeyThroughout(log[..|log| - 1], i, j); } else { KeyForIsThat(log[..j], i); }
  }

  lemma {:induction false} KeyForIsThat(log: seq<Charge>, i: nat)
    requires OneCounter(log) && i < |log|
    ensures KeyFor(log, log[i].subject, log[i].end) == Some(log[i].key)
  {
    if i < |log| - 1 { KeyForIsThat(log[..|log| - 1], i); }
  }

  lemma {:induction false} OwnKeyOrOverflow(c: Config, log: seq<Charge>, last: nat, i: nat)
    requires ValidConfig(c) && LogOk(c, log, last) && i < |log|
    ensures log[i].key == Subject(log[i].subject) || log[i].key == Overflow
  {
    if i < |log| - 1 { OwnKeyOrOverflow(c, log[..|log| - 1], last, i); }
  }

  lemma LogParts(c: Config, s: Limiter)
    requires ValidConfig(c) && Inv(c, s)
    ensures LogOk(c, s.log, s.last) && OneCounter(s.log)
  {
  }

  /** In every run, each charge goes to the subject's own counter or to overflow, and all of one window to the same. */
  lemma {:induction false} OneCounterPerSubjectAndWindow(c: Config, requests: seq<Request>, i: nat, j: nat)
    requires ValidConfig(c) && Timely(requests) && i <= j < |Run(c, requests).log|
    ensures var log := Run(c, requests).log;
            && (log[i].key == Subject(log[i].subject) || log[i].key == Overflow)
            && (log[i].subject == log[j].subject && log[i].end == log[j].end ==> log[i].key == log[j].key)
  {
    hide *;
    RunKeepsInv(c, requests);
    var s := Run(c, requests);
    LogParts(c, s);
    OwnKeyOrOverflow(c, s.log, s.last, i);
    if i < j && s.log[i].subject == s.log[j].subject && s.log[i].end == s.log[j].end { SameKeyThroughout(s.log, i, j); }
  }

  /** The windows of the table that have not ended. */
  function Live(windows: Table, now: nat): set<Key> { set k | k in windows && windows[k].expires > now }

  lemma SizeBounds(windows: Table, now: nat)
    ensures |Live(windows, now)| <= |windows| && |Live(windows, now)| == |Purged(windows, now)|
  {
    assert Purged(windows, now).Keys == Live(windows, now);
    FewerKeys(Live(windows, now), windows.Keys);
  }

  /** A request is charged to overflow exactly when its subject is not in the table and maxSubjects windows are live; else to its own counter. */
  lemma {:induction false} OverflowsExactly(c: Config, windows: Table, subject: int, now: nat)
    ensures Choose(c, windows, subject, now).1
            == if Subject(subject) !in windows && |Live(windows, now)| >= c.maxSubjects then Overflow else Subject(subject)
    ensures forall k :: k in Live(windows, now) ==> k in Choose(c, windows, subject, now).0 && Choose(c, windows, subject, now).0[k] == windows[k]
    ensures forall k :: k in Choose(c, windows, subject, now).0 ==> k in windows && Choose(c, windows, subject, now).0[k] == windows[k]
  {
    SizeBounds(windows, now);
  }

  /** Every window of the table was charged to. */
  ghost predicate EntriesCharged(s: Limiter) {
    forall k :: k in s.windows ==> k in Counters(s.log, s.windows[k].expires)
  }

  lemma {:induction false} RunCharges(c: Config, requests: seq<Request>)
    requires ValidConfig(c)
    ensures EntriesCharged(Run(c, requests)) && |Run(c, requests).log| == |requests|
  {
    if requests != [] {
      var before, r := Run(c, requests[..|requests| - 1]), requests[|requests| - 1];
      RunCharges(c, requests[..|requests| - 1]);
      OverflowsExactly(c, before.windows, r.subject, r.at);
      var (windows, key) := Choose(c, before.windows, r.subject, r.at);
      hide Choose, ActiveWindow, Wrap, WindowEnd;
      var log := Run(c, requests).log;
      assert log[..|log| - 1] == before.log;
    }
  }

  lemma {:induction false} LogGrows(c: Config, requests: seq<Request>, i: nat)
    requires ValidConfig(c) && i <= |requests|
    ensures |Run(c, requests[..i]).log| == i && Run(c, requests[..i]).log <= Run(c, requests).log
  {
    RunCharges(c, requests[..i]);
    hide Filter;
    if i == |requests| {
      assert requests[..i] == requests;
    } else {
      LogGrows(c, requests[..|requests| - 1], i);
      assert requests[..|requests| - 1][..i] == requests[..i];
      FilterAppends(c, Run(c, requests[..|requests| - 1]), requests[|requests| - 1]);
    }
  }

  lemma FilterAppends(c: Config, s: Limiter, r: Request)
    requires ValidConfig(c)
    ensures s.log <= Filter(c, s, r).log
    ensures var after := Filter(c, s, r).log;
            |after| == |s.log| + 1 && after[|s.log|].at == r.at && after[|s.log|].subject == r.subject
            && after[|s.log|].key == Choose(c, s.windows, r.subject, r.at).1
  {
    hide Choose, ActiveWindow, Wrap;
  }

  lemma {:induction false} TimelyPrefix(requests: seq<Request>, n: nat)
    requires Timely(requests) && n <= |requests|
    ensures Timely(requests[..n])
    ensures 0 < n < |requests| ==> requests[n - 1].at <= requests[n].at
  {
    if n == |requests| {
      assert requests[..n] == requests;
    } else {
      TimelyPrefix(requests[..|requests| - 1], n);
      assert requests[..|requests| - 1][..n] == requests[..n];
    }
  }

  /** All live windows end together, so each is a counter charged in the current window. */
  lemma LiveAreCounters(c: Config, s: Limiter, now: nat)
    requires ValidConfig(c) && Inv(c, s) && EntriesCharged(s) && s.last <= now
    ensures |Live(s.windows, now)| <= |Counters(s.log, WindowEnd(c, now))|
  {
    TickKeepsInv(c, s, now);
    var ticked := s.(last := now);
    assert WindowsOk(c, ticked);
    hide Inv, Counters, WindowEnd, Count, Wrap;
    forall k | k in Live(s.windows, now) ensures k in Counters(s.log, WindowEnd(c, now)) { assert WindowOk(c, ticked, k); }
    FewerKeys(Live(s.windows, now), Counters(s.log, WindowEnd(c, now)));
  }

  lemma LastCharge(c: Config, requests: seq<Request>)
    requires ValidConfig(c) && Timely(requests) && requests != []
    ensures var (before, r, log) := (Run(c, requests[..|requests| - 1]), requests[|requests| - 1], Run(c, requests).log);
            && |log| == |requests|
            && log[|log| - 1].subject == r.subject && log[|log| - 1].end == WindowEnd(c, r.at)
            && log[|log| - 1].key == Choose(c, before.windows, r.subject, r.at).1
  {
    var n := |requests| - 1;
    RunCharges(c, requests);
    RunCharges(c, requests[..n]);
    LogIsOk(c, requests);
    hide Filter, Choose, WindowEnd;
    assert Run(c, requests) == Filter(c, Run(c, requests[..n]), requests[n]);
    FilterAppends(c, Run(c, requests[..n]), requests[n]);
  }

  lemma LastOverflow(c: Config, requests: seq<Request>)
    requires ValidConfig(c) && Timely(requests) && requests != []
    ensures var (before, log) := (Run(c, requests[..|requests| - 1]).log, Run(c, requests).log);
            && |log| == |requests| && log[|log| - 1].subject == requests[|requests| - 1].subject
            && (log[|log| - 1].key == Overflow ==> |Counters(before, log[|log| - 1].end)| >= c.maxSubjects)
  {
    var n := |requests| - 1;
    var before, r := Run(c, requests[..n]), requests[n];
    LastCharge(c, requests);
    TimelyPrefix(requests, n);
    RunKeepsInv(c, requests[..n]);
    hide *;
    RunCharges(c, requests[..n]);
    OverflowsExactly(c, before.windows, r.subject, r.at);
    LiveAreCounters(c, before, r.at);
  }

  /** Overflow is the last resort: in every run, when a request is charged to it, maxSubjects counters were charged in its window before. */
  lemma {:induction false} OverflowOnlyWhenFull(c: Config, requests: seq<Request>, i: nat)
    requires ValidConfig(c) && Timely(requests) && i < |requests|
    ensures |Run(c, requests).log| == |requests| && Run(c, requests).log[i].subject == requests[i].subject
    ensures var charge := Run(c, requests).log[i];
            charge.key == Overflow ==> |Counters(Run(c, requests[..i]).log, charge.end)| >= c.maxSubjects
  {
    hide *;
    RunCharges(c, requests);
    LogGrows(c, requests, i + 1);
    TimelyPrefix(requests, i + 1);
    LastOverflow(c, requests[..i + 1]);
    assert requests[..i + 1][..i] == requests[..i];
  }

  /** In every run, the table holds at most maxSubjects + 1 windows. */
  lemma {:induction false} TableIsBounded(c: Config, requests: seq<Request>)
    requires ValidConfig(c) && Timely(requests)
    ensures |Run(c, requests).windows| <= c.maxSubjects + 1
  {
    RunKeepsInv(c, requests);
    TableSize(c, Run(c, requests).windows);
  }

  /**
   * In every run, a counter admits at most `limit` requests of a window exactly when fewer
   * than 2^31 requests are charged to it: beyond that the int count wraps and admits again.
   */
  lemma {:induction false} AdmitsAtMostLimit(c: Config, requests: seq<Request>, key: Key, end: int)
    requires ValidConfig(c) && Timely(requests)
    ensures var log := Run(c, requests).log;
            && (Admitted(log, key, end) <= c.limit <==> Count(log, key, end) <= MAX_INT)
            && (Count(log, key, end) <= MAX_INT ==>
                  Admitted(log, key, end) == if Count(log, key, end) <= c.limit then Count(log, key, end) else c.limit)
  {
    RunKeepsInv(c, requests);
    var log := Run(c, requests).log;
    assert Admitted(log, key, end) == AdmittedOf(c, Count(log, key, end));
    if Count(log, key, end) <= MAX_INT { AdmittedWithoutWrap(c, Count(log, key, end)); } else { AdmittedAfterWrap(c, Count(log, key, end)); }
    hide Run, Inv, Count, Admitted, AdmittedOf;
  }

  lemma {:induction false} AdmittedByOneMore(log: seq<Charge>, keys: set<Key>, k: Key, end: int)
    requires k in keys
    ensures AdmittedBy(log, keys, end) == AdmittedBy(log, keys - {k}, end) + Admitted(log, k, end)
  {
    if log != [] { AdmittedByOneMore(log[..|log| - 1], keys, k, end); }
  }

  lemma {:induction false} NoCountersAdmitNothing(log: seq<Charge>, end: int)
    ensures AdmittedBy(log, {}, end) == 0
  {
    if log != [] { NoCountersAdmitNothing(log[..|log| - 1], end); }
  }

  lemma OneMoreTimes(a: nat, n: nat)
    ensures a * (n + 1) == a * n + a
  {
  }

  lemma {:induction false} CountersAdmit(log: seq<Charge>, keys: set<Key>, end: int, limit: nat)
    requires forall k :: k in keys ==> Admitted(log, k, end) <= limit
    ensures AdmittedBy(log, keys, end) <= limit * |keys|
    decreases |keys|
  {
    if keys == {} {
      NoCountersAdmitNothing(log, end);
    } else {
      var k :| k in keys;
      AdmittedByOneMore(log, keys, k, end);
      CountersAdmit(log, keys - {k}, end, limit);
      hide *;
      OneMoreTimes(limit, |keys - {k}|);
    }
  }

  /** All requests admitted in a window. */
  function AdmittedIn(log: seq<Charge>, end: int): nat {
    if log == [] then 0
    else AdmittedIn(log[..|log| - 1], end) + if log[|log| - 1].end == end && log[|log| - 1].admitted then 1 else 0
  }

  lemma {:induction false} AllAreCounters(log: seq<Charge>, keys: set<Key>, end: int)
    requires Counters(log, end) <= keys
    ensures AdmittedIn(log, end) == AdmittedBy(log, keys, end)
  {
    if log != [] { AllAreCounters(log[..|log| - 1], keys, end); }
  }

  lemma Product(limit: nat, n: nat, m: nat)
    requires n <= m
    ensures limit * n <= limit * m
  {
    assert limit * m == limit * n + limit * (m - n);
  }

  lemma BoundedTotal(c: Config, requests: seq<Request>, end: int)
    requires ValidConfig(c) && Timely(requests)
    requires forall k :: Count(Run(c, requests).log, k, end) <= MAX_INT
    ensures AdmittedIn(Run(c, requests).log, end) <= c.limit * (c.maxSubjects + 1)
  {
    RunKeepsInv(c, requests);
    var log := Run(c, requests).log;
    var keys := Counters(log, end);
    assert |keys| <= c.maxSubjects + 1;
    forall k | k in keys ensures Admitted(log, k, end) <= c.limit { AdmitsAtMostLimit(c, requests, k, end); }
    hide Run, Inv, Counters, Count, Admitted;
    AllAreCounters(log, keys, end);
    CountersAdmit(log, keys, end, c.limit);
    Product(c.limit, |keys|, c.maxSubjects + 1);
  }

  /**
   * In every run, at most maxSubjects + 1 counters are charged in a window, what they admit is all
   * that is admitted, and only a counter that wrapped lets it exceed limit * (maxSubjects + 1).
   */
  lemma {:induction false} WindowAdmitsBoundedTotal(c: Config, requests: seq<Request>, end: int)
    requires ValidConfig(c) && Timely(requests)
    ensures var log := Run(c, requests).log;
            && |Counters(log, end)| <= c.maxSubjects + 1
            && AdmittedIn(log, end) == AdmittedBy(log, Counters(log, end), end)
            && (AdmittedIn(log, end) > c.limit * (c.maxSubjects + 1) ==> exists k :: Count(log, k, end) > MAX_INT)
  {
    var log := Run(c, requests).log;
    RunKeepsInv(c, requests);
    assert |Counters(log, end)| <= c.maxSubjects + 1;
    hide Run, Inv, Counters, Count, AdmittedIn, AdmittedBy;
    AllAreCounters(log, Counters(log, end), end);
    if forall k :: Count(log, k, end) <= MAX_INT { BoundedTotal(c, requests, end); }
  }

  lemma {:induction false} SpanMeetsTwoWindows(c: Config, log: seq<Charge>, last: nat, key: Key, t: nat)
    requires ValidConfig(c) && LogOk(c, log, last)
    ensures AdmittedBetween(log, key, t, t + c.seconds)
            <= Admitted(log, key, WindowEnd(c, t)) + Admitted(log, key, WindowEnd(c, t) + c.seconds)
  {
    if log != [] {
      SpanMeetsTwoWindows(c, log[..|log| - 1], last, key, t);
      var e := log[|log| - 1];
      if t <= e.at < t + c.seconds { EndsWithinSpan(c, t, e.at); }
      hide WindowEnd;
    }
  }

  /** In every run, a span of one window length admits at most 2 * limit per counter, unless the counter wraps in a window it meets. */
  lemma {:induction false} SpanAdmitsTwiceLimit(c: Config, requests: seq<Request>, key: Key, t: nat)
    requires ValidConfig(c) && Timely(requests)
    ensures var log, end := Run(c, requests).log, WindowEnd(c, t);
            AdmittedBetween(log, key, t, t + c.seconds) > 2 * c.limit ==>
              Count(log, key, end) > MAX_INT || Count(log, key, end + c.seconds) > MAX_INT
  {
    LogIsOk(c, requests);
    hide *;
    var s := Run(c, requests);
    SpanMeetsTwoWindows(c, s.log, s.last, key, t);
    AdmitsAtMostLimit(c, requests, key, WindowEnd(c, t));
    AdmitsAtMostLimit(c, requests, key, WindowEnd(c, t) + c.seconds);
  }

  // ---------------------------------------------------------------- a run that wraps

  /** n requests of one subject in one second. */
  function Burst(n: nat): (requests: seq<Request>)
    ensures |requests| == n && forall i :: 0 <= i < n ==> requests[i] == Request(0, 0)
  {
    if n == 0 then [] else Burst(n - 1) + [Request(0, 0)]
  }

  lemma {:induction false} BurstIsTimely(n: nat)
    ensures Timely(Burst(n))
  {
    if n > 0 {
      assert Burst(n)[..n - 1] == Burst(n - 1);
      BurstIsTimely(n - 1);
    }
  }

  lemma FirstWindowEnd(c: Config)
    requires ValidConfig(c)
    ensures WindowEnd(c, 0) == c.seconds
  {
  }

  /** A subject with a live counter of its own, or an empty table, is charged to that counter. */
  lemma OneMore(c: Config, s: Limiter)
    requires ValidConfig(c) && Inv(c, s) && s.last == 0
    requires s == EMPTY || Count(s.log, Subject(0), c.seconds) > 0
    ensures Count(Filter(c, s, Request(0, 0)).log, Subject(0), c.seconds) == Count(s.log, Subject(0), c.seconds) + 1
  {
    FirstWindowEnd(c);
    assert WindowOk(c, s, Subject(0));
    hide Inv, WindowEnd, Count, Charged, ActiveWindow, Wrap;
    assert Choose(c, s.windows, 0, 0) == (s.windows, Subject(0));
    ChargeIsCounted(c, s, 0, Subject(0));
    var charge := Charged(c, s, 0, Subject(0)).log[|s.log|];
    Appended(s.log, charge);
  }

  lemma BurstUnfolds(c: Config, n: nat)
    requires ValidConfig(c) && n > 0
    ensures Run(c, Burst(n)) == Filter(c, Run(c, Burst(n - 1)), Request(0, 0))
  {
    hide Filter;
    assert Burst(n)[..n - 1] == Burst(n - 1);
  }

  lemma NoBurst(c: Config)
    requires ValidConfig(c)
    ensures Run(c, Burst(0)) == EMPTY && Count(EMPTY.log, Subject(0), c.seconds) == 0
  {
  }

  lemma {:induction false} BurstCounts(c: Config, n: nat)
    requires ValidConfig(c)
    ensures Count(Run(c, Burst(n)).log, Subject(0), c.seconds) == n
  {
    hide *;
    NoBurst(c);
    if n > 0 {
      BurstUnfolds(c, n);
      BurstCounts(c, n - 1);
      BurstIsTimely(n - 1);
      RunKeepsInv(c, Burst(n - 1));
      OneMore(c, Run(c, Burst(n - 1)));
    }
  }

  /** The limit is exceeded: 2^31 requests of one subject in one window are enough, whatever the configuration. */
  lemma {:induction false} WrappedCounterAdmitsTooMany(c: Config)
    requires ValidConfig(c)
    ensures Timely(Burst(MAX_INT + 1))
    ensures Admitted(Run(c, Burst(MAX_INT + 1)).log, Subject(0), c.seconds) > c.limit
  {
    BurstIsTimely(MAX_INT + 1);
    BurstCounts(c, MAX_INT + 1);
    hide *;
    AdmitsAtMostLimit(c, Burst(MAX_INT + 1), Subject(0), c.seconds);
  }

  lemma LogIsOk(c: Config, requests: seq<Request>)
    requires ValidConfig(c) && Timely(requests)
    ensures LogOk(c, Run(c, requests).log, Run(c, requests).last)
  {
    RunKeepsInv(c, requests);
    hide Run;
  }

  // ---------------------------------------------------------------- the class

  class ApiRateLimitFilter {
    const config: Config
    var windows: Table

    constructor (config: Config)
      requires ValidConfig(config)
      ensures this.config == config && windows == EMPTY.windows
    {
      this.config := config;
      windows := map[];
    }

    method SubjectKey(subject: int, now: nat) returns (key: Key)
      modifies this
      ensures (windows, key) == Choose(config, old(windows), subject, now)
    {
      key := Subject(subject);
      if key in windows { return; }
      if |windows| < config.maxSubjects { return; }
      windows := map k | k in windows && windows[k].expires > now :: windows[k];
      if |windows| >= config.maxSubjects { key := Overflow; }
    }

    /** doFilterInternal: whether the request goes on, and the seconds until its window ends. */
    method DoFilter(r: Request, ghost log: seq<Charge>, ghost last: nat) returns (allowed: bool, retryAfter: int)
      requires ValidConfig(config)
      modifies this
      ensures var after := Filter(config, Limiter(old(windows), log, last), r);
              && windows == after.windows
              && allowed == after.log[|log|].admitted
              && retryAfter == if after.log[|log|].end - r.at > 1 then after.log[|log|].end - r.at else 1
    {
      var key := SubjectKey(r.subject, r.at);
      var active := if key !in windows || windows[key].expires <= r.at then Window(0, WindowEnd(config, r.at)) else windows[key];
      var used := Wrap(active.used + 1);
      windows := windows[key := Window(used, active.expires)];
      allowed := used <= config.limit;
      retryAfter := if active.expires - r.at > 1 then active.expires - r.at else 1;
    }
  }
}
