/**
 * The poll / submit / complete / drain / commit / quarantine loop of the simulator
 * (simulator/logitrack_sim/main.py, main): worker threads, a completions queue,
 * a slot semaphore, and crashes that restart from the committed offsets.
 */
module SimulatorLoop {
  import opened Common
  import opened OffsetTracker

  datatype Message = Message(offset: int, decodable: bool)

  /** One partition: what the broker keeps, and what this incarnation remembers of it. */
  datatype Partition = Partition(
    log: seq<Message>,
    committed: int,
    start: nat,        // index the incarnation began polling from
    position: nat,     // index of the next message to poll
    history: History)  // what the offset tracker has seen (see OffsetTracker)

  const EMPTY := Partition([], 0, 0, 0, NO_HISTORY)

  /** A message as a unit of work: its partition and offset. */
  datatype Job = Job(partition: int, offset: int)

  /** A submitted simulation: in the executor, in its done-callback, or on the completions queue. */
  datatype Phase = Running | Reporting(ok: bool) | Queued(ok: bool)

  /** What the main thread holds between polling a message and handing it on. */
  datatype Current = Idle | Holding(job: Job, decodable: bool, published: bool)

  datatype Simulator = Simulator(
    workers: nat,
    partitions: map<int, Partition>,
    simulated: set<Job>,    // simulations that returned normally, in any incarnation
    quarantined: set<Job>,  // confirmed on the dead letter topic, in any incarnation
    jobs: map<Job, Phase>,
    slots: int,
    current: Current)

  datatype Step =
    | Produce(partition: int, gap: nat, decodable: bool)
    | Poll(partition: int, index: nat)  // index == position, or lower when the broker redelivers
    | Submit
    | PublishQuarantine
    | CommitQuarantine
    | Finish(job: Job, ok: bool)
    | Report(job: Job)
    | Drain(job: Job)
    | Crash

  function Init(workers: nat): Simulator {
    Simulator(workers, map[], {}, {}, map[], 2 * workers, Idle)
  }

  function PartitionAt(s: Simulator, p: int): Partition {
    if p in s.partitions then s.partitions[p] else EMPTY
  }

  function Offsets(log: seq<Message>): (o: seq<int>)
    ensures |o| == |log| && forall i :: 0 <= i < |log| ==> o[i] == log[i].offset
  {
    seq(|log|, i requires 0 <= i < |log| => log[i].offset)
  }

  /** One past the last offset of the log; gaps (compaction, transactions) may follow it. */
  function EndOffset(log: seq<Message>): int {
    if log == [] then 0 else log[|log| - 1].offset + 1
  }

  /** Where polling resumes: the first message at or above the committed offset. */
  function FirstFrom(log: seq<Message>, committed: int): (i: nat)
    ensures i <= |log| && (i < |log| ==> committed <= log[i].offset)
    ensures forall j :: 0 <= j < i ==> log[j].offset < committed
  {
    if log == [] || committed <= log[0].offset then 0 else 1 + FirstFrom(log[1..], committed)
  }

  function Resumed(part: Partition): Partition {
    var i := FirstFrom(part.log, part.committed);
    part.(start := i, position := i, history := NO_HISTORY)
  }

  /** The process exits and a new one starts: memory is lost, the broker's state is not. */
  function Restart(s: Simulator): Simulator {
    s.(partitions := map p | p in s.partitions :: Resumed(s.partitions[p]),
       jobs := map[], slots := 2 * s.workers, current := Idle)
  }

  function Put(s: Simulator, p: int, part: Partition): Simulator {
    s.(partitions := s.partitions[p := part])
  }

  function CompletedPartition(part: Partition, offset: int): Partition {
    var next := Commit(part.history, offset);
    part.(history := Completed(part.history, offset),
          committed := if next.Some? then next.value else part.committed)
  }

  /** offsets.complete followed by consumer.commit of the position it returns, if any. */
  function CompleteAndCommit(s: Simulator, job: Job): Simulator {
    var part := PartitionAt(s, job.partition);
    Put(s, job.partition, CompletedPartition(part, job.offset))
  }

  function Apply(s: Simulator, step: Step): Simulator {
    match step
    case Produce(p, gap, decodable) =>
      var part := PartitionAt(s, p);
      Put(s, p, part.(log := part.log + [Message(EndOffset(part.log) + gap, decodable)]))
    case Poll(p, i) =>
      var part := PartitionAt(s, p);
      if !s.current.Idle? || i >= |part.log| || i < part.start || i > part.position then s
      else if !MayRegister(part.history, part.log[i].offset) then Restart(s)
      else
        Put(s, p, part.(position := i + 1, history := Registered(part.history, part.log[i].offset)))
          .(current := Holding(Job(p, part.log[i].offset), part.log[i].decodable, false))
    case Submit =>
      if s.current.Holding? && s.current.decodable && s.slots > 0 then
        s.(jobs := s.jobs[s.current.job := Running], slots := s.slots - 1, current := Idle)
      else s
    case PublishQuarantine =>
      if s.current.Holding? && !s.current.decodable then
        s.(quarantined := s.quarantined + {s.current.job}, current := s.current.(published := true))
      else s
    case CommitQuarantine =>
      if s.current.Holding? && s.current.published then
        CompleteAndCommit(s, s.current.job).(current := Idle)
      else s
    case Finish(job, ok) =>
      if job in s.jobs && s.jobs[job] == Running then
        s.(jobs := s.jobs[job := Reporting(ok)], slots := s.slots + 1,
           simulated := if ok then s.simulated + {job} else s.simulated)
      else s
    case Report(job) =>
      if job in s.jobs && s.jobs[job].Reporting? then s.(jobs := s.jobs[job := Queued(s.jobs[job].ok)]) else s
    case Drain(job) =>
      if job !in s.jobs || !s.jobs[job].Queued? || (s.current.Holding? && !s.current.decodable) then s
      else if !s.jobs[job].ok then Restart(s)
      else CompleteAndCommit(s, job).(jobs := s.jobs - {job})
    case Crash => Restart(s)
  }

  function Run(s: Simulator, steps: seq<Step>): Simulator {
    if steps == [] then s else Apply(Run(s, steps[..|steps| - 1]), steps[|steps| - 1])
  }

  function Handled(s: Simulator): set<Job> { s.simulated + s.quarantined }

  predicate Active(s: Simulator, job: Job) {
    job in s.jobs || (s.current.Holding? && s.current.job == job)
  }

  function RunningJobs(s: Simulator): set<Job> {
    set j | j in s.jobs && s.jobs[j] == Running
  }

  /** Every message skipped by polling is handled, and nothing past the completed prefix is committed. */
  ghost predicate PartitionOk(p: int, part: Partition, handled: set<Job>) {
    && Increasing(Offsets(part.log))
    && part.start <= part.position <= |part.log|
    && part.history.registered == Offsets(part.log)[part.start..part.position]
    && WellFormed(part.history)
    && (forall i :: 0 <= i < part.start ==> Job(p, part.log[i].offset) in handled)
    && (forall o :: o in part.history.done ==> Job(p, o) in handled)
    && (forall i :: part.start + Prefix(part.history.registered, part.history.done) <= i < |part.log|
                    ==> part.committed <= part.log[i].offset)
    && part.committed <= EndOffset(part.log)
  }

  /** Registered and not completed. */
  ghost predicate Outstanding(h: History, offset: int) {
    offset in Elements(h.registered) && offset !in h.done
  }

  /** The registered offsets not yet completed are exactly the work in flight. */
  ghost predicate WorkOk(s: Simulator) {
    && (forall job :: Active(s, job) <==> Outstanding(PartitionAt(s, job.partition).history, job.offset))
    && (s.current.Holding? ==> s.current.job !in s.jobs)
    && (s.current.Holding? && s.current.published ==> s.current.job in s.quarantined)
    && (forall job :: job in s.jobs && (s.jobs[job] == Reporting(true) || s.jobs[job] == Queued(true))
                      ==> job in s.simulated)
  }

  /** Slots and running simulations always add up. */
  ghost predicate SlotsOk(s: Simulator) {
    0 <= s.slots && |RunningJobs(s)| + s.slots == 2 * s.workers
  }

  ghost predicate Inv(s: Simulator) {
    && (forall p :: PartitionOk(p, PartitionAt(s, p), Handled(s)))
    && WorkOk(s) && SlotsOk(s)
  }

  // ---------------------------------------------------------------- one partition

  lemma PartitionMoreHandled(p: int, part: Partition, handled: set<Job>, more: set<Job>)
    requires PartitionOk(p, part, handled) && handled <= more
    ensures PartitionOk(p, part, more)
  {
  }

  lemma LogIncreasing(part: Partition, i: nat, j: nat)
    requires Increasing(Offsets(part.log)) && i < j < |part.log|
    ensures part.log[i].offset < part.log[j].offset
  {
    IncreasingAt(Offsets(part.log), i, j);
  }

  lemma OffsetsAppend(log: seq<Message>, m: Message, from: nat, to: nat)
    requires from <= to <= |log| && Increasing(Offsets(log))
    requires log != [] ==> log[|log| - 1].offset < m.offset
    ensures Increasing(Offsets(log + [m]))
    ensures Offsets(log + [m])[from..to] == Offsets(log)[from..to]
  {
    assert Offsets(log + [m]) == Offsets(log) + [m.offset];
    assert Offsets(log + [m])[..|log|] == Offsets(log);
  }

  lemma ProduceKeepsPartition(p: int, part: Partition, handled: set<Job>, gap: nat, decodable: bool)
    requires PartitionOk(p, part, handled)
    ensures PartitionOk(p, part.(log := part.log + [Message(EndOffset(part.log) + gap, decodable)]), handled)
  {
    OffsetsAppend(part.log, Message(EndOffset(part.log) + gap, decodable), part.start, part.position);
    hide Elements, Increasing, Prefix;
  }

  lemma SliceGrows(s: seq<int>, from: nat, to: nat)
    requires from <= to < |s|
    ensures s[from..to + 1] == s[from..to] + [s[to]]
  {
  }

  /** The tracker accepts the next message of the log and refuses every one already registered. */
  lemma OnlyNextMayRegister(part: Partition, i: nat)
    requires Increasing(Offsets(part.log)) && part.start <= i <= part.position <= |part.log| && i < |part.log|
    requires part.history.registered == Offsets(part.log)[part.start..part.position]
    ensures MayRegister(part.history, part.log[i].offset) <==> i == part.position
  {
    hide Increasing, Prefix;
    var reg := part.history.registered;
    if reg != [] {
      assert reg[|reg| - 1] == part.log[part.position - 1].offset;
      if i == part.position { LogIncreasing(part, i - 1, i); }
      if i < part.position - 1 { LogIncreasing(part, i, part.position - 1); }
    }
  }

  /** Polling the next message keeps the partition safe. */
  lemma PollKeepsPartition(p: int, part: Partition, handled: set<Job>)
    requires PartitionOk(p, part, handled) && part.position < |part.log|
    ensures PartitionOk(p, part.(position := part.position + 1,
                                 history := Registered(part.history, part.log[part.position].offset)), handled)
  {
    hide WellFormed, Increasing, Elements, Prefix;
    var i, h := part.position, part.history;
    OnlyNextMayRegister(part, i);
    RegisteredWellFormed(h, part.log[i].offset);
    RegisteredPending(h, part.log[i].offset);
    SliceGrows(Offsets(part.log), part.start, i);
    hide MayRegister, Pending;
  }

  /** In an increasing log, one past message `k` exceeds everything up to k and nothing after it. */
  lemma OnePast(log: seq<Message>, k: nat, i: nat)
    requires Increasing(Offsets(log)) && k < |log| && i < |log|
    ensures i <= k ==> log[i].offset < log[k].offset + 1
    ensures k < i ==> log[k].offset + 1 <= log[i].offset
    ensures log[k].offset + 1 <= EndOffset(log)
  {
    if i < k { IncreasingAt(Offsets(log), i, k); }
    if k < i { IncreasingAt(Offsets(log), k, i); }
    if k < |log| - 1 { IncreasingAt(Offsets(log), k, |log| - 1); }
  }

  /** The new commit, if any, is one past log index start + m - 1, for m the new prefix. */
  lemma CommitIndex(part: Partition, offset: int, m: nat)
    requires part.start <= part.position <= |part.log|
    requires part.history.registered == Offsets(part.log)[part.start..part.position]
    requires m == Prefix(part.history.registered, part.history.done + {offset})
    ensures CompletedPartition(part, offset).committed ==
            if m > Prefix(part.history.registered, part.history.done) then part.log[part.start + m - 1].offset + 1
            else part.committed
  {
  }

  lemma AllPast(log: seq<Message>, k: nat)
    requires Increasing(Offsets(log)) && k < |log|
    ensures forall i :: k < i < |log| ==> log[k].offset + 1 <= log[i].offset
  {
    hide Increasing;
    forall i | k < i < |log| ensures log[k].offset + 1 <= log[i].offset { OnePast(log, k, i); }
  }

  lemma CompletedStaysWellFormed(h: History, offset: int)
    requires WellFormed(h) && offset in Elements(h.registered)
    ensures WellFormed(Completed(h, offset))
  {
    hide Increasing, Elements;
  }

  /** Completing handled work keeps the partition safe and never moves the commit back. */
  lemma CompleteKeepsPartition(p: int, part: Partition, handled: set<Job>, offset: int)
    requires PartitionOk(p, part, handled) && Job(p, offset) in handled
    requires offset in Elements(part.history.registered)
    ensures PartitionOk(p, CompletedPartition(part, offset), handled)
    ensures part.committed <= CompletedPartition(part, offset).committed
  {
    hide Increasing, Elements, Commit, EndOffset, WellFormed;
    var h, later := part.history, Completed(part.history, offset);
    CompletedStaysWellFormed(h, offset);
    PrefixMonotone(h, later);
    var n, m := Prefix(h.registered, h.done), Prefix(later.registered, later.done);
    CommitIndex(part, offset, m);
    if m > n {
      hide Prefix;
      var k := part.start + m - 1;
      OnePast(part.log, k, part.start + n);
      AllPast(part.log, k);
    }
  }

  /** Below the committed offset everything is handled. */
  lemma BelowCommittedHandled(p: int, part: Partition, handled: set<Job>, i: nat)
    requires PartitionOk(p, part, handled) && i < |part.log| && part.log[i].offset < part.committed
    ensures Job(p, part.log[i].offset) in handled
  {
    hide WellFormed;
    if i >= part.start {
      assert i < part.start + Prefix(part.history.registered, part.history.done);
      assert part.history.registered[i - part.start] == part.log[i].offset;
    }
  }

  lemma RestartKeepsPartition(p: int, part: Partition, handled: set<Job>)
    requires PartitionOk(p, part, handled)
    ensures PartitionOk(p, Resumed(part), handled)
  {
    var r := Resumed(part);
    forall i | 0 <= i < r.start ensures Job(p, part.log[i].offset) in handled {
      BelowCommittedHandled(p, part, handled, i);
    }
    forall i | r.start <= i < |part.log| ensures part.committed <= part.log[i].offset {
      if r.start < i { LogIncreasing(part, r.start, i); }
    }
    assert Offsets(part.log)[r.start..r.start] == [];
  }

  // ---------------------------------------------------------------- whole steps

  lemma RestartKeepsInv(s: Simulator)
    requires Inv(s)
    ensures Inv(Restart(s))
  {
    forall p ensures PartitionOk(p, PartitionAt(Restart(s), p), Handled(s)) {
      RestartKeepsPartition(p, PartitionAt(s, p), Handled(s));
    }
    assert RunningJobs(Restart(s)) == {};
    forall p ensures PartitionAt(Restart(s), p).history == NO_HISTORY {}
  }

  /** Replacing one partition by a good one keeps them all good. */
  lemma PutKeepsPartitions(s: Simulator, p: int, part: Partition, s': Simulator)
    requires forall q :: PartitionOk(q, PartitionAt(s, q), Handled(s))
    requires PartitionOk(p, part, Handled(s))
    requires s'.partitions == s.partitions[p := part] && Handled(s') == Handled(s)
    ensures forall q :: PartitionOk(q, PartitionAt(s', q), Handled(s'))
  {
    hide PartitionOk;
    forall q ensures PartitionOk(q, PartitionAt(s', q), Handled(s')) {
      assert PartitionAt(s', q) == if q == p then part else PartitionAt(s, q);
    }
  }

  lemma ProduceKeepsInv(s: Simulator, p: int, gap: nat, decodable: bool)
    requires Inv(s)
    ensures Inv(Apply(s, Produce(p, gap, decodable)))
  {
    hide PartitionOk;
    var s' := Apply(s, Produce(p, gap, decodable));
    ProduceKeepsPartition(p, PartitionAt(s, p), Handled(s), gap, decodable);
    PutKeepsPartitions(s, p, PartitionAt(s', p), s');
    assert RunningJobs(s') == RunningJobs(s);
    assert forall q :: PartitionAt(s', q).history == PartitionAt(s, q).history;
    assert forall job :: Active(s', job) <==> Active(s, job);
  }

  /** Polling adds exactly the registered message to the work in flight. */
  lemma PollKeepsWork(s: Simulator, p: int, offset: int, part: Partition, s': Simulator, decodable: bool)
    requires WorkOk(s) && s.current.Idle?
    requires WellFormed(PartitionAt(s, p).history) && MayRegister(PartitionAt(s, p).history, offset)
    requires part.history == Registered(PartitionAt(s, p).history, offset)
    requires s' == Put(s, p, part).(current := Holding(Job(p, offset), decodable, false))
    ensures WorkOk(s')
  {
    var h := PartitionAt(s, p).history;
    ElementsAppend(h.registered, offset);
    FreshElement(h, offset);
    FreshOffset(h, offset);
    hide Elements, Increasing, MayRegister;
    assert forall q :: q != p ==> PartitionAt(s', q) == PartitionAt(s, q);
    assert !Active(s, Job(p, offset));
    assert forall job :: Active(s', job) <==> Active(s, job) || job == Job(p, offset);
  }

  lemma PollKeepsInv(s: Simulator, p: int, i: nat)
    requires Inv(s)
    ensures Inv(Apply(s, Poll(p, i)))
  {
    hide PartitionOk, Increasing, Elements;
    var s', part := Apply(s, Poll(p, i)), PartitionAt(s, p);
    if s.current.Idle? && i < |part.log| && part.start <= i <= part.position {
      PartitionParts(p, part, Handled(s));
      OnlyNextMayRegister(part, i);
      if i < part.position {
        RestartKeepsInv(s);
      } else {
        hide WorkOk;
        PollKeepsPartition(p, part, Handled(s));
        var part' := part.(position := i + 1, history := Registered(part.history, part.log[i].offset));
        PutKeepsPartitions(s, p, part', s');
        PollKeepsWork(s, p, part.log[i].offset, part', s', part.log[i].decodable);
        assert RunningJobs(s') == RunningJobs(s);
      }
    }
  }

  lemma PartitionParts(p: int, part: Partition, handled: set<Job>)
    requires PartitionOk(p, part, handled)
    ensures WellFormed(part.history) && Increasing(Offsets(part.log))
    ensures part.start <= part.position <= |part.log|
    ensures part.history.registered == Offsets(part.log)[part.start..part.position]
  {
  }

  lemma FreshElement(h: History, offset: int)
    requires WellFormed(h) && MayRegister(h, offset)
    ensures offset !in Elements(h.registered)
  {
    FreshOffset(History(h.registered, {}), offset);
    RegisteredOnce(h.registered, offset);
  }

  lemma RegisteredOnce(registered: seq<int>, offset: int)
    requires Increasing(registered) && MayRegister(History(registered, {}), offset)
    ensures offset !in Elements(registered)
  {
    ElementsMembers(registered, offset);
    forall i | 0 <= i < |registered| ensures registered[i] < offset {
      if i < |registered| - 1 { IncreasingAt(registered, i, |registered| - 1); }
    }
  }

  /** Completing takes exactly one job out of the work in flight. */
  lemma CompleteKeepsWork(s: Simulator, job: Job, s': Simulator)
    requires WorkOk(s) && Active(s, job)
    requires s' == CompleteAndCommit(s, job).(jobs := s'.jobs, current := s'.current)
    requires s'.jobs == s.jobs - {job}
    requires s'.current == if s.current.Holding? && s.current.job == job then Idle else s.current
    ensures WorkOk(s')
  {
    hide Commit, Elements;
    assert forall q :: q != job.partition ==> PartitionAt(s', q) == PartitionAt(s, q);
    assert PartitionAt(s', job.partition).history == Completed(PartitionAt(s, job.partition).history, job.offset);
    assert forall j :: Active(s', j) <==> Active(s, j) && j != job;
  }

  lemma LeavingKeepsRunning(s: Simulator, s': Simulator, job: Job)
    requires s'.jobs == s.jobs - {job} && (job in s.jobs ==> s.jobs[job] != Running)
    ensures RunningJobs(s') == RunningJobs(s)
  {
  }

  lemma InvParts(s: Simulator)
    ensures Inv(s) <==> (forall p :: PartitionOk(p, PartitionAt(s, p), Handled(s))) && WorkOk(s) && SlotsOk(s)
  {
  }

  lemma ActiveIsRegistered(s: Simulator, job: Job)
    requires WorkOk(s) && Active(s, job)
    ensures job.offset in Elements(PartitionAt(s, job.partition).history.registered)
  {
    hide Elements;
    assert Outstanding(PartitionAt(s, job.partition).history, job.offset);
  }

  lemma SlotsKept(s: Simulator, s': Simulator)
    requires SlotsOk(s) && RunningJobs(s') == RunningJobs(s) && s'.slots == s.slots && s'.workers == s.workers
    ensures SlotsOk(s')
  {
  }

  lemma CompleteKeepsInv(s: Simulator, job: Job, s': Simulator)
    requires Inv(s) && Active(s, job) && job in Handled(s)
    requires s' == CompleteAndCommit(s, job).(jobs := s'.jobs, current := s'.current)
    requires s'.jobs == s.jobs - {job}
    requires job in s.jobs ==> s.jobs[job] != Running
    requires s'.current == if s.current.Holding? && s.current.job == job then Idle else s.current
    ensures Inv(s')
  {
    var p := job.partition;
    var part := CompletedPartition(PartitionAt(s, p), job.offset);
    assert s'.partitions == s.partitions[p := part] && Handled(s') == Handled(s) && s'.slots == s.slots && s'.workers == s.workers by {
      hide Inv, CompletedPartition, Active;
    }
    hide *;
    InvParts(s);
    ActiveIsRegistered(s, job);
    CompleteKeepsWork(s, job, s');
    LeavingKeepsRunning(s, s', job);
    SlotsKept(s, s');
    CompleteKeepsPartition(p, PartitionAt(s, p), Handled(s), job.offset);
    PutKeepsPartitions(s, p, part, s');
    InvParts(s');
  }

  lemma FinishKeepsInv(s: Simulator, job: Job, ok: bool)
    requires Inv(s)
    ensures Inv(Apply(s, Finish(job, ok)))
  {
    hide PartitionOk, Outstanding;
    var s' := Apply(s, Finish(job, ok));
    forall p ensures PartitionOk(p, PartitionAt(s', p), Handled(s')) {
      PartitionMoreHandled(p, PartitionAt(s, p), Handled(s), Handled(s'));
    }
    assert forall j :: Active(s', j) <==> Active(s, j);
    if s' != s { assert RunningJobs(s') == RunningJobs(s) - {job}; }
  }

  lemma ReportKeepsInv(s: Simulator, job: Job)
    requires Inv(s)
    ensures Inv(Apply(s, Report(job)))
  {
    hide PartitionOk, Outstanding;
    var s' := Apply(s, Report(job));
    assert forall p :: PartitionAt(s', p) == PartitionAt(s, p);
    assert forall j :: Active(s', j) <==> Active(s, j);
    assert RunningJobs(s') == RunningJobs(s);
  }

  lemma SubmitKeepsInv(s: Simulator)
    requires Inv(s)
    ensures Inv(Apply(s, Submit))
  {
    hide PartitionOk, Outstanding;
    var s' := Apply(s, Submit);
    assert forall p :: PartitionAt(s', p) == PartitionAt(s, p);
    assert forall j :: Active(s', j) <==> Active(s, j);
    if s' != s { assert RunningJobs(s') == RunningJobs(s) + {s.current.job}; }
  }

  lemma PublishKeepsInv(s: Simulator)
    requires Inv(s)
    ensures Inv(Apply(s, PublishQuarantine))
  {
    hide PartitionOk, Outstanding;
    var s' := Apply(s, PublishQuarantine);
    forall p ensures PartitionOk(p, PartitionAt(s', p), Handled(s')) {
      PartitionMoreHandled(p, PartitionAt(s, p), Handled(s), Handled(s'));
    }
    assert forall j :: Active(s', j) <==> Active(s, j);
    assert RunningJobs(s') == RunningJobs(s);
  }

  lemma StepKeepsInv(s: Simulator, step: Step)
    requires Inv(s)
    ensures Inv(Apply(s, step))
  {
    match step
    case Produce(p, gap, decodable) => ProduceKeepsInv(s, p, gap, decodable);
    case Poll(p, i) => PollKeepsInv(s, p, i);
    case Submit => SubmitKeepsInv(s);
    case PublishQuarantine => PublishKeepsInv(s);
    case CommitQuarantine =>
      hide Inv;
      if s.current.Holding? && s.current.published { CommitQuarantineKeepsInv(s); }
    case Finish(job, ok) => FinishKeepsInv(s, job, ok);
    case Report(job) => ReportKeepsInv(s, job);
    case Drain(job) => DrainKeepsInv(s, job);
    case Crash => RestartKeepsInv(s);
  }

  lemma CommitQuarantineKeepsInv(s: Simulator)
    requires Inv(s) && s.current.Holding? && s.current.published
    ensures Inv(Apply(s, CommitQuarantine))
  {
    hide PartitionOk, Outstanding;
    var s' := Apply(s, CommitQuarantine);
    assert s'.jobs == s.jobs - {s.current.job};
    CompleteKeepsInv(s, s.current.job, s');
  }

  lemma DrainKeepsInv(s: Simulator, job: Job)
    requires Inv(s)
    ensures Inv(Apply(s, Drain(job)))
  {
    hide PartitionOk, Outstanding;
    var s' := Apply(s, Drain(job));
    if job in s.jobs && s.jobs[job].Queued? && !(s.current.Holding? && !s.current.decodable) {
      if s.jobs[job].ok {
        CompleteKeepsInv(s, job, s');
      } else {
        RestartKeepsInv(s);
      }
    }
  }

  lemma {:induction false} RunKeepsInv(workers: nat, steps: seq<Step>)
    ensures Inv(Run(Init(workers), steps))
  {
    if steps == [] {
      assert RunningJobs(Init(workers)) == {};
    } else {
      RunKeepsInv(workers, steps[..|steps| - 1]);
      StepKeepsInv(Run(Init(workers), steps[..|steps| - 1]), steps[|steps| - 1]);
    }
  }

  // ---------------------------------------------------------------- main results

  /**
   * Commit safety: after any run, with any completion order, failures, redeliveries,
   * quarantines and crashes, every message below a committed offset was simulated to
   * the end or published to the dead letter topic.
   */
  lemma {:induction false} CommittedMessagesAreHandled(workers: nat, steps: seq<Step>, p: int, i: nat)
    requires i < |PartitionAt(Run(Init(workers), steps), p).log|
    ensures var s := Run(Init(workers), steps);
            PartitionAt(s, p).log[i].offset < PartitionAt(s, p).committed
            ==> Job(p, PartitionAt(s, p).log[i].offset) in Handled(s)
  {
    RunKeepsInv(workers, steps);
    var s := Run(Init(workers), steps);
    hide PartitionOk, WorkOk, SlotsOk;
    if PartitionAt(s, p).log[i].offset < PartitionAt(s, p).committed {
      BelowCommittedHandled(p, PartitionAt(s, p), Handled(s), i);
    }
  }

  // ---------------------------------------------------------------- commits keep up

  /** With n messages completed from the start, the committed position is one past them, and past all that this process did not have to poll. */
  ghost predicate CommitAt(part: Partition, n: nat) {
    && part.start + n <= part.position <= |part.log|
    && (forall j :: 0 <= j < part.start ==> part.log[j].offset < part.committed)
    && (n > 0 ==> part.committed == part.log[part.start + n - 1].offset + 1)
  }

  ghost predicate CommitOk(part: Partition) {
    CommitAt(part, Prefix(part.history.registered, part.history.done))
  }

  ghost predicate CommitsOk(s: Simulator) { forall p :: CommitOk(PartitionAt(s, p)) }

  lemma CompletedShape(part: Partition, offset: int)
    ensures var after := CompletedPartition(part, offset);
            && after.history.registered == part.history.registered && after.history.done == part.history.done + {offset}
            && (after.log, after.start, after.position) == (part.log, part.start, part.position)
  {
  }

  lemma CommitMoves(part: Partition, after: Partition, n: nat, m: nat)
    requires CommitAt(part, n) && n <= m && part.start + m <= part.position && Increasing(Offsets(part.log))
    requires (after.log, after.start, after.position) == (part.log, part.start, part.position)
    requires after.committed == if m > n then part.log[part.start + m - 1].offset + 1 else part.committed
    ensures CommitAt(after, m)
  {
    hide Increasing, Offsets;
    if m > n {
      forall j | 0 <= j < part.start ensures part.log[j].offset < after.committed { LogIncreasing(part, j, part.start + m - 1); }
    }
  }

  lemma CompleteKeepsCommit(p: int, part: Partition, handled: set<Job>, offset: int)
    requires PartitionOk(p, part, handled) && CommitOk(part)
    ensures CommitOk(CompletedPartition(part, offset))
  {
    hide CommitAt, Commit, Increasing, Elements, EndOffset, WellFormed;
    var h := part.history;
    var n, m := Prefix(h.registered, h.done), Prefix(h.registered, h.done + {offset});
    PartitionParts(p, part, handled);
    hide PartitionOk;
    PrefixMonotone(h, Completed(h, offset));
    CommitIndex(part, offset, m);
    CompletedShape(part, offset);
    hide Prefix, CompletedPartition;
    CommitMoves(part, CompletedPartition(part, offset), n, m);
  }

  lemma ResumedKeepsCommit(part: Partition)
    ensures CommitOk(Resumed(part))
  {
  }

  lemma CommitIs(part: Partition, n: nat)
    requires n == Prefix(part.history.registered, part.history.done)
    ensures CommitOk(part) <==> CommitAt(part, n)
  {
  }

  function Polled(part: Partition): Partition
    requires part.position < |part.log|
  {
    part.(position := part.position + 1, history := Registered(part.history, part.log[part.position].offset))
  }

  lemma PolledShape(part: Partition, n: nat)
    requires part.position < |part.log|
    ensures Polled(part).history == History(part.history.registered + [part.log[part.position].offset], part.history.done)
    ensures CommitAt(part, n) ==> CommitAt(Polled(part), n)
  {
  }

  lemma PollKeepsCommit(p: int, part: Partition, handled: set<Job>)
    requires PartitionOk(p, part, handled) && CommitOk(part) && part.position < |part.log|
    ensures CommitOk(Polled(part))
  {
    hide *;
    var h, offset := part.history, part.log[part.position].offset;
    PartitionParts(p, part, handled);
    OnlyNextMayRegister(part, part.position);
    RegisteredPending(h, offset);
    var n := Prefix(h.registered, h.done);
    CommitIs(part, n);
    PolledShape(part, n);
    CommitIs(Polled(part), n);
  }

  lemma ProduceKeepsCommit(part: Partition, m: Message)
    requires CommitOk(part)
    ensures CommitOk(part.(log := part.log + [m]))
  {
    hide Prefix;
  }

  lemma PutKeepsCommits(s: Simulator, p: int, part: Partition, after: Simulator)
    requires CommitsOk(s) && CommitOk(part) && after.partitions == s.partitions[p := part]
    ensures CommitsOk(after)
  {
    hide CommitOk;
    forall q ensures CommitOk(PartitionAt(after, q)) {
      assert PartitionAt(after, q) == if q == p then part else PartitionAt(s, q);
    }
  }

  lemma RestartKeepsCommits(s: Simulator)
    ensures CommitsOk(Restart(s))
  {
    forall q ensures CommitOk(PartitionAt(Restart(s), q)) {
      if q in s.partitions { ResumedKeepsCommit(s.partitions[q]); }
      hide Resumed;
    }
  }

  lemma CompleteKeepsCommits(s: Simulator, job: Job, after: Simulator)
    requires Inv(s) && CommitsOk(s) && after.partitions == CompleteAndCommit(s, job).partitions
    ensures CommitsOk(after)
  {
    var part := PartitionAt(s, job.partition);
    assert PartitionOk(job.partition, part, Handled(s)) && CommitOk(part);
    hide Inv, PartitionOk, CommitsOk, CommitOk, CompletedPartition;
    CompleteKeepsCommit(job.partition, part, Handled(s), job.offset);
    PutKeepsCommits(s, job.partition, CompletedPartition(part, job.offset), after);
  }

  lemma PartitionIsOk(s: Simulator, p: int)
    requires Inv(s)
    ensures PartitionOk(p, PartitionAt(s, p), Handled(s))
  {
  }

  lemma PartitionCommits(s: Simulator, p: int)
    requires CommitsOk(s)
    ensures CommitOk(PartitionAt(s, p))
  {
  }

  lemma PollKeepsCommits(s: Simulator, p: int, i: nat)
    requires Inv(s) && CommitsOk(s)
    ensures CommitsOk(Apply(s, Poll(p, i)))
  {
    var part := PartitionAt(s, p);
    hide Inv, PartitionOk, CommitsOk, CommitOk, Increasing, WellFormed, MayRegister, Offsets, Restart;
    PartitionIsOk(s, p);
    PartitionCommits(s, p);
    PartitionParts(p, part, Handled(s));
    RestartKeepsCommits(s);
    if part.start <= i <= part.position && i < |part.log| {
      OnlyNextMayRegister(part, i);
      if i == part.position {
        PollKeepsCommit(p, part, Handled(s));
        PutKeepsCommits(s, p, Polled(part), if s.current.Idle? then Apply(s, Poll(p, i)) else Put(s, p, Polled(part)));
      }
    }
  }

  lemma SameKeepsCommits(s: Simulator, after: Simulator)
    requires CommitsOk(s) && after.partitions == s.partitions
    ensures CommitsOk(after)
  {
    hide CommitOk;
    forall q ensures CommitOk(PartitionAt(after, q)) { assert PartitionAt(after, q) == PartitionAt(s, q); }
  }

  lemma ProduceKeepsCommits(s: Simulator, p: int, gap: nat, decodable: bool)
    requires CommitsOk(s)
    ensures CommitsOk(Apply(s, Produce(p, gap, decodable)))
  {
    var part := PartitionAt(s, p);
    var m := Message(EndOffset(part.log) + gap, decodable);
    hide CommitsOk, CommitOk;
    PartitionCommits(s, p);
    ProduceKeepsCommit(part, m);
    PutKeepsCommits(s, p, part.(log := part.log + [m]), Apply(s, Produce(p, gap, decodable)));
  }

  lemma StepKeepsCommits(s: Simulator, step: Step)
    requires Inv(s) && CommitsOk(s)
    ensures CommitsOk(Apply(s, step))
  {
    hide Inv, CommitsOk, CompletedPartition, Restart, MayRegister, EndOffset, Registered;
    match step {
      case Produce(p, gap, decodable) => ProduceKeepsCommits(s, p, gap, decodable);
      case Poll(p, i) => PollKeepsCommits(s, p, i);
      case CommitQuarantine =>
        if s.current.Holding? && s.current.published { CompleteKeepsCommits(s, s.current.job, Apply(s, step)); }
      case Drain(job) =>
        RestartKeepsCommits(s);
        if Apply(s, step) != s && Apply(s, step) != Restart(s) { CompleteKeepsCommits(s, job, Apply(s, step)); }
      case Crash => RestartKeepsCommits(s);
      case _ => SameKeepsCommits(s, Apply(s, step));
    }
  }

  lemma {:induction false} RunKeepsCommits(workers: nat, steps: seq<Step>)
    ensures CommitsOk(Run(Init(workers), steps))
  {
    if steps == [] {
      forall p ensures CommitOk(PartitionAt(Init(workers), p)) {}
    } else {
      RunKeepsCommits(workers, steps[..|steps| - 1]);
      RunKeepsInv(workers, steps[..|steps| - 1]);
      hide CommitsOk, Apply, Inv;
      StepKeepsCommits(Run(Init(workers), steps[..|steps| - 1]), steps[|steps| - 1]);
    }
  }

  /** Nothing is replayed for nothing: in every run, once a partition has no work in flight, everything polled from it is committed. */
  lemma {:induction false} IdlePartitionIsCommitted(workers: nat, steps: seq<Step>, p: int, i: nat)
    requires forall job :: Active(Run(Init(workers), steps), job) ==> job.partition != p
    requires i < PartitionAt(Run(Init(workers), steps), p).position
    ensures var part := PartitionAt(Run(Init(workers), steps), p); i < |part.log| && part.log[i].offset < part.committed
  {
    RunKeepsInv(workers, steps);
    RunKeepsCommits(workers, steps);
    var s := Run(Init(workers), steps);
    hide Run, CommitOk, PartitionOk, SlotsOk;
    IdleStateIsCommitted(s, p, i);
  }

  /** With no work in flight, the completed prefix is everything registered. */
  lemma IdleIsComplete(s: Simulator, p: int)
    requires WorkOk(s) && forall job :: Active(s, job) ==> job.partition != p
    ensures var h := PartitionAt(s, p).history; Prefix(h.registered, h.done) == |h.registered|
  {
    var h := PartitionAt(s, p).history;
    var n := Prefix(h.registered, h.done);
    hide Prefix, Elements;
    if n < |h.registered| {
      ElementsMembers(h.registered, h.registered[n]);
      assert Outstanding(h, h.registered[n]);
      OutstandingIsActive(s, Job(p, h.registered[n]));
    }
  }

  lemma IdleStateIsCommitted(s: Simulator, p: int, i: nat)
    requires Inv(s) && CommitsOk(s) && i < PartitionAt(s, p).position
    requires forall job :: Active(s, job) ==> job.partition != p
    ensures var part := PartitionAt(s, p); i < |part.log| && part.log[i].offset < part.committed
  {
    var part := PartitionAt(s, p);
    hide Inv, CommitsOk, WellFormed, Increasing, Offsets, Active, PartitionOk, CommitOk, Prefix, Outstanding;
    InvParts(s);
    IdleIsComplete(s, p);
    PartitionIsOk(s, p);
    PartitionCommits(s, p);
    PartitionParts(p, part, Handled(s));
    CommitIs(part, part.position - part.start);
    if part.start <= i < part.position - 1 { LogIncreasing(part, i, part.position - 1); }
  }

  // ---------------------------------------------------------------- one message goes through

  /** The steps that take the next message of a partition through an idle process. */
  function Pass(p: int, i: nat, m: Message): seq<Step> {
    if m.decodable then [Poll(p, i), Submit, Finish(Job(p, m.offset), true), Report(Job(p, m.offset)), Drain(Job(p, m.offset))]
    else [Poll(p, i), PublishQuarantine, CommitQuarantine]
  }

  lemma {:induction false} RunAppends(s: Simulator, before: seq<Step>, more: seq<Step>)
    ensures Run(s, before + more) == Run(Run(s, before), more)
    decreases |more|
  {
    hide Apply;
    var all := before + more;
    if more == [] {
      assert all == before;
    } else {
      assert all[..|all| - 1] == before + more[..|more| - 1];
      RunAppends(s, before, more[..|more| - 1]);
    }
  }

  lemma RunThree(s: Simulator, a: Step, b: Step, d: Step)
    ensures Run(s, [a, b, d]) == Apply(Apply(Apply(s, a), b), d)
  {
    hide Apply;
    assert [a, b, d][..2] == [a, b] && [a, b][..1] == [a] && [a][..0] == [];
    assert Run(s, []) == s && Run(s, [a]) == Apply(s, a) && Run(s, [a, b]) == Apply(Apply(s, a), b);
  }

  lemma RunTwo(s: Simulator, a: Step, b: Step)
    ensures Run(s, [a, b]) == Apply(Apply(s, a), b)
  {
    hide Apply;
    assert [a, b][..1] == [a] && [a][..0] == [];
    assert Run(s, []) == s && Run(s, [a]) == Apply(s, a);
  }

  /** Polling the next message of an idle process holds it. */
  lemma PolledIsHeld(s: Simulator, p: int)
    requires Inv(s) && s.current.Idle? && PartitionAt(s, p).position < |PartitionAt(s, p).log|
    ensures var part := PartitionAt(s, p);
            var m := part.log[part.position];
            Apply(s, Poll(p, part.position))
            == Put(s, p, part.(position := part.position + 1, history := Registered(part.history, m.offset)))
                 .(current := Holding(Job(p, m.offset), m.decodable, false))
  {
    var part := PartitionAt(s, p);
    assert PartitionOk(p, part, Handled(s));
    OnlyNextMayRegister(part, part.position);
    hide Increasing, WellFormed, Prefix, Elements, MayRegister, WorkOk, SlotsOk;
  }

  /** Submitted, simulated, reported and drained, the message held by an idle process is completed. */
  lemma HeldGoesThrough(s: Simulator, job: Job)
    requires s.current == Holding(job, true, false) && s.jobs == map[] && s.slots > 0
    ensures var mid := Apply(Apply(s, Submit), Finish(job, true));
            var after := Apply(Apply(mid, Report(job)), Drain(job));
            after == CompleteAndCommit(s, job).(current := Idle, simulated := s.simulated + {job}, jobs := map[])
  {
    hide CompletedPartition, Restart;
    var mid := Apply(Apply(s, Submit), Finish(job, true));
    assert mid == s.(current := Idle, jobs := map[job := Reporting(true)], simulated := s.simulated + {job});
    var late := Apply(mid, Report(job));
    assert late.jobs == map[job := Queued(true)];
    assert late.jobs - {job} == map[];
  }

  lemma FreeSlots(s: Simulator)
    requires SlotsOk(s) && s.jobs == map[] && s.workers > 0
    ensures s.slots > 0
  {
    assert RunningJobs(s) == {};
  }

  lemma DecodablePassEnds(s: Simulator, p: int)
    requires Inv(s) && s.current.Idle? && s.jobs == map[] && s.workers > 0 && PartitionAt(s, p).position < |PartitionAt(s, p).log|
    requires PartitionAt(s, p).log[PartitionAt(s, p).position].decodable
    ensures var (part, m) := (PartitionAt(s, p), PartitionAt(s, p).log[PartitionAt(s, p).position]);
            var after := Run(s, Pass(p, part.position, m));
            && after.current.Idle? && after.jobs == map[] && Job(p, m.offset) in after.simulated
            && PartitionAt(after, p).position == part.position + 1 && PartitionAt(after, p).log == part.log
  {
    var part := PartitionAt(s, p);
    var m := part.log[part.position];
    var job := Job(p, m.offset);
    var first, second := [Poll(p, part.position), Submit, Finish(job, true)], [Report(job), Drain(job)];
    PolledIsHeld(s, p);
    FreeSlots(s);
    RunThree(s, Poll(p, part.position), Submit, Finish(job, true));
    RunTwo(Run(s, first), Report(job), Drain(job));
    RunAppends(s, first, second);
    assert Pass(p, part.position, m) == first + second;
    HeldGoesThrough(Apply(s, Poll(p, part.position)), job);
    hide Run, Apply, Inv, Pass, Commit, Registered;
  }

  lemma UndecodablePassEnds(s: Simulator, p: int)
    requires Inv(s) && s.current.Idle? && s.jobs == map[] && PartitionAt(s, p).position < |PartitionAt(s, p).log|
    requires !PartitionAt(s, p).log[PartitionAt(s, p).position].decodable
    ensures var (part, m) := (PartitionAt(s, p), PartitionAt(s, p).log[PartitionAt(s, p).position]);
            var after := Run(s, Pass(p, part.position, m));
            && after.current.Idle? && after.jobs == map[] && Job(p, m.offset) in after.quarantined
            && PartitionAt(after, p).position == part.position + 1 && PartitionAt(after, p).log == part.log
  {
    var part := PartitionAt(s, p);
    PolledIsHeld(s, p);
    RunThree(s, Poll(p, part.position), PublishQuarantine, CommitQuarantine);
    hide Run, Inv, Commit, Registered, MayRegister, Restart;
  }

  /**
   * From every reachable state with nothing in flight, an undisturbed pass takes the next message of
   * any partition through: simulated if it decodes, quarantined if not, and committed.
   */
  lemma {:induction false} NextMessageGoesThrough(workers: nat, steps: seq<Step>, p: int)
    requires workers > 0 && Run(Init(workers), steps).current.Idle? && Run(Init(workers), steps).jobs == map[]
    requires PartitionAt(Run(Init(workers), steps), p).position < |PartitionAt(Run(Init(workers), steps), p).log|
    ensures var part := PartitionAt(Run(Init(workers), steps), p);
            var m := part.log[part.position];
            var after := Run(Init(workers), steps + Pass(p, part.position, m));
            && after.current.Idle? && after.jobs == map[] && PartitionAt(after, p).log == part.log
            && (if m.decodable then Job(p, m.offset) in after.simulated else Job(p, m.offset) in after.quarantined)
            && m.offset < PartitionAt(after, p).committed
  {
    var s := Run(Init(workers), steps);
    var part := PartitionAt(s, p);
    var m := part.log[part.position];
    RunKeepsInv(workers, steps);
    RunKeepsWorkers(Init(workers), steps);
    RunAppends(Init(workers), steps, Pass(p, part.position, m));
    hide Run, Inv, Pass;
    if m.decodable { DecodablePassEnds(s, p); } else { UndecodablePassEnds(s, p); }
    IdlePartitionIsCommitted(workers, steps + Pass(p, part.position, m), p, part.position);
  }

  // ---------------------------------------------------------------- which way a message was handled

  ghost predicate HasMessage(part: Partition, offset: int, decodable: bool) {
    exists i :: 0 <= i < |part.log| && part.log[i] == Message(offset, decodable)
  }

  /** Only undecodable messages are quarantined, and the one at hand is judged as it was read. */
  ghost predicate Decoded(s: Simulator) {
    && (forall job :: job in s.quarantined ==> HasMessage(PartitionAt(s, job.partition), job.offset, false))
    && (s.current.Holding? ==>
          && HasMessage(PartitionAt(s, s.current.job.partition), s.current.job.offset, s.current.decodable)
          && (s.current.published ==> !s.current.decodable))
  }

  /** Logs only grow. */
  ghost predicate LogsGrow(s: Simulator, later: Simulator) {
    forall p :: PartitionAt(s, p).log <= PartitionAt(later, p).log
  }

  lemma MessageStays(part: Partition, later: Partition, offset: int, decodable: bool)
    requires HasMessage(part, offset, decodable) && part.log <= later.log
    ensures HasMessage(later, offset, decodable)
  {
    var i :| 0 <= i < |part.log| && part.log[i] == Message(offset, decodable);
    assert later.log[i] == Message(offset, decodable);
  }

  lemma StepGrowsLogs(s: Simulator, step: Step)
    ensures LogsGrow(s, Apply(s, step))
  {
    hide Commit, MayRegister, FirstFrom;
  }

  /** What a step adds to the two ways of being handled. */
  lemma StepHandles(s: Simulator, step: Step)
    ensures var after := Apply(s, step);
            && after.simulated == (if step.Finish? && step.ok && step.job in s.jobs && s.jobs[step.job] == Running
                                   then s.simulated + {step.job} else s.simulated)
            && (after.quarantined == s.quarantined
                || (s.current.Holding? && !s.current.decodable && after.quarantined == s.quarantined + {s.current.job}))
            && (after.current.Holding? ==>
                  if s.current.Holding? then
                    && after.current.job == s.current.job && after.current.decodable == s.current.decodable
                    && (after.current.published ==> s.current.published || !s.current.decodable)
                  else
                    && !after.current.published
                    && HasMessage(PartitionAt(after, after.current.job.partition), after.current.job.offset, after.current.decodable))
  {
    hide Commit, FirstFrom;
    if step.Poll? {
      var part := PartitionAt(s, step.partition);
      if step.index < |part.log| {
        assert part.log[step.index] == Message(part.log[step.index].offset, part.log[step.index].decodable);
      }
    }
  }

  lemma StepKeepsDecoded(s: Simulator, step: Step)
    requires Decoded(s)
    ensures Decoded(Apply(s, step))
  {
    StepHandles(s, step);
    StepGrowsLogs(s, step);
    var after := Apply(s, step);
    hide Apply, HasMessage;
    forall job | job in after.quarantined ensures HasMessage(PartitionAt(after, job.partition), job.offset, false) {
      MessageStays(PartitionAt(s, job.partition), PartitionAt(after, job.partition), job.offset, false);
    }
    if after.current.Holding? && s.current.Holding? {
      var job := s.current.job;
      MessageStays(PartitionAt(s, job.partition), PartitionAt(after, job.partition), job.offset, s.current.decodable);
    }
  }

  lemma {:induction false} RunKeepsDecoded(workers: nat, steps: seq<Step>)
    ensures Decoded(Run(Init(workers), steps))
  {
    if steps != [] {
      RunKeepsDecoded(workers, steps[..|steps| - 1]);
      StepKeepsDecoded(Run(Init(workers), steps[..|steps| - 1]), steps[|steps| - 1]);
    }
  }

  /** State form of the next result. */
  lemma DecodableIsSimulated(s: Simulator, p: int, i: nat)
    requires Inv(s) && Decoded(s) && i < |PartitionAt(s, p).log|
    requires PartitionAt(s, p).log[i].offset < PartitionAt(s, p).committed
    ensures Job(p, PartitionAt(s, p).log[i].offset) in if PartitionAt(s, p).log[i].decodable then s.simulated else s.simulated + s.quarantined
  {
    var part := PartitionAt(s, p);
    hide Inv, Decoded, PartitionOk, Increasing, Offsets, HasMessage;
    PartitionIsOk(s, p);
    BelowCommittedHandled(p, part, Handled(s), i);
    PartitionParts(p, part, Handled(s));
    if Job(p, part.log[i].offset) in s.quarantined { QuarantinedIsUndecodable(s, p, i); }
  }

  lemma QuarantinedIsUndecodable(s: Simulator, p: int, i: nat)
    requires Decoded(s) && Increasing(Offsets(PartitionAt(s, p).log)) && i < |PartitionAt(s, p).log|
    requires Job(p, PartitionAt(s, p).log[i].offset) in s.quarantined
    ensures !PartitionAt(s, p).log[i].decodable
  {
    var part := PartitionAt(s, p);
    var offset := part.log[i].offset;
    assert HasMessage(PartitionAt(s, Job(p, offset).partition), Job(p, offset).offset, false);
    hide Increasing, Offsets, Decoded;
    var j :| 0 <= j < |part.log| && part.log[j] == Message(offset, false);
    if i < j { LogIncreasing(part, i, j); }
    if j < i { LogIncreasing(part, j, i); }
  }

  /** After any run, a message below a committed offset that decodes was simulated to the end. */
  lemma {:induction false} CommittedDecodableIsSimulated(workers: nat, steps: seq<Step>, p: int, i: nat)
    requires i < |PartitionAt(Run(Init(workers), steps), p).log|
    ensures var s := Run(Init(workers), steps);
            var m := PartitionAt(s, p).log[i];
            m.offset < PartitionAt(s, p).committed && m.decodable ==> Job(p, m.offset) in s.simulated
  {
    RunKeepsInv(workers, steps);
    RunKeepsDecoded(workers, steps);
    var s := Run(Init(workers), steps);
    hide Inv, Decoded, Run;
    if PartitionAt(s, p).log[i].offset < PartitionAt(s, p).committed { DecodableIsSimulated(s, p, i); }
  }

  /** A message below the polling position is handled, or registered and not completed. */
  lemma PolledIsHandledOrOutstanding(p: int, part: Partition, handled: set<Job>, i: nat)
    requires PartitionOk(p, part, handled) && i < part.position && i < |part.log|
    ensures Job(p, part.log[i].offset) in handled || Outstanding(part.history, part.log[i].offset)
  {
    hide WellFormed, Elements, Prefix;
    if i >= part.start {
      assert part.history.registered[i - part.start] == part.log[i].offset;
      ElementsMembers(part.history.registered, part.log[i].offset);
    }
  }

  lemma OutstandingIsActive(s: Simulator, job: Job)
    requires WorkOk(s) && Outstanding(PartitionAt(s, job.partition).history, job.offset)
    ensures Active(s, job)
  {
    hide Outstanding;
  }

  /**
   * No message is forgotten: one that is not handled is in flight, held, or still to be
   * polled, and a restart would poll it again.
   */
  lemma {:induction false} UnhandledMessagesRemain(workers: nat, steps: seq<Step>, p: int, i: nat)
    requires i < |PartitionAt(Run(Init(workers), steps), p).log|
    ensures var s := Run(Init(workers), steps);
            var job := Job(p, PartitionAt(s, p).log[i].offset);
            job !in Handled(s) ==> (Active(s, job) || PartitionAt(s, p).position <= i)
                                   && Resumed(PartitionAt(s, p)).position <= i
  {
    RunKeepsInv(workers, steps);
    var s := Run(Init(workers), steps);
    var part := PartitionAt(s, p);
    hide PartitionOk, WorkOk, SlotsOk;
    if Job(p, part.log[i].offset) !in Handled(s) {
      if part.log[i].offset < part.committed { BelowCommittedHandled(p, part, Handled(s), i); }
      if i < part.position {
        PolledIsHandledOrOutstanding(p, part, Handled(s), i);
        OutstandingIsActive(s, Job(p, part.log[i].offset));
      }
    }
  }

  /** A failed simulation blocks its partition: while this process lives, no commit passes it. */
  lemma {:induction false} FailureBlocksCommit(workers: nat, steps: seq<Step>, job: Job)
    requires var s := Run(Init(workers), steps);
             job in s.jobs && s.jobs[job] in {Reporting(false), Queued(false)}
    ensures var s := Run(Init(workers), steps);
            PartitionAt(s, job.partition).committed <= job.offset
    ensures var s := Run(Init(workers), steps);
            Apply(s, Drain(job)) in {s, Restart(s)}
  {
    RunKeepsInv(workers, steps);
    ActiveNotCommitted(Run(Init(workers), steps), job);
  }

  lemma OutstandingNotCommitted(p: int, part: Partition, handled: set<Job>, offset: int)
    requires PartitionOk(p, part, handled) && Outstanding(part.history, offset)
    ensures part.committed <= offset
  {
    ElementsMembers(part.history.registered, offset);
    hide Elements, Increasing;
    var k :| 0 <= k < |part.history.registered| && part.history.registered[k] == offset;
    assert part.log[part.start + k].offset == offset;
  }

  /** Work in flight is never below the committed offset. */
  lemma ActiveNotCommitted(s: Simulator, job: Job)
    requires Inv(s) && Active(s, job)
    ensures PartitionAt(s, job.partition).committed <= job.offset
  {
    var part := PartitionAt(s, job.partition);
    assert PartitionOk(job.partition, part, Handled(s));
    assert Outstanding(part.history, job.offset);
    OutstandingNotCommitted(job.partition, part, Handled(s), job.offset);
  }

  /** At most 2 * WORKERS simulations are submitted and unfinished at any time. */
  lemma {:induction false} InFlightBounded(workers: nat, steps: seq<Step>)
    ensures |RunningJobs(Run(Init(workers), steps))| <= 2 * workers
  {
    RunKeepsInv(workers, steps);
    RunKeepsWorkers(Init(workers), steps);
  }

  lemma {:induction false} RunKeepsWorkers(s: Simulator, steps: seq<Step>)
    ensures Run(s, steps).workers == s.workers
  {
    if steps != [] { RunKeepsWorkers(s, steps[..|steps| - 1]); }
  }

  /** A committed offset never moves back, not even across crashes. */
  lemma {:induction false} CommitsNeverMoveBack(workers: nat, steps: seq<Step>, more: seq<Step>, p: int)
    ensures PartitionAt(Run(Init(workers), steps), p).committed
            <= PartitionAt(Run(Init(workers), steps + more), p).committed
    decreases |more|
  {
    hide Apply, PartitionOk, WorkOk, SlotsOk;
    if more == [] {
      assert steps + more == steps;
    } else {
      var all := steps + more;
      CommitsNeverMoveBack(workers, steps, more[..|more| - 1], p);
      assert all[..|all| - 1] == steps + more[..|more| - 1];
      RunKeepsInv(workers, all[..|all| - 1]);
      StepNeverMovesBack(Run(Init(workers), all[..|all| - 1]), all[|all| - 1], p);
    }
  }

  lemma StepNeverMovesBack(s: Simulator, step: Step, p: int)
    requires Inv(s)
    ensures PartitionAt(s, p).committed <= PartitionAt(Apply(s, step), p).committed
  {
    hide PartitionOk, WorkOk, SlotsOk, CompletedPartition, MayRegister, Registered;
    match step
    case Drain(job) => if job in s.jobs { CompleteMovesForward(s, job); }
    case CommitQuarantine => if s.current.Holding? { CompleteMovesForward(s, s.current.job); }
    case Produce(_, _, _) =>
    case Poll(_, _) =>
    case _ =>
  }

  lemma CompleteMovesForward(s: Simulator, job: Job)
    requires Inv(s) && Active(s, job)
    ensures PartitionAt(s, job.partition).committed
            <= CompletedPartition(PartitionAt(s, job.partition), job.offset).committed
  {
    assert Outstanding(PartitionAt(s, job.partition).history, job.offset);
    var all := Handled(s) + {job};
    PartitionMoreHandled(job.partition, PartitionAt(s, job.partition), Handled(s), all);
    CompleteKeepsPartition(job.partition, PartitionAt(s, job.partition), all, job.offset);
  }
}
