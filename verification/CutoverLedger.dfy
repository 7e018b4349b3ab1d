/**
 * The production cutover ledger and its five scripts (scripts/production-apply-guard.py,
 * production-post-apply-verify.py, production-cutover-rollback.py,
 * production-cutover-rollback-complete.py, production-cutover-complete.py). Each script
 * reads the ledger, works, and later writes its own copy back, so scripts may overlap.
 */
module CutoverLedger {
  import opened Common

  datatype Root = STATE | ALERTING | AUDIT | CERTIFICATES | DATA | COMPUTE | EDGE

  const ORDER: seq<Root> := [STATE, ALERTING, AUDIT, CERTIFICATES, DATA, COMPUTE, EDGE]

  /** An approved manifest; a digest stands for the whole document. Times are seconds, the deadline minutes. */
  datatype Manifest = Manifest(plans: map<Root, int>, triggers: set<int>, deadline: int)

  /** A post-apply verification receipt file. */
  datatype Receipt = Receipt(root: Root, plan: int, manifest: Manifest, at: int)

  /** A ledger entry; `receipt` stands for verified_at and receipt_sha256 together. */
  datatype Entry = Entry(root: Root, plan: int, manifest: Manifest, appliedAt: int, receipt: Option<Receipt>)

  /** A rollback receipt file, and the fence that carries its digest. */
  datatype RollbackReceipt = RollbackReceipt(manifest: Manifest, roots: seq<Root>, trigger: int, actor: int, at: int)

  datatype Fence = Fence(receipt: RollbackReceipt, completedAt: Option<int>)

  /** The ledger of one revision; a missing file is an empty ledger. */
  datatype Ledger = Ledger(completed: seq<Entry>, rollback: Option<Fence>)

  const NEW := Ledger([], None)

  datatype Command =
    | Apply(root: Root, plan: int, manifest: Manifest)
    | Verify(root: Root)
    | Rollback(manifest: Manifest, trigger: int, actor: int)
    | Recover(manifest: Manifest, file: RollbackReceipt)
    | Complete(manifest: Manifest, files: seq<Receipt>)

  /** A script between reading and writing: its command, the ledger it read, and when. */
  datatype Job = Job(command: Command, ledger: Ledger, at: int)

  datatype System = System(
    ledger: Ledger,
    jobs: map<int, Job>,
    completions: seq<seq<Receipt>>,  // cutover completion receipts issued
    recoveries: seq<(Fence, int)>,   // rollback completion receipts issued: the fence, and completed_at
    now: int)

  const INIT := System(NEW, map[], [], [], 0)

  datatype Step =
    | Start(job: int, command: Command)
    | End(job: int)   // the outside work succeeded: write
    | Fail(job: int)  // it failed, or the script was stopped
    | Tick(elapsed: nat)

  // ---------------------------------------------------------------- what each script demands of the ledger

  function Roots(completed: seq<Entry>): (r: seq<Root>)
    ensures |r| == |completed|
  {
    if completed == [] then [] else Roots(completed[..|completed| - 1]) + [completed[|completed| - 1].root]
  }

  predicate IsPrefix(roots: seq<Root>) { |roots| <= |ORDER| && roots == ORDER[..|roots|] }

  predicate Verified(completed: seq<Entry>, n: nat)
    requires n <= |completed|
  {
    forall i :: 0 <= i < n ==> completed[i].receipt.Some?
  }

  predicate DeadlineOk(m: Manifest) { 1 <= m.deadline <= 30 }

  predicate MayApply(l: Ledger, root: Root, plan: int, m: Manifest) {
    && DeadlineOk(m) && root in m.plans && m.plans[root] == plan
    && l.rollback.None? && |l.completed| < |ORDER| && IsPrefix(Roots(l.completed))
    && Verified(l.completed, |l.completed|) && root == ORDER[|l.completed|]
  }

  predicate MayVerify(l: Ledger, root: Root) {
    && l.rollback.None? && l.completed != [] && IsPrefix(Roots(l.completed))
    && l.completed[|l.completed| - 1].root == root
    && Verified(l.completed, |l.completed| - 1) && l.completed[|l.completed| - 1].receipt.None?
  }

  predicate MayRollBack(l: Ledger, m: Manifest, trigger: int) {
    && DeadlineOk(m) && trigger in m.triggers
    && l.completed != [] && l.rollback.None? && IsPrefix(Roots(l.completed))
    && forall i :: 0 <= i < |l.completed| ==> l.completed[i].manifest == m
  }

  predicate MayRecover(l: Ledger, m: Manifest, file: RollbackReceipt, now: int) {
    && DeadlineOk(m) && l.rollback.Some? && l.rollback.value.completedAt.None?
    && l.rollback.value.receipt == file && file.manifest == m && file.trigger in m.triggers
    && file.roots == Roots(l.completed) && file.at <= now <= file.at + 60 * m.deadline
  }

  /** The completion script's test of one ledger entry against its receipt file. */
  predicate Evidenced(e: Entry, file: Receipt, root: Root, m: Manifest, now: int) {
    && e.manifest == m && e.receipt == Some(file) && file.root == root
    && file.plan == e.plan && file.manifest == e.manifest && e.appliedAt <= file.at <= now
  }

  predicate MayComplete(l: Ledger, m: Manifest, files: seq<Receipt>, now: int) {
    && DeadlineOk(m) && l.rollback.None? && Roots(l.completed) == ORDER && |files| == |ORDER|
    && forall i :: 0 <= i < |ORDER| ==> Evidenced(l.completed[i], files[i], ORDER[i], m, now)
  }

  predicate May(l: Ledger, command: Command, now: int) {
    match command
    case Apply(root, plan, m) => MayApply(l, root, plan, m)
    case Verify(root) => MayVerify(l, root)
    case Rollback(m, trigger, _) => MayRollBack(l, m, trigger)
    case Recover(m, file) => MayRecover(l, m, file, now)
    case Complete(m, files) => MayComplete(l, m, files, now)
  }

  // ---------------------------------------------------------------- what each script writes

  /** The ledger a script writes back, from the copy it read. */
  function Written(job: Job, now: int): Ledger {
    var l := job.ledger;
    match job.command
    case Apply(root, plan, m) => l.(completed := l.completed + [Entry(root, plan, m, now, None)])
    case Verify(root) =>
      if l.completed == [] then l
      else
        var n := |l.completed| - 1;
        var e := l.completed[n];
        l.(completed := l.completed[n := e.(receipt := Some(Receipt(root, e.plan, e.manifest, job.at)))])
    case Rollback(m, trigger, actor) =>
      l.(rollback := Some(Fence(RollbackReceipt(m, Roots(l.completed), trigger, actor, job.at), None)))
    case Recover(_, _) =>
      if l.rollback.None? then l else l.(rollback := Some(l.rollback.value.(completedAt := Some(job.at))))
    case Complete(_, _) => l
  }

  function Ended(s: System, id: int, job: Job): System {
    match job.command
    case Complete(_, files) => s.(jobs := s.jobs - {id}, completions := s.completions + [files])
    case Recover(_, _) =>
      s.(jobs := s.jobs - {id}, ledger := Written(job, s.now),
         recoveries := if job.ledger.rollback.Some? then s.recoveries + [(job.ledger.rollback.value, job.at)] else s.recoveries)
    case _ => s.(jobs := s.jobs - {id}, ledger := Written(job, s.now))
  }

  function Next(s: System, step: Step): System {
    match step
    case Start(id, command) =>
      if id !in s.jobs && May(s.ledger, command, s.now) then s.(jobs := s.jobs[id := Job(command, s.ledger, s.now)]) else s
    case End(id) => if id in s.jobs then Ended(s, id, s.jobs[id]) else s
    case Fail(id) => s.(jobs := s.jobs - {id})
    case Tick(elapsed) => s.(now := s.now + elapsed)
  }

  function Run(s: System, steps: seq<Step>): System {
    if steps == [] then s else Next(Run(s, steps[..|steps| - 1]), steps[|steps| - 1])
  }

  // ---------------------------------------------------------------- the shape every ledger keeps

  /** The applied roots are a prefix of the order, and only the last may lack a receipt. */
  predicate Shaped(l: Ledger) {
    && IsPrefix(Roots(l.completed))
    && forall i :: 0 <= i < |l.completed| ==> EntryOk(l.completed[i]) && (i < |l.completed| - 1 ==> l.completed[i].receipt.Some?)
  }

  predicate EntryOk(e: Entry) {
    && DeadlineOk(e.manifest) && e.root in e.manifest.plans && e.manifest.plans[e.root] == e.plan
    && (e.receipt.Some? ==> e.receipt.value.root == e.root && e.receipt.value.plan == e.plan && e.receipt.value.manifest == e.manifest)
  }

  predicate JobOk(job: Job) { Shaped(job.ledger) && May(job.ledger, job.command, job.at) }

  ghost predicate Inv(s: System) {
    Shaped(s.ledger) && forall id :: id in s.jobs ==> JobOk(s.jobs[id]) && s.jobs[id].at <= s.now
  }

  lemma {:induction false} RootsAt(completed: seq<Entry>, i: nat)
    requires i < |completed|
    ensures Roots(completed)[i] == completed[i].root
  {
    if i < |completed| - 1 { RootsAt(completed[..|completed| - 1], i); }
  }

  lemma RootsAppend(completed: seq<Entry>, e: Entry)
    ensures Roots(completed + [e]) == Roots(completed) + [e.root]
  {
    assert (completed + [e])[..|completed|] == completed;
  }

  lemma RootsSameEntry(completed: seq<Entry>, n: nat, e: Entry)
    requires n < |completed| && e.root == completed[n].root
    ensures Roots(completed[n := e]) == Roots(completed)
  {
    var changed := completed[n := e];
    forall i | 0 <= i < |completed| ensures Roots(changed)[i] == Roots(completed)[i] {
      RootsAt(changed, i);
      RootsAt(completed, i);
    }
  }

  lemma AppendIsShaped(l: Ledger, root: Root, plan: int, m: Manifest, now: int)
    requires Shaped(l) && MayApply(l, root, plan, m)
    ensures Shaped(l.(completed := l.completed + [Entry(root, plan, m, now, None)]))
  {
    RootsAppend(l.completed, Entry(root, plan, m, now, None));
    assert ORDER[..|l.completed| + 1] == ORDER[..|l.completed|] + [root];
    hide Roots, EntryOk;
    assert EntryOk(Entry(root, plan, m, now, None)) by { NewEntryOk(root, plan, m, now); }
  }

  lemma NewEntryOk(root: Root, plan: int, m: Manifest, now: int)
    requires DeadlineOk(m) && root in m.plans && m.plans[root] == plan
    ensures EntryOk(Entry(root, plan, m, now, None))
  {
  }

  lemma VerifiedIsShaped(l: Ledger, root: Root, at: int)
    requires Shaped(l) && MayVerify(l, root)
    ensures var n := |l.completed| - 1;
            var e := l.completed[n];
            Shaped(l.(completed := l.completed[n := e.(receipt := Some(Receipt(root, e.plan, e.manifest, at)))]))
  {
    var n := |l.completed| - 1;
    var e := l.completed[n];
    RootsSameEntry(l.completed, n, e.(receipt := Some(Receipt(root, e.plan, e.manifest, at))));
    hide Roots, IsPrefix;
  }

  lemma WrittenIsShaped(job: Job, now: int)
    requires JobOk(job)
    ensures Shaped(Written(job, now))
  {
    var l := job.ledger;
    match job.command
    case Apply(root, plan, m) => hide Shaped, MayApply; AppendIsShaped(l, root, plan, m, now);
    case Verify(root) => hide Shaped; VerifiedIsShaped(l, root, job.at);
    case _ =>
  }

  lemma StepKeepsInv(s: System, step: Step)
    requires Inv(s)
    ensures Inv(Next(s, step))
  {
    hide Shaped, May;
    match step
    case End(id) => if id in s.jobs { WrittenIsShaped(s.jobs[id], s.now); }
    case _ =>
  }

  lemma {:induction false} RunKeepsInv(s: System, steps: seq<Step>)
    requires Inv(s)
    ensures Inv(Run(s, steps))
  {
    if steps != [] {
      RunKeepsInv(s, steps[..|steps| - 1]);
      StepKeepsInv(Run(s, steps[..|steps| - 1]), steps[|steps| - 1]);
    }
  }

  lemma InitIsOk()
    ensures Inv(INIT)
  {
  }

  /**
   * In every run, overlapping scripts included, the applied roots are a prefix of the fixed
   * order, all but the last are verified, and each entry is the plan its manifest approved.
   */
  lemma {:induction false} RootsFollowOrder(steps: seq<Step>, i: nat)
    requires i < |Run(INIT, steps).ledger.completed|
    ensures var completed := Run(INIT, steps).ledger.completed;
            && |completed| <= 7 && completed[i].root == ORDER[i]
            && (i < |completed| - 1 ==> completed[i].receipt.Some?)
            && completed[i].root in completed[i].manifest.plans && completed[i].plan == completed[i].manifest.plans[completed[i].root]
  {
    InitIsOk();
    RunKeepsInv(INIT, steps);
    RootsAt(Run(INIT, steps).ledger.completed, i);
    hide Run, Roots, JobOk;
    assert EntryOk(Run(INIT, steps).ledger.completed[i]);
  }

  // ---------------------------------------------------------------- when each script goes ahead

  /** What each script demands, read off the ledger entry by entry. */
  predicate Ready(l: Ledger, command: Command, now: int) {
    var n := |l.completed|;
    match command
    case Apply(root, plan, m) =>
      && 1 <= m.deadline <= 30 && root in m.plans && m.plans[root] == plan && l.rollback.None?
      && n < 7 && root == ORDER[n] && (n > 0 ==> l.completed[n - 1].receipt.Some?)
    case Verify(root) => l.rollback.None? && n > 0 && l.completed[n - 1].root == root && l.completed[n - 1].receipt.None?
    case Rollback(m, trigger, _) =>
      && 1 <= m.deadline <= 30 && trigger in m.triggers && l.rollback.None? && n > 0
      && forall i :: 0 <= i < n ==> l.completed[i].manifest == m
    case Recover(m, file) =>
      && 1 <= m.deadline <= 30 && l.rollback == Some(Fence(file, None)) && file.manifest == m && file.trigger in m.triggers
      && |file.roots| == n && (forall i :: 0 <= i < n ==> file.roots[i] == l.completed[i].root)
      && file.at <= now <= file.at + 60 * m.deadline
    case Complete(m, files) =>
      && 1 <= m.deadline <= 30 && l.rollback.None? && n == |files| == 7
      && forall i :: 0 <= i < 7 ==>
           && l.completed[i].manifest == m && l.completed[i].receipt == Some(files[i])
           && l.completed[i].appliedAt <= files[i].at <= now
  }

  /** On a ledger any run can leave, a script goes ahead exactly when it is ready. */
  lemma {:induction false} StartsExactly(s: System, id: int, command: Command)
    requires Inv(s) && id !in s.jobs
    ensures Next(s, Start(id, command))
            == if Ready(s.ledger, command, s.now) then s.(jobs := s.jobs[id := Job(command, s.ledger, s.now)]) else s
  {
    MayIsReady(s.ledger, command, s.now);
    hide May, Ready, Shaped;
  }

  lemma MayIsReady(l: Ledger, command: Command, now: int)
    requires Shaped(l)
    ensures May(l, command, now) <==> Ready(l, command, now)
  {
    forall i | 0 <= i < |l.completed| ensures Roots(l.completed)[i] == l.completed[i].root && EntryOk(l.completed[i]) { RootsAt(l.completed, i); }
    hide Roots;
    match command {
      case Complete(m, files) =>
        if |l.completed| == 7 { assert ORDER[..7] == ORDER; }
        forall i | 0 <= i < |l.completed| ensures l.completed[i].root == ORDER[i] { assert Roots(l.completed)[i] == ORDER[i]; }
      case Recover(m, file) => if |file.roots| == |l.completed| && (forall i :: 0 <= i < |l.completed| ==> file.roots[i] == l.completed[i].root) { assert file.roots == Roots(l.completed); }
      case _ =>
    }
  }

  // ---------------------------------------------------------------- completions

  /** A completion names the receipts of all seven roots, of one manifest and in order. */
  predicate Sound(files: seq<Receipt>) {
    && |files| == 7
    && forall i :: 0 <= i < 7 ==> files[i].root == ORDER[i] && files[i].manifest == files[0].manifest
                                  && ORDER[i] in files[i].manifest.plans && files[i].plan == files[i].manifest.plans[ORDER[i]]
  }

  predicate CompletionsOk(completions: seq<seq<Receipt>>) {
    forall i :: 0 <= i < |completions| ==> Sound(completions[i])
  }

  lemma CompletionIsSound(l: Ledger, m: Manifest, files: seq<Receipt>, now: int)
    requires Shaped(l) && MayComplete(l, m, files, now)
    ensures Sound(files)
  {
    forall i | 0 <= i < 7
      ensures files[i].root == ORDER[i] && files[i].manifest == m && ORDER[i] in m.plans && files[i].plan == m.plans[ORDER[i]]
    {
      RootsAt(l.completed, i);
      assert Evidenced(l.completed[i], files[i], ORDER[i], m, now) && EntryOk(l.completed[i]);
    }
  }

  lemma {:induction false} CompletionNeedsSevenVerifiedRoots(steps: seq<Step>)
    ensures CompletionsOk(Run(INIT, steps).completions)
  {
    if steps != [] {
      var before := Run(INIT, steps[..|steps| - 1]);
      CompletionNeedsSevenVerifiedRoots(steps[..|steps| - 1]);
      InitIsOk();
      RunKeepsInv(INIT, steps[..|steps| - 1]);
      var step := steps[|steps| - 1];
      if step.End? && step.job in before.jobs && before.jobs[step.job].command.Complete? {
        var job := before.jobs[step.job];
        assert JobOk(job);
        CompletionIsSound(job.ledger, job.command.manifest, job.command.files, job.at);
      }
      hide Run, Sound, JobOk, Shaped, May, Written;
    }
  }

  /** The ledger as it stood after the first n steps. */
  function LedgerAt(steps: seq<Step>, n: nat): Ledger
    requires n <= |steps|
  {
    Run(INIT, steps[..n]).ledger
  }

  /** Each script in flight holds the ledger as it stood at some earlier point of the run. */
  ghost predicate ReadEarlier(steps: seq<Step>, job: Job) {
    exists n: nat :: n <= |steps| && LedgerAt(steps, n) == job.ledger && Run(INIT, steps[..n]).now == job.at
  }

  lemma ReadEarlierStays(steps: seq<Step>, step: Step, job: Job)
    requires ReadEarlier(steps, job)
    ensures ReadEarlier(steps + [step], job)
  {
    hide Run;
    var n: nat :| n <= |steps| && LedgerAt(steps, n) == job.ledger && Run(INIT, steps[..n]).now == job.at;
    assert (steps + [step])[..n] == steps[..n];
    assert LedgerAt(steps + [step], n) == job.ledger;
  }

  lemma {:induction false} JobsReadEarlier(steps: seq<Step>, id: int)
    requires id in Run(INIT, steps).jobs
    ensures ReadEarlier(steps, Run(INIT, steps).jobs[id])
  {
    var front, step := steps[..|steps| - 1], steps[|steps| - 1];
    var before := Run(INIT, front);
    assert front + [step] == steps;
    if id in before.jobs && before.jobs[id] == Run(INIT, steps).jobs[id] {
      JobsReadEarlier(front, id);
      ReadEarlierStays(front, step, before.jobs[id]);
    } else {
      var job := Run(INIT, steps).jobs[id];
      assert job.ledger == before.ledger && job.at == before.now by { hide May, Written; }
      assert steps[..|front|] == front;
      hide Run;
      assert LedgerAt(steps, |front|) == job.ledger;
    }
  }

  /** The ledger carries just these receipts, one per root, each taken after its root was applied, and no fence. */
  predicate Records(l: Ledger, files: seq<Receipt>) {
    && l.rollback.None? && |l.completed| == |files| == 7
    && forall i :: 0 <= i < 7 ==>
         && l.completed[i].root == ORDER[i] && l.completed[i].receipt == Some(files[i])
         && l.completed[i].manifest == files[i].manifest && l.completed[i].plan == files[i].plan
         && l.completed[i].appliedAt <= files[i].at
  }

  /** In every run, each completion names receipts that the unfenced ledger carried, root by root, at some point of it. */
  lemma {:induction false} CompletionNamesRecordedReceipts(steps: seq<Step>, i: nat) returns (n: nat)
    requires i < |Run(INIT, steps).completions|
    ensures n <= |steps| && Records(LedgerAt(steps, n), Run(INIT, steps).completions[i])
  {
    var front, step := steps[..|steps| - 1], steps[|steps| - 1];
    var before := Run(INIT, front);
    if i < |before.completions| {
      assert Run(INIT, steps).completions[i] == before.completions[i] by { hide May, Written; }
      n := CompletionNamesRecordedReceipts(front, i);
      assert steps[..n] == front[..n];
    } else {
      var job := before.jobs[step.job];
      assert Run(INIT, steps).completions[i] == job.command.files;
      InitIsOk();
      RunKeepsInv(INIT, front);
      assert JobOk(job);
      CompletedIsRecorded(job.ledger, job.command.manifest, job.command.files, job.at);
      JobsReadEarlier(front, step.job);
      n :| n <= |front| && LedgerAt(front, n) == job.ledger && Run(INIT, front[..n]).now == job.at;
      assert steps[..n] == front[..n];
    }
    hide Run;
  }

  lemma CompletedIsRecorded(l: Ledger, m: Manifest, files: seq<Receipt>, now: int)
    requires MayComplete(l, m, files, now)
    ensures Records(l, files)
  {
    forall i | 0 <= i < 7 ensures l.completed[i].root == ORDER[i] { RootsAt(l.completed, i); }
    hide Roots;
  }

  // ---------------------------------------------------------------- what a fence says

  /** The fence names an approved trigger of the one manifest all applied roots were approved under, and those roots. */
  predicate FenceOk(l: Ledger) {
    l.rollback.Some? ==>
      var receipt := l.rollback.value.receipt;
      && l.completed != [] && receipt.trigger in receipt.manifest.triggers
      && |receipt.roots| == |l.completed|
      && forall i :: 0 <= i < |l.completed| ==> l.completed[i].manifest == receipt.manifest && receipt.roots[i] == l.completed[i].root
  }

  lemma RollbackIsApproved(job: Job, now: int)
    requires May(job.ledger, job.command, job.at) && FenceOk(job.ledger)
    ensures FenceOk(Written(job, now))
  {
    if job.command.Rollback? {
      var completed := job.ledger.completed;
      forall i | 0 <= i < |completed| ensures Roots(completed)[i] == completed[i].root { RootsAt(completed, i); }
    }
    hide Roots, IsPrefix, Verified, DeadlineOk, MayComplete;
  }

  /** In every run, a rollback fence was raised on an approved trigger over roots of its one manifest, and lists them. */
  lemma {:induction false} FenceIsApproved(steps: seq<Step>)
    ensures FenceOk(Run(INIT, steps).ledger)
    ensures forall id :: id in Run(INIT, steps).jobs ==> FenceOk(Run(INIT, steps).jobs[id].ledger)
  {
    if steps != [] {
      var before, step := Run(INIT, steps[..|steps| - 1]), steps[|steps| - 1];
      FenceIsApproved(steps[..|steps| - 1]);
      InitIsOk();
      RunKeepsInv(INIT, steps[..|steps| - 1]);
      if step.End? && step.job in before.jobs {
        assert JobOk(before.jobs[step.job]);
        RollbackIsApproved(before.jobs[step.job], before.now);
      }
      hide Run, FenceOk, Shaped, May, Written;
    }
  }

  // ---------------------------------------------------------------- rollback completions in time

  /** Declared by a manifest with a deadline of 1 to 30 minutes, and recovered within it. */
  predicate InTime(fence: Fence, at: int) {
    DeadlineOk(fence.receipt.manifest) && fence.receipt.at <= at <= fence.receipt.at + 60 * fence.receipt.manifest.deadline
  }

  predicate RecoveriesInTime(recoveries: seq<(Fence, int)>) {
    forall i :: 0 <= i < |recoveries| ==> InTime(recoveries[i].0, recoveries[i].1)
  }

  /** In every run, overlapping scripts included, every rollback completion falls within its manifest's deadline. */
  lemma {:induction false} RecoveryMeetsDeadline(steps: seq<Step>)
    ensures RecoveriesInTime(Run(INIT, steps).recoveries)
  {
    if steps != [] {
      var before, step := Run(INIT, steps[..|steps| - 1]), steps[|steps| - 1];
      RecoveryMeetsDeadline(steps[..|steps| - 1]);
      InitIsOk();
      RunKeepsInv(INIT, steps[..|steps| - 1]);
      if step.End? && step.job in before.jobs { assert JobOk(before.jobs[step.job]); }
      hide Run, Shaped, Roots, DeadlineOk, Written;
    }
  }

  // ---------------------------------------------------------------- the fence

  /** The same declared rollback; once completed, the fence does not change at all. */
  predicate FenceKept(f: Fence, g: Fence) {
    g.receipt == f.receipt && (f.completedAt.Some? ==> g == f)
  }

  /** The declared fence stands over the roots it was raised over, and no completion was issued since. */
  predicate Fenced(s: System, later: System) {
    && s.ledger.rollback.Some? && later.ledger.rollback.Some?
    && FenceKept(s.ledger.rollback.value, later.ledger.rollback.value)
    && later.ledger.completed == s.ledger.completed && later.completions == s.completions
  }

  /**
   * A script still running that would undo the fence: one of the forward scripts, one that read
   * other roots, another declaration, or a recovery of another declaration or at another time
   * than the one recorded.
   */
  predicate Harmful(s: System, job: Job)
    requires s.ledger.rollback.Some?
  {
    var fence := s.ledger.rollback.value;
    match job.command
    case Rollback(m, trigger, actor) =>
      || job.ledger.completed != s.ledger.completed || fence.completedAt.Some?
      || RollbackReceipt(m, Roots(job.ledger.completed), trigger, actor, job.at) != fence.receipt
    case Recover(_, file) =>
      || job.ledger.completed != s.ledger.completed || file != fence.receipt
      || (fence.completedAt.Some? && fence.completedAt.value != job.at)
    case _ => true
  }

  /** None of the scripts in flight in `later` would undo the fence of s. */
  ghost predicate NoneHarmful(s: System, later: System)
    requires s.ledger.rollback.Some?
  {
    forall id :: id in later.jobs ==> !Harmful(s, later.jobs[id])
  }

  lemma FencedStep(s: System, t: System, step: Step)
    requires Inv(t) && Fenced(s, t) && NoneHarmful(s, t)
    ensures Fenced(s, Next(t, step)) && NoneHarmful(s, Next(t, step))
  {
    hide Shaped, Roots, Verified, DeadlineOk;
    if step.End? && step.job in t.jobs {
      assert JobOk(t.jobs[step.job]) && !Harmful(s, t.jobs[step.job]);
    }
  }

  lemma {:induction false} FencedRun(s: System, steps: seq<Step>)
    requires Inv(s) && s.ledger.rollback.Some? && NoneHarmful(s, s)
    ensures Fenced(s, Run(s, steps)) && NoneHarmful(s, Run(s, steps))
  {
    if steps != [] {
      FencedRun(s, steps[..|steps| - 1]);
      RunKeepsInv(s, steps[..|steps| - 1]);
      FencedStep(s, Run(s, steps[..|steps| - 1]), steps[|steps| - 1]);
    }
  }

  lemma RunOne(s: System, step: Step)
    ensures Run(s, [step]) == Next(s, step)
  {
    assert [step][..0] == [];
    hide Next;
  }

  lemma HarmfulBreaksFence(s: System, id: int)
    requires Inv(s) && s.ledger.rollback.Some? && id in s.jobs && Harmful(s, s.jobs[id])
    ensures !Fenced(s, Run(s, [End(id)]))
  {
    RunOne(s, End(id));
    assert JobOk(s.jobs[id]);
    hide Run, Shaped, Roots, Verified;
    assert s.completions + [[]] != s.completions;
  }

  /**
   * The declared fence holds for good - in every continuation it stands unchanged but for its
   * first completion, the applied roots are frozen and no completion is issued - exactly when
   * none of the scripts in flight as it stands would undo it.
   */
  lemma {:induction false} FenceHoldsIffNoneHarmful(s: System)
    requires Inv(s) && s.ledger.rollback.Some?
    ensures (forall steps :: Fenced(s, Run(s, steps))) <==> NoneHarmful(s, s)
  {
    if NoneHarmful(s, s) {
      forall steps ensures Fenced(s, Run(s, steps)) { FencedRun(s, steps); }
    } else {
      var id :| id in s.jobs && Harmful(s, s.jobs[id]);
      HarmfulBreaksFence(s, id);
    }
  }

  // ---------------------------------------------------------------- completing a rollback again

  /** Roots a rollback can be declared over: some applied, all under one manifest that has a trigger. */
  predicate CanRollBack(completed: seq<Entry>) {
    && completed != [] && (exists t :: t in completed[0].manifest.triggers)
    && forall i :: 0 <= i < |completed| ==> completed[i].manifest == completed[0].manifest
  }

  /**
   * A script in flight that can still bring about another rollback completion: a recovery; a
   * declaration whose deadline has not passed; a forward script whose ledger can be rolled back.
   */
  predicate Reopens(job: Job, now: int) {
    match job.command
    case Recover(_, _) => true
    case Rollback(m, _, _) => now <= job.at + 60 * m.deadline
    case Apply(_, _, _) => CanRollBack(Written(job, now).completed)
    case Verify(_) => CanRollBack(job.ledger.completed)
    case Complete(_, _) => false
  }

  ghost predicate NoneReopens(s: System) {
    forall id :: id in s.jobs ==> !Reopens(s.jobs[id], s.now)
  }

  /** A ledger from which no rollback can be completed any more. */
  predicate Spent(l: Ledger, now: int) {
    if l.rollback.None? then l.completed != [] && !CanRollBack(l.completed)
    else l.rollback.value.completedAt.Some? || now > l.rollback.value.receipt.at + 60 * l.rollback.value.receipt.manifest.deadline
  }

  lemma SpentStays(completed: seq<Entry>, e: Entry)
    requires completed != [] && !CanRollBack(completed)
    ensures !CanRollBack(completed + [e])
  {
    var more := completed + [e];
    if exists t :: t in more[0].manifest.triggers {
      var i :| 0 <= i < |completed| && completed[i].manifest != completed[0].manifest;
      assert more[i].manifest != more[0].manifest;
    }
  }

  /** Attaching a receipt changes no manifest. */
  lemma VerifyKeepsManifests(completed: seq<Entry>, n: nat, r: Option<Receipt>)
    requires n < |completed|
    ensures CanRollBack(completed[n := completed[n].(receipt := r)]) == CanRollBack(completed)
  {
    var changed := completed[n := completed[n].(receipt := r)];
    assert forall i :: 0 <= i < |completed| ==> changed[i].manifest == completed[i].manifest;
  }

  /** The clause of Reopens for an apply does not depend on when it writes. */
  lemma ApplyTimeIsIrrelevant(job: Job, now: int, later: int)
    requires job.command.Apply?
    ensures CanRollBack(Written(job, now).completed) == CanRollBack(Written(job, later).completed)
  {
    var a, b := Written(job, now).completed, Written(job, later).completed;
    assert forall i :: 0 <= i < |a| ==> a[i].manifest == b[i].manifest;
  }

  lemma StartIsSpent(l: Ledger, command: Command, now: int)
    requires Spent(l, now) && May(l, command, now)
    ensures !Reopens(Job(command, l, now), now)
  {
    hide Roots, IsPrefix, Verified, Evidenced;
    match command
    case Apply(root, plan, m) => SpentStays(l.completed, Entry(root, plan, m, now, None));
    case _ =>
  }

  lemma EndIsSpent(job: Job, now: int)
    requires JobOk(job) && !Reopens(job, now) && !job.command.Complete?
    ensures Spent(Written(job, now), now)
  {
    hide Shaped, Roots, IsPrefix;
    if job.command.Verify? {
      var n := |job.ledger.completed| - 1;
      VerifyKeepsManifests(job.ledger.completed, n, Written(job, now).completed[n].receipt);
    }
  }

  lemma SpentEnd(s: System, id: int)
    requires Inv(s) && Spent(s.ledger, s.now) && NoneReopens(s) && id in s.jobs
    ensures Spent(Next(s, End(id)).ledger, s.now) && NoneReopens(Next(s, End(id)))
    ensures Next(s, End(id)).recoveries == s.recoveries && Next(s, End(id)).now == s.now
  {
    var job := s.jobs[id];
    assert JobOk(job) && !Reopens(job, s.now) && !job.command.Recover?;
    hide JobOk, Reopens, Spent, Written, Inv;
    if !job.command.Complete? { EndIsSpent(job, s.now); }
  }

  lemma SpentTick(s: System, elapsed: nat)
    requires Spent(s.ledger, s.now) && NoneReopens(s)
    ensures Spent(s.ledger, s.now + elapsed)
    ensures forall id :: id in s.jobs ==> !Reopens(s.jobs[id], s.now + elapsed)
  {
    hide CanRollBack, Written;
    forall id | id in s.jobs ensures !Reopens(s.jobs[id], s.now + elapsed) {
      if s.jobs[id].command.Apply? { ApplyTimeIsIrrelevant(s.jobs[id], s.now, s.now + elapsed); }
    }
  }

  lemma SpentStep(s: System, step: Step)
    requires Inv(s) && Spent(s.ledger, s.now) && NoneReopens(s)
    ensures Spent(Next(s, step).ledger, Next(s, step).now) && NoneReopens(Next(s, step))
    ensures Next(s, step).recoveries == s.recoveries
  {
    hide Inv, May, Reopens, Spent, Ended;
    match step {
      case Start(id, command) => if May(s.ledger, command, s.now) { StartIsSpent(s.ledger, command, s.now); }
      case End(id) => if id in s.jobs { SpentEnd(s, id); }
      case Fail(id) =>
      case Tick(elapsed) => SpentTick(s, elapsed);
    }
  }

  lemma {:induction false} SpentRun(s: System, steps: seq<Step>)
    requires Inv(s) && Spent(s.ledger, s.now) && NoneReopens(s)
    ensures var later := Run(s, steps);
            Spent(later.ledger, later.now) && NoneReopens(later) && later.recoveries == s.recoveries
  {
    if steps != [] {
      SpentRun(s, steps[..|steps| - 1]);
      RunKeepsInv(s, steps[..|steps| - 1]);
      hide Spent, NoneReopens, Inv, Next;
      SpentStep(Run(s, steps[..|steps| - 1]), steps[|steps| - 1]);
    }
  }

  /** Some continuation issues rollback completions beyond the first n. */
  ghost predicate CanExceed(s: System, n: nat) {
    exists steps :: |Run(s, steps).recoveries| > n
  }

  lemma {:induction false} RunCons(s: System, step: Step, steps: seq<Step>)
    ensures Run(s, [step] + steps) == Run(Next(s, step), steps)
  {
    var all := [step] + steps;
    if steps == [] {
      assert all == [step];
      RunOne(s, step);
    } else {
      assert all[..|all| - 1] == [step] + steps[..|steps| - 1];
      RunCons(s, step, steps[..|steps| - 1]);
    }
  }

  lemma ExceedsAfter(s: System, step: Step, n: nat)
    requires CanExceed(Next(s, step), n)
    ensures CanExceed(s, n)
  {
    var steps :| |Run(Next(s, step), steps).recoveries| > n;
    RunCons(s, step, steps);
    assert |Run(s, [step] + steps).recoveries| > n;
  }

  lemma ExceedsNow(s: System, n: nat)
    requires |s.recoveries| > n
    ensures CanExceed(s, n)
  {
    assert Run(s, []) == s;
  }

  /** A recovery in flight completes the rollback it read. */
  lemma RecoverExceeds(s: System, id: int)
    requires id in s.jobs && s.jobs[id].command.Recover? && s.jobs[id].ledger.rollback.Some?
    ensures CanExceed(s, |s.recoveries|)
  {
    ExceedsNow(Next(s, End(id)), |s.recoveries|);
    hide CanExceed;
    ExceedsAfter(s, End(id), |s.recoveries|);
  }

  /** A fence that is fresh enough can be completed. */
  lemma FreshFenceExceeds(s: System, id: int)
    requires id !in s.jobs && s.ledger.rollback.Some?
    requires var f := s.ledger.rollback.value;
             May(s.ledger, Recover(f.receipt.manifest, f.receipt), s.now)
    ensures CanExceed(s, |s.recoveries|)
  {
    var f := s.ledger.rollback.value;
    var start := Start(id, Recover(f.receipt.manifest, f.receipt));
    hide May, CanExceed;
    RecoverExceeds(Next(s, start), id);
    ExceedsAfter(s, start, |s.recoveries|);
  }

  /** A declaration in flight within its deadline leads to another completion. */
  lemma RollbackExceeds(s: System, id: int)
    requires id in s.jobs && JobOk(s.jobs[id]) && s.jobs[id].at <= s.now
    requires s.jobs[id].command.Rollback? && Reopens(s.jobs[id], s.now)
    ensures CanExceed(s, |s.recoveries|)
  {
    hide CanExceed, Roots, Shaped, IsPrefix, DeadlineOk;
    FreshFenceExceeds(Next(s, End(id)), id);
    ExceedsAfter(s, End(id), |s.recoveries|);
  }

  /** So does an unfenced ledger that can be rolled back. */
  lemma OpenLedgerExceeds(s: System, id: int)
    requires id !in s.jobs && Shaped(s.ledger) && s.ledger.rollback.None? && CanRollBack(s.ledger.completed)
    ensures CanExceed(s, |s.recoveries|)
  {
    var m := s.ledger.completed[0].manifest;
    var trigger :| trigger in m.triggers;
    assert EntryOk(s.ledger.completed[0]);
    var start := Start(id, Rollback(m, trigger, 0));
    assert MayRollBack(s.ledger, m, trigger);
    hide CanExceed, Roots, IsPrefix, DeadlineOk, MayRollBack, Shaped, CanRollBack;
    OpenDeclaration(s, id, m, trigger);
    ExceedsAfter(s, start, |s.recoveries|);
  }

  lemma OpenDeclaration(s: System, id: int, m: Manifest, trigger: int)
    requires id !in s.jobs && Shaped(s.ledger) && MayRollBack(s.ledger, m, trigger)
    ensures CanExceed(Next(s, Start(id, Rollback(m, trigger, 0))), |s.recoveries|)
  {
    hide CanExceed, Roots, IsPrefix, Shaped;
    RollbackExceeds(Next(s, Start(id, Rollback(m, trigger, 0))), id);
  }

  lemma ForwardExceeds(s: System, id: int)
    requires id in s.jobs && JobOk(s.jobs[id]) && (s.jobs[id].command.Apply? || s.jobs[id].command.Verify?)
    requires Reopens(s.jobs[id], s.now)
    ensures CanExceed(s, |s.recoveries|)
  {
    var job, after := s.jobs[id], Next(s, End(id));
    WrittenIsShaped(job, s.now);
    if job.command.Verify? {
      var n := |job.ledger.completed| - 1;
      VerifyKeepsManifests(job.ledger.completed, n, Written(job, s.now).completed[n].receipt);
    }
    hide CanExceed, Shaped, Roots, IsPrefix, CanRollBack;
    OpenLedgerExceeds(after, id);
    ExceedsAfter(s, End(id), |s.recoveries|);
  }

  lemma ReopensExceeds(s: System, id: int)
    requires Inv(s) && id in s.jobs && Reopens(s.jobs[id], s.now)
    ensures CanExceed(s, |s.recoveries|)
  {
    assert JobOk(s.jobs[id]);
    hide CanExceed, Shaped, CanRollBack, MayApply, MayVerify, MayRollBack, MayComplete, Written;
    if s.jobs[id].command.Recover? {
      RecoverExceeds(s, id);
    } else if s.jobs[id].command.Rollback? {
      RollbackExceeds(s, id);
    } else {
      ForwardExceeds(s, id);
    }
  }

  /** Every continuation leaves the rollback completions as they are. */
  ghost predicate NeverAgain(s: System) {
    forall steps :: Run(s, steps).recoveries == s.recoveries
  }

  lemma SpentIsFinal(s: System)
    requires Inv(s) && Spent(s.ledger, s.now) && NoneReopens(s)
    ensures NeverAgain(s)
  {
    forall steps ensures Run(s, steps).recoveries == s.recoveries {
      hide *;
      SpentRun(s, steps);
    }
  }

  lemma ExceedingIsAgain(s: System)
    requires CanExceed(s, |s.recoveries|)
    ensures !NeverAgain(s)
  {
    var steps :| |Run(s, steps).recoveries| > |s.recoveries|;
    assert Run(s, steps).recoveries != s.recoveries;
    hide Run;
  }

  /**
   * A completed rollback is never completed again - in any continuation - exactly when no script
   * in flight can reopen it: no recovery, no declaration within its deadline, and no apply or
   * verification whose ledger can still be rolled back.
   */
  lemma {:induction false} RecoveryIsFinalIffNoneReopens(s: System)
    requires Inv(s) && s.ledger.rollback.Some? && s.ledger.rollback.value.completedAt.Some?
    ensures NeverAgain(s) <==> NoneReopens(s)
  {
    hide Inv, Reopens, Run, CanExceed, NeverAgain;
    if NoneReopens(s) {
      SpentIsFinal(s);
    } else {
      var id :| id in s.jobs && Reopens(s.jobs[id], s.now);
      ReopensExceeds(s, id);
      ExceedingIsAgain(s);
    }
  }

  // ---------------------------------------------------------------- a run that loses the fence

  function SampleManifest(): Manifest { Manifest(map[STATE := 1, ALERTING := 2], {7}, 15) }

  /** A run that loses the fence: a rollback is declared while an apply is waiting for Terraform. */
  function LostFence(): seq<Step> {
    [Start(1, Apply(STATE, 1, SampleManifest())), End(1), Start(2, Verify(STATE)), End(2),
     Start(3, Apply(ALERTING, 2, SampleManifest())), Start(4, Rollback(SampleManifest(), 7, 9)), End(4), End(3)]
  }

  function StateApplied(): Entry { Entry(STATE, 1, SampleManifest(), 0, None) }

  function StateVerified(): Entry { StateApplied().(receipt := Some(Receipt(STATE, 1, SampleManifest(), 0))) }

  lemma FirstRootApplied()
    ensures var s := Run(INIT, LostFence()[..2]); s.ledger == Ledger([StateApplied()], None) && s.jobs == map[] && s.now == 0
  {
    var steps := LostFence();
    RunUnfolds(INIT, steps, 0);
    assert Run(INIT, steps[..1]).jobs == map[1 := Job(Apply(STATE, 1, SampleManifest()), NEW, 0)];
    RunUnfolds(INIT, steps, 1);
    hide Run;
  }

  /** The first root is applied and verified. */
  lemma FirstRootDone()
    ensures var s := Run(INIT, LostFence()[..4]); s.ledger == Ledger([StateVerified()], None) && s.jobs == map[] && s.now == 0
  {
    FirstRootApplied();
    assert Roots([StateApplied()]) == [STATE] && ORDER[..1] == [STATE];
    RunUnfolds(INIT, LostFence(), 2);
    RunUnfolds(INIT, LostFence(), 3);
    hide Run, Roots;
  }

  lemma SecondRootAndRollbackAllowed()
    ensures MayApply(Ledger([StateVerified()], None), ALERTING, 2, SampleManifest())
    ensures MayRollBack(Ledger([StateVerified()], None), SampleManifest(), 7)
  {
    assert Roots([StateVerified()]) == [STATE] && ORDER[..1] == [STATE];
  }

  lemma BothStart()
    ensures var s, l := Run(INIT, LostFence()[..6]), Ledger([StateVerified()], None);
            && 3 in s.jobs && s.jobs[3] == Job(Apply(ALERTING, 2, SampleManifest()), l, 0)
            && 4 in s.jobs && s.jobs[4] == Job(Rollback(SampleManifest(), 7, 9), l, 0)
  {
    FirstRootDone();
    SecondRootAndRollbackAllowed();
    RunUnfolds(INIT, LostFence(), 4);
    RunUnfolds(INIT, LostFence(), 5);
    hide Run, MayApply, MayRollBack, Roots, StateVerified, SampleManifest;
  }

  lemma {:induction false} OverlapLosesFence()
    ensures Run(INIT, LostFence()[..7]).ledger.rollback.Some?
    ensures Run(INIT, LostFence()).ledger.rollback.None? && |Run(INIT, LostFence()).ledger.completed| == 2
  {
    BothStart();
    RunUnfolds(INIT, LostFence(), 6);
    RunUnfolds(INIT, LostFence(), 7);
    assert LostFence()[..8] == LostFence();
    hide Run, Roots, StateVerified, SampleManifest;
  }

  /** A run that completes a rollback twice: two operators declare it at the same time. */
  function TwoRecoveries(): seq<Step> {
    var m := SampleManifest();
    [Start(1, Apply(STATE, 1, m)), End(1), Start(2, Rollback(m, 7, 8)), Start(3, Rollback(m, 7, 9)), End(2),
     Start(4, Recover(m, Declared(8))), End(4), End(3), Start(5, Recover(m, Declared(9))), End(5)]
  }

  function Declared(actor: int): RollbackReceipt { RollbackReceipt(SampleManifest(), [STATE], 7, actor, 0) }

  lemma BothDeclare()
    ensures var s, l := Run(INIT, TwoRecoveries()[..4]), Ledger([StateApplied()], None);
            && s.ledger == l && s.now == 0 && s.recoveries == []
            && s.jobs == map[2 := Job(Rollback(SampleManifest(), 7, 8), l, 0), 3 := Job(Rollback(SampleManifest(), 7, 9), l, 0)]
  {
    var steps, m := TwoRecoveries(), SampleManifest();
    assert steps[2] == Start(2, Rollback(m, 7, 8)) && steps[3] == Start(3, Rollback(m, 7, 9));
    assert steps[..2] == LostFence()[..2];
    assert MayRollBack(Ledger([StateApplied()], None), m, 7) by { assert Roots([StateApplied()]) == [STATE] && ORDER[..1] == [STATE]; }
    hide *;
    FirstRootApplied();
    FirstRootUnrecovered();
    RunUnfolds(INIT, steps, 2);
    RunUnfolds(INIT, steps, 3);
    TwoDeclarationsStart(Run(INIT, steps[..2]), m, 7);
  }

  lemma TwoDeclarationsStart(s: System, m: Manifest, trigger: int)
    requires s.jobs == map[] && MayRollBack(s.ledger, m, trigger)
    ensures Next(Next(s, Start(2, Rollback(m, trigger, 8))), Start(3, Rollback(m, trigger, 9)))
            == s.(jobs := map[2 := Job(Rollback(m, trigger, 8), s.ledger, s.now), 3 := Job(Rollback(m, trigger, 9), s.ledger, s.now)])
  {
    hide MayRollBack, Ended;
  }

  lemma FirstRootUnrecovered()
    ensures Run(INIT, LostFence()[..2]).recoveries == []
  {
    RunUnfolds(INIT, LostFence(), 0);
    RunUnfolds(INIT, LostFence(), 1);
    hide Run;
  }

  /** Ending a declaration made over the first root, and recovering from it. */
  lemma DeclareAndRecover(s: System, id: int, other: int, actor: int)
    requires id in s.jobs && s.jobs[id] == Job(Rollback(SampleManifest(), 7, actor), Ledger([StateApplied()], None), 0)
    requires s.now == 0 && other !in s.jobs
    ensures var after := Next(Next(Next(s, End(id)), Start(other, Recover(SampleManifest(), Declared(actor)))), End(other));
            && |after.recoveries| == |s.recoveries| + 1 && after.now == 0
            && after.jobs == s.jobs - {id}
  {
    assert Roots([StateApplied()]) == [STATE];
    hide Roots, StateApplied;
    var fenced := Next(s, End(id));
    assert fenced.ledger == Ledger([StateApplied()], Some(Fence(Declared(actor), None)));
    var started := Next(fenced, Start(other, Recover(SampleManifest(), Declared(actor))));
    assert started.jobs == fenced.jobs[other := Job(Recover(SampleManifest(), Declared(actor)), fenced.ledger, 0)];
  }

  lemma {:induction false} OverlapRecoversTwice()
    ensures |Run(INIT, TwoRecoveries()[..7]).recoveries| == 1
    ensures |Run(INIT, TwoRecoveries()).recoveries| == 2
  {
    var steps := TwoRecoveries();
    BothDeclare();
    hide Run, Next;
    RunUnfolds(INIT, steps, 4);
    RunUnfolds(INIT, steps, 5);
    RunUnfolds(INIT, steps, 6);
    RunUnfolds(INIT, steps, 7);
    RunUnfolds(INIT, steps, 8);
    RunUnfolds(INIT, steps, 9);
    assert steps[..10] == steps;
    hide StateApplied, SampleManifest, Declared;
    DeclareAndRecover(Run(INIT, steps[..4]), 2, 4, 8);
    DeclareAndRecover(Run(INIT, steps[..7]), 3, 5, 9);
  }

  lemma RunUnfolds(s: System, steps: seq<Step>, n: nat)
    requires n < |steps|
    ensures Run(s, steps[..n + 1]) == Next(Run(s, steps[..n]), steps[n])
    ensures n == 0 ==> Run(s, steps[..n]) == s
  {
    assert steps[..n + 1][..n] == steps[..n];
  }

  // ---------------------------------------------------------------- one script at a time

  /** A script run to its end with no other in flight; `ok` is the outcome of its outside work. */
  datatype Solo = Solo(command: Command, ok: bool, before: nat, during: nat)

  function Alone(s: System, x: Solo): System {
    var started := Next(Next(s, Tick(x.before)), Start(0, x.command));
    Next(Next(started, Tick(x.during)), if x.ok then End(0) else Fail(0))
  }

  function Serial(s: System, scripts: seq<Solo>): System {
    if scripts == [] then s else Alone(Serial(s, scripts[..|scripts| - 1]), scripts[|scripts| - 1])
  }

  predicate Idle(s: System) { s.jobs == map[] }

  lemma AloneKeeps(s: System, x: Solo)
    requires Inv(s) && Idle(s)
    ensures Inv(Alone(s, x)) && Idle(Alone(s, x))
  {
    var ticked := Next(s, Tick(x.before));
    StepKeepsInv(s, Tick(x.before));
    StepKeepsInv(ticked, Start(0, x.command));
    var started := Next(ticked, Start(0, x.command));
    StepKeepsInv(started, Tick(x.during));
    var waited := Next(started, Tick(x.during));
    StepKeepsInv(waited, if x.ok then End(0) else Fail(0));
    hide Inv, May, Written;
    assert waited.jobs.Keys <= {0};
    assert Idle(Alone(s, x));
  }

  lemma {:induction false} SerialKeeps(s: System, scripts: seq<Solo>)
    requires Inv(s) && Idle(s)
    ensures Inv(Serial(s, scripts)) && Idle(Serial(s, scripts))
  {
    if scripts != [] {
      SerialKeeps(s, scripts[..|scripts| - 1]);
      AloneKeeps(Serial(s, scripts[..|scripts| - 1]), scripts[|scripts| - 1]);
    }
  }

  /** What the recoveries say about the ledger: at most one, and it is the one its fence records. */
  predicate RecoveredOk(s: System) {
    && |s.recoveries| == (if s.ledger.rollback.Some? && s.ledger.rollback.value.completedAt.Some? then 1 else 0)
    && (s.recoveries != [] ==>
          && s.recoveries[0].0.receipt == s.ledger.rollback.value.receipt
          && s.ledger.rollback.value.completedAt == Some(s.recoveries[0].1))
  }

  lemma AloneFenced(s: System, x: Solo)
    requires Inv(s) && Idle(s) && RecoveredOk(s)
    ensures RecoveredOk(Alone(s, x))
    ensures s.ledger.rollback.Some? ==> Fenced(s, Alone(s, x))
  {
    hide Shaped, Roots, Verified, IsPrefix, DeadlineOk, Evidenced;
    var started := Next(Next(s, Tick(x.before)), Start(0, x.command));
    assert started.ledger == s.ledger && started.recoveries == s.recoveries && started.completions == s.completions;
    assert started.jobs == map[] || started.jobs == map[0 := Job(x.command, s.ledger, s.now + x.before)];
    assert 0 in started.jobs ==> May(s.ledger, x.command, s.now + x.before);
  }

  /** One script at a time, a rollback completes at most once, and the fence records when. */
  lemma {:induction false} SerialRecovery(scripts: seq<Solo>)
    ensures RecoveredOk(Serial(INIT, scripts))
  {
    if scripts != [] {
      SerialRecovery(scripts[..|scripts| - 1]);
      InitIsOk();
      SerialKeeps(INIT, scripts[..|scripts| - 1]);
      hide RecoveredOk, Alone;
      AloneFenced(Serial(INIT, scripts[..|scripts| - 1]), scripts[|scripts| - 1]);
    }
  }

  /**
   * One script at a time: once a rollback is declared, every later script leaves its declaration,
   * the applied roots and the completions as they are, and a completed fence entirely.
   */
  lemma {:induction false} SerialFence(scripts: seq<Solo>, more: seq<Solo>)
    ensures Serial(INIT, scripts).ledger.rollback.Some? ==> Fenced(Serial(INIT, scripts), Serial(INIT, scripts + more))
  {
    hide RecoveredOk, Alone;
    if more == [] {
      assert scripts + more == scripts;
    } else {
      var front, x := more[..|more| - 1], more[|more| - 1];
      SerialFence(scripts, front);
      assert (scripts + more)[..|scripts + more| - 1] == scripts + front;
      InitIsOk();
      SerialKeeps(INIT, scripts + front);
      SerialRecovery(scripts + front);
      AloneFenced(Serial(INIT, scripts + front), x);
    }
  }

  // ---------------------------------------------------------------- a cutover that succeeds

  /** The entry of root i, applied and verified under m at time 0. */
  function DoneEntry(m: Manifest, i: nat): Entry
    requires i < 7 && ORDER[i] in m.plans
  {
    Entry(ORDER[i], m.plans[ORDER[i]], m, 0, Some(Receipt(ORDER[i], m.plans[ORDER[i]], m, 0)))
  }

  /** A manifest with an admitted deadline and a plan for each root. */
  predicate Whole(m: Manifest) { DeadlineOk(m) && forall i :: 0 <= i < 7 ==> ORDER[i] in m.plans }

  function DoneEntries(m: Manifest, n: nat): (entries: seq<Entry>)
    requires Whole(m) && n <= 7
    ensures |entries| == n && forall i :: 0 <= i < n ==> entries[i] == DoneEntry(m, i)
  {
    seq(n, i requires 0 <= i < n => DoneEntry(m, i))
  }

  /** Apply and verify the first n roots, one script after the other. */
  function Cutover(m: Manifest, n: nat): seq<Solo>
    requires Whole(m) && n <= 7
  {
    if n == 0 then []
    else Cutover(m, n - 1) + [Solo(Apply(ORDER[n - 1], m.plans[ORDER[n - 1]], m), true, 0, 0), Solo(Verify(ORDER[n - 1]), true, 0, 0)]
  }

  lemma SerialOneMore(s: System, scripts: seq<Solo>, x: Solo)
    ensures Serial(s, scripts + [x]) == Alone(Serial(s, scripts), x)
  {
    assert (scripts + [x])[..|scripts|] == scripts;
    hide Alone;
  }

  lemma SerialTwoMore(s: System, scripts: seq<Solo>, a: Solo, b: Solo)
    ensures Serial(s, scripts + [a, b]) == Alone(Alone(Serial(s, scripts), a), b)
  {
    hide *;
    SerialOneMore(s, scripts, a);
    SerialOneMore(s, scripts + [a], b);
    assert scripts + [a] + [b] == scripts + [a, b];
  }

  lemma {:induction false} DoneRoots(m: Manifest, n: nat)
    requires Whole(m) && n <= 7
    ensures Roots(DoneEntries(m, n)) == ORDER[..n]
  {
    var entries := DoneEntries(m, n);
    forall i | 0 <= i < n ensures Roots(entries)[i] == ORDER[i] { RootsAt(entries, i); }
  }

  lemma AloneWhenAllowed(s: System, x: Solo)
    requires Idle(s) && x.ok && x.before == x.during == 0 && May(s.ledger, x.command, s.now)
    ensures Alone(s, x) == Ended(s, 0, Job(x.command, s.ledger, s.now)).(jobs := map[])
  {
    hide May, Written;
    assert s.jobs[0 := Job(x.command, s.ledger, s.now)] - {0} == map[];
  }

  lemma NextRootMayApply(m: Manifest, n: nat)
    requires Whole(m) && n < 7
    ensures MayApply(Ledger(DoneEntries(m, n), None), ORDER[n], m.plans[ORDER[n]], m)
    ensures var applied := DoneEntries(m, n) + [Entry(ORDER[n], m.plans[ORDER[n]], m, 0, None)];
            && MayVerify(Ledger(applied, None), ORDER[n])
            && applied[n := DoneEntry(m, n)] == DoneEntries(m, n + 1)
  {
    var e := Entry(ORDER[n], m.plans[ORDER[n]], m, 0, None);
    DoneRoots(m, n);
    RootsAppend(DoneEntries(m, n), e);
    assert ORDER[..n] + [ORDER[n]] == ORDER[..n + 1];
    hide Roots;
  }

  lemma NextRootApplies(m: Manifest, n: nat, s: System)
    requires Whole(m) && n < 7 && s == System(Ledger(DoneEntries(m, n), None), map[], [], [], 0)
    ensures Alone(Alone(s, Solo(Apply(ORDER[n], m.plans[ORDER[n]], m), true, 0, 0)), Solo(Verify(ORDER[n]), true, 0, 0))
            == s.(ledger := Ledger(DoneEntries(m, n + 1), None))
  {
    NextRootMayApply(m, n);
    hide Roots, Alone, MayApply, MayVerify, DoneEntries;
    AloneWhenAllowed(s, Solo(Apply(ORDER[n], m.plans[ORDER[n]], m), true, 0, 0));
    var mid := s.(ledger := Ledger(DoneEntries(m, n) + [Entry(ORDER[n], m.plans[ORDER[n]], m, 0, None)], None));
    AloneWhenAllowed(mid, Solo(Verify(ORDER[n]), true, 0, 0));
  }

  lemma CutoverUnfolds(m: Manifest, n: nat)
    requires Whole(m) && n <= 7
    ensures n == 0 ==> Serial(INIT, Cutover(m, n)) == INIT.(ledger := Ledger(DoneEntries(m, n), None))
    ensures n > 0 ==> Cutover(m, n) == Cutover(m, n - 1)
                        + [Solo(Apply(ORDER[n - 1], m.plans[ORDER[n - 1]], m), true, 0, 0), Solo(Verify(ORDER[n - 1]), true, 0, 0)]
  {
    hide Alone, Whole;
  }

  lemma {:induction false} RootsGoLive(m: Manifest, n: nat)
    requires Whole(m) && n <= 7
    ensures Serial(INIT, Cutover(m, n)) == INIT.(ledger := Ledger(DoneEntries(m, n), None))
  {
    CutoverUnfolds(m, n);
    if n > 0 {
      var apply, verify := Solo(Apply(ORDER[n - 1], m.plans[ORDER[n - 1]], m), true, 0, 0), Solo(Verify(ORDER[n - 1]), true, 0, 0);
      hide *;
      RootsGoLive(m, n - 1);
      SerialTwoMore(INIT, Cutover(m, n - 1), apply, verify);
      NextRootApplies(m, n - 1, Serial(INIT, Cutover(m, n - 1)));
    }
  }

  /** The seven receipt files of that cutover. */
  function ReceiptFiles(m: Manifest): (files: seq<Receipt>)
    requires Whole(m)
    ensures |files| == 7 && forall i :: 0 <= i < 7 ==> files[i] == Receipt(ORDER[i], m.plans[ORDER[i]], m, 0)
  {
    seq(7, i requires 0 <= i < 7 => Receipt(ORDER[i], m.plans[ORDER[i]], m, 0))
  }

  lemma AllEvidenced(m: Manifest)
    requires Whole(m)
    ensures MayComplete(Ledger(DoneEntries(m, 7), None), m, ReceiptFiles(m), 0)
  {
    DoneRoots(m, 7);
    assert ORDER[..7] == ORDER;
    hide Roots, DoneEntries, ReceiptFiles;
  }

  lemma CompletionNamesFiles(m: Manifest, s: System)
    requires Whole(m) && s == INIT.(ledger := Ledger(DoneEntries(m, 7), None))
    ensures Alone(s, Solo(Complete(m, ReceiptFiles(m)), true, 0, 0)).completions == [ReceiptFiles(m)]
  {
    hide Whole, Roots, Alone, MayComplete, DoneEntries, ReceiptFiles;
    AllEvidenced(m);
    AloneWhenAllowed(s, Solo(Complete(m, ReceiptFiles(m)), true, 0, 0));
  }

  /**
   * The way through: under any manifest with all seven plans, applying and verifying the roots in
   * order succeeds, and the completion script then accepts the seven receipts and names them.
   */
  lemma {:induction false} CutoverSucceeds(m: Manifest)
    requires Whole(m)
    ensures Serial(INIT, Cutover(m, 7) + [Solo(Complete(m, ReceiptFiles(m)), true, 0, 0)]).completions == [ReceiptFiles(m)]
  {
    hide *;
    RootsGoLive(m, 7);
    SerialOneMore(INIT, Cutover(m, 7), Solo(Complete(m, ReceiptFiles(m)), true, 0, 0));
    CompletionNamesFiles(m, Serial(INIT, Cutover(m, 7)));
  }

  // ---------------------------------------------------------------- the scripts' loops

  /** validate_ledger: the next root, or a refusal. */
  method ValidateLedger(l: Ledger) returns (r: Result<Root>)
    ensures r.Ok? <==> l.rollback.None? && |l.completed| < |ORDER| && IsPrefix(Roots(l.completed)) && Verified(l.completed, |l.completed|)
    ensures r.Ok? ==> r.value == ORDER[|l.completed|]
  {
    if l.rollback.Some? || |l.completed| >= |ORDER| { return Refused; }
    if Roots(l.completed) != ORDER[..|l.completed|] { return Refused; }
    for i := 0 to |l.completed|
      invariant Verified(l.completed, i)
    {
      if l.completed[i].receipt.None? { return Refused; }
    }
    r := Ok(ORDER[|l.completed|]);
  }

  /** The completion script up to its live checks, with the receipt files it finds; it collects their identities. */
  method CollectReceipts(l: Ledger, m: Manifest, files: seq<Receipt>, now: int) returns (r: Result<seq<Receipt>>)
    ensures r.Ok? <==> MayComplete(l, m, files, now)
    ensures r.Ok? ==> r.value == files
  {
    if !DeadlineOk(m) || l.rollback.Some? || Roots(l.completed) != ORDER || |files| != |ORDER| { return Refused; }
    var receipts := [];
    for i := 0 to |ORDER|
      invariant receipts == files[..i]
      invariant forall j :: 0 <= j < i ==> Evidenced(l.completed[j], files[j], ORDER[j], m, now)
    {
      if !Evidenced(l.completed[i], files[i], ORDER[i], m, now) { return Refused; }
      receipts := receipts + [files[i]];
    }
    r := Ok(receipts);
  }

  // ---------------------------------------------------------------- the scripts on a ledger file

  /** The ledger file, as one script at a time sees it; `ok` is the outcome of the script's outside work. */
  class LedgerFile {
    var ledger: Ledger

    constructor ()
      ensures ledger == NEW
    {
      ledger := NEW;
    }

    /** production-apply-guard.py --execute. */
    method ApplyRoot(root: Root, plan: int, m: Manifest, ok: bool, at: int, done: int) returns (r: Result<()>)
      modifies this
      ensures r.Ok? <==> May(old(ledger), Apply(root, plan, m), at) && ok
      ensures ledger == if r.Ok? then Written(Job(Apply(root, plan, m), old(ledger), at), done) else old(ledger)
    {
      if !DeadlineOk(m) || root !in m.plans || m.plans[root] != plan { return Refused; }
      var copy := ledger;
      var next := ValidateLedger(copy);
      if next.Refused? || root != next.value { return Refused; }
      if !ok { return Refused; }
      copy := copy.(completed := copy.completed + [Entry(root, plan, m, done, None)]);
      ledger := copy;
      r := Ok(());
    }

    /** production-post-apply-verify.py. */
    method VerifyRoot(root: Root, ok: bool, at: int) returns (r: Result<Receipt>)
      modifies this
      ensures r.Ok? <==> May(old(ledger), Verify(root), at) && ok
      ensures ledger == if r.Ok? then Written(Job(Verify(root), old(ledger), at), at) else old(ledger)
      ensures r.Ok? ==> ledger.completed[|ledger.completed| - 1].receipt == Some(r.value)
    {
      var copy := ledger;
      var n := |copy.completed|;
      if copy.rollback.Some? || n == 0 { return Refused; }
      if n > |ORDER| || Roots(copy.completed) != ORDER[..n] || copy.completed[n - 1].root != root { return Refused; }
      if exists i :: 0 <= i < n - 1 && copy.completed[i].receipt.None? { return Refused; }
      var current := copy.completed[n - 1];
      if current.receipt.Some? || !ok { return Refused; }
      var receipt := Receipt(root, current.plan, current.manifest, at);
      copy := copy.(completed := copy.completed[n - 1 := current.(receipt := Some(receipt))]);
      ledger := copy;
      r := Ok(receipt);
    }

    /** production-cutover-rollback.py. */
    method DeclareRollback(m: Manifest, trigger: int, actor: int, at: int) returns (r: Result<RollbackReceipt>)
      modifies this
      ensures r.Ok? <==> May(old(ledger), Rollback(m, trigger, actor), at)
      ensures ledger == if r.Ok? then Written(Job(Rollback(m, trigger, actor), old(ledger), at), at) else old(ledger)
      ensures r.Ok? ==> ledger.rollback == Some(Fence(r.value, None))
    {
      if !DeadlineOk(m) || trigger !in m.triggers { return Refused; }
      var copy := ledger;
      var n := |copy.completed|;
      if n == 0 || copy.rollback.Some? || n > |ORDER| || Roots(copy.completed) != ORDER[..n] { return Refused; }
      if exists i :: 0 <= i < n && copy.completed[i].manifest != m { return Refused; }
      var receipt := RollbackReceipt(m, Roots(copy.completed), trigger, actor, at);
      ledger := copy.(rollback := Some(Fence(receipt, None)));
      r := Ok(receipt);
    }

    /** production-cutover-rollback-complete.py. */
    method RecordRecovery(m: Manifest, file: RollbackReceipt, ok: bool, at: int) returns (r: Result<()>)
      modifies this
      ensures r.Ok? <==> May(old(ledger), Recover(m, file), at) && ok
      ensures ledger == if r.Ok? then Written(Job(Recover(m, file), old(ledger), at), at) else old(ledger)
    {
      if !DeadlineOk(m) || ledger.rollback.None? { return Refused; }
      var copy := ledger;
      var fence := copy.rollback.value;
      if fence.completedAt.Some? { return Refused; }
      if fence.receipt != file || file.manifest != m || file.trigger !in m.triggers { return Refused; }
      if file.roots != Roots(copy.completed) { return Refused; }
      if at < file.at || at > file.at + 60 * m.deadline { return Refused; }
      if !ok { return Refused; }
      ledger := copy.(rollback := Some(fence.(completedAt := Some(at))));
      r := Ok(());
    }
  }
}
