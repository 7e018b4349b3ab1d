/**
 * The delivery.created loop and the telemetry pipeline together: what a committed offset
 * of the one says about the tables behind the other.
 */
module EndToEnd {
  import opened Common
  import opened Deliveries
  import Loop = SimulatorLoop
  import opened Pipeline
  import Orders

  /** The simulator process, and the telemetry, log and tables of one delivery. */
  datatype Whole = Whole(loop: Loop.Simulator, pipe: System)

  /**
   * The loop and the pipeline interleave freely, so runs may outlive or predecease the
   * process that a real crash would end with them. They meet in one place: the simulation
   * of the delivery's message returns normally (Return) only as simulate() does.
   */
  datatype Move =
    | OnLoop(step: Loop.Step)
    | OnPipe(change: Step)
    | Return(run: int)

  /** simulate() returns: run `run` has published its last step, or the API it resumes from says DELIVERED. */
  ghost predicate MayReturn(c: Config, pipe: System, run: int) {
    || (run in pipe.runs && pipe.runs[run].pending == [])
    || (c.resume && c.delivery in pipe.api.db.deliveries && pipe.api.db.deliveries[c.delivery].status == DELIVERED)
  }

  /** `job` is the message of the delivery: partition and offset of its delivery.created event. */
  ghost function Next(c: Config, job: Loop.Job, w: Whole, move: Move): Whole
    requires ValidConfig(c)
  {
    match move
    case OnLoop(step) => if step == Loop.Finish(job, true) then w else w.(loop := Loop.Apply(w.loop, step))
    case OnPipe(change) => w.(pipe := Apply(c, w.pipe, change))
    case Return(run) =>
      if MayReturn(c, w.pipe, run) then w.(loop := Loop.Apply(w.loop, Loop.Finish(job, true))) else w
  }

  ghost function Moves(c: Config, job: Loop.Job, w: Whole, moves: seq<Move>): Whole
    requires ValidConfig(c)
  {
    if moves == [] then w else Next(c, job, Moves(c, job, w, moves[..|moves| - 1]), moves[|moves| - 1])
  }

  ghost predicate WholeInv(c: Config, job: Loop.Job, w: Whole) {
    && Loop.Inv(w.loop) && Loop.Decoded(w.loop) && Inv(c, w.pipe)
    && (job in w.loop.simulated ==> AllPublished(c, w.pipe))
  }

  lemma LoopStep(s: Loop.Simulator, step: Loop.Step, job: Loop.Job)
    requires Loop.Inv(s) && Loop.Decoded(s)
    ensures var later := Loop.Apply(s, step);
            && Loop.Inv(later) && Loop.Decoded(later)
            && (step != Loop.Finish(job, true) && job in later.simulated ==> job in s.simulated)
  {
    Loop.StepKeepsInv(s, step);
    Loop.StepKeepsDecoded(s, step);
    Loop.StepHandles(s, step);
    hide Loop.Inv, Loop.Decoded, Loop.Apply, Loop.HasMessage;
  }

  lemma ReturnHasPublished(c: Config, pipe: System, run: int)
    requires Inv(c, pipe) && MayReturn(c, pipe, run)
    ensures AllPublished(c, pipe)
  {
    if run in pipe.runs && pipe.runs[run].pending == [] {
      FinishedRunHasPublished(c, pipe, run);
    } else {
      DeliveredHasPublished(c, pipe);
    }
  }

  lemma NextKeepsInv(c: Config, job: Loop.Job, w: Whole, move: Move)
    requires ValidConfig(c) && WholeInv(c, job, w)
    ensures WholeInv(c, job, Next(c, job, w, move))
  {
    hide Loop.Inv, Loop.Decoded, Loop.Apply, Apply, Inv, AllPublished, MayReturn, ValidConfig;
    match move
    case OnLoop(step) => LoopStep(w.loop, step, job);
    case OnPipe(change) =>
      StepKeepsInv(c, w.pipe, change);
      if job in w.loop.simulated { StepKeepsAllPublished(c, w.pipe, change); }
    case Return(run) =>
      LoopStep(w.loop, Loop.Finish(job, true), job);
      if MayReturn(c, w.pipe, run) { ReturnHasPublished(c, w.pipe, run); }
  }

  lemma {:induction false} MovesKeepInv(c: Config, job: Loop.Job, workers: nat, pipe: System, moves: seq<Move>)
    requires Initial(c, pipe)
    ensures WholeInv(c, job, Moves(c, job, Whole(Loop.Init(workers), pipe), moves))
  {
    if moves == [] {
      assert Loop.Run(Loop.Init(workers), []) == Loop.Init(workers);
      Loop.RunKeepsInv(workers, []);
      InitialInv(c, pipe);
    } else {
      MovesKeepInv(c, job, workers, pipe, moves[..|moves| - 1]);
      hide WholeInv, Next, Initial;
      NextKeepsInv(c, job, Moves(c, job, Whole(Loop.Init(workers), pipe), moves[..|moves| - 1]), moves[|moves| - 1]);
    }
  }

  /**
   * Replay safety end to end: in every run, with any failures, crashes, duplicates and
   * redeliveries on either side, once the consumer group has committed past the delivery's
   * event and the API has consumed the telemetry log, every step of the plan has been applied
   * once, the delivery is DELIVERED and its order FULFILLED. A lost run never hides behind a commit.
   */
  lemma {:induction false} CommittedAndConsumedIsDelivered(
      c: Config, job: Loop.Job, workers: nat, pipe: System, moves: seq<Move>, i: nat)
    requires Initial(c, pipe)
    requires var w := Moves(c, job, Whole(Loop.Init(workers), pipe), moves);
             var part := Loop.PartitionAt(w.loop, job.partition);
             && i < |part.log| && part.log[i] == Loop.Message(job.offset, true) && job.offset < part.committed
             && w.pipe.read == |w.pipe.log|
    ensures var w := Moves(c, job, Whole(Loop.Init(workers), pipe), moves);
            && |w.pipe.applied| == c.plan.steps && FollowsPlan(c, w.pipe)
            && c.delivery in w.pipe.api.db.deliveries && w.pipe.api.db.deliveries[c.delivery].status == DELIVERED
            && (var order := w.pipe.api.db.deliveries[c.delivery].orderId;
                order.Some? ==> order.value in w.pipe.api.db.orders
                                && w.pipe.api.db.orders[order.value].status == Orders.FULFILLED)
  {
    MovesKeepInv(c, job, workers, pipe, moves);
    var w := Moves(c, job, Whole(Loop.Init(workers), pipe), moves);
    hide Moves, Initial, Loop.Inv, Loop.Decoded, Inv, AllPublished, FollowsPlan;
    Loop.DecodableIsSimulated(w.loop, job.partition, i);
    AllPublishedIsDelivered(c, w.pipe);
    InvFollowsPlan(c, w.pipe);
  }
}
