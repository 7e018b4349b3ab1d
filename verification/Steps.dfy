/**
 * The simulator's step arithmetic (simulator/logitrack_sim/main.py): progress is
 * round(index / STEPS, 4), and a resumed simulation publishes the steps above the
 * progress it reads. Progress is kept in ten-thousandths.
 */
module Steps {

  /** STEPS, and which exact ties round up: a double quotient may fall on either side of a tie. */
  datatype Plan = Plan(steps: nat, tiesUp: set<nat>)

  /** validate_config admits 2 to 1000 steps. */
  predicate ValidPlan(plan: Plan) { 2 <= plan.steps <= 1000 }

  /** Quotient and remainder by repeated subtraction, which keeps division by a variable out of what unfolds. */
  function Divided(n: nat, d: nat): (nat, nat)
    requires d > 0
  {
    if n < d then (0, n)
    else
      var (q, r) := Divided(n - d, d);
      (q + 1, r)
  }

  function Round4(plan: Plan, index: nat): nat
    requires ValidPlan(plan)
  {
    var (q, r) := Divided(10000 * index, plan.steps);
    if 2 * r > plan.steps || (2 * r == plan.steps && index in plan.tiesUp) then q + 1 else q
  }

  function Progress(plan: Plan, index: nat): real
    requires ValidPlan(plan)
  {
    Round4(plan, index) as real / 10000.0
  }

  /** pending_step_indexes, from index `from` on. */
  function PendingFrom(plan: Plan, progress: real, from: nat): seq<nat>
    requires ValidPlan(plan)
    decreases plan.steps + 1 - from
  {
    if from > plan.steps then []
    else (if Progress(plan, from) > progress then [from] else []) + PendingFrom(plan, progress, from + 1)
  }

  function PendingSteps(plan: Plan, progress: real): seq<nat>
    requires ValidPlan(plan)
  {
    PendingFrom(plan, progress, 1)
  }

  /** The indexes first, first + 1, ..., last. */
  function Range(first: nat, last: nat): (r: seq<nat>)
    ensures |r| == if first > last then 0 else last - first + 1
    ensures forall i :: 0 <= i < |r| ==> r[i] == first + i
    decreases last + 1 - first
  {
    if first > last then [] else [first] + Range(first + 1, last)
  }

  lemma {:induction false} DividedIsDivision(n: nat, d: nat)
    requires d > 0
    ensures var (q, r) := Divided(n, d); n == q * d + r && r < d
  {
    if n >= d {
      DividedIsDivision(n - d, d);
      var q := Divided(n - d, d).0;
      assert (q + 1) * d == q * d + d;
    }
  }

  /** Round4 is the nearest ten-thousandth, whichever way ties go. */
  lemma {:induction false} RoundIsNearest(plan: Plan, index: nat)
    requires ValidPlan(plan)
    ensures 0 - plan.steps <= 2 * (10000 * index - Round4(plan, index) * plan.steps) <= plan.steps
  {
    DividedIsDivision(10000 * index, plan.steps);
    var (q, r) := Divided(10000 * index, plan.steps);
    assert (q + 1) * plan.steps == q * plan.steps + plan.steps;
    hide Divided;
  }

  lemma ScaledOrder(steps: int, a: int, b: int)
    requires 0 < steps && a * steps < b * steps
    ensures a < b
  {
    assert (b - a) * steps > 0;
  }

  /** Distinct steps have distinct progress, in step order. */
  lemma {:induction false} RoundIncreases(plan: Plan, i: nat, j: nat)
    requires ValidPlan(plan) && i < j
    ensures Round4(plan, i) < Round4(plan, j)
  {
    RoundIsNearest(plan, i);
    RoundIsNearest(plan, j);
    hide Round4;
    ScaledOrder(plan.steps, Round4(plan, i), Round4(plan, j));
  }

  lemma RoundEndpoints(plan: Plan)
    requires ValidPlan(plan)
    ensures Round4(plan, 0) == 0 && Round4(plan, plan.steps) == 10000
  {
    DivideExactly(plan.steps, 10000);
  }

  lemma {:induction false} NextMultiple(n: nat, a: int, b: int)
    requires a < b
    ensures a * n + n <= b * n
    decreases b - a
  {
    assert b * n == (b - 1) * n + n;
    if a < b - 1 { NextMultiple(n, a, b - 1); } else { assert b - 1 == a; }
  }

  lemma DivideExactly(n: nat, q: nat)
    requires n > 0
    ensures Divided(q * n, n) == (q, 0)
  {
    DividedIsDivision(q * n, n);
    var d := Divided(q * n, n).0;
    hide Divided;
    if d < q { NextMultiple(n, d, q); }
    if q < d { NextMultiple(n, q, d); }
  }

  /** Progress starts at 0, ends at exactly 1, and is strictly between for every step but the last. */
  lemma {:induction false} ProgressEndpoints(plan: Plan, index: nat)
    requires ValidPlan(plan) && 1 <= index <= plan.steps
    ensures Progress(plan, 0) == 0.0 < Progress(plan, index) <= 1.0
    ensures Progress(plan, index) == 1.0 <==> index == plan.steps
  {
    RoundEndpoints(plan);
    RoundIncreases(plan, 0, index);
    if index < plan.steps { RoundIncreases(plan, index, plan.steps); }
    hide Round4;
  }

  /** Resuming from the progress of step m publishes exactly the steps after m. */
  lemma {:induction false} ResumeContinues(plan: Plan, m: nat)
    requires ValidPlan(plan) && m <= plan.steps
    ensures PendingSteps(plan, Progress(plan, m)) == Range(m + 1, plan.steps)
  {
    PendingFromIsRange(plan, m, 1);
  }

  lemma {:induction false} PendingFromIsRange(plan: Plan, m: nat, from: nat)
    requires ValidPlan(plan) && m <= plan.steps && 1 <= from <= plan.steps + 1
    ensures PendingFrom(plan, Progress(plan, m), from) == Range(if from <= m then m + 1 else from, plan.steps)
    decreases plan.steps + 1 - from
  {
    hide Round4;
    if from <= plan.steps {
      if m < from { RoundIncreases(plan, m, from); }
      if from < m { RoundIncreases(plan, from, m); }
      PendingFromIsRange(plan, m, from + 1);
    }
  }

  /** Whatever progress is read, the pending steps are steps of the plan. */
  lemma {:induction false} PendingWithin(plan: Plan, progress: real, from: nat)
    requires ValidPlan(plan)
    ensures forall i :: 0 <= i < |PendingFrom(plan, progress, from)| ==> from <= PendingFrom(plan, progress, from)[i] <= plan.steps
    decreases plan.steps + 1 - from
  {
    if from <= plan.steps { PendingWithin(plan, progress, from + 1); }
  }
}
