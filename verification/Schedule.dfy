/** Workers and retry expiries alone, with no crash and no new enqueue or redrive: every schedule
    ends, within a bound, in the same place. An attempt is one step, or a load and a commit. */
module Schedule {
  import opened Lifecycle
  import opened Sums
  import opened Protocol
  import opened Safety
  import opened SafetyTheorems

  predicate Calm(a: Action) {
    a.Expire? || a.Work?
  }

  predicate AllCalm(acts: seq<Action>) {
    forall a :: a in acts ==> Calm(a)
  }

  /** The slot is idle or is a worker. */
  predicate Working(q: Proc) {
    q.Idle? || WorkerHolds(q)
  }

  ghost predicate AllWorking(s: Sys) {
    forall q :: q in s.procs ==> Working(q) && (q.Loaded? ==> q.m.id in s.events)
  }

  ghost predicate Quiet(s: Sys) {
    s.main == [] && s.retry == [] && forall q :: q in s.procs ==> q == Idle
  }

  // ---------------------------------------------------------------- quiescence

  function AttemptsLeft(M: MaxAttempts, m: Msg): nat {
    if m.attempt >= M then 0 else M - m.attempt
  }

  function MainBurden(M: MaxAttempts): Msg -> int {
    (m: Msg) => 6 * AttemptsLeft(M, m) + 5
  }

  function RetryBurden(M: MaxAttempts): Msg -> int {
    (m: Msg) => 6 * AttemptsLeft(M, m) + 6
  }

  function NoBurden(): Msg -> int {
    (m: Msg) => 0
  }

  function ProcBurden(M: MaxAttempts): Proc -> int {
    (q: Proc) => match q
                 case Holding(m) => 6 * AttemptsLeft(M, m) + 4
                 case Loaded(m, _) => 6 * AttemptsLeft(M, m) + 3
                 case Faulted(m) => 6 * AttemptsLeft(M, m) + 2
                 case Succeeded(_) => 1
                 case Routed(_) => 1
                 case _ => 0
  }

  function Burden(M: MaxAttempts): Weights {
    Weights(MainBurden(M), RetryBurden(M), NoBurden(), ProcBurden(M))
  }

  /** An upper bound on the calm steps that are left. */
  function StepsLeft(M: MaxAttempts, s: Sys): int {
    Total(Burden(M), s)
  }

  lemma StepsLeftNonNegative(M: MaxAttempts, s: Sys)
    ensures StepsLeft(M, s) >= 0
  {
    SumAtLeast(s.main, 0, MainBurden(M));
    SumAtLeast(s.retry, 0, RetryBurden(M));
    SumAtLeast(s.dlq, 0, NoBurden());
    SumAtLeast(s.procs, 0, ProcBurden(M));
  }

  lemma CalmStepDecreases(M: MaxAttempts, s: Sys, a: Action)
    requires Enabled(s, a) && Calm(a)
    ensures StepsLeft(M, Apply(M, s, a)) < StepsLeft(M, s)
  {
    if a.Work? { BalanceWork(M, Burden(M), s, a.p, a.work); } else { Balance(M, Burden(M), s, a); }
  }

  lemma {:induction false} CalmRunEnds(M: MaxAttempts, s: Sys, acts: seq<Action>)
    requires IsRun(M, s, acts) && AllCalm(acts)
    ensures |acts| <= StepsLeft(M, s) - StepsLeft(M, Run(M, s, acts))
    ensures |acts| <= StepsLeft(M, s)
    decreases |acts|
  {
    StepsLeftNonNegative(M, Run(M, s, acts));
    if acts != [] {
      assert acts[0] in acts;
      CalmStepDecreases(M, s, acts[0]);
      CalmRunEnds(M, Apply(M, s, acts[0]), acts[1..]);
    }
  }

  function InHand(): Proc -> int {
    (q: Proc) => if WorkerHolds(q) then 1 else 0
  }

  function One(): Msg -> int {
    (m: Msg) => 1
  }

  /** The messages that calm steps can move. */
  function InPlay(s: Sys): int {
    |s.main| + |s.retry| + Sum(s.procs, InHand())
  }

  lemma BurdensFit(M: MaxAttempts, s: Sys)
    requires Tidy(M, s)
    ensures forall m :: m in s.main ==> MainBurden(M)(m) <= 6 * M * One()(m)
    ensures forall m :: m in s.retry ==> RetryBurden(M)(m) <= 6 * M * One()(m)
    ensures forall q :: q in s.procs ==> ProcBurden(M)(q) <= 6 * M * InHand()(q)
  {
    forall q | q in s.procs ensures ProcBurden(M)(q) <= 6 * M * InHand()(q) {
      assert GoodProc(M, s, q);
    }
  }

  /** The bound is linear in the messages in play. */
  lemma StepsLeftLinear(M: MaxAttempts, s: Sys)
    requires Tidy(M, s)
    ensures StepsLeft(M, s) <= 6 * M * InPlay(s)
  {
    hide Sum, Tidy, GoodProc, WorkerHolds;
    var k := 6 * M;
    BurdensFit(M, s);
    SumScaled(s.main, MainBurden(M), One(), k);
    SumScaled(s.retry, RetryBurden(M), One(), k);
    SumScaled(s.procs, ProcBurden(M), InHand(), k);
    SumOnes(s.main, One());
    SumOnes(s.retry, One());
    SumZero(s.dlq, NoBurden());
    OneTimesMore(k, |s.main|, |s.retry|);
    OneTimesMore(k, |s.main| + |s.retry|, Sum(s.procs, InHand()));
  }

  /** From any reachable state, at most `6 * M` calm steps per message in play can follow. */
  lemma CalmRunBounded(M: MaxAttempts, start: Sys, before: seq<Action>, acts: seq<Action>)
    requires Initial(start) && IsRun(M, start, before)
    requires IsRun(M, Run(M, start, before), acts) && AllCalm(acts)
    ensures |acts| <= 6 * M * InPlay(Run(M, start, before))
  {
    InitialInvariant(M, start);
    InvariantRun(M, start, before);
    StepsLeftLinear(M, Run(M, start, before));
    CalmRunEnds(M, Run(M, start, before), acts);
  }

  lemma CalmKeepsWorking(M: MaxAttempts, s: Sys, a: Action)
    requires Enabled(s, a) && Calm(a) && AllWorking(s)
    ensures AllWorking(Apply(M, s, a)) && |Apply(M, s, a).procs| == |s.procs|
  {
    Footprint(M, s, a);
    if a.Work? { assert Working(s.procs[a.p]); }
  }

  /** While something is left, some calm step can be taken. */
  lemma SomeCalmStep(s: Sys) returns (a: Action)
    requires AllWorking(s) && s.procs != [] && !Quiet(s)
    ensures Calm(a) && Enabled(s, a)
  {
    if s.retry != [] {
      a := Expire;
    } else if q :| q in s.procs && q != Idle {
      var p :| 0 <= p < |s.procs| && s.procs[p] == q;
      assert Working(q);
      a := Work(p, if q.Holding? then Process else if q.Loaded? then Commit else if q.Faulted? then Route else Ack);
    } else {
      assert s.procs[0] in s.procs;
      a := Work(0, Dequeue);
    }
  }

  lemma {:induction false} CalmRunToQuiet(M: MaxAttempts, s: Sys) returns (acts: seq<Action>)
    requires AllWorking(s) && s.procs != []
    ensures IsRun(M, s, acts) && AllCalm(acts) && Quiet(Run(M, s, acts))
    decreases StepsLeft(M, s) + 1
  {
    StepsLeftNonNegative(M, s);
    if Quiet(s) {
      acts := [];
    } else {
      var a := SomeCalmStep(s);
      CalmStepDecreases(M, s, a);
      CalmKeepsWorking(M, s, a);
      StepsLeftNonNegative(M, Apply(M, s, a));
      var rest := CalmRunToQuiet(M, Apply(M, s, a));
      acts := [a] + rest;
      assert acts[0] == a && acts[1..] == rest;
    }
  }
}
