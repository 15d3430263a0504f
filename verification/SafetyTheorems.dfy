/** What holds after every run from the empty system, whatever the schedule, with any number of
    workers, redrives, manual retries and duplicates, and with a crash possible at every point. */
module SafetyTheorems {
  import opened Lifecycle
  import opened Sums
  import opened Protocol
  import opened Safety
  import opened Intake

  ghost predicate Invariant(M: MaxAttempts, s: Sys) {
    && Tidy(M, s)
    && (forall id :: Balances(s, id) && Safe(s, id))
    && IntakeSound(s)
    && StrandedUntouched(s)
  }

  lemma InitialInvariant(M: MaxAttempts, s: Sys)
    requires Initial(s)
    ensures Invariant(M, s)
  {
    forall id ensures Balances(s, id) && AcceptedOnce(s, id) {
      SumZero(s.procs, Carried(id));
      SumZero(s.procs, Announces(id));
    }
  }

  lemma InvariantStep(M: MaxAttempts, s: Sys, a: Action)
    requires Invariant(M, s) && Enabled(s, a)
    ensures Invariant(M, Apply(M, s, a))
  {
    var t := Apply(M, s, a);
    TidyStep(M, s, a);
    IntakeStep(M, s, a);
    StrandedStep(M, s, a);
    forall id ensures Balances(t, id) && Safe(t, id) {
      BalancesStep(M, s, a, id);
      SafeStep(M, s, a, id);
    }
  }

  lemma {:induction false} InvariantRun(M: MaxAttempts, s: Sys, acts: seq<Action>)
    requires Invariant(M, s) && IsRun(M, s, acts)
    ensures Invariant(M, Run(M, s, acts))
    decreases |acts|
  {
    if acts != [] {
      InvariantStep(M, s, acts[0]);
      InvariantRun(M, Apply(M, s, acts[0]), acts[1..]);
    }
  }

  /** No accepted event is lost: once an enqueue reached the broker, the event is processed or a copy
      that obliges somebody to process it is in a lane or in a hand. */
  lemma NoEventLost(M: MaxAttempts, start: Sys, acts: seq<Action>, id: Uuid)
    requires Initial(start) && IsRun(M, start, acts)
    requires Run(M, start, acts).log.enqueued[id] > 0
    ensures var s := Run(M, start, acts);
      id in s.events && (s.events[id].status == Processed || Waiting(s, id))
  {
    InitialInvariant(M, start);
    InvariantRun(M, start, acts);
    var s := Run(M, start, acts);
    assert Safe(s, id);
    if Debts(s, id) > 0 { DebtWitness(s, id); }
  }

  /** Copies in the lanes and in hands are the enqueues and the hand-overs interrupted between publish
      and acknowledgement, less the acknowledgements after success. */
  lemma CopyConservation(M: MaxAttempts, start: Sys, acts: seq<Action>, id: Uuid)
    requires Initial(start) && IsRun(M, start, acts)
    ensures var s := Run(M, start, acts);
      Copies(s, id) + s.log.completed[id] == s.log.enqueued[id] + s.log.interrupted[id]
  {
    InitialInvariant(M, start);
    InvariantRun(M, start, acts);
    assert Balances(Run(M, start, acts), id);
  }

  /** Attempt numbers fit their lanes, so the worker asks for a final attempt exactly when the router
      would send a failure of that message to the dead-letter lane. */
  lemma AttemptsInRange(M: MaxAttempts, start: Sys, acts: seq<Action>)
    requires Initial(start) && IsRun(M, start, acts)
    ensures var s := Run(M, start, acts);
      && (forall m :: m in s.main ==> 1 <= m.attempt <= M)
      && (forall m :: m in s.retry ==> 2 <= m.attempt <= M)
      && (forall m :: m in s.dlq ==> m.attempt == M)
      && (forall q :: q in s.procs && WorkerHolds(q) ==> 1 <= q.m.attempt <= M)
      && (forall q :: q in s.procs && WorkerHolds(q) ==> (FinalAttempt(M, q.m) <==> !HasNextAttempt(M, q.m)))
      && (forall q :: q in s.procs && RedriveHolds(q) ==> q.m.attempt == M)
  {
    hide IsRun, Run;
    InitialInvariant(M, start);
    InvariantRun(M, start, acts);
    var s := Run(M, start, acts);
    assert forall q :: q in s.procs ==> GoodProc(M, s, q);
  }

  /** At most one row per delivery id, at most one acceptance of it, and every answer about it names
      that row. */
  lemma IntakeIdempotent(M: MaxAttempts, start: Sys, acts: seq<Action>, d: string)
    requires Initial(start) && IsRun(M, start, acts)
    ensures var s := Run(M, start, acts);
      && (forall i, j :: Holds(s.events, Some(d), i) && Holds(s.events, Some(d), j) ==> i == j)
      && (forall a, b | a in s.log.answers && b in s.log.answers && Names(a, d) && Names(b, d) ::
            a.id == b.id && Holds(s.events, Some(d), a.id))
      && (forall i :: s.log.answers[Accepted(Some(d), i)] <= 1)
  {
    hide IsRun, Run;
    InitialInvariant(M, start);
    InvariantRun(M, start, acts);
    var s := Run(M, start, acts);
    forall i ensures s.log.answers[Accepted(Some(d), i)] <= 1 {
      assert AcceptedOnce(s, i);
      assert Acceptances(s, Some(d), i) <= 1;
      SumAtLeast(s.procs, 0, Announces(i));
    }
  }

  predicate IsRepeat(a: Action) {
    a.Api? && a.api.Receive? && a.api.found.Some?
  }

  /** However many repeated deliveries are answered, neither table nor lanes nor any request in
      progress changes. */
  lemma {:induction false} RepeatsChangeNothing(M: MaxAttempts, s: Sys, acts: seq<Action>)
    requires IsRun(M, s, acts) && forall a :: a in acts ==> IsRepeat(a)
    ensures var t := Run(M, s, acts);
      && t == s.(log := t.log) && t.log == s.log.(answers := t.log.answers)
      && s.log.answers <= t.log.answers && |t.log.answers| == |s.log.answers| + |acts|
    decreases |acts|
  {
    if acts != [] {
      assert acts[0] in acts;
      RepeatsChangeNothing(M, Apply(M, s, acts[0]), acts[1..]);
    }
  }

  /** A row whose event never reached the broker has no copy anywhere and is as it was inserted,
      however often its delivery is repeated. */
  lemma StrandedStaysStranded(M: MaxAttempts, start: Sys, acts: seq<Action>, id: Uuid)
    requires Initial(start) && IsRun(M, start, acts)
    requires id in Run(M, start, acts).events && Run(M, start, acts).log.enqueued[id] == 0
    ensures var s := Run(M, start, acts);
      && !Waiting(s, id) && Copies(s, id) == 0
      && id in s.log.born && s.events[id] == s.log.born[id]
  {
    hide Invariant;
    InitialInvariant(M, start);
    InvariantRun(M, start, acts);
    StrandedFacts(M, Run(M, start, acts), id);
  }

  lemma StrandedFacts(M: MaxAttempts, s: Sys, id: Uuid)
    requires Invariant(M, s) && id in s.events && s.log.enqueued[id] == 0
    ensures !Waiting(s, id) && Copies(s, id) == 0 && id in s.log.born && s.events[id] == s.log.born[id]
  {
    assert forall m :: m in s.main || m in s.retry || m in s.dlq ==> m.id != id;
    forall q | q in s.procs && (WorkerHolds(q) || RedriveHolds(q)) ensures q.m.id != id {
      assert GoodProc(M, s, q);
    }
    SumZero(s.main, IsFor(id));
    SumZero(s.retry, IsFor(id));
    SumZero(s.dlq, IsFor(id));
    SumZero(s.procs, Carried(id));
  }
}
