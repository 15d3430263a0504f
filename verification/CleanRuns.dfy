/** Runs without crashes and without manual retries: every enqueued event has one message until it is
    processed, and its attempts are accounted for by its redrives. Redrive requests, webhooks, workers
    and expiries interleave freely, also between the load and the commit of a row. */
module CleanRuns {
  import opened Lifecycle
  import opened Sums
  import opened Protocol
  import opened Safety
  import opened Intake
  import opened SafetyTheorems
  import opened RowLaw
  import opened Outcome
  import opened Fates

  predicate Clean(a: Action) {
    !a.Crash? && !(a.Api? && a.api.CheckRetry?)
  }

  predicate AllClean(acts: seq<Action>) {
    forall a :: a in acts ==> Clean(a)
  }

  // ---------------------------------------------------------------- one message each

  /** The event was enqueued, or is about to be, at most once. */
  ghost predicate EnqueuedOnce(s: Sys, id: Uuid) {
    s.log.enqueued[id] + Sum(s.procs, Announces(id)) <= 1
  }

  ghost predicate Single(s: Sys) {
    && (forall id :: EnqueuedOnce(s, id))
    && s.log.interrupted == multiset{}
    && (forall q :: q in s.procs ==> !q.RetryChecked?)
  }

  lemma EnqueuedOnceFresh(M: MaxAttempts, s: Sys, id: Uuid)
    requires Tidy(M, s) && id !in s.events
    ensures Sum(s.procs, Announces(id)) == 0 && s.log.enqueued[id] == 0
  {
    forall q | q in s.procs ensures Announces(id)(q) == 0 { assert GoodProc(M, s, q); }
    SumZero(s.procs, Announces(id));
  }

  lemma SingleSilent(s: Sys, t: Sys, p: nat)
    requires Single(s) && t.log.enqueued == s.log.enqueued && t.log.interrupted == s.log.interrupted
    requires p < |s.procs| == |t.procs| && t.procs == s.procs[p := t.procs[p]]
    requires !t.procs[p].Inserted? && !t.procs[p].RetryChecked?
    ensures Single(t)
  {
    forall id ensures EnqueuedOnce(t, id) {
      assert EnqueuedOnce(s, id);
      SumUpdate(s.procs, p, t.procs[p], Announces(id));
    }
  }

  lemma SingleApi(M: MaxAttempts, s: Sys, p: nat, op: ApiOp)
    requires Tidy(M, s) && Single(s) && CanApi(s, p, op) && !op.CheckRetry?
    ensures Single(DoApi(s, p, op))
  {
    var t := DoApi(s, p, op);
    ApiFrame(s, p, op);
    if t.procs[p].Inserted? && t.procs[p] != s.procs[p] {
      forall id ensures EnqueuedOnce(t, id) {
        assert EnqueuedOnce(s, id);
        SumUpdate(s.procs, p, t.procs[p], Announces(id));
        if id == op.id { EnqueuedOnceFresh(M, s, id); }
      }
    } else {
      SingleSilent(s, t, p);
    }
  }

  lemma SingleEnqueue(s: Sys, p: nat, outcome: PublishResult)
    requires Single(s) && CanEnqueue(s, p)
    ensures Single(DoEnqueue(s, p, outcome))
  {
    var t := DoEnqueue(s, p, outcome);
    forall id ensures EnqueuedOnce(t, id) {
      assert EnqueuedOnce(s, id);
      SumUpdate(s.procs, p, Idle, Announces(id));
    }
  }

  lemma SingleStep(M: MaxAttempts, s: Sys, a: Action)
    requires Tidy(M, s) && Single(s) && Enabled(s, a) && Clean(a)
    ensures Single(Apply(M, s, a))
  {
    match a
    case Work(p, op) => SingleSilent(s, DoWork(M, s, p, op), p);
    case Redrive(p, op) => SingleSilent(s, DoRedrive(s, p, op), p);
    case Api(p, op) => SingleApi(M, s, p, op);
    case Enqueue(p, outcome) => SingleEnqueue(s, p, outcome);
    case Expire =>
      forall id ensures EnqueuedOnce(DoExpire(s), id) { assert EnqueuedOnce(s, id); }
  }

  lemma SingleMeansOneEach(s: Sys)
    requires Single(s) && forall id :: Balances(s, id)
    ensures OneEach(s)
  {
    forall id ensures Copies(s, id) <= 1 {
      assert EnqueuedOnce(s, id) && Balances(s, id);
      SumAtLeast(s.procs, 0, Announces(id));
    }
  }

  // ---------------------------------------------------------------- the ledger of attempts

  /** Attempts used up by the redrives so far. */
  function Spent(M: MaxAttempts, s: Sys, id: Uuid): int {
    M * s.log.redriven[id]
  }

  /** A delivery of `m` is still to come. */
  ghost predicate Due(M: MaxAttempts, s: Sys, m: Msg) {
    m.id in s.events && s.events[m.id].status != Processed
    && s.events[m.id].attempts == Spent(M, s, m.id) + m.attempt - 1
  }

  /** The delivery of `m` was made, and failed. */
  ghost predicate Tried(M: MaxAttempts, s: Sys, m: Msg) {
    m.id in s.events && s.events[m.id].status != Processed
    && s.events[m.id].attempts == Spent(M, s, m.id) + m.attempt
  }

  ghost predicate ProcLedger(M: MaxAttempts, s: Sys, q: Proc) {
    && (q.Holding? || q.Loaded? ==> Due(M, s, q.m))
    && (q.Faulted? || q.RedriveHolding? ==> Tried(M, s, q.m))
    && (q.Succeeded? ==> q.m.id in s.events && s.events[q.m.id].status == Processed)
  }

  /** A processed event took one attempt more than its counter said, the last of them within the
      current cycle of `M`. */
  ghost predicate Exact(M: MaxAttempts, s: Sys, id: Uuid) {
    id in s.events && s.events[id].status == Processed ==>
      && id in s.log.born && s.log.born[id].counter.Remaining?
      && s.events[id].attempts == Max(0, s.log.born[id].counter.n) + 1
      && Spent(M, s, id) < s.events[id].attempts <= Spent(M, s, id) + M
  }

  ghost predicate Finished(s: Sys, id: Uuid) {
    && (s.log.completed[id] > 0 ==> id in s.events && s.events[id].status == Processed)
    && (s.log.redriven[id] > 0 ==> s.log.enqueued[id] > 0)
  }

  ghost predicate PlacesLedger(M: MaxAttempts, s: Sys) {
    && (forall m :: m in s.main ==> Due(M, s, m))
    && (forall m :: m in s.retry ==> Due(M, s, m))
    && (forall m :: m in s.dlq ==> Tried(M, s, m))
    && (forall q :: q in s.procs ==> ProcLedger(M, s, q))
  }

  ghost predicate Ledger(M: MaxAttempts, s: Sys) {
    PlacesLedger(M, s) && forall id :: Exact(M, s, id) && Finished(s, id)
  }

  ghost predicate Base(M: MaxAttempts, s: Sys) {
    && Tidy(M, s) && Orderly(StampLaw, s) && Current(s) && Single(s) && StrandedUntouched(s)
    && (forall id :: Balances(s, id))
  }

  // ---------------------------------------------------------------- steps that change one event

  lemma EntryStays(M: MaxAttempts, s: Sys, t: Sys, m: Msg)
    requires m.id in s.events ==> m.id in t.events && t.events[m.id] == s.events[m.id]
    requires s.log.redriven[m.id] == t.log.redriven[m.id]
    ensures Due(M, s, m) ==> Due(M, t, m)
    ensures Tried(M, s, m) ==> Tried(M, t, m)
  {
  }

  /** A step that moves slot `p`, which carries `m`, and changes nothing about other events. */
  ghost predicate Touches(s: Sys, p: nat, m: Msg, t: Sys) {
    && p < |s.procs| == |t.procs| && Carries(s.procs[p]) && s.procs[p].m == m
    && t.procs == s.procs[p := t.procs[p]]
    && s.events.Keys == t.events.Keys
    && (forall id :: id in s.events && id != m.id ==> t.events[id] == s.events[id])
    && (forall id :: id != m.id ==> t.log.redriven[id] == s.log.redriven[id])
  }

  lemma OthersStay(M: MaxAttempts, s: Sys, p: nat, m: Msg, t: Sys)
    requires OneEach(s) && PlacesLedger(M, s) && Touches(s, p, m, t)
    ensures forall x :: x in s.main ==> Due(M, t, x)
    ensures forall x :: x in s.retry ==> Due(M, t, x)
    ensures forall x :: x in s.dlq ==> Tried(M, t, x)
    ensures forall q :: q in t.procs ==> ProcLedger(M, t, q) || q == t.procs[p]
  {
    OnlyCarrier(s, p);
    forall x | x in s.main ensures Due(M, t, x) { EntryStays(M, s, t, x); }
    forall x | x in s.retry ensures Due(M, t, x) { EntryStays(M, s, t, x); }
    forall x | x in s.dlq ensures Tried(M, t, x) { EntryStays(M, s, t, x); }
    forall q | q in t.procs ensures ProcLedger(M, t, q) || q == t.procs[p] {
      var r :| 0 <= r < |t.procs| && t.procs[r] == q;
      if r != p {
        assert s.procs[r] in s.procs && ProcLedger(M, s, q);
        if Carries(q) { EntryStays(M, s, t, q.m); }
      }
    }
  }

  /** A successful attempt of a lawful record that was not processed is its first above the counter. */
  lemma SuccessIsFirst(born: Event, e: Event)
    requires Lawful(born, e) && e.status != Processed && Succeeds(e)
    ensures born.counter.Remaining? && e.attempts == Max(0, born.counter.n)
  {
  }

  /** Slot `p` has ended an attempt on its event, in one step or by a commit. */
  ghost predicate Attempted(s: Sys, p: nat, t: Sys) {
    && p < |s.procs| && (s.procs[p].Holding? || s.procs[p].Loaded?) && s.procs[p].m.id in s.events
    && var m, e := s.procs[p].m, s.events[s.procs[p].m.id];
       && m.id in t.events
       && t == s.(events := s.events[m.id := t.events[m.id]],
                  procs := s.procs[p := if Succeeds(e) then Succeeded(m) else Faulted(m)])
       && t.events[m.id].attempts == e.attempts + 1
       && (t.events[m.id].status == Processed <==> Succeeds(e))
  }

  lemma AttemptedWork(M: MaxAttempts, s: Sys, p: nat, op: WorkerOp)
    requires Tidy(M, s) && Orderly(StampLaw, s) && Current(s)
    requires CanWork(s, p, op) && (op.Process? || op.Commit?)
    ensures Attempted(s, p, DoWork(M, s, p, op))
  {
    hide Written, Keeps;
    var q := s.procs[p];
    assert GoodProc(M, s, q) && q.m.id in s.events;
    if op.Commit? {
      assert q in s.procs && Meets(StampLaw, s.log.born[q.m.id], q.row);
      WrittenUpToDate(s.log.born[q.m.id], s.events[q.m.id], q.row, FinalAttempt(M, q.m));
    }
  }

  lemma AttemptPlaces(M: MaxAttempts, s: Sys, p: nat, t: Sys)
    requires OneEach(s) && PlacesLedger(M, s) && Attempted(s, p, t)
    ensures PlacesLedger(M, t)
  {
    assert ProcLedger(M, s, s.procs[p]);
    OthersStay(M, s, p, s.procs[p].m, t);
  }

  lemma AttemptExact(M: MaxAttempts, s: Sys, p: nat, t: Sys, id: Uuid)
    requires Tidy(M, s) && Orderly(StampLaw, s) && PlacesLedger(M, s) && Attempted(s, p, t)
    requires Exact(M, s, id)
    ensures Exact(M, t, id)
  {
    var m := s.procs[p].m;
    assert GoodProc(M, s, s.procs[p]) && ProcLedger(M, s, s.procs[p]);
    if Succeeds(s.events[m.id]) {
      assert Meets(StampLaw, s.log.born[m.id], s.events[m.id]);
      SuccessIsFirst(s.log.born[m.id], s.events[m.id]);
    }
  }

  lemma AttemptFinished(M: MaxAttempts, s: Sys, p: nat, t: Sys, id: Uuid)
    requires PlacesLedger(M, s) && Attempted(s, p, t) && Finished(s, id)
    ensures Finished(t, id)
  {
    assert ProcLedger(M, s, s.procs[p]);
  }

  lemma LedgerAttempt(M: MaxAttempts, s: Sys, p: nat, op: WorkerOp)
    requires Base(M, s) && Ledger(M, s) && CanWork(s, p, op) && (op.Process? || op.Commit?)
    ensures Ledger(M, DoWork(M, s, p, op))
  {
    hide DoWork, Attempted, Exact, Finished, PlacesLedger;
    var t := DoWork(M, s, p, op);
    SingleMeansOneEach(s);
    AttemptedWork(M, s, p, op);
    AttemptPlaces(M, s, p, t);
    forall id ensures Exact(M, t, id) && Finished(t, id) {
      AttemptExact(M, s, p, t, id);
      AttemptFinished(M, s, p, t, id);
    }
  }

  lemma NextCycle(M: MaxAttempts, s: Sys, t: Sys, id: Uuid)
    requires t.log.redriven[id] == s.log.redriven[id] + 1
    ensures Spent(M, t, id) == Spent(M, s, id) + M
  {
  }

  lemma LedgerRepublish(M: MaxAttempts, s: Sys, p: nat)
    requires Tidy(M, s) && OneEach(s) && Ledger(M, s) && CanRedrive(s, p, Republish)
    ensures Ledger(M, DoRedrive(s, p, Republish))
  {
    var t := DoRedrive(s, p, Republish);
    var m := s.procs[p].m;
    assert GoodProc(M, s, s.procs[p]) && ProcLedger(M, s, s.procs[p]);
    OthersStay(M, s, p, m, t);
    NextCycle(M, s, t, m.id);
    forall id ensures Exact(M, t, id) && Finished(t, id) {
      assert Exact(M, s, id) && Finished(s, id);
    }
  }

  // ---------------------------------------------------------------- steps that change no attempt

  ghost predicate SameProgress(s: Sys, t: Sys) {
    && t.log.redriven == s.log.redriven
    && s.events.Keys <= t.events.Keys
    && (forall id :: id in s.events ==> t.events[id].attempts == s.events[id].attempts)
    && (forall id :: id in s.events ==>
          (t.events[id].status == Processed <==> s.events[id].status == Processed))
    && (forall id :: id in t.events && id !in s.events ==> t.events[id].status == Pending)
    && BornKept(s.log, t.log)
    && (forall id :: s.log.enqueued[id] <= t.log.enqueued[id])
  }

  /** What a step brings fits the ledger. */
  ghost predicate Enters(M: MaxAttempts, s: Sys, a: Action, t: Sys)
    requires Enabled(s, a)
  {
    && (Put(M, s, a).Some? ==>
          var Spot(lane, m) := Put(M, s, a).value;
          if lane == Dlq then Tried(M, t, m) else Due(M, t, m))
    && (!a.Expire? ==> a.p < |t.procs| && ProcLedger(M, t, t.procs[a.p]))
  }

  lemma LedgerFrame(M: MaxAttempts, s: Sys, a: Action, t: Sys)
    requires Ledger(M, s) && Enabled(s, a) && Gains(M, s, a, t) && SameProgress(s, t) && Enters(M, s, a, t)
    requires forall id :: Finished(t, id)
    ensures Ledger(M, t)
  {
    forall id ensures Exact(M, t, id) { assert Exact(M, s, id); }
  }

  lemma AckFinished(M: MaxAttempts, s: Sys, p: nat, op: WorkerOp, id: Uuid)
    requires CanWork(s, p, op) && !op.Process? && !op.Commit? && Finished(s, id) && ProcLedger(M, s, s.procs[p])
    ensures Finished(DoWork(M, s, p, op), id)
  {
  }

  lemma WorkEnters(M: MaxAttempts, s: Sys, p: nat, op: WorkerOp)
    requires PlacesLedger(M, s) && CanWork(s, p, op) && !op.Process? && !op.Commit?
    ensures SameProgress(s, DoWork(M, s, p, op)) && Enters(M, s, Work(p, op), DoWork(M, s, p, op))
  {
    assert ProcLedger(M, s, s.procs[p]);
    if op.Dequeue? { assert Due(M, s, s.main[0]); }
  }

  lemma LedgerWork(M: MaxAttempts, s: Sys, p: nat, op: WorkerOp)
    requires Ledger(M, s) && CanWork(s, p, op) && !op.Process? && !op.Commit?
    ensures Ledger(M, DoWork(M, s, p, op))
  {
    hide DoWork, Exact, ProcLedger, SameProgress, Enters;
    var t := DoWork(M, s, p, op);
    assert ProcLedger(M, s, s.procs[p]);
    WorkEnters(M, s, p, op);
    forall id ensures Finished(t, id) {
      assert Finished(s, id);
      AckFinished(M, s, p, op, id);
    }
    FootprintWork(M, s, p, op);
    LedgerFrame(M, s, Work(p, op), t);
  }

  lemma RedriveProgress(s: Sys, p: nat, op: RedriveOp)
    requires CanRedrive(s, p, op) && !op.Republish?
    ensures SameProgress(s, DoRedrive(s, p, op))
  {
  }

  lemma LedgerRedrive(M: MaxAttempts, s: Sys, p: nat, op: RedriveOp)
    requires Ledger(M, s) && CanRedrive(s, p, op) && !op.Republish?
    ensures Ledger(M, DoRedrive(s, p, op))
  {
    var t := DoRedrive(s, p, op);
    hide Exact;
    if op.Get? && s.dlq != [] { assert Tried(M, s, s.dlq[0]); }
    RedriveProgress(s, p, op);
    FinishedStays(s, t);
    FootprintRedrive(M, s, p, op);
    LedgerFrame(M, s, Redrive(p, op), t);
  }

  lemma ApiProgress(s: Sys, p: nat, op: ApiOp)
    requires s.log.born.Keys == s.events.Keys && CanApi(s, p, op)
    ensures SameProgress(s, DoApi(s, p, op))
  {
    ApiFrame(s, p, op);
    ApiRows(s, p, op);
  }

  lemma LedgerApi(M: MaxAttempts, s: Sys, p: nat, op: ApiOp)
    requires s.log.born.Keys == s.events.Keys && Ledger(M, s) && CanApi(s, p, op)
    ensures Ledger(M, DoApi(s, p, op))
  {
    var t := DoApi(s, p, op);
    ApiFrame(s, p, op);
    ApiProgress(s, p, op);
    FinishedStays(s, t);
    FootprintApi(M, s, p, op);
    LedgerFrame(M, s, Api(p, op), t);
  }

  lemma FinishedStays(s: Sys, t: Sys)
    requires (forall id :: Finished(s, id)) && SameProgress(s, t) && t.log.completed == s.log.completed
    ensures forall id :: Finished(t, id)
  {
    forall id ensures Finished(t, id) { assert Finished(s, id); }
  }

  lemma FirstEnqueueDue(M: MaxAttempts, s: Sys, p: nat)
    requires Single(s) && StrandedUntouched(s) && CanEnqueue(s, p)
    requires RowsMeet(StampLaw, s) && forall id :: Finished(s, id)
    ensures Due(M, s, Msg(s.procs[p].id, 1))
  {
    var id := s.procs[p].id;
    assert s.procs[p] in s.procs;
    assert EnqueuedOnce(s, id) && Finished(s, id);
    SumAtLeast(s.procs, p, Announces(id));
    assert IsNew(s.log.born[id]);
  }

  lemma LedgerEnqueue(M: MaxAttempts, s: Sys, p: nat, outcome: PublishResult)
    requires Ledger(M, s) && CanEnqueue(s, p) && Due(M, s, Msg(s.procs[p].id, 1))
    ensures Ledger(M, DoEnqueue(s, p, outcome))
  {
    var t := DoEnqueue(s, p, outcome);
    FinishedStays(s, t);
    EntryStays(M, s, t, Msg(s.procs[p].id, 1));
    Footprint(M, s, Enqueue(p, outcome));
    LedgerFrame(M, s, Enqueue(p, outcome), t);
  }

  lemma LedgerExpire(M: MaxAttempts, s: Sys)
    requires Ledger(M, s) && s.retry != []
    ensures Ledger(M, DoExpire(s))
  {
    assert Due(M, s, s.retry[0]);
    FinishedStays(s, DoExpire(s));
    Footprint(M, s, Expire);
    LedgerFrame(M, s, Expire, DoExpire(s));
  }

  lemma LedgerStep(M: MaxAttempts, s: Sys, a: Action)
    requires Base(M, s) && Ledger(M, s) && Enabled(s, a) && Clean(a)
    ensures Ledger(M, Apply(M, s, a))
  {
    match a
    case Work(p, op) => if op.Process? || op.Commit? { LedgerAttempt(M, s, p, op); } else { LedgerWork(M, s, p, op); }
    case Redrive(p, op) =>
      if op.Republish? { SingleMeansOneEach(s); LedgerRepublish(M, s, p); }
      else { LedgerRedrive(M, s, p, op); }
    case Api(p, op) => LedgerApi(M, s, p, op);
    case Enqueue(p, outcome) => FirstEnqueueDue(M, s, p); LedgerEnqueue(M, s, p, outcome);
    case Expire => LedgerExpire(M, s);
  }

  // ---------------------------------------------------------------- runs

  /** With one message per event no two workers hold the same one. */
  lemma CleanUndisputed(s: Sys, a: Action)
    requires OneEach(s) && Enabled(s, a)
    ensures Undisputed(s, a)
  {
    if a.Work? && (a.work.Load? || a.work.Process?) { OnlyCarrier(s, a.p); }
  }

  lemma BaseStep(M: MaxAttempts, s: Sys, a: Action)
    requires Base(M, s) && Enabled(s, a) && Clean(a)
    ensures Base(M, Apply(M, s, a))
  {
    TidyStep(M, s, a);
    SingleMeansOneEach(s);
    CleanUndisputed(s, a);
    UndisputedStep(M, s, a);
    SingleStep(M, s, a);
    StrandedStep(M, s, a);
    forall id ensures Balances(Apply(M, s, a), id) { BalancesStep(M, s, a, id); }
  }

  lemma InitialLedger(M: MaxAttempts, s: Sys)
    requires Initial(s)
    ensures Base(M, s) && Ledger(M, s)
  {
    InitialInvariant(M, s);
    InitialOrderly(StampLaw, s);
    forall id ensures EnqueuedOnce(s, id) { SumZero(s.procs, Announces(id)); }
  }

  lemma {:induction false} LedgerRun(M: MaxAttempts, s: Sys, acts: seq<Action>)
    requires Base(M, s) && Ledger(M, s) && IsRun(M, s, acts) && AllClean(acts)
    ensures Base(M, Run(M, s, acts)) && Ledger(M, Run(M, s, acts))
    decreases |acts|
  {
    if acts != [] {
      assert acts[0] in acts;
      BaseStep(M, s, acts[0]);
      LedgerStep(M, s, acts[0]);
      LedgerRun(M, Apply(M, s, acts[0]), acts[1..]);
    }
  }

  // ---------------------------------------------------------------- redrive arithmetic

  lemma Scaled(m: nat, d: int)
    ensures d >= 1 ==> m * d >= m
    ensures d <= 0 ==> m * d <= 0
    ensures d <= -1 ==> m * d + m <= 0
  {
    if d >= 1 {
      assert m * (d - 1) >= 0;
    } else {
      assert m * -d >= 0;
      if d <= -1 { assert m * (-1 - d) >= 0; }
    }
  }

  lemma QuotientIs(M: MaxAttempts, n: nat, r: nat)
    requires M * r <= n < M * r + M
    ensures n / M == r
  {
    var d := n / M - r;
    assert M * (n / M) == n - n % M;
    assert M * d == M * (n / M) - M * r;
    Scaled(M, d);
  }

  lemma QuotientAbove(M: MaxAttempts, n: nat, r: nat)
    requires M * r + M <= n
    ensures r < n / M
  {
    var d := n / M - r;
    assert M * (n / M) == n - n % M;
    assert M * d == M * (n / M) - M * r;
    Scaled(M, d);
  }

  ghost predicate BornWith(s: Sys, id: Uuid, n: nat) {
    id in s.events && id in s.log.born && s.log.born[id].counter == Remaining(n) && !s.events[id].forced
  }

  lemma ProcessedArithmetic(M: MaxAttempts, s: Sys, id: Uuid, n: nat)
    requires Exact(M, s, id) && BornWith(s, id, n) && s.events[id].status == Processed
    ensures s.log.redriven[id] == n / M && s.events[id].attempts == n + 1
  {
    QuotientIs(M, n, s.log.redriven[id]);
  }

  lemma DeadArithmetic(M: MaxAttempts, s: Sys, m: Msg, n: nat)
    requires Tried(M, s, m) && m.attempt == M && BornWith(s, m.id, n)
    requires Lawful(s.log.born[m.id], s.events[m.id])
    ensures s.events[m.id].counter == Remaining(n - M * (s.log.redriven[m.id] + 1))
    ensures s.log.redriven[m.id] < n / M
  {
    var r: nat := s.log.redriven[m.id];
    assert M * (r + 1) == M * r + M;
    QuotientAbove(M, n, r);
  }

  /** When the event is processed it has been redriven `n / M` times and tried `n + 1` times; while it
      sits in the dead-letter lane after `r` redrives its counter is `n - M * (r + 1)`, so that `r` is
      still below `n / M`. */
  ghost predicate RedriveLaw(M: MaxAttempts, s: Sys, id: Uuid, n: nat)
    requires id in s.events
  {
    && (s.events[id].status == Processed ==> s.log.redriven[id] == n / M && s.events[id].attempts == n + 1)
    && (forall m :: m in s.dlq && m.id == id ==>
          s.events[id].counter == Remaining(n - M * (s.log.redriven[id] + 1)) && s.log.redriven[id] < n / M)
  }

  /** The law of redrives, for every event born with counter `n >= 0` and not forced. */
  lemma RedriveArithmetic(M: MaxAttempts, start: Sys, acts: seq<Action>, id: Uuid, n: nat)
    requires Initial(start) && IsRun(M, start, acts) && AllClean(acts)
    requires BornWith(Run(M, start, acts), id, n)
    ensures RedriveLaw(M, Run(M, start, acts), id, n)
  {
    InitialLedger(M, start);
    LedgerRun(M, start, acts);
    RedriveFacts(M, Run(M, start, acts), id, n);
  }

  lemma RedriveFacts(M: MaxAttempts, s: Sys, id: Uuid, n: nat)
    requires Base(M, s) && Ledger(M, s) && BornWith(s, id, n)
    ensures RedriveLaw(M, s, id, n)
  {
    assert Meets(StampLaw, s.log.born[id], s.events[id]) && Exact(M, s, id);
    if s.events[id].status == Processed { ProcessedArithmetic(M, s, id, n); }
    forall m | m in s.dlq && m.id == id
      ensures s.events[id].counter == Remaining(n - M * (s.log.redriven[id] + 1)) && s.log.redriven[id] < n / M
    {
      assert GoodMsg(M, s, Dlq, m);
      DeadArithmetic(M, s, m, n);
    }
  }

  /** At rest such an event is processed once it has been redriven `n / M` times, and until then sits
      in the dead-letter lane. */
  lemma AtRestAfterRedrives(M: MaxAttempts, start: Sys, acts: seq<Action>, id: Uuid, n: nat)
    requires Initial(start) && IsRun(M, start, acts) && AllClean(acts)
    requires var s := Run(M, start, acts);
      && s.main == [] && s.retry == [] && (forall q :: q in s.procs ==> q == Idle)
      && s.log.enqueued[id] > 0 && BornWith(s, id, n)
    ensures var s := Run(M, start, acts);
      && (s.log.redriven[id] == n / M <==> s.events[id].status == Processed)
      && (s.log.redriven[id] < n / M <==> Msg(id, M) in s.dlq)
  {
    hide Base, Ledger;
    InitialLedger(M, start);
    LedgerRun(M, start, acts);
    RestFacts(M, Run(M, start, acts), id, n);
  }

  lemma RestFacts(M: MaxAttempts, s: Sys, id: Uuid, n: nat)
    requires Base(M, s) && Ledger(M, s) && BornWith(s, id, n)
    requires s.main == [] && s.retry == [] && (forall q :: q in s.procs ==> q == Idle) && s.log.enqueued[id] > 0
    ensures s.log.redriven[id] == n / M <==> s.events[id].status == Processed
    ensures s.log.redriven[id] < n / M <==> Msg(id, M) in s.dlq
  {
    RedriveFacts(M, s, id, n);
    assert Balances(s, id) && Finished(s, id) && EnqueuedOnce(s, id);
    SumZero(s.procs, Carried(id));
    SumAtLeast(s.procs, 0, Announces(id));
    if s.log.completed[id] == 0 {
      var k := SumWitness(s.dlq, IsFor(id));
      assert s.dlq[k] in s.dlq && GoodMsg(M, s, Dlq, s.dlq[k]) && Tried(M, s, s.dlq[k]);
    }
  }
}
