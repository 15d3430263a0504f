/** What every run keeps, whatever is interleaved, duplicated or crashed: attempt numbers in range,
    conservation of copies, no loss of an enqueued event, and idempotent intake. Loading and
    committing a row are separate steps here, so workers may race on one row. */
module Safety {
  import opened Lifecycle
  import opened Sums
  import opened Protocol

  // ---------------------------------------------------------------- copies of an event

  function IsFor(id: Uuid): Msg -> int {
    (m: Msg) => if m.id == id then 1 else 0
  }

  /** The slot holds a message that it has not acknowledged and not yet published anew. */
  predicate Carries(q: Proc) {
    q.Holding? || q.Loaded? || q.Succeeded? || q.Faulted? || q.RedriveHolding?
  }

  function Carried(id: Uuid): Proc -> int {
    (q: Proc) => if Carries(q) && q.m.id == id then 1 else 0
  }

  function CopyOf(id: Uuid): Weights {
    Weights(IsFor(id), IsFor(id), IsFor(id), Carried(id))
  }

  /** The copies of `id` in the three lanes and in the hands of workers and redrive requests. */
  function Copies(s: Sys, id: Uuid): int {
    Total(CopyOf(id), s)
  }

  /** The slot is still bound to process its message, or to hand it on. A worker that loaded a
      processed row is not: its commit leaves the status column alone. */
  predicate Obliged(q: Proc) {
    q.Holding? || q.Faulted? || q.RedriveHolding? || (q.Loaded? && q.row.status != Processed)
  }

  function OwedBy(id: Uuid): Proc -> int {
    (q: Proc) => if Obliged(q) && q.m.id == id then 1 else 0
  }

  function DebtOf(id: Uuid): Weights {
    Weights(IsFor(id), IsFor(id), IsFor(id), OwedBy(id))
  }

  function Debts(s: Sys, id: Uuid): int {
    Total(DebtOf(id), s)
  }

  ghost predicate Waiting(s: Sys, id: Uuid) {
    || (exists k :: 0 <= k < |s.main| && s.main[k].id == id)
    || (exists k :: 0 <= k < |s.retry| && s.retry[k].id == id)
    || (exists k :: 0 <= k < |s.dlq| && s.dlq[k].id == id)
    || (exists p :: 0 <= p < |s.procs| && Obliged(s.procs[p]) && s.procs[p].m.id == id)
  }

  lemma DebtsNonNegative(s: Sys, id: Uuid)
    ensures Debts(s, id) >= 0 && Copies(s, id) >= 0
  {
    SumAtLeast(s.main, 0, IsFor(id));
    SumAtLeast(s.retry, 0, IsFor(id));
    SumAtLeast(s.dlq, 0, IsFor(id));
    SumAtLeast(s.procs, 0, OwedBy(id));
    SumAtLeast(s.procs, 0, Carried(id));
  }

  lemma OwedAt(s: Sys, p: nat, id: Uuid)
    requires p < |s.procs| && Obliged(s.procs[p]) && s.procs[p].m.id == id
    ensures Debts(s, id) > 0
  {
    SumAtLeast(s.main, 0, IsFor(id));
    SumAtLeast(s.retry, 0, IsFor(id));
    SumAtLeast(s.dlq, 0, IsFor(id));
    SumAtLeast(s.procs, p, OwedBy(id));
  }

  lemma DebtWitness(s: Sys, id: Uuid)
    requires Debts(s, id) > 0
    ensures Waiting(s, id)
  {
    if Sum(s.main, IsFor(id)) > 0 {
      var k := SumWitness(s.main, IsFor(id));
    } else if Sum(s.retry, IsFor(id)) > 0 {
      var k := SumWitness(s.retry, IsFor(id));
    } else if Sum(s.dlq, IsFor(id)) > 0 {
      var k := SumWitness(s.dlq, IsFor(id));
    } else {
      var p := SumWitness(s.procs, OwedBy(id));
    }
  }

  // ---------------------------------------------------------------- invariants

  /** A message refers to an enqueued event and carries an attempt number that fits its lane. */
  ghost predicate GoodMsg(M: MaxAttempts, s: Sys, lane: Lane, m: Msg) {
    s.log.enqueued[m.id] > 0 &&
    match lane
    case Main => 1 <= m.attempt <= M
    case Retry => 2 <= m.attempt <= M
    case Dlq => m.attempt == M
  }

  ghost predicate GoodIds(s: Sys, ids: seq<Uuid>) {
    forall id :: id in ids ==> s.log.enqueued[id] > 0
  }

  ghost predicate GoodProc(M: MaxAttempts, s: Sys, q: Proc) {
    match q
    case Redriving(_, ids) => GoodIds(s, ids)
    case RedriveHolding(_, ids, m) => GoodIds(s, ids) && GoodMsg(M, s, Dlq, m)
    case Republished(_, ids, m) => GoodIds(s, ids) && GoodMsg(M, s, Dlq, m)
    case Inserted(id) => id in s.events
    case RetryChecked(id) => id in s.events
    case _ => WorkerHolds(q) ==> GoodMsg(M, s, Main, q.m)
  }

  ghost predicate Tidy(M: MaxAttempts, s: Sys) {
    && s.log.born.Keys == s.events.Keys
    && (forall id :: s.log.enqueued[id] > 0 ==> id in s.events)
    && (forall m :: m in s.main ==> GoodMsg(M, s, Main, m))
    && (forall m :: m in s.retry ==> GoodMsg(M, s, Retry, m))
    && (forall m :: m in s.dlq ==> GoodMsg(M, s, Dlq, m))
    && (forall q :: q in s.procs ==> GoodProc(M, s, q))
  }

  /** Copies of `id` are its enqueues and its interrupted hand-overs, less its completions. */
  ghost predicate Balances(s: Sys, id: Uuid) {
    Copies(s, id) + s.log.completed[id] == s.log.enqueued[id] + s.log.interrupted[id]
  }

  ghost predicate Safe(s: Sys, id: Uuid) {
    s.log.enqueued[id] > 0 ==> id in s.events && (s.events[id].status == Processed || Debts(s, id) > 0)
  }

  // ---------------------------------------------------------------- preservation

  /** What an action brings is good, and the log and the table only grow. */
  ghost predicate BringsGood(M: MaxAttempts, s: Sys, a: Action, t: Sys)
    requires Enabled(s, a)
  {
    && s.events.Keys <= t.events.Keys
    && t.log.born.Keys == t.events.Keys
    && (forall id :: s.log.enqueued[id] <= t.log.enqueued[id])
    && (forall id :: t.log.enqueued[id] > 0 ==> id in t.events)
    && (Put(M, s, a).Some? ==> GoodMsg(M, t, Put(M, s, a).value.lane, Put(M, s, a).value.m))
    && (!a.Expire? ==> a.p < |t.procs| && GoodProc(M, t, t.procs[a.p]))
  }

  lemma BringsGoodWork(M: MaxAttempts, s: Sys, p: nat, op: WorkerOp)
    requires Tidy(M, s) && CanWork(s, p, op)
    ensures BringsGood(M, s, Work(p, op), DoWork(M, s, p, op))
  {
    assert GoodProc(M, s, s.procs[p]);
    if op.Dequeue? { assert s.main[0] in s.main; }
  }

  lemma BringsGoodRedrive(M: MaxAttempts, s: Sys, p: nat, op: RedriveOp)
    requires Tidy(M, s) && CanRedrive(s, p, op)
    ensures BringsGood(M, s, Redrive(p, op), DoRedrive(s, p, op))
  {
    assert GoodProc(M, s, s.procs[p]);
    if op.Get? && s.dlq != [] { assert s.dlq[0] in s.dlq; }
  }

  lemma BringsGoodApi(M: MaxAttempts, s: Sys, p: nat, op: ApiOp)
    requires Tidy(M, s) && CanApi(s, p, op)
    ensures BringsGood(M, s, Api(p, op), DoApi(s, p, op))
  {
    assert GoodProc(M, s, s.procs[p]);
    ApiFrame(s, p, op);
    if op.Insert? { InsertGood(M, s, p, op.id); }
  }

  lemma InsertGood(M: MaxAttempts, s: Sys, p: nat, id: Uuid)
    requires Tidy(M, s) && CanApi(s, p, Insert(id))
    ensures BringsGood(M, s, Api(p, Insert(id)), DoApi(s, p, Insert(id)))
  {
  }

  lemma BringsGoodEnqueue(M: MaxAttempts, s: Sys, p: nat, outcome: PublishResult)
    requires Tidy(M, s) && CanEnqueue(s, p)
    ensures BringsGood(M, s, Enqueue(p, outcome), DoEnqueue(s, p, outcome))
  {
    assert GoodProc(M, s, s.procs[p]);
  }

  lemma BringsGoodCrash(M: MaxAttempts, s: Sys, p: nat, at: nat)
    requires Tidy(M, s) && CanCrash(s, p, at)
    ensures BringsGood(M, s, Crash(p, at), DoCrash(s, p, at))
  {
    assert GoodProc(M, s, s.procs[p]);
  }

  lemma GoodStays(M: MaxAttempts, s: Sys, a: Action, t: Sys)
    requires Tidy(M, s) && Enabled(s, a) && Gains(M, s, a, t) && BringsGood(M, s, a, t)
    ensures Tidy(M, t)
  {
  }

  lemma TidyStep(M: MaxAttempts, s: Sys, a: Action)
    requires Tidy(M, s) && Enabled(s, a)
    ensures Tidy(M, Apply(M, s, a))
  {
    match a {
      case Work(p, op) => BringsGoodWork(M, s, p, op);
      case Redrive(p, op) => BringsGoodRedrive(M, s, p, op);
      case Api(p, op) => BringsGoodApi(M, s, p, op);
      case Enqueue(p, outcome) => BringsGoodEnqueue(M, s, p, outcome);
      case Expire => assert s.retry[0] in s.retry;
      case Crash(p, at) => BringsGoodCrash(M, s, p, at);
    }
    Footprint(M, s, a);
    GoodStays(M, s, a, Apply(M, s, a));
  }

  lemma BalancesWork(M: MaxAttempts, s: Sys, p: nat, op: WorkerOp, id: Uuid)
    requires CanWork(s, p, op) && Balances(s, id)
    ensures Balances(DoWork(M, s, p, op), id)
  {
    hide Sum, Attempt, Written;
    BalanceWork(M, CopyOf(id), s, p, op);
  }

  lemma BalancesRedrive(M: MaxAttempts, s: Sys, p: nat, op: RedriveOp, id: Uuid)
    requires CanRedrive(s, p, op) && Balances(s, id)
    ensures Balances(DoRedrive(s, p, op), id)
  {
    hide Sum, MarkAll;
    BalanceRedrive(M, CopyOf(id), s, p, op);
  }

  lemma BalancesApi(M: MaxAttempts, s: Sys, p: nat, op: ApiOp, id: Uuid)
    requires CanApi(s, p, op) && Balances(s, id)
    ensures Balances(DoApi(s, p, op), id)
  {
    ApiFrame(s, p, op);
    SumUpdate(s.procs, p, DoApi(s, p, op).procs[p], Carried(id));
  }

  lemma BalancesEnqueue(M: MaxAttempts, s: Sys, p: nat, outcome: PublishResult, id: Uuid)
    requires CanEnqueue(s, p) && Balances(s, id)
    ensures Balances(DoEnqueue(s, p, outcome), id)
  {
    BalanceEnqueue(M, CopyOf(id), s, p, outcome);
  }

  lemma BalancesCrash(M: MaxAttempts, s: Sys, p: nat, at: nat, id: Uuid)
    requires CanCrash(s, p, at) && Balances(s, id)
    ensures Balances(DoCrash(s, p, at), id)
  {
    BalanceCrash(M, CopyOf(id), s, p, at);
  }

  lemma BalancesStep(M: MaxAttempts, s: Sys, a: Action, id: Uuid)
    requires Enabled(s, a) && Balances(s, id)
    ensures Balances(Apply(M, s, a), id)
  {
    match a
    case Work(p, op) => BalancesWork(M, s, p, op, id);
    case Redrive(p, op) => BalancesRedrive(M, s, p, op, id);
    case Api(p, op) => BalancesApi(M, s, p, op, id);
    case Enqueue(p, outcome) => BalancesEnqueue(M, s, p, outcome, id);
    case Expire => Balance(M, CopyOf(id), s, a);
    case Crash(p, at) => BalancesCrash(M, s, p, at, id);
  }

  lemma SafeWork(M: MaxAttempts, s: Sys, p: nat, op: WorkerOp, id: Uuid)
    requires Tidy(M, s) && CanWork(s, p, op) && Safe(s, id)
    ensures Safe(DoWork(M, s, p, op), id)
  {
    assert GoodProc(M, s, s.procs[p]);
    BalanceWork(M, DebtOf(id), s, p, op);
    DebtsNonNegative(s, id);
    if op.Process? && s.procs[p].m.id == id { OwedAt(s, p, id); }
    var t := DoWork(M, s, p, op);
    if t.procs[p].Faulted? && t.procs[p].m.id == id { OwedAt(t, p, id); }
  }

  lemma SafeRedrive(M: MaxAttempts, s: Sys, p: nat, op: RedriveOp, id: Uuid)
    requires Tidy(M, s) && CanRedrive(s, p, op) && Safe(s, id)
    ensures Safe(DoRedrive(s, p, op), id)
  {
    BalanceRedrive(M, DebtOf(id), s, p, op);
    DebtsNonNegative(s, id);
  }

  lemma SafeApi(M: MaxAttempts, s: Sys, p: nat, op: ApiOp, id: Uuid)
    requires Tidy(M, s) && CanApi(s, p, op) && Safe(s, id)
    ensures Safe(DoApi(s, p, op), id)
  {
    assert GoodProc(M, s, s.procs[p]);
    ApiFrame(s, p, op);
    SumUpdate(s.procs, p, DoApi(s, p, op).procs[p], OwedBy(id));
  }

  lemma SafeEnqueue(M: MaxAttempts, s: Sys, p: nat, outcome: PublishResult, id: Uuid)
    requires Tidy(M, s) && CanEnqueue(s, p) && Safe(s, id)
    ensures Safe(DoEnqueue(s, p, outcome), id)
  {
    assert GoodProc(M, s, s.procs[p]);
    BalanceEnqueue(M, DebtOf(id), s, p, outcome);
    DebtsNonNegative(s, id);
  }

  lemma SafeCrash(M: MaxAttempts, s: Sys, p: nat, at: nat, id: Uuid)
    requires Tidy(M, s) && CanCrash(s, p, at) && Safe(s, id)
    ensures Safe(DoCrash(s, p, at), id)
  {
    BalanceCrash(M, DebtOf(id), s, p, at);
    DebtsNonNegative(s, id);
  }

  lemma SafeStep(M: MaxAttempts, s: Sys, a: Action, id: Uuid)
    requires Tidy(M, s) && Enabled(s, a) && Safe(s, id)
    ensures Safe(Apply(M, s, a), id)
  {
    match a
    case Work(p, op) => SafeWork(M, s, p, op, id);
    case Redrive(p, op) => SafeRedrive(M, s, p, op, id);
    case Api(p, op) => SafeApi(M, s, p, op, id);
    case Enqueue(p, outcome) => SafeEnqueue(M, s, p, outcome, id);
    case Expire => Balance(M, DebtOf(id), s, a);
    case Crash(p, at) => SafeCrash(M, s, p, at, id);
  }
}
