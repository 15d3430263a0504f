/** Lanes and table agree, in clean runs, exactly as long as no redrive request marks an event that has
    been dead-lettered again, and no last attempt loads a failed row that is then marked before the
    commit (app/routers/webhooks.py:246-247 publishes first and marks afterwards). */
module Agreement {
  import opened Lifecycle
  import opened Sums
  import opened Protocol
  import opened Safety
  import opened Intake
  import opened RowLaw
  import opened Outcome
  import opened Fates
  import opened CleanRuns

  predicate RedriveActive(q: Proc) {
    q.Redriving? || RedriveHolds(q)
  }

  /** The ids a redrive request has put back into the main lane and not yet marked pending. */
  predicate Unmarked(q: Proc, id: Uuid) {
    RedriveActive(q) && (id in q.redriven || (q.Republished? && q.m.id == id))
  }

  // ---------------------------------------------------------------- agreement

  ghost predicate Has(s: Sys, m: Msg, status: Status) {
    m.id in s.events && s.events[m.id].status == status
  }

  ghost predicate MainAgrees(s: Sys, m: Msg) {
    Has(s, m, Pending) || (Has(s, m, Failed) && exists q :: q in s.procs && Unmarked(q, m.id))
  }

  ghost predicate ProcAgrees(M: MaxAttempts, s: Sys, q: Proc) {
    && (q.Faulted? ==> Has(s, q.m, StatusAfterFault(FinalAttempt(M, q.m))))
    && (q.RedriveHolding? ==> Has(s, q.m, Failed))
  }

  /** Messages in retry belong to pending events, and so do those in main, but for redriven events that
      are still to be marked; dead letters belong to failed events, and so do the messages of workers
      and redrive requests that are on their way from or to the dead letters. */
  ghost predicate Agrees(M: MaxAttempts, s: Sys) {
    && (forall m :: m in s.main ==> MainAgrees(s, m))
    && (forall m :: m in s.retry ==> Has(s, m, Pending))
    && (forall m :: m in s.dlq ==> Has(s, m, Failed))
    && (forall q :: q in s.procs ==> ProcAgrees(M, s, q))
  }

  // ---------------------------------------------------------------- the guards

  /** The slot holds a message that comes from the dead letters or is bound for them. */
  predicate HoldsDead(M: MaxAttempts, q: Proc) {
    (q.Faulted? && FinalAttempt(M, q.m)) || q.RedriveHolding?
  }

  /** Nothing that the request is about to mark has been dead-lettered again. */
  ghost predicate MarkGuard(M: MaxAttempts, s: Sys, p: nat)
    requires CanRedrive(s, p, Mark)
  {
    forall id :: id in s.procs[p].redriven ==>
      && (forall m :: m in s.dlq ==> m.id != id)
      && (forall q :: q in s.procs && HoldsDead(M, q) ==> q.m.id != id)
  }

  /** A last attempt that loaded a failed row and fails finds the row still failed. */
  predicate CommitGuard(M: MaxAttempts, s: Sys, p: nat)
    requires CanWork(s, p, Commit)
  {
    var q := s.procs[p];
    FinalAttempt(M, q.m) && !Succeeds(q.row) && q.row.status == Failed ==> s.events[q.m.id].status == Failed
  }

  ghost predicate Guarded(M: MaxAttempts, s: Sys, a: Action)
    requires Enabled(s, a)
  {
    && (a.Redrive? && a.redrive.Mark? ==> MarkGuard(M, s, a.p))
    && (a.Work? && a.work.Commit? ==> CommitGuard(M, s, a.p))
  }

  // ---------------------------------------------------------------- attempts

  lemma AttemptStatus(M: MaxAttempts, s: Sys, p: nat, op: WorkerOp)
    requires Orderly(StampLaw, s) && Current(s) && CanWork(s, p, op) && (op.Process? || op.Commit?)
    requires s.procs[p].m.id in s.events && !Succeeds(s.events[s.procs[p].m.id])
    ensures Has(DoWork(M, s, p, op), s.procs[p].m, StatusAfterFault(FinalAttempt(M, s.procs[p].m))) <==>
            op.Process? || CommitGuard(M, s, p)
  {
    var q := s.procs[p];
    if op.Commit? {
      assert q in s.procs && Meets(StampLaw, s.log.born[q.m.id], q.row);
      WrittenUpToDate(s.log.born[q.m.id], s.events[q.m.id], q.row, FinalAttempt(M, q.m));
    }
  }

  /** An attempt that leaves the status it should leave. */
  lemma AgreesAttempted(M: MaxAttempts, s: Sys, p: nat, t: Sys)
    requires Agrees(M, s) && OneEach(s) && Attempted(s, p, t) && ProcAgrees(M, t, t.procs[p])
    ensures Agrees(M, t)
  {
    OnlyCarrier(s, p);
    forall q | q in s.procs && RedriveActive(q) ensures q in t.procs {
      var r :| 0 <= r < |s.procs| && s.procs[r] == q;
      assert t.procs[r] == q;
    }
    forall m | m in t.main ensures MainAgrees(t, m) { assert MainAgrees(s, m); }
    forall q | q in t.procs ensures ProcAgrees(M, t, q) {
      var r :| 0 <= r < |t.procs| && t.procs[r] == q;
      if r != p { assert s.procs[r] in s.procs && ProcAgrees(M, s, q); }
    }
  }

  lemma AgreesAttempt(M: MaxAttempts, s: Sys, p: nat, op: WorkerOp)
    requires Base(M, s) && Agrees(M, s) && OneEach(s) && CanWork(s, p, op) && (op.Process? || op.Commit?)
    ensures Agrees(M, DoWork(M, s, p, op)) <==> op.Process? || CommitGuard(M, s, p)
  {
    hide Agrees, OneEach, DoWork, CommitGuard, Written, Attempt;
    var t, m := DoWork(M, s, p, op), s.procs[p].m;
    AttemptedWork(M, s, p, op);
    if Succeeds(s.events[m.id]) {
      CommitGuardOnSuccess(M, s, p, op);
    } else {
      AttemptStatus(M, s, p, op);
    }
    if ProcAgrees(M, t, t.procs[p]) {
      AgreesAttempted(M, s, p, t);
    } else {
      assert t.procs[p] in t.procs;
      DisagreesAt(M, t, p);
    }
  }

  lemma DisagreesAt(M: MaxAttempts, t: Sys, p: nat)
    requires p < |t.procs| && !ProcAgrees(M, t, t.procs[p])
    ensures !Agrees(M, t)
  {
    assert t.procs[p] in t.procs;
  }

  lemma CommitGuardOnSuccess(M: MaxAttempts, s: Sys, p: nat, op: WorkerOp)
    requires Current(s) && CanWork(s, p, op) && (op.Process? || op.Commit?)
    requires s.procs[p].m.id in s.events && Succeeds(s.events[s.procs[p].m.id])
    ensures op.Commit? ==> CommitGuard(M, s, p)
  {
  }

  // ---------------------------------------------------------------- marks

  lemma AgreesMark(M: MaxAttempts, s: Sys, p: nat)
    requires Agrees(M, s) && CanRedrive(s, p, Mark) && MarkGuard(M, s, p)
    ensures Agrees(M, DoRedrive(s, p, Mark))
  {
    var t := DoRedrive(s, p, Mark);
    var ids := s.procs[p].redriven;
    forall m | m in t.main ensures MainAgrees(t, m) {
      assert MainAgrees(s, m);
      if m.id !in ids && !Has(s, m, Pending) {
        var q :| q in s.procs && Unmarked(q, m.id);
        var r :| 0 <= r < |s.procs| && s.procs[r] == q;
        assert t.procs[r] == q;
      }
    }
    forall q | q in t.procs ensures ProcAgrees(M, t, q) {
      if q in s.procs { assert ProcAgrees(M, s, q); }
    }
  }

  /** A mark that its guard forbids makes a dead letter's event pending. */
  lemma MarkDisagrees(M: MaxAttempts, s: Sys, p: nat)
    requires Agrees(M, s) && CanRedrive(s, p, Mark) && !MarkGuard(M, s, p)
    ensures !Agrees(M, DoRedrive(s, p, Mark))
  {
    var t := DoRedrive(s, p, Mark);
    var ids := s.procs[p].redriven;
    if m :| m in s.dlq && m.id in ids {
      assert Has(s, m, Failed) && m in t.dlq && !Has(t, m, Failed);
    } else {
      var q :| q in s.procs && HoldsDead(M, q) && q.m.id in ids;
      var r :| 0 <= r < |s.procs| && s.procs[r] == q;
      assert ProcAgrees(M, s, q) && Has(s, q.m, Failed);
      assert t.procs[r] == q && !ProcAgrees(M, t, q);
    }
  }

  // ---------------------------------------------------------------- all other steps

  /** A step that leaves the rows of existing messages alone and makes no request forget an unmarked id. */
  ghost predicate LeavesAlone(s: Sys, t: Sys) {
    && (forall id :: id in s.events ==> id in t.events && t.events[id] == s.events[id])
    && (forall q, id :: q in s.procs && Unmarked(q, id) ==> exists r :: r in t.procs && Unmarked(r, id))
  }

  ghost predicate Joins(M: MaxAttempts, s: Sys, a: Action, t: Sys)
    requires Enabled(s, a)
  {
    && (Put(M, s, a).Some? ==>
          var Spot(lane, m) := Put(M, s, a).value;
          match lane
          case Main => MainAgrees(t, m)
          case Retry => Has(t, m, Pending)
          case Dlq => Has(t, m, Failed))
    && (!a.Expire? ==> a.p < |t.procs| && ProcAgrees(M, t, t.procs[a.p]))
  }

  lemma AgreesFrame(M: MaxAttempts, s: Sys, a: Action, t: Sys)
    requires Agrees(M, s) && Enabled(s, a) && Gains(M, s, a, t) && LeavesAlone(s, t) && Joins(M, s, a, t)
    ensures Agrees(M, t)
  {
    forall m | m in t.main ensures MainAgrees(t, m) {
      if m in s.main { assert MainAgrees(s, m); }
    }
    forall q | q in t.procs ensures ProcAgrees(M, t, q) {
      if q in s.procs { assert ProcAgrees(M, s, q); }
    }
  }

  /** Slots other than `p` stand still, and slot `p` forgets no unmarked id. */
  lemma KeepsUnmarked(s: Sys, p: nat, t: Sys)
    requires p < |s.procs| == |t.procs| && t.procs == s.procs[p := t.procs[p]]
    requires forall id :: Unmarked(s.procs[p], id) ==> Unmarked(t.procs[p], id)
    ensures forall q, id :: q in s.procs && Unmarked(q, id) ==> exists r :: r in t.procs && Unmarked(r, id)
  {
    forall q, id | q in s.procs && Unmarked(q, id) ensures exists r :: r in t.procs && Unmarked(r, id) {
      var k :| 0 <= k < |s.procs| && s.procs[k] == q;
      assert t.procs[k] in t.procs && Unmarked(t.procs[k], id);
    }
  }

  lemma AgreesWork(M: MaxAttempts, s: Sys, p: nat, op: WorkerOp)
    requires Agrees(M, s) && CanWork(s, p, op) && !op.Process? && !op.Commit?
    ensures Agrees(M, DoWork(M, s, p, op))
  {
    var t := DoWork(M, s, p, op);
    assert ProcAgrees(M, s, s.procs[p]);
    KeepsUnmarked(s, p, t);
    FootprintWork(M, s, p, op);
    AgreesFrame(M, s, Work(p, op), t);
  }

  lemma AgreesRedrive(M: MaxAttempts, s: Sys, p: nat, op: RedriveOp)
    requires Agrees(M, s) && CanRedrive(s, p, op) && !op.Mark?
    ensures Agrees(M, DoRedrive(s, p, op))
  {
    var t := DoRedrive(s, p, op);
    assert ProcAgrees(M, s, s.procs[p]);
    if op.Get? && s.dlq != [] { assert Has(s, s.dlq[0], Failed); }
    KeepsUnmarked(s, p, t);
    if op.Republish? {
      assert Unmarked(t.procs[p], s.procs[p].m.id) && t.procs[p] in t.procs;
    }
    FootprintRedrive(M, s, p, op);
    AgreesFrame(M, s, Redrive(p, op), t);
  }

  lemma ApiIdle(s: Sys, p: nat, op: ApiOp)
    requires CanApi(s, p, op)
    ensures !RedriveActive(s.procs[p]) && !RedriveActive(DoApi(s, p, op).procs[p])
  {
  }

  lemma AgreesApi(M: MaxAttempts, s: Sys, p: nat, op: ApiOp)
    requires Agrees(M, s) && CanApi(s, p, op)
    ensures Agrees(M, DoApi(s, p, op))
  {
    var t := DoApi(s, p, op);
    ApiFrame(s, p, op);
    ApiRows(s, p, op);
    ApiIdle(s, p, op);
    KeepsUnmarked(s, p, t);
    FootprintApi(M, s, p, op);
    AgreesFrame(M, s, Api(p, op), t);
  }

  lemma AgreesEnqueue(M: MaxAttempts, s: Sys, p: nat, outcome: PublishResult)
    requires Agrees(M, s) && CanEnqueue(s, p) && Has(s, Msg(s.procs[p].id, 1), Pending)
    ensures Agrees(M, DoEnqueue(s, p, outcome))
  {
    var t := DoEnqueue(s, p, outcome);
    KeepsUnmarked(s, p, t);
    Footprint(M, s, Enqueue(p, outcome));
    AgreesFrame(M, s, Enqueue(p, outcome), t);
  }

  lemma AgreesExpire(M: MaxAttempts, s: Sys)
    requires Agrees(M, s) && s.retry != []
    ensures Agrees(M, DoExpire(s))
  {
    assert Has(s, s.retry[0], Pending);
    Footprint(M, s, Expire);
    AgreesFrame(M, s, Expire, DoExpire(s));
  }

  lemma FirstEnqueuePending(s: Sys, p: nat)
    requires RowsMeet(StampLaw, s) && Single(s) && StrandedUntouched(s) && CanEnqueue(s, p)
    ensures Has(s, Msg(s.procs[p].id, 1), Pending)
  {
    var id := s.procs[p].id;
    assert s.procs[p] in s.procs;
    assert EnqueuedOnce(s, id);
    SumAtLeast(s.procs, p, Announces(id));
    assert IsNew(s.log.born[id]);
  }

  // ---------------------------------------------------------------- exactly when they agree

  lemma AgreesStep(M: MaxAttempts, s: Sys, a: Action)
    requires Base(M, s) && Agrees(M, s) && Enabled(s, a) && Clean(a)
    ensures Agrees(M, Apply(M, s, a)) <==> Guarded(M, s, a)
  {
    hide Agrees, MarkGuard, CommitGuard, DoWork, DoRedrive, DoApi;
    SingleMeansOneEach(s);
    match a
    case Work(p, op) =>
      if op.Process? || op.Commit? { AgreesAttempt(M, s, p, op); } else { AgreesWork(M, s, p, op); }
    case Redrive(p, op) =>
      if !op.Mark? { AgreesRedrive(M, s, p, op); }
      else if MarkGuard(M, s, p) { AgreesMark(M, s, p); }
      else { MarkDisagrees(M, s, p); }
    case Api(p, op) => AgreesApi(M, s, p, op);
    case Enqueue(p, outcome) => FirstEnqueuePending(s, p); AgreesEnqueue(M, s, p, outcome);
    case Expire => AgreesExpire(M, s);
  }

  ghost predicate GuardedRun(M: MaxAttempts, s: Sys, acts: seq<Action>)
    requires IsRun(M, s, acts)
    decreases |acts|
  {
    acts == [] || (Guarded(M, s, acts[0]) && GuardedRun(M, Apply(M, s, acts[0]), acts[1..]))
  }

  /** Lanes and table agree at every point of the run. */
  ghost predicate AlwaysAgrees(M: MaxAttempts, s: Sys, acts: seq<Action>)
    requires IsRun(M, s, acts)
    decreases |acts|
  {
    Agrees(M, s) && (acts == [] || AlwaysAgrees(M, Apply(M, s, acts[0]), acts[1..]))
  }

  lemma {:induction false} AgreesFrom(M: MaxAttempts, s: Sys, acts: seq<Action>)
    requires Base(M, s) && Agrees(M, s) && IsRun(M, s, acts) && AllClean(acts)
    ensures AlwaysAgrees(M, s, acts) <==> GuardedRun(M, s, acts)
    ensures GuardedRun(M, s, acts) ==> Agrees(M, Run(M, s, acts))
    decreases |acts|
  {
    hide Base, Agrees, Guarded;
    if acts != [] {
      assert acts[0] in acts;
      BaseStep(M, s, acts[0]);
      AgreesStep(M, s, acts[0]);
      if Guarded(M, s, acts[0]) { AgreesFrom(M, Apply(M, s, acts[0]), acts[1..]); }
    }
  }

  /** In a run without crash and manual retry, lanes and table agree throughout just when every mark
      spares what has been dead-lettered again, and every last attempt commits over the status it
      loaded. */
  lemma AgreesExactly(M: MaxAttempts, start: Sys, acts: seq<Action>)
    requires Initial(start) && IsRun(M, start, acts) && AllClean(acts)
    ensures AlwaysAgrees(M, start, acts) <==> GuardedRun(M, start, acts)
  {
    InitialLedger(M, start);
    AgreesFrom(M, start, acts);
  }

  // ---------------------------------------------------------------- patient runs

  /** No worker dequeues while a redrive request is between its start and its mark. */
  ghost predicate Patient(s: Sys, a: Action) {
    a.Work? && a.work.Dequeue? ==> forall q :: q in s.procs ==> !RedriveActive(q)
  }

  ghost predicate PatientRun(M: MaxAttempts, s: Sys, acts: seq<Action>)
    requires IsRun(M, s, acts)
    decreases |acts|
  {
    acts == [] || (Patient(s, acts[0]) && PatientRun(M, Apply(M, s, acts[0]), acts[1..]))
  }

  ghost predicate InMain(s: Sys, id: Uuid) {
    exists m :: m in s.main && m.id == id
  }

  ghost predicate ProcUnmoved(s: Sys, q: Proc) {
    && (forall id :: Unmarked(q, id) ==> InMain(s, id))
    && (q.Holding? ==> Has(s, q.m, Pending))
    && (q.Loaded? ==> q.row.status == Pending)
  }

  /** What a redrive request has put back and not yet marked is still in the main lane, and attempts are
      made on pending rows. */
  ghost predicate Unmoved(s: Sys) {
    forall q :: q in s.procs ==> ProcUnmoved(s, q)
  }

  /** No event has copies in two places. */
  lemma PlacesDisjoint(s: Sys, id: Uuid)
    requires OneEach(s) && InMain(s, id)
    ensures forall m :: m in s.retry || m in s.dlq ==> m.id != id
    ensures forall q :: q in s.procs && Carries(q) ==> q.m.id != id
  {
    LaneSums(s, id);
    assert Copies(s, id) <= 1;
  }

  lemma UnmovedMeetsGuards(M: MaxAttempts, s: Sys, a: Action)
    requires Unmoved(s) && OneEach(s) && Enabled(s, a)
    ensures Guarded(M, s, a)
  {
    if !a.Expire? { assert a.p < |s.procs| && ProcUnmoved(s, s.procs[a.p]); }
    if a.Redrive? && a.redrive.Mark? {
      forall id | id in s.procs[a.p].redriven
        ensures forall m :: m in s.dlq ==> m.id != id
        ensures forall q :: q in s.procs && HoldsDead(M, q) ==> q.m.id != id
      {
        assert Unmarked(s.procs[a.p], id);
        PlacesDisjoint(s, id);
      }
    }
  }

  /** The slot that an action moves stays unmoved in the sense above, and so do the others. */
  lemma UnmovedFrame(M: MaxAttempts, s: Sys, a: Action, t: Sys)
    requires Unmoved(s) && Enabled(s, a) && Gains(M, s, a, t)
    requires forall id :: InMain(s, id) ==> InMain(t, id)
    requires forall q :: q in s.procs && q in t.procs && q.Holding? && Has(s, q.m, Pending) ==> Has(t, q.m, Pending)
    requires !a.Expire? ==> a.p < |t.procs| && ProcUnmoved(t, t.procs[a.p])
    ensures Unmoved(t)
  {
    forall q | q in t.procs ensures ProcUnmoved(t, q) {
      if q in s.procs { assert ProcUnmoved(s, q); }
    }
  }

  lemma UnmovedDequeue(M: MaxAttempts, s: Sys, p: nat)
    requires Unmoved(s) && Agrees(M, s) && CanWork(s, p, Dequeue) && Patient(s, Work(p, Dequeue))
    ensures Unmoved(DoWork(M, s, p, Dequeue))
  {
    var t := DoWork(M, s, p, Dequeue);
    assert MainAgrees(s, s.main[0]);
    forall q | q in t.procs ensures ProcUnmoved(t, q) {
      if q in s.procs { assert ProcUnmoved(s, q) && !RedriveActive(q); }
    }
  }

  lemma UnmovedWork(M: MaxAttempts, s: Sys, p: nat, op: WorkerOp)
    requires Unmoved(s) && OneEach(s) && CanWork(s, p, op) && !op.Dequeue?
    ensures Unmoved(DoWork(M, s, p, op))
  {
    hide Attempt, Written;
    var t := DoWork(M, s, p, op);
    assert ProcUnmoved(s, s.procs[p]);
    if Carries(s.procs[p]) { OnlyCarrier(s, p); }
    forall q | q in t.procs ensures ProcUnmoved(t, q) {
      var r :| 0 <= r < |t.procs| && t.procs[r] == q;
      if r != p { assert s.procs[r] in s.procs && ProcUnmoved(s, q); }
      forall id | Unmarked(q, id) ensures InMain(t, id) { assert InMain(s, id); }
    }
  }

  lemma UnmovedRedrive(M: MaxAttempts, s: Sys, p: nat, op: RedriveOp)
    requires Unmoved(s) && CanRedrive(s, p, op)
    ensures Unmoved(DoRedrive(s, p, op))
  {
    var t := DoRedrive(s, p, op);
    assert ProcUnmoved(s, s.procs[p]);
    forall id | InMain(s, id) ensures InMain(t, id) {
      var m :| m in s.main && m.id == id;
      assert m in t.main;
    }
    if op.Republish? { assert Msg(s.procs[p].m.id, 1) in t.main; }
    forall id | Unmarked(t.procs[p], id) ensures InMain(t, id) {
      assert Unmarked(s.procs[p], id) || (op.Republish? && id == s.procs[p].m.id);
    }
    FootprintRedrive(M, s, p, op);
    UnmovedFrame(M, s, Redrive(p, op), t);
  }

  lemma UnmovedOther(M: MaxAttempts, s: Sys, a: Action)
    requires Unmoved(s) && Enabled(s, a) && !a.Work? && !a.Redrive? && !a.Crash?
    ensures Unmoved(Apply(M, s, a))
  {
    var t := Apply(M, s, a);
    if a.Api? {
      ApiFrame(s, a.p, a.api);
      ApiRows(s, a.p, a.api);
      ApiIdle(s, a.p, a.api);
    }
    forall id | InMain(s, id) ensures InMain(t, id) {
      var m :| m in s.main && m.id == id;
      assert m in t.main;
    }
    Footprint(M, s, a);
    UnmovedFrame(M, s, a, t);
  }

  lemma {:induction false} PatientFrom(M: MaxAttempts, s: Sys, acts: seq<Action>)
    requires Base(M, s) && Agrees(M, s) && Unmoved(s)
    requires IsRun(M, s, acts) && AllClean(acts) && PatientRun(M, s, acts)
    ensures GuardedRun(M, s, acts)
    decreases |acts|
  {
    hide Agrees, Unmoved, Guarded, Patient;
    if acts != [] {
      var a := acts[0];
      assert a in acts;
      SingleMeansOneEach(s);
      UnmovedMeetsGuards(M, s, a);
      AgreesStep(M, s, a);
      BaseStep(M, s, a);
      match a {
        case Work(p, op) => if op.Dequeue? { UnmovedDequeue(M, s, p); } else { UnmovedWork(M, s, p, op); }
        case Redrive(p, op) => UnmovedRedrive(M, s, p, op);
        case _ => UnmovedOther(M, s, a);
      }
      PatientFrom(M, Apply(M, s, a), acts[1..]);
    }
  }

  /** It is enough that no worker dequeues while a redrive request is open. */
  lemma PatientMeetsGuards(M: MaxAttempts, start: Sys, acts: seq<Action>)
    requires Initial(start) && IsRun(M, start, acts) && AllClean(acts) && PatientRun(M, start, acts)
    ensures GuardedRun(M, start, acts)
  {
    InitialLedger(M, start);
    PatientFrom(M, start, acts);
  }
}
