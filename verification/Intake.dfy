/** Intake is idempotent by delivery id, with any number of requests between their duplicate check
    and their insert (app/routers/webhooks.py:106-146, app/models.py:25-27). */
module Intake {
  import opened Lifecycle
  import opened Sums
  import opened Protocol
  import opened Safety

  function Announces(id: Uuid): Proc -> int {
    (q: Proc) => if q == Inserted(id) then 1 else 0
  }

  /** Acceptances of `id` answered, and still to be answered. */
  function Acceptances(s: Sys, delivery: Option<string>, id: Uuid): int {
    s.log.answers[Accepted(delivery, id)] + Sum(s.procs, Announces(id))
  }

  ghost predicate Named(a: Answer) {
    a.Accepted? || a.Duplicate?
  }

  predicate Names(a: Answer, d: string) {
    (a.Accepted? || a.Duplicate?) && a.delivery == Some(d)
  }

  /** Two rows share no delivery id. */
  ghost predicate DistinctDeliveries(events: map<Uuid, Event>) {
    forall i, j, d: string :: Holds(events, Some(d), i) && Holds(events, Some(d), j) ==> i == j
  }

  /** An answer names the row that has its delivery id. */
  ghost predicate AnswersHold(s: Sys) {
    forall a :: a in s.log.answers && Named(a) ==> Holds(s.events, a.delivery, a.id)
  }

  ghost predicate AcceptedOnce(s: Sys, id: Uuid) {
    forall delivery :: Acceptances(s, delivery, id) <= 1
  }

  ghost predicate IntakeSound(s: Sys) {
    && DistinctDeliveries(s.events)
    && AnswersHold(s)
    && (forall id :: AcceptedOnce(s, id))
  }

  /** Rows keep their delivery id, and none appears. */
  ghost predicate SameDeliveries(before: map<Uuid, Event>, after: map<Uuid, Event>) {
    && before.Keys == after.Keys
    && forall id :: id in before ==> before[id].delivery == after[id].delivery
  }

  lemma WorkRows(M: MaxAttempts, s: Sys, p: nat, op: WorkerOp)
    requires CanWork(s, p, op)
    ensures var t := DoWork(M, s, p, op);
      SameDeliveries(s.events, t.events) && t.log.answers == s.log.answers
  {
  }

  lemma RedriveRows(s: Sys, p: nat, op: RedriveOp)
    requires CanRedrive(s, p, op)
    ensures var t := DoRedrive(s, p, op);
      SameDeliveries(s.events, t.events) && t.log.answers == s.log.answers
  {
  }

  /** Steps that answer nothing. */
  lemma SilentStep(s: Sys, t: Sys, p: nat)
    requires IntakeSound(s) && SameDeliveries(s.events, t.events) && t.log.answers == s.log.answers
    requires p < |s.procs| == |t.procs| && t.procs == s.procs[p := t.procs[p]] && !t.procs[p].Inserted?
    ensures IntakeSound(t)
  {
    forall i, d | Holds(t.events, d, i) ensures Holds(s.events, d, i) {
    }
    forall id ensures AcceptedOnce(t, id) {
      SumUpdate(s.procs, p, t.procs[p], Announces(id));
      assert AcceptedOnce(s, id);
      assert forall delivery :: Acceptances(t, delivery, id) <= Acceptances(s, delivery, id);
    }
  }

  /** Nothing was or will be answered about an id that is not in the table. */
  lemma FreshUnannounced(M: MaxAttempts, s: Sys, delivery: Option<string>, id: Uuid)
    requires Tidy(M, s) && AnswersHold(s) && id !in s.events
    ensures Acceptances(s, delivery, id) == 0
  {
    forall q | q in s.procs ensures Announces(id)(q) == 0 {
      assert GoodProc(M, s, q);
    }
    SumZero(s.procs, Announces(id));
    assert Accepted(delivery, id) !in s.log.answers;
  }

  lemma AcceptedOnceApi(M: MaxAttempts, s: Sys, p: nat, op: ApiOp, id: Uuid)
    requires Tidy(M, s) && IntakeSound(s) && CanApi(s, p, op)
    ensures AcceptedOnce(DoApi(s, p, op), id)
  {
    var t := DoApi(s, p, op);
    ApiFrame(s, p, op);
    SumUpdate(s.procs, p, t.procs[p], Announces(id));
    forall delivery ensures Acceptances(t, delivery, id) <= 1 {
      assert AcceptedOnce(s, id);
      assert Acceptances(s, delivery, id) <= 1;
      assert t.log.answers[Accepted(delivery, id)] == s.log.answers[Accepted(delivery, id)];
      if t.procs[p] == Inserted(id) {
        FreshUnannounced(M, s, delivery, id);
      }
    }
  }

  lemma DistinctAfterInsert(events: map<Uuid, Event>, id: Uuid, row: Event)
    requires DistinctDeliveries(events) && id !in events && !Taken(events, row.delivery)
    ensures DistinctDeliveries(events[id := row])
  {
    var after := events[id := row];
    forall i: Uuid, j: Uuid, d: string | Holds(after, Some(d), i) && Holds(after, Some(d), j) ensures i == j {
      if i != id { assert Holds(events, Some(d), i); }
      if j != id { assert Holds(events, Some(d), j); }
    }
  }

  lemma DeliveriesApi(s: Sys, p: nat, op: ApiOp)
    requires IntakeSound(s) && CanApi(s, p, op)
    ensures DistinctDeliveries(DoApi(s, p, op).events)
    ensures AnswersHold(DoApi(s, p, op))
  {
    var t := DoApi(s, p, op);
    if op.Insert? && t.events != s.events {
      DistinctAfterInsert(s.events, op.id, t.events[op.id]);
    }
    forall a | a in t.log.answers && Named(a) ensures Holds(t.events, a.delivery, a.id) {
      assert a in s.log.answers || op.Receive?;
    }
  }

  lemma IntakeEnqueue(M: MaxAttempts, s: Sys, p: nat, outcome: PublishResult)
    requires Tidy(M, s) && IntakeSound(s) && CanEnqueue(s, p)
    ensures IntakeSound(DoEnqueue(s, p, outcome))
  {
    var t := DoEnqueue(s, p, outcome);
    forall id ensures AcceptedOnce(t, id) {
      SumUpdate(s.procs, p, Idle, Announces(id));
      assert AcceptedOnce(s, id);
      assert forall delivery :: Acceptances(t, delivery, id) <= Acceptances(s, delivery, id);
    }
  }

  lemma IntakeSameProcs(s: Sys, t: Sys)
    requires IntakeSound(s) && t.events == s.events && t.log.answers == s.log.answers && t.procs == s.procs
    ensures IntakeSound(t)
  {
    forall id ensures AcceptedOnce(t, id) {
      assert AcceptedOnce(s, id);
      assert forall delivery :: Acceptances(t, delivery, id) == Acceptances(s, delivery, id);
    }
  }

  lemma IntakeApi(M: MaxAttempts, s: Sys, p: nat, op: ApiOp)
    requires Tidy(M, s) && IntakeSound(s) && CanApi(s, p, op)
    ensures IntakeSound(DoApi(s, p, op))
  {
    DeliveriesApi(s, p, op);
    forall id ensures AcceptedOnce(DoApi(s, p, op), id) {
      AcceptedOnceApi(M, s, p, op, id);
    }
  }

  lemma IntakeWork(M: MaxAttempts, s: Sys, p: nat, op: WorkerOp)
    requires IntakeSound(s) && CanWork(s, p, op)
    ensures IntakeSound(DoWork(M, s, p, op))
  {
    hide IntakeSound, Attempt, Written;
    WorkRows(M, s, p, op);
    SilentStep(s, DoWork(M, s, p, op), p);
  }

  lemma IntakeRedrive(s: Sys, p: nat, op: RedriveOp)
    requires IntakeSound(s) && CanRedrive(s, p, op)
    ensures IntakeSound(DoRedrive(s, p, op))
  {
    hide IntakeSound;
    RedriveRows(s, p, op);
    SilentStep(s, DoRedrive(s, p, op), p);
  }

  lemma IntakeCrash(s: Sys, p: nat, at: nat)
    requires IntakeSound(s) && CanCrash(s, p, at)
    ensures IntakeSound(DoCrash(s, p, at))
  {
    hide IntakeSound, DoCrash;
    CrashFrame(s, p, at);
    SilentStep(s, DoCrash(s, p, at), p);
  }

  lemma IntakeStep(M: MaxAttempts, s: Sys, a: Action)
    requires Tidy(M, s) && IntakeSound(s) && Enabled(s, a)
    ensures IntakeSound(Apply(M, s, a))
  {
    hide IntakeSound, DoWork, DoRedrive, DoApi, DoEnqueue, DoCrash;
    match a
    case Work(p, op) => IntakeWork(M, s, p, op);
    case Redrive(p, op) => IntakeRedrive(s, p, op);
    case Api(p, op) => IntakeApi(M, s, p, op);
    case Enqueue(p, outcome) => IntakeEnqueue(M, s, p, outcome);
    case Expire => IntakeSameProcs(s, DoExpire(s));
    case Crash(p, at) => IntakeCrash(s, p, at);
  }

  // ---------------------------------------------------------------- stranded rows

  /** A row whose event was never enqueued is as it was inserted. */
  ghost predicate StrandedUntouched(s: Sys) {
    forall id :: id in s.events && s.log.enqueued[id] == 0 ==>
      id in s.log.born && s.events[id] == s.log.born[id]
  }

  lemma StrandedWork(M: MaxAttempts, s: Sys, p: nat, op: WorkerOp)
    requires Tidy(M, s) && StrandedUntouched(s) && CanWork(s, p, op)
    ensures StrandedUntouched(DoWork(M, s, p, op))
  {
    assert GoodProc(M, s, s.procs[p]);
  }

  lemma StrandedRedrive(M: MaxAttempts, s: Sys, p: nat, op: RedriveOp)
    requires Tidy(M, s) && StrandedUntouched(s) && CanRedrive(s, p, op)
    ensures StrandedUntouched(DoRedrive(s, p, op))
  {
    assert GoodProc(M, s, s.procs[p]);
  }

  lemma StrandedApi(M: MaxAttempts, s: Sys, p: nat, op: ApiOp)
    requires StrandedUntouched(s) && CanApi(s, p, op)
    ensures StrandedUntouched(DoApi(s, p, op))
  {
    ApiFrame(s, p, op);
  }

  lemma StrandedStep(M: MaxAttempts, s: Sys, a: Action)
    requires Tidy(M, s) && StrandedUntouched(s) && Enabled(s, a)
    ensures StrandedUntouched(Apply(M, s, a))
  {
    hide DoWork, DoRedrive, DoApi, Tidy;
    match a
    case Work(p, op) => StrandedWork(M, s, p, op);
    case Redrive(p, op) => StrandedRedrive(M, s, p, op);
    case Api(p, op) => StrandedApi(M, s, p, op);
    case Enqueue(p, outcome) =>
    case Expire =>
    case Crash(p, at) =>
  }
}
