/** The condition of the row law is met as long as no two sessions have attempts on one row under way, and in
    particular with one worker, whatever crashes, redrives, duplicates and manual retries there are. */
module Outcome {
  import opened Lifecycle
  import opened Protocol
  import opened RowLaw

  // ---------------------------------------------------------------- one attempt at a time on a row

  /** No other session has the row loaded that this attempt is about to read. */
  ghost predicate Undisputed(s: Sys, a: Action)
    requires Enabled(s, a)
  {
    a.Work? && (a.work.Load? || a.work.Process?) ==>
      forall r :: 0 <= r < |s.procs| && s.procs[r].Loaded? ==> s.procs[r].m.id != s.procs[a.p].m.id
  }

  ghost predicate UndisputedRun(M: MaxAttempts, s: Sys, acts: seq<Action>)
    requires IsRun(M, s, acts)
    decreases |acts|
  {
    acts == [] || (Undisputed(s, acts[0]) && UndisputedRun(M, Apply(M, s, acts[0]), acts[1..]))
  }

  /** Loaded rows are of different events, and up to date but for a redrive's mark. */
  ghost predicate Current(s: Sys) {
    && (forall p :: 0 <= p < |s.procs| && s.procs[p].Loaded? ==>
          s.procs[p].m.id in s.events && UpToDate(s.events[s.procs[p].m.id], s.procs[p].row))
    && (forall p, r :: 0 <= p < r < |s.procs| && s.procs[p].Loaded? && s.procs[r].Loaded? ==>
          s.procs[p].m.id != s.procs[r].m.id)
  }

  ghost predicate BornKept(before: History, after: History) {
    forall id :: id in before.born ==> id in after.born && before.born[id] == after.born[id]
  }

  ghost predicate AttemptsGrow(before: map<Uuid, Event>, after: map<Uuid, Event>) {
    forall id :: id in before ==> id in after && before[id].attempts <= after[id].attempts
  }

  /** Nothing that counts is lost from `s` to `t`. */
  ghost predicate Onward(s: Sys, t: Sys) {
    AttemptsGrow(s.events, t.events) && BornKept(s.log, t.log)
  }

  lemma CommitUndisputed(M: MaxAttempts, s: Sys, p: nat)
    requires Orderly(StampLaw, s) && Current(s) && CanWork(s, p, Commit)
    ensures GoodCommit(StampLaw, M, s, Work(p, Commit)) && Onward(s, DoWork(M, s, p, Commit))
  {
    hide Keeps, Written;
    var q := s.procs[p];
    WrittenUpToDate(s.log.born[q.m.id], s.events[q.m.id], q.row, FinalAttempt(M, q.m));
  }

  lemma CurrentWork(M: MaxAttempts, s: Sys, p: nat, op: WorkerOp)
    requires Current(s) && CanWork(s, p, op) && Undisputed(s, Work(p, op))
    ensures Current(DoWork(M, s, p, op))
  {
    hide Attempt, Written;
  }

  lemma CurrentRedrive(s: Sys, p: nat, op: RedriveOp)
    requires Current(s) && CanRedrive(s, p, op)
    ensures Current(DoRedrive(s, p, op)) && Onward(s, DoRedrive(s, p, op))
  {
  }

  lemma CurrentSilent(s: Sys, t: Sys)
    requires Current(s) && (forall id :: id in s.events ==> id in t.events && t.events[id] == s.events[id])
    requires |t.procs| == |s.procs|
    requires forall p :: 0 <= p < |s.procs| && t.procs[p].Loaded? ==> t.procs[p] == s.procs[p]
    ensures Current(t)
  {
    hide UpToDate;
  }

  lemma CurrentMove(M: MaxAttempts, s: Sys, a: Action)
    requires Current(s) && Enabled(s, a) && (a.Enqueue? || a.Expire? || a.Crash?)
    ensures Current(Apply(M, s, a)) && Onward(s, Apply(M, s, a))
  {
    CurrentSilent(s, Apply(M, s, a));
  }

  lemma UndisputedWork(M: MaxAttempts, s: Sys, p: nat, op: WorkerOp)
    requires Orderly(StampLaw, s) && Current(s) && CanWork(s, p, op) && Undisputed(s, Work(p, op))
    ensures GoodCommit(StampLaw, M, s, Work(p, op))
    ensures Current(DoWork(M, s, p, op)) && Onward(s, DoWork(M, s, p, op))
  {
    hide Meets, Keeps;
    CurrentWork(M, s, p, op);
    if op.Commit? { CommitUndisputed(M, s, p); }
  }

  lemma CurrentApi(s: Sys, p: nat, op: ApiOp)
    requires Current(s) && s.log.born.Keys == s.events.Keys && CanApi(s, p, op)
    ensures Current(DoApi(s, p, op)) && Onward(s, DoApi(s, p, op))
  {
    ApiFrame(s, p, op);
    ApiRows(s, p, op);
    CurrentSilent(s, DoApi(s, p, op));
  }

  lemma UndisputedStep(M: MaxAttempts, s: Sys, a: Action)
    requires Orderly(StampLaw, s) && Current(s) && Enabled(s, a) && Undisputed(s, a)
    ensures GoodCommit(StampLaw, M, s, a)
    ensures Orderly(StampLaw, Apply(M, s, a)) && Current(Apply(M, s, a)) && Onward(s, Apply(M, s, a))
  {
    hide Meets, Keeps, Current, Onward, DoWork, DoRedrive, DoApi;
    assert s.log.born.Keys == s.events.Keys;
    match a {
      case Work(p, op) => UndisputedWork(M, s, p, op);
      case Redrive(p, op) => CurrentRedrive(s, p, op);
      case Api(p, op) => CurrentApi(s, p, op);
      case Enqueue(_, _) => CurrentMove(M, s, a);
      case Expire => CurrentMove(M, s, a);
      case Crash(_, _) => CurrentMove(M, s, a);
    }
    OrderlyStep(StampLaw, M, s, a);
  }

  lemma {:induction false} UndisputedFrom(M: MaxAttempts, s: Sys, acts: seq<Action>)
    requires Orderly(StampLaw, s) && Current(s) && IsRun(M, s, acts) && UndisputedRun(M, s, acts)
    ensures GoodCommits(StampLaw, M, s, acts)
    ensures var t := Run(M, s, acts); Orderly(StampLaw, t) && Current(t) && Onward(s, t)
    decreases |acts|
  {
    if acts != [] {
      UndisputedStep(M, s, acts[0]);
      UndisputedFrom(M, Apply(M, s, acts[0]), acts[1..]);
    }
  }

  /** Where no two sessions have attempts on one row under way, every commit finds what it must find for
      the outcome and the stamps. */
  lemma UndisputedCommits(M: MaxAttempts, start: Sys, acts: seq<Action>)
    requires Initial(start) && IsRun(M, start, acts) && UndisputedRun(M, start, acts)
    ensures GoodCommits(StampLaw, M, start, acts)
  {
    InitialOrderly(StampLaw, start);
    UndisputedFrom(M, start, acts);
  }

  /** All worker steps are of the slot `w`. */
  predicate OneWorker(w: nat, acts: seq<Action>) {
    forall a :: a in acts && a.Work? ==> a.p == w
  }

  lemma {:induction false} OneWorkerFrom(M: MaxAttempts, s: Sys, acts: seq<Action>, w: nat)
    requires IsRun(M, s, acts) && OneWorker(w, acts)
    requires forall r :: 0 <= r < |s.procs| && s.procs[r].Loaded? ==> r == w
    ensures UndisputedRun(M, s, acts)
    decreases |acts|
  {
    if acts != [] {
      assert acts[0] in acts;
      OneWorkerFrom(M, Apply(M, s, acts[0]), acts[1..], w);
    }
  }

  /** One worker is never disputed, whatever the other actors do. */
  lemma OneWorkerUndisputed(M: MaxAttempts, start: Sys, acts: seq<Action>, w: nat)
    requires Initial(start) && IsRun(M, start, acts) && OneWorker(w, acts)
    ensures UndisputedRun(M, start, acts)
  {
    OneWorkerFrom(M, start, acts, w);
  }

  // ---------------------------------------------------------------- outcomes

  /** An event born with counter `n0` has counter `max(0, n0 - attempts)` (`n0` itself when that is
      negative), and is processed just when it is not forced and has had more than `n0` attempts. */
  lemma OutcomeByAttempts(M: MaxAttempts, start: Sys, acts: seq<Action>, id: Uuid)
    requires Initial(start) && IsRun(M, start, acts) && UndisputedRun(M, start, acts)
    requires id in Run(M, start, acts).events
    ensures var s := Run(M, start, acts);
      && id in s.log.born && s.events[id].forced == s.log.born[id].forced
      && match s.log.born[id].counter
         case Unreadable => s.events[id].counter == Unreadable && s.events[id].status != Processed
         case Remaining(n0) =>
           && (n0 >= 0 ==> s.events[id].counter == Remaining(Max(0, n0 - s.events[id].attempts)))
           && (n0 < 0 ==> s.events[id].counter == Remaining(n0))
           && (s.events[id].status == Processed <==> !s.events[id].forced && s.events[id].attempts > Max(0, n0))
  {
    hide IsRun, Run;
    InitialOrderly(StampLaw, start);
    UndisputedFrom(M, start, acts);
  }

  /** Processed is absorbing, although an attempt never looks at the current status. */
  lemma ProcessedIsAbsorbing(M: MaxAttempts, start: Sys, before: seq<Action>, after: seq<Action>, id: Uuid)
    requires Initial(start) && IsRun(M, start, before) && UndisputedRun(M, start, before)
    requires IsRun(M, Run(M, start, before), after) && UndisputedRun(M, Run(M, start, before), after)
    requires id in Run(M, start, before).events && Run(M, start, before).events[id].status == Processed
    ensures var s := Run(M, Run(M, start, before), after);
      id in s.events && s.events[id].status == Processed
  {
    var s := Run(M, start, before);
    InitialOrderly(StampLaw, start);
    UndisputedFrom(M, start, before);
    UndisputedFrom(M, s, after);
    assert Meets(StampLaw, s.log.born[id], s.events[id]);
    assert Meets(StampLaw, Run(M, s, after).log.born[id], Run(M, s, after).events[id]);
  }

  /** The time stamp is set just for processed rows, which have no error message, and untried rows are
      pending. That failed rows have an error message is not among it: a redrive's mark may clear the
      message between load and commit. */
  lemma RowsStamped(M: MaxAttempts, start: Sys, acts: seq<Action>, id: Uuid)
    requires Initial(start) && IsRun(M, start, acts) && UndisputedRun(M, start, acts)
    requires id in Run(M, start, acts).events
    ensures var e := Run(M, start, acts).events[id];
      && (e.processedAt <==> e.status == Processed)
      && (e.status == Processed ==> e.error == None)
      && (e.attempts == 0 ==> e.status == Pending)
  {
    hide IsRun, Run;
    InitialOrderly(StampLaw, start);
    UndisputedFrom(M, start, acts);
  }

  /** With the full condition on each commit, failed rows have an error message as well. */
  lemma RowsConsistent(M: MaxAttempts, start: Sys, acts: seq<Action>, id: Uuid)
    requires Initial(start) && IsRun(M, start, acts) && GoodCommits(FullLaw, M, start, acts)
    requires id in Run(M, start, acts).events
    ensures var e := Run(M, start, acts).events[id];
      && (e.processedAt <==> e.status == Processed)
      && (e.status == Processed ==> e.error == None)
      && (e.status == Failed ==> e.error.Some?)
      && (e.attempts == 0 ==> e.status == Pending)
  {
    InitialOrderly(FullLaw, start);
    LawFrom(FullLaw, M, start, acts);
  }

  // ---------------------------------------------------------------- exactly when processed is absorbing

  /** A commit of a failure does not meet a processed row. */
  ghost predicate Spares(s: Sys, a: Action)
    requires Enabled(s, a)
  {
    a.Work? && a.work.Commit? ==>
      Succeeds(s.procs[a.p].row) || s.events[s.procs[a.p].m.id].status != Processed
  }

  ghost predicate SparesAlways(M: MaxAttempts, s: Sys, acts: seq<Action>)
    requires IsRun(M, s, acts)
    decreases |acts|
  {
    acts == [] || (Spares(s, acts[0]) && SparesAlways(M, Apply(M, s, acts[0]), acts[1..]))
  }

  ghost predicate NoneUndone(s: Sys, t: Sys) {
    forall id :: id in s.events && s.events[id].status == Processed ==>
      id in t.events && t.events[id].status == Processed
  }

  /** No step of the run takes a row out of `Processed`. */
  ghost predicate Absorbs(M: MaxAttempts, s: Sys, acts: seq<Action>)
    requires IsRun(M, s, acts)
    decreases |acts|
  {
    acts == [] || (NoneUndone(s, Apply(M, s, acts[0])) && Absorbs(M, Apply(M, s, acts[0]), acts[1..]))
  }

  lemma NoneUndoneWork(M: MaxAttempts, s: Sys, p: nat, op: WorkerOp)
    requires Orderly(OutcomeLaw, s) && CanWork(s, p, op) && GoodCommit(OutcomeLaw, M, s, Work(p, op))
    ensures NoneUndone(s, DoWork(M, s, p, op)) <==> Spares(s, Work(p, op))
  {
    hide Meets, Keeps, Written, Attempt, Succeeds;
    var q := s.procs[p];
    if op.Process? && q.m.id in s.events && s.events[q.m.id].status == Processed {
      ProcessedSucceeds(s.log.born[q.m.id], s.events[q.m.id], FinalAttempt(M, q.m));
    }
    if op.Commit? && s.events[q.m.id].status == Processed {
      WrittenUndoes(s.log.born[q.m.id], s.events[q.m.id], q.row, FinalAttempt(M, q.m));
      assert DoWork(M, s, p, op).events.Keys == s.events.Keys;
    }
  }

  lemma NoneUndoneStep(M: MaxAttempts, s: Sys, a: Action)
    requires Orderly(OutcomeLaw, s) && Enabled(s, a) && GoodCommit(OutcomeLaw, M, s, a)
    ensures NoneUndone(s, Apply(M, s, a)) <==> Spares(s, a)
  {
    hide Meets, Keeps;
    if a.Work? { NoneUndoneWork(M, s, a.p, a.work); }
    if a.Api? { ApiRows(s, a.p, a.api); }
  }

  lemma {:induction false} AbsorbsFrom(M: MaxAttempts, s: Sys, acts: seq<Action>)
    requires Orderly(OutcomeLaw, s) && IsRun(M, s, acts) && GoodCommits(OutcomeLaw, M, s, acts)
    ensures Absorbs(M, s, acts) <==> SparesAlways(M, s, acts)
    decreases |acts|
  {
    if acts != [] {
      NoneUndoneStep(M, s, acts[0]);
      OrderlyStep(OutcomeLaw, M, s, acts[0]);
      AbsorbsFrom(M, Apply(M, s, acts[0]), acts[1..]);
    }
  }

  /** While outcomes follow from attempts, no row ever leaves `Processed` just when no commit of a failure
      meets a processed row. */
  lemma AbsorbingExactly(M: MaxAttempts, start: Sys, acts: seq<Action>)
    requires Initial(start) && IsRun(M, start, acts) && GoodCommits(OutcomeLaw, M, start, acts)
    ensures Absorbs(M, start, acts) <==> SparesAlways(M, start, acts)
  {
    InitialOrderly(OutcomeLaw, start);
    AbsorbsFrom(M, start, acts);
  }
}
