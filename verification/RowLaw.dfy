/** Rows follow from their attempt counts, although each is loaded and committed in separate steps: a commit
    writes only the columns that differ from the loaded ones, so the law has a condition per commit. */
module RowLaw {
  import opened Lifecycle
  import opened Protocol

  // ---------------------------------------------------------------- the law of every row

  ghost predicate RowsMeet(law: Law, s: Sys) {
    && s.log.born.Keys == s.events.Keys
    && forall id :: id in s.events ==> Meets(law, s.log.born[id], s.events[id])
  }

  /** ... and of every row that a session has loaded. */
  ghost predicate Orderly(law: Law, s: Sys) {
    && RowsMeet(law, s)
    && forall q :: q in s.procs && q.Loaded? ==>
         q.m.id in s.events && Meets(law, s.log.born[q.m.id], q.row)
  }

  ghost predicate GoodCommit(law: Law, M: MaxAttempts, s: Sys, a: Action)
    requires Enabled(s, a)
  {
    a.Work? && a.work.Commit? ==>
      var q := s.procs[a.p];
      Keeps(law, s.events[q.m.id], q.row, FinalAttempt(M, q.m))
  }

  lemma OrderlyProcess(law: Law, M: MaxAttempts, s: Sys, p: nat)
    requires Orderly(law, s) && CanWork(s, p, Process)
    ensures Orderly(law, DoWork(M, s, p, Process))
  {
    hide Meets;
    var m := s.procs[p].m;
    if m.id in s.events {
      AttemptMeets(law, s.log.born[m.id], s.events[m.id], FinalAttempt(M, m));
    }
  }

  lemma OrderlyCommit(law: Law, M: MaxAttempts, s: Sys, p: nat)
    requires Orderly(law, s) && CanWork(s, p, Commit)
    ensures GoodCommit(law, M, s, Work(p, Commit)) ==> Orderly(law, DoWork(M, s, p, Commit))
    ensures RowsMeet(law, DoWork(M, s, p, Commit)) ==> GoodCommit(law, M, s, Work(p, Commit))
  {
    hide Meets, Keeps, Written;
    var q := s.procs[p];
    WrittenMeets(law, s.log.born[q.m.id], s.events[q.m.id], q.row, FinalAttempt(M, q.m));
    assert RowsMeet(law, DoWork(M, s, p, Commit)) ==>
        Meets(law, s.log.born[q.m.id], DoWork(M, s, p, Commit).events[q.m.id]);
  }

  /** Loaded rows of `t` are those of `s`, or were just read. */
  ghost predicate LoadsFrom(s: Sys, t: Sys) {
    forall q :: q in t.procs && q.Loaded? ==>
      q in s.procs || (q.m.id in s.events && q.row == s.events[q.m.id])
  }

  lemma OrderlySameRows(law: Law, s: Sys, t: Sys)
    requires Orderly(law, s) && SameRows(s, t) && LoadsFrom(s, t)
    ensures Orderly(law, t)
  {
    hide Meets;
  }

  lemma OrderlyMark(law: Law, s: Sys, p: nat)
    requires Orderly(law, s) && CanRedrive(s, p, Mark)
    ensures Orderly(law, DoRedrive(s, p, Mark))
  {
    hide Meets, MarkedPending;
    var t := DoRedrive(s, p, Mark);
    forall id | id in t.events ensures Meets(law, t.log.born[id], t.events[id]) {
      MarkedMeets(law, s.log.born[id], s.events[id]);
    }
  }

  lemma OrderlyAfterInsert(law: Law, s: Sys, t: Sys, id: Uuid, row: Event)
    requires Orderly(law, s) && InsertsRow(s, t, id, row) && LoadsFrom(s, t)
    ensures Orderly(law, t)
  {
    hide Meets;
    NewMeets(law, row);
  }

  lemma OrderlyApi(law: Law, s: Sys, p: nat, op: ApiOp)
    requires Orderly(law, s) && CanApi(s, p, op)
    ensures Orderly(law, DoApi(s, p, op))
  {
    hide Meets;
    ApiFrame(s, p, op);
    ApiRows(s, p, op);
    var t := DoApi(s, p, op);
    if SameRows(s, t) {
      OrderlySameRows(law, s, t);
    } else {
      OrderlyAfterInsert(law, s, t, op.id, t.events[op.id]);
    }
  }

  lemma OrderlyWork(law: Law, M: MaxAttempts, s: Sys, p: nat, op: WorkerOp)
    requires Orderly(law, s) && CanWork(s, p, op) && GoodCommit(law, M, s, Work(p, op))
    ensures Orderly(law, DoWork(M, s, p, op))
  {
    if op.Process? {
      OrderlyProcess(law, M, s, p);
    } else if op.Commit? {
      OrderlyCommit(law, M, s, p);
    } else {
      OrderlySameRows(law, s, DoWork(M, s, p, op));
    }
  }

  lemma OrderlyRedrive(law: Law, s: Sys, p: nat, op: RedriveOp)
    requires Orderly(law, s) && CanRedrive(s, p, op)
    ensures Orderly(law, DoRedrive(s, p, op))
  {
    if op.Mark? { OrderlyMark(law, s, p); } else { OrderlySameRows(law, s, DoRedrive(s, p, op)); }
  }

  lemma MoveRows(M: MaxAttempts, s: Sys, a: Action)
    requires Enabled(s, a) && (a.Enqueue? || a.Expire? || a.Crash?)
    ensures var t := Apply(M, s, a);
      SameRows(s, t) && (t.procs == s.procs || (!a.Expire? && a.p < |s.procs| && t.procs == s.procs[a.p := Idle]))
  {
    hide DoCrash;
    if a.Crash? { CrashFrame(s, a.p, a.at); }
  }

  lemma IdledLoads(s: Sys, t: Sys, p: nat)
    requires p < |s.procs| && t.procs == s.procs[p := Idle]
    ensures LoadsFrom(s, t)
  {
  }

  lemma OrderlyMove(law: Law, M: MaxAttempts, s: Sys, a: Action)
    requires Orderly(law, s) && Enabled(s, a) && (a.Enqueue? || a.Expire? || a.Crash?)
    ensures Orderly(law, Apply(M, s, a))
  {
    hide Orderly;
    var t := Apply(M, s, a);
    MoveRows(M, s, a);
    if t.procs != s.procs { IdledLoads(s, t, a.p); }
    OrderlySameRows(law, s, t);
  }

  lemma OrderlyStep(law: Law, M: MaxAttempts, s: Sys, a: Action)
    requires Orderly(law, s) && Enabled(s, a) && GoodCommit(law, M, s, a)
    ensures Orderly(law, Apply(M, s, a))
  {
    hide Orderly, Keeps, DoWork, DoRedrive, DoApi;
    match a
    case Work(p, op) => OrderlyWork(law, M, s, p, op);
    case Redrive(p, op) => OrderlyRedrive(law, s, p, op);
    case Api(p, op) => OrderlyApi(law, s, p, op);
    case Enqueue(_, _) => OrderlyMove(law, M, s, a);
    case Expire => OrderlyMove(law, M, s, a);
    case Crash(_, _) => OrderlyMove(law, M, s, a);
  }

  // ---------------------------------------------------------------- exactly when the law holds

  /** Every commit of the run finds what it must find. */
  ghost predicate GoodCommits(law: Law, M: MaxAttempts, s: Sys, acts: seq<Action>)
    requires IsRun(M, s, acts)
    decreases |acts|
  {
    acts == [] || (GoodCommit(law, M, s, acts[0]) && GoodCommits(law, M, Apply(M, s, acts[0]), acts[1..]))
  }

  /** Every row meets the law at every point of the run. */
  ghost predicate AlwaysMeet(law: Law, M: MaxAttempts, s: Sys, acts: seq<Action>)
    requires IsRun(M, s, acts)
    decreases |acts|
  {
    RowsMeet(law, s) && (acts == [] || AlwaysMeet(law, M, Apply(M, s, acts[0]), acts[1..]))
  }

  lemma {:induction false} LawFrom(law: Law, M: MaxAttempts, s: Sys, acts: seq<Action>)
    requires Orderly(law, s) && IsRun(M, s, acts)
    ensures AlwaysMeet(law, M, s, acts) <==> GoodCommits(law, M, s, acts)
    ensures GoodCommits(law, M, s, acts) ==> Orderly(law, Run(M, s, acts))
    decreases |acts|
  {
    hide Meets, Keeps;
    if acts != [] {
      var a, t := acts[0], Apply(M, s, acts[0]);
      if GoodCommit(law, M, s, a) {
        OrderlyStep(law, M, s, a);
        LawFrom(law, M, t, acts[1..]);
      } else {
        OrderlyCommit(law, M, s, a.p);
      }
    }
  }

  lemma InitialOrderly(law: Law, s: Sys)
    requires Initial(s)
    ensures Orderly(law, s)
  {
  }

  /** All rows meet the law throughout a run just when each of its commits finds what it must find,
      with any number of sessions on one row. */
  lemma RowLawExactly(law: Law, M: MaxAttempts, start: Sys, acts: seq<Action>)
    requires Initial(start) && IsRun(M, start, acts)
    ensures AlwaysMeet(law, M, start, acts) <==> GoodCommits(law, M, start, acts)
  {
    InitialOrderly(law, start);
    LawFrom(law, M, start, acts);
  }
}
