/** What becomes of each event when workers and retry expiries run on, whatever their order: its fate
    is fixed by the record and the place and attempt number of its one message. */
module Fates {
  import opened Lifecycle
  import opened Sums
  import opened Protocol
  import opened Safety
  import opened Schedule

  /** The final record of an event, and the attempt number it is dead-lettered with, if it is. */
  datatype Fate = Fate(event: Event, dead: Option<int>)

  /** The fate of an event with record `e` whose message is delivered with attempt `a`. */
  function FateOf(M: MaxAttempts, e: Event, a: int): Fate
    decreases Max(0, M - a), 1
  {
    var after := Attempt(e, a >= M);
    if Succeeds(e) then Fate(after, None) else FateAfterFault(M, after, a)
  }

  /** ... and when the delivery with attempt `a` has just failed, leaving record `e`. */
  function FateAfterFault(M: MaxAttempts, e: Event, a: int): Fate
    decreases Max(0, M - a), 0
  {
    if a + 1 <= M then FateOf(M, e, a + 1) else Fate(e, Some(a))
  }

  /** The deliveries an event needs, and how it ends, in closed form. */
  function Deliveries(M: MaxAttempts, e: Event, a: int): int {
    match e.counter
    case Remaining(n) => if e.forced then M - a + 1 else Min(Max(0, n) + 1, M - a + 1)
    case Unreadable => M - a + 1
  }

  predicate Doomed(M: MaxAttempts, e: Event, a: int) {
    e.counter.Unreadable? || e.forced || e.counter.n >= M - a + 1
  }

  lemma {:induction false} FateInClosedForm(M: MaxAttempts, e: Event, a: int)
    requires a <= M
    ensures var fate := FateOf(M, e, a);
      && fate.event.attempts == e.attempts + Deliveries(M, e, a)
      && fate.event.status == (if Doomed(M, e, a) then Failed else Processed)
      && fate.dead == (if Doomed(M, e, a) then Some(M as int) else None)
      && fate.event.counter == (match e.counter
                                case Unreadable => Unreadable
                                case Remaining(n) => Remaining(if n >= 0 then Max(0, n - Deliveries(M, e, a)) else n))
    decreases M - a
  {
    if !Succeeds(e) && a + 1 <= M {
      FateInClosedForm(M, Attempt(e, false), a + 1);
    }
  }

  // ---------------------------------------------------------------- every place agrees with the fate

  ghost predicate Fits(M: MaxAttempts, s: Sys, q: Proc, fates: map<Uuid, Fate>) {
    Carries(q) ==>
      && q.m.id in s.events && q.m.id in fates
      && (q.Holding? || q.Loaded? ==> fates[q.m.id] == FateOf(M, s.events[q.m.id], q.m.attempt))
      && (q.Loaded? ==> q.row == s.events[q.m.id])
      && (q.Faulted? ==> fates[q.m.id] == FateAfterFault(M, s.events[q.m.id], q.m.attempt))
      && (q.Succeeded? ==> fates[q.m.id] == Fate(s.events[q.m.id], None))
  }

  ghost predicate Heads(M: MaxAttempts, s: Sys, m: Msg, fates: map<Uuid, Fate>) {
    m.id in s.events && m.id in fates && fates[m.id] == FateOf(M, s.events[m.id], m.attempt)
  }

  ghost predicate Rests(s: Sys, m: Msg, fates: map<Uuid, Fate>) {
    m.id in s.events && m.id in fates && fates[m.id] == Fate(s.events[m.id], Some(m.attempt))
  }

  ghost predicate OneEach(s: Sys) {
    forall id :: Copies(s, id) <= 1
  }

  ghost predicate Gone(s: Sys, id: Uuid, fates: map<Uuid, Fate>) {
    id in s.events && Copies(s, id) == 0 ==> id in fates && fates[id] == Fate(s.events[id], None)
  }

  ghost predicate OnCourse(M: MaxAttempts, s: Sys, fates: map<Uuid, Fate>) {
    && fates.Keys == s.events.Keys
    && OneEach(s) && AllWorking(s)
    && (forall m :: m in s.main ==> Heads(M, s, m, fates))
    && (forall m :: m in s.retry ==> Heads(M, s, m, fates))
    && (forall m :: m in s.dlq ==> Rests(s, m, fates))
    && (forall q :: q in s.procs ==> Fits(M, s, q, fates))
    && (forall id :: Gone(s, id, fates))
  }

  // ---------------------------------------------------------------- the one copy

  lemma {:induction false} SumHas<T(!new)>(s: seq<T>, x: T, f: T -> int)
    requires NonNegative(f) && x in s
    ensures Sum(s, f) >= f(x)
  {
    var i :| 0 <= i < |s| && s[i] == x;
    SumAtLeast(s, i, f);
  }

  /** If a slot carries the only copy of its event, no lane and no other slot has one. */
  lemma OnlyCarrier(s: Sys, p: nat)
    requires OneEach(s) && p < |s.procs| && Carries(s.procs[p])
    ensures var id := s.procs[p].m.id;
      && (forall m :: m in s.main || m in s.retry || m in s.dlq ==> m.id != id)
      && (forall r :: 0 <= r < |s.procs| && r != p && Carries(s.procs[r]) ==> s.procs[r].m.id != id)
  {
    var id := s.procs[p].m.id;
    assert Copies(s, id) <= 1;
    SumAtLeast(s.main, 0, IsFor(id));
    SumAtLeast(s.retry, 0, IsFor(id));
    SumAtLeast(s.dlq, 0, IsFor(id));
    SumAtLeast(s.procs, p, Carried(id));
    forall m | m in s.main ensures m.id != id { SumHas(s.main, m, IsFor(id)); }
    forall m | m in s.retry ensures m.id != id { SumHas(s.retry, m, IsFor(id)); }
    forall m | m in s.dlq ensures m.id != id { SumHas(s.dlq, m, IsFor(id)); }
    forall r | 0 <= r < |s.procs| && r != p && Carries(s.procs[r]) ensures s.procs[r].m.id != id {
      if r < p { SumAtLeastTwo(s.procs, r, p, Carried(id)); } else { SumAtLeastTwo(s.procs, p, r, Carried(id)); }
    }
  }

  lemma CarrierCounts(s: Sys, p: nat, id: Uuid)
    requires p < |s.procs| && Carries(s.procs[p]) && s.procs[p].m.id == id
    ensures Copies(s, id) >= 1
  {
    SumAtLeast(s.main, 0, IsFor(id));
    SumAtLeast(s.retry, 0, IsFor(id));
    SumAtLeast(s.dlq, 0, IsFor(id));
    SumAtLeast(s.procs, p, Carried(id));
  }

  /** Calm steps keep the copies of each event, except that a success is acknowledged. */
  lemma CopiesCalm(M: MaxAttempts, s: Sys, a: Action, id: Uuid)
    requires Enabled(s, a) && Calm(a)
    ensures Copies(Apply(M, s, a), id) == Copies(s, id) -
              (if a.Work? && a.work.Ack? && s.procs[a.p].Succeeded? && s.procs[a.p].m.id == id then 1 else 0)
  {
    if a.Work? { BalanceWork(M, CopyOf(id), s, a.p, a.work); } else { Balance(M, CopyOf(id), s, a); }
  }

  lemma CopiesNonNegative(s: Sys, id: Uuid)
    ensures Copies(s, id) >= 0
  {
    DebtsNonNegative(s, id);
  }

  // ---------------------------------------------------------------- preservation

  /** An attempt, in one step or at its commit, on a row that nobody touched meanwhile. */
  lemma AttemptLands(M: MaxAttempts, s: Sys, p: nat, op: WorkerOp)
    requires CanWork(s, p, op) && (op.Process? || op.Commit?) && s.procs[p].m.id in s.events
    requires op.Commit? ==> s.procs[p].row == s.events[s.procs[p].m.id]
    ensures var m, e := s.procs[p].m, s.events[s.procs[p].m.id];
      DoWork(M, s, p, op) == s.(events := s.events[m.id := Attempt(e, FinalAttempt(M, m))],
                                procs := s.procs[p := if Succeeds(e) then Succeeded(m) else Faulted(m)])
  {
    var m := s.procs[p].m;
    WrittenUndisturbed(s.events[m.id], FinalAttempt(M, m));
  }

  lemma OnCourseAttempt(M: MaxAttempts, s: Sys, p: nat, op: WorkerOp, fates: map<Uuid, Fate>)
    requires OnCourse(M, s, fates) && CanWork(s, p, op) && (op.Process? || op.Commit?)
    ensures OnCourse(M, DoWork(M, s, p, op), fates)
  {
    hide DoWork, Attempt, Written, Copies;
    var t := DoWork(M, s, p, op);
    assert Fits(M, s, s.procs[p], fates);
    AttemptLands(M, s, p, op);
    OnlyCarrier(s, p);
    CarrierCounts(s, p, s.procs[p].m.id);
    forall id ensures Copies(t, id) <= 1 && Gone(t, id, fates) {
      CopiesCalm(M, s, Work(p, op), id);
      assert Gone(s, id, fates);
    }
    forall q | q in t.procs ensures Fits(M, t, q, fates) && Working(q) {
      var r :| 0 <= r < |t.procs| && t.procs[r] == q;
      assert r != p ==> Fits(M, s, s.procs[r], fates) && s.procs[r] in s.procs;
    }
    forall m | m in t.main ensures Heads(M, t, m, fates) { assert Heads(M, s, m, fates); }
    forall m | m in t.retry ensures Heads(M, t, m, fates) { assert Heads(M, s, m, fates); }
    forall m | m in t.dlq ensures Rests(t, m, fates) { assert Rests(s, m, fates); }
  }

  /** Moving a message without touching the table. */
  lemma OnCourseMove(M: MaxAttempts, s: Sys, a: Action, fates: map<Uuid, Fate>)
    requires OnCourse(M, s, fates) && Enabled(s, a) && Calm(a) && (a.Work? ==> !a.work.Process? && !a.work.Commit?)
    ensures OnCourse(M, Apply(M, s, a), fates)
  {
    hide FateOf, Copies, Attempt, Written;
    var t := Apply(M, s, a);
    Footprint(M, s, a);
    CalmKeepsWorking(M, s, a);
    assert t.events == s.events;
    if a.Work? {
      assert Fits(M, s, s.procs[a.p], fates);
      if a.work.Dequeue? { assert Heads(M, s, s.main[0], fates); }
    } else {
      assert Heads(M, s, s.retry[0], fates);
    }
    forall id ensures Copies(t, id) <= 1 && Gone(t, id, fates) {
      CopiesCalm(M, s, a, id);
      assert Gone(s, id, fates);
    }
  }

  lemma {:induction false} OnCourseRun(M: MaxAttempts, s: Sys, acts: seq<Action>, fates: map<Uuid, Fate>)
    requires OnCourse(M, s, fates) && IsRun(M, s, acts) && AllCalm(acts)
    ensures OnCourse(M, Run(M, s, acts), fates)
    decreases |acts|
  {
    if acts != [] {
      var a := acts[0];
      assert a in acts;
      if a.Work? && (a.work.Process? || a.work.Commit?) {
        OnCourseAttempt(M, s, a.p, a.work, fates);
      } else {
        OnCourseMove(M, s, a, fates);
      }
      OnCourseRun(M, Apply(M, s, a), acts[1..], fates);
    }
  }

  // ---------------------------------------------------------------- where a run ends

  lemma {:induction false} CountAtMostSum(ms: seq<Msg>, m: Msg)
    ensures multiset(ms)[m] <= Sum(ms, IsFor(m.id))
  {
    if ms != [] {
      assert ms == [ms[0]] + ms[1..];
      CountAtMostSum(ms[1..], m);
    }
  }

  /** The record of `id` and its place in the dead-letter lane are as its fate says. */
  ghost predicate Fulfilled(s: Sys, fates: map<Uuid, Fate>) {
    && s.events.Keys == fates.Keys
    && (forall id :: id in fates ==> s.events[id] == fates[id].event)
    && (forall m :: multiset(s.dlq)[m] == (if m.id in fates && fates[m.id].dead == Some(m.attempt) then 1 else 0))
  }

  lemma QuietIsFulfilled(M: MaxAttempts, s: Sys, fates: map<Uuid, Fate>)
    requires OnCourse(M, s, fates) && Quiet(s)
    ensures Fulfilled(s, fates)
  {
    forall id ensures Sum(s.procs, Carried(id)) == 0 {
      SumZero(s.procs, Carried(id));
    }
    forall id | id in fates ensures s.events[id] == fates[id].event {
      assert Gone(s, id, fates);
      CopiesNonNegative(s, id);
      if Copies(s, id) != 0 {
        var k := SumWitness(s.dlq, IsFor(id));
        assert Rests(s, s.dlq[k], fates);
      }
    }
    forall m ensures multiset(s.dlq)[m] == (if m.id in fates && fates[m.id].dead == Some(m.attempt) then 1 else 0) {
      CountAtMostSum(s.dlq, m);
      assert Copies(s, m.id) <= 1;
      if m.id in fates && fates[m.id].dead == Some(m.attempt) {
        assert Gone(s, m.id, fates);
        CopiesNonNegative(s, m.id);
        var k := SumWitness(s.dlq, IsFor(m.id));
        assert Rests(s, s.dlq[k], fates);
        assert s.dlq[k] == m && m in multiset(s.dlq);
      }
      if m in s.dlq {
        assert Rests(s, m, fates);
      }
    }
  }

  // ---------------------------------------------------------------- the fates a state determines

  ghost function FateIn(M: MaxAttempts, s: Sys, id: Uuid): Fate
    requires id in s.events
  {
    var e := s.events[id];
    if m :| (m in s.main || m in s.retry) && m.id == id then FateOf(M, e, m.attempt)
    else if m :| m in s.dlq && m.id == id then Fate(e, Some(m.attempt))
    else if q :| q in s.procs && (q.Holding? || q.Loaded?) && q.m.id == id then FateOf(M, e, q.m.attempt)
    else if q :| q in s.procs && q.Faulted? && q.m.id == id then FateAfterFault(M, e, q.m.attempt)
    else Fate(e, None)
  }

  ghost function FatesIn(M: MaxAttempts, s: Sys): map<Uuid, Fate> {
    map id | id in s.events :: FateIn(M, s, id)
  }

  /** Every message refers to a row, no event has two, and loaded rows are as they were loaded. */
  ghost predicate OneMessageEach(s: Sys) {
    && OneEach(s) && AllWorking(s)
    && (forall m :: m in s.main || m in s.retry || m in s.dlq ==> m.id in s.events)
    && (forall q :: q in s.procs && Carries(q) ==> q.m.id in s.events)
    && (forall q :: q in s.procs && q.Loaded? ==> s.events[q.m.id] == q.row)
  }

  lemma {:induction false} SumHasBoth<T(!new)>(s: seq<T>, x: T, y: T, f: T -> int)
    requires NonNegative(f) && x in s && y in s && x != y
    ensures Sum(s, f) >= f(x) + f(y)
  {
    var i :| 0 <= i < |s| && s[i] == x;
    var j :| 0 <= j < |s| && s[j] == y;
    if i < j { SumAtLeastTwo(s, i, j, f); } else { SumAtLeastTwo(s, j, i, f); }
  }

  lemma LaneSums(s: Sys, id: Uuid)
    ensures Sum(s.main, IsFor(id)) >= 0 && Sum(s.retry, IsFor(id)) >= 0
    ensures Sum(s.dlq, IsFor(id)) >= 0 && Sum(s.procs, Carried(id)) >= 0
    ensures forall m :: m in s.main && m.id == id ==> Sum(s.main, IsFor(id)) >= 1
    ensures forall m :: m in s.retry && m.id == id ==> Sum(s.retry, IsFor(id)) >= 1
    ensures forall m :: m in s.dlq && m.id == id ==> Sum(s.dlq, IsFor(id)) >= 1
    ensures forall q :: q in s.procs && Carries(q) && q.m.id == id ==> Sum(s.procs, Carried(id)) >= 1
  {
    SumAtLeast(s.main, 0, IsFor(id));
    SumAtLeast(s.retry, 0, IsFor(id));
    SumAtLeast(s.dlq, 0, IsFor(id));
    SumAtLeast(s.procs, 0, Carried(id));
    forall m | m in s.main && m.id == id ensures Sum(s.main, IsFor(id)) >= 1 { SumHas(s.main, m, IsFor(id)); }
    forall m | m in s.retry && m.id == id ensures Sum(s.retry, IsFor(id)) >= 1 { SumHas(s.retry, m, IsFor(id)); }
    forall m | m in s.dlq && m.id == id ensures Sum(s.dlq, IsFor(id)) >= 1 { SumHas(s.dlq, m, IsFor(id)); }
    forall q | q in s.procs && Carries(q) && q.m.id == id ensures Sum(s.procs, Carried(id)) >= 1 {
      SumHas(s.procs, q, Carried(id));
    }
  }

  lemma SameMessage(s: Sys, x: Msg, y: Msg)
    requires OneEach(s) && x.id == y.id
    requires (x in s.main && y in s.main) || (x in s.retry && y in s.retry) || (x in s.dlq && y in s.dlq)
    ensures x == y
  {
    var id := x.id;
    LaneSums(s, id);
    assert Copies(s, id) <= 1;
    if x != y {
      if x in s.main && y in s.main { SumHasBoth(s.main, x, y, IsFor(id)); }
      else if x in s.retry && y in s.retry { SumHasBoth(s.retry, x, y, IsFor(id)); }
      else { SumHasBoth(s.dlq, x, y, IsFor(id)); }
    }
  }

  lemma SameCarrier(s: Sys, x: Proc, y: Proc)
    requires OneEach(s) && x in s.procs && y in s.procs && Carries(x) && Carries(y) && x.m.id == y.m.id
    ensures x == y
  {
    LaneSums(s, x.m.id);
    assert Copies(s, x.m.id) <= 1;
    if x != y { SumHasBoth(s.procs, x, y, Carried(x.m.id)); }
  }

  lemma FateOfLane(M: MaxAttempts, s: Sys, m: Msg)
    requires OneMessageEach(s) && (m in s.main || m in s.retry)
    ensures FateIn(M, s, m.id) == FateOf(M, s.events[m.id], m.attempt)
  {
    LaneSums(s, m.id);
    assert Copies(s, m.id) <= 1;
    forall x | (x in s.main || x in s.retry) && x.id == m.id ensures x == m { SameMessage(s, x, m); }
  }

  lemma FateOfDead(M: MaxAttempts, s: Sys, m: Msg)
    requires OneMessageEach(s) && m in s.dlq
    ensures FateIn(M, s, m.id) == Fate(s.events[m.id], Some(m.attempt))
  {
    LaneSums(s, m.id);
    assert Copies(s, m.id) <= 1;
    forall x | x in s.dlq && x.id == m.id ensures x == m { SameMessage(s, x, m); }
  }

  lemma FateOfCarrier(M: MaxAttempts, s: Sys, q: Proc)
    requires OneMessageEach(s) && q in s.procs && Carries(q)
    ensures FateIn(M, s, q.m.id) ==
            if q.Holding? || q.Loaded? then FateOf(M, s.events[q.m.id], q.m.attempt)
            else if q.Faulted? then FateAfterFault(M, s.events[q.m.id], q.m.attempt)
            else Fate(s.events[q.m.id], None)
  {
    LaneSums(s, q.m.id);
    assert Copies(s, q.m.id) <= 1;
    forall x | x in s.procs && Carries(x) && x.m.id == q.m.id ensures x == q { SameCarrier(s, x, q); }
  }

  lemma FateOfNone(M: MaxAttempts, s: Sys, id: Uuid)
    requires OneMessageEach(s) && id in s.events && Copies(s, id) == 0
    ensures FateIn(M, s, id) == Fate(s.events[id], None)
  {
    LaneSums(s, id);
  }

  lemma FatesAgree(M: MaxAttempts, s: Sys)
    requires OneMessageEach(s)
    ensures OnCourse(M, s, FatesIn(M, s))
  {
    var fates := FatesIn(M, s);
    forall m | m in s.main || m in s.retry ensures Heads(M, s, m, fates) { FateOfLane(M, s, m); }
    forall m | m in s.dlq ensures Rests(s, m, fates) { FateOfDead(M, s, m); }
    forall q | q in s.procs ensures Fits(M, s, q, fates) {
      if Carries(q) { FateOfCarrier(M, s, q); }
    }
    forall id ensures Gone(s, id, fates) {
      if id in s.events && Copies(s, id) == 0 { FateOfNone(M, s, id); }
    }
  }

  /** Every schedule of workers and expiries that runs to quiet from a state with one message per
      event gives the same records and the same dead-letter lane, as a multiset. */
  lemma SchedulesAgree(M: MaxAttempts, s: Sys, acts: seq<Action>, acts': seq<Action>)
    requires OneMessageEach(s)
    requires IsRun(M, s, acts) && AllCalm(acts) && Quiet(Run(M, s, acts))
    requires IsRun(M, s, acts') && AllCalm(acts') && Quiet(Run(M, s, acts'))
    ensures Run(M, s, acts).events == Run(M, s, acts').events
    ensures multiset(Run(M, s, acts).dlq) == multiset(Run(M, s, acts').dlq)
  {
    hide OnCourse, OneMessageEach, FatesIn, IsRun, Run;
    var fates := FatesIn(M, s);
    FatesAgree(M, s);
    OnCourseRun(M, s, acts, fates);
    OnCourseRun(M, s, acts', fates);
    QuietIsFulfilled(M, Run(M, s, acts), fates);
    QuietIsFulfilled(M, Run(M, s, acts'), fates);
  }

  /** An event waiting in the main lane at attempt `a` gets exactly `Deliveries` attempts on the way
      to quiet, and is dead-lettered just when it is doomed. */
  lemma DeliveriesExact(M: MaxAttempts, s: Sys, acts: seq<Action>, m: Msg)
    requires OneMessageEach(s) && (m in s.main || m in s.retry) && m.attempt <= M
    requires IsRun(M, s, acts) && AllCalm(acts) && Quiet(Run(M, s, acts))
    ensures var t := Run(M, s, acts);
      && m.id in t.events
      && t.events[m.id].attempts == s.events[m.id].attempts + Deliveries(M, s.events[m.id], m.attempt)
      && (Doomed(M, s.events[m.id], m.attempt) <==> t.events[m.id].status == Failed)
      && (!Doomed(M, s.events[m.id], m.attempt) <==> t.events[m.id].status == Processed)
      && (Doomed(M, s.events[m.id], m.attempt) <==> Msg(m.id, M) in t.dlq)
  {
    var fates := FatesIn(M, s);
    FatesAgree(M, s);
    OnCourseRun(M, s, acts, fates);
    QuietIsFulfilled(M, Run(M, s, acts), fates);
    assert Heads(M, s, m, fates);
    FateInClosedForm(M, s.events[m.id], m.attempt);
    assert Msg(m.id, M) in Run(M, s, acts).dlq <==> multiset(Run(M, s, acts).dlq)[Msg(m.id, M)] > 0;
  }
}
