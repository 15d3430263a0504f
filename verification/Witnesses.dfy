/** Runs that mark where the conditions of the theorems end: a redrive's mark that comes late parts lanes
    and table, or clears the error message of a row that then fails; and a second session's commit over
    a row that has moved on undoes its outcome. */
module Witnesses {
  import opened Lifecycle
  import opened Protocol
  import opened Scripts
  import opened RowLaw
  import opened Outcome
  import opened CleanRuns

  /** The run `acts` leads from `s` to `t`. */
  ghost predicate Leads(M: MaxAttempts, s: Sys, acts: seq<Action>, t: Sys) {
    IsRun(M, s, acts) && Run(M, s, acts) == t
  }

  lemma LeadsOn(M: MaxAttempts, s: Sys, a: seq<Action>, t: Sys, b: seq<Action>, u: Sys)
    requires Leads(M, s, a, t) && Leads(M, t, b, u)
    ensures Leads(M, s, a + b, u)
  {
    RunConcat(M, s, a, b);
  }

  lemma LeadsOne(M: MaxAttempts, s: Sys, a: Action)
    requires Enabled(s, a)
    ensures Leads(M, s, [a], Apply(M, s, a))
  {
    RunOne(M, s, a);
  }

  lemma LeadsTwo(M: MaxAttempts, s: Sys, a: Action, b: Action)
    requires Enabled(s, a) && Enabled(Apply(M, s, a), b)
    ensures Leads(M, s, [a, b], Apply(M, Apply(M, s, a), b))
  {
    LeadsOne(M, s, a);
    LeadsOne(M, Apply(M, s, a), b);
    LeadsOn(M, s, [a], Apply(M, s, a), [b], Apply(M, Apply(M, s, a), b));
    assert [a] + [b] == [a, b];
  }

  /** Steps of workers are of slot 0 only, and there is neither crash nor manual retry. */
  predicate Plain(acts: seq<Action>) {
    AllClean(acts) && OneWorker(0, acts)
  }

  /** An empty system with two idle slots. */
  ghost predicate TwoSlots(s: Sys) {
    Initial(s) && s.procs == [Idle, Idle]
  }

  /** One event, with its one message in the main lane. */
  ghost predicate OneWaiting(s: Sys, id: Uuid, e: Event, attempt: int) {
    && s.events == map[id := e] && s.main == [Msg(id, attempt)] && s.retry == [] && s.dlq == []
    && |s.procs| == 2 && s.procs[0] == Idle
  }

  lemma FirstEvent(M: MaxAttempts, start: Sys, id: Uuid, request: Request) returns (acts: seq<Action>, s: Sys)
    requires TwoSlots(start) && request.delivery == None
    ensures Leads(M, start, acts, s) && s.procs == [Idle, Idle] && s.log.born == s.events && Plain(acts)
    ensures OneWaiting(s, id, NewEvent(None, request.source, request.counter, request.forced), 1)
  {
    acts := [Api(0, Receive(request, None)), Api(0, Insert(id)), Enqueue(0, Confirmed)];
    AcceptRun(M, start, 0, request, id, Confirmed);
    s := Run(M, start, acts);
  }

  // ---------------------------------------------------------------- failures in a row

  /** The record after `k` failures that are not final. */
  function Failing(e: Event, k: nat): Event {
    if k == 0 then e else Attempt(Failing(e, k - 1), false)
  }

  predicate FailsFor(e: Event, k: nat) {
    forall j: nat :: j < k ==> !Succeeds(Failing(e, j))
  }

  lemma {:induction false} Countdown(e: Event, k: nat)
    requires e.counter.Remaining? && e.counter.n >= k
    ensures Failing(e, k) == e.(attempts := e.attempts + k, counter := Remaining(e.counter.n - k),
                                status := Failing(e, k).status, processedAt := Failing(e, k).processedAt,
                                error := Failing(e, k).error)
    ensures k > 0 ==> Failing(e, k).status == Pending && Failing(e, k).error == Some(Transient)
  {
    if k > 0 { Countdown(e, k - 1); }
  }

  lemma {:induction false} ForcedFails(e: Event, k: nat)
    requires e.forced && e.counter == Remaining(0)
    ensures Failing(e, k).forced && Failing(e, k).counter == Remaining(0)
    ensures k > 0 ==> Failing(e, k).status == Pending && Failing(e, k).error == Some(Forced)
  {
    if k > 0 { ForcedFails(e, k - 1); }
  }

  lemma FailOnce(M: MaxAttempts, s: Sys, id: Uuid, e: Event, attempt: int) returns (acts: seq<Action>, t: Sys)
    requires OneWaiting(s, id, e, attempt) && attempt < M && !Succeeds(e)
    ensures Leads(M, s, acts, t) && Plain(acts)
    ensures OneWaiting(t, id, Attempt(e, false), attempt + 1) && t.procs == s.procs && t.log.born == s.log.born
  {
    hide Leads, IsRun, Run, Succeeds, Attempt;
    TurnIsRun(M, s, 0);
    var s1 := Turn(M, s);
    LeadsTurn(M, s);
    LeadsOne(M, s1, Expire);
    t := Apply(M, s1, Expire);
    LeadsOn(M, s, TurnScript(s, 0), s1, [Expire], t);
    acts := TurnScript(s, 0) + [Expire];
  }

  lemma LeadsTurn(M: MaxAttempts, s: Sys)
    requires s.procs != [] && s.procs[0] == Idle
    ensures Leads(M, s, TurnScript(s, 0), Turn(M, s)) && Plain(TurnScript(s, 0))
  {
    TurnIsRun(M, s, 0);
  }

  lemma {:induction false} FailRounds(M: MaxAttempts, s: Sys, id: Uuid, e: Event, k: nat)
    returns (acts: seq<Action>, t: Sys)
    requires OneWaiting(s, id, e, 1) && k < M && FailsFor(e, k)
    ensures Leads(M, s, acts, t) && Plain(acts)
    ensures OneWaiting(t, id, Failing(e, k), k + 1) && t.procs == s.procs && t.log.born == s.log.born
  {
    hide Succeeds, Attempt, Turn;
    if k == 0 {
      acts, t := [], s;
    } else {
      var before, u := FailRounds(M, s, id, e, k - 1);
      var last, v := FailOnce(M, u, id, Failing(e, k - 1), k);
      LeadsOn(M, s, before, u, last, v);
      acts, t := before + last, v;
    }
  }

  /** All attempts fail, and the event is dead-lettered. */
  lemma DeadLettered(M: MaxAttempts, s: Sys, id: Uuid, e: Event) returns (acts: seq<Action>, t: Sys)
    requires OneWaiting(s, id, e, 1) && FailsFor(e, M)
    ensures Leads(M, s, acts, t) && Plain(acts)
    ensures t.events == map[id := Attempt(Failing(e, M - 1), true)] && t.procs == s.procs
    ensures t.main == [] && t.retry == [] && t.dlq == [Msg(id, M)]
  {
    hide Leads, IsRun, Run, Succeeds, Attempt;
    var before, u := FailRounds(M, s, id, e, M - 1);
    LeadsTurn(M, u);
    t := Turn(M, u);
    LeadsOn(M, s, before, u, TurnScript(u, 0), t);
    acts := before + TurnScript(u, 0);
  }

  // ---------------------------------------------------------------- a redrive in two halves

  /** Slot 1 has put the dead letter back into the main lane, and has still to mark its event. */
  lemma RedriveHalf(M: MaxAttempts, s: Sys, id: Uuid, e: Event) returns (acts: seq<Action>, t: Sys)
    requires s.events == map[id := e] && s.main == [] && s.retry == [] && s.dlq == [Msg(id, M)]
    requires s.procs == [Idle, Idle]
    ensures Leads(M, s, acts, t) && Plain(acts)
    ensures OneWaiting(t, id, e, 1) && t.procs == [Idle, Redriving(0, [id])]
  {
    hide Leads, IsRun, Run;
    var a, b, c, d := Redrive(1, Start(1)), Redrive(1, Get), Redrive(1, Republish), Redrive(1, Settle);
    LeadsTwo(M, s, a, b);
    var s2 := Apply(M, Apply(M, s, a), b);
    assert s2.procs == [Idle, RedriveHolding(0, [], Msg(id, M))] && s2.dlq == [] && s2.main == [];
    LeadsTwo(M, s2, c, d);
    t := Apply(M, Apply(M, s2, c), d);
    assert [] + [id] == [id] && t.procs == [Idle, Redriving(0, [id])];
    LeadsOn(M, s, [a, b], s2, [c, d], t);
    acts := [a, b] + [c, d];
  }

  /** A forced event has been dead-lettered once and put back, and its mark is still to come. */
  lemma Reopened(M: MaxAttempts, start: Sys, id: Uuid) returns (acts: seq<Action>, e: Event, t: Sys)
    requires TwoSlots(start)
    ensures Leads(M, start, acts, t) && Plain(acts)
    ensures OneWaiting(t, id, e, 1) && t.procs == [Idle, Redriving(0, [id])]
    ensures e.forced && e.counter == Remaining(0) && FailsFor(e, M)
  {
    hide Leads, IsRun, Run, Attempt;
    var born := NewEvent(None, "", Remaining(0), true);
    var a, s1 := FirstEvent(M, start, id, Request(None, "", Remaining(0), true));
    ForcedFailsFor(born, M);
    var b, s2 := DeadLettered(M, s1, id, born);
    e := Attempt(Failing(born, M - 1), true);
    ForcedLast(born, M - 1);
    ForcedFailsFor(e, M);
    var c, s3 := RedriveHalf(M, s2, id, e);
    LeadsOn(M, start, a, s1, b, s2);
    LeadsOn(M, start, a + b, s2, c, s3);
    acts, t := a + b + c, s3;
  }

  lemma ForcedFailsFor(e: Event, k: nat)
    requires e.forced && e.counter == Remaining(0)
    ensures FailsFor(e, k)
  {
    forall j: nat | j < k ensures !Succeeds(Failing(e, j)) { ForcedFails(e, j); }
  }

  lemma ForcedLast(e: Event, k: nat)
    requires e.forced && e.counter == Remaining(0)
    ensures var last := Attempt(Failing(e, k), true);
      last.forced && last.counter == Remaining(0) && last.status == Failed && !Succeeds(Failing(e, k))
  {
    ForcedFails(e, k);
  }

  lemma LeadsMark(M: MaxAttempts, s: Sys, id: Uuid, e: Event)
    requires s.events == map[id := e] && |s.procs| == 2 && s.procs[1] == Redriving(0, [id])
    ensures var t := s.(events := map[id := MarkedPending(e)], procs := s.procs[1 := Idle]);
      Leads(M, s, [Redrive(1, Mark)], t)
  {
    LeadsOne(M, s, Redrive(1, Mark));
    assert MarkAll(s.events, [id]) == map[id := MarkedPending(e)];
  }

  /** Without crashes or manual retries, but with a dequeue between the publish and the mark of a redrive
      request, the system comes to rest with a dead letter whose event is not failed. */
  lemma LanesCanDisagree(M: MaxAttempts, start: Sys, id: Uuid) returns (acts: seq<Action>)
    requires TwoSlots(start)
    ensures IsRun(M, start, acts) && Plain(acts)
    ensures var s := Run(M, start, acts);
      && s.procs == [Idle, Idle] && s.main == [] && s.retry == [] && s.dlq == [Msg(id, M)]
      && s.events.Keys == {id} && s.events[id].status == Pending
  {
    hide IsRun, Run, Attempt;
    var a, e, s1 := Reopened(M, start, id);
    var b, s2 := DeadLettered(M, s1, id, e);
    ForcedLast(e, M - 1);
    var last := Attempt(Failing(e, M - 1), true);
    LeadsMark(M, s2, id, last);
    var s3 := s2.(events := map[id := MarkedPending(last)], procs := s2.procs[1 := Idle]);
    LeadsOn(M, start, a, s1, b, s2);
    LeadsOn(M, start, a + b, s2, [Redrive(1, Mark)], s3);
    acts := a + b + [Redrive(1, Mark)];
  }

  /** Slot 0 takes the message and loads the row, and slot 1 marks it. */
  lemma LoadThenMark(M: MaxAttempts, s: Sys, id: Uuid, e: Event) returns (acts: seq<Action>, t: Sys)
    requires OneWaiting(s, id, e, M) && s.procs == [Idle, Redriving(0, [id])]
    ensures Leads(M, s, acts, t) && Plain(acts)
    ensures t == s.(events := map[id := MarkedPending(e)], main := [], procs := [Loaded(Msg(id, M), e), Idle])
  {
    hide Leads, IsRun, Run, MarkedPending;
    var a, b := Work(0, Dequeue), Work(0, Load);
    LeadsTwo(M, s, a, b);
    var u := Apply(M, Apply(M, s, a), b);
    assert u == s.(main := [], procs := [Loaded(Msg(id, M), e), Redriving(0, [id])]);
    LeadsMark(M, u, id, e);
    t := u.(events := map[id := MarkedPending(e)], procs := u.procs[1 := Idle]);
    LeadsOn(M, s, [a, b], u, [Redrive(1, Mark)], t);
    acts := [a, b] + [Redrive(1, Mark)];
  }

  /** Slot 0 commits the failure of a last attempt and routes the message. */
  lemma CommitThenRoute(M: MaxAttempts, s: Sys, id: Uuid, row: Event, e: Event) returns (acts: seq<Action>, t: Sys)
    requires s.events == map[id := row] && s.procs == [Loaded(Msg(id, M), e), Idle] && !Succeeds(e)
    ensures Leads(M, s, acts, t) && Plain(acts)
    ensures t == s.(events := map[id := Written(row, e, true)], dlq := s.dlq + [Msg(id, M)], procs := [Idle, Idle])
  {
    hide Leads, IsRun, Run, Written, Succeeds;
    var a, b, c := Work(0, Commit), Work(0, Route), Work(0, Ack);
    LeadsTwo(M, s, a, b);
    var u := Apply(M, Apply(M, s, a), b);
    assert u == s.(events := map[id := Written(row, e, true)], dlq := s.dlq + [Msg(id, M)],
                   procs := [Routed(Msg(id, M)), Idle]);
    LeadsOne(M, u, c);
    t := Apply(M, u, c);
    LeadsOn(M, s, [a, b], u, [c], t);
    acts := [a, b] + [c];
  }

  /** The commit of a last failure leaves the message as the mark left it, when it is the same failure. */
  lemma LateMark(e: Event)
    requires e.status == Pending && e.error == Some(Forced) && e.forced && e.counter == Remaining(0)
    ensures var row := Written(MarkedPending(e), e, true); row.status == Failed && row.error == None
  {
  }

  /** One worker, one redrive request and no crash: the mark falls between the load and the commit of the
      last attempt, and leaves a failed row without an error message. */
  lemma FailedCanLackMessage(M: MaxAttempts, start: Sys, id: Uuid) returns (acts: seq<Action>)
    requires M >= 2 && TwoSlots(start)
    ensures IsRun(M, start, acts) && Plain(acts)
    ensures var s := Run(M, start, acts);
      && s.procs == [Idle, Idle] && s.main == [] && s.retry == [] && s.dlq == [Msg(id, M)]
      && s.events.Keys == {id} && s.events[id].status == Failed && s.events[id].error == None
  {
    hide IsRun, Run, Attempt, Written;
    var a, e, s1 := Reopened(M, start, id);
    var b, s2 := FailRounds(M, s1, id, e, M - 1);
    ForcedFails(e, M - 1);
    ForcedLast(e, M - 1);
    var last := Failing(e, M - 1);
    var c, s3 := LoadThenMark(M, s2, id, last);
    var d, s4 := CommitThenRoute(M, s3, id, MarkedPending(last), last);
    LateMark(last);
    LeadsOn(M, start, a, s1, b, s2);
    LeadsOn(M, start, a + b, s2, c, s3);
    LeadsOn(M, start, a + b + c, s3, d, s4);
    acts := a + b + c + d;
  }

  // ---------------------------------------------------------------- one row, two sessions

  /** A second copy of the event, through a manual retry. */
  lemma SecondCopy(M: MaxAttempts, s: Sys, id: Uuid, e: Event, attempt: int) returns (acts: seq<Action>, t: Sys)
    requires OneWaiting(s, id, e, attempt) && e.status == Pending
    ensures Leads(M, s, acts, t) && forall a :: a in acts ==> !a.Crash?
    ensures t.log.born == s.log.born && t.events == s.events && t.procs == s.procs
    ensures t.main == [Msg(id, attempt), Msg(id, 1)] && t.retry == [] && t.dlq == []
  {
    acts := [Api(0, CheckRetry(id)), Enqueue(0, Confirmed)];
    RetryRun(M, s, 0, id, Confirmed);
    t := Run(M, s, acts);
  }

  /** Slot 1 takes the first message and loads the row. */
  lemma LoadRow(M: MaxAttempts, s: Sys, id: Uuid, e: Event, attempt: int) returns (acts: seq<Action>, t: Sys)
    requires s.events == map[id := e] && s.main == [Msg(id, attempt), Msg(id, 1)] && s.procs == [Idle, Idle]
    ensures Leads(M, s, acts, t) && forall a :: a in acts ==> !a.Crash?
    ensures t == s.(main := [Msg(id, 1)], procs := [Idle, Loaded(Msg(id, attempt), e)])
  {
    hide Leads, IsRun, Run;
    LeadsTwo(M, s, Work(1, Dequeue), Work(1, Load));
    acts := [Work(1, Dequeue), Work(1, Load)];
    t := Apply(M, Apply(M, s, Work(1, Dequeue)), Work(1, Load));
  }

  /** Slot 0 fails on the second message, and succeeds on it when it comes back. */
  lemma FailThenPass(M: MaxAttempts, s: Sys, id: Uuid, e: Event) returns (acts: seq<Action>, t: Sys)
    requires M >= 2 && OneWaiting(s, id, e, 1) && !e.forced && e.counter == Remaining(1)
    ensures Leads(M, s, acts, t) && t.log.born == s.log.born && forall a :: a in acts ==> !a.Crash?
    ensures t.events == map[id := Attempt(Attempt(e, false), 2 >= M)] && t.procs == s.procs
  {
    hide Leads, IsRun, Run;
    var a, u := FailOnce(M, s, id, e, 1);
    LeadsTurn(M, u);
    t := Turn(M, u);
    LeadsOn(M, s, a, u, TurnScript(u, 0), t);
    acts := a + TurnScript(u, 0);
  }

  /** Slot 1 has loaded the row with its counter at one; meanwhile slot 0 has it processed. */
  lemma OvertakenLoad(M: MaxAttempts, start: Sys, id: Uuid, k: nat) returns (acts: seq<Action>, e: Event, t: Sys)
    requires M >= 2 && TwoSlots(start) && k < M
    ensures Leads(M, start, acts, t) && forall a :: a in acts ==> !a.Crash?
    ensures k == 0 ==> e.error == None
    ensures e.attempts == k && e.counter == Remaining(1) && !e.forced && e.status == Pending && !e.processedAt
    ensures t.events == map[id := Attempt(Attempt(e, false), 2 >= M)]
    ensures t.procs == [Idle, Loaded(Msg(id, k + 1), e)]
    ensures id in t.log.born && t.log.born[id].counter == Remaining(k + 1)
  {
    hide IsRun, Run;
    var born := NewEvent(None, "", Remaining(k + 1), false);
    var a, s1 := FirstEvent(M, start, id, Request(None, "", Remaining(k + 1), false));
    forall j: nat | j < k ensures !Succeeds(Failing(born, j)) { Countdown(born, j); }
    Countdown(born, k);
    var b, s2 := FailRounds(M, s1, id, born, k);
    e := Failing(born, k);
    assert !e.processedAt by { if k > 0 { Countdown(born, k - 1); } }
    var c, s3 := SecondCopy(M, s2, id, e, k + 1);
    var d, s4 := LoadRow(M, s3, id, e, k + 1);
    var f, s5 := FailThenPass(M, s4, id, e);
    LeadsOn(M, start, a, s1, b, s2);
    LeadsOn(M, start, a + b, s2, c, s3);
    LeadsOn(M, start, a + b + c, s3, d, s4);
    LeadsOn(M, start, a + b + c + d, s4, f, s5);
    acts, t := a + b + c + d + f, s5;
  }

  lemma CommitLast(M: MaxAttempts, start: Sys, acts: seq<Action>, t: Sys, id: Uuid, m: Msg, e: Event)
    requires Leads(M, start, acts, t) && id in t.events && m.id == id && t.procs == [Idle, Loaded(m, e)]
    ensures IsRun(M, start, acts + [Work(1, Commit)])
    ensures var s := Run(M, start, acts + [Work(1, Commit)]);
      s.events == t.events[id := Written(t.events[id], e, FinalAttempt(M, m))] && s.log == t.log
  {
    LeadsOne(M, t, Work(1, Commit));
    LeadsOn(M, start, acts, t, [Work(1, Commit)], Apply(M, t, Work(1, Commit)));
  }

  /** When two sessions load the same row, the later commit overwrites the attempt count and leaves an
      error message on a processed row. */
  lemma UpdatesCanBeLost(M: MaxAttempts, start: Sys, id: Uuid) returns (acts: seq<Action>)
    requires M >= 2 && TwoSlots(start)
    ensures IsRun(M, start, acts) && (forall a :: a in acts ==> !a.Crash?)
    ensures var s := Run(M, start, acts);
      && id in s.events && id in s.log.born && s.log.born[id].counter == Remaining(1)
      && s.events[id].status == Processed && s.events[id].attempts == 1 && s.events[id].error.Some?
  {
    hide Leads, IsRun, Run;
    var before, e, t := OvertakenLoad(M, start, id, 0);
    CommitLast(M, start, before, t, id, Msg(id, 1), e);
    acts := before + [Work(1, Commit)];
  }

  /** ... and when it commits the failure of a last attempt, it takes the row out of `Processed`. */
  lemma ProcessedCanBeUndone(M: MaxAttempts, start: Sys, id: Uuid) returns (acts: seq<Action>, last: Action)
    requires M >= 2 && TwoSlots(start)
    ensures IsRun(M, start, acts) && (forall a :: a in acts ==> !a.Crash?)
    ensures IsRun(M, start, acts + [last]) && !last.Crash?
    ensures id in Run(M, start, acts).events && Run(M, start, acts).events[id].status == Processed
    ensures id in Run(M, start, acts + [last]).events && Run(M, start, acts + [last]).events[id].status == Failed
  {
    hide IsRun, Run;
    var before, e, t := OvertakenLoad(M, start, id, M - 1);
    CommitLast(M, start, before, t, id, Msg(id, M), e);
    acts, last := before, Work(1, Commit);
  }
}
