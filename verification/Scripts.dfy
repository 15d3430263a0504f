/** What one turn of the worker loop and one redrive request do when nothing interleaves with them, as
    runs of the protocol and in closed form. */
module Scripts {
  import opened Lifecycle
  import opened Protocol

  // ---------------------------------------------------------------- one turn of the worker loop

  predicate WillPass(s: Sys, m: Msg) {
    m.id in s.events ==> Succeeds(s.events[m.id])
  }

  function TurnScript(s: Sys, p: nat): seq<Action> {
    if s.main == [] then []
    else if WillPass(s, s.main[0]) then [Work(p, Dequeue), Work(p, Process), Work(p, Ack)]
    else [Work(p, Dequeue), Work(p, Process), Work(p, Route), Work(p, Ack)]
  }

  /** The table and the lanes. */
  datatype Shop = Shop(rows: map<Uuid, Event>, main: seq<Msg>, retry: seq<Msg>, dlq: seq<Msg>)

  /** A delivered message has been attended to: its event is tried, and a failure moves it to retry or
      to the dead letters. */
  function Attended(M: MaxAttempts, s: Shop, m: Msg): Shop {
    if m.id !in s.rows then s
    else
      var e := s.rows[m.id];
      var tried := s.(rows := s.rows[m.id := Attempt(e, m.attempt >= M)]);
      if Succeeds(e) then tried
      else if m.attempt < M then tried.(retry := s.retry + [Msg(m.id, m.attempt + 1)])
      else tried.(dlq := s.dlq + [m])
  }

  /** The head of the main lane is delivered and attended to. */
  function Turn(M: MaxAttempts, s: Sys): Sys {
    if s.main == [] then s
    else
      var m := s.main[0];
      var shop := Attended(M, Shop(s.events, s.main[1..], s.retry, s.dlq), m);
      Sys(shop.rows, shop.main, shop.retry, shop.dlq, s.procs,
          if WillPass(s, m) then s.log.(completed := s.log.completed + multiset{m.id}) else s.log)
  }

  lemma RunNone(M: MaxAttempts, s: Sys)
    ensures IsRun(M, s, []) && Run(M, s, []) == s
  {
  }

  lemma RunOne(M: MaxAttempts, s: Sys, a: Action)
    requires Enabled(s, a)
    ensures IsRun(M, s, [a]) && Run(M, s, [a]) == Apply(M, s, a)
  {
    RunSnoc(M, s, [], a);
    assert [] + [a] == [a];
  }

  /** The head of the main lane has been processed, and slot `p` still holds it. */
  function HalfTurn(M: MaxAttempts, s: Sys, p: nat): Sys
    requires p < |s.procs| && s.main != []
  {
    var m := s.main[0];
    s.(main := s.main[1..],
       events := if m.id in s.events then s.events[m.id := Attempt(s.events[m.id], FinalAttempt(M, m))] else s.events,
       procs := s.procs[p := if WillPass(s, m) then Succeeded(m) else Faulted(m)])
  }

  lemma HalfTurnIsRun(M: MaxAttempts, s: Sys, p: nat)
    requires p < |s.procs| && s.procs[p] == Idle && s.main != []
    ensures var acts := [Work(p, Dequeue), Work(p, Process)];
      IsRun(M, s, acts) && Run(M, s, acts) == HalfTurn(M, s, p)
  {
    hide Attempt, Succeeds;
    RunOne(M, s, Work(p, Dequeue));
    RunSnoc(M, s, [Work(p, Dequeue)], Work(p, Process));
    assert [Work(p, Dequeue)] + [Work(p, Process)] == [Work(p, Dequeue), Work(p, Process)];
  }

  lemma PassIsRun(M: MaxAttempts, s: Sys, p: nat)
    requires p < |s.procs| && s.procs[p] == Idle && s.main != [] && WillPass(s, s.main[0])
    ensures IsRun(M, s, TurnScript(s, p)) && Run(M, s, TurnScript(s, p)) == Turn(M, s)
  {
    hide IsRun, Run, Attempt, Succeeds;
    var half := [Work(p, Dequeue), Work(p, Process)];
    HalfTurnIsRun(M, s, p);
    RunSnoc(M, s, half, Work(p, Ack));
    assert half + [Work(p, Ack)] == TurnScript(s, p);
    assert Run(M, s, TurnScript(s, p)).procs == s.procs;
  }

  lemma FailIsRun(M: MaxAttempts, s: Sys, p: nat)
    requires p < |s.procs| && s.procs[p] == Idle && s.main != [] && !WillPass(s, s.main[0])
    ensures IsRun(M, s, TurnScript(s, p)) && Run(M, s, TurnScript(s, p)) == Turn(M, s)
  {
    hide IsRun, Run, Attempt, Succeeds;
    var half := [Work(p, Dequeue), Work(p, Process)];
    HalfTurnIsRun(M, s, p);
    RunSnoc(M, s, half, Work(p, Route));
    var routed := half + [Work(p, Route)];
    RunSnoc(M, s, routed, Work(p, Ack));
    assert routed + [Work(p, Ack)] == TurnScript(s, p);
    assert Run(M, s, TurnScript(s, p)).procs == s.procs;
  }

  /** The steps of an uninterrupted turn come to its closed form. */
  lemma TurnIsRun(M: MaxAttempts, s: Sys, p: nat)
    requires p < |s.procs| && s.procs[p] == Idle
    ensures IsRun(M, s, TurnScript(s, p)) && Run(M, s, TurnScript(s, p)) == Turn(M, s)
  {
    if s.main == [] {
      RunNone(M, s);
    } else if WillPass(s, s.main[0]) {
      PassIsRun(M, s, p);
    } else {
      FailIsRun(M, s, p);
    }
  }

  function Turns(M: MaxAttempts, s: Sys, k: nat): Sys {
    if k == 0 then s else Turn(M, Turns(M, s, k - 1))
  }

  lemma OneMoreTurn(M: MaxAttempts, s: Sys, k: nat)
    ensures Turns(M, s, 0) == s && Turns(M, s, k + 1) == Turn(M, Turns(M, s, k))
  {
  }

  /** Any number of uninterrupted turns is a run. */
  lemma {:induction false} TurnsAreRun(M: MaxAttempts, s: Sys, p: nat, k: nat) returns (acts: seq<Action>)
    requires p < |s.procs| && s.procs[p] == Idle
    ensures IsRun(M, s, acts) && Run(M, s, acts) == Turns(M, s, k) && Turns(M, s, k).procs == s.procs
  {
    hide IsRun, Run, TurnScript;
    RunNone(M, s);
    acts := [];
    if k > 0 {
      var before := TurnsAreRun(M, s, p, k - 1);
      var t := Turns(M, s, k - 1);
      TurnIsRun(M, t, p);
      RunConcat(M, s, before, TurnScript(t, p));
      acts := before + TurnScript(t, p);
    }
  }

  // ---------------------------------------------------------------- expiries

  function Expiries(k: nat): seq<Action> {
    seq(k, i => Expire)
  }

  /** Expiries move the first messages of the retry lane, in order, to the end of the main lane, attempt
      numbers and all, and do nothing else. */
  lemma {:induction false} ExpiriesKeepOrder(M: MaxAttempts, s: Sys, k: nat)
    requires k <= |s.retry|
    ensures IsRun(M, s, Expiries(k))
    ensures Run(M, s, Expiries(k)) == s.(main := s.main + s.retry[..k], retry := s.retry[k..])
  {
    hide IsRun, Run;
    RunNone(M, s);
    if k == 0 {
      assert Expiries(0) == [] && s.main + s.retry[..0] == s.main && s.retry[0..] == s.retry;
    } else {
      ExpiriesKeepOrder(M, s, k - 1);
      RunSnoc(M, s, Expiries(k - 1), Expire);
      assert Expiries(k) == Expiries(k - 1) + [Expire];
      assert s.main + s.retry[..k] == s.main + s.retry[..k - 1] + [s.retry[k - 1]];
    }
  }

  // ---------------------------------------------------------------- one redrive request

  function Ids(ms: seq<Msg>): seq<Uuid> {
    seq(|ms|, i requires 0 <= i < |ms| => ms[i].id)
  }

  /** The messages of a redrive: same events, first attempt. */
  function Afresh(ids: seq<Uuid>): seq<Msg> {
    seq(|ids|, i requires 0 <= i < |ids| => Msg(ids[i], 1))
  }

  function RedriveSize(s: Sys, limit: nat): nat {
    if limit < |s.dlq| then limit else |s.dlq|
  }

  function OneRedrive(p: nat): seq<Action> {
    [Redrive(p, Get), Redrive(p, Republish), Redrive(p, Settle)]
  }

  function RedriveRounds(p: nat, k: nat): seq<Action> {
    if k == 0 then [] else RedriveRounds(p, k - 1) + OneRedrive(p)
  }

  function RedriveScript(s: Sys, p: nat, limit: nat): seq<Action> {
    [Redrive(p, Start(limit))] + RedriveRounds(p, RedriveSize(s, limit))
    + (if limit > |s.dlq| then [Redrive(p, Get)] else [])
    + [Redrive(p, Mark)]
  }

  /** After `k` rounds of a request for `limit` messages. */
  function MidRedrive(s: Sys, p: nat, limit: nat, k: nat): Sys
    requires p < |s.procs| && k <= |s.dlq| && k <= limit
  {
    var ids := Ids(s.dlq[..k]);
    s.(dlq := s.dlq[k..], main := s.main + Afresh(ids), procs := s.procs[p := Redriving(limit - k, ids)],
       log := s.log.(redriven := s.log.redriven + multiset(ids)))
  }

  /** The whole request: the first messages move to the main lane with attempt 1, and their events that
      are not processed become pending. */
  function Redriven(s: Sys, limit: nat): Sys {
    var k := RedriveSize(s, limit);
    var ids := Ids(s.dlq[..k]);
    s.(dlq := s.dlq[k..], main := s.main + Afresh(ids), events := MarkAll(s.events, ids),
       log := s.log.(redriven := s.log.redriven + multiset(ids)))
  }

  lemma OneMore(M: MaxAttempts, s: Sys, p: nat, limit: nat, k: nat)
    requires p < |s.procs| && k < |s.dlq| && k < limit
    ensures var t := MidRedrive(s, p, limit, k);
      IsRun(M, t, OneRedrive(p)) && Run(M, t, OneRedrive(p)) == MidRedrive(s, p, limit, k + 1)
  {
    hide Ids, Afresh, MarkAll, IsRun, Run;
    var t := MidRedrive(s, p, limit, k);
    var m := s.dlq[k];
    RunNone(M, t);
    RunSnoc(M, t, [], Redrive(p, Get));
    var a := [Redrive(p, Get)];
    assert [] + [Redrive(p, Get)] == a;
    RunSnoc(M, t, a, Redrive(p, Republish));
    var b := a + [Redrive(p, Republish)];
    RunSnoc(M, t, b, Redrive(p, Settle));
    assert b + [Redrive(p, Settle)] == OneRedrive(p);
    MidStep(s, k);
    assert s.main + Afresh(Ids(s.dlq[..k])) + [Msg(m.id, 1)] == s.main + Afresh(Ids(s.dlq[..k + 1]));
    assert t.dlq[0] == m && t.dlq[1..] == s.dlq[k + 1..];
  }

  lemma MidStep(s: Sys, k: nat)
    requires k < |s.dlq|
    ensures Ids(s.dlq[..k + 1]) == Ids(s.dlq[..k]) + [s.dlq[k].id]
    ensures Afresh(Ids(s.dlq[..k + 1])) == Afresh(Ids(s.dlq[..k])) + [Msg(s.dlq[k].id, 1)]
    ensures multiset(Ids(s.dlq[..k + 1])) == multiset(Ids(s.dlq[..k])) + multiset{s.dlq[k].id}
  {
  }

  lemma {:induction false} RunConcat(M: MaxAttempts, s: Sys, a: seq<Action>, b: seq<Action>)
    requires IsRun(M, s, a) && IsRun(M, Run(M, s, a), b)
    ensures IsRun(M, s, a + b) && Run(M, s, a + b) == Run(M, Run(M, s, a), b)
    decreases |a|
  {
    if a == [] {
      assert a + b == b;
    } else {
      assert (a + b)[0] == a[0] && (a + b)[1..] == a[1..] + b;
      RunConcat(M, Apply(M, s, a[0]), a[1..], b);
    }
  }

  lemma StartRun(M: MaxAttempts, s: Sys, p: nat, limit: nat)
    requires p < |s.procs| && s.procs[p] == Idle
    ensures var acts := [Redrive(p, Start(limit))];
      IsRun(M, s, acts) && Run(M, s, acts) == MidRedrive(s, p, limit, 0)
  {
    var a := Redrive(p, Start(limit));
    RunSnoc(M, s, [], a);
    assert [] + [a] == [a];
    assert Ids(s.dlq[..0]) == [] && s.dlq[0..] == s.dlq && s.main + Afresh([]) == s.main;
  }

  lemma {:induction false} RoundsRun(M: MaxAttempts, s: Sys, p: nat, limit: nat, k: nat)
    requires p < |s.procs| && s.procs[p] == Idle && k <= |s.dlq| && k <= limit
    ensures var acts := [Redrive(p, Start(limit))] + RedriveRounds(p, k);
      IsRun(M, s, acts) && Run(M, s, acts) == MidRedrive(s, p, limit, k)
  {
    hide IsRun, Run, Apply, MidRedrive;
    var start := [Redrive(p, Start(limit))];
    if k == 0 {
      StartRun(M, s, p, limit);
      assert start + RedriveRounds(p, 0) == start;
    } else {
      var before := start + RedriveRounds(p, k - 1);
      RoundsRun(M, s, p, limit, k - 1);
      OneMore(M, s, p, limit, k - 1);
      RunConcat(M, s, before, OneRedrive(p));
      assert before + OneRedrive(p) == start + RedriveRounds(p, k);
    }
  }

  /** The steps of an uninterrupted redrive request come to its closed form. */
  lemma RedriveIsRun(M: MaxAttempts, s: Sys, p: nat, limit: nat)
    requires p < |s.procs| && s.procs[p] == Idle
    ensures IsRun(M, s, RedriveScript(s, p, limit)) && Run(M, s, RedriveScript(s, p, limit)) == Redriven(s, limit)
  {
    var k := RedriveSize(s, limit);
    var rounds := [Redrive(p, Start(limit))] + RedriveRounds(p, k);
    RoundsRun(M, s, p, limit, k);
    var last := if limit > |s.dlq| then [Redrive(p, Get)] else [];
    if limit > |s.dlq| {
      RunSnoc(M, s, rounds, Redrive(p, Get));
    } else {
      assert rounds + last == rounds;
    }
    RunSnoc(M, s, rounds + last, Redrive(p, Mark));
    assert Run(M, s, rounds + last + [Redrive(p, Mark)]).procs == s.procs;
  }

  lemma AfreshConcat(main: seq<Msg>, first: seq<Msg>, second: seq<Msg>)
    ensures Ids(first + second) == Ids(first) + Ids(second)
    ensures main + Afresh(Ids(first + second)) == main + Afresh(Ids(first)) + Afresh(Ids(second))
    ensures multiset(Ids(first + second)) == multiset(Ids(first)) + multiset(Ids(second))
  {
    assert Ids(first + second) == Ids(first) + Ids(second);
    assert Afresh(Ids(first) + Ids(second)) == Afresh(Ids(first)) + Afresh(Ids(second));
  }

  lemma SplitPrefix<T>(s: seq<T>, j: nat, k: nat)
    requires j <= k <= |s|
    ensures s[..k] == s[..j] + s[j..][..k - j] && s[j..][k - j..] == s[k..]
  {
  }

  /** Redriving `a` and then `b` messages is redriving `a + b`. */
  lemma RedriveTwice(s: Sys, a: nat, b: nat)
    ensures Redriven(Redriven(s, a), b) == Redriven(s, a + b)
  {
    hide Ids, Afresh, MarkAll;
    var j, k := RedriveSize(s, a), RedriveSize(s, a + b);
    var first, second := s.dlq[..j], s.dlq[j..][..k - j];
    SplitPrefix(s.dlq, j, k);
    AfreshConcat(s.main, first, second);
    MarkTwice(s.events, Ids(first), Ids(second));
    assert RedriveSize(Redriven(s, a), b) == k - j;
  }

  lemma MarkTwice(events: map<Uuid, Event>, a: seq<Uuid>, b: seq<Uuid>)
    ensures MarkAll(MarkAll(events, a), b) == MarkAll(events, a + b)
  {
  }

  // ---------------------------------------------------------------- one webhook or retry request

  /** An answer that comes before anything is stored or sent. */
  function Answered(s: Sys, answer: Answer): Sys {
    s.(log := Told(s.log, answer))
  }

  /** The publish of a request for `id`, which is answered `accepted` when it is confirmed. */
  function Announced(s: Sys, id: Uuid, accepted: Answer, link: PublishResult): Sys {
    var log := Told(s.log, if link == Confirmed then accepted else Refused(503));
    if link == NotSent then s.(log := log)
    else s.(main := s.main + [Msg(id, 1)], log := log.(enqueued := log.enqueued + multiset{id}))
  }

  function Stored(s: Sys, request: Request, id: Uuid): Sys {
    var row := NewEvent(request.delivery, request.source, request.counter, request.forced);
    s.(events := s.events[id := row], log := s.log.(born := s.log.born[id := row]))
  }

  lemma DuplicateRun(M: MaxAttempts, s: Sys, p: nat, request: Request, id: Uuid)
    requires p < |s.procs| && s.procs[p] == Idle && Lookup(s.events, request.delivery, Some(id))
    ensures var acts := [Api(p, Receive(request, Some(id)))];
      IsRun(M, s, acts) && Run(M, s, acts) == Answered(s, Duplicate(request.delivery, id))
  {
    RunOne(M, s, Api(p, Receive(request, Some(id))));
  }

  lemma InsertRun(M: MaxAttempts, s: Sys, p: nat, request: Request, id: Uuid)
    requires p < |s.procs| && s.procs[p] == Idle && Lookup(s.events, request.delivery, None) && id !in s.events
    ensures var acts := [Api(p, Receive(request, None)), Api(p, Insert(id))];
      && IsRun(M, s, acts)
      && Run(M, s, acts) == if Taken(s.events, request.delivery) then Answered(s, Refused(500))
                            else Stored(s, request, id).(procs := s.procs[p := Inserted(id)])
  {
    var a, b := Api(p, Receive(request, None)), Api(p, Insert(id));
    RunOne(M, s, a);
    RunSnoc(M, s, [a], b);
    assert [a] + [b] == [a, b];
    assert Taken(s.events, request.delivery) ==> Run(M, s, [a, b]).procs == s.procs;
  }

  lemma AcceptRun(M: MaxAttempts, s: Sys, p: nat, request: Request, id: Uuid, link: PublishResult)
    requires p < |s.procs| && s.procs[p] == Idle && Lookup(s.events, request.delivery, None) && id !in s.events
    requires !Taken(s.events, request.delivery)
    ensures var acts := [Api(p, Receive(request, None)), Api(p, Insert(id)), Enqueue(p, link)];
      && IsRun(M, s, acts)
      && Run(M, s, acts) == Announced(Stored(s, request, id), id, Accepted(request.delivery, id), link)
  {
    var acts := [Api(p, Receive(request, None)), Api(p, Insert(id))];
    InsertRun(M, s, p, request, id);
    RunSnoc(M, s, acts, Enqueue(p, link));
    assert acts + [Enqueue(p, link)] == [Api(p, Receive(request, None)), Api(p, Insert(id)), Enqueue(p, link)];
    assert Run(M, s, acts + [Enqueue(p, link)]).procs == s.procs;
  }

  lemma RetryRun(M: MaxAttempts, s: Sys, p: nat, id: Uuid, link: PublishResult)
    requires p < |s.procs| && s.procs[p] == Idle
    ensures var acts := if id in s.events && s.events[id].status != Processed
                        then [Api(p, CheckRetry(id)), Enqueue(p, link)] else [Api(p, CheckRetry(id))];
      && IsRun(M, s, acts)
      && Run(M, s, acts) == if id !in s.events then Answered(s, Refused(404))
                            else if s.events[id].status == Processed then Answered(s, Refused(409))
                            else Announced(s, id, RetryScheduled(id), link)
  {
    var a := Api(p, CheckRetry(id));
    RunOne(M, s, a);
    if id in s.events && s.events[id].status != Processed {
      RunSnoc(M, s, [a], Enqueue(p, link));
      assert [a] + [Enqueue(p, link)] == [a, Enqueue(p, link)];
      assert Run(M, s, [a, Enqueue(p, link)]).procs == s.procs;
    }
  }
}
