/** The event lifecycle over RabbitMQ as a state machine: the events table, the three lanes, and any
    number of concurrent workers, redrive requests, webhook requests and manual retries.

    An action names everything that is not determined by the state (who moves, which id is drawn,
    where the broker puts a message back), so a run is a sequence of actions. */
module Protocol {
  import opened Lifecycle
  import opened Sums

  datatype Msg = Msg(id: Uuid, attempt: int)

  datatype Request = Request(delivery: Option<string>, source: string, counter: Counter, forced: bool)

  /** Where one concurrent actor stands. Any slot can take any role. */
  datatype Proc =
    | Idle
      // a worker (app/worker.py:25-39)
    | Holding(m: Msg)
    | Loaded(m: Msg, row: Event)
    | Succeeded(m: Msg)
    | Faulted(m: Msg)
    | Routed(m: Msg)
      // a redrive request (app/queue.py:322-335, app/routers/webhooks.py:246-247)
    | Redriving(left: nat, redriven: seq<Uuid>)
    | RedriveHolding(left: nat, redriven: seq<Uuid>, m: Msg)
    | Republished(left: nat, redriven: seq<Uuid>, m: Msg)
      // a webhook or retry request (app/routers/webhooks.py:106-146, 212-233)
    | Checked(request: Request)
    | Inserted(id: Uuid)
    | RetryChecked(id: Uuid)

  datatype Answer =
    | Accepted(delivery: Option<string>, id: Uuid)
    | Duplicate(delivery: Option<string>, id: Uuid)
    | RetryScheduled(id: Uuid)
    | Refused(code: int)

  /** What happened so far; no action reads it. */
  datatype History = History(
    born: map<Uuid, Event>,
    enqueued: multiset<Uuid>,
    completed: multiset<Uuid>,
    interrupted: multiset<Uuid>,
    redriven: multiset<Uuid>,
    answers: multiset<Answer>)

  datatype Sys = Sys(
    events: map<Uuid, Event>,
    main: seq<Msg>,
    retry: seq<Msg>,
    dlq: seq<Msg>,
    procs: seq<Proc>,
    log: History)

  datatype WorkerOp = Dequeue | Process | Load | Commit | Route | Ack
  datatype RedriveOp = Start(limit: nat) | Get | Republish | Settle | Mark
  datatype ApiOp =
    | Receive(request: Request, found: Option<Uuid>)
    | Insert(id: Uuid)
    | CheckRetry(id: Uuid)
  /** The publish of an API request succeeds, or raises with or without the broker having the message. */
  datatype PublishResult = Confirmed | Unconfirmed | NotSent

  datatype Action =
    | Work(p: nat, work: WorkerOp)
    | Redrive(p: nat, redrive: RedriveOp)
    | Api(p: nat, api: ApiOp)
    | Enqueue(p: nat, outcome: PublishResult)
    | Expire
    | Crash(p: nat, at: nat)

  predicate Initial(s: Sys) {
    && s.events == map[] && s.main == [] && s.retry == [] && s.dlq == []
    && (forall p | 0 <= p < |s.procs| :: s.procs[p] == Idle)
    && s.log == History(map[], multiset{}, multiset{}, multiset{}, multiset{}, multiset{})
  }

  // ---------------------------------------------------------------- workers

  predicate CanWork(s: Sys, p: nat, op: WorkerOp) {
    p < |s.procs| && match op
    case Dequeue => s.procs[p].Idle? && s.main != []
    case Process => s.procs[p].Holding?
    case Load => s.procs[p].Holding? && s.procs[p].m.id in s.events
    case Commit => s.procs[p].Loaded? && s.procs[p].m.id in s.events
    case Route => s.procs[p].Faulted?
    case Ack => s.procs[p].Succeeded? || s.procs[p].Routed?
  }

  /** The worker's own last-attempt test (app/worker.py:34). */
  predicate FinalAttempt(M: MaxAttempts, m: Msg) {
    m.attempt >= M
  }

  /** The router's last-attempt test (app/queue.py:294-295). */
  predicate HasNextAttempt(M: MaxAttempts, m: Msg) {
    m.attempt + 1 <= M
  }

  function DoWork(M: MaxAttempts, s: Sys, p: nat, op: WorkerOp): Sys
    requires CanWork(s, p, op)
  {
    match op
    case Dequeue => s.(main := s.main[1..], procs := s.procs[p := Holding(s.main[0])])
    case Process =>
      var m := s.procs[p].m;
      if m.id !in s.events then s.(procs := s.procs[p := Succeeded(m)])
      else
        var e := s.events[m.id];
        s.(events := s.events[m.id := Attempt(e, FinalAttempt(M, m))],
           procs := s.procs[p := if Succeeds(e) then Succeeded(m) else Faulted(m)])
    case Load =>
      var m := s.procs[p].m;
      s.(procs := s.procs[p := Loaded(m, s.events[m.id])])
    case Commit =>
      var m, row := s.procs[p].m, s.procs[p].row;
      s.(events := s.events[m.id := Written(s.events[m.id], row, FinalAttempt(M, m))],
         procs := s.procs[p := if Succeeds(row) then Succeeded(m) else Faulted(m)])
    case Route =>
      var m := s.procs[p].m;
      if HasNextAttempt(M, m)
      then s.(retry := s.retry + [Msg(m.id, m.attempt + 1)], procs := s.procs[p := Routed(m)])
      else s.(dlq := s.dlq + [m], procs := s.procs[p := Routed(m)])
    case Ack =>
      var log := if s.procs[p].Succeeded?
                 then s.log.(completed := s.log.completed + multiset{s.procs[p].m.id})
                 else s.log;
      s.(procs := s.procs[p := Idle], log := log)
  }

  // ---------------------------------------------------------------- redrive requests

  predicate CanRedrive(s: Sys, p: nat, op: RedriveOp) {
    p < |s.procs| && match op
    case Start(_) => s.procs[p].Idle?
    case Get => s.procs[p].Redriving? && s.procs[p].left > 0
    case Republish => s.procs[p].RedriveHolding?
    case Settle => s.procs[p].Republished?
    case Mark => s.procs[p].Redriving? && s.procs[p].left == 0
  }

  function MarkAll(events: map<Uuid, Event>, ids: seq<Uuid>): map<Uuid, Event> {
    map id | id in events :: if id in ids then MarkedPending(events[id]) else events[id]
  }

  function DoRedrive(s: Sys, p: nat, op: RedriveOp): Sys
    requires CanRedrive(s, p, op)
  {
    match op
    case Start(limit) => s.(procs := s.procs[p := Redriving(limit, [])])
    case Get =>
      var Redriving(left, redriven) := s.procs[p];
      if s.dlq == [] then s.(procs := s.procs[p := Redriving(0, redriven)])
      else s.(dlq := s.dlq[1..], procs := s.procs[p := RedriveHolding(left - 1, redriven, s.dlq[0])])
    case Republish =>
      var RedriveHolding(left, redriven, m) := s.procs[p];
      s.(main := s.main + [Msg(m.id, 1)], procs := s.procs[p := Republished(left, redriven, m)],
         log := s.log.(redriven := s.log.redriven + multiset{m.id}))
    case Settle =>
      var Republished(left, redriven, m) := s.procs[p];
      s.(procs := s.procs[p := Redriving(left, redriven + [m.id])])
    case Mark =>
      s.(events := MarkAll(s.events, s.procs[p].redriven), procs := s.procs[p := Idle])
  }

  // ---------------------------------------------------------------- webhook and retry requests

  predicate Holds(events: map<Uuid, Event>, delivery: Option<string>, id: Uuid) {
    id in events && events[id].delivery == delivery
  }

  /** The duplicate lookup, which runs only for a non-empty delivery id. */
  ghost predicate Lookup(events: map<Uuid, Event>, delivery: Option<string>, found: Option<Uuid>) {
    if delivery.None? || delivery == Some("") then found == None
    else match found
      case Some(id) => Holds(events, delivery, id)
      case None => forall id :: !Holds(events, delivery, id)
  }

  ghost predicate CanApi(s: Sys, p: nat, op: ApiOp) {
    p < |s.procs| && match op
    case Receive(request, found) => s.procs[p].Idle? && Lookup(s.events, request.delivery, found)
    case Insert(id) => s.procs[p].Checked? && id !in s.events
    case CheckRetry(_) => s.procs[p].Idle?
  }

  /** The unique index on `delivery_id`: it lets any number of rows have none. */
  ghost predicate Taken(events: map<Uuid, Event>, delivery: Option<string>) {
    delivery.Some? && exists id :: Holds(events, delivery, id)
  }

  function Told(log: History, a: Answer): History {
    log.(answers := log.answers + multiset{a})
  }

  ghost function DoApi(s: Sys, p: nat, op: ApiOp): Sys
    requires CanApi(s, p, op)
  {
    match op
    case Receive(request, found) => (
      match found
      case Some(id) => s.(log := Told(s.log, Duplicate(request.delivery, id)))
      case None => s.(procs := s.procs[p := Checked(request)]))
    case Insert(id) =>
      var r := s.procs[p].request;
      if Taken(s.events, r.delivery) then s.(procs := s.procs[p := Idle], log := Told(s.log, Refused(500)))
      else
        var row := NewEvent(r.delivery, r.source, r.counter, r.forced);
        s.(events := s.events[id := row], procs := s.procs[p := Inserted(id)],
           log := s.log.(born := s.log.born[id := row]))
    case CheckRetry(id) =>
      if id !in s.events then s.(log := Told(s.log, Refused(404)))
      else if s.events[id].status == Processed then s.(log := Told(s.log, Refused(409)))
      else s.(procs := s.procs[p := RetryChecked(id)])
  }

  predicate CanEnqueue(s: Sys, p: nat) {
    p < |s.procs| && ((s.procs[p].Inserted? && s.procs[p].id in s.events) || s.procs[p].RetryChecked?)
  }

  function EnqueueAnswer(s: Sys, p: nat, outcome: PublishResult): Answer
    requires CanEnqueue(s, p)
  {
    var id := s.procs[p].id;
    if outcome != Confirmed then Refused(503)
    else if s.procs[p].Inserted? then Accepted(s.events[id].delivery, id)
    else RetryScheduled(id)
  }

  function DoEnqueue(s: Sys, p: nat, outcome: PublishResult): Sys
    requires CanEnqueue(s, p)
  {
    var id := s.procs[p].id;
    var log := Told(s.log, EnqueueAnswer(s, p, outcome));
    if outcome == NotSent then s.(procs := s.procs[p := Idle], log := log)
    else s.(main := s.main + [Msg(id, 1)], procs := s.procs[p := Idle],
            log := log.(enqueued := s.log.enqueued + multiset{id}))
  }

  // ---------------------------------------------------------------- broker and failures

  /** Expiry moves the head of the retry lane to the main lane, attempt number and all. */
  function DoExpire(s: Sys): Sys
    requires s.retry != []
  {
    s.(retry := s.retry[1..], main := s.main + [s.retry[0]])
  }

  predicate WorkerHolds(q: Proc) {
    q.Holding? || q.Loaded? || q.Succeeded? || q.Faulted? || q.Routed?
  }

  predicate RedriveHolds(q: Proc) {
    q.RedriveHolding? || q.Republished?
  }

  predicate CanCrash(s: Sys, p: nat, at: nat) {
    && p < |s.procs| && !s.procs[p].Idle?
    && (WorkerHolds(s.procs[p]) ==> at <= |s.main|)
    && (RedriveHolds(s.procs[p]) ==> at <= |s.dlq|)
  }

  /** An actor stops (or ends with an exception); the broker puts its unacked message back somewhere
      in the lane it came from. */
  function DoCrash(s: Sys, p: nat, at: nat): Sys
    requires CanCrash(s, p, at)
  {
    var q := s.procs[p];
    var s0 := s.(procs := s.procs[p := Idle]);
    var s1 := if q.Routed? || q.Republished?
              then s0.(log := s.log.(interrupted := s.log.interrupted + multiset{q.m.id}))
              else s0;
    if WorkerHolds(q) then s1.(main := s.main[..at] + [q.m] + s.main[at..])
    else if RedriveHolds(q) then s1.(dlq := s.dlq[..at] + [q.m] + s.dlq[at..])
    else s1
  }

  // ---------------------------------------------------------------- runs

  ghost predicate Enabled(s: Sys, a: Action) {
    match a
    case Work(p, op) => CanWork(s, p, op)
    case Redrive(p, op) => CanRedrive(s, p, op)
    case Api(p, op) => CanApi(s, p, op)
    case Enqueue(p, _) => CanEnqueue(s, p)
    case Expire => s.retry != []
    case Crash(p, at) => CanCrash(s, p, at)
  }

  ghost function Apply(M: MaxAttempts, s: Sys, a: Action): Sys
    requires Enabled(s, a)
  {
    match a
    case Work(p, op) => DoWork(M, s, p, op)
    case Redrive(p, op) => DoRedrive(s, p, op)
    case Api(p, op) => DoApi(s, p, op)
    case Enqueue(p, outcome) => DoEnqueue(s, p, outcome)
    case Expire => DoExpire(s)
    case Crash(p, at) => DoCrash(s, p, at)
  }

  ghost predicate IsRun(M: MaxAttempts, s: Sys, acts: seq<Action>)
    decreases |acts|
  {
    acts == [] || (Enabled(s, acts[0]) && IsRun(M, Apply(M, s, acts[0]), acts[1..]))
  }

  ghost function Run(M: MaxAttempts, s: Sys, acts: seq<Action>): Sys
    requires IsRun(M, s, acts)
    decreases |acts|
  {
    if acts == [] then s else Run(M, Apply(M, s, acts[0]), acts[1..])
  }

  /** A run can be extended at its end. */
  lemma {:induction false} RunSnoc(M: MaxAttempts, s: Sys, acts: seq<Action>, a: Action)
    requires IsRun(M, s, acts) && Enabled(Run(M, s, acts), a)
    ensures IsRun(M, s, acts + [a]) && Run(M, s, acts + [a]) == Apply(M, Run(M, s, acts), a)
    decreases |acts|
  {
    if acts == [] {
      assert acts + [a] == [a];
      assert Run(M, Apply(M, s, a), [a][1..]) == Apply(M, s, a);
    } else {
      assert (acts + [a])[0] == acts[0] && (acts + [a])[1..] == acts[1..] + [a];
      RunSnoc(M, Apply(M, s, acts[0]), acts[1..], a);
    }
  }

  // ---------------------------------------------------------------- weighing a state

  /** A weight for each place a message can be in. */
  datatype Weights = Weights(main: Msg -> int, retry: Msg -> int, dlq: Msg -> int, proc: Proc -> int)

  function Total(w: Weights, s: Sys): int {
    Sum(s.main, w.main) + Sum(s.retry, w.retry) + Sum(s.dlq, w.dlq) + Sum(s.procs, w.proc)
  }

  datatype Lane = Main | Retry | Dlq

  datatype Spot = Spot(lane: Lane, m: Msg)

  /** The message an action puts into a lane. */
  ghost function Put(M: MaxAttempts, s: Sys, a: Action): Option<Spot>
    requires Enabled(s, a)
  {
    match a
    case Work(p, Route) =>
      var m := s.procs[p].m;
      Some(if HasNextAttempt(M, m) then Spot(Retry, Msg(m.id, m.attempt + 1)) else Spot(Dlq, m))
    case Redrive(p, Republish) => Some(Spot(Main, Msg(s.procs[p].m.id, 1)))
    case Enqueue(p, outcome) => if outcome == NotSent then None else Some(Spot(Main, Msg(s.procs[p].id, 1)))
    case Expire => Some(Spot(Main, s.retry[0]))
    case Crash(p, _) =>
      var q := s.procs[p];
      if WorkerHolds(q) then Some(Spot(Main, q.m)) else if RedriveHolds(q) then Some(Spot(Dlq, q.m)) else None
    case _ => None
  }

  /** The message an action takes out of a lane. */
  ghost function Took(s: Sys, a: Action): Option<Spot>
    requires Enabled(s, a)
  {
    match a
    case Work(p, Dequeue) => Some(Spot(Main, s.main[0]))
    case Redrive(p, Get) => if s.dlq == [] then None else Some(Spot(Dlq, s.dlq[0]))
    case Expire => Some(Spot(Retry, s.retry[0]))
    case _ => None
  }

  function SpotWeight(w: Weights, x: Option<Spot>): int {
    match x
    case None => 0
    case Some(Spot(Main, m)) => w.main(m)
    case Some(Spot(Retry, m)) => w.retry(m)
    case Some(Spot(Dlq, m)) => w.dlq(m)
  }

  /** What an action changes the weight of the moving slot by. */
  ghost function ProcChange(M: MaxAttempts, w: Weights, s: Sys, a: Action): int
    requires Enabled(s, a)
  {
    if a.Expire? then 0 else w.proc(Apply(M, s, a).procs[a.p]) - w.proc(s.procs[a.p])
  }

  ghost predicate Balanced(M: MaxAttempts, w: Weights, s: Sys, a: Action)
    requires Enabled(s, a)
  {
    Total(w, Apply(M, s, a)) ==
    Total(w, s) + SpotWeight(w, Put(M, s, a)) - SpotWeight(w, Took(s, a)) + ProcChange(M, w, s, a)
  }

  /** The weight of a state after any action, for any weights. */
  lemma Balance(M: MaxAttempts, w: Weights, s: Sys, a: Action)
    requires Enabled(s, a)
    ensures Balanced(M, w, s, a)
  {
    match a
    case Work(p, op) => BalanceWork(M, w, s, p, op);
    case Redrive(p, op) => BalanceRedrive(M, w, s, p, op);
    case Api(p, op) => BalanceApi(M, w, s, p, op);
    case Enqueue(p, outcome) => BalanceEnqueue(M, w, s, p, outcome);
    case Expire => SumAppend(s.main, s.retry[0], w.main);
    case Crash(p, at) => BalanceCrash(M, w, s, p, at);
  }

  lemma BalanceWork(M: MaxAttempts, w: Weights, s: Sys, p: nat, op: WorkerOp)
    requires CanWork(s, p, op)
    ensures Balanced(M, w, s, Work(p, op))
  {
    var t := DoWork(M, s, p, op);
    SumUpdate(s.procs, p, t.procs[p], w.proc);
    if op.Route? {
      var m := s.procs[p].m;
      SumAppend(s.retry, Msg(m.id, m.attempt + 1), w.retry);
      SumAppend(s.dlq, m, w.dlq);
    }
  }

  lemma BalanceRedrive(M: MaxAttempts, w: Weights, s: Sys, p: nat, op: RedriveOp)
    requires CanRedrive(s, p, op)
    ensures Balanced(M, w, s, Redrive(p, op))
  {
    var t := DoRedrive(s, p, op);
    SumUpdate(s.procs, p, t.procs[p], w.proc);
    if op.Republish? {
      SumAppend(s.main, Msg(s.procs[p].m.id, 1), w.main);
    }
  }

  lemma BalanceApi(M: MaxAttempts, w: Weights, s: Sys, p: nat, op: ApiOp)
    requires CanApi(s, p, op)
    ensures Balanced(M, w, s, Api(p, op))
  {
    var t := DoApi(s, p, op);
    assert t.procs == s.procs[p := t.procs[p]];
    SumUpdate(s.procs, p, t.procs[p], w.proc);
  }

  lemma BalanceEnqueue(M: MaxAttempts, w: Weights, s: Sys, p: nat, outcome: PublishResult)
    requires CanEnqueue(s, p)
    ensures Balanced(M, w, s, Enqueue(p, outcome))
  {
    SumUpdate(s.procs, p, Idle, w.proc);
    SumAppend(s.main, Msg(s.procs[p].id, 1), w.main);
  }

  lemma BalanceCrash(M: MaxAttempts, w: Weights, s: Sys, p: nat, at: nat)
    requires CanCrash(s, p, at)
    ensures Balanced(M, w, s, Crash(p, at))
  {
    var q := s.procs[p];
    SumUpdate(s.procs, p, Idle, w.proc);
    if WorkerHolds(q) { SumInsert(s.main, at, q.m, w.main); }
    if RedriveHolds(q) { SumInsert(s.dlq, at, q.m, w.dlq); }
  }

  /** The messages and slots of `t` are those of `s`, and what the action `a` brings. */
  ghost predicate Gains(M: MaxAttempts, s: Sys, a: Action, t: Sys)
    requires Enabled(s, a)
  {
    && (forall m :: m in t.main ==> m in s.main || Put(M, s, a) == Some(Spot(Main, m)))
    && (forall m :: m in t.retry ==> m in s.retry || Put(M, s, a) == Some(Spot(Retry, m)))
    && (forall m :: m in t.dlq ==> m in s.dlq || Put(M, s, a) == Some(Spot(Dlq, m)))
    && |t.procs| == |s.procs|
    && (forall q :: q in t.procs ==> q in s.procs || (!a.Expire? && a.p < |t.procs| && q == t.procs[a.p]))
  }

  lemma Footprint(M: MaxAttempts, s: Sys, a: Action)
    requires Enabled(s, a)
    ensures Gains(M, s, a, Apply(M, s, a))
  {
    hide DoWork, DoRedrive, DoApi, DoCrash;
    match a
    case Work(p, op) => FootprintWork(M, s, p, op);
    case Redrive(p, op) => FootprintRedrive(M, s, p, op);
    case Api(p, op) => FootprintApi(M, s, p, op);
    case Enqueue(p, outcome) =>
    case Expire =>
    case Crash(p, at) => FootprintCrash(M, s, p, at);
  }

  lemma FootprintCrash(M: MaxAttempts, s: Sys, p: nat, at: nat)
    requires CanCrash(s, p, at)
    ensures Gains(M, s, Crash(p, at), DoCrash(s, p, at))
  {
    CrashFrame(s, p, at);
  }

  lemma FootprintWork(M: MaxAttempts, s: Sys, p: nat, op: WorkerOp)
    requires CanWork(s, p, op)
    ensures Gains(M, s, Work(p, op), DoWork(M, s, p, op))
  {
  }

  lemma FootprintRedrive(M: MaxAttempts, s: Sys, p: nat, op: RedriveOp)
    requires CanRedrive(s, p, op)
    ensures Gains(M, s, Redrive(p, op), DoRedrive(s, p, op))
  {
  }

  lemma FootprintApi(M: MaxAttempts, s: Sys, p: nat, op: ApiOp)
    requires CanApi(s, p, op)
    ensures Gains(M, s, Api(p, op), DoApi(s, p, op))
  {
  }

  /** A crash touches neither the table nor what was answered. */
  lemma CrashFrame(s: Sys, p: nat, at: nat)
    requires CanCrash(s, p, at)
    ensures var t := DoCrash(s, p, at);
      && t.events == s.events && t.retry == s.retry && t.procs == s.procs[p := Idle]
      && t.log == s.log.(interrupted := t.log.interrupted)
  {
  }

  /** A step of a webhook or retry request before its publish leaves the lanes and the counts alone. */
  lemma ApiFrame(s: Sys, p: nat, op: ApiOp)
    requires CanApi(s, p, op)
    ensures var t := DoApi(s, p, op);
      && t.main == s.main && t.retry == s.retry && t.dlq == s.dlq
      && |t.procs| == |s.procs| && t.procs == s.procs[p := t.procs[p]]
      && !WorkerHolds(s.procs[p]) && !RedriveHolds(s.procs[p])
      && !WorkerHolds(t.procs[p]) && !RedriveHolds(t.procs[p])
      && t.log == s.log.(born := t.log.born, answers := t.log.answers)
  {
  }

  /** ... and changes the table at most by one new row, which the history records. */
  ghost predicate SameRows(s: Sys, t: Sys) {
    t.events == s.events && t.log.born == s.log.born
  }

  ghost predicate InsertsRow(s: Sys, t: Sys, id: Uuid, row: Event) {
    && id !in s.events && IsNew(row)
    && t.events == s.events[id := row] && t.log.born == s.log.born[id := row]
  }

  lemma ApiRows(s: Sys, p: nat, op: ApiOp)
    requires CanApi(s, p, op)
    ensures var t := DoApi(s, p, op);
      SameRows(s, t) || (op.Insert? && op.id in t.events && InsertsRow(s, t, op.id, t.events[op.id]))
    ensures !DoApi(s, p, op).procs[p].Loaded?
  {
  }
}
