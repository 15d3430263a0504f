/** The worker loop and the API handlers (app/worker.py, app/routers/webhooks.py) over the table and the
    queue, and the runs of the protocol they amount to when nothing interleaves with them. */
module Service {
  import opened Lifecycle
  import opened Text
  import opened QueuePayload
  import opened Protocol
  import RedisQueue
  import opened Scripts
  import opened Queue
  import opened Store

  predicate HeadReadable(lane: seq<Body>) {
    lane != [] && ReadBody(lane[0]).Some?
  }

  predicate AllReadable(lane: seq<Body>) {
    forall i :: 0 <= i < |lane| ==> ReadBody(lane[i]).Some?
  }

  lemma MessagesHead(lane: seq<Body>)
    requires HeadReadable(lane)
    ensures var (id, attempt) := ReadBody(lane[0]).value;
      Messages(lane) != [] && Messages(lane)[0] == Msg(id, attempt) && Messages(lane)[1..] == Messages(lane[1..])
  {
  }

  lemma MessagesDrop(lane: seq<Body>)
    requires lane != [] && !HeadReadable(lane)
    ensures Messages(lane[1..]) == Messages(lane)
  {
  }

  lemma {:induction false} MessagesAll(lane: seq<Body>)
    ensures |Messages(lane)| <= |lane|
    ensures AllReadable(lane) ==> |Messages(lane)| == |lane|
  {
    hide ReadBody;
    if lane != [] {
      MessagesAll(lane[1..]);
    }
  }

  /** The messages of a lane come apart where the lane does. */
  lemma MessagesSplit(lane: seq<Body>, k: nat)
    requires k <= |lane|
    ensures var n := |Messages(lane[..k])|;
      && n <= |Messages(lane)|
      && Messages(lane[..k]) == Messages(lane)[..n] && Messages(lane[k..]) == Messages(lane)[n..]
  {
    hide ReadBody;
    assert lane == lane[..k] + lane[k..];
    MessagesConcat(lane[..k], lane[k..]);
  }

  /** The ids of the Redis list, without the entries that are no ids. */
  function Listed(list: seq<Str>): seq<Uuid> {
    if list == [] then []
    else (match ParseUuid(list[0]) case None => [] case Some(id) => [id]) + Listed(list[1..])
  }

  lemma {:induction false} ListedPush(list: seq<Str>, id: Uuid)
    ensures Listed(list + [UuidText(id)]) == Listed(list) + [id]
  {
    if list == [] {
      ParseUuidText(id);
      assert list + [UuidText(id)] == [UuidText(id)];
      assert Listed([UuidText(id)][1..]) == [];
    } else {
      assert (list + [UuidText(id)])[1..] == list[1..] + [UuidText(id)];
      ListedPush(list[1..], id);
    }
  }

  predicate AllIds(list: seq<Str>) {
    forall i :: 0 <= i < |list| ==> ParseUuid(list[i]).Some?
  }

  lemma AllIdsPush(list: seq<Str>, id: Uuid)
    requires AllIds(list)
    ensures AllIds(list + [UuidText(id)])
  {
    ParseUuidText(id);
  }

  predicate HeadIsId(list: seq<Str>) {
    list != [] && ParseUuid(list[0]).Some?
  }

  ghost function ShopOf(queue: EventQueue, db: Database): Shop
    reads queue, db
  {
    Shop(db.rows, Messages(queue.main), Messages(queue.retry), Messages(queue.dlq))
  }

  ghost function DeskOf(queue: EventQueue, db: Database): RedisQueue.Desk
    reads queue, db
  {
    RedisQueue.Desk(db.rows, Listed(queue.list))
  }

  /** `dequeue_event` in terms of the messages and ids that the queue holds. */
  method Poll(queue: EventQueue) returns (envelope: Option<Envelope>)
    requires queue.backend != Inline
    modifies queue
    ensures queue.retry == old(queue.retry) && queue.dlq == old(queue.dlq)
    ensures queue.backend == RabbitMq ==>
      && queue.main == (if old(queue.main) == [] then [] else old(queue.main)[1..])
      && (envelope.Some? <==> old(HeadReadable(queue.main)))
      && (envelope == None ==> Messages(queue.main) == old(Messages(queue.main)) && queue.unacked == old(queue.unacked))
      && (envelope.Some? ==>
            && var e := envelope.value;
               e.raw.Some? && queue.unacked == old(queue.unacked) + multiset{e.raw.value}
               && old(Messages(queue.main)) == [Msg(e.id, e.attempt)] + Messages(queue.main))
    ensures queue.backend == Redis ==>
      && queue.unacked == old(queue.unacked)
      && (envelope.Some? <==> old(HeadIsId(queue.list)))
      && queue.list == (if old(queue.list) == [] then [] else old(queue.list)[1..])
      && (envelope == None ==> Listed(queue.list) == old(Listed(queue.list)))
      && (envelope.Some? ==>
            envelope.value == Envelope(envelope.value.id, 1, None)
            && old(Listed(queue.list)) == [envelope.value.id] + Listed(queue.list))
  {
    hide ReadBody, QueuePayload.Body, ParseUuid, UuidText;
    ghost var main := queue.main;
    envelope := queue.DequeueEvent();
    if queue.backend == RabbitMq && main != [] {
      if envelope == None { MessagesDrop(main); } else { MessagesHead(main); }
    }
  }

  /** `retry_or_dead_letter` in terms of the messages and ids that the queue holds. */
  method Reroute(queue: EventQueue, e: Envelope)
    requires queue.backend == RabbitMq ==> e.raw.Some? && e.raw.value in queue.unacked
    requires queue.backend == Redis ==> e.raw == None
    requires queue.backend != Inline
    modifies queue
    ensures queue.main == old(queue.main)
    ensures queue.backend == Redis ==>
      && queue.unacked == old(queue.unacked)
      && queue.list == old(queue.list) + [UuidText(e.id)] && Listed(queue.list) == old(Listed(queue.list)) + [e.id]
    ensures queue.backend == RabbitMq ==>
      && queue.unacked == old(queue.unacked) - multiset{e.raw.value}
      && Messages(queue.retry) ==
         old(Messages(queue.retry)) + (if e.attempt >= queue.M then [] else [Msg(e.id, e.attempt + 1)])
      && Messages(queue.dlq) == old(Messages(queue.dlq)) + (if e.attempt < queue.M then [] else [Msg(e.id, e.attempt)])
  {
    hide ReadBody, QueuePayload.Body, ParseUuid, UuidText;
    ListedPush(queue.list, e.id);
    MessagesPublish(queue.retry, e.id, e.attempt + 1);
    MessagesPublish(queue.dlq, e.id, e.attempt);
    var routing := queue.RetryOrDeadLetter(e);
  }

  /** A turn without a delivery. */
  lemma TurnWithout(M: MaxAttempts, s: Sys)
    ensures IsRun(M, s, []) && Run(M, s, []) == s
    ensures s.main == [] ==> Turn(M, s) == s
  {
  }

  lemma NothingReadable(lane: seq<Body>)
    requires AllReadable(lane) && !HeadReadable(lane)
    ensures Messages(lane) == []
  {
  }

  lemma NothingListed(list: seq<Str>)
    requires AllIds(list) && !HeadIsId(list)
    ensures Listed(list) == []
  {
  }

  lemma IterationWithout(M: MaxAttempts, d: RedisQueue.Desk)
    requires d.list == []
    ensures RedisQueue.Iteration(M, d) == d
  {
  }

  lemma TurnAttends(M: MaxAttempts, s: Sys)
    requires s.main != []
    ensures var shop := Attended(M, Shop(s.events, s.main[1..], s.retry, s.dlq), s.main[0]);
      Turn(M, s) == Sys(shop.rows, shop.main, shop.retry, shop.dlq, s.procs, Turn(M, s).log)
  {
  }

  lemma IterationAttends(M: MaxAttempts, d: RedisQueue.Desk)
    requires d.list != []
    ensures RedisQueue.Attended(M, d.(list := d.list[1..]), d.list[0]) == RedisQueue.Iteration(M, d)
  {
  }

  /** The table after an attempt for `id`, if it has a row. */
  function Tried(rows: map<Uuid, Event>, id: Uuid, finalAttempt: bool): map<Uuid, Event> {
    if id in rows then rows[id := Attempt(rows[id], finalAttempt)] else rows
  }

  lemma ShopAttended(M: MaxAttempts, s: Shop, m: Msg, t: Shop, passed: bool)
    requires passed <==> (m.id in s.rows ==> Succeeds(s.rows[m.id]))
    requires t.rows == Tried(s.rows, m.id, m.attempt >= M) && t.main == s.main
    requires t.retry == s.retry + (if passed || m.attempt >= M then [] else [Msg(m.id, m.attempt + 1)])
    requires t.dlq == s.dlq + (if passed || m.attempt < M then [] else [m])
    ensures t == Attended(M, s, m)
  {
  }

  lemma DeskAttended(M: MaxAttempts, d: RedisQueue.Desk, id: Uuid, t: RedisQueue.Desk, passed: bool)
    requires passed <==> (id in d.events ==> Succeeds(d.events[id]))
    requires t.events == Tried(d.events, id, 1 >= M) && t.list == d.list + (if passed then [] else [id])
    ensures t == RedisQueue.Attended(M, d, id)
  {
  }

  /** The `complete_event` or `retry_or_dead_letter` that ends a turn, in terms of messages and ids. */
  method Dispatch(queue: EventQueue, e: Envelope, processed: bool)
    requires queue.backend == RabbitMq ==> e.raw.Some? && e.raw.value in queue.unacked
    requires queue.backend == Redis ==> e.raw == None
    requires queue.backend != Inline
    modifies queue
    ensures queue.main == old(queue.main)
    ensures queue.backend == Redis ==>
      && queue.unacked == old(queue.unacked)
      && queue.list == old(queue.list) + (if processed then [] else [UuidText(e.id)])
      && Listed(queue.list) == old(Listed(queue.list)) + (if processed then [] else [e.id])
    ensures queue.backend == RabbitMq ==>
      && queue.unacked == old(queue.unacked) - multiset{e.raw.value}
      && Messages(queue.retry) ==
         old(Messages(queue.retry)) + (if processed || e.attempt >= queue.M then [] else [Msg(e.id, e.attempt + 1)])
      && Messages(queue.dlq) ==
         old(Messages(queue.dlq)) + (if processed || e.attempt < queue.M then [] else [Msg(e.id, e.attempt)])
  {
    hide ReadBody, QueuePayload.Body, ParseUuid, UuidText, Messages, Listed;
    if processed {
      queue.CompleteEvent(e);
    } else {
      Reroute(queue, e);
    }
  }

  /** What follows the dequeue in a turn: process, then complete or route. */
  method Attend(queue: EventQueue, db: Database, e: Envelope)
    requires queue.backend == RabbitMq ==> e.raw.Some? && e.raw.value in queue.unacked
    requires queue.backend == Redis ==> e.raw == None && e.attempt == 1
    requires queue.backend != Inline
    modifies queue, db
    ensures queue.main == old(queue.main)
    ensures queue.backend == Redis ==>
      && queue.unacked == old(queue.unacked)
      && DeskOf(queue, db) == RedisQueue.Attended(queue.M, old(DeskOf(queue, db)), e.id)
      && (queue.list == old(queue.list) || queue.list == old(queue.list) + [UuidText(e.id)])
    ensures queue.backend == RabbitMq ==>
      && queue.unacked == old(queue.unacked) - multiset{e.raw.value}
      && ShopOf(queue, db) == Attended(queue.M, old(ShopOf(queue, db)), Msg(e.id, e.attempt))
  {
    hide ReadBody, QueuePayload.Body, ParseUuid, UuidText, Messages, Listed;
    hide Attended, RedisQueue.Attended, Attempt, Succeeds;
    ghost var shop, desk := ShopOf(queue, db), DeskOf(queue, db);
    var finalAttempt := e.attempt >= queue.M;
    var processed := db.ProcessEventById(e.id, finalAttempt);
    Dispatch(queue, e, processed);
    if queue.backend == RabbitMq {
      ShopAttended(queue.M, shop, Msg(e.id, e.attempt), ShopOf(queue, db), processed);
    } else {
      DeskAttended(queue.M, desk, e.id, DeskOf(queue, db), processed);
    }
  }

  /** One turn of the `run_worker` loop; false when the poll brought nothing. */
  method LoopBody(queue: EventQueue, db: Database) returns (delivered: bool)
    requires queue.backend != Inline
    modifies queue, db
    ensures queue.unacked == old(queue.unacked)
    ensures queue.backend == RabbitMq ==>
      && (delivered <==> old(HeadReadable(queue.main)))
      && (delivered ==> old(ShopOf(queue, db)).main != [])
      && (!delivered ==> ShopOf(queue, db) == old(ShopOf(queue, db)))
      && (delivered ==>
            var shop := old(ShopOf(queue, db));
            ShopOf(queue, db) == Attended(queue.M, shop.(main := shop.main[1..]), shop.main[0]))
      && queue.main == (if old(queue.main) == [] then [] else old(queue.main)[1..])
    ensures queue.backend == Redis ==>
      && (delivered <==> old(HeadIsId(queue.list)))
      && (old(AllIds(queue.list)) ==> AllIds(queue.list))
      && (delivered ==> old(DeskOf(queue, db)).list != [])
      && (!delivered ==> DeskOf(queue, db) == old(DeskOf(queue, db)))
      && (delivered ==>
            var desk := old(DeskOf(queue, db));
            DeskOf(queue, db) == RedisQueue.Attended(queue.M, desk.(list := desk.list[1..]), desk.list[0]))
  {
    hide ReadBody, QueuePayload.Body, ParseUuid, UuidText;
    var envelope := Poll(queue);
    if envelope == None {
      return false;
    }
    ghost var list := queue.list;
    Attend(queue, db, envelope.value);
    if AllIds(list) { AllIdsPush(list, envelope.value.id); }
    delivered := true;
  }

  class Application {
    const queue: EventQueue
    const db: Database
    ghost const procs: seq<Proc>
    ghost var log: History

    constructor (backend: Backend, M: MaxAttempts, ghost procs: seq<Proc>, ghost log: History)
      ensures this.procs == procs && this.log == log
      ensures fresh(queue) && fresh(db) && queue.backend == backend && queue.M == M
      ensures View() == Sys(map[], [], [], [], procs, log) && DeskView() == RedisQueue.Desk(map[], [])
    {
      queue := new EventQueue(backend, M);
      db := new Database();
      this.procs, this.log := procs, log;
    }

    /** The state of the protocol: table, lanes as the messages they hold, standing actors, history. */
    ghost function View(): Sys
      reads this, queue, db
    {
      Sys(db.rows, Messages(queue.main), Messages(queue.retry), Messages(queue.dlq), procs, log)
    }

    /** The state of the Redis drain. */
    ghost function DeskView(): RedisQueue.Desk
      reads queue, db
    {
      DeskOf(queue, db)
    }

    /** Another view of the same state: it is what the actions `acts` make of `before`. */
    ghost predicate Follows(before: Sys, acts: seq<Action>)
      reads this, queue, db
    {
      IsRun(queue.M, before, acts) && View() == Run(queue.M, before, acts)
    }

    /** One turn of the `run_worker` loop: the protocol steps of any idle slot, one after the other. */
    method WorkerTurn(ghost p: nat) returns (delivered: bool)
      requires queue.backend != Inline
      requires p < |procs| && procs[p] == Idle
      modifies this`log, queue, db
      ensures queue.unacked == old(queue.unacked)
      ensures queue.backend == RabbitMq ==>
        && (old(AllReadable(queue.main)) ==> AllReadable(queue.main) && View() == Turn(queue.M, old(View())))
        && Follows(old(View()), if delivered then TurnScript(old(View()), p) else [])
        && View() == (if delivered then Turn(queue.M, old(View())) else old(View()))
      ensures queue.backend == Redis ==>
        && (old(AllIds(queue.list)) ==>
              AllIds(queue.list) && DeskView() == RedisQueue.Iteration(queue.M, old(DeskView())))
        && DeskView() == (if delivered then RedisQueue.Iteration(queue.M, old(DeskView())) else old(DeskView()))
    {
      hide ReadBody, QueuePayload.Body, ParseUuid, UuidText, Messages, Listed;
      hide IsRun, Run, Turn, TurnScript, Attended, RedisQueue.Iteration, RedisQueue.Attended;
      ghost var before, desk, lane, list := View(), DeskView(), queue.main, queue.list;
      delivered := LoopBody(queue, db);
      if delivered {
        if queue.backend == RabbitMq {
          TurnAttends(queue.M, before);
          log := Turn(queue.M, before).log;
          TurnIsRun(queue.M, before, p);
        } else {
          IterationAttends(queue.M, desk);
        }
      } else {
        TurnWithout(queue.M, before);
        if AllReadable(lane) && !HeadReadable(lane) { NothingReadable(lane); }
        if AllIds(list) && !HeadIsId(list) { NothingListed(list); }
        if desk.list == [] { IterationWithout(queue.M, desk); }
      }
    }

    /** `run_worker`, for `polls` turns of its endless loop. A body or id that cannot be read costs a poll
        and nothing else, so that `turns` of them count. */
    method RunWorker(polls: nat, ghost p: nat) returns (ok: bool, ghost turns: nat)
      requires p < |procs| && procs[p] == Idle
      modifies this`log, queue, db
      ensures ok <==> queue.backend != Inline
      ensures !ok ==> View() == old(View()) && DeskView() == old(DeskView())
      ensures queue.unacked == old(queue.unacked) && turns <= polls
      ensures queue.backend == Redis ==>
        && DeskView() == RedisQueue.Iterations(queue.M, old(DeskView()), turns)
        && (old(AllIds(queue.list)) ==> AllIds(queue.list) && turns == polls)
      ensures queue.backend == RabbitMq ==>
        && View() == Turns(queue.M, old(View()), turns)
        && (old(AllReadable(queue.main)) ==> AllReadable(queue.main) && turns == polls)
    {
      hide ReadBody, QueuePayload.Body, ParseUuid, UuidText;
      hide Messages, Listed, AllReadable, AllIds, Turn, Turns, RedisQueue.Iteration, RedisQueue.Iterations;
      if queue.backend == Inline {
        return false, 0;
      }
      ghost var before, desk := View(), DeskView();
      ghost var sound := if queue.backend == Redis then AllIds(queue.list) else AllReadable(queue.main);
      OneMoreTurn(queue.M, before, 0);
      RedisQueue.IterationsSnoc(queue.M, desk, 0);
      var i := 0;
      turns := 0;
      while i < polls
        invariant turns <= i <= polls && (sound ==> turns == i)
        invariant queue.unacked == old(queue.unacked)
        invariant queue.backend == Redis ==> DeskView() == RedisQueue.Iterations(queue.M, desk, turns)
        invariant queue.backend == RabbitMq ==> View() == Turns(queue.M, before, turns)
        invariant sound ==> if queue.backend == Redis then AllIds(queue.list) else AllReadable(queue.main)
      {
        OneMoreTurn(queue.M, before, turns);
        RedisQueue.IterationsSnoc(queue.M, desk, turns);
        var delivered := WorkerTurn(p);
        i := i + 1;
        if delivered || sound { turns := turns + 1; }
      }
      ok := true;
    }

    /** The publish that ends a webhook or retry request, for the row `id`. */
    method Announce(id: Uuid, accepted: Answer, link: PublishResult) returns (answer: Answer)
      requires queue.backend != Inline
      modifies this`log, queue
      ensures answer == if link == Confirmed then accepted else Refused(503)
      ensures queue.backend == RabbitMq ==> View() == Announced(old(View()), id, accepted, link)
      ensures queue.backend == Redis ==>
        DeskView() == var d := old(DeskView()); if link == NotSent then d else d.(list := d.list + [id])
    {
      hide ReadBody, QueuePayload.Body, ParseUuid, UuidText;
      MessagesPublish(queue.main, id, 1);
      ListedPush(queue.list, id);
      var ok := queue.EnqueueEvent(id, 1, link);
      answer := if ok then accepted else Refused(503);
      log := Told(log, answer);
      if link != NotSent { log := log.(enqueued := log.enqueued + multiset{id}); }
    }

    /** An answer that comes before anything is stored or sent. */
    method Answer(answer: Answer)
      modifies this`log
      ensures View() == Answered(old(View()), answer)
    {
      log := Told(log, answer);
    }

    /** What ends a webhook or retry request once its row `id` stands: a publish, or without a queue the
        attempt itself, after the answer and as a final one. */
    method Launch(id: Uuid, accepted: Answer, link: PublishResult) returns (answer: Answer)
      requires id in db.rows
      modifies this`log, queue, db
      ensures answer == if queue.backend == Inline || link == Confirmed then accepted else Refused(503)
      ensures queue.backend == RabbitMq ==> View() == Announced(old(View()), id, accepted, link)
      ensures queue.backend == Redis ==>
        DeskView() == var d := old(DeskView()); if link == NotSent then d else d.(list := d.list + [id])
      ensures queue.backend == Inline ==>
        View() == old(View()).(events := old(db.rows)[id := Attempt(old(db.rows)[id], true)])
      ensures id in db.rows && db.rows == old(db.rows)[id := db.rows[id]]
      ensures queue.backend != Inline ==> db.rows == old(db.rows)
      ensures var e, r := old(db.rows)[id], db.rows[id];
        r.delivery == e.delivery && r.source == e.source && r.forced == e.forced
    {
      hide ReadBody, QueuePayload.Body, ParseUuid, UuidText, Messages, Listed;
      if queue.IsEnabled() {
        answer := Announce(id, accepted, link);
      } else {
        answer := accepted;
        var processed := db.ProcessEventById(id, true);
      }
    }

    /** `retry_event`. */
    method RetryEvent(id: Uuid, link: PublishResult, ghost p: nat) returns (answer: Answer, ghost acts: seq<Action>)
      requires p < |procs| && procs[p] == Idle
      modifies this`log, queue, db
      ensures queue.backend == RabbitMq ==> Follows(old(View()), acts)
      ensures id !in old(db.rows) ==> answer == Refused(404) && View() == Answered(old(View()), answer)
      ensures id in old(db.rows) && old(db.rows)[id].status == Processed ==>
        answer == Refused(409) && View() == Answered(old(View()), answer)
      ensures id in old(db.rows) && old(db.rows)[id].status != Processed ==>
        && answer == (if queue.backend == Inline || link == Confirmed then RetryScheduled(id) else Refused(503))
        && (queue.backend == RabbitMq ==> View() == Announced(old(View()), id, RetryScheduled(id), link))
        && (queue.backend == Redis ==>
              DeskView() == var d := old(DeskView()); if link == NotSent then d else d.(list := d.list + [id]))
        && (queue.backend == Inline ==> db.rows == old(db.rows)[id := Attempt(old(db.rows)[id], true)])
    {
      hide ReadBody, QueuePayload.Body, ParseUuid, UuidText, Messages, Listed, IsRun, Run;
      RetryRun(queue.M, View(), p, id, link);
      acts := [Api(p, CheckRetry(id))];
      if id !in db.rows {
        answer := Refused(404);
        Answer(answer);
        return;
      }
      if db.rows[id].status == Processed {
        answer := Refused(409);
        Answer(answer);
        return;
      }
      acts := [Api(p, CheckRetry(id)), Enqueue(p, link)];
      answer := Launch(id, RetryScheduled(id), link);
    }

    /** The delivery id is there, is not empty, and belongs to a row. */
    ghost predicate Repeated(request: Request)
      reads db
    {
      request.delivery.Some? && request.delivery != Some("") && Taken(db.rows, request.delivery)
    }

    /** The row of a new event, and its birth record; false where the unique index rejects it. */
    method Create(id: Uuid, request: Request) returns (ok: bool)
      requires id !in db.rows
      modifies this`log, db
      ensures ok <==> !old(Taken(db.rows, request.delivery))
      ensures View() == if ok then Stored(old(View()), request, id) else old(View())
    {
      ok := db.CreateEvent(id, request);
      if ok { log := log.(born := log.born[id := db.rows[id]]); }
    }

    /** `receive_webhook`, after the signature check, with the id that the new row would draw. A repeated
        delivery changes neither table nor lanes. */
    method ReceiveWebhook(request: Request, id: Uuid, link: PublishResult, ghost p: nat)
      returns (answer: Answer, ghost acts: seq<Action>)
      requires p < |procs| && procs[p] == Idle && id !in db.rows
      modifies this`log, queue, db
      ensures queue.backend == RabbitMq ==> Follows(old(View()), acts)
      ensures old(Repeated(request)) ==>
        && answer.Duplicate? && answer.delivery == request.delivery && Holds(old(db.rows), request.delivery, answer.id)
        && View() == Answered(old(View()), answer) && DeskView() == old(DeskView())
      ensures !old(Repeated(request)) && old(Taken(db.rows, request.delivery)) ==>
        answer == Refused(500) && View() == Answered(old(View()), answer) && DeskView() == old(DeskView())
      ensures !old(Taken(db.rows, request.delivery)) ==>
        && id in db.rows && db.rows == old(db.rows)[id := db.rows[id]]
        && var e := db.rows[id];
           && e.delivery == request.delivery && e.source == request.source && e.forced == request.forced
           && (queue.backend != Inline ==>
                 && e.counter == request.counter && e.status == Pending && e.attempts == 0
                 && !e.processedAt && e.error == None)
      ensures !old(Taken(db.rows, request.delivery)) ==>
        var row := NewEvent(request.delivery, request.source, request.counter, request.forced);
        var accepted := Accepted(request.delivery, id);
        && answer == (if queue.backend == Inline || link == Confirmed then accepted else Refused(503))
        && (queue.backend == RabbitMq ==>
              View() == Announced(Stored(old(View()), request, id), id, accepted, link))
        && (queue.backend == Redis ==>
              var d := old(DeskView());
              DeskView() == RedisQueue.Desk(d.events[id := row], if link == NotSent then d.list else d.list + [id]))
        && (queue.backend == Inline ==> db.rows == old(db.rows)[id := Attempt(row, true)])
    {
      hide ReadBody, QueuePayload.Body, ParseUuid, UuidText, Messages, Listed, IsRun, Run;
      hide Announced, Attempt;
      ghost var before := View();
      var found: Option<Uuid> := None;
      if request.delivery.Some? && request.delivery != Some("") {
        found := db.GetEventByDeliveryId(request.delivery.value);
      }
      acts := [Api(p, Receive(request, found))];
      if found.Some? {
        DuplicateRun(queue.M, before, p, request, found.value);
        answer := Duplicate(request.delivery, found.value);
        Answer(answer);
        return;
      }
      InsertRun(queue.M, before, p, request, id);
      acts := [Api(p, Receive(request, None)), Api(p, Insert(id))];
      var ok := Create(id, request);
      if !ok {
        answer := Refused(500);
        Answer(answer);
        return;
      }
      AcceptRun(queue.M, before, p, request, id, link);
      acts := [Api(p, Receive(request, None)), Api(p, Insert(id)), Enqueue(p, link)];
      answer := Launch(id, Accepted(request.delivery, id), link);
    }

    /** `redrive_dlq`: redrive, then mark what was redriven. None where it raises. Dead letters that
        cannot be read count against the limit and are dropped. */
    method RedriveDlq(limit: nat, ghost p: nat) returns (ids: Option<seq<Uuid>>)
      requires p < |procs| && procs[p] == Idle
      modifies this`log, queue, db
      ensures ids == None <==> queue.backend != RabbitMq
      ensures ids == None ==> View() == old(View())
      ensures ids.Some? ==>
        var s, n := old(View()), |ids.value|;
        && n <= limit && n <= |s.dlq| && ids.value == Ids(s.dlq[..n])
        && n == |Messages(old(queue.dlq)[..Reach(limit, |old(queue.dlq)|)])|
        && (old(AllReadable(queue.dlq)) ==> n == RedriveSize(s, limit))
        && View() == Redriven(s, n) && Follows(s, RedriveScript(s, p, n))
    {
      hide ReadBody, QueuePayload.Body, ParseUuid, UuidText, Messages, Listed, IsRun, Run;
      ghost var before, main, dlq := View(), queue.main, queue.dlq;
      ids := queue.RedriveDeadLetter(limit);
      if ids == None {
        return;
      }
      db.MarkEventsPending(ids.value);
      log := log.(redriven := log.redriven + multiset(ids.value));
      ghost var k := Reach(limit, |dlq|);
      MessagesAll(dlq);
      MessagesAll(dlq[..k]);
      MessagesSplit(dlq, k);
      RedriveIsRun(queue.M, before, p, |ids.value|);
      MessagesConcat(main, FreshBodies(ids.value));
      MessagesFresh(ids.value);
    }
  }
}
