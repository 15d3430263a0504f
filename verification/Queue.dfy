/** The event queue (app/queue.py) over its backend: the RabbitMQ lanes hold message bodies, the Redis
    list holds ids as text. The broker is durable: FIFO lanes, and delivered messages are kept until
    they are acknowledged. */
module Queue {
  import opened Lifecycle
  import opened Text
  import opened QueuePayload
  import opened Protocol
  import opened Scripts

  datatype Backend = Inline | Redis | RabbitMq

  type Body = seq<Byte>

  datatype Delivery = Delivery(lane: Lane, body: Body)

  datatype Envelope = Envelope(id: Uuid, attempt: int, raw: Option<Delivery>)

  datatype Routing = ToRetry | ToDeadLetter | Unavailable

  // ---------------------------------------------------------------- what a lane means

  function MessageOf(body: Body): seq<Msg> {
    match ReadBody(body)
    case None => []
    case Some((id, attempt)) => [Msg(id, attempt)]
  }

  /** The messages of a lane, without the bodies that cannot be read. */
  function Messages(bodies: seq<Body>): seq<Msg> {
    if bodies == [] then [] else MessageOf(bodies[0]) + Messages(bodies[1..])
  }

  lemma {:induction false} MessagesConcat(a: seq<Body>, b: seq<Body>)
    ensures Messages(a + b) == Messages(a) + Messages(b)
  {
    hide MessageOf;
    if a == [] {
      assert a + b == b;
    } else {
      assert (a + b)[0] == a[0] && (a + b)[1..] == a[1..] + b;
      MessagesConcat(a[1..], b);
    }
  }

  lemma MessagesPublish(lane: seq<Body>, id: Uuid, attempt: int)
    ensures Messages(lane + [QueuePayload.Body(id, attempt)]) == Messages(lane) + [Msg(id, attempt)]
  {
    hide ReadBody, QueuePayload.Body;
    BodyRoundTrip(id, attempt);
    MessagesConcat(lane, [QueuePayload.Body(id, attempt)]);
  }

  function FreshBodies(ids: seq<Uuid>): seq<Body> {
    seq(|ids|, i requires 0 <= i < |ids| => QueuePayload.Body(ids[i], 1))
  }

  lemma {:induction false} MessagesFresh(ids: seq<Uuid>)
    ensures Messages(FreshBodies(ids)) == Afresh(ids)
  {
    hide ReadBody, QueuePayload.Body;
    if ids != [] {
      BodyRoundTrip(ids[0], 1);
      MessagesFresh(ids[1..]);
      assert FreshBodies(ids)[1..] == FreshBodies(ids[1..]);
      assert Afresh(ids) == [Msg(ids[0], 1)] + Afresh(ids[1..]);
    }
  }

  /** How many messages a redrive looks at. */
  function Reach(limit: int, depth: nat): nat {
    if limit <= 0 then 0 else if limit < depth then limit else depth
  }

  /** The events of the readable ones among the first `k` bodies. */
  function RedrivenIds(lane: seq<Body>, k: nat): seq<Uuid>
    requires k <= |lane|
  {
    Ids(Messages(lane[..k]))
  }

  function ReadId(body: Body): Option<Uuid> {
    match ReadBody(body)
    case None => None
    case Some((id, _)) => Some(id)
  }

  /** The main lane once the first `k` dead letters have been looked at. */
  function MainAfter(lane: seq<Body>, before: seq<Body>, k: nat): seq<Body>
    requires k <= |lane|
  {
    before + FreshBodies(RedrivenIds(lane, k))
  }

  lemma MainAfterAll(lane: seq<Body>, before: seq<Body>, k: nat)
    requires k <= |lane|
    ensures MainAfter(lane, before, k) == before + FreshBodies(RedrivenIds(lane, k))
  {
  }

  lemma NothingReached(lane: seq<Body>, before: seq<Body>)
    ensures RedrivenIds(lane, 0) == [] && MainAfter(lane, before, 0) == before && lane[0..] == lane
  {
    assert lane[..0] == [];
  }

  lemma ReachOneMore(lane: seq<Body>, i: nat, before: seq<Body>)
    requires i < |lane|
    ensures var id := ReadId(lane[i]);
      && RedrivenIds(lane, i + 1) == RedrivenIds(lane, i) + (if id == None then [] else [id.value])
      && MainAfter(lane, before, i + 1) ==
         if id == None then MainAfter(lane, before, i)
         else MainAfter(lane, before, i) + [QueuePayload.Body(id.value, 1)]
    ensures lane[i..][0] == lane[i] && lane[i..][1..] == lane[i + 1..]
  {
    hide ReadBody, QueuePayload.Body;
    assert lane[..i + 1] == lane[..i] + [lane[i]];
    MessagesConcat(lane[..i], [lane[i]]);
    OneMessage(lane[i]);
    IdsConcat(Messages(lane[..i]), MessageOf(lane[i]));
    FreshConcat(before, RedrivenIds(lane, i), ReadId(lane[i]));
  }

  lemma OneMessage(body: Body)
    ensures Messages([body]) == MessageOf(body)
    ensures Ids(MessageOf(body)) == if ReadId(body) == None then [] else [ReadId(body).value]
  {
    hide ReadBody;
    assert Messages([body]) == MessageOf(body) + Messages([body][1..]);
  }

  lemma IdsConcat(a: seq<Msg>, b: seq<Msg>)
    ensures Ids(a + b) == Ids(a) + Ids(b)
  {
  }

  lemma FreshConcat(before: seq<Body>, ids: seq<Uuid>, id: Option<Uuid>)
    ensures var more := if id == None then [] else [id.value];
      before + FreshBodies(ids + more) ==
      before + FreshBodies(ids) + (if id == None then [] else [QueuePayload.Body(id.value, 1)])
  {
    hide QueuePayload.Body;
    if id == None {
      assert ids + [] == ids;
    } else {
      assert FreshBodies(ids + [id.value]) == FreshBodies(ids) + [QueuePayload.Body(id.value, 1)];
    }
  }

  class EventQueue {
    const backend: Backend
    const M: MaxAttempts
    var main: seq<Body>
    var retry: seq<Body>
    var dlq: seq<Body>
    var unacked: multiset<Delivery>
    var list: seq<Str>

    constructor (backend: Backend, M: MaxAttempts)
      ensures this.backend == backend && this.M == M
      ensures main == [] && retry == [] && dlq == [] && unacked == multiset{} && list == []
    {
      this.backend, this.M := backend, M;
      main, retry, dlq, unacked, list := [], [], [], multiset{}, [];
    }

    predicate IsEnabled() {
      backend == Redis || backend == RabbitMq
    }

    // -------------------------------------------------------------- the broker

    method Publish(lane: Lane, id: Uuid, attempt: int)
      modifies this`main, this`retry, this`dlq
      ensures main == if lane == Main then old(main) + [QueuePayload.Body(id, attempt)] else old(main)
      ensures retry == if lane == Retry then old(retry) + [QueuePayload.Body(id, attempt)] else old(retry)
      ensures dlq == if lane == Dlq then old(dlq) + [QueuePayload.Body(id, attempt)] else old(dlq)
    {
      var body := QueuePayload.Body(id, attempt);
      match lane {
        case Main => main := main + [body];
        case Retry => retry := retry + [body];
        case Dlq => dlq := dlq + [body];
      }
    }

    /** The head of the main or dead-letter lane, delivered and not yet acknowledged. */
    method Get(lane: Lane) returns (d: Option<Delivery>)
      requires lane != Retry
      modifies this`main, this`dlq, this`unacked
      ensures var from := old(if lane == Main then main else dlq);
        && (from == [] ==> d == None && main == old(main) && dlq == old(dlq) && unacked == old(unacked))
        && (from != [] ==>
              && d == Some(Delivery(lane, from[0])) && unacked == old(unacked) + multiset{d.value}
              && main == (if lane == Main then from[1..] else old(main))
              && dlq == (if lane == Dlq then from[1..] else old(dlq)))
    {
      var from := if lane == Main then main else dlq;
      if from == [] {
        return None;
      }
      if lane == Main { main := main[1..]; } else { dlq := dlq[1..]; }
      d := Some(Delivery(lane, from[0]));
      unacked := unacked + multiset{d.value};
    }

    method Ack(d: Delivery)
      requires d in unacked
      modifies this`unacked
      ensures unacked == old(unacked) - multiset{d}
    {
      unacked := unacked - multiset{d};
    }

    // -------------------------------------------------------------- the queue operations

    /** `enqueue_event`; `link` is what becomes of the publish. False where it raises. */
    method EnqueueEvent(id: Uuid, attempt: int, link: PublishResult) returns (ok: bool)
      modifies this
      ensures ok <==> IsEnabled() && link == Confirmed
      ensures main == if backend == RabbitMq && link != NotSent then old(main) + [QueuePayload.Body(id, attempt)]
                      else old(main)
      ensures list == if backend == Redis && link != NotSent then old(list) + [UuidText(id)] else old(list)
      ensures retry == old(retry) && dlq == old(dlq) && unacked == old(unacked)
    {
      if backend == Redis {
        if link != NotSent { list := list + [UuidText(id)]; }
      } else if backend == RabbitMq {
        if link != NotSent { Publish(Main, id, attempt); }
      } else {
        return false;
      }
      ok := link == Confirmed;
    }

    /** `dequeue_event`: a body that cannot be read is acknowledged and dropped, an id that cannot be
        read is skipped. */
    method DequeueEvent() returns (envelope: Option<Envelope>)
      modifies this
      ensures retry == old(retry) && dlq == old(dlq)
      ensures backend == Inline ==> envelope == None && main == old(main) && list == old(list) && unacked == old(unacked)
      ensures backend == Redis ==>
        && main == old(main) && unacked == old(unacked)
        && list == (if old(list) == [] then [] else old(list)[1..])
        && envelope == (if old(list) == [] || ParseUuid(old(list)[0]) == None then None
                        else Some(Envelope(ParseUuid(old(list)[0]).value, 1, None)))
      ensures backend == RabbitMq ==>
        && list == old(list)
        && main == (if old(main) == [] then [] else old(main)[1..])
        && (old(main) == [] || ReadBody(old(main)[0]) == None ==> envelope == None && unacked == old(unacked))
        && (old(main) != [] && ReadBody(old(main)[0]).Some? ==>
              && var (id, attempt) := ReadBody(old(main)[0]).value;
                 var d := Delivery(Main, old(main)[0]);
                 envelope == Some(Envelope(id, attempt, Some(d))) && unacked == old(unacked) + multiset{d})
    {
      hide ReadBody, ParseUuid;
      if backend == Redis {
        if list == [] {
          return None;
        }
        var text := list[0];
        list := list[1..];
        match ParseUuid(text) {
          case None => return None;
          case Some(id) => return Some(Envelope(id, 1, None));
        }
      }
      if backend != RabbitMq {
        return None;
      }
      var message := Get(Main);
      if message == None {
        return None;
      }
      match ReadBody(message.value.body) {
        case None =>
          Ack(message.value);
          envelope := None;
        case Some((id, attempt)) =>
          envelope := Some(Envelope(id, attempt, message));
      }
    }

    /** `complete_event`. */
    method CompleteEvent(envelope: Envelope)
      requires envelope.raw.Some? ==> envelope.raw.value in unacked
      modifies this`unacked
      ensures unacked == if envelope.raw.Some? then old(unacked) - multiset{envelope.raw.value} else old(unacked)
    {
      if envelope.raw.Some? {
        Ack(envelope.raw.value);
      }
    }

    /** `retry_or_dead_letter`: publish first, acknowledge after. */
    method RetryOrDeadLetter(envelope: Envelope) returns (routing: Routing)
      requires envelope.raw.Some? ==> envelope.raw.value in unacked
      modifies this
      ensures main == old(main)
      ensures backend == Redis ==>
        && routing == ToRetry && list == old(list) + [UuidText(envelope.id)]
        && retry == old(retry) && dlq == old(dlq) && unacked == old(unacked)
      ensures backend != Redis && envelope.raw == None ==>
        routing == Unavailable && list == old(list) && retry == old(retry) && dlq == old(dlq) && unacked == old(unacked)
      ensures backend != Redis && envelope.raw.Some? ==>
        && list == old(list) && unacked == old(unacked) - multiset{envelope.raw.value}
        && routing == (if envelope.attempt < M then ToRetry else ToDeadLetter)
        && retry == (if envelope.attempt < M then old(retry) + [QueuePayload.Body(envelope.id, envelope.attempt + 1)]
                     else old(retry))
        && dlq == (if envelope.attempt < M then old(dlq)
                   else old(dlq) + [QueuePayload.Body(envelope.id, envelope.attempt)])
    {
      if backend == Redis {
        var ok := EnqueueEvent(envelope.id, 1, Confirmed);
        return ToRetry;
      }
      if envelope.raw == None {
        return Unavailable;
      }
      var next := envelope.attempt + 1;
      if next <= M {
        Publish(Retry, envelope.id, next);
        Ack(envelope.raw.value);
        return ToRetry;
      }
      Publish(Dlq, envelope.id, envelope.attempt);
      Ack(envelope.raw.value);
      routing := ToDeadLetter;
    }

    /** One turn of the redrive loop, on a delivered dead letter; None for one that cannot be read. */
    method RedriveOne(d: Delivery) returns (id: Option<Uuid>)
      requires d in unacked
      modifies this`main, this`retry, this`dlq, this`unacked
      ensures id == ReadId(d.body)
      ensures main == if id == None then old(main) else old(main) + [QueuePayload.Body(id.value, 1)]
      ensures retry == old(retry) && dlq == old(dlq) && unacked == old(unacked) - multiset{d}
    {
      match ReadBody(d.body) {
        case None =>
          Ack(d);
          id := None;
        case Some((event, _)) =>
          Publish(Main, event, 1);
          Ack(d);
          id := Some(event);
      }
    }

    /** The turn with its poll: the next dead letter, if there is one. */
    method RedriveNext() returns (found: bool, id: Option<Uuid>)
      modifies this`main, this`retry, this`dlq, this`unacked
      ensures retry == old(retry) && unacked == old(unacked) && (found <==> old(dlq) != [])
      ensures !found ==> main == old(main) && dlq == old(dlq)
      ensures found ==> dlq == old(dlq)[1..] && id == ReadId(old(dlq)[0])
      ensures found ==> main == if id == None then old(main) else old(main) + [QueuePayload.Body(id.value, 1)]
    {
      hide ReadBody, ReadId, QueuePayload.Body;
      var message := Get(Dlq);
      if message == None {
        return false, None;
      }
      found := true;
      id := RedriveOne(message.value);
    }

    /** `redrive_dead_letter`; None where it raises. It takes exactly the first messages, and puts those
        that can be read into the main lane, in order, with attempt 1. */
    method RedriveDeadLetter(limit: int) returns (result: Option<seq<Uuid>>)
      modifies this
      ensures retry == old(retry) && list == old(list) && unacked == old(unacked)
      ensures backend != RabbitMq ==> result == None && main == old(main) && dlq == old(dlq)
      ensures backend == RabbitMq ==>
        var k := Reach(limit, |old(dlq)|);
        var ids := RedrivenIds(old(dlq), k);
        result == Some(ids) && dlq == old(dlq)[k..] && main == old(main) + FreshBodies(ids)
    {
      hide ReadBody, ReadId, RedrivenIds, FreshBodies, MainAfter, QueuePayload.Body;
      if backend != RabbitMq {
        return None;
      }
      var redriven: seq<Uuid> := [];
      var i := 0;
      ghost var dead, before := dlq, main;
      NothingReached(dead, before);
      while i < limit
        invariant 0 <= i <= |dead| && (i <= limit || i == 0)
        invariant retry == old(retry) && list == old(list) && unacked == old(unacked)
        invariant dlq == dead[i..]
        invariant redriven == RedrivenIds(dead, i)
        invariant main == MainAfter(dead, before, i)
      {
        var found, id := RedriveNext();
        if !found {
          break;
        }
        ReachOneMore(dead, i, before);
        if id.Some? { redriven := redriven + [id.value]; }
        i := i + 1;
      }
      MainAfterAll(dead, before, i);
      result := Some(redriven);
    }
  }
}
