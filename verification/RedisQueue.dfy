/** The Redis backend: one list of ids with no attempt number, popped destructively
    (app/queue.py:233-235, 249-257, 287-289). Each delivery is attempt 1. */
module RedisQueue {
  import opened Lifecycle
  import opened Sums

  datatype Hand = Free | Popped(id: Uuid) | Failing(id: Uuid) | Passing(id: Uuid)

  /** `pushed` and `dropped` record what was enqueued and what crashes lost. */
  datatype Redis = Redis(events: map<Uuid, Event>, list: seq<Uuid>, hands: seq<Hand>,
                         pushed: multiset<Uuid>, dropped: multiset<Uuid>)

  datatype Step =
    | Store(id: Uuid, row: Event)
    | Push(id: Uuid)
    | Pop(p: nat)
    | Try(p: nat)
    | Repush(p: nat)
    | Drop(p: nat)
    | Die(p: nat)

  predicate Can(s: Redis, a: Step) {
    match a
    case Store(id, row) => id !in s.events && IsNew(row)
    case Push(id) => id in s.events
    case Pop(p) => p < |s.hands| && s.hands[p] == Free && s.list != []
    case Try(p) => p < |s.hands| && s.hands[p].Popped?
    case Repush(p) => p < |s.hands| && s.hands[p].Failing?
    case Drop(p) => p < |s.hands| && s.hands[p].Passing?
    case Die(p) => p < |s.hands| && s.hands[p] != Free
  }

  /** The worker's last-attempt test on a Redis envelope. */
  predicate RedisFinal(M: MaxAttempts) {
    1 >= M
  }

  function Do(M: MaxAttempts, s: Redis, a: Step): Redis
    requires Can(s, a)
  {
    match a
    case Store(id, row) => s.(events := s.events[id := row])
    case Push(id) => s.(list := s.list + [id], pushed := s.pushed + multiset{id})
    case Pop(p) => s.(list := s.list[1..], hands := s.hands[p := Popped(s.list[0])])
    case Try(p) =>
      var id := s.hands[p].id;
      if id !in s.events then s.(hands := s.hands[p := Passing(id)])
      else s.(events := s.events[id := Attempt(s.events[id], RedisFinal(M))],
              hands := s.hands[p := if Succeeds(s.events[id]) then Passing(id) else Failing(id)])
    case Repush(p) => s.(list := s.list + [s.hands[p].id], hands := s.hands[p := Free])
    case Drop(p) => s.(hands := s.hands[p := Free])
    case Die(p) => s.(hands := s.hands[p := Free], dropped := s.dropped + multiset{s.hands[p].id})
  }

  predicate Runs(M: MaxAttempts, s: Redis, acts: seq<Step>)
    decreases |acts|
  {
    acts == [] || (Can(s, acts[0]) && Runs(M, Do(M, s, acts[0]), acts[1..]))
  }

  function After(M: MaxAttempts, s: Redis, acts: seq<Step>): Redis
    requires Runs(M, s, acts)
    decreases |acts|
  {
    if acts == [] then s else After(M, Do(M, s, acts[0]), acts[1..])
  }

  predicate Empty(s: Redis) {
    && s.events == map[] && s.list == [] && s.pushed == multiset{} && s.dropped == multiset{}
    && forall p :: 0 <= p < |s.hands| ==> s.hands[p] == Free
  }

  // ---------------------------------------------------------------- no event is ever failed

  ghost predicate NoneFailed(s: Redis) {
    && (forall id :: id in s.events ==> s.events[id].status != Failed)
    && (forall id :: id in s.events && s.events[id].forced ==> s.events[id].status != Processed)
    && (forall id :: id in s.events && s.events[id].status == Processed ==> Succeeds(s.events[id]))
  }

  lemma {:induction false} NoneFailedAfter(M: MaxAttempts, s: Redis, acts: seq<Step>)
    requires M >= 2 && NoneFailed(s) && Runs(M, s, acts)
    ensures NoneFailed(After(M, s, acts))
    decreases |acts|
  {
    if acts != [] { NoneFailedAfter(M, Do(M, s, acts[0]), acts[1..]); }
  }

  /** With more than one delivery attempt configured, no Redis run reaches FAILED, crashes included. */
  lemma RedisNeverFails(M: MaxAttempts, start: Redis, acts: seq<Step>, id: Uuid)
    requires M >= 2 && Empty(start) && Runs(M, start, acts)
    requires id in After(M, start, acts).events
    ensures After(M, start, acts).events[id].status != Failed
  {
    NoneFailedAfter(M, start, acts);
  }

  // ---------------------------------------------------------------- nothing is lost but by a crash

  function IsId(id: Uuid): Uuid -> int {
    (x: Uuid) => if x == id then 1 else 0
  }

  function InHand(id: Uuid): Hand -> int {
    (h: Hand) => if (h.Popped? || h.Failing?) && h.id == id then 1 else 0
  }

  function Held(s: Redis, id: Uuid): int {
    Sum(s.list, IsId(id)) + Sum(s.hands, InHand(id))
  }

  lemma HeldNonNegative(s: Redis, id: Uuid)
    ensures Sum(s.list, IsId(id)) >= 0 && Sum(s.hands, InHand(id)) >= 0
  {
    SumAtLeast(s.list, 0, IsId(id));
    SumAtLeast(s.hands, 0, InHand(id));
  }

  /** Until the event is processed, its copies are its pushes less what crashes dropped. */
  ghost predicate Kept(s: Redis, id: Uuid) {
    && (s.pushed[id] > 0 ==> id in s.events)
    && (id in s.events && s.events[id].status != Processed ==> Held(s, id) + s.dropped[id] == s.pushed[id])
    && (id !in s.events ==> Held(s, id) == 0 && s.dropped[id] == 0)
  }

  ghost predicate Sound(s: Redis) {
    && (forall id :: id in s.events && s.events[id].status == Processed ==> Succeeds(s.events[id]))
    && (forall id :: id in s.events && s.events[id].forced ==> s.events[id].status != Processed)
    && (forall id :: id in s.list ==> id in s.events)
    && (forall h :: h in s.hands && h != Free ==> h.id in s.events)
    && (forall h :: h in s.hands && h.Passing? ==> s.events[h.id].status == Processed)
  }

  lemma SoundStep(M: MaxAttempts, s: Redis, a: Step)
    requires Sound(s) && Can(s, a)
    ensures Sound(Do(M, s, a))
  {
    if a.Pop? { assert s.list[0] in s.list; }
  }

  lemma KeptStep(M: MaxAttempts, s: Redis, a: Step, id: Uuid)
    requires Sound(s) && Kept(s, id) && Can(s, a)
    ensures Kept(Do(M, s, a), id)
  {
    hide Sum;
    var t := Do(M, s, a);
    HeldNonNegative(s, id);
    HeldNonNegative(t, id);
    match a
    case Store(_, _) =>
    case Push(x) => SumAppend(s.list, x, IsId(id));
    case Pop(p) =>
      SumUpdate(s.hands, p, t.hands[p], InHand(id));
      SumHead(s.list, IsId(id));
    case Try(p) =>
      SumUpdate(s.hands, p, t.hands[p], InHand(id));
      SumAtLeast(s.hands, p, InHand(id));
    case Repush(p) =>
      SumUpdate(s.hands, p, Free, InHand(id));
      SumAppend(s.list, s.hands[p].id, IsId(id));
    case Drop(p) => SumUpdate(s.hands, p, Free, InHand(id));
    case Die(p) => SumUpdate(s.hands, p, Free, InHand(id));
  }

  lemma {:induction false} KeptAfter(M: MaxAttempts, s: Redis, acts: seq<Step>, id: Uuid)
    requires Sound(s) && Kept(s, id) && Runs(M, s, acts)
    ensures Sound(After(M, s, acts)) && Kept(After(M, s, acts), id)
    decreases |acts|
  {
    if acts != [] {
      SoundStep(M, s, acts[0]);
      KeptStep(M, s, acts[0], id);
      KeptAfter(M, Do(M, s, acts[0]), acts[1..], id);
    }
  }

  /** A copy of the event is in the list, or in the hand of a worker that still has to see to it. */
  ghost predicate InReach(s: Redis, id: Uuid) {
    || (exists k :: 0 <= k < |s.list| && s.list[k] == id)
    || (exists p :: 0 <= p < |s.hands| && s.hands[p] in {Popped(id), Failing(id)})
  }

  lemma HeldInReach(s: Redis, id: Uuid)
    ensures InReach(s, id) <==> Held(s, id) > 0
  {
    HeldNonNegative(s, id);
    if Sum(s.list, IsId(id)) > 0 {
      var k := SumWitness(s.list, IsId(id));
    } else if Sum(s.hands, InHand(id)) > 0 {
      var p := SumWitness(s.hands, InHand(id));
    }
    if k :| 0 <= k < |s.list| && s.list[k] == id { SumAtLeast(s.list, k, IsId(id)); }
    if p :| 0 <= p < |s.hands| && s.hands[p] in {Popped(id), Failing(id)} { SumAtLeast(s.hands, p, InHand(id)); }
  }

  /** The law of copies on Redis, in every run, crashes at any point included. */
  lemma RedisConservation(M: MaxAttempts, start: Redis, acts: seq<Step>, id: Uuid)
    requires Empty(start) && Runs(M, start, acts)
    requires id in After(M, start, acts).events && After(M, start, acts).events[id].status != Processed
    ensures var s := After(M, start, acts); Held(s, id) + s.dropped[id] == s.pushed[id]
  {
    EmptyKept(start, id);
    KeptAfter(M, start, acts, id);
  }

  lemma EmptyKept(s: Redis, id: Uuid)
    requires Empty(s)
    ensures Sound(s) && Kept(s, id)
  {
    SumZero(s.hands, InHand(id));
  }

  /** An event that was pushed and is not processed is lost exactly when crashes have dropped as many
      copies as were pushed. */
  lemma RedisLosesExactly(M: MaxAttempts, start: Redis, acts: seq<Step>, id: Uuid)
    requires Empty(start) && Runs(M, start, acts)
    requires After(M, start, acts).pushed[id] > 0
    ensures var s := After(M, start, acts);
      && id in s.events
      && (s.events[id].status != Processed ==> (!InReach(s, id) <==> s.dropped[id] == s.pushed[id]))
  {
    EmptyKept(start, id);
    KeptAfter(M, start, acts, id);
    HeldInReach(After(M, start, acts), id);
    HeldNonNegative(After(M, start, acts), id);
  }

  /** An event that was pushed more often than crashes dropped it is processed, or is in the list or in a
      worker's hand; a forced one is never processed, so it circulates for ever. */
  lemma RedisKeeps(M: MaxAttempts, start: Redis, acts: seq<Step>, id: Uuid)
    requires Empty(start) && Runs(M, start, acts)
    requires After(M, start, acts).pushed[id] > After(M, start, acts).dropped[id]
    ensures var s := After(M, start, acts);
      && id in s.events
      && (s.events[id].status != Processed || s.events[id].forced ==> InReach(s, id))
  {
    RedisLosesExactly(M, start, acts, id);
    EmptyKept(start, id);
    KeptAfter(M, start, acts, id);
  }

  /** A crash does lose an event here: popping it removed the only copy. */
  lemma RedisCrashLoses(M: MaxAttempts, start: Redis, id: Uuid, row: Event)
    requires Empty(start) && start.hands == [Free] && IsNew(row)
    ensures var acts := [Store(id, row), Push(id), Pop(0), Die(0)];
      && Runs(M, start, acts)
      && var s := After(M, start, acts);
         s.pushed[id] == 1 && id in s.events && s.events[id].status == Pending && s.list == [] && s.hands == [Free]
  {
    var s1 := Do(M, start, Store(id, row));
    var s2 := Do(M, s1, Push(id));
    var s3 := Do(M, s2, Pop(0));
    var s4 := Do(M, s3, Die(0));
    var a4, a3, a2 := [Die(0)], [Pop(0), Die(0)], [Push(id), Pop(0), Die(0)];
    var acts := [Store(id, row), Push(id), Pop(0), Die(0)];
    assert a4[1..] == [] && a3[1..] == a4 && a2[1..] == a3 && acts[1..] == a2;
    assert Runs(M, s3, a4) && After(M, s3, a4) == s4;
    assert Runs(M, s2, a3) && After(M, s2, a3) == s4;
    assert Runs(M, s1, a2) && After(M, s1, a2) == s4;
  }

  // ---------------------------------------------------------------- the drain of one worker

  datatype Desk = Desk(events: map<Uuid, Event>, list: seq<Uuid>)

  /** A popped event has been attended to: it is tried, and pushed again if that fails. */
  function Attended(M: MaxAttempts, d: Desk, id: Uuid): Desk {
    if id !in d.events then d
    else
      var e := d.events[id];
      Desk(d.events[id := Attempt(e, RedisFinal(M))], if Succeeds(e) then d.list else d.list + [id])
  }

  /** One iteration of the worker loop; on an empty list the poll times out. */
  function Iteration(M: MaxAttempts, d: Desk): Desk {
    if d.list == [] then d else Attended(M, d.(list := d.list[1..]), d.list[0])
  }

  function Iterations(M: MaxAttempts, d: Desk, k: nat): Desk
    decreases k
  {
    if k == 0 then d else Iterations(M, Iteration(M, d), k - 1)
  }

  lemma {:induction false} IterationsSnoc(M: MaxAttempts, d: Desk, k: nat)
    ensures Iterations(M, d, 0) == d && Iterations(M, d, k + 1) == Iteration(M, Iterations(M, d, k))
    decreases k
  {
    if k > 0 { IterationsSnoc(M, Iteration(M, d), k - 1); }
  }

  /** Failures an event still has in store. */
  function Owed(events: map<Uuid, Event>, id: Uuid): nat {
    if id in events && events[id].counter.Remaining? then Max(0, events[id].counter.n) else 0
  }

  ghost function OwedBy(events: map<Uuid, Event>, ids: set<Uuid>): nat {
    if ids == {} then 0
    else
      var id :| id in ids;
      Owed(events, id) + OwedBy(events, ids - {id})
  }

  function Queued(list: seq<Uuid>): set<Uuid> {
    set id | id in list
  }

  /** The iterations it takes: one per entry, and one per failure of each distinct queued event. */
  ghost function DrainTime(d: Desk): nat {
    |d.list| + OwedBy(d.events, Queued(d.list))
  }

  lemma {:induction false} OwedByTaking(events: map<Uuid, Event>, ids: set<Uuid>, id: Uuid)
    requires id in ids
    ensures OwedBy(events, ids) == Owed(events, id) + OwedBy(events, ids - {id})
    decreases |ids|
  {
    var x :| x in ids && OwedBy(events, ids) == Owed(events, x) + OwedBy(events, ids - {x});
    if x != id {
      OwedByTaking(events, ids - {x}, id);
      OwedByTaking(events, ids - {id}, x);
      assert ids - {x} - {id} == ids - {id} - {x};
    }
  }

  lemma {:induction false} OwedBySame(before: map<Uuid, Event>, after: map<Uuid, Event>, ids: set<Uuid>)
    requires forall id :: id in ids ==> Owed(before, id) == Owed(after, id)
    ensures OwedBy(before, ids) == OwedBy(after, ids)
    decreases |ids|
  {
    if ids != {} {
      var id :| id in ids;
      OwedByTaking(before, ids, id);
      OwedByTaking(after, ids, id);
      OwedBySame(before, after, ids - {id});
    }
  }

  /** No queued event is forced or has a counter that is not an integer. */
  predicate Drainable(d: Desk) {
    forall id :: id in d.list && id in d.events ==> !d.events[id].forced && d.events[id].counter.Remaining?
  }

  /** Every iteration on a non-empty list takes exactly one off the drain time. */
  lemma IterationCounts(M: MaxAttempts, d: Desk)
    requires Drainable(d) && d.list != []
    ensures Drainable(Iteration(M, d)) && DrainTime(Iteration(M, d)) == DrainTime(d) - 1
  {
    hide OwedBy;
    var t := Iteration(M, d);
    var id, rest := d.list[0], d.list[1..];
    assert d.list == [id] + rest;
    assert Queued(d.list) == Queued(rest) + {id};
    OwedByTaking(d.events, Queued(d.list), id);
    OwedBySame(d.events, t.events, Queued(d.list) - {id});
    if t.list == rest {
      if id in rest {
        assert Queued(rest) == Queued(d.list);
        OwedByTaking(t.events, Queued(rest), id);
      } else {
        assert Queued(rest) == Queued(d.list) - {id};
      }
    } else {
      assert Queued(t.list) == Queued(d.list);
      OwedByTaking(t.events, Queued(t.list), id);
    }
  }

  /** Every event of `ids` is processed or still queued. */
  ghost predicate Under(d: Desk, ids: set<Uuid>) {
    forall id :: id in ids && id in d.events ==>
      id in d.list || (d.events[id].status == Processed && Succeeds(d.events[id]))
  }

  lemma IterationKeepsUnder(M: MaxAttempts, d: Desk, ids: set<Uuid>)
    requires Under(d, ids)
    ensures Under(Iteration(M, d), ids)
  {
    if d.list != [] {
      assert d.list == [d.list[0]] + d.list[1..];
    }
  }

  lemma {:induction false} DrainUnder(M: MaxAttempts, d: Desk, k: nat, ids: set<Uuid>)
    requires Drainable(d) && Under(d, ids)
    ensures var t := Iterations(M, d, k);
      && (t.list == [] <==> k >= DrainTime(d))
      && t.events.Keys == d.events.Keys
      && (k >= DrainTime(d) ==> forall id :: id in ids && id in d.events ==> t.events[id].status == Processed)
    decreases k
  {
    if d.list == [] {
      IterationsAtRest(M, d, k);
    } else if k > 0 {
      IterationCounts(M, d);
      IterationKeepsUnder(M, d, ids);
      DrainUnder(M, Iteration(M, d), k - 1, ids);
    }
  }

  /** The list is empty after `k` iterations just when `k` has reached the drain time, duplicates and
      unknown ids included, and then every queued event that has a row is processed. */
  lemma DrainIsExact(M: MaxAttempts, d: Desk, k: nat)
    requires Drainable(d)
    ensures var t := Iterations(M, d, k);
      && (t.list == [] <==> k >= |d.list| + OwedBy(d.events, Queued(d.list)))
      && t.events.Keys == d.events.Keys
      && (t.list == [] ==> forall id :: id in d.list && id in d.events ==> t.events[id].status == Processed)
  {
    DrainUnder(M, d, k, Queued(d.list));
  }

  lemma {:induction false} IterationsAtRest(M: MaxAttempts, d: Desk, k: nat)
    requires d.list == []
    ensures Iterations(M, d, k) == d
  {
    if k > 0 { IterationsAtRest(M, d, k - 1); }
  }

  /** An iteration is a pop, a try and a repush or drop of one free hand. */
  lemma IterationIsRun(M: MaxAttempts, s: Redis, p: nat)
    requires p < |s.hands| && s.hands[p] == Free && s.list != []
    ensures var last := if s.list[0] in s.events && !Succeeds(s.events[s.list[0]]) then Repush(p) else Drop(p);
      var acts := [Pop(p), Try(p), last];
      && Runs(M, s, acts)
      && var d := Iteration(M, Desk(s.events, s.list));
         After(M, s, acts) == s.(events := d.events, list := d.list)
  {
    var last := if s.list[0] in s.events && !Succeeds(s.events[s.list[0]]) then Repush(p) else Drop(p);
    var s1 := Do(M, s, Pop(p));
    var s2 := Do(M, s1, Try(p));
    var s3 := Do(M, s2, last);
    var a3, a2, a1 := [last], [Try(p), last], [Pop(p), Try(p), last];
    assert a3[1..] == [] && a2[1..] == a3 && a1[1..] == a2;
    assert Can(s2, last) && Do(M, s2, a3[0]) == s3;
    assert Runs(M, s3, a3[1..]) && After(M, s3, a3[1..]) == s3;
    assert Runs(M, s2, a3) && After(M, s2, a3) == s3;
    assert Runs(M, s1, a2) && After(M, s1, a2) == s3;
    assert s3.hands == s.hands;
  }
}
