/** The counts of `get_events_summary` (app/crud.py:66-85), and their agreement with the lanes. */
module Summary {
  import opened Lifecycle
  import opened Sums
  import opened Protocol
  import opened Safety
  import opened Intake
  import opened SafetyTheorems
  import opened RowLaw
  import opened Outcome
  import opened Fates
  import opened CleanRuns
  import opened Agreement

  datatype Counts = Counts(total: nat, pending: nat, processed: nat, failed: nat, bySource: map<string, nat>)

  function WithStatus(events: map<Uuid, Event>, status: Status): set<Uuid> {
    set id | id in events && events[id].status == status
  }

  function FromSource(events: map<Uuid, Event>, source: string): set<Uuid> {
    set id | id in events && events[id].source == source
  }

  function Sources(events: map<Uuid, Event>): set<string> {
    set id | id in events :: events[id].source
  }

  function BySource(events: map<Uuid, Event>): map<string, nat> {
    map source | source in Sources(events) :: |FromSource(events, source)|
  }

  /** The total, the statuses and the sources are counted by three statements, each of which sees the
      table as it is by then. */
  function Summarize(first: map<Uuid, Event>, second: map<Uuid, Event>, third: map<Uuid, Event>): Counts {
    Counts(|first|, |WithStatus(second, Pending)|, |WithStatus(second, Processed)|, |WithStatus(second, Failed)|,
           BySource(third))
  }

  ghost function Values(m: map<string, nat>, keys: set<string>): nat
    requires keys <= m.Keys
  {
    if keys == {} then 0
    else
      var k :| k in keys;
      m[k] + Values(m, keys - {k})
  }

  function FromSources(events: map<Uuid, Event>, sources: set<string>): set<Uuid> {
    set id | id in events && events[id].source in sources
  }

  lemma {:induction false} SourcesCover(events: map<Uuid, Event>, sources: set<string>)
    requires sources <= Sources(events)
    ensures Values(BySource(events), sources) == |FromSources(events, sources)|
    decreases |sources|
  {
    var counts := BySource(events);
    if sources == {} {
      assert FromSources(events, sources) == {};
    } else {
      var k :| k in sources && Values(counts, sources) == counts[k] + Values(counts, sources - {k});
      SourcesCover(events, sources - {k});
      SourcesSplit(events, sources, k);
    }
  }

  lemma SourcesSplit(events: map<Uuid, Event>, sources: set<string>, k: string)
    requires k in sources
    ensures |FromSources(events, sources)| == |FromSource(events, k)| + |FromSources(events, sources - {k})|
  {
    assert FromSources(events, sources) == FromSource(events, k) + FromSources(events, sources - {k});
    assert FromSource(events, k) !! FromSources(events, sources - {k});
  }

  lemma StatusesCover(events: map<Uuid, Event>)
    ensures |WithStatus(events, Pending)| + |WithStatus(events, Processed)| + |WithStatus(events, Failed)| == |events|
  {
    var p, d, f := WithStatus(events, Pending), WithStatus(events, Processed), WithStatus(events, Failed);
    assert p + d + f == events.Keys;
    assert p !! d && (p + d) !! f;
  }

  /** What each count counts. */
  lemma CountsMean(first: map<Uuid, Event>, second: map<Uuid, Event>, third: map<Uuid, Event>)
    ensures var c := Summarize(first, second, third);
      && c.total == |first|
      && c.pending == |set id | id in second && second[id].status == Pending|
      && c.processed == |set id | id in second && second[id].status == Processed|
      && c.failed == |set id | id in second && second[id].status == Failed|
      && (forall source :: source in c.bySource <==> exists id :: id in third && third[id].source == source)
      && (forall source :: source in c.bySource ==>
            c.bySource[source] == |set id | id in third && third[id].source == source|)
  {
    assert (set id | id in second && second[id].status == Pending) == WithStatus(second, Pending);
    assert (set id | id in second && second[id].status == Processed) == WithStatus(second, Processed);
    assert (set id | id in second && second[id].status == Failed) == WithStatus(second, Failed);
    forall source | source in BySource(third)
      ensures BySource(third)[source] == |set id | id in third && third[id].source == source|
    {
      assert (set id | id in third && third[id].source == source) == FromSource(third, source);
    }
  }

  lemma SourcesAddUp(events: map<Uuid, Event>)
    ensures Values(BySource(events), BySource(events).Keys) == |events|
  {
    SourcesCover(events, Sources(events));
    assert FromSources(events, Sources(events)) == events.Keys;
    assert BySource(events).Keys == Sources(events);
  }

  lemma {:induction false} SubsetSize<T>(a: set<T>, b: set<T>)
    requires a <= b
    ensures |a| <= |b| && (|a| == |b| <==> a == b)
  {
    assert b == a + (b - a);
  }

  lemma SameSize(before: map<Uuid, Event>, after: map<Uuid, Event>)
    requires before.Keys <= after.Keys
    ensures |before| <= |after| && (|before| == |after| <==> before.Keys == after.Keys)
  {
    SubsetSize(before.Keys, after.Keys);
  }

  /** The counts never fall short of the total, and they add up to it, by status or by source, just when
      no row was inserted between the statements that count. Rows are never deleted, and may change
      their status meanwhile. */
  lemma CountsAddUp(first: map<Uuid, Event>, second: map<Uuid, Event>, third: map<Uuid, Event>)
    requires first.Keys <= second.Keys <= third.Keys
    ensures var c := Summarize(first, second, third);
      && c.pending + c.processed + c.failed >= c.total
      && (c.pending + c.processed + c.failed == c.total <==> first.Keys == second.Keys)
      && Values(c.bySource, c.bySource.Keys) >= c.pending + c.processed + c.failed
      && (Values(c.bySource, c.bySource.Keys) == c.total <==> first.Keys == third.Keys)
  {
    StatusesCover(second);
    SourcesAddUp(third);
    SameSize(first, second);
    SameSize(second, third);
    SameSize(first, third);
  }

  function Ids(ms: seq<Msg>): set<Uuid> {
    set m | m in ms :: m.id
  }

  lemma {:induction false} DistinctIds(ms: seq<Msg>)
    requires forall id :: Sum(ms, IsFor(id)) <= 1
    ensures |Ids(ms)| == |ms|
  {
    if ms == [] {
      assert Ids(ms) == {};
    } else {
      var m, rest := ms[0], ms[1..];
      forall id ensures Sum(rest, IsFor(id)) <= 1 {
        assert Sum(ms, IsFor(id)) <= 1;
      }
      assert m.id !in Ids(rest) by {
        if x :| x in rest && x.id == m.id {
          SumHas(rest, x, IsFor(m.id));
          assert Sum(ms, IsFor(m.id)) <= 1;
        }
      }
      DistinctIds(rest);
      assert ms == [m] + rest;
      assert Ids(ms) == {m.id} + Ids(rest);
    }
  }

  ghost predicate AllIdle(s: Sys) {
    forall q :: q in s.procs ==> q == Idle
  }

  lemma MessagesAtRest(M: MaxAttempts, s: Sys, id: Uuid)
    requires Tidy(M, s) && Agrees(M, s) && AllIdle(s)
    ensures forall m :: (m in s.main || m in s.retry) && m.id == id ==> Has(s, m, Pending) && s.log.enqueued[id] > 0
    ensures forall m :: m in s.dlq && m.id == id ==> Has(s, m, Failed) && s.log.enqueued[id] > 0
  {
    forall m | m in s.main && m.id == id ensures Has(s, m, Pending) && s.log.enqueued[id] > 0 {
      assert MainAgrees(s, m) && GoodMsg(M, s, Main, m);
    }
    forall m | m in s.retry && m.id == id ensures Has(s, m, Pending) && s.log.enqueued[id] > 0 {
      assert GoodMsg(M, s, Retry, m);
    }
    forall m | m in s.dlq && m.id == id ensures Has(s, m, Failed) && s.log.enqueued[id] > 0 {
      assert GoodMsg(M, s, Dlq, m);
    }
  }

  lemma SomewhereAtRest(s: Sys, id: Uuid)
    requires Single(s) && Balances(s, id) && AllIdle(s) && s.log.enqueued[id] > 0 && s.log.completed[id] == 0
    ensures Copies(s, id) == 1
    ensures id in Ids(s.main) + Ids(s.retry) + Ids(s.dlq)
  {
    assert EnqueuedOnce(s, id);
    SumZero(s.procs, Carried(id));
    SumAtLeast(s.procs, 0, Announces(id));
    if Sum(s.main, IsFor(id)) > 0 {
      var k := SumWitness(s.main, IsFor(id));
      assert s.main[k] in s.main;
    } else if Sum(s.retry, IsFor(id)) > 0 {
      var k := SumWitness(s.retry, IsFor(id));
      assert s.retry[k] in s.retry;
    } else {
      var k := SumWitness(s.dlq, IsFor(id));
      assert s.dlq[k] in s.dlq;
    }
  }

  /** Where the one message of an enqueued event is when nobody holds any. */
  lemma WhereAtRest(M: MaxAttempts, s: Sys, id: Uuid)
    requires Base(M, s) && Ledger(M, s) && Agrees(M, s) && AllIdle(s) && id in s.events
    ensures s.events[id].status == Failed <==> id in Ids(s.dlq)
    ensures s.events[id].status == Pending && s.log.enqueued[id] > 0 <==> id in Ids(s.main) + Ids(s.retry)
    ensures s.events[id].status == Processed <==> s.log.enqueued[id] > 0 && Copies(s, id) == 0
    ensures s.log.enqueued[id] > 0 && s.events[id].status != Processed ==> Copies(s, id) == 1
  {
    MessagesAtRest(M, s, id);
    SingleMeansOneEach(s);
    LaneSums(s, id);
    SumAtLeast(s.procs, 0, Announces(id));
    assert EnqueuedOnce(s, id) && Balances(s, id) && Finished(s, id) && Meets(StampLaw, s.log.born[id], s.events[id]);
    if s.log.enqueued[id] > 0 && s.log.completed[id] == 0 { SomewhereAtRest(s, id); }
  }

  /** No lane holds two messages of one event, nor do two lanes. */
  lemma LanesDistinct(s: Sys)
    requires Single(s) && forall id :: Balances(s, id)
    ensures |Ids(s.main)| == |s.main| && |Ids(s.retry)| == |s.retry| && |Ids(s.dlq)| == |s.dlq|
    ensures Ids(s.main) !! Ids(s.retry)
  {
    SingleMeansOneEach(s);
    forall id
      ensures Sum(s.main, IsFor(id)) <= 1 && Sum(s.retry, IsFor(id)) <= 1 && Sum(s.dlq, IsFor(id)) <= 1
      ensures id !in Ids(s.main) || id !in Ids(s.retry)
    {
      LaneSums(s, id);
      assert Copies(s, id) <= 1;
    }
    DistinctIds(s.main);
    DistinctIds(s.retry);
    DistinctIds(s.dlq);
  }

  ghost predicate AgreeAtRest(s: Sys) {
    && (forall id :: id in s.events && s.log.enqueued[id] > 0 ==>
          Copies(s, id) == if s.events[id].status == Processed then 0 else 1)
    && (forall m :: m in s.main || m in s.retry ==> Has(s, m, Pending))
    && (forall m :: m in s.dlq ==> Has(s, m, Failed))
    && var c := Summarize(s.events, s.events, s.events);
       && c.failed == |s.dlq|
       && c.pending == |s.main| + |s.retry| + |set id | id in s.events && s.log.enqueued[id] == 0|
       && c.processed == |set id | id in s.events && s.log.enqueued[id] > 0 && Copies(s, id) == 0|
  }

  /** When nobody holds a message, each enqueued event has exactly one message unless it is processed,
      main and retry messages belong to pending events and dead letters to failed ones. So the summary's
      `failed` is the depth of the dead-letter lane, its `pending` the depth of the two other lanes and
      the rows that were never enqueued, and its `processed` the enqueued events without a message. */
  lemma LanesAgreeAtRest(M: MaxAttempts, start: Sys, acts: seq<Action>)
    requires Initial(start) && IsRun(M, start, acts) && AllClean(acts) && GuardedRun(M, start, acts)
    ensures AllIdle(Run(M, start, acts)) ==> AgreeAtRest(Run(M, start, acts))
  {
    InitialLedger(M, start);
    LedgerRun(M, start, acts);
    AgreesFrom(M, start, acts);
    var s := Run(M, start, acts);
    if AllIdle(s) {
      FailedAreDeadLetters(M, s);
      PendingAreWaiting(M, s);
      ProcessedAreGone(M, s);
      LanesDistinct(s);
      forall id | id in s.events && s.log.enqueued[id] > 0
        ensures Copies(s, id) == if s.events[id].status == Processed then 0 else 1
      {
        OneCopyAtRest(M, s, id);
      }
      RestAgrees(M, s);
    }
  }

  lemma FailedAreDeadLetters(M: MaxAttempts, s: Sys)
    requires Base(M, s) && Ledger(M, s) && Agrees(M, s) && AllIdle(s)
    ensures WithStatus(s.events, Failed) == Ids(s.dlq)
  {
    forall id | id in s.events ensures s.events[id].status == Failed <==> id in Ids(s.dlq) {
      WhereAtRest(M, s, id);
    }
    forall m | m in s.dlq ensures m.id in s.events { assert Has(s, m, Failed); }
  }

  function Unqueued(s: Sys): set<Uuid> {
    set id | id in s.events && s.log.enqueued[id] == 0
  }

  lemma UnqueuedPending(M: MaxAttempts, s: Sys, id: Uuid)
    requires Base(M, s) && id in s.events
    ensures s.log.enqueued[id] == 0 ==> s.events[id].status == Pending
  {
    if s.log.enqueued[id] == 0 { assert IsNew(s.log.born[id]) && s.events[id] == s.log.born[id]; }
  }

  lemma PendingAreWaiting(M: MaxAttempts, s: Sys)
    requires Base(M, s) && Ledger(M, s) && Agrees(M, s) && AllIdle(s)
    ensures WithStatus(s.events, Pending) == Ids(s.main) + Ids(s.retry) + Unqueued(s)
    ensures Unqueued(s) !! Ids(s.main) + Ids(s.retry)
  {
    hide Base, Ledger, Agrees, Copies;
    forall id | id in s.events
      ensures s.events[id].status == Pending <==> id in Ids(s.main) + Ids(s.retry) + Unqueued(s)
      ensures s.log.enqueued[id] == 0 ==> id !in Ids(s.main) + Ids(s.retry)
    {
      WhereAtRest(M, s, id);
      UnqueuedPending(M, s, id);
    }
    LanesHaveRows(M, s);
  }

  lemma LanesHaveRows(M: MaxAttempts, s: Sys)
    requires Agrees(M, s)
    ensures forall m :: m in s.main || m in s.retry ==> m.id in s.events
  {
    forall m | m in s.main ensures m.id in s.events { assert MainAgrees(s, m); }
    forall m | m in s.retry ensures m.id in s.events { assert Has(s, m, Pending); }
  }

  lemma ProcessedAreGone(M: MaxAttempts, s: Sys)
    requires Base(M, s) && Ledger(M, s) && Agrees(M, s) && AllIdle(s)
    ensures WithStatus(s.events, Processed) == set id | id in s.events && s.log.enqueued[id] > 0 && Copies(s, id) == 0
  {
    forall id | id in s.events
      ensures s.events[id].status == Processed <==> s.log.enqueued[id] > 0 && Copies(s, id) == 0
    {
      WhereAtRest(M, s, id);
    }
  }

  lemma OneCopyAtRest(M: MaxAttempts, s: Sys, id: Uuid)
    requires Base(M, s) && Ledger(M, s) && Agrees(M, s) && AllIdle(s)
    requires id in s.events && s.log.enqueued[id] > 0
    ensures Copies(s, id) == if s.events[id].status == Processed then 0 else 1
  {
    WhereAtRest(M, s, id);
  }

  lemma RestAgrees(M: MaxAttempts, s: Sys)
    requires Agrees(M, s) && AllIdle(s)
    requires WithStatus(s.events, Failed) == Ids(s.dlq) && |Ids(s.dlq)| == |s.dlq|
    requires WithStatus(s.events, Pending) == Ids(s.main) + Ids(s.retry) + Unqueued(s)
    requires Unqueued(s) !! Ids(s.main) + Ids(s.retry) && Ids(s.main) !! Ids(s.retry)
    requires |Ids(s.main)| == |s.main| && |Ids(s.retry)| == |s.retry|
    requires WithStatus(s.events, Processed) == set id | id in s.events && s.log.enqueued[id] > 0 && Copies(s, id) == 0
    requires forall id :: id in s.events && s.log.enqueued[id] > 0 ==>
               Copies(s, id) == if s.events[id].status == Processed then 0 else 1
    ensures AgreeAtRest(s)
  {
    hide Copies, WithStatus, Unqueued, Ids, BySource;
    forall m | m in s.main ensures Has(s, m, Pending) { assert MainAgrees(s, m); }
    UnqueuedSet(s);
    PartsAddUp(WithStatus(s.events, Pending), Ids(s.main), Ids(s.retry), Unqueued(s));
  }

  lemma UnqueuedSet(s: Sys)
    ensures Unqueued(s) == set id | id in s.events && s.log.enqueued[id] == 0
  {
  }

  lemma PartsAddUp<T>(whole: set<T>, a: set<T>, b: set<T>, c: set<T>)
    requires whole == a + b + c && a !! b && c !! a + b
    ensures |whole| == |a| + |b| + |c|
  {
  }

  // ---------------------------------------------------------------- rows by source, over runs

  lemma FromSourceRaised(events: map<Uuid, Event>, id: Uuid, e: Event, source: string)
    requires id !in events
    ensures |FromSource(events[id := e], source)| == |FromSource(events, source)| + if source == e.source then 1 else 0
  {
    assert FromSource(events[id := e], source) == FromSource(events, source) + if source == e.source then {id} else {};
    assert id !in FromSource(events, source);
  }

  lemma SourcesRaised(events: map<Uuid, Event>, id: Uuid, e: Event)
    requires id !in events
    ensures Sources(events[id := e]) == Sources(events) + {e.source}
    ensures e.source !in Sources(events) ==> FromSource(events, e.source) == {}
  {
    var after := events[id := e];
    assert after[id] == e && forall x :: x in events ==> x in after && after[x] == events[x];
  }

  /** A new row adds one to the count of its source and leaves the counts of the others alone. */
  lemma BySourceRaised(events: map<Uuid, Event>, id: Uuid, e: Event)
    requires id !in events
    ensures BySource(events[id := e]) ==
            BySource(events)[e.source := 1 + if e.source in BySource(events) then BySource(events)[e.source] else 0]
  {
    hide Sources, FromSource;
    SourcesRaised(events, id, e);
    forall source
      ensures |FromSource(events[id := e], source)| == |FromSource(events, source)| + if source == e.source then 1 else 0
    {
      FromSourceRaised(events, id, e, source);
    }
  }

  /** The action inserts a row of this source. */
  ghost predicate Inserts(s: Sys, a: Action, source: string)
    requires Enabled(s, a)
  {
    && a.Api? && a.api.Insert? && !Taken(s.events, s.procs[a.p].request.delivery)
    && s.procs[a.p].request.source == source
  }

  /** How many rows of this source the run inserts. */
  ghost function Insertions(M: MaxAttempts, s: Sys, acts: seq<Action>, source: string): nat
    requires IsRun(M, s, acts)
    decreases |acts|
  {
    if acts == [] then 0
    else (if Inserts(s, acts[0], source) then 1 else 0) + Insertions(M, Apply(M, s, acts[0]), acts[1..], source)
  }

  lemma SourcesKept(M: MaxAttempts, s: Sys, a: Action, source: string)
    requires Enabled(s, a) && !(a.Api? && a.api.Insert?)
    ensures FromSource(Apply(M, s, a).events, source) == FromSource(s.events, source)
  {
    if a.Api? { ApiRows(s, a.p, a.api); }
    if a.Crash? { CrashFrame(s, a.p, a.at); }
  }

  lemma SourceInserted(M: MaxAttempts, s: Sys, p: nat, id: Uuid, source: string)
    requires CanApi(s, p, Insert(id))
    ensures FromSource(DoApi(s, p, Insert(id)).events, source) ==
            FromSource(s.events, source) + (if Inserts(s, Api(p, Insert(id)), source) then {id} else {})
  {
  }

  /** An insert adds one to the rows of the request's source, and no other step changes the rows of any
      source. */
  lemma SourceStep(M: MaxAttempts, s: Sys, a: Action, source: string)
    requires Enabled(s, a)
    ensures |FromSource(Apply(M, s, a).events, source)| ==
            |FromSource(s.events, source)| + if Inserts(s, a, source) then 1 else 0
  {
    if a.Api? && a.api.Insert? {
      SourceInserted(M, s, a.p, a.api.id, source);
      assert a.api.id !in FromSource(s.events, source);
    } else {
      SourcesKept(M, s, a, source);
    }
  }

  /** Over any run the rows of a source grow by exactly the webhooks of that source that were stored. */
  lemma {:induction false} SourceGrows(M: MaxAttempts, s: Sys, acts: seq<Action>, source: string)
    requires IsRun(M, s, acts)
    ensures |set id | id in Run(M, s, acts).events && Run(M, s, acts).events[id].source == source| ==
            |set id | id in s.events && s.events[id].source == source| + Insertions(M, s, acts, source)
    decreases |acts|
  {
    if acts != [] {
      var t := Apply(M, s, acts[0]);
      SourceStep(M, s, acts[0], source);
      SourceGrows(M, t, acts[1..], source);
      assert (set id | id in s.events && s.events[id].source == source) == FromSource(s.events, source);
      assert (set id | id in t.events && t.events[id].source == source) == FromSource(t.events, source);
    }
  }
}
