/** The events table, the objects a session loads from it, and the processor that changes them
    (app/services/processor.py, app/crud.py). */
module Store {
  import opened Lifecycle
  import opened Protocol
  import opened Summary

  /** A row as one session sees it: assignments stay here until the session commits. */
  class EventObject {
    const id: Uuid
    const loaded: Event
    var attempts: nat
    var counter: Counter
    var status: Status
    var processedAt: bool
    var stampedNow: bool
    var error: Option<Fault>

    constructor (id: Uuid, row: Event)
      ensures this.id == id && loaded == row && Untouched()
    {
      this.id, loaded := id, row;
      attempts, counter, status := row.attempts, row.counter, row.status;
      processedAt, stampedNow, error := row.processedAt, false, row.error;
    }

    predicate Untouched()
      reads this
    {
      && attempts == loaded.attempts && counter == loaded.counter && status == loaded.status
      && processedAt == loaded.processedAt && !stampedNow && error == loaded.error
    }

    /** The row that a commit makes of `row`: only columns that differ from the loaded ones are written. */
    function Flushed(row: Event): Event
      reads this
    {
      row.(attempts := if attempts == loaded.attempts then row.attempts else attempts,
           counter := if counter == loaded.counter then row.counter else counter,
           status := if status == loaded.status then row.status else status,
           processedAt := if stampedNow || processedAt != loaded.processedAt then processedAt else row.processedAt,
           error := if error == loaded.error then row.error else error)
    }
  }

  class Database {
    var rows: map<Uuid, Event>

    constructor ()
      ensures rows == map[]
    {
      rows := map[];
    }

    method Commit(event: EventObject)
      requires event.id in rows
      modifies this
      ensures rows == old(rows)[event.id := event.Flushed(old(rows)[event.id])]
    {
      rows := rows[event.id := event.Flushed(rows[event.id])];
    }

    /** `process_event`: the object is changed field by field and committed once, in either outcome. */
    method ProcessEvent(event: EventObject, finalAttempt: bool) returns (processed: bool)
      requires event.id in rows && event.Untouched()
      modifies this, event
      ensures processed <==> Succeeds(event.loaded)
      ensures rows == old(rows)[event.id := Written(old(rows)[event.id], event.loaded, finalAttempt)]
      ensures var was, r := event.loaded, rows[event.id];
        var row := old(rows)[event.id];
        && r.delivery == row.delivery && r.source == row.source && r.forced == row.forced
        && r.attempts == was.attempts + 1
        && r.counter == (if was.counter.Remaining? && was.counter.n > 0 then Remaining(was.counter.n - 1) else row.counter)
        && var status := if processed then Processed else if finalAttempt then Failed else Pending;
           var error := if processed then None
                        else if was.counter.Unreadable? then Some(BadCounter)
                        else if was.counter.n > 0 then Some(Transient)
                        else Some(Forced);
           && (processed <==> was.counter.Remaining? && was.counter.n <= 0 && !was.forced)
           && r.status == (if status == was.status then row.status else status)
           && r.error == (if error == was.error then row.error else error)
           && r.processedAt == (if processed then true else if was.processedAt then false else row.processedAt)
    {
      hide Written, Attempt, FaultOf, Succeeds, CounterAfter;
      WrittenColumns(rows[event.id], event.loaded, finalAttempt);
      event.attempts := event.attempts + 1;
      var fault: Option<Fault> := None;
      match event.counter {
        case Unreadable => fault := Some(BadCounter);
        case Remaining(n) =>
          if n > 0 {
            event.counter := Remaining(n - 1);
            fault := Some(Transient);
          } else if event.loaded.forced {
            fault := Some(Forced);
          }
      }
      if fault == None {
        event.status := Processed;
        event.processedAt := true;
        event.stampedNow := true;
        event.error := None;
        Commit(event);
        return true;
      }
      event.status := if finalAttempt then Failed else Pending;
      event.processedAt := false;
      event.error := fault;
      Commit(event);
      processed := false;
    }

    /** `process_event_by_id`; an id without a row counts as processed. */
    method ProcessEventById(id: Uuid, finalAttempt: bool) returns (processed: bool)
      modifies this
      ensures processed <==> (id in old(rows) ==> Succeeds(old(rows)[id]))
      ensures rows == if id in old(rows) then old(rows)[id := Attempt(old(rows)[id], finalAttempt)] else old(rows)
      ensures id in old(rows) ==>
        var e, r := old(rows)[id], rows[id];
        && r.delivery == e.delivery && r.source == e.source && r.forced == e.forced && r.attempts == e.attempts + 1
        && match e.counter
           case Unreadable => !processed && r.counter == Unreadable && r.error == Some(BadCounter)
           case Remaining(n) =>
             if n > 0 then !processed && r.counter == Remaining(n - 1) && r.error == Some(Transient)
             else r.counter == Remaining(n) && if e.forced then !processed && r.error == Some(Forced) else processed
      ensures id in old(rows) && processed ==>
        rows[id].status == Processed && rows[id].processedAt && rows[id].error == None
      ensures id in old(rows) && !processed ==>
        rows[id].status == (if finalAttempt then Failed else Pending) && !rows[id].processedAt
    {
      if id !in rows {
        return true;
      }
      var event := new EventObject(id, rows[id]);
      WrittenUndisturbed(rows[id], finalAttempt);
      processed := ProcessEvent(event, finalAttempt);
    }

    /** `get_event_by_delivery_id`. */
    method GetEventByDeliveryId(delivery: string) returns (found: Option<Uuid>)
      ensures found.Some? ==> Holds(rows, Some(delivery), found.value)
      ensures found == None ==> forall id :: !Holds(rows, Some(delivery), id)
    {
      if id :| id in rows && rows[id].delivery == Some(delivery) {
        found := Some(id);
      } else {
        found := None;
      }
    }

    /** `create_event` with the drawn id; false where the unique index rejects the row. */
    method CreateEvent(id: Uuid, request: Request) returns (ok: bool)
      requires id !in rows
      modifies this
      ensures ok <==> !Taken(old(rows), request.delivery)
      ensures rows == if ok
                      then old(rows)[id := NewEvent(request.delivery, request.source, request.counter, request.forced)]
                      else old(rows)
      ensures ok ==>
        && rows[id].delivery == request.delivery && rows[id].source == request.source
        && rows[id].counter == request.counter && rows[id].forced == request.forced
        && rows[id].status == Pending && rows[id].attempts == 0 && !rows[id].processedAt && rows[id].error == None
      ensures ok ==>
        var counts := BySource(old(rows));
        BySource(rows) == counts[request.source := 1 + if request.source in counts then counts[request.source] else 0]
    {
      if request.delivery.Some? {
        var other := GetEventByDeliveryId(request.delivery.value);
        if other.Some? {
          return false;
        }
      }
      BySourceRaised(rows, id, NewEvent(request.delivery, request.source, request.counter, request.forced));
      rows := rows[id := NewEvent(request.delivery, request.source, request.counter, request.forced)];
      ok := true;
    }

    /** `mark_events_pending`: one guarded UPDATE. */
    method MarkEventsPending(ids: seq<Uuid>)
      modifies this
      ensures rows == MarkAll(old(rows), ids)
      ensures rows.Keys == old(rows).Keys
      ensures forall id :: id in old(rows) && id in ids && old(rows)[id].status != Processed ==>
        rows[id] == old(rows)[id].(status := Pending, processedAt := false, error := None)
      ensures forall id :: id in old(rows) && (id !in ids || old(rows)[id].status == Processed) ==>
        rows[id] == old(rows)[id]
    {
      if ids == [] {
        assert MarkAll(rows, ids) == rows;
        return;
      }
      rows := map id | id in rows :: if id in ids then MarkedPending(rows[id]) else rows[id];
    }

    /** `get_events_summary`; `second` and `third` are the rows as its later statements find them. */
    method GetEventsSummary(second: map<Uuid, Event>, third: map<Uuid, Event>) returns (counts: Counts)
      requires rows.Keys <= second.Keys <= third.Keys
      ensures counts == Summarize(rows, second, third)
      ensures counts.total == |rows|
      ensures counts.pending == |set id | id in second && second[id].status == Pending|
      ensures counts.processed == |set id | id in second && second[id].status == Processed|
      ensures counts.failed == |set id | id in second && second[id].status == Failed|
      ensures forall source :: source in counts.bySource <==> exists id :: id in third && third[id].source == source
      ensures forall source :: source in counts.bySource ==>
        counts.bySource[source] == |set id | id in third && third[id].source == source|
      ensures counts.pending + counts.processed + counts.failed == counts.total <==> rows.Keys == second.Keys
      ensures Values(counts.bySource, counts.bySource.Keys) == counts.total <==> rows.Keys == third.Keys
    {
      var total := |rows|;
      var pending, processed := |WithStatus(second, Pending)|, |WithStatus(second, Processed)|;
      var failed := |WithStatus(second, Failed)|;
      var bySource := BySource(third);
      counts := Counts(total, pending, processed, failed, bySource);
      CountsAddUp(rows, second, third);
      CountsMean(rows, second, third);
    }
  }
}
