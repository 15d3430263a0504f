/** The event record and what one processing attempt does to it (app/models.py, app/services/processor.py). */
module Lifecycle {

  datatype Option<+T> = None | Some(value: T)

  /** A 128-bit identifier. */
  type Uuid = n: int | 0 <= n < 0x1_0000_0000_0000_0000_0000_0000_0000_0000

  /** `RABBITMQ_MAX_DELIVERY_ATTEMPTS`, which the settings reject below 1. */
  type MaxAttempts = n: int | 1 <= n witness 1

  datatype Status = Pending | Processed | Failed

  /** The payload field `fail_attempts_remaining`: the integer it converts to, or a value `int(...)` rejects. */
  datatype Counter = Remaining(n: int) | Unreadable

  /** The exceptions an attempt can end with; `error_message` keeps the text of the last one. */
  datatype Fault = Transient | Forced | BadCounter

  datatype Event = Event(
    delivery: Option<string>,
    source: string,
    counter: Counter,
    forced: bool,
    status: Status,
    attempts: nat,
    processedAt: bool,
    error: Option<Fault>)

  function NewEvent(delivery: Option<string>, source: string, counter: Counter, forced: bool): Event {
    Event(delivery, source, counter, forced, Pending, 0, false, None)
  }

  predicate IsNew(e: Event) {
    e == NewEvent(e.delivery, e.source, e.counter, e.forced)
  }

  function FaultOf(e: Event): Option<Fault> {
    match e.counter
    case Unreadable => Some(BadCounter)
    case Remaining(n) =>
      if n > 0 then Some(Transient)
      else if e.forced then Some(Forced)
      else None
  }

  predicate Succeeds(e: Event) {
    FaultOf(e).None?
  }

  function CounterAfter(c: Counter): Counter {
    match c
    case Unreadable => c
    case Remaining(n) => if n > 0 then Remaining(n - 1) else c
  }

  /** The record after one attempt that loaded `e`. */
  function Attempt(e: Event, finalAttempt: bool): Event {
    var tried := e.(attempts := e.attempts + 1, counter := CounterAfter(e.counter));
    match FaultOf(e)
    case None => tried.(status := Processed, processedAt := true, error := None)
    case Some(fault) =>
      tried.(status := if finalAttempt then Failed else Pending, processedAt := false, error := Some(fault))
  }

  /** What the commit of an attempt that loaded `loaded` leaves in a row that meanwhile reads `row`:
      only the columns whose value differs from the loaded one are written. The time stamp of a
      success always differs, because the clock has moved on. */
  function Written(row: Event, loaded: Event, finalAttempt: bool): Event {
    var result := Attempt(loaded, finalAttempt);
    row.(attempts := result.attempts,
         counter := if result.counter == loaded.counter then row.counter else result.counter,
         status := if result.status == loaded.status then row.status else result.status,
         processedAt := if Succeeds(loaded) then true else if loaded.processedAt then false else row.processedAt,
         error := if result.error == loaded.error then row.error else result.error)
  }

  /** Column by column: the attempt count is always written, any other column only if the attempt changes
      what it loaded. */
  lemma WrittenColumns(row: Event, was: Event, finalAttempt: bool)
    ensures var r := Written(row, was, finalAttempt);
      var passed := Succeeds(was);
      var status := if passed then Processed else if finalAttempt then Failed else Pending;
      var error := if passed then None
                   else if was.counter.Unreadable? then Some(BadCounter)
                   else if was.counter.n > 0 then Some(Transient)
                   else Some(Forced);
      && (passed <==> was.counter.Remaining? && was.counter.n <= 0 && !was.forced)
      && r.delivery == row.delivery && r.source == row.source && r.forced == row.forced
      && r.attempts == was.attempts + 1
      && r.counter == (if was.counter.Remaining? && was.counter.n > 0 then Remaining(was.counter.n - 1) else row.counter)
      && r.status == (if status == was.status then row.status else status)
      && r.error == (if error == was.error then row.error else error)
      && r.processedAt == (if passed then true else if was.processedAt then false else row.processedAt)
  {
  }

  /** The guarded UPDATE of `mark_events_pending` on one row. */
  function MarkedPending(e: Event): Event {
    if e.status == Processed then e else e.(status := Pending, processedAt := false, error := None)
  }

  function Max(a: int, b: int): int {
    if a < b then b else a
  }

  function Min(a: int, b: int): int {
    if a < b then a else b
  }

  /** How a record must look, given the record `born` it was created as: its outcome is a function of
      `attempts` alone. */
  predicate Lawful(born: Event, e: Event) {
    && e.delivery == born.delivery && e.source == born.source && e.forced == born.forced
    && match born.counter
       case Unreadable => e.counter == Unreadable && e.status != Processed
       case Remaining(n0) =>
         && e.counter == Remaining(if n0 >= 0 then Max(0, n0 - e.attempts) else n0)
         && (e.status == Processed <==> !e.forced && e.attempts > Max(0, n0))
  }

  /** The time stamp and the error message fit a processed status, and untried rows are pending. */
  predicate Stamped(e: Event) {
    && (e.processedAt <==> e.status == Processed)
    && (e.status == Processed ==> e.error == None)
    && (e.attempts == 0 ==> e.status == Pending)
  }

  /** How much is asked of a row: that its outcome follows from its attempts, that it is stamped
      accordingly, and that a failed row has an error message. */
  datatype Law = OutcomeLaw | StampLaw | FullLaw

  /** The row `e` is as the record it was created as and its attempts make it. */
  predicate Meets(law: Law, born: Event, e: Event) {
    && IsNew(born) && Lawful(born, e)
    && (law != OutcomeLaw ==> Stamped(e))
    && (law == FullLaw ==> e.status == Failed ==> e.error.Some?)
  }

  function StatusAfterFault(finalAttempt: bool): Status {
    if finalAttempt then Failed else Pending
  }

  /** What a commit of an attempt that loaded `loaded` must find in the row, so that the row still meets
      the law. It looks only at columns that the commit leaves alone, and at an overwritten `Processed`. */
  predicate Keeps(law: Law, row: Event, loaded: Event, finalAttempt: bool) {
    && (loaded.counter.Remaining? && loaded.counter.n <= 0 ==> row.counter == loaded.counter)
    && (Succeeds(loaded) && loaded.status == Processed ==> row.status == Processed)
    && (!Succeeds(loaded) && (law != OutcomeLaw || loaded.status == StatusAfterFault(finalAttempt)) ==>
          row.status != Processed)
    && (law != OutcomeLaw && Succeeds(loaded) && loaded.error == None ==> row.error == None)
    && (law == FullLaw && !Succeeds(loaded) && loaded.error == FaultOf(loaded) && row.error == None ==>
          !finalAttempt || (loaded.status == Failed && row.status != Failed))
  }

  lemma NewMeets(law: Law, e: Event)
    requires IsNew(e)
    ensures Meets(law, e, e)
  {
  }

  lemma AttemptMeets(law: Law, born: Event, e: Event, finalAttempt: bool)
    requires Meets(law, born, e)
    ensures Meets(law, born, Attempt(e, finalAttempt))
  {
  }

  lemma MarkedMeets(law: Law, born: Event, e: Event)
    requires Meets(law, born, e)
    ensures Meets(law, born, MarkedPending(e))
  {
  }

  /** A commit keeps the law just when it finds what it must find. */
  lemma WrittenMeets(law: Law, born: Event, row: Event, loaded: Event, finalAttempt: bool)
    requires Meets(law, born, row) && Meets(law, born, loaded)
    ensures Meets(law, born, Written(row, loaded, finalAttempt)) <==> Keeps(law, row, loaded, finalAttempt)
  {
  }

  /** A commit that keeps the outcome lawful takes a row out of `Processed` just when it commits a failure. */
  lemma WrittenUndoes(born: Event, row: Event, loaded: Event, finalAttempt: bool)
    requires Meets(OutcomeLaw, born, loaded) && Keeps(OutcomeLaw, row, loaded, finalAttempt)
    requires row.status == Processed
    ensures Written(row, loaded, finalAttempt).status == Processed <==> Succeeds(loaded)
  {
  }

  /** An attempt on a lawful processed row succeeds. */
  lemma ProcessedSucceeds(born: Event, e: Event, finalAttempt: bool)
    requires Meets(OutcomeLaw, born, e) && e.status == Processed
    ensures Attempt(e, finalAttempt).status == Processed
  {
  }

  /** A commit to an undisturbed row leaves the row the attempt makes. */
  lemma WrittenUndisturbed(e: Event, finalAttempt: bool)
    ensures Written(e, e, finalAttempt) == Attempt(e, finalAttempt)
  {
  }

  /** The row is as it was loaded, but for a redrive's mark. */
  predicate UpToDate(row: Event, loaded: Event) {
    row == loaded || row == MarkedPending(loaded)
  }

  /** An attempt on such a row counts once, keeps the counter's course, and ends processed just when an
      attempt on the row itself would. */
  lemma WrittenUpToDate(born: Event, row: Event, loaded: Event, finalAttempt: bool)
    requires Lawful(born, loaded) && UpToDate(row, loaded)
    ensures Keeps(StampLaw, row, loaded, finalAttempt) && Succeeds(row) == Succeeds(loaded)
    ensures var e := Written(row, loaded, finalAttempt);
      && e.attempts == row.attempts + 1 && e.counter == CounterAfter(row.counter)
      && (e.status == Processed <==> Succeeds(row))
  {
  }
}
