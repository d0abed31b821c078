/** The settlement queue and the settlement service's loop body, as objects updated in place. */
module SettlementService {
  import opened Collections
  import opened BatchIds
  import opened Settlement

  datatype ProcessError = UnknownBatch | WrongSize
  datatype Result<+T, +E> = Ok(value: T) | Err(error: E)

  class SettlementBatcher {
    var pending: seq<CapturedPayment>
    var batches: map<string, SettlementBatch>
    var sequence: nat
    var batchSize: nat

    ghost function State(): Queue
      reads this
    {
      Queue(pending, batches, sequence)
    }

    constructor (batchSize: nat)
      ensures State() == EMPTY_QUEUE && this.batchSize == batchSize
    {
      pending, batches, sequence, this.batchSize := [], map[], 0, batchSize;
    }

    method EnqueueCapture(c: CaptureEvent) returns (captured: Option<CapturedPayment>)
      modifies this`pending
      ensures State() == Enqueued(old(State()), c)
      ensures captured == if Accepts(old(State()), c) then Some(PaymentOf(c)) else None
    {
      if c.eventType != "capture_succeeded" {
        return None;
      }
      if c.status != "success" && c.transactionStatus != "CAPTURED_FINAL" {
        return None;
      }
      if exists x :: x in pending && x.transactionId == c.transactionId {
        return None;
      }
      if exists b :: b in batches && c.transactionId in batches[b].ids {
        return None;
      }
      var payment := PaymentOf(c);
      pending := pending + [payment];
      captured := Some(payment);
    }

    method CreateBatch(suffix: string, now: string) returns (batch: Option<SettlementBatch>)
      modifies this`pending, this`batches, this`sequence
      ensures batch.None? <==> |old(pending)| < batchSize
      ensures batch.None? ==> State() == old(State())
      ensures batch.Some? ==>
                && batch.value == NextBatch(old(State()), batchSize, suffix, now)
                && State() == Cut(old(State()), batchSize, suffix, now)
    {
      if |pending| < batchSize {
        return None;
      }
      sequence := sequence + 1;
      var items := pending[..batchSize];
      pending := pending[batchSize..];
      var b := NewBatch(BatchId(sequence, suffix), items, now);
      batches := batches[b.batchId := b];
      batch := Some(b);
    }

    method ProcessBatch(id: string, ok: bool, now: string) returns (r: Result<SettlementBatch, ProcessError>)
      modifies this`batches
      ensures id !in old(batches) ==> r == Err(UnknownBatch)
      ensures id in old(batches) && !Processable(old(batches)[id], batchSize) ==> r == Err(WrongSize)
      ensures r.Err? ==> State() == old(State())
      ensures id in old(batches) && Processable(old(batches)[id], batchSize) ==>
                && r == Ok(Processed(old(batches)[id], ok, now))
                && batches == old(batches)[id := r.value]
    {
      if id !in batches {
        return Err(UnknownBatch);
      }
      var b := batches[id];
      if b.count != batchSize || |b.ids| != batchSize {
        return Err(WrongSize);
      }
      b := b.(status := if ok then Succeeded else Failed, processedAt := now);
      b := b.(settled := if ok then b.total else 0.0);
      b := b.(failed := if ok then 0.0 else b.total);
      b := b.(failureCode := if ok then "" else "BANK_TIMEOUT");
      if !ok {
        b := b.(rca := Some(Explain(b).rca));
      }
      batches := batches[id := b];
      r := Ok(b);
    }

    /** A retry that the size check stops has already raised the attempt and reopened the batch. */
    method RetryBatch(id: string, ok: bool, now: string) returns (r: Result<SettlementBatch, ProcessError>)
      modifies this`batches
      ensures id !in old(batches) ==> r == Err(UnknownBatch) && batches == old(batches)
      ensures id in old(batches) ==>
                var b := old(batches)[id];
                var again := b.(attempt := b.attempt + 1, status := Processing);
                if Processable(b, batchSize)
                then r == Ok(Processed(again, ok, now)) && batches == old(batches)[id := r.value]
                else r == Err(WrongSize) && batches == old(batches)[id := again]
    {
      if id !in batches {
        return Err(UnknownBatch);
      }
      var b := batches[id];
      batches := batches[id := b.(attempt := b.attempt + 1, status := Processing)];
      r := ProcessBatch(id, ok, now);
    }

    method ReconcileSettlementEvent(e: SettlementEvent)
      modifies this`pending, this`batches, this`sequence
      ensures State() == Reconciled(old(State()), e)
    {
      if !("settlement_batch_" <= e.eventType) || e.ids == {} {
        return;
      }
      match MatchIndex(e.batchId) {
        case Some(n) => sequence := if n > sequence then n else sequence;
        case None =>
      }
      pending := Without(pending, e.ids);
      if e.batchId != "" {
        if e.batchId in batches && Terminal(batches[e.batchId].status) && !Terminal(StatusOf(e)) {
          return;
        }
        batches := batches[e.batchId := BatchFrom(e)];
      }
    }

    method HandleMessage(m: Message)
      modifies this`pending, this`batches, this`sequence
      ensures State() == Handled(old(State()), m)
    {
      match m {
        case Settled(e) => ReconcileSettlementEvent(e);
        case Captured(c) => var _ := EnqueueCapture(c);
      }
    }
  }

  // ---------- The outcome pattern ----------

  /**
   `SETTLEMENT_OUTCOME_PATTERN` after splitting and trimming, and the number the SHA-256
   digest of an index begins with.
   */
  datatype Outcomes = Outcomes(pattern: seq<string>, digest: nat -> nat)

  const SUCCESS_WORDS: set<string> := {"success", "succeeded", "ok", "true", "1"}

  /** Index 0 reads the last entry of the pattern, as Python's index -1 does. */
  function OutcomeForIndex(o: Outcomes, index: nat): bool {
    var values := if |o.pattern| == 0 then ["success"] else o.pattern;
    var k := if index == 0 || index > |values| then |values| - 1 else index - 1;
    if values[k] == "random" || values[k] == "mock_random" then o.digest(index) % 100 >= 20
    else values[k] in SUCCESS_WORDS
  }

  function OutcomeOf(o: Outcomes, id: string): bool {
    OutcomeForIndex(o, BatchIndex(id))
  }

  // ---------- The service loop ----------

  datatype Flight = Flight(batchId: string, readyAt: real)

  /** Finishing batches one after the other, until one of them raises an error. */
  datatype Finish = Finish(queue: Queue, events: seq<SettlementEvent>, ok: bool)

  function FinishedOne(q: Queue, o: Outcomes, id: string, now: string): (r: (Queue, SettlementEvent))
    requires id in q.batches
  {
    var b := Processed(q.batches[id], OutcomeOf(o, id), now);
    (q.(batches := q.batches[id := b]), EventOf(b, TerminalType(b), now))
  }

  function FinishStep(f: Finish, size: nat, o: Outcomes, id: string, now: string): Finish {
    if !f.ok then f
    else if id !in f.queue.batches || !Processable(f.queue.batches[id], size) then f.(ok := false)
    else
      var (q, e) := FinishedOne(f.queue, o, id, now);
      Finish(q, f.events + [e], true)
  }

  function FinishedAll(f: Finish, size: nat, o: Outcomes, due: seq<Flight>, now: string): Finish {
    if |due| == 0 then f
    else FinishStep(FinishedAll(f, size, o, due[..|due| - 1], now), size, o, due[|due| - 1].batchId, now)
  }

  function DueBy(flights: seq<Flight>, clock: real): seq<Flight> {
    if |flights| == 0 then []
    else
      var f := flights[|flights| - 1];
      DueBy(flights[..|flights| - 1], clock) + (if f.readyAt <= clock then [f] else [])
  }

  function NotDueBy(flights: seq<Flight>, clock: real): seq<Flight> {
    if |flights| == 0 then []
    else
      var f := flights[|flights| - 1];
      NotDueBy(flights[..|flights| - 1], clock) + (if f.readyAt > clock then [f] else [])
  }

  function FlightIds(flights: seq<Flight>): set<string> {
    set f | f in flights :: f.batchId
  }

  function Unfinished(batches: map<string, SettlementBatch>): set<string> {
    set b | b in batches && (batches[b].status == Ready || batches[b].status == Processing)
  }

  function StartedEvents(b: SettlementBatch, now: string): seq<SettlementEvent> {
    [EventOf(b, "settlement_batch_ready", now),
     EventOf(b.(status := Processing), "settlement_batch_processing", now)]
  }

  class SettlementWorker {
    const batcher: SettlementBatcher
    const outcomes: Outcomes
    const processingDelay: real
    var published: seq<SettlementEvent>
    var inFlight: seq<Flight>

    constructor (batchSize: nat, outcomes: Outcomes, processingDelay: real)
      ensures fresh(batcher) && batcher.State() == EMPTY_QUEUE && batcher.batchSize == batchSize
      ensures this.outcomes == outcomes && published == [] && inFlight == []
    {
      batcher := new SettlementBatcher(batchSize);
      this.outcomes, this.processingDelay := outcomes, processingDelay;
      published, inFlight := [], [];
    }

    method StartReadyBatch(suffix: string, now: string, clock: real) returns (started: bool)
      modifies this`published, this`inFlight, batcher`pending, batcher`batches, batcher`sequence
      ensures started <==> |old(batcher.pending)| >= batcher.batchSize
      ensures !started ==>
                batcher.State() == old(batcher.State()) && published == old(published) && inFlight == old(inFlight)
      ensures started ==>
                var q := old(batcher.State());
                var b := NextBatch(q, batcher.batchSize, suffix, now);
                var cut := Cut(q, batcher.batchSize, suffix, now);
                && batcher.State() == cut.(batches := cut.batches[b.batchId := b.(status := Processing)])
                && published == old(published) + StartedEvents(b, now)
                && inFlight == old(inFlight) + [Flight(b.batchId, clock + processingDelay)]
    {
      var batch := batcher.CreateBatch(suffix, now);
      if batch.None? {
        return false;
      }
      var b := batch.value;
      published := published + [EventOf(b, "settlement_batch_ready", now)];
      b := b.(status := Processing);
      batcher.batches := batcher.batches[b.batchId := b];
      published := published + [EventOf(b, "settlement_batch_processing", now)];
      inFlight := inFlight + [Flight(b.batchId, clock + processingDelay)];
      started := true;
    }

    ghost function Progress(ok: bool): Finish
      reads this, batcher
    {
      Finish(batcher.State(), published, ok)
    }

    method FinishBatch(id: string, now: string) returns (ok: bool)
      modifies this`published, batcher`batches
      ensures Progress(ok) == FinishStep(old(Progress(true)), batcher.batchSize, outcomes, id, now)
    {
      var r := batcher.ProcessBatch(id, OutcomeOf(outcomes, id), now);
      ok := r.Ok?;
      if ok {
        published := published + [EventOf(r.value, TerminalType(r.value), now)];
      }
    }

    /** On an error the loop of the source ends with it: the flights that were due are gone. */
    method CompleteDueBatches(now: string, clock: real) returns (ok: bool)
      modifies this`published, this`inFlight, batcher`batches
      ensures inFlight == NotDueBy(old(inFlight), clock)
      ensures Progress(ok) ==
              FinishedAll(old(Progress(true)), batcher.batchSize, outcomes, DueBy(old(inFlight), clock), now)
    {
      var due := DueBy(inFlight, clock);
      ghost var start := Progress(true);
      inFlight := NotDueBy(inFlight, clock);
      ok := true;
      var i := 0;
      while i < |due| && ok
        invariant 0 <= i <= |due|
        invariant inFlight == NotDueBy(old(inFlight), clock)
        invariant Progress(ok) == FinishedAll(start, batcher.batchSize, outcomes, due[..i], now)
      {
        assert due[..i + 1][..i] == due[..i];
        ok := FinishBatch(due[i].batchId, now);
        i := i + 1;
      }
      if ok {
        assert due[..i] == due;
      } else {
        FinishedAllStops(start, batcher.batchSize, outcomes, due, i, now);
      }
    }

    /** At the end of the startup replay: every batch that has no result yet goes into flight once. */
    method ResumeUnfinished(clock: real) returns (ghost added: seq<Flight>)
      modifies this`inFlight
      ensures inFlight == old(inFlight) + added
      ensures DistinctFlights(added) && FlightIds(added) == Unfinished(batcher.batches)
      ensures forall f :: f in added ==> f.readyAt == clock + processingDelay
    {
      var unfinished := FlightsFor(Unfinished(batcher.batches), clock + processingDelay);
      added := unfinished;
      inFlight := inFlight + unfinished;
    }
  }

  predicate DistinctFlights(flights: seq<Flight>) {
    forall i, j :: 0 <= i < j < |flights| ==> flights[i].batchId != flights[j].batchId
  }

  /** One flight for each batch, in no particular order. */
  method FlightsFor(ids: set<string>, readyAt: real) returns (flights: seq<Flight>)
    ensures DistinctFlights(flights) && FlightIds(flights) == ids
    ensures forall f :: f in flights ==> f.readyAt == readyAt
  {
    flights := [];
    var todo := ids;
    while todo != {}
      invariant todo <= ids
      invariant DistinctFlights(flights) && FlightIds(flights) == ids - todo
      invariant forall f :: f in flights ==> f.readyAt == readyAt
      decreases |todo|
    {
      var b :| b in todo;
      todo := todo - {b};
      FlightIdsSnoc(flights, Flight(b, readyAt));
      flights := flights + [Flight(b, readyAt)];
    }
  }

  lemma FlightIdsSnoc(flights: seq<Flight>, f: Flight)
    ensures FlightIds(flights + [f]) == FlightIds(flights) + {f.batchId}
    ensures DistinctFlights(flights) && f.batchId !in FlightIds(flights) ==> DistinctFlights(flights + [f])
  {
    forall b | b in FlightIds(flights) + {f.batchId}
      ensures b in FlightIds(flights + [f])
    {
      if b == f.batchId {
        assert f in flights + [f];
      } else {
        var g :| g in flights && g.batchId == b;
        assert g in flights + [f];
      }
    }
    forall i | 0 <= i < |flights|
      ensures flights[i].batchId in FlightIds(flights)
    {
      assert flights[i] in flights;
    }
  }

  lemma {:induction false} FinishedAllStops(f: Finish, size: nat, o: Outcomes, due: seq<Flight>, i: nat, now: string)
    requires i <= |due| && !FinishedAll(f, size, o, due[..i], now).ok
    ensures FinishedAll(f, size, o, due, now) == FinishedAll(f, size, o, due[..i], now)
  {
    if i < |due| {
      assert due[..|due| - 1][..i] == due[..i];
      FinishedAllStops(f, size, o, due[..|due| - 1], i, now);
    } else {
      assert due[..i] == due;
    }
  }
}
