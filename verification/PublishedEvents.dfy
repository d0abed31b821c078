/** What the published settlement events say, field by field, over whole runs. */
module PublishedEvents {
  import opened Collections
  import opened BatchIds
  import opened Settlement
  import opened SettlementService
  import opened Replay
  import opened SettlementRuns
  import opened SettlementSafety
  import opened SettlementTheorems
  import opened Dashboard
  import opened DashboardAgreement

  // ---------- Which entry of the pattern decides ----------

  /** The entry for the i-th batch: the i-th one, and the last beyond the pattern and for number 0. */
  ghost predicate Decides(pattern: seq<string>, i: nat, entry: string) {
    && (|pattern| == 0 ==> entry == "success")
    && (1 <= i <= |pattern| ==> entry == pattern[i - 1])
    && (|pattern| > 0 && (i == 0 || i > |pattern|) ==> entry == pattern[|pattern| - 1])
  }

  /** An entry that means success, for a batch with this digest. */
  predicate MeansSuccess(entry: string, digest: nat) {
    || entry in {"success", "succeeded", "ok", "true", "1"}
    || (entry in {"random", "mock_random"} && digest % 100 >= 20)
  }

  lemma OutcomeIff(o: Outcomes, i: nat, entry: string)
    requires Decides(o.pattern, i, entry)
    ensures OutcomeForIndex(o, i) <==> MeansSuccess(entry, o.digest(i))
  {
  }

  /**
   Over any run: a result of the batch with number i is a success if and only if the i-th entry
   of the pattern (the last one beyond it) means success, and then all of it is settled.
   */
  lemma ResultByEntry(cfg: Config, states: seq<System>, steps: seq<Step>, n: nat, e: SettlementEvent,
                      i: nat, entry: string)
    requires cfg.size > 0 && Run(cfg, states, steps) && n < |states|
    requires Settled(e) in states[n].log && (e.batchStatus == Some(Succeeded) || e.batchStatus == Some(Failed))
    requires MatchIndex(e.batchId) == Some(i) && Decides(cfg.outcomes.pattern, i, entry)
    ensures e.batchStatus == Some(Succeeded) <==> MeansSuccess(entry, cfg.outcomes.digest(i))
    ensures e.settled == (if MeansSuccess(entry, cfg.outcomes.digest(i)) then TotalOf(e.manifest) else 0.0)
    ensures e.failed == TotalOf(e.manifest) - e.settled
  {
    hide Run, MatchIndex, OutcomeForIndex, TotalOf;
    ResultFollowsPattern(cfg, states, steps, n, e);
    OutcomeIff(cfg.outcomes, i, entry);
  }

  /** With three entries the second batch fails, and every other one succeeds. */
  lemma SecondOfThree(digest: nat -> nat, i: nat)
    requires i > 0
    ensures OutcomeForIndex(Outcomes(["success", "failed", "success"], digest), i) <==> i != 2
  {
    var o := Outcomes(["success", "failed", "success"], digest);
    OutcomeIff(o, i, if i == 2 then "failed" else "success");
  }

  // ---------- The fields of an event ----------

  /** The day of a batch: the day of its first capture, or else of its making. */
  predicate DayOf(date: string, manifest: seq<CapturedPayment>, createdAt: string)
    requires |manifest| > 0
  {
    var time := if manifest[0].capturedAt != "" then manifest[0].capturedAt else createdAt;
    date <= time && |date| == if |time| < 10 then |time| else 10
  }

  /** What is fixed when a batch is made. */
  predicate TellsMaking(size: nat, e: SettlementEvent) {
    && |e.manifest| == size > 0 && e.count == size && e.attempt == 1
    && e.currency == Some(e.manifest[0].currency) && DayOf(e.date, e.manifest, e.createdAt)
  }

  /** What a status goes with. */
  predicate TellsStatus(size: nat, e: SettlementEvent) {
    && e.batchStatus.Some?
    && match e.batchStatus.value
       case Ready =>
         && e.eventType == "settlement_batch_ready" && e.status == Some(Unknown) && e.createdAt == e.timestamp
         && e.pendingAmount == 0.0 && e.rootCause == None
       case Processing =>
         && e.eventType == "settlement_batch_processing" && e.status == Some(Unknown)
         && e.pendingAmount == e.total && e.rootCause == None
       case Succeeded =>
         && e.eventType == "settlement_batch_succeeded" && e.status == Some(Success) && e.processedAt == e.timestamp
         && e.pendingAmount == 0.0 && e.rootCause == None && e.failureCode == ""
       case Failed =>
         && e.eventType == "settlement_batch_failed" && e.status == Some(Failure) && e.processedAt == e.timestamp
         && e.pendingAmount == 0.0 && e.failureCode == "BANK_TIMEOUT"
         && e.rca == Some(Rca("network_failure", 0.82))
         && e.rootCause == Some(RootCause(e.batchId, Rca("network_failure", 0.82), "BANK_TIMEOUT", size, size, e.total))
       case _ => false
  }

  lemma ReadyTells(q: Queue, size: nat, suffix: string, now: string)
    requires 0 < size <= |q.pending| && now != ""
    ensures var e := EventOf(NextBatch(q, size, suffix, now), "settlement_batch_ready", now);
            TellsMaking(size, e) && TellsStatus(size, e)
  {
    hide BatchId, TotalOf, IdsOf, Explain;
  }

  lemma ProcessingTells(x: SettlementBatch, size: nat, now: string)
    requires TellsBatch(size, x)
    ensures var e := EventOf(x.(status := Processing), "settlement_batch_processing", now);
            TellsMaking(size, e) && TellsStatus(size, e)
  {
    hide Explain;
  }

  lemma ResultTells(x: SettlementBatch, size: nat, ok: bool, now: string)
    requires TellsBatch(size, x)
    ensures var y := Processed(x, ok, now);
            var e := EventOf(y, TerminalType(y), now);
            TellsMaking(size, e) && TellsStatus(size, e)
  {
  }

  /** A batch that says the same of its making. */
  predicate TellsBatch(size: nat, x: SettlementBatch) {
    && |x.manifest| == size > 0 && x.count == size && x.attempt == 1
    && x.currency == x.manifest[0].currency && DayOf(x.date, x.manifest, x.createdAt)
  }

  lemma CoreTells(size: nat, x: SettlementBatch, e: SettlementEvent)
    requires TellsMaking(size, e) && CoreOf(x) == CoreOf(BatchFrom(e)) && e.createdAt != ""
    ensures TellsBatch(size, x)
  {
    var y := BatchFrom(e);
    assert CoreOf(x).currency == CoreOf(y).currency && CoreOf(x).date == CoreOf(y).date;
    assert CoreOf(x).createdAt == CoreOf(y).createdAt && CoreOf(x).attempt == CoreOf(y).attempt;
    assert CoreOf(x).count == CoreOf(y).count && CoreOf(x).manifest == CoreOf(y).manifest;
  }

  predicate TellsEvent(size: nat, m: Message) {
    m.Settled? && TellsMaking(size, m.event) && TellsStatus(size, m.event) && m.event.createdAt != ""
  }

  predicate AllTell(size: nat, log: seq<Message>) {
    forall m :: m in log && m.Settled? ==> TellsEvent(size, m)
  }

  lemma MemoryTells(cfg: Config, s: System, b: string)
    requires Inv(cfg, s) && s.live && AllTell(cfg.size, s.log) && b in s.queue.batches
    ensures TellsBatch(cfg.size, s.queue.batches[b]) && s.queue.batches[b].createdAt != ""
  {
    hide Inv, TellsMaking, TellsStatus, CoreOf, BatchFrom, HistoryOk, ForKey, TellsBatch, Shows;
    var i := BatchInMemory(cfg, s, b);
    var h := History(s.log, b);
    assert h[0] in h && h[0] in s.log;
    HistoryStarts(cfg, b, h);
    CoreTells(cfg.size, s.queue.batches[b], h[0].event);
  }

  lemma HistoryStarts(cfg: Config, b: string, h: seq<Message>)
    requires HistoryOk(cfg, b, h) && |h| > 0
    ensures h[0].Settled?
  {
    assert h[0] in h;
  }

  lemma StartTells(cfg: Config, s: System, suffix: string, now: string)
    requires cfg.size > 0 && Enabled(cfg, s, Start(suffix, now))
    ensures var e := EventOf(NextBatch(s.queue, cfg.size, suffix, now), "settlement_batch_ready", now);
            After(cfg, s, Start(suffix, now)).log == s.log + [Settled(e)] && TellsEvent(cfg.size, Settled(e))
  {
    hide NextBatch, EventOf, TellsMaking, TellsStatus, Cut;
    ReadyTells(s.queue, cfg.size, suffix, now);
    MadeNow(s.queue, cfg.size, suffix, now);
  }

  lemma MadeNow(q: Queue, size: nat, suffix: string, now: string)
    requires |q.pending| >= size
    ensures EventOf(NextBatch(q, size, suffix, now), "settlement_batch_ready", now).createdAt == now
  {
  }

  lemma MarkTells(cfg: Config, s: System, now: string)
    requires Inv(cfg, s) && AllTell(cfg.size, s.log) && Enabled(cfg, s, MarkProcessing(now))
    ensures var e := EventOf(s.queue.batches[s.starting.value].(status := Processing),
                             "settlement_batch_processing", now);
            After(cfg, s, MarkProcessing(now)).log == s.log + [Settled(e)] && TellsEvent(cfg.size, Settled(e))
  {
    hide TellsMaking, TellsStatus, TellsBatch, LogOk, SeenOk, PendingOk, BatchesOk, TakenOk, MaxIndex, AllTell;
    MemoryTells(cfg, s, s.starting.value);
    ProcessingTells(s.queue.batches[s.starting.value], cfg.size, now);
  }

  lemma CompleteTells(cfg: Config, s: System, i: nat, now: string)
    requires Inv(cfg, s) && AllTell(cfg.size, s.log) && Enabled(cfg, s, Complete(i, now))
    ensures var x := s.queue.batches[s.inFlight[i]];
            var y := Processed(x, OutcomeOf(cfg.outcomes, s.inFlight[i]), now);
            var e := EventOf(y, TerminalType(y), now);
            After(cfg, s, Complete(i, now)).log == s.log + [Settled(e)] && TellsEvent(cfg.size, Settled(e))
  {
    hide TellsMaking, TellsStatus, TellsBatch, LogOk, SeenOk, PendingOk, BatchesOk, TakenOk, MaxIndex, AllTell;
    hide Explain, OutcomeOf;
    MemoryTells(cfg, s, s.inFlight[i]);
    ResultTells(s.queue.batches[s.inFlight[i]], cfg.size, OutcomeOf(cfg.outcomes, s.inFlight[i]), now);
  }

  lemma StepTells(cfg: Config, s: System, step: Step)
    requires cfg.size > 0 && Inv(cfg, s) && AllTell(cfg.size, s.log) && Enabled(cfg, s, step)
    ensures AllTell(cfg.size, After(cfg, s, step).log)
  {
    hide Inv, TellsEvent, Enabled, EventOf, NextBatch, Processed;
    match step {
      case Start(suffix, now) => StartTells(cfg, s, suffix, now);
      case MarkProcessing(now) => MarkTells(cfg, s, now);
      case Complete(i, now) => CompleteTells(cfg, s, i, now);
      case Capture(_) =>
      case Read(_) =>
      case CatchUp(_) =>
      case Crash =>
    }
  }

  /**
   Over any run, every published event says what its status goes with: its type, its outer
   status, the amount that is pending (all of it while processing and none before), the root
   cause of a failure with the whole batch at risk; and it carries the currency and the day of
   its first capture.
   */
  lemma {:induction false} EventsTell(cfg: Config, states: seq<System>, steps: seq<Step>, n: nat)
    requires cfg.size > 0 && Run(cfg, states, steps) && n < |states|
    ensures AllTell(cfg.size, states[n].log)
  {
    hide TellsEvent, Inv;
    if n == 0 {
    } else {
      EventsTell(cfg, states, steps, n - 1);
      RunKeeps(cfg, states, steps, n - 1);
      StepTells(cfg, states[n - 1], steps[n - 1]);
    }
  }

  /**
   Over any run, in any order the dashboard sees its events: a row shows as pending all of a
   batch that is processing and nothing of any other, and a root cause for just the failed ones.
   */
  lemma RowsTell(cfg: Config, states: seq<System>, steps: seq<Step>, n: nat, log: seq<Message>, b: string)
    requires cfg.size > 0 && Run(cfg, states, steps) && n < |states| && SamePerKey(states[n].log, log)
    requires b in BoardOf(log).byBatch
    ensures var r := BoardOf(log).byBatch[b];
            && r.status in {Ready, Processing, Succeeded, Failed}
            && r.pendingAmount == (if r.status == Processing then r.captured else 0.0)
            && r.rootCause == if r.status != Failed then None
                              else Some(RootCause(b, Rca("network_failure", 0.82), "BANK_TIMEOUT",
                                                  cfg.size, cfg.size, r.captured))
  {
    hide Run, TellsEvent, BoardOf, ForKey, LogOk, StoryOk, RowOf;
    EventsTell(cfg, states, steps, n);
    RunKeeps(cfg, states, steps, n);
    LogOkSame(cfg, states[n].log, log);
    BoardFollows(cfg, log);
    SamePerKeySymmetric(states[n].log, log);
    var h := History(log, b);
    var m := h[|h| - 1];
    assert m in h && m in log && m in states[n].log;
    RowOfTells(cfg.size, m);
    LastIsSound(cfg, log, b);
  }

  lemma LastIsSound(cfg: Config, log: seq<Message>, b: string)
    requires StoryOk(cfg, log) && |History(log, b)| > 0
    ensures var h := History(log, b); h[|h| - 1].Settled? && h[|h| - 1].event.batchId == b
                                      && h[|h| - 1].event.gross == h[|h| - 1].event.total
  {
    hide ForKey, StatusOf, BatchFrom, CoreOf;
    var h := History(log, b);
    assert HistoryOk(cfg, b, h);
    SameCore(cfg, b, h, |h| - 1);
    EventFacts(cfg, b, h[|h| - 1].event);
  }

  lemma RowOfTells(size: nat, m: Message)
    requires TellsEvent(size, m)
    ensures var e, r := m.event, RowOf(m.event);
            && r.status in {Ready, Processing, Succeeded, Failed} && r.captured == OrElse(e.gross, e.total)
            && r.pendingAmount == (if r.status == Processing then e.total else 0.0)
            && r.rootCause == if r.status != Failed then None
                              else Some(RootCause(e.batchId, Rca("network_failure", 0.82), "BANK_TIMEOUT",
                                                  size, size, e.total))
  {
  }

  // ---------- What a capture is queued as ----------

  /** A capture counts if it succeeded for good. */
  predicate Counts(c: CaptureEvent) {
    c.eventType == "capture_succeeded" && (c.status == "success" || c.transactionStatus == "CAPTURED_FINAL")
  }

  /** The queued payment tells the capture's data, with what stands in for absent parts. */
  predicate QueuedAs(c: CaptureEvent, x: CapturedPayment) {
    && x.transactionId == c.transactionId
    && (c.capturedAmount != 0.0 ==> x.amount == c.capturedAmount)
    && (c.capturedAmount == 0.0 ==> x.amount == c.amount)
    && (c.currency.Some? ==> x.currency == c.currency.value) && (c.currency.None? ==> x.currency == "INR")
    && (c.capturedAt != "" ==> x.capturedAt == c.capturedAt) && (c.capturedAt == "" ==> x.capturedAt == c.timestamp)
    && (c.details.provider != "" ==> x.details.provider == c.details.provider)
    && (c.details.provider == "" ==> x.details.provider == c.eventProvider)
    && x.details.paymentId == c.details.paymentId && x.details.merchantId == c.details.merchantId
    && x.details.customerId == c.details.customerId && x.details.orderId == c.details.orderId
    && x.details.paymentMethod == c.details.paymentMethod
  }

  lemma PaymentTells(c: CaptureEvent)
    ensures QueuedAs(c, PaymentOf(c)) && (Final(c) <==> Counts(c))
  {
  }

  /** For any log, what is pending is some capture in it that counts, and tells that capture's data. */
  lemma {:induction false} PendingTells(log: seq<Message>, x: CapturedPayment)
    requires x in Replayed(log).pending
    ensures exists c :: Captured(c) in log && Counts(c) && QueuedAs(c, x)
  {
    hide QueuedAs, Counts, PaymentOf, Final, Recorded;
    var p, m := log[..|log| - 1], log[|log| - 1];
    assert log == p + [m];
    if x in Replayed(p).pending {
      PendingTells(p, x);
      var c :| Captured(c) in p && Counts(c) && QueuedAs(c, x);
      assert Captured(c) in log;
    } else {
      PaymentTells(m.capture);
      assert Captured(m.capture) in log;
    }
  }

  /** For any log, a capture that counts has its transaction among the first captures. */
  lemma {:induction false} CountedIsKept(log: seq<Message>, c: CaptureEvent)
    requires Captured(c) in log && Counts(c)
    ensures c.transactionId in IdsOf(FirstCaptures(log))
  {
    hide PaymentOf, IdsOf;
    var p, m := log[..|log| - 1], log[|log| - 1];
    assert log == p + [m];
    if Captured(c) in p {
      CountedIsKept(p, c);
      GrowsIds(FirstCaptures(p), m);
    } else {
      PaymentTells(c);
      GrowsIds(FirstCaptures(p), m);
    }
  }

  lemma GrowsIds(items: seq<CapturedPayment>, m: Message)
    ensures m.Captured? ==> IdsOf(items + [PaymentOf(m.capture)]) == IdsOf(items) + {m.capture.transactionId}
  {
    if m.Captured? {
      var x := PaymentOf(m.capture);
      assert x in items + [x] && forall y :: y in items ==> y in items + [x];
    }
  }

  // ---------- What an event is read as ----------

  /** The batch that reading one event leaves, with what stands in for absent parts. */
  lemma ReadsAs(e: SettlementEvent)
    requires "settlement_batch_" <= e.eventType && e.ids != {} && e.batchId != ""
    ensures var q := Reconciled(EMPTY_QUEUE, e);
            e.batchId in q.batches
            && var x := q.batches[e.batchId];
               && x.batchId == e.batchId && x.ids == e.ids && x.manifest == e.manifest
               && x.settled == e.settled && x.failed == e.failed && x.date == e.date
               && x.failureCode == e.failureCode && x.processedAt == e.processedAt && x.rca == None
               && x.total == (if e.gross != 0.0 then e.gross else e.total)
               && x.createdAt == (if e.createdAt != "" then e.createdAt else e.timestamp)
               && x.attempt == (if e.attempt != 0 then e.attempt else 1)
               && x.count == (if e.count != 0 then e.count else |e.ids|)
               && x.currency == (if e.currency.Some? then e.currency.value else "INR")
    ensures var status := Reconciled(EMPTY_QUEUE, e).batches[e.batchId].status;
            var said := if e.batchStatus.Some? then e.batchStatus else e.status;
            && (said == None ==> status == Unknown)
            && (said == Some(Success) || said == Some(Succeeded) <==> status == Succeeded)
            && (said == Some(Failure) || said == Some(Failed) <==> status == Failed)
            && (said == Some(Ready) <==> status == Ready) && (said == Some(Processing) <==> status == Processing)
            && (said == Some(Pending) <==> status == Pending)
  {
  }

  /** A row shows the event's own words: its status as it stands, and the stake where no failed amount is given. */
  predicate ShownAs(e: SettlementEvent, r: Row) {
    && r.batchId == e.batchId && r.ids == e.ids && r.manifest == e.manifest && r.rootCause == e.rootCause
    && r.settled == e.settled && r.pendingAmount == e.pendingAmount
    && (e.count > 0 ==> r.count == e.count) && (e.count == 0 ==> r.count == |e.ids|)
    && (e.gross != 0.0 ==> r.captured == e.gross) && (e.gross == 0.0 ==> r.captured == e.total)
    && (e.failed != 0.0 ==> r.failed == e.failed) && (e.failed == 0.0 ==> r.failed == e.atRisk)
    && (e.batchStatus.Some? ==> r.status == e.batchStatus.value)
    && (e.batchStatus.None? && e.status.Some? ==> r.status == e.status.value)
    && (e.batchStatus.None? && e.status.None? ==> r.status == Unknown)
  }

  lemma RowShown(e: SettlementEvent)
    ensures ShownAs(e, RowOf(e))
  {
  }

  /** For any log, in any order and with any events, a row shows some event of its batch. */
  lemma {:induction false} RowsShown(log: seq<Message>, b: string)
    requires b in BoardOf(log).byBatch
    ensures exists e :: Settled(e) in log && e.batchId == b && "settlement_batch_" <= e.eventType
                        && ShownAs(e, BoardOf(log).byBatch[b])
  {
    hide ShownAs, RowOf, Skipped;
    var p, m := log[..|log| - 1], log[|log| - 1];
    assert log == p + [m];
    if b in BoardOf(p).byBatch && BoardOf(log).byBatch[b] == BoardOf(p).byBatch[b] {
      RowsShown(p, b);
      var e :| Settled(e) in p && e.batchId == b && "settlement_batch_" <= e.eventType
               && ShownAs(e, BoardOf(p).byBatch[b]);
      assert Settled(e) in log;
    } else {
      RowShown(m.event);
      assert Settled(m.event) in log;
    }
  }

  // ---------- Root causes ----------

  /** The seven failure codes with a cause of their own; every other one is unknown. */
  lemma CausesByCode(b: SettlementBatch)
    ensures var c := Explain(b).rca;
            && (c == Rca("network_failure", 0.82) <==> b.failureCode == "BANK_TIMEOUT")
            && (c == Rca("bank_rejection", 0.88) <==> b.failureCode == "BANK_REJECTION")
            && (c == Rca("bank_file_corruption", 0.91) <==> b.failureCode == "CHECKSUM_MISMATCH")
            && (c == Rca("duplicate_batch", 0.86) <==> b.failureCode == "DUPLICATE_BATCH")
            && (c == Rca("amount_mismatch", 0.84) <==> b.failureCode == "AMOUNT_MISMATCH")
            && (c == Rca("merchant_configuration", 0.79) <==> b.failureCode == "MERCHANT_CONFIGURATION")
            && (c == Rca("bank_account_issue", 0.83) <==> b.failureCode == "BANK_ACCOUNT_ISSUE")
            && (c == Rca("unknown", 0.5) <==>
                b.failureCode !in {"BANK_TIMEOUT", "BANK_REJECTION", "CHECKSUM_MISMATCH", "DUPLICATE_BATCH",
                                   "AMOUNT_MISMATCH", "MERCHANT_CONFIGURATION", "BANK_ACCOUNT_ISSUE"})
    ensures var r := Explain(b);
            && r.batchId == b.batchId
            && (b.failureCode == "" ==> r.failureCode == "UNKNOWN")
            && (b.failureCode != "" ==> r.failureCode == b.failureCode)
            && r.failureCount == (if b.status == Failed then r.transactionCount else 0)
            && (b.count > 0 ==> r.transactionCount == b.count) && (b.count == 0 ==> r.transactionCount == |b.ids|)
            && (b.failed != 0.0 ==> r.revenueAtRisk == b.failed)
            && (b.failed == 0.0 ==> r.revenueAtRisk == if b.status == Failed then b.total else 0.0)
  {
  }

  // ---------- What is due ----------

  function DueAt(clock: real): Flight -> bool {
    (f: Flight) => f.readyAt <= clock
  }

  function LaterThan(clock: real): Flight -> bool {
    (f: Flight) => clock < f.readyAt
  }

  /** The flights are parted by their time, each part in its old order. */
  lemma {:induction false} DueParts(flights: seq<Flight>, clock: real)
    ensures DueBy(flights, clock) == Filter(DueAt(clock), flights)
    ensures NotDueBy(flights, clock) == Filter(LaterThan(clock), flights)
  {
    if |flights| == 0 {
    } else {
      DueParts(flights[..|flights| - 1], clock);
    }
  }
}
