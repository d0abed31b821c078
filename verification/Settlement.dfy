/**
 Settlement data and the meaning of each operation on the settlement queue, as functions
 on values. A text that the service may leave out is the empty string here, and an amount
 it may leave out is zero: the service only ever tests such fields for truth.
 */
module Settlement {
  import opened Collections
  import opened BatchIds

  // ---------- Data ----------

  /** The spellings of a batch or event status, compared without regard to case. */
  datatype Status =
    | Pending | Ready | Processing | Succeeded | Failed
    | Success | Failure | Unknown | OtherStatus(text: string)

  /** What a capture carries along besides its id, its amount and its time. */
  datatype CaptureDetails = CaptureDetails(
    paymentId: string, merchantId: string, customerId: string,
    orderId: string, paymentMethod: string, provider: string)

  datatype CaptureEvent = CaptureEvent(
    eventType: string, status: string, transactionStatus: string, transactionId: string,
    capturedAmount: real, amount: real, currency: Option<string>, capturedAt: string,
    timestamp: string, details: CaptureDetails, eventProvider: string)

  datatype CapturedPayment = CapturedPayment(
    transactionId: string, amount: real, currency: string, capturedAt: string,
    details: CaptureDetails)

  datatype Rca = Rca(cause: string, confidence: real)

  datatype SettlementBatch = SettlementBatch(
    batchId: string, ids: set<string>, total: real, status: Status, createdAt: string,
    processedAt: string, attempt: int, currency: string, date: string, count: nat,
    settled: real, failed: real, failureCode: string, rca: Option<Rca>,
    manifest: seq<CapturedPayment>)

  datatype RootCause = RootCause(
    batchId: string, rca: Rca, failureCode: string, transactionCount: nat,
    failureCount: nat, revenueAtRisk: real)

  datatype SettlementEvent = SettlementEvent(
    eventType: string, timestamp: string, batchId: string, ids: set<string>,
    manifest: seq<CapturedPayment>, total: real, gross: real, date: string, count: nat,
    settled: real, failed: real, pendingAmount: real, atRisk: real,
    currency: Option<string>, status: Option<Status>, batchStatus: Option<Status>,
    failureCode: string, createdAt: string, processedAt: string, attempt: int,
    rca: Option<Rca>, rootCause: Option<RootCause>)

  /** The three things a `SettlementBatcher` remembers. */
  datatype Queue = Queue(
    pending: seq<CapturedPayment>, batches: map<string, SettlementBatch>, sequence: nat)

  const EMPTY_QUEUE := Queue([], map[], 0)

  datatype Message = Captured(capture: CaptureEvent) | Settled(event: SettlementEvent)

  predicate Terminal(s: Status) {
    s == Succeeded || s == Failed
  }

  function IdsOf(items: seq<CapturedPayment>): set<string> {
    set x | x in items :: x.transactionId
  }

  function Amount(x: CapturedPayment): real {
    x.amount
  }

  function TotalOf(items: seq<CapturedPayment>): real {
    SumBy(Amount, items)
  }

  function OrElse(a: real, b: real): real {
    if a != 0.0 then a else b
  }

  function TextOr(a: string, b: string): string {
    if a != "" then a else b
  }

  // ---------- Captures ----------

  /** A capture event that the batcher takes: its type fits, and it is final. */
  predicate Final(c: CaptureEvent) {
    c.eventType == "capture_succeeded" && (c.status == "success" || c.transactionStatus == "CAPTURED_FINAL")
  }

  function PaymentOf(c: CaptureEvent): CapturedPayment {
    CapturedPayment(
      c.transactionId,
      OrElse(c.capturedAmount, c.amount),
      if c.currency.Some? then c.currency.value else "INR",
      TextOr(c.capturedAt, c.timestamp),
      c.details.(provider := TextOr(c.details.provider, c.eventProvider)))
  }

  predicate InSomeBatch(batches: map<string, SettlementBatch>, t: string) {
    exists b :: b in batches && t in batches[b].ids
  }

  predicate Accepts(q: Queue, c: CaptureEvent) {
    Final(c) && c.transactionId !in IdsOf(q.pending) && !InSomeBatch(q.batches, c.transactionId)
  }

  function Enqueued(q: Queue, c: CaptureEvent): Queue {
    if Accepts(q, c) then q.(pending := q.pending + [PaymentOf(c)]) else q
  }

  // ---------- Batches ----------

  function DateOf(text: string): string {
    if |text| > 10 then text[..10] else text
  }

  function NewBatch(id: string, items: seq<CapturedPayment>, now: string): SettlementBatch {
    SettlementBatch(
      id, IdsOf(items), TotalOf(items), Ready, now, "", 1,
      if |items| > 0 then items[0].currency else "INR",
      DateOf(if |items| > 0 && items[0].capturedAt != "" then items[0].capturedAt else now),
      |items|, 0.0, 0.0, "", None, items)
  }

  /** The batch `create_batch` cuts off the front of the queue. */
  function NextBatch(q: Queue, size: nat, suffix: string, now: string): SettlementBatch
    requires |q.pending| >= size
  {
    NewBatch(BatchId(q.sequence + 1, suffix), q.pending[..size], now)
  }

  function Cut(q: Queue, size: nat, suffix: string, now: string): Queue
    requires |q.pending| >= size
  {
    var b := NextBatch(q, size, suffix, now);
    Queue(q.pending[size..], q.batches[b.batchId := b], q.sequence + 1)
  }

  function CauseOf(code: string): Rca {
    if code == "BANK_TIMEOUT" then Rca("network_failure", 0.82)
    else if code == "BANK_REJECTION" then Rca("bank_rejection", 0.88)
    else if code == "CHECKSUM_MISMATCH" then Rca("bank_file_corruption", 0.91)
    else if code == "DUPLICATE_BATCH" then Rca("duplicate_batch", 0.86)
    else if code == "AMOUNT_MISMATCH" then Rca("amount_mismatch", 0.84)
    else if code == "MERCHANT_CONFIGURATION" then Rca("merchant_configuration", 0.79)
    else if code == "BANK_ACCOUNT_ISSUE" then Rca("bank_account_issue", 0.83)
    else Rca("unknown", 0.5)
  }

  function CountOf(b: SettlementBatch): nat {
    if b.count != 0 then b.count else |b.ids|
  }

  function Explain(b: SettlementBatch): RootCause {
    var code := if b.failureCode != "" then b.failureCode else "UNKNOWN";
    RootCause(
      b.batchId, CauseOf(code), code, CountOf(b),
      if b.status == Failed then CountOf(b) else 0,
      OrElse(b.failed, if b.status == Failed then b.total else 0.0))
  }

  /** The size and uniqueness check at the start of `process_batch`. */
  predicate Processable(b: SettlementBatch, size: nat) {
    b.count == size && |b.ids| == size
  }

  function Processed(b: SettlementBatch, ok: bool, now: string): SettlementBatch {
    var p := b.(
      status := if ok then Succeeded else Failed, processedAt := now,
      settled := if ok then b.total else 0.0, failed := if ok then 0.0 else b.total,
      failureCode := if ok then "" else "BANK_TIMEOUT");
    if ok then p else p.(rca := Some(Explain(p).rca))
  }

  // ---------- Publishing and reading back ----------

  function EventOf(b: SettlementBatch, eventType: string, timestamp: string): SettlementEvent {
    var failed := b.status == Failed;
    SettlementEvent(
      eventType, timestamp, b.batchId, b.ids, b.manifest, b.total, b.total, b.date, CountOf(b),
      b.settled, b.failed,
      if b.status == Pending || b.status == Processing then b.total else 0.0, b.failed,
      Some(b.currency),
      Some(if b.status == Succeeded then Success else if failed then Failure else Unknown),
      Some(b.status), b.failureCode, b.createdAt, b.processedAt, b.attempt,
      if failed then Some(Explain(b).rca) else b.rca,
      if failed then Some(Explain(b)) else None)
  }

  function TerminalType(b: SettlementBatch): string {
    if b.status == Succeeded then "settlement_batch_succeeded" else "settlement_batch_failed"
  }

  function Normalised(s: Status): Status {
    if s == Success then Succeeded else if s == Failure then Failed else s
  }

  /** The status field an event is read by: its batch status, or else its own. */
  function StatedStatus(e: SettlementEvent): Status {
    if e.batchStatus.Some? then e.batchStatus.value
    else if e.status.Some? then e.status.value else Unknown
  }

  function StatusOf(e: SettlementEvent): Status {
    Normalised(StatedStatus(e))
  }

  /** An event that `reconcile_settlement_event` does not drop at once. */
  predicate Effective(e: SettlementEvent) {
    "settlement_batch_" <= e.eventType && e.ids != {}
  }

  function BatchFrom(e: SettlementEvent): SettlementBatch {
    SettlementBatch(
      e.batchId, e.ids, OrElse(e.gross, e.total), StatusOf(e), TextOr(e.createdAt, e.timestamp),
      e.processedAt, if e.attempt != 0 then e.attempt else 1,
      if e.currency.Some? then e.currency.value else "INR", e.date,
      if e.count != 0 then e.count else |e.ids|,
      e.settled, e.failed, e.failureCode, None, e.manifest)
  }

  function Without(items: seq<CapturedPayment>, ids: set<string>): (r: seq<CapturedPayment>)
    ensures forall x :: x in r <==> x in items && x.transactionId !in ids
  {
    if |items| == 0 then []
    else
      var r := Without(items[..|items| - 1], ids);
      var x := items[|items| - 1];
      assert items == items[..|items| - 1] + [x];
      if x.transactionId in ids then r else r + [x]
  }

  function IndexOr(id: string, otherwise: nat): nat {
    match MatchIndex(id)
    case Some(n) => if n > otherwise then n else otherwise
    case None => otherwise
  }

  /** A result never gives way to news that the same batch is still on its way. */
  predicate Stale(batches: map<string, SettlementBatch>, e: SettlementEvent) {
    e.batchId in batches && Terminal(batches[e.batchId].status) && !Terminal(StatusOf(e))
  }

  function Recorded(batches: map<string, SettlementBatch>, e: SettlementEvent): map<string, SettlementBatch> {
    if e.batchId == "" || Stale(batches, e) then batches else batches[e.batchId := BatchFrom(e)]
  }

  function Reconciled(q: Queue, e: SettlementEvent): Queue {
    if !Effective(e) then q
    else Queue(Without(q.pending, e.ids), Recorded(q.batches, e), IndexOr(e.batchId, q.sequence))
  }

  function Handled(q: Queue, m: Message): Queue {
    match m
    case Captured(c) => Enqueued(q, c)
    case Settled(e) => Reconciled(q, e)
  }

  // ---------- Laws of a single batch ----------

  function WithoutRca(b: SettlementBatch): SettlementBatch {
    b.(rca := None)
  }

  /** What a batch must have for its published form to say everything about it. */
  predicate Publishable(b: SettlementBatch) {
    && b.batchId != "" && b.ids != {} && b.count != 0 && b.attempt != 0 && b.createdAt != ""
    && b.status != Success && b.status != Failure
  }

  /**
   Publishing and reading back restores all of a batch but its root-cause fields,
   exactly for the publishable batches.
   */
  lemma PublishRoundTrip(b: SettlementBatch, eventType: string, timestamp: string)
    requires "settlement_batch_" <= eventType && timestamp != ""
    ensures var q := Reconciled(EMPTY_QUEUE, EventOf(b, eventType, timestamp));
            (b.batchId in q.batches && q.batches[b.batchId] == WithoutRca(b)) <==> Publishable(b)
  {
    var e := EventOf(b, eventType, timestamp);
    var q := Reconciled(EMPTY_QUEUE, e);
    if Effective(e) && b.batchId != "" {
      assert q.batches[b.batchId] == BatchFrom(e);
      assert BatchFrom(e).status == Normalised(b.status);
      assert BatchFrom(e).count == CountOf(b);
    }
  }

  /** A batch read back and published once more tells the same root cause and the same amounts. */
  lemma RepublishedEvent(b: SettlementBatch, eventType: string, t1: string, t2: string)
    requires Publishable(b)
    ensures var e := EventOf(b, eventType, t1);
            EventOf(BatchFrom(e), eventType, t2) ==
            e.(timestamp := t2, rca := if b.status == Failed then e.rca else None)
  {
  }

  /** Whatever a batch went through, processing or retrying it accounts for its whole total. */
  lemma ProcessedAccounts(b: SettlementBatch, ok: bool, now: string)
    ensures var p := Processed(b, ok, now);
            p.settled + p.failed == b.total == p.total && Terminal(p.status) && p.ids == b.ids
    ensures !ok ==> Explain(Processed(b, ok, now)).revenueAtRisk == b.total
    ensures !ok ==> Explain(Processed(b, ok, now)).rca == Rca("network_failure", 0.82)
  {
  }
}
