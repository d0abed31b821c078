/**
 The settlement service over time: captures arrive, the service reads both topics, starts and
 finishes batches, reads its own events back, and may crash at any point and start over by
 replaying everything. What it keeps in memory is checked against the two logs.
 */
module SettlementRuns {
  import opened Collections
  import opened BatchIds
  import opened Settlement
  import opened SettlementService
  import opened Replay

  datatype Config = Config(size: nat, outcomes: Outcomes)

  /**
   `log` is what the broker retains, `seen` what this run of the process has read, in its
   order. `starting` is a batch whose ready event is out but whose processing event is not.
   */
  datatype System = System(
    log: seq<Message>, seen: seq<Message>, queue: Queue, live: bool,
    inFlight: seq<string>, starting: Option<string>)

  const INITIAL := System([], [], EMPTY_QUEUE, false, [], None)

  datatype Step =
    | Capture(capture: CaptureEvent)
    | Read(message: Message)
    | CatchUp(order: seq<string>)
    | Start(suffix: string, startedAt: string)
    | MarkProcessing(markedAt: string)
    | Complete(position: nat, completedAt: string)
    | Crash

  /** The broker hands out the next unread message of a key, of any key. */
  ghost predicate CanRead(s: System, m: Message) {
    ForKey(s.seen, KeyOf(m)) + [m] <= ForKey(s.log, KeyOf(m))
  }

  ghost predicate Enabled(cfg: Config, s: System, step: Step) {
    match step
    case Capture(_) => true
    case Read(m) => s.starting == None && CanRead(s, m)
    case CatchUp(order) =>
      && !s.live && SamePerKey(s.seen, s.log)
      && Distinct(order) && (forall b :: b in order <==> b in Unfinished(s.queue.batches))
    case Start(_, now) => s.live && s.starting == None && |s.queue.pending| >= cfg.size && now != ""
    case MarkProcessing(now) => s.starting.Some? && s.starting.value in s.queue.batches && now != ""
    case Complete(i, now) =>
      && s.starting == None && i < |s.inFlight| && s.inFlight[i] in s.queue.batches && now != ""
      && Processable(s.queue.batches[s.inFlight[i]], cfg.size)
    case Crash => true
  }

  function After(cfg: Config, s: System, step: Step): System
    requires Enabled(cfg, s, step)
  {
    match step
    case Capture(c) => s.(log := s.log + [Captured(c)])
    case Read(m) => s.(seen := s.seen + [m], queue := Handled(s.queue, m))
    case CatchUp(order) => s.(live := true, inFlight := s.inFlight + order)
    case Start(suffix, now) =>
      var b := NextBatch(s.queue, cfg.size, suffix, now);
      s.(log := s.log + [Settled(EventOf(b, "settlement_batch_ready", now))],
         queue := Cut(s.queue, cfg.size, suffix, now), starting := Some(b.batchId))
    case MarkProcessing(now) =>
      var id := s.starting.value;
      var b := s.queue.batches[id].(status := Processing);
      s.(log := s.log + [Settled(EventOf(b, "settlement_batch_processing", now))],
         queue := s.queue.(batches := s.queue.batches[id := b]),
         inFlight := s.inFlight + [id], starting := None)
    case Complete(i, now) =>
      var (q, e) := FinishedOne(s.queue, cfg.outcomes, s.inFlight[i], now);
      s.(log := s.log + [Settled(e)], queue := q, inFlight := s.inFlight[..i] + s.inFlight[i + 1..])
    case Crash => INITIAL.(log := s.log)
  }

  ghost predicate Run(cfg: Config, states: seq<System>, steps: seq<Step>) {
    && |states| == |steps| + 1 && states[0] == INITIAL
    && forall i :: 0 <= i < |steps| ==>
                     Enabled(cfg, states[i], steps[i]) && states[i + 1] == After(cfg, states[i], steps[i])
  }

  // ---------- What every state keeps ----------

  predicate Distinct(ids: seq<string>) {
    forall i, j :: 0 <= i < j < |ids| ==> ids[i] != ids[j]
  }

  /** A batch without what processing it adds. */
  function CoreOf(x: SettlementBatch): SettlementBatch {
    x.(status := Ready, processedAt := "", settled := 0.0, failed := 0.0, failureCode := "", rca := None)
  }

  /** An id that the service and the dashboard read the same number from. */
  predicate Numbered(b: string) {
    MatchIndex(b).Some? && SplitIndex(b) == MatchIndex(b)
  }

  /** A batch of the right size whose amounts follow from its captures and its outcome. */
  predicate BatchOk(cfg: Config, b: string, x: SettlementBatch) {
    && x.batchId == b && b != "" && Numbered(b) && x.createdAt != "" && x.attempt == 1
    && Processable(x, cfg.size) && |x.manifest| == cfg.size
    && x.ids == IdsOf(x.manifest) && x.total == TotalOf(x.manifest)
    && (x.status == Ready || x.status == Processing
        || x.status == if OutcomeOf(cfg.outcomes, b) then Succeeded else Failed)
    && x.settled == (if x.status == Succeeded then x.total else 0.0)
    && x.failed == (if x.status == Failed then x.total else 0.0)
  }

  predicate EventOk(cfg: Config, b: string, e: SettlementEvent) {
    && Effective(e) && e.batchStatus == Some(StatusOf(e)) && e.gross == e.total
    && e.count == cfg.size && e.atRisk == e.failed
    && BatchOk(cfg, b, BatchFrom(e))
  }

  predicate HasResult(m: Message)
    requires m.Settled?
  {
    Terminal(StatusOf(m.event))
  }

  /** The events of one batch tell one story, and a result ends it. */
  predicate HistoryOk(cfg: Config, b: string, h: seq<Message>) {
    && (forall m :: m in h ==> m.Settled? && EventOk(cfg, b, m.event))
    && (forall i, j :: 0 <= i < j < |h| ==>
                         !HasResult(h[i]) && CoreOf(BatchFrom(h[i].event)) == CoreOf(BatchFrom(h[j].event)))
  }

  function History(log: seq<Message>, b: string): seq<Message> {
    ForKey(log, BatchKey(b))
  }

  function ManifestIn(log: seq<Message>, b: string): seq<CapturedPayment> {
    var h := History(log, b);
    if |h| > 0 && h[0].Settled? then h[0].event.manifest else []
  }

  ghost predicate LogOk(cfg: Config, log: seq<Message>) {
    && (forall b :: HistoryOk(cfg, b, History(log, b)))
    && (forall b, c :: b != c ==> IdsOf(ManifestIn(log, b)) !! IdsOf(ManifestIn(log, c)))
    && (forall b, x :: x in ManifestIn(log, b) ==> FirstOf(log, x.transactionId) == Some(x))
  }

  function Known(s: System): seq<Message> {
    if s.live then s.log else s.seen
  }

  /** A batch in memory shows one of its events, and shows its result once there is one. */
  ghost predicate Reflects(x: SettlementBatch, h: seq<Message>) {
    exists i :: 0 <= i < |h| && Shows(x, h, i)
  }

  predicate Shows(x: SettlementBatch, h: seq<Message>, i: nat)
    requires i < |h|
  {
    && h[i].Settled? && WithoutRca(x) == BatchFrom(h[i].event)
    && (h[|h| - 1].Settled? && HasResult(h[|h| - 1]) ==> i == |h| - 1)
  }

  ghost predicate BatchesOk(s: System) {
    && (forall b :: b in s.queue.batches <==> |History(Known(s), b)| > 0)
    && (forall b :: b in s.queue.batches ==> Reflects(s.queue.batches[b], History(Known(s), b)))
    && (forall b :: b in s.queue.batches && History(s.seen, b) == History(s.log, b) ==>
                      Shows(s.queue.batches[b], History(s.log, b), |History(s.log, b)| - 1))
  }

  ghost predicate PendingOk(s: System) {
    && DistinctIds(s.queue.pending)
    && (forall x :: x in s.queue.pending <==>
                    FirstOf(s.seen, x.transactionId) == Some(x) && x.transactionId !in Assigned(Known(s)))
  }

  ghost predicate FlightsOk(s: System) {
    && Distinct(s.inFlight)
    && (!s.live ==> s.inFlight == [] && s.starting == None)
    && (s.starting.Some? ==> s.starting.value in s.queue.batches && s.queue.batches[s.starting.value].status == Ready)
    && (s.live ==> forall b :: b in s.inFlight <==>
                               b in s.queue.batches && !Terminal(s.queue.batches[b].status) && s.starting != Some(b))
  }

  ghost predicate SeenOk(s: System) {
    forall k :: ForKey(s.seen, k) <= ForKey(s.log, k)
  }

  /** A live service has read the capture of everything it ever put in a batch. */
  ghost predicate TakenOk(s: System) {
    s.live ==> forall t :: t in Assigned(s.log) ==> FirstOf(s.seen, t).Some?
  }

  ghost predicate Inv(cfg: Config, s: System) {
    && LogOk(cfg, s.log) && SeenOk(s) && PendingOk(s) && BatchesOk(s) && FlightsOk(s) && TakenOk(s)
    && s.queue.sequence == MaxIndex(Known(s))
  }
}
