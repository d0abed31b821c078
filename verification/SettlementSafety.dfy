/** Every step of the settlement service keeps `SettlementRuns.Inv`. */
module SettlementSafety {
  import opened Collections
  import opened BatchIds
  import opened Settlement
  import opened SettlementService
  import opened Replay
  import opened SettlementRuns

  // ---------- Growing a log ----------

  lemma GrowByCapture(log: seq<Message>, c: CaptureEvent)
    ensures var log' := log + [Captured(c)];
            && (forall b :: History(log', b) == History(log, b))
            && Assigned(log') == Assigned(log) && MaxIndex(log') == MaxIndex(log)
            && (forall k :: ForKey(log, k) <= ForKey(log', k))
            && (forall t :: FirstOf(log, t).Some? ==> FirstOf(log', t) == FirstOf(log, t))
  {
    var m := Captured(c);
    assert (log + [m])[..|log|] == log;
    forall k
      ensures ForKey(log, k) <= ForKey(log + [m], k)
    {
      ForKeySnoc(log, m, k);
    }
    forall b
      ensures History(log + [m], b) == History(log, b)
    {
      ForKeySnoc(log, m, BatchKey(b));
    }
    forall t | FirstOf(log, t).Some?
      ensures FirstOf(log + [m], t) == FirstOf(log, t)
    {
      FirstFinalKeeps(ForKey(log, TransactionKey(t)), ForKey(log + [m], TransactionKey(t)));
    }
  }

  lemma GrowBySettlement(log: seq<Message>, e: SettlementEvent)
    requires Effective(e)
    ensures var log' := log + [Settled(e)];
            && (forall b :: History(log', b) ==
                            if b == e.batchId then History(log, b) + [Settled(e)] else History(log, b))
            && Assigned(log') == Assigned(log) + e.ids && MaxIndex(log') == IndexOr(e.batchId, MaxIndex(log))
            && (forall k :: ForKey(log, k) <= ForKey(log', k))
            && (forall t :: FirstOf(log', t) == FirstOf(log, t))
  {
    var m := Settled(e);
    assert (log + [m])[..|log|] == log;
    forall k
      ensures ForKey(log, k) <= ForKey(log + [m], k)
    {
      ForKeySnoc(log, m, k);
    }
    forall b
      ensures History(log + [m], b) == if b == e.batchId then History(log, b) + [m] else History(log, b)
    {
      ForKeySnoc(log, m, BatchKey(b));
    }
    forall t
      ensures FirstOf(log + [m], t) == FirstOf(log, t)
    {
      ForKeySnoc(log, m, TransactionKey(t));
    }
  }

  // ---------- Facts about sound batches and events ----------

  lemma EventFacts(cfg: Config, b: string, e: SettlementEvent)
    requires EventOk(cfg, b, e)
    ensures Effective(e) && e.batchId == b && Numbered(b) && BatchOk(cfg, b, BatchFrom(e))
    ensures BatchFrom(e).status == StatusOf(e) && BatchFrom(e).manifest == e.manifest
    ensures BatchFrom(e).ids == e.ids == IdsOf(e.manifest)
  {
  }

  lemma CoreFacts(x: SettlementBatch, y: SettlementBatch)
    requires CoreOf(x) == CoreOf(y)
    ensures x.ids == y.ids && x.manifest == y.manifest && x.batchId == y.batchId
  {
    assert CoreOf(x).ids == CoreOf(y).ids && CoreOf(x).manifest == CoreOf(y).manifest;
  }

  lemma RcaFacts(cfg: Config, b: string, x: SettlementBatch)
    ensures BatchOk(cfg, b, WithoutRca(x)) <==> BatchOk(cfg, b, x)
    ensures CoreOf(WithoutRca(x)) == CoreOf(x)
    ensures BatchOk(cfg, b, x) ==> x.ids == IdsOf(x.manifest)
  {
  }

  // ---------- Reading histories ----------

  /** Every event of a batch carries the manifest its first event carries. */
  lemma SameCore(cfg: Config, b: string, h: seq<Message>, i: nat)
    requires HistoryOk(cfg, b, h) && i < |h|
    ensures h[i].Settled? && h[0].Settled? && EventOk(cfg, b, h[i].event)
    ensures CoreOf(BatchFrom(h[i].event)) == CoreOf(BatchFrom(h[0].event))
    ensures h[i].event.manifest == h[0].event.manifest && h[i].event.ids == IdsOf(h[0].event.manifest)
    ensures i < |h| - 1 ==> !HasResult(h[i])
  {
    hide EventOk, BatchFrom, CoreOf, StatusOf;
    assert h[0] in h && h[i] in h;
    EventFacts(cfg, b, h[i].event);
    EventFacts(cfg, b, h[0].event);
    if i > 0 {
      assert 0 <= 0 < i < |h|;
      assert !HasResult(h[0]) && CoreOf(BatchFrom(h[0].event)) == CoreOf(BatchFrom(h[i].event));
      CoreFacts(BatchFrom(h[0].event), BatchFrom(h[i].event));
    }
    if i < |h| - 1 {
      assert h[i + 1].Settled?;
    }
  }

  lemma SameManifest(cfg: Config, log: seq<Message>, m: Message)
    requires LogOk(cfg, log) && m in log && m.Settled?
    ensures var b := m.event.batchId;
            && m in History(log, b) && EventOk(cfg, b, m.event)
            && m.event.manifest == ManifestIn(log, b) && m.event.ids == IdsOf(ManifestIn(log, b))
  {
    hide EventOk, BatchFrom, CoreOf, StatusOf, ForKey;
    var b := m.event.batchId;
    var h := History(log, b);
    assert m in h;
    assert HistoryOk(cfg, b, h);
    var i :| 0 <= i < |h| && h[i] == m;
    SameCore(cfg, b, h, i);
    SameCore(cfg, b, h, 0);
  }

  lemma AssignedByManifests(cfg: Config, log: seq<Message>, t: string)
    requires LogOk(cfg, log)
    ensures t in Assigned(log) <==> exists b :: t in IdsOf(ManifestIn(log, b))
  {
    AssignedBy(log, t);
    if t in Assigned(log) {
      var m :| m in log && EffectiveMessage(m) && t in m.event.ids;
      SameManifest(cfg, log, m);
    }
    if b :| t in IdsOf(ManifestIn(log, b)) {
      var m := History(log, b)[0];
      assert m in History(log, b);
      assert m in log;
      SameManifest(cfg, log, m);
    }
  }

  /** The messages a run has read of one batch: a beginning of that batch's history. */
  lemma KnownHistory(cfg: Config, s: System, b: string)
    requires LogOk(cfg, s.log) && SeenOk(s)
    ensures History(s.seen, b) <= History(s.log, b)
    ensures HistoryOk(cfg, b, History(s.log, b))
    ensures HistoryOk(cfg, b, History(Known(s), b))
  {
    hide HistoryOk, ForKey;
    assert ForKey(s.seen, BatchKey(b)) <= ForKey(s.log, BatchKey(b));
    HistoryBegins(cfg, b, History(s.log, b), History(s.seen, b));
  }

  lemma HistoryBegins(cfg: Config, b: string, h: seq<Message>, g: seq<Message>)
    requires HistoryOk(cfg, b, h) && g <= h
    ensures HistoryOk(cfg, b, g)
  {
    hide EventOk, BatchFrom, CoreOf, StatusOf;
    forall m | m in g
      ensures m in h
    {
      var i :| 0 <= i < |g| && g[i] == m;
      assert h[i] == m;
    }
    forall i, j | 0 <= i < j < |g|
      ensures h[i].Settled? && h[j].Settled? && !HasResult(g[i])
      ensures CoreOf(BatchFrom(g[i].event)) == CoreOf(BatchFrom(g[j].event))
    {
      assert g[i] == h[i] && g[j] == h[j] && h[i] in h && h[j] in h;
    }
  }

  /** A batch in memory has the right size and amounts, and a result exactly when its history has. */
  lemma BatchInMemory(cfg: Config, s: System, b: string) returns (i: nat)
    requires Inv(cfg, s) && b in s.queue.batches
    ensures var h, x := History(Known(s), b), s.queue.batches[b];
            && HistoryOk(cfg, b, h) && i < |h| && Shows(x, h, i) && h[i] in Known(s)
            && BatchOk(cfg, b, x) && x.ids == IdsOf(h[0].event.manifest)
            && CoreOf(x) == CoreOf(BatchFrom(h[0].event))
            && h[|h| - 1].Settled? && (Terminal(x.status) <==> HasResult(h[|h| - 1]))
            && (Terminal(x.status) <==> HasResult(h[i]))
  {
    hide EventOk, BatchOk, BatchFrom, CoreOf, StatusOf, ForKey, LogOk, SeenOk, PendingOk, FlightsOk, MaxIndex;
    KnownHistory(cfg, s, b);
    var h, x := History(Known(s), b), s.queue.batches[b];
    assert Reflects(x, h);
    i :| 0 <= i < |h| && Shows(x, h, i);
    SameCore(cfg, b, h, i);
    SameCore(cfg, b, h, |h| - 1);
    EventFacts(cfg, b, h[i].event);
    RcaFacts(cfg, b, x);
    assert h[i] in h;
    assert x.status == StatusOf(h[i].event);
    assert x.ids == h[i].event.ids;
  }

  lemma BatchedIsKnown(cfg: Config, s: System, t: string)
    requires Inv(cfg, s)
    ensures InSomeBatch(s.queue.batches, t) <==> t in Assigned(Known(s))
  {
    hide EventOk, BatchOk, BatchFrom, CoreOf, StatusOf, ForKey, LogOk, SeenOk, PendingOk, FlightsOk, MaxIndex, Assigned;
    var known := Known(s);
    AssignedBy(known, t);
    if InSomeBatch(s.queue.batches, t) {
      var b :| b in s.queue.batches && t in s.queue.batches[b].ids;
      var i := BatchInMemory(cfg, s, b);
      var h := History(known, b);
      SameCore(cfg, b, h, i);
      EventFacts(cfg, b, h[i].event);
      assert EffectiveMessage(h[i]);
    }
    if t in Assigned(known) {
      var m :| m in known && EffectiveMessage(m) && t in m.event.ids;
      var b := m.event.batchId;
      var h := History(known, b);
      assert m in h;
      assert b in s.queue.batches;
      var i := BatchInMemory(cfg, s, b);
      var j :| 0 <= j < |h| && h[j] == m;
      SameCore(cfg, b, h, j);
      assert t in s.queue.batches[b].ids;
    }
  }

  // ---------- Captures ----------

  lemma CaptureKeeps(cfg: Config, s: System, c: CaptureEvent)
    requires Inv(cfg, s)
    ensures Inv(cfg, After(cfg, s, Capture(c)))
  {
    hide EventOk, BatchOk, BatchFrom, CoreOf, StatusOf, ForKey, Assigned, MaxIndex, FirstFinal, HistoryOk, Shows;
    hide Reflects;
    var s' := After(cfg, s, Capture(c));
    GrowByCapture(s.log, c);
    assert forall b :: ManifestIn(s'.log, b) == ManifestIn(s.log, b);
    assert forall b :: History(Known(s'), b) == History(Known(s), b);
    SeenBehind(s, s');
    assert LogOk(cfg, s'.log) by {
      forall b
        ensures HistoryOk(cfg, b, History(s'.log, b))
      {
        assert HistoryOk(cfg, b, History(s.log, b));
      }
    }
  }

  lemma PendingIds(cfg: Config, s: System, t: string)
    requires Inv(cfg, s)
    ensures t in IdsOf(s.queue.pending) <==> FirstOf(s.seen, t).Some? && t !in Assigned(Known(s))
  {
    hide LogOk, SeenOk, BatchesOk, FlightsOk, TakenOk, ForKey, FirstFinal, Assigned, MaxIndex;
    FirstFinalId(ForKey(s.seen, TransactionKey(t)), t);
    if t in IdsOf(s.queue.pending) {
      var y :| y in s.queue.pending && y.transactionId == t;
    }
    if FirstOf(s.seen, t).Some? && t !in Assigned(Known(s)) {
      assert FirstOf(s.seen, t).value in s.queue.pending;
    }
  }

  lemma ReadCapturePending(cfg: Config, s: System, c: CaptureEvent)
    requires Inv(cfg, s) && Enabled(cfg, s, Read(Captured(c)))
    ensures PendingOk(After(cfg, s, Read(Captured(c))))
  {
    hide LogOk, SeenOk, BatchesOk, FlightsOk, TakenOk, ForKey, FirstFinal, Assigned, MaxIndex, CanRead;
    var m := Captured(c);
    var s' := After(cfg, s, Read(m));
    var t := c.transactionId;
    GrowByCapture(s.seen, c);
    BatchedIsKnown(cfg, s, t);
    PendingIds(cfg, s, t);
    FirstFinalSnoc(ForKey(s.seen, TransactionKey(t)), m);
    forall x
      ensures x in s'.queue.pending <==>
              FirstOf(s'.seen, x.transactionId) == Some(x) && x.transactionId !in Assigned(Known(s'))
    {
      ForKeySnoc(s.seen, m, TransactionKey(x.transactionId));
    }
    if Accepts(s.queue, c) {
      forall i | 0 <= i < |s.queue.pending|
        ensures s.queue.pending[i].transactionId != t
      {
        assert s.queue.pending[i] in s.queue.pending;
      }
    }
  }

  lemma ReadCaptureKeeps(cfg: Config, s: System, c: CaptureEvent)
    requires Inv(cfg, s) && Enabled(cfg, s, Read(Captured(c)))
    ensures Inv(cfg, After(cfg, s, Read(Captured(c))))
  {
    hide LogOk, PendingOk, ForKey, FirstFinal, Assigned, MaxIndex, CanRead, Reflects, Shows, Accepts, Terminal;
    var m := Captured(c);
    var s' := After(cfg, s, Read(m));
    ReadCapturePending(cfg, s, c);
    GrowByCapture(s.seen, c);
    SeenGrows(s, m);
    assert s'.queue.batches == s.queue.batches && s'.queue.sequence == s.queue.sequence;
    assert forall b :: History(Known(s'), b) == History(Known(s), b);
    assert BatchesOk(s');
  }

  lemma SeenGrows(s: System, m: Message)
    requires SeenOk(s) && CanRead(s, m)
    ensures forall k :: ForKey(s.seen + [m], k) <= ForKey(s.log, k)
  {
    forall k
      ensures ForKey(s.seen + [m], k) <= ForKey(s.log, k)
    {
      ForKeySnoc(s.seen, m, k);
      assert ForKey(s.seen, k) <= ForKey(s.log, k);
    }
  }

  // ---------- Settlement events read back ----------

  /** What holds of a settlement event that is about to be read. */
  lemma NextEvent(cfg: Config, s: System, e: SettlementEvent)
    requires Inv(cfg, s) && CanRead(s, Settled(e))
    ensures var h, i := History(s.log, e.batchId), |History(s.seen, e.batchId)|;
            && i < |h| && h[i] == Settled(e) && HistoryOk(cfg, e.batchId, h) && Settled(e) in s.log
            && EventOk(cfg, e.batchId, e)
  {
    var b := e.batchId;
    KnownHistory(cfg, s, b);
    var h, i := History(s.log, b), |History(s.seen, b)|;
    assert (History(s.seen, b) + [Settled(e)])[i] == h[i];
    assert h[i] in h;
  }

  lemma ReadBack(cfg: Config, e: SettlementEvent)
    requires EventOk(cfg, e.batchId, e)
    ensures e.batchId != "" && WithoutRca(BatchFrom(e)) == BatchFrom(e)
  {
  }

  /** How reading an own event back changes its batch: it shows that event, or nothing changes. */
  lemma EchoShows(cfg: Config, s: System, e: SettlementEvent)
    requires Inv(cfg, s) && Enabled(cfg, s, Read(Settled(e))) && s.live
    ensures var b, h, i := e.batchId, History(s.log, e.batchId), |History(s.seen, e.batchId)|;
            && b in s.queue.batches && b != "" && i < |h|
            && (Stale(s.queue.batches, e) ==> i < |h| - 1)
            && (!Stale(s.queue.batches, e) ==> Shows(BatchFrom(e), h, i))
            && (!Stale(s.queue.batches, e) ==>
                  (Terminal(BatchFrom(e).status) <==> Terminal(s.queue.batches[b].status)))
  {
    hide EventOk, BatchOk, BatchFrom, CoreOf, ForKey, Inv, StatusOf, HistoryOk;
    var b := e.batchId;
    NextEvent(cfg, s, e);
    var h, i := History(s.log, b), |History(s.seen, b)|;
    KnowsBatch(cfg, s, b);
    var j := BatchInMemory(cfg, s, b);
    EventFacts(cfg, b, e);
    SameCore(cfg, b, h, i);
    SameCore(cfg, b, h, j);
    ReadBack(cfg, e);
    assert HasResult(h[i]) <==> Terminal(StatusOf(e));
    assert WithoutRca(BatchFrom(e)) == BatchFrom(h[i].event);
    assert Shows(s.queue.batches[b], h, j);
  }

  /** Replacing or adding one batch that fits its history, while the other histories stay. */
  lemma OneBatchChanged(s: System, s': System, b: string, x: SettlementBatch)
    requires BatchesOk(s)
    requires s'.queue.batches == s.queue.batches[b := x]
    requires forall c :: c != b ==> History(Known(s'), c) == History(Known(s), c)
    requires forall c :: c != b ==> History(s'.seen, c) == History(s.seen, c) && History(s'.log, c) == History(s.log, c)
    requires Reflects(x, History(Known(s'), b))
    requires History(s'.seen, b) == History(s'.log, b) ==>
               |History(s'.log, b)| > 0 && Shows(x, History(s'.log, b), |History(s'.log, b)| - 1)
    ensures BatchesOk(s')
  {
    hide ForKey, Shows, History;
    forall c | c in s'.queue.batches
      ensures Reflects(s'.queue.batches[c], History(Known(s'), c))
    {
      if c != b {
        assert Reflects(s.queue.batches[c], History(Known(s), c));
      }
    }
  }

  lemma KnowsBatch(cfg: Config, s: System, b: string)
    requires Inv(cfg, s)
    ensures b in s.queue.batches <==> |History(Known(s), b)| > 0
  {
    hide LogOk, SeenOk, PendingOk, FlightsOk, Reflects, Shows, ForKey, MaxIndex;
  }

  lemma ShowsReflects(x: SettlementBatch, h: seq<Message>, i: nat)
    requires i < |h| && Shows(x, h, i)
    ensures Reflects(x, h)
  {
  }

  lemma ReflectsIn(s: System, b: string)
    requires BatchesOk(s) && b in s.queue.batches
    ensures Reflects(s.queue.batches[b], History(Known(s), b))
    ensures History(s.seen, b) == History(s.log, b) ==>
              |History(s.log, b)| > 0 && Shows(s.queue.batches[b], History(s.log, b), |History(s.log, b)| - 1)
  {
    hide Reflects, Shows, History;
  }

  /** What reading a settlement event does, in the parts that the batches depend on. */
  lemma AfterSettlement(cfg: Config, s: System, e: SettlementEvent)
    requires Enabled(cfg, s, Read(Settled(e))) && Effective(e) && e.batchId != ""
    ensures var s' := After(cfg, s, Read(Settled(e)));
            && s'.log == s.log && s'.seen == s.seen + [Settled(e)] && s'.live == s.live
            && s'.queue.batches == if Stale(s.queue.batches, e) then s.queue.batches
                                   else s.queue.batches[e.batchId := BatchFrom(e)]
  {
    hide Stale, BatchFrom, Without, IndexOr, CanRead;
  }

  lemma ReadEchoKeepsBatches(cfg: Config, s: System, e: SettlementEvent)
    requires Inv(cfg, s) && Enabled(cfg, s, Read(Settled(e))) && s.live
    ensures var s' := After(cfg, s, Read(Settled(e)));
            && BatchesOk(s') && s'.queue.batches.Keys == s.queue.batches.Keys
            && (forall b :: b in s.queue.batches ==>
                              (Terminal(s'.queue.batches[b].status) <==> Terminal(s.queue.batches[b].status)))
  {
    var b := e.batchId;
    NextEvent(cfg, s, e);
    EventFacts(cfg, b, e);
    EchoShows(cfg, s, e);
    AfterSettlement(cfg, s, e);
    assert BatchesOk(s);
    hide *;
    EchoBatches(s, After(cfg, s, Read(Settled(e))), e);
  }

  lemma EchoBatches(s: System, s': System, e: SettlementEvent)
    requires BatchesOk(s) && s.live && s'.live && Effective(e) && e.batchId in s.queue.batches
    requires s'.log == s.log && s'.seen == s.seen + [Settled(e)]
    requires s'.queue.batches == if Stale(s.queue.batches, e) then s.queue.batches
                                 else s.queue.batches[e.batchId := BatchFrom(e)]
    requires var h, i := History(s.log, e.batchId), |History(s.seen, e.batchId)|;
             && i < |h|
             && (Stale(s.queue.batches, e) ==> i < |h| - 1)
             && (!Stale(s.queue.batches, e) ==> Shows(BatchFrom(e), h, i))
             && (!Stale(s.queue.batches, e) ==>
                   (Terminal(BatchFrom(e).status) <==> Terminal(s.queue.batches[e.batchId].status)))
    ensures BatchesOk(s') && s'.queue.batches.Keys == s.queue.batches.Keys
    ensures forall b :: b in s.queue.batches ==>
                          (Terminal(s'.queue.batches[b].status) <==> Terminal(s.queue.batches[b].status))
  {
    hide Effective, BatchFrom, ForKey, Assigned, MaxIndex, FirstFinal, IndexOr, Shows, History, BatchesOk, Reflects;
    hide Stale, Terminal;
    var b, h, i := e.batchId, History(s.log, e.batchId), |History(s.seen, e.batchId)|;
    GrowBySettlement(s.seen, e);
    assert |History(s'.seen, b)| == i + 1;
    ReflectsIn(s, b);
    if Stale(s.queue.batches, e) {
      assert s'.queue.batches == s.queue.batches[b := s.queue.batches[b]];
      OneBatchChanged(s, s', b, s.queue.batches[b]);
    } else {
      ShowsReflects(BatchFrom(e), h, i);
      OneBatchChanged(s, s', b, BatchFrom(e));
    }
  }

  lemma ReadReplayKeepsBatches(cfg: Config, s: System, e: SettlementEvent)
    requires Inv(cfg, s) && Enabled(cfg, s, Read(Settled(e))) && !s.live
    ensures BatchesOk(After(cfg, s, Read(Settled(e))))
  {
    NextEvent(cfg, s, e);
    ReplayNotStale(cfg, s, e);
    EventFacts(cfg, e.batchId, e);
    AfterSettlement(cfg, s, e);
    assert BatchesOk(s);
    hide *;
    ReplayBatches(s, After(cfg, s, Read(Settled(e))), e);
  }

  lemma ReplayBatches(s: System, s': System, e: SettlementEvent)
    requires BatchesOk(s) && !s.live && !s'.live && Effective(e) && WithoutRca(BatchFrom(e)) == BatchFrom(e)
    requires s'.log == s.log && s'.seen == s.seen + [Settled(e)]
    requires s'.queue.batches == s.queue.batches[e.batchId := BatchFrom(e)]
    ensures BatchesOk(s')
  {
    hide Effective, BatchFrom, ForKey, Assigned, MaxIndex, FirstFinal, IndexOr, History, BatchesOk, Reflects, Terminal;
    var b, g := e.batchId, History(s.seen, e.batchId);
    GrowBySettlement(s.seen, e);
    assert Shows(BatchFrom(e), g + [Settled(e)], |g|);
    hide Shows;
    ShowsReflects(BatchFrom(e), g + [Settled(e)], |g|);
    OneBatchChanged(s, s', b, BatchFrom(e));
  }

  /** During a replay nothing is stale: a result is the last thing the log says of a batch. */
  lemma ReplayNotStale(cfg: Config, s: System, e: SettlementEvent)
    requires Inv(cfg, s) && Enabled(cfg, s, Read(Settled(e))) && !s.live
    ensures !Stale(s.queue.batches, e) && e.batchId != ""
    ensures WithoutRca(BatchFrom(e)) == BatchFrom(e)
  {
    hide BatchOk, BatchFrom, StatusOf, EventOk, CoreOf, ForKey, Assigned, MaxIndex, FirstFinal;
    hide LogOk, SeenOk, PendingOk, FlightsOk;
    var b := e.batchId;
    NextEvent(cfg, s, e);
    KnownHistory(cfg, s, b);
    EventFacts(cfg, b, e);
    ReadBack(cfg, e);
    var h, g := History(s.log, b), History(s.seen, b);
    if b in s.queue.batches {
      var j := BatchInMemory(cfg, s, b);
      assert g[j] == h[j];
      SameCore(cfg, b, h, j);
    }
  }

  lemma ReadSettlementPending(cfg: Config, s: System, e: SettlementEvent)
    requires Inv(cfg, s) && Enabled(cfg, s, Read(Settled(e)))
    ensures var s' := After(cfg, s, Read(Settled(e)));
            PendingOk(s') && TakenOk(s') && s'.queue.sequence == MaxIndex(Known(s'))
  {
    hide EventOk, BatchOk, BatchFrom, CoreOf, StatusOf, ForKey, Assigned, MaxIndex, FirstFinal, HistoryOk, Recorded;
    hide LogOk, BatchesOk, FlightsOk, SeenOk, MatchIndex, CanRead;
    NextEvent(cfg, s, e);
    EventFacts(cfg, e.batchId, e);
    GrowBySettlement(s.seen, e);
    WithoutDistinct(s.queue.pending, e.ids);
    if s.live {
      MaxIndexBounds(s.log, Settled(e));
      assert EffectiveMessage(Settled(e));
      forall t | t in e.ids
        ensures t in Assigned(s.log)
      {
        AssignedBy(s.log, t);
      }
    }
  }

  lemma ReadSettlementKeeps(cfg: Config, s: System, e: SettlementEvent)
    requires Inv(cfg, s) && Enabled(cfg, s, Read(Settled(e)))
    ensures Inv(cfg, After(cfg, s, Read(Settled(e))))
  {
    hide EventOk, BatchOk, BatchFrom, CoreOf, StatusOf, ForKey, Assigned, MaxIndex, FirstFinal, HistoryOk, Reconciled;
    hide LogOk, BatchesOk, PendingOk, TakenOk, Unfinished;
    SeenGrows(s, Settled(e));
    ReadSettlementPending(cfg, s, e);
    if s.live {
      ReadEchoKeepsBatches(cfg, s, e);
    } else {
      ReadReplayKeepsBatches(cfg, s, e);
    }
  }

  // ---------- Going live ----------

  lemma CatchUpKeeps(cfg: Config, s: System, order: seq<string>)
    requires Inv(cfg, s) && Enabled(cfg, s, CatchUp(order))
    ensures Inv(cfg, After(cfg, s, CatchUp(order)))
  {
    var s' := After(cfg, s, CatchUp(order));
    SamePerKeySymmetric(s.seen, s.log);
    AssignedSame(s.seen, s.log);
    MaxIndexLeq(s.seen, s.log);
    MaxIndexLeq(s.log, s.seen);
    forall b
      ensures History(s.log, b) == History(s.seen, b)
    {
      assert ForKey(s.seen, BatchKey(b)) == ForKey(s.log, BatchKey(b));
    }
    forall b | b in s.queue.batches
      ensures b in order <==> !Terminal(s.queue.batches[b].status)
    {
      var i := BatchInMemory(cfg, s, b);
    }
    assert s'.inFlight == order;
    assert BatchesOk(s');
    ManifestsSeen(cfg, s);
  }

  lemma ManifestsSeen(cfg: Config, s: System)
    requires LogOk(cfg, s.log) && SamePerKey(s.seen, s.log)
    ensures forall t :: t in Assigned(s.log) ==> FirstOf(s.seen, t).Some?
  {
    hide HistoryOk, Assigned, FirstFinal, ForKey, History;
    forall t | t in Assigned(s.log)
      ensures FirstOf(s.seen, t).Some?
    {
      AssignedByManifests(cfg, s.log, t);
      var b :| t in IdsOf(ManifestIn(s.log, b));
      var x :| x in ManifestIn(s.log, b) && x.transactionId == t;
      assert ForKey(s.seen, TransactionKey(t)) == ForKey(s.log, TransactionKey(t));
    }
  }

  // ---------- Starting a batch ----------

  lemma IdsOfConcat(a: seq<CapturedPayment>, b: seq<CapturedPayment>)
    ensures IdsOf(a + b) == IdsOf(a) + IdsOf(b)
  {
    forall t | t in IdsOf(a) + IdsOf(b)
      ensures t in IdsOf(a + b)
    {
      var x :| (x in a || x in b) && x.transactionId == t;
      assert x in a + b;
    }
  }

  lemma IdsOfSnoc(items: seq<CapturedPayment>, x: CapturedPayment)
    ensures IdsOf(items + [x]) == IdsOf(items) + {x.transactionId}
  {
    IdsOfConcat(items, [x]);
    assert x in [x];
  }

  lemma NewId(items: seq<CapturedPayment>)
    requires |items| > 0 && DistinctIds(items)
    ensures items[|items| - 1].transactionId !in IdsOf(items[..|items| - 1])
  {
    forall y | y in items[..|items| - 1]
      ensures y.transactionId != items[|items| - 1].transactionId
    {
      var i :| 0 <= i < |items| - 1 && items[i] == y;
      assert items[i].transactionId != items[|items| - 1].transactionId;
    }
  }

  lemma {:induction false} DistinctSize(items: seq<CapturedPayment>)
    requires DistinctIds(items)
    ensures |IdsOf(items)| == |items|
  {
    hide IdsOf;
    if |items| == 0 {
      NoIds();
    } else {
      var p, x := items[..|items| - 1], items[|items| - 1];
      DistinctSize(p);
      NewId(items);
      IdsOfSnoc(p, x);
      assert items == p + [x];
    }
  }

  lemma NoIds()
    ensures IdsOf([]) == {}
  {
  }

  lemma CutPending(items: seq<CapturedPayment>, n: nat)
    requires DistinctIds(items) && n <= |items|
    ensures DistinctIds(items[..n]) && DistinctIds(items[n..])
    ensures forall x :: x in items[n..] <==> x in items && x.transactionId !in IdsOf(items[..n])
  {
    assert items == items[..n] + items[n..];
    forall x, y | x in items[..n] && y in items[n..]
      ensures x.transactionId != y.transactionId
    {
      var i :| 0 <= i < n && items[i] == x;
      var j :| n <= j < |items| && items[j] == y;
      assert items[i].transactionId != items[j].transactionId;
    }
  }

  lemma PendingFacts(cfg: Config, s: System, x: CapturedPayment)
    requires Inv(cfg, s) && s.live && x in s.queue.pending
    ensures FirstOf(s.seen, x.transactionId) == Some(x) && FirstOf(s.log, x.transactionId) == Some(x)
    ensures x.transactionId !in Assigned(s.log)
  {
    hide LogOk, BatchesOk, FlightsOk, TakenOk, ForKey, FirstFinal, Assigned, MaxIndex;
    var k := TransactionKey(x.transactionId);
    assert ForKey(s.seen, k) <= ForKey(s.log, k);
    FirstFinalKeeps(ForKey(s.seen, k), ForKey(s.log, k));
  }

  /** No event is about a batch whose number is greater than all numbers in the log. */
  lemma NumberUnused(cfg: Config, s: System, b: string)
    requires Inv(cfg, s) && s.live && MatchIndex(b) == Some(s.queue.sequence + 1)
    ensures History(s.log, b) == []
  {
    hide BatchesOk, FlightsOk, TakenOk, PendingOk, SeenOk, ForKey, MatchIndex, MaxIndex, BatchFrom, CoreOf, StatusOf;
    hide BatchOk;
    var h := History(s.log, b);
    if |h| > 0 {
      assert h[0] in h;
      assert HistoryOk(cfg, b, h);
      MaxIndexBounds(s.log, h[0]);
    }
  }

  lemma CutBatchOk(cfg: Config, q: Queue, suffix: string, now: string)
    requires 0 < cfg.size <= |q.pending| && |IdsOf(q.pending[..cfg.size])| == cfg.size && now != ""
    ensures var b := NextBatch(q, cfg.size, suffix, now);
            && BatchOk(cfg, b.batchId, b) && MatchIndex(b.batchId) == Some(q.sequence + 1)
            && b.manifest == q.pending[..cfg.size] && b.ids == IdsOf(b.manifest)
  {
    BatchIdRoundTrip(q.sequence + 1, suffix);
    BatchIdNotEmpty(q.sequence + 1, suffix);
    hide MatchIndex, SplitIndex, BatchId, TotalOf, DateOf, IdsOf;
  }

  lemma BatchIdNotEmpty(n: nat, suffix: string)
    ensures BatchId(n, suffix) != ""
  {
    hide Pad3;
    assert |BatchId(n, suffix)| >= |PREFIX|;
  }

  /** The batch that is cut is sound, its id is new, and its captures were in no batch before. */
  lemma NewBatchOk(cfg: Config, s: System, suffix: string, now: string)
    requires cfg.size > 0 && Inv(cfg, s) && Enabled(cfg, s, Start(suffix, now))
    ensures var b := NextBatch(s.queue, cfg.size, suffix, now);
            && BatchOk(cfg, b.batchId, b) && History(s.log, b.batchId) == []
            && (forall t :: t in b.ids ==> FirstOf(s.seen, t).Some?)
            && MatchIndex(b.batchId) == Some(s.queue.sequence + 1)
            && (forall x :: x in b.manifest ==>
                              FirstOf(s.log, x.transactionId) == Some(x) && x.transactionId !in Assigned(s.log))
  {
    var b := NextBatch(s.queue, cfg.size, suffix, now);
    var pending := s.queue.pending;
    assert PendingOk(s);
    CutPending(pending, cfg.size);
    DistinctSize(pending[..cfg.size]);
    CutBatchOk(cfg, s.queue, suffix, now);
    hide BatchOk, NextBatch, MatchIndex, Inv;
    NumberUnused(cfg, s, b.batchId);
    forall x | x in b.manifest
      ensures FirstOf(s.seen, x.transactionId) == Some(x) && FirstOf(s.log, x.transactionId) == Some(x)
      ensures x.transactionId !in Assigned(s.log)
    {
      var i :| 0 <= i < cfg.size && pending[i] == x;
      PendingFacts(cfg, s, x);
    }
  }

  /** The event of a sound batch is sound and reads back as that batch. */
  lemma EventOfOk(cfg: Config, b: string, x: SettlementBatch, eventType: string, now: string)
    requires cfg.size > 0 && BatchOk(cfg, b, x)
    requires eventType in {"settlement_batch_ready", "settlement_batch_processing", TerminalType(x)}
    ensures EventOk(cfg, b, EventOf(x, eventType, now))
    ensures BatchFrom(EventOf(x, eventType, now)) == WithoutRca(x)
  {
  }

  lemma FirstHistory(cfg: Config, b: string, e: SettlementEvent)
    requires EventOk(cfg, b, e)
    ensures HistoryOk(cfg, b, [Settled(e)])
  {
    hide EventOk, BatchFrom, CoreOf, StatusOf;
  }

  /** Adding a first event about a batch whose captures were in no batch before. */
  lemma FirstEventKeepsLog(cfg: Config, log: seq<Message>, e: SettlementEvent)
    requires LogOk(cfg, log) && EventOk(cfg, e.batchId, e) && History(log, e.batchId) == []
    requires forall x :: x in e.manifest ==>
                           FirstOf(log, x.transactionId) == Some(x) && x.transactionId !in Assigned(log)
    ensures LogOk(cfg, log + [Settled(e)])
  {
    hide EventOk, BatchOk, BatchFrom, CoreOf, StatusOf, ForKey, Assigned, MaxIndex, FirstFinal, HistoryOk, History;
    hide FirstOf;
    var b, log' := e.batchId, log + [Settled(e)];
    EventFacts(cfg, b, e);
    GrowBySettlement(log, e);
    FirstHistory(cfg, b, e);
    assert History(log', b) == [Settled(e)];
    forall c
      ensures HistoryOk(cfg, c, History(log', c))
      ensures ManifestIn(log', c) == if c == b then e.manifest else ManifestIn(log, c)
    {
      assert HistoryOk(cfg, c, History(log, c));
    }
    forall c | c != b
      ensures IdsOf(e.manifest) !! IdsOf(ManifestIn(log, c))
    {
      forall t | t in IdsOf(ManifestIn(log, c))
        ensures t !in IdsOf(e.manifest)
      {
        AssignedByManifests(cfg, log, t);
      }
    }
    hide LogOk;
    ManifestsKeep(cfg, log, log', b, e.manifest);
  }

  lemma ManifestsKeep(cfg: Config, log: seq<Message>, log': seq<Message>, b: string, new_: seq<CapturedPayment>)
    requires LogOk(cfg, log)
    requires forall c :: HistoryOk(cfg, c, History(log', c))
    requires forall c :: ManifestIn(log', c) == if c == b then new_ else ManifestIn(log, c)
    requires forall c :: c != b ==> IdsOf(new_) !! IdsOf(ManifestIn(log, c))
    requires forall t :: FirstOf(log', t) == FirstOf(log, t)
    requires forall x :: x in new_ ==> FirstOf(log, x.transactionId) == Some(x)
    ensures LogOk(cfg, log')
  {
    hide ManifestIn, History, HistoryOk, FirstOf;
  }

  lemma CutFacts(q: Queue, size: nat, suffix: string, now: string)
    requires |q.pending| >= size
    ensures var b := NextBatch(q, size, suffix, now);
            && b.manifest == q.pending[..size] && b.ids == IdsOf(b.manifest) && b.status == Ready && b.rca == None
            && Cut(q, size, suffix, now) == Queue(q.pending[size..], q.batches[b.batchId := b], q.sequence + 1)
  {
    hide BatchId, TotalOf, DateOf;
  }

  lemma StartKeepsPending(cfg: Config, s: System, suffix: string, now: string)
    requires cfg.size > 0 && Inv(cfg, s) && Enabled(cfg, s, Start(suffix, now))
    ensures var s' := After(cfg, s, Start(suffix, now));
            PendingOk(s') && TakenOk(s') && s'.queue.sequence == MaxIndex(s'.log)
  {
    hide EventOk, BatchOk, BatchFrom, CoreOf, StatusOf, ForKey, Assigned, MaxIndex, FirstFinal, LogOk, SeenOk;
    hide EventOf, MatchIndex, BatchesOk, FlightsOk, NextBatch, Cut;
    CutFacts(s.queue, cfg.size, suffix, now);
    var b := NextBatch(s.queue, cfg.size, suffix, now);
    var e := EventOf(b, "settlement_batch_ready", now);
    NewBatchOk(cfg, s, suffix, now);
    ReadyEvent(cfg, b, now);
    EventFacts(cfg, b.batchId, e);
    GrowBySettlement(s.log, e);
    CutPending(s.queue.pending, cfg.size);
  }

  lemma StartKeepsBatches(cfg: Config, s: System, suffix: string, now: string)
    requires cfg.size > 0 && Inv(cfg, s) && Enabled(cfg, s, Start(suffix, now))
    ensures var s' := After(cfg, s, Start(suffix, now));
            BatchesOk(s') && FlightsOk(s') && SeenOk(s')
  {
    hide EventOk, BatchOk, BatchFrom, CoreOf, StatusOf, ForKey, Assigned, MaxIndex, FirstFinal, LogOk, PendingOk;
    hide EventOf, MatchIndex, Terminal, BatchesOk, Reflects, TakenOk, NextBatch, Cut;
    CutFacts(s.queue, cfg.size, suffix, now);
    var b := NextBatch(s.queue, cfg.size, suffix, now);
    var e := EventOf(b, "settlement_batch_ready", now);
    var s' := After(cfg, s, Start(suffix, now));
    NewBatchOk(cfg, s, suffix, now);
    ReadyEvent(cfg, b, now);
    EventFacts(cfg, b.batchId, e);
    GrowBySettlement(s.log, e);
    SeenBehind(s, s');
    KnowsBatch(cfg, s, b.batchId);
    assert History(s'.log, b.batchId) == [Settled(e)];
    assert |History(s'.seen, b.batchId)| == 0;
    ShowsLast(b, History(s'.log, b.batchId));
    OneBatchChanged(s, s', b.batchId, b);
    NotTerminal(b);
  }

  lemma StartKeeps(cfg: Config, s: System, suffix: string, now: string)
    requires cfg.size > 0 && Inv(cfg, s) && Enabled(cfg, s, Start(suffix, now))
    ensures Inv(cfg, After(cfg, s, Start(suffix, now)))
  {
    hide EventOk, BatchOk, BatchFrom, LogOk, SeenOk, PendingOk, BatchesOk, FlightsOk, TakenOk, EventOf, MaxIndex;
    hide NextBatch, Cut;
    CutFacts(s.queue, cfg.size, suffix, now);
    var b := NextBatch(s.queue, cfg.size, suffix, now);
    NewBatchOk(cfg, s, suffix, now);
    ReadyEvent(cfg, b, now);
    FirstEventKeepsLog(cfg, s.log, EventOf(b, "settlement_batch_ready", now));
    StartKeepsPending(cfg, s, suffix, now);
    StartKeepsBatches(cfg, s, suffix, now);
  }

  lemma SeenBehind(s: System, s': System)
    requires SeenOk(s) && s'.seen == s.seen
    requires forall k :: ForKey(s.log, k) <= ForKey(s'.log, k)
    ensures SeenOk(s')
  {
    forall k
      ensures ForKey(s'.seen, k) <= ForKey(s'.log, k)
    {
      assert ForKey(s.seen, k) <= ForKey(s.log, k);
    }
  }

  lemma NotTerminal(b: SettlementBatch)
    requires b.status == Ready || b.status == Processing
    ensures !Terminal(b.status)
  {
  }

  lemma ShowsLast(x: SettlementBatch, h: seq<Message>)
    requires |h| > 0 && Shows(x, h, |h| - 1)
    ensures Reflects(x, h)
  {
  }

  /** The ready event of a batch that was just cut is sound and reads back as the batch. */
  lemma ReadyEvent(cfg: Config, b: SettlementBatch, now: string)
    requires cfg.size > 0 && BatchOk(cfg, b.batchId, b) && b.rca == None
    ensures var e := EventOf(b, "settlement_batch_ready", now);
            && EventOk(cfg, b.batchId, e) && BatchFrom(e) == b && e.batchId == b.batchId
            && e.manifest == b.manifest && e.ids == b.ids
  {
    hide BatchOk, BatchFrom, EventOk;
    EventOfOk(cfg, b.batchId, b, "settlement_batch_ready", now);
  }

  // ---------- Publishing news of a batch that is on its way ----------

  /** An unfinished batch with the next event about it published and stored. */
  ghost predicate Publishes(cfg: Config, s: System, s': System, id: string, y: SettlementBatch, e: SettlementEvent) {
    && s.live && s'.live && s'.seen == s.seen
    && id in s.queue.batches && !Terminal(s.queue.batches[id].status)
    && CoreOf(y) == CoreOf(s.queue.batches[id]) && BatchOk(cfg, id, y)
    && EventOk(cfg, id, e) && BatchFrom(e) == WithoutRca(y)
    && s'.log == s.log + [Settled(e)] && s'.queue == s.queue.(batches := s.queue.batches[id := y])
  }

  lemma PublishKeepsHistory(cfg: Config, s: System, s': System, id: string, y: SettlementBatch, e: SettlementEvent)
    requires Inv(cfg, s) && Publishes(cfg, s, s', id, y, e)
    ensures HistoryOk(cfg, id, History(s.log, id) + [Settled(e)])
    ensures |History(s.log, id)| > 0 && e.manifest == ManifestIn(s.log, id)
  {
    hide EventOk, BatchOk, BatchFrom, CoreOf, StatusOf, ForKey, Inv, HasResult;
    var h := History(s.log, id);
    var i := BatchInMemory(cfg, s, id);
    EventFacts(cfg, id, e);
    RcaFacts(cfg, id, y);
    SameCore(cfg, id, h, 0);
    EventFacts(cfg, id, h[0].event);
    CoreFacts(BatchFrom(e), BatchFrom(h[0].event));
    forall j | 0 <= j < |h|
      ensures !HasResult(h[j]) && CoreOf(BatchFrom(h[j].event)) == CoreOf(BatchFrom(e))
    {
      SameCore(cfg, id, h, j);
    }
  }

  lemma PublishKeepsLog(cfg: Config, s: System, s': System, id: string, y: SettlementBatch, e: SettlementEvent)
    requires Inv(cfg, s) && Publishes(cfg, s, s', id, y, e)
    ensures LogOk(cfg, s'.log)
    ensures Assigned(s'.log) == Assigned(s.log) && MaxIndex(s'.log) == MaxIndex(s.log)
  {
    hide EventOk, BatchOk, BatchFrom, CoreOf, StatusOf, ForKey, Assigned, MaxIndex, FirstFinal, HistoryOk;
    hide Shows, Reflects, PendingOk, FlightsOk, SeenOk, BatchesOk, MatchIndex;
    var h := History(s.log, id);
    PublishKeepsHistory(cfg, s, s', id, y, e);
    EventFacts(cfg, id, e);
    GrowBySettlement(s.log, e);
    assert h[0] in h;
    SameManifest(cfg, s.log, h[0]);
    EventFacts(cfg, id, h[0].event);
    MaxIndexBounds(s.log, h[0]);
    forall c
      ensures HistoryOk(cfg, c, History(s'.log, c))
      ensures ManifestIn(s'.log, c) == ManifestIn(s.log, c)
    {
      assert HistoryOk(cfg, c, History(s.log, c));
    }
    forall t | t in e.ids
      ensures t in Assigned(s.log)
    {
      AssignedBy(s.log, t);
      assert EffectiveMessage(h[0]);
    }
    ManifestsKeep(cfg, s.log, s'.log, "", ManifestIn(s.log, ""));
  }

  lemma PublishKeeps(cfg: Config, s: System, s': System, id: string, y: SettlementBatch, e: SettlementEvent)
    requires Inv(cfg, s) && Publishes(cfg, s, s', id, y, e) && FlightsOk(s')
    ensures Inv(cfg, s')
  {
    hide EventOk, BatchOk, BatchFrom, CoreOf, StatusOf, ForKey, Assigned, MaxIndex, FirstFinal, HistoryOk, LogOk;
    hide Reflects, BatchesOk, FlightsOk;
    PublishKeepsLog(cfg, s, s', id, y, e);
    EventFacts(cfg, id, e);
    GrowBySettlement(s.log, e);
    SeenBehind(s, s');
    assert PendingOk(s');
    var h' := History(s'.log, id);
    assert Shows(y, h', |h'| - 1);
    ShowsLast(y, h');
    OneBatchChanged(s, s', id, y);
  }

  lemma MarkProcessingKeeps(cfg: Config, s: System, now: string)
    requires cfg.size > 0 && Inv(cfg, s) && Enabled(cfg, s, MarkProcessing(now))
    ensures Inv(cfg, After(cfg, s, MarkProcessing(now)))
  {
    hide EventOf, BatchFrom, LogOk, PendingOk, SeenOk, BatchesOk, MaxIndex, EventOk, CoreOf;
    var id := s.starting.value;
    var x := s.queue.batches[id];
    var y := x.(status := Processing);
    var i := BatchInMemory(cfg, s, id);
    ProcessingOk(cfg, id, x);
    EventOfOk(cfg, id, y, "settlement_batch_processing", now);
    var s' := After(cfg, s, MarkProcessing(now));
    MarkedFlights(cfg, s, now);
    hide FlightsOk;
    PublishKeeps(cfg, s, s', id, y, EventOf(y, "settlement_batch_processing", now));
  }

  lemma MarkedFlights(cfg: Config, s: System, now: string)
    requires FlightsOk(s) && Enabled(cfg, s, MarkProcessing(now))
    ensures FlightsOk(After(cfg, s, MarkProcessing(now)))
  {
    hide EventOf;
    var s', id := After(cfg, s, MarkProcessing(now)), s.starting.value;
    forall b
      ensures b in s'.inFlight <==> b in s.inFlight || b == id
    {
    }
  }

  lemma ProcessingOk(cfg: Config, id: string, x: SettlementBatch)
    requires BatchOk(cfg, id, x) && !Terminal(x.status)
    ensures var y := x.(status := Processing); BatchOk(cfg, id, y) && CoreOf(y) == CoreOf(x)
  {
  }

  lemma ProcessedOk(cfg: Config, id: string, x: SettlementBatch, now: string)
    requires BatchOk(cfg, id, x)
    ensures var y := Processed(x, OutcomeOf(cfg.outcomes, id), now);
            BatchOk(cfg, id, y) && CoreOf(y) == CoreOf(x) && Terminal(y.status)
  {
    hide Explain, OutcomeForIndex;
  }

  lemma RemoveAt(ids: seq<string>, i: nat)
    requires i < |ids| && Distinct(ids)
    ensures var rest := ids[..i] + ids[i + 1..];
            Distinct(rest) && forall b :: b in rest <==> b in ids && b != ids[i]
  {
    var rest := ids[..i] + ids[i + 1..];
    forall b | b in ids && b != ids[i]
      ensures b in rest
    {
      var j :| 0 <= j < |ids| && ids[j] == b;
      assert if j < i then rest[j] == b else rest[j - 1] == b;
    }
    forall b | b in rest
      ensures b in ids && b != ids[i]
    {
      var j :| 0 <= j < |rest| && rest[j] == b;
      assert ids[if j < i then j else j + 1] == b;
    }
  }

  lemma CompleteKeeps(cfg: Config, s: System, position: nat, now: string)
    requires cfg.size > 0 && Inv(cfg, s) && Enabled(cfg, s, Complete(position, now))
    ensures Inv(cfg, After(cfg, s, Complete(position, now)))
  {
    hide EventOf, BatchFrom, LogOk, PendingOk, SeenOk, BatchesOk, MaxIndex, EventOk, CoreOf;
    hide Processed, TerminalType, Processable, OutcomeOf, BatchOk, Terminal, Distinct;
    var id := s.inFlight[position];
    var x := s.queue.batches[id];
    var y := Processed(x, OutcomeOf(cfg.outcomes, id), now);
    assert s.live && id in s.inFlight;
    var i := BatchInMemory(cfg, s, id);
    ProcessedOk(cfg, id, x, now);
    EventOfOk(cfg, id, y, TerminalType(y), now);
    RemoveAt(s.inFlight, position);
    var s' := After(cfg, s, Complete(position, now));
    assert s'.queue == s.queue.(batches := s.queue.batches[id := y]);
    assert FlightsOk(s');
    PublishKeeps(cfg, s, s', id, y, EventOf(y, TerminalType(y), now));
  }

  lemma CrashKeeps(cfg: Config, s: System)
    requires Inv(cfg, s)
    ensures Inv(cfg, After(cfg, s, Crash))
  {
  }

  lemma InitialOk(cfg: Config)
    ensures Inv(cfg, INITIAL)
  {
  }

  lemma StepKeeps(cfg: Config, s: System, step: Step)
    requires cfg.size > 0 && Inv(cfg, s) && Enabled(cfg, s, step)
    ensures Inv(cfg, After(cfg, s, step))
  {
    match step {
      case Capture(c) => CaptureKeeps(cfg, s, c);
      case Read(Captured(c)) => ReadCaptureKeeps(cfg, s, c);
      case Read(Settled(e)) => ReadSettlementKeeps(cfg, s, e);
      case CatchUp(order) => CatchUpKeeps(cfg, s, order);
      case Start(suffix, now) => StartKeeps(cfg, s, suffix, now);
      case MarkProcessing(now) => MarkProcessingKeeps(cfg, s, now);
      case Complete(i, now) => CompleteKeeps(cfg, s, i, now);
      case Crash => CrashKeeps(cfg, s);
    }
  }

  /** The invariant holds in every state of every run, however often it crashes. */
  lemma {:induction false} RunKeeps(cfg: Config, states: seq<System>, steps: seq<Step>, n: nat)
    requires cfg.size > 0 && Run(cfg, states, steps) && n < |states|
    ensures Inv(cfg, states[n])
  {
    if n == 0 {
      InitialOk(cfg);
    } else {
      RunKeeps(cfg, states, steps, n - 1);
      StepKeeps(cfg, states[n - 1], steps[n - 1]);
    }
  }
}
