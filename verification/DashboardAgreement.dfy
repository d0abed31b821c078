/** The dashboard's projection agrees with what the settlement service holds. */
module DashboardAgreement {
  import opened Collections
  import opened BatchIds
  import opened Settlement
  import opened SettlementService
  import opened Replay
  import opened SettlementRuns
  import opened SettlementSafety
  import opened SettlementTheorems
  import opened Dashboard

  // ---------- Rows of batches ----------

  ghost predicate StoryOk(cfg: Config, log: seq<Message>) {
    && (forall b :: HistoryOk(cfg, b, History(log, b)))
    && (forall b, c :: b != c ==> IdsOf(ManifestIn(log, b)) !! IdsOf(ManifestIn(log, c)))
  }

  lemma StoryBegins(cfg: Config, log: seq<Message>)
    requires StoryOk(cfg, log) && |log| > 0
    ensures StoryOk(cfg, log[..|log| - 1])
  {
    hide HistoryOk, ForKey;
    var p := log[..|log| - 1];
    forall b
      ensures HistoryOk(cfg, b, History(p, b))
      ensures ManifestIn(p, b) == [] || ManifestIn(p, b) == ManifestIn(log, b)
    {
      PrefixKeys(log, BatchKey(b));
      HistoryBegins(cfg, b, History(log, b), History(p, b));
    }
    forall b, c | b != c
      ensures IdsOf(ManifestIn(p, b)) !! IdsOf(ManifestIn(p, c))
    {
      assert IdsOf(ManifestIn(log, b)) !! IdsOf(ManifestIn(log, c));
    }
  }

  predicate ResultFor(m: Message, t: string) {
    m.Settled? && HasResult(m) && t in m.event.ids
  }

  /** Each row shows the last event of its batch. */
  ghost predicate BoardFits(board: Board, log: seq<Message>) {
    && board.taken == Assigned(log)
    && (forall b :: b in board.byBatch <==> |History(log, b)| > 0)
    && (forall b :: b in board.byBatch ==>
                      var m := History(log, b)[|History(log, b)| - 1];
                      m.Settled? && board.byBatch[b] == RowOf(m.event))
    && (forall t :: t in board.completed ==> exists m :: m in log && ResultFor(m, t))
  }

  lemma StatedIsStatus(cfg: Config, b: string, e: SettlementEvent)
    requires EventOk(cfg, b, e)
    ensures StatedStatus(e) == StatusOf(e) && RowOf(e).status == StatusOf(e)
  {
  }

  /** The news the dashboard reads next is neither stale nor a second result. */
  lemma NotSkipped(cfg: Config, log: seq<Message>, e: SettlementEvent)
    requires StoryOk(cfg, log + [Settled(e)]) && StoryOk(cfg, log) && BoardFits(BoardOf(log), log)
    ensures !Skipped(BoardOf(log), e)
  {
    hide EventOk, StatusOf, StatedStatus, BatchFrom, CoreOf, ForKey, BoardOf, RowOf, Assigned;
    var b, board := e.batchId, BoardOf(log);
    var h, h' := History(log, b), History(log + [Settled(e)], b);
    ForKeySnoc(log, Settled(e), BatchKey(b));
    assert h' == h + [Settled(e)];
    SameCore(cfg, b, h', |h|);
    StatedIsStatus(cfg, b, e);
    if b in board.byBatch {
      SameCore(cfg, b, h', |h| - 1);
      assert h'[|h| - 1] == h[|h| - 1];
      StatedIsStatus(cfg, b, h[|h| - 1].event);
    }
    forall t | t in board.completed
      ensures t !in e.ids
    {
      var m :| m in log && ResultFor(m, t);
      ResultsApart(cfg, log, e, m);
    }
  }

  /** No earlier result names a transaction of the event that comes next. */
  lemma ResultsApart(cfg: Config, log: seq<Message>, e: SettlementEvent, m: Message)
    requires StoryOk(cfg, log + [Settled(e)]) && m in log && m.Settled? && HasResult(m)
    ensures m.event.ids !! e.ids
  {
    hide EventOk, StatusOf, BatchFrom, CoreOf, ForKey;
    var log' := log + [Settled(e)];
    var b, c := e.batchId, m.event.batchId;
    var h' := History(log', b);
    ForKeySnoc(log, Settled(e), BatchKey(b));
    ForKeySnoc(log, Settled(e), BatchKey(c));
    SameCore(cfg, b, h', |h'| - 1);
    var g := History(log', c);
    assert m in History(log, c);
    var i :| 0 <= i < |History(log, c)| && History(log, c)[i] == m;
    assert g[i] == m;
    SameCore(cfg, c, g, i);
    assert b != c;
    assert h'[|h'| - 1] == Settled(e);
    assert e.ids == IdsOf(ManifestIn(log', b)) && m.event.ids == IdsOf(ManifestIn(log', c));
    assert IdsOf(ManifestIn(log', b)) !! IdsOf(ManifestIn(log', c));
  }

  lemma {:induction false} BoardFollows(cfg: Config, log: seq<Message>)
    requires StoryOk(cfg, log)
    ensures BoardFits(BoardOf(log), log)
  {
    hide StoryOk, RowOf, Skipped, ForKey, StatusOf, StatedStatus;
    if |log| == 0 {
      EmptyBoard();
      assert log == [];
    } else {
      var p, m := log[..|log| - 1], log[|log| - 1];
      StoryBegins(cfg, log);
      BoardFollows(cfg, p);
      assert log == p + [m];
      match m {
        case Captured(c) =>
          GrowByCapture(p, c);
          assert BoardFits(BoardOf(log), log);
        case Settled(e) =>
          NotSkipped(cfg, p, e);
          NextIsSound(cfg, p, e);
          BoardGrows(p, e);
      }
    }
  }

  lemma EmptyBoard()
    ensures BoardFits(BoardOf([]), [])
  {
  }

  lemma NextIsSound(cfg: Config, p: seq<Message>, e: SettlementEvent)
    requires StoryOk(cfg, p + [Settled(e)])
    ensures EventOk(cfg, e.batchId, e) && Effective(e) && StatedStatus(e) == StatusOf(e)
  {
    hide BatchFrom, CoreOf, ForKey, StatusOf, StatedStatus, EventOk, HistoryOk;
    var b := e.batchId;
    ForKeySnoc(p, Settled(e), BatchKey(b));
    var h := History(p + [Settled(e)], b);
    assert HistoryOk(cfg, b, h);
    SameCore(cfg, b, h, |h| - 1);
    assert h[|h| - 1] == Settled(e);
    EventFacts(cfg, b, e);
    StatedIsStatus(cfg, b, e);
  }

  lemma BoardGrows(p: seq<Message>, e: SettlementEvent)
    requires BoardFits(BoardOf(p), p) && !Skipped(BoardOf(p), e)
    requires Effective(e) && StatedStatus(e) == StatusOf(e)
    ensures BoardFits(BoardOf(p + [Settled(e)]), p + [Settled(e)])
  {
    hide RowOf, Skipped, ForKey, StatusOf, StatedStatus, Assigned, MaxIndex, History, BoardFits;
    var log := p + [Settled(e)];
    assert log[..|p|] == p && log[|p|] == Settled(e);
    var before, board := BoardOf(p), BoardOf(log);
    assert board.byBatch == before.byBatch[e.batchId := RowOf(e)] && board.taken == before.taken + e.ids;
    assert board.completed == if Terminal(StatusOf(e)) then before.completed + e.ids else before.completed;
    FitsGrows(before, board, p, e);
  }

  lemma FitsGrows(before: Board, board: Board, p: seq<Message>, e: SettlementEvent)
    requires BoardFits(before, p) && Effective(e)
    requires board.byBatch == before.byBatch[e.batchId := RowOf(e)] && board.taken == before.taken + e.ids
    requires board.completed == if Terminal(StatusOf(e)) then before.completed + e.ids else before.completed
    ensures BoardFits(board, p + [Settled(e)])
  {
    hide RowOf, StatusOf, Assigned, MaxIndex, History, ForKey, ResultFor, Effective;
    var log := p + [Settled(e)];
    GrowBySettlement(p, e);
    CompletedGrows(p, e, before.completed);
    forall b
      ensures b in board.byBatch <==> |History(log, b)| > 0
      ensures b in board.byBatch ==> var m := History(log, b)[|History(log, b)| - 1];
                                     m.Settled? && board.byBatch[b] == RowOf(m.event)
    {
      RowGrows(before, board, p, e, b);
    }
  }

  lemma RowGrows(before: Board, board: Board, p: seq<Message>, e: SettlementEvent, b: string)
    requires BoardFits(before, p) && board.byBatch == before.byBatch[e.batchId := RowOf(e)]
    ensures var h := History(p + [Settled(e)], b);
            && (b in board.byBatch <==> |h| > 0)
            && (b in board.byBatch ==> h[|h| - 1].Settled? && board.byBatch[b] == RowOf(h[|h| - 1].event))
  {
    hide RowOf, Assigned, ForKey, ResultFor;
    ForKeySnoc(p, Settled(e), BatchKey(b));
  }

  lemma CompletedGrows(p: seq<Message>, e: SettlementEvent, completed: set<string>)
    requires forall t :: t in completed ==> exists m :: m in p && ResultFor(m, t)
    ensures var completed' := if Terminal(StatusOf(e)) then completed + e.ids else completed;
            forall t :: t in completed' ==> exists m :: m in p + [Settled(e)] && ResultFor(m, t)
  {
    hide StatusOf;
    var completed' := if Terminal(StatusOf(e)) then completed + e.ids else completed;
    forall t | t in completed'
      ensures exists m :: m in p + [Settled(e)] && ResultFor(m, t)
    {
      if t in completed {
        var m :| m in p && ResultFor(m, t);
        assert m in p + [Settled(e)];
      } else {
        assert ResultFor(Settled(e), t);
      }
    }
  }

  predicate RowShows(r: Row, x: SettlementBatch) {
    && r.batchId == x.batchId && r.ids == x.ids && r.manifest == x.manifest && r.count == x.count
    && r.captured == x.total && r.settled == x.settled && r.failed == x.failed && r.status == x.status
  }

  lemma RowShowsBatch(cfg: Config, b: string, e: SettlementEvent)
    requires EventOk(cfg, b, e)
    ensures RowShows(RowOf(e), BatchFrom(e))
  {
    hide OutcomeOf, TotalOf;
  }

  lemma LogOkSame(cfg: Config, log1: seq<Message>, log2: seq<Message>)
    requires SamePerKey(log1, log2) && LogOk(cfg, log1)
    ensures LogOk(cfg, log2) && StoryOk(cfg, log2)
  {
    hide ForKey, HistoryOk, FirstFinal;
    forall b
      ensures History(log2, b) == History(log1, b) && HistoryOk(cfg, b, History(log2, b))
    {
      assert ForKey(log1, BatchKey(b)) == ForKey(log2, BatchKey(b));
    }
    forall t
      ensures FirstOf(log2, t) == FirstOf(log1, t)
    {
      assert ForKey(log1, TransactionKey(t)) == ForKey(log2, TransactionKey(t));
    }
    assert forall b :: ManifestIn(log2, b) == ManifestIn(log1, b);
    forall b, c | b != c
      ensures IdsOf(ManifestIn(log2, b)) !! IdsOf(ManifestIn(log2, c))
    {
      assert IdsOf(ManifestIn(log1, b)) !! IdsOf(ManifestIn(log1, c));
    }
  }

  /**
   In any order the dashboard may see the events of a run, its batch rows are the batches a
   replay gives: the same ids with the same transactions, status and amounts.
   */
  lemma RowsAreBatches(cfg: Config, states: seq<System>, steps: seq<Step>, n: nat, log: seq<Message>)
    requires cfg.size > 0 && Run(cfg, states, steps) && n < |states| && SamePerKey(states[n].log, log)
    ensures var board, batches := BoardOf(log), Replayed(log).batches;
            && board.byBatch.Keys == batches.Keys && board.taken == Assigned(log)
            && forall b :: b in batches ==> RowShows(board.byBatch[b], batches[b])
  {
    hide Run, ForKey, Replayed, BoardOf, RowShows, LogOk, StoryOk;
    RunKeeps(cfg, states, steps, n);
    LogOkSame(cfg, states[n].log, log);
    BoardFollows(cfg, log);
    forall b
      ensures b in BoardOf(log).byBatch <==> b in Replayed(log).batches
      ensures b in Replayed(log).batches ==> RowShows(BoardOf(log).byBatch[b], Replayed(log).batches[b])
    {
      RowIsBatch(cfg, log, b);
    }
  }

  lemma RowIsBatch(cfg: Config, log: seq<Message>, b: string)
    requires StoryOk(cfg, log) && BoardFits(BoardOf(log), log)
    ensures b in BoardOf(log).byBatch <==> b in Replayed(log).batches
    ensures b in Replayed(log).batches ==> RowShows(BoardOf(log).byBatch[b], Replayed(log).batches[b])
  {
    hide ForKey, Replayed, BoardOf, RowShows, RowOf, EventOk, BatchFrom, CoreOf, StatusOf, Winner;
    var h := History(log, b);
    ReplayedBatches(log, b);
    assert HistoryOk(cfg, b, h);
    if |h| > 0 {
      WinnerIsLast(cfg, b, h);
      SameCore(cfg, b, h, |h| - 1);
      NamedBatch(cfg, b, h[|h| - 1].event);
      RowShowsBatch(cfg, b, h[|h| - 1].event);
    } else {
      assert BatchIn(log, b) == None;
    }
  }

  // ---------- Captures that wait ----------

  function TransactionsOf(items: seq<CapturedPayment>): seq<string> {
    seq(|items|, i requires 0 <= i < |items| => items[i].transactionId)
  }

  lemma TransactionsSnoc(items: seq<CapturedPayment>, x: CapturedPayment)
    ensures TransactionsOf(items + [x]) == TransactionsOf(items) + [x.transactionId]
  {
  }

  /**
   For any log: the dashboard lists the waiting transactions in the order of their first
   captures, as the batcher does, whether or not captures were delivered again.
   */
  lemma {:induction false} WaitingOrder(log: seq<Message>, taken: set<string>)
    ensures WaitingIn(log, taken).order == TransactionsOf(Without(FirstCaptures(log), taken + {""}))
  {
    if |log| == 0 {
    } else {
      var p, m := log[..|log| - 1], log[|log| - 1];
      WaitingOrder(p, taken);
      if m.Captured? && Final(m.capture) {
        WaitingStep(p, m.capture, taken);
      }
    }
  }

  lemma WaitingStep(p: seq<Message>, c: CaptureEvent, taken: set<string>)
    requires WaitingIn(p, taken).order == TransactionsOf(Without(FirstCaptures(p), taken + {""}))
    requires Final(c)
    ensures var first := FirstCaptures(p);
            var first' := if c.transactionId in IdsOf(first) then first else first + [PaymentOf(c)];
            (if Waits(Captured(c), taken) then Noted(WaitingIn(p, taken), c) else WaitingIn(p, taken)).order ==
            TransactionsOf(Without(first', taken + {""}))
  {
    hide WaitingIn, FirstCaptures, Without, IdsOf, TransactionsOf;
    var first, a, t, x := FirstCaptures(p), taken + {""}, c.transactionId, PaymentOf(c);
    WithoutSnoc(first, x, a);
    TransactionsSnoc(Without(first, a), x);
    if t !in a {
      WithoutKeeps(first, a, t);
      NamedIn(Without(first, a), t);
    }
  }

  lemma NamedIn(items: seq<CapturedPayment>, t: string)
    ensures t in TransactionsOf(items) <==> t in IdsOf(items)
  {
    if t in IdsOf(items) {
      var y :| y in items && y.transactionId == t;
      var i :| 0 <= i < |items| && items[i] == y;
      assert TransactionsOf(items)[i] == t;
    }
    if t in TransactionsOf(items) {
      var i :| 0 <= i < |items| && TransactionsOf(items)[i] == t;
      assert items[i] in items;
    }
  }

  /** The last final capture in the messages of one transaction. */
  function LastFinal(history: seq<Message>): Option<CapturedPayment> {
    if |history| == 0 then None
    else
      var m := history[|history| - 1];
      if m.Captured? && Final(m.capture) then Some(PaymentOf(m.capture)) else LastFinal(history[..|history| - 1])
  }

  function LastOf(log: seq<Message>, t: string): Option<CapturedPayment> {
    LastFinal(ForKey(log, TransactionKey(t)))
  }

  /**
   The dashboard shows a waiting transaction with the amount of its last delivery, the
   batcher queues it with that of its first.
   */
  lemma {:induction false} WaitingAmount(log: seq<Message>, taken: set<string>, t: string)
    ensures t in WaitingIn(log, taken).latest <==> LastOf(log, t).Some? && t != "" && t !in taken
    ensures t in WaitingIn(log, taken).latest ==> AmountAt(WaitingIn(log, taken), t) == LastOf(log, t).value.amount
  {
    if |log| == 0 {
    } else {
      var p, m := log[..|log| - 1], log[|log| - 1];
      WaitingAmount(p, taken, t);
      PrefixKeys(log, TransactionKey(t));
      var h := ForKey(p, TransactionKey(t));
      assert (h + [m])[..|h|] == h;
    }
  }

  /** A waiting transaction shows the queued amount if and only if its first and last captures carry one amount. */
  lemma ShownAsQueuedIff(log: seq<Message>, taken: set<string>, x: CapturedPayment)
    requires FirstOf(log, x.transactionId) == Some(x) && x.transactionId in WaitingIn(log, taken).latest
    ensures LastOf(log, x.transactionId).Some?
    ensures AmountAt(WaitingIn(log, taken), x.transactionId) == x.amount <==>
            FirstOf(log, x.transactionId).value.amount == LastOf(log, x.transactionId).value.amount
  {
    hide WaitingIn, FirstFinal, ForKey, LastFinal;
    WaitingAmount(log, taken, x.transactionId);
  }

  /** How far the last capture of a transaction is from the amount it is queued with. */
  function Drift(log: seq<Message>): CapturedPayment -> real {
    (x: CapturedPayment) =>
      if LastOf(log, x.transactionId).Some? then LastOf(log, x.transactionId).value.amount - x.amount else 0.0
  }

  function DriftOf(log: seq<Message>, items: seq<CapturedPayment>): real {
    SumBy(Drift(log), items)
  }

  ghost predicate AllWait(w: Waiting, items: seq<CapturedPayment>) {
    forall x :: x in items ==> x.transactionId in w.latest
  }

  lemma NamedWait(w: Waiting, items: seq<CapturedPayment>)
    requires AllWait(w, items)
    ensures forall t :: t in TransactionsOf(items) ==> t in w.latest
  {
    forall t | t in TransactionsOf(items)
      ensures t in w.latest
    {
      var i :| 0 <= i < |items| && TransactionsOf(items)[i] == t;
      assert items[i] in items;
    }
  }

  /** For any log: what rows of waiting transactions add up to is the queued amounts and their drift. */
  lemma {:induction false} AmountsDrift(log: seq<Message>, taken: set<string>, items: seq<CapturedPayment>)
    requires AllWait(WaitingIn(log, taken), items)
    ensures forall t :: t in TransactionsOf(items) ==> t in WaitingIn(log, taken).latest
    ensures AmountOf(WaitingIn(log, taken), TransactionsOf(items)) == TotalOf(items) + DriftOf(log, items)
  {
    hide WaitingIn, LastOf;
    var w := WaitingIn(log, taken);
    NamedWait(w, items);
    if |items| == 0 {
    } else {
      var p, x := items[..|items| - 1], items[|items| - 1];
      assert items == p + [x] && x in items;
      AmountsDrift(log, taken, p);
      WaitingAmount(log, taken, x.transactionId);
      assert TransactionsOf(items)[..|p|] == TransactionsOf(p);
    }
  }

  /** A capture delivered again with another amount: the dashboard shows the later, the batcher queues the earlier. */
  lemma RedeliveryShifts(c: CaptureEvent, d: CaptureEvent)
    requires Final(c) && Final(d) && c.transactionId == d.transactionId != ""
    requires PaymentOf(c).amount != PaymentOf(d).amount
    ensures var log, t := [Captured(c), Captured(d)], c.transactionId;
            && Replayed(log).pending == [PaymentOf(c)]
            && t in WaitingIn(log, {}).latest && AmountAt(WaitingIn(log, {}), t) == PaymentOf(d).amount
            && DriftOf(log, Replayed(log).pending) != 0.0
  {
    var log, t := [Captured(c), Captured(d)], c.transactionId;
    assert log[..1] == [Captured(c)] && [Captured(c)][..0] == [];
    QueuedOnce(c, d);
    assert ForKey([Captured(c)], TransactionKey(t)) == [Captured(c)];
    assert ForKey(log, TransactionKey(t)) == [Captured(c), Captured(d)];
    assert LastOf(log, t) == Some(PaymentOf(d));
    WaitingAmount(log, {}, t);
    assert [PaymentOf(c)][..0] == [];
    assert DriftOf(log, [PaymentOf(c)]) == SumBy(Drift(log), []) + Drift(log)(PaymentOf(c));
  }

  lemma QueuedOnce(c: CaptureEvent, d: CaptureEvent)
    requires Final(c) && c.transactionId == d.transactionId
    ensures Replayed([Captured(c), Captured(d)]).pending == [PaymentOf(c)]
  {
    var log := [Captured(c), Captured(d)];
    assert log[..1] == [Captured(c)] && [Captured(c)][..0] == [];
    assert Replayed([Captured(c)]) == Enqueued(EMPTY_QUEUE, c);
    assert [] + [PaymentOf(c)] == [PaymentOf(c)];
    assert PaymentOf(c) in Enqueued(EMPTY_QUEUE, c).pending;
    assert Replayed(log) == Enqueued(Enqueued(EMPTY_QUEUE, c), d);
  }

  // ---------- Captures without a transaction id ----------

  /** The queue as the dashboard can see it: without a capture that names no transaction. */
  function Listed(q: Queue): Queue {
    q.(pending := Without(q.pending, {""}))
  }

  /** A capture that names no transaction is queued but not shown. */
  lemma NamelessHidden(c: CaptureEvent)
    requires Final(c) && c.transactionId == ""
    ensures Replayed([Captured(c)]).pending == [PaymentOf(c)] && WaitingIn([Captured(c)], {}).order == []
  {
    assert [Captured(c)][..0] == [];
    assert Replayed([Captured(c)]) == Enqueued(EMPTY_QUEUE, c);
    assert [] + [PaymentOf(c)] == [PaymentOf(c)];
  }

  lemma {:induction false} WithoutShorter(items: seq<CapturedPayment>, a: set<string>)
    ensures |Without(items, a)| <= |items|
    ensures |Without(items, a)| == |items| <==> forall x :: x in items ==> x.transactionId !in a
  {
    if |items| == 0 {
    } else {
      WithoutShorter(items[..|items| - 1], a);
      assert items == items[..|items| - 1] + [items[|items| - 1]];
    }
  }

  /** The dashboard lists the whole queue if and only if nothing nameless waits in it. */
  lemma ListedWholeIff(q: Queue)
    ensures TransactionsOf(Listed(q).pending) == TransactionsOf(q.pending) <==> "" !in IdsOf(q.pending)
  {
    WithoutShorter(q.pending, {""});
    if "" !in IdsOf(q.pending) {
      WithoutNothing(q.pending, {""});
    }
  }

  /** Whether a capture that names no transaction waits, told by the log. */
  predicate NamelessWaits(log: seq<Message>) {
    FirstOf(log, "").Some? && "" !in Assigned(log)
  }

  lemma NamelessPending(log: seq<Message>)
    requires Covered(log)
    ensures "" in IdsOf(Replayed(log).pending) <==> NamelessWaits(log)
  {
    hide Replayed, FirstFinal, ForKey, Assigned, Covered;
    ReplayedPendingExact(log);
    FirstFinalId(ForKey(log, TransactionKey("")), "");
    if "" in IdsOf(Replayed(log).pending) {
      var x :| x in Replayed(log).pending && x.transactionId == "";
    }
    if NamelessWaits(log) {
      assert FirstOf(log, "").value in Replayed(log).pending;
    }
  }

  /** What waits in the queue and is not shown. */
  function NamelessAmount(log: seq<Message>): real {
    if NamelessWaits(log) then FirstOf(log, "").value.amount else 0.0
  }

  lemma {:induction false} WithoutConcat(x: seq<CapturedPayment>, y: seq<CapturedPayment>, a: set<string>)
    ensures Without(x + y, a) == Without(x, a) + Without(y, a)
  {
    if |y| == 0 {
      assert x + y == x;
    } else {
      assert (x + y)[..|x + y| - 1] == x + y[..|y| - 1];
      WithoutConcat(x, y[..|y| - 1], a);
    }
  }

  lemma AllNamed(items: seq<CapturedPayment>)
    requires forall i :: 0 <= i < |items| ==> items[i].transactionId != ""
    ensures Without(items, {""}) == items
  {
    forall x | x in items
      ensures x.transactionId !in {""}
    {
      var i :| 0 <= i < |items| && items[i] == x;
    }
    WithoutNothing(items, {""});
  }

  lemma OthersNamed(items: seq<CapturedPayment>, p: nat)
    requires DistinctIds(items) && p < |items| && items[p].transactionId == ""
    ensures forall i :: 0 <= i < |items| && i != p ==> items[i].transactionId != ""
  {
  }

  /** The listed queue is the queue but for the capture that names no transaction. */
  lemma WithoutOne(items: seq<CapturedPayment>, p: nat)
    requires DistinctIds(items) && p < |items| && items[p].transactionId == ""
    ensures Without(items, {""}) == items[..p] + items[p + 1..]
  {
    hide Without, DistinctIds;
    OthersNamed(items, p);
    var l, r := items[..p], items[p + 1..];
    assert items == l + ([items[p]] + r);
    WithoutConcat(l, [items[p]] + r, {""});
    WithoutConcat([items[p]], r, {""});
    NoneLeft([items[p]], {""});
    AllNamed(l);
    AllNamed(r);
  }

  lemma ListedTotal(items: seq<CapturedPayment>, x: CapturedPayment)
    requires DistinctIds(items) && x in items && x.transactionId == ""
    ensures TotalOf(items) == TotalOf(Without(items, {""})) + x.amount
  {
    hide Without, SumBy, DistinctIds;
    var p :| 0 <= p < |items| && items[p] == x;
    WithoutOne(items, p);
    SumByRemove(Amount, items, p);
  }

  lemma QueueTotal(log: seq<Message>)
    requires Covered(log)
    ensures var q := Replayed(log); TotalOf(q.pending) == TotalOf(Listed(q).pending) + NamelessAmount(log)
  {
    hide Replayed, FirstFinal, ForKey, Assigned, Covered, SumBy;
    var q := Replayed(log);
    ReplayedPendingExact(log);
    NamelessPending(log);
    FirstFinalId(ForKey(log, TransactionKey("")), "");
    if NamelessWaits(log) {
      ListedTotal(q.pending, FirstOf(log, "").value);
    } else {
      WithoutNothing(q.pending, {""});
    }
  }

  // ---------- Ready rows are the next batches ----------

  /** The queue after `create_batch` cut k batches of the dashboard's size. */
  function CutTimes(q: Queue, k: nat, suffix: nat -> string, now: string): (r: Queue)
    requires CHUNK * k <= |q.pending|
    ensures r.pending == q.pending[CHUNK * k..] && r.sequence == q.sequence + k
  {
    if k == 0 then q
    else
      var r := CutTimes(q, k - 1, suffix, now);
      assert r.pending[CHUNK..] == q.pending[CHUNK * k..];
      Cut(r, CHUNK, suffix(k - 1), now)
  }

  lemma NextOfCutTimes(q: Queue, k: nat, suffix: nat -> string, now: string)
    requires CHUNK * (k + 1) <= |q.pending|
    ensures var b := NextBatch(CutTimes(q, k, suffix, now), CHUNK, suffix(k), now);
            && b.manifest == q.pending[CHUNK * k..CHUNK * (k + 1)]
            && b.total == TotalOf(b.manifest) && MatchIndex(b.batchId) == Some(q.sequence + k + 1)
  {
    hide MatchIndex, BatchId, TotalOf, IdsOf, DateOf, CutTimes;
    BatchIdRoundTrip(q.sequence + k + 1, suffix(k));
    var r := CutTimes(q, k, suffix, now);
    assert r.pending[..CHUNK] == q.pending[CHUNK * k..CHUNK * (k + 1)];
  }

  lemma ChunkAmount(log: seq<Message>, w: Waiting, pending: seq<CapturedPayment>, k: nat)
    requires w == WaitingIn(log, Assigned(log)) && w.order == TransactionsOf(pending)
    requires CHUNK * (k + 1) <= |pending|
    ensures var items := pending[CHUNK * k..CHUNK * (k + 1)];
            ChunkOf(w.order, k) == TransactionsOf(items)
            && AllWait(w, items) && AmountOf(w, TransactionsOf(items)) == TotalOf(items) + DriftOf(log, items)
  {
    hide WaitingIn, AmountOf, Assigned, TotalOf, DriftOf;
    var items := pending[CHUNK * k..CHUNK * (k + 1)];
    forall x | x in items
      ensures x.transactionId in w.latest
    {
      var i :| 0 <= i < |items| && items[i] == x;
      assert w.order[CHUNK * k + i] == x.transactionId;
    }
    AmountsDrift(log, Assigned(log), items);
  }

  /**
   With batches of 100, for a listed queue, the rows of waiting captures are: one ready row for
   each batch that repeated `create_batch` would cut next, with its number and transactions and
   its total plus the drift of its redelivered amounts; and then one collecting row with the rest.
   */
  lemma ReadyRowsAreNextBatches(log: seq<Message>, q: Queue, k: nat, suffix: nat -> string, now: string)
    requires WaitingIn(log, Assigned(log)).order == TransactionsOf(q.pending)
    requires CHUNK * k <= |q.pending|
    ensures RowFits(log, q, WaitingRowAt(WaitingIn(log, Assigned(log)), q.sequence, k), k, suffix, now)
  {
    hide WaitingIn, NextBatch, AmountOf, Assigned, DriftOf, TotalOf, MatchIndex, CutTimes;
    var w := WaitingIn(log, Assigned(log));
    if CHUNK * (k + 1) <= |q.pending| {
      NextOfCutTimes(q, k, suffix, now);
      ChunkAmount(log, w, q.pending, k);
    } else {
      assert ChunkOf(w.order, k) == TransactionsOf(q.pending[CHUNK * k..]);
    }
  }

  /** What the k-th waiting row says, in terms of the queue. */
  predicate RowFits(log: seq<Message>, q: Queue, row: WaitingRow, k: nat, suffix: nat -> string, now: string)
    requires CHUNK * k <= |q.pending|
  {
    && row.number == q.sequence + 1 + k
    && (row.ready <==> CHUNK * (k + 1) <= |q.pending|)
    && (row.ready ==>
          var b := NextBatch(CutTimes(q, k, suffix, now), CHUNK, suffix(k), now);
          && row.ids == TransactionsOf(b.manifest) && MatchIndex(b.batchId) == Some(row.number)
          && row.amount == b.total + DriftOf(log, b.manifest))
    && (!row.ready ==>
          k == |q.pending| / CHUNK && row.ids == TransactionsOf(CutTimes(q, k, suffix, now).pending))
  }

  /**
   Next to the batcher's own queue: a ready row names the transactions of the batch that would
   be cut in its place if and only if no nameless capture waits up to there.
   */
  lemma RowFollowsQueueIff(q: Queue, k: nat)
    requires DistinctIds(q.pending) && CHUNK * (k + 1) <= |Listed(q).pending|
    ensures |Listed(q).pending| <= |q.pending|
    ensures var lo, hi := CHUNK * k, CHUNK * (k + 1);
            (TransactionsOf(Listed(q).pending[lo..hi]) == TransactionsOf(q.pending[lo..hi]))
            <==> "" !in IdsOf(q.pending[..hi])
  {
    hide Without, IdsOf, TransactionsOf, DistinctIds;
    WithoutShorter(q.pending, {""});
    var lo, hi := CHUNK * k, CHUNK * (k + 1);
    if p :| 0 <= p < |q.pending| && q.pending[p].transactionId == "" {
      WithoutOne(q.pending, p);
      NamelessAt(q.pending, p, hi);
      SlicesMoved(q.pending, p, lo, hi);
    } else {
      assert forall x :: x in q.pending ==> x.transactionId !in {""};
      WithoutNothing(q.pending, {""});
      NoNameless(q.pending, hi);
    }
  }

  /** Taking one item out moves all that comes after it. */
  lemma SlicesMoved(items: seq<CapturedPayment>, p: nat, lo: nat, hi: nat)
    requires DistinctIds(items) && p < |items| && lo < hi < |items|
    ensures var rest := items[..p] + items[p + 1..];
            TransactionsOf(rest[lo..hi]) == TransactionsOf(items[lo..hi]) <==> p >= hi
  {
    var rest := items[..p] + items[p + 1..];
    if p < hi {
      var i := if p < lo then lo else p;
      assert rest[i] == items[i + 1] && items[i].transactionId != items[i + 1].transactionId;
      assert TransactionsOf(rest[lo..hi])[i - lo] == items[i + 1].transactionId;
      assert TransactionsOf(items[lo..hi])[i - lo] == items[i].transactionId;
    } else {
      assert rest[lo..hi] == items[lo..hi];
    }
  }

  lemma NamelessAt(items: seq<CapturedPayment>, p: nat, n: nat)
    requires DistinctIds(items) && p < |items| && items[p].transactionId == "" && n <= |items|
    ensures "" in IdsOf(items[..n]) <==> p < n
  {
    if p < n {
      assert items[..n][p] in items[..n];
    }
    if "" in IdsOf(items[..n]) {
      var x :| x in items[..n] && x.transactionId == "";
      var i :| 0 <= i < n && items[..n][i] == x;
      assert items[i].transactionId == items[p].transactionId;
    }
  }

  lemma NoNameless(items: seq<CapturedPayment>, n: nat)
    requires n <= |items| && forall i :: 0 <= i < |items| ==> items[i].transactionId != ""
    ensures "" !in IdsOf(items[..n])
  {
    forall x | x in items[..n]
      ensures x.transactionId != ""
    {
      var i :| 0 <= i < n && items[..n][i] == x;
    }
  }

  lemma NumbersOfBatches(cfg: Config, log: seq<Message>, board: Board)
    requires LogOk(cfg, log) && BoardFits(board, log)
    ensures IsLastNumber(board.byBatch.Keys, Some(MaxIndex(log)))
    ensures forall n :: IsLastNumber(board.byBatch.Keys, Some(n)) ==> n == MaxIndex(log)
    ensures !IsLastNumber(board.byBatch.Keys, None)
  {
    hide ForKey, EventOk, HistoryOk, MaxIndex, Assigned, SplitIndex, MatchIndex, RowOf, ManifestIn, FirstOf;
    forall b | b in board.byBatch
      ensures SplitIndex(b).Some? && SplitIndex(b).value <= MaxIndex(log)
    {
      var m := History(log, b)[0];
      assert m in History(log, b);
      SameManifest(cfg, log, m);
      EventFacts(cfg, b, m.event);
      MaxIndexBounds(log, m);
    }
    if MaxIndex(log) > 0 {
      MaxIndexReached(log);
      var m :| m in log && EffectiveMessage(m) && MatchIndex(m.event.batchId) == Some(MaxIndex(log));
      SameManifest(cfg, log, m);
      EventFacts(cfg, m.event.batchId, m.event);
      assert m.event.batchId in board.byBatch;
      assert SplitIndex(m.event.batchId) == Some(MaxIndex(log));
    }
  }

  /**
   The dashboard over the events of a run, in any order it may see them, never fails, and its
   numbering and waiting list are those of the replayed batcher, but for a capture that names
   no transaction: the list is the whole queue if and only if none of those waits.
   */
  lemma WaitingIsPending(cfg: Config, states: seq<System>, steps: seq<Step>, n: nat, log: seq<Message>)
    requires cfg.size > 0 && Run(cfg, states, steps) && n < |states| && SamePerKey(states[n].log, log)
    ensures var q, board := Replayed(log), BoardOf(log);
            && board.taken == Assigned(log)
            && WaitingIn(log, board.taken).order == TransactionsOf(Listed(q).pending)
            && (WaitingIn(log, board.taken).order == TransactionsOf(q.pending) <==>
                FirstOf(log, "") == None || "" in Assigned(log))
            && !IsLastNumber(board.byBatch.Keys, None)
            && (forall last :: IsLastNumber(board.byBatch.Keys, Some(last)) <==> last == q.sequence)
  {
    hide Run, ForKey, Replayed, BoardOf, LogOk, StoryOk, Assigned, MaxIndex, FirstFinal, Without, IdsOf;
    RunKeeps(cfg, states, steps, n);
    LogOkSame(cfg, states[n].log, log);
    BoardFollows(cfg, log);
    NumbersOfBatches(cfg, log, BoardOf(log));
    ReplayedSequence(log);
    RunCovered(cfg, log);
    ReplayedPending(log);
    WaitingOrder(log, Assigned(log));
    WithoutTwice(FirstCaptures(log), Assigned(log), {""});
    ListedWholeIff(Replayed(log));
    NamelessPending(log);
  }

  // ---------- The whole answer ----------

  /** The rows that the dashboard shows of the batches are the replayed batches, each once, sorted by id. */
  ghost predicate ShowsBatches(rows: seq<Row>, batches: map<string, SettlementBatch>) {
    && (forall i, j :: 0 <= i < j < |rows| ==> TextBefore(rows[i].batchId, rows[j].batchId))
    && (forall r :: r in rows ==> r.batchId in batches && RowShows(r, batches[r.batchId]))
    && (forall b :: b in batches ==> exists r :: r in rows && r.batchId == b)
  }

  /** A ready row for each full batch that waits, and then exactly one collecting row. */
  ghost predicate ShowsWaiting(log: seq<Message>, q: Queue, waiting: seq<WaitingRow>, suffix: nat -> string,
                               now: string)
  {
    && |waiting| == |q.pending| / CHUNK + 1
    && (forall k :: 0 <= k < |waiting| ==> (waiting[k].ready <==> k < |waiting| - 1))
    && (forall k :: 0 <= k < |waiting| ==> RowFits(log, q, waiting[k], k, suffix, now))
  }

  lemma ShowsBatchesOf(byBatch: map<string, Row>, rows: seq<Row>, batches: map<string, SettlementBatch>)
    requires Keyed(byBatch) && InRowOrder(byBatch, rows) && byBatch.Keys == batches.Keys
    requires forall b :: b in batches ==> RowShows(byBatch[b], batches[b])
    ensures ShowsBatches(rows, batches)
  {
    hide RowShows, TextBefore;
    forall b | b in batches
      ensures exists r :: r in rows && r.batchId == b
    {
      assert b in byBatch && byBatch[b] in rows;
    }
  }

  /**
   Over any run, in any order the dashboard sees its events, what `SettlementRows` returns is: the
   replayed batches sorted by id; a ready row for each batch that would be cut next from the
   listed queue, numbered on from the last batch; and exactly one collecting row with the rest.
   */
  lemma AnswerOfRun(cfg: Config, states: seq<System>, steps: seq<Step>, n: nat, log: seq<Message>,
                    rows: seq<Row>, waiting: seq<WaitingRow>, ok: bool, suffix: nat -> string, now: string)
    requires cfg.size > 0 && Run(cfg, states, steps) && n < |states| && SamePerKey(states[n].log, log)
    requires ShowsRows(log, rows, waiting, ok)
    ensures ok && ShowsBatches(rows, Replayed(log).batches)
    ensures ShowsWaiting(log, Listed(Replayed(log)), waiting, suffix, now)
  {
    hide Run, Replayed, BoardOf, WaitingIn, Assigned, InRowOrder, RowShows, RowFits, IsLastNumber, WaitingRowAt;
    hide Without;
    hide SamePerKey, FirstOf;
    WaitingIsPending(cfg, states, steps, n, log);
    RowsAreBatches(cfg, states, steps, n, log);
    ShowsBatchesOf(BoardOf(log).byBatch, rows, Replayed(log).batches);
    var q := Listed(Replayed(log));
    forall k | 0 <= k < |waiting|
      ensures CHUNK * k <= |q.pending|
      ensures RowFits(log, q, waiting[k], k, suffix, now) && (waiting[k].ready <==> k < |waiting| - 1)
    {
      ReadyRowsAreNextBatches(log, q, k, suffix, now);
      ReadyIff(log, q, waiting[k], k, suffix, now);
    }
  }

  lemma ReadyIff(log: seq<Message>, q: Queue, row: WaitingRow, k: nat, suffix: nat -> string, now: string)
    requires CHUNK * k <= |q.pending| && RowFits(log, q, row, k, suffix, now)
    ensures row.ready <==> k < |q.pending| / CHUNK
  {
  }

  lemma ManifestCovered(cfg: Config, log: seq<Message>, b: string, t: string)
    requires HistoryOk(cfg, b, History(log, b)) && t in IdsOf(ManifestIn(log, b))
    ensures Settles(log, t)
  {
    hide ForKey, Replayed, EventOk, BatchFrom, CoreOf, StatusOf, Winner, HistoryOk;
    var h := History(log, b);
    WinnerIsLast(cfg, b, h);
    SameCore(cfg, b, h, |h| - 1);
    NamedBatch(cfg, b, h[|h| - 1].event);
    EventFacts(cfg, b, h[|h| - 1].event);
    assert BatchIn(log, b).value.ids == IdsOf(ManifestIn(log, b));
  }

  lemma RunCovered(cfg: Config, log: seq<Message>)
    requires LogOk(cfg, log)
    ensures Covered(log)
  {
    hide ForKey, Replayed, Assigned, FirstFinal, HistoryOk, ManifestIn, Settles;
    forall t | t in Assigned(log) && FirstOf(log, t).Some?
      ensures Settles(log, t)
    {
      AssignedByManifests(cfg, log, t);
      var b :| t in IdsOf(ManifestIn(log, b));
      ManifestCovered(cfg, log, b, t);
    }
  }

  // ---------- Totals ----------

  /** The overview's settled and at-risk amounts are those of the batches themselves. */
  lemma {:induction false} OverviewTotals(byBatch: map<string, Row>, batches: map<string, SettlementBatch>,
                                          order: seq<string>, cfg: Config)
    requires forall b :: b in order ==> b in byBatch && b in batches
    requires forall b :: b in order ==> RowShows(byBatch[b], batches[b]) && BatchOk(cfg, b, batches[b])
    ensures AmountSettled(byBatch, order) == SumSettled(batches, order)
    ensures SettlementAtRisk(byBatch, order) == SumFailed(batches, order)
  {
    hide OutcomeOf, TotalOf, Numbered;
    if |order| == 0 {
    } else {
      OverviewTotals(byBatch, batches, order[..|order| - 1], cfg);
      assert order[|order| - 1] in order;
    }
  }

  /**
   For a live service that has read everything: what was captured is what the overview shows as
   settled and as at risk, the totals of the batches still on their way and the amounts of the
   waiting rows, less their drift, and a nameless capture that waits. So the overview accounts
   for the captures in full if and only if the drift is the nameless amount, and in particular
   where no redelivery changed an amount and nothing nameless waits.
   */
  lemma OverviewAccountsForCaptures(cfg: Config, states: seq<System>, steps: seq<Step>, n: nat, order: seq<string>)
    requires cfg.size > 0 && Run(cfg, states, steps) && n < |states|
    requires states[n].live && SamePerKey(states[n].seen, states[n].log)
    requires Distinct(order) && forall b :: b in order <==> b in states[n].queue.batches
    ensures var s, board := states[n], BoardOf(states[n].log);
            var w := WaitingIn(s.log, board.taken);
            && HasRows(board.byBatch, order)
            && var shown := AmountSettled(board.byBatch, order) + SettlementAtRisk(board.byBatch, order)
                            + SumOpen(s.queue.batches, order) + AmountOf(w, w.order);
               var drift := DriftOf(s.log, Listed(Replayed(s.log)).pending);
               && TotalOf(FirstCaptures(s.seen)) == shown - drift + NamelessAmount(s.log)
               && (TotalOf(FirstCaptures(s.seen)) == shown <==> drift == NamelessAmount(s.log))
  {
    hide Run, ForKey, Replayed, BoardOf, LogOk, BatchesOk, PendingOk, Assigned, MaxIndex, FirstFinal, SumOpen, FirstOf;
    hide AmountSettled, SettlementAtRisk, SumSettled, SumFailed, AmountOf, WaitingIn, FirstCaptures, SumBy, Covered;
    hide NamelessAmount, Drift, Listed;
    var s := states[n];
    RunKeeps(cfg, states, steps, n);
    MoneyPartition(cfg, s, order);
    LiveIsReplayed(cfg, s);
    SamePerKeyReflexive(s.log);
    BoardTotals(cfg, states, steps, n, order);
    WaitingIsPending(cfg, states, steps, n, s.log);
    ListedAmounts(s.log, BoardOf(s.log).taken, Listed(Replayed(s.log)).pending);
    QueueTotal(s.log);
    SumByPermutation(Amount, s.queue.pending, Replayed(s.log).pending);
  }

  lemma BoardTotals(cfg: Config, states: seq<System>, steps: seq<Step>, n: nat, order: seq<string>)
    requires cfg.size > 0 && Run(cfg, states, steps) && n < |states|
    requires states[n].live && SamePerKey(states[n].seen, states[n].log)
    requires forall b :: b in order ==> b in states[n].queue.batches
    ensures var board := BoardOf(states[n].log);
            && HasRows(board.byBatch, order)
            && AmountSettled(board.byBatch, order) == SumSettled(states[n].queue.batches, order)
            && SettlementAtRisk(board.byBatch, order) == SumFailed(states[n].queue.batches, order)
  {
    hide Run, ForKey, Replayed, BoardOf, LogOk, BatchesOk, PendingOk, MaxIndex, FirstFinal;
    hide AmountSettled, SettlementAtRisk, SumSettled, SumFailed, Covered;
    var s, board := states[n], BoardOf(states[n].log);
    RunKeeps(cfg, states, steps, n);
    LiveIsReplayed(cfg, s);
    SamePerKeyReflexive(s.log);
    RowsAreBatches(cfg, states, steps, n, s.log);
    forall b | b in order
      ensures b in board.byBatch && RowShows(board.byBatch[b], s.queue.batches[b])
      ensures BatchOk(cfg, b, s.queue.batches[b])
    {
      BatchManifest(cfg, s, b);
      assert RowShows(board.byBatch[b], Replayed(s.log).batches[b]);
      assert WithoutRca(s.queue.batches[b]) == Replayed(s.log).batches[b];
    }
    OverviewTotals(board.byBatch, s.queue.batches, order, cfg);
  }

  lemma ListedAmounts(log: seq<Message>, taken: set<string>, items: seq<CapturedPayment>)
    requires WaitingIn(log, taken).order == TransactionsOf(items)
    ensures var w := WaitingIn(log, taken); AmountOf(w, w.order) == TotalOf(items) + DriftOf(log, items)
  {
    hide AmountOf, DriftOf, TotalOf;
    var w := WaitingIn(log, taken);
    forall x | x in items
      ensures x.transactionId in w.latest
    {
      var i :| 0 <= i < |items| && items[i] == x;
      assert w.order[i] == x.transactionId;
    }
    AmountsDrift(log, taken, items);
  }

  /** Where no redelivery changed an amount nothing drifts. */
  lemma {:induction false} NoDrift(log: seq<Message>, items: seq<CapturedPayment>)
    requires forall x :: x in items ==> LastOf(log, x.transactionId).Some?
                                        && LastOf(log, x.transactionId).value.amount == x.amount
    ensures DriftOf(log, items) == 0.0
  {
    hide LastOf;
    if |items| == 0 {
    } else {
      NoDrift(log, items[..|items| - 1]);
      assert items[|items| - 1] in items;
    }
  }

  /** Any captures whatever are the log of some run, so the logs above are logs of runs. */
  lemma {:induction false} CapturesRun(cfg: Config, captures: seq<CaptureEvent>)
    returns (states: seq<System>, steps: seq<Step>)
    ensures Run(cfg, states, steps) && |states| == |captures| + 1
    ensures states[|captures|].log == seq(|captures|, i requires 0 <= i < |captures| => Captured(captures[i]))
  {
    if |captures| == 0 {
      states, steps := [INITIAL], [];
    } else {
      var n := |captures| - 1;
      states, steps := CapturesRun(cfg, captures[..n]);
      var step := Capture(captures[n]);
      steps, states := steps + [step], states + [After(cfg, states[n], step)];
    }
  }

  lemma SamePerKeyReflexive(log: seq<Message>)
    ensures SamePerKey(log, log)
  {
  }
}
