/** The dashboard's own projection of the event log onto settlement rows. */
module Dashboard {
  import opened Collections
  import opened BatchIds
  import opened Settlement

  datatype Row = Row(
    batchId: string, ids: set<string>, manifest: seq<CapturedPayment>, count: nat,
    captured: real, settled: real, failed: real, pendingAmount: real, status: Status,
    rootCause: Option<RootCause>)

  /** The rows by batch, and the two sets the dashboard collects beside them. */
  datatype Board = Board(byBatch: map<string, Row>, taken: set<string>, completed: set<string>)

  /** A Python dictionary from transactions to captures: keys in the order of their first insertion. */
  datatype Waiting = Waiting(order: seq<string>, latest: map<string, CaptureEvent>)

  /** A row for captures that are in no batch yet. `number` is the batch number it is shown under. */
  datatype WaitingRow = WaitingRow(number: nat, ids: seq<string>, amount: real, ready: bool)

  const CHUNK: nat := 100

  function RowOf(e: SettlementEvent): Row {
    Row(
      e.batchId, e.ids, e.manifest, if e.count != 0 then e.count else |e.ids|,
      OrElse(e.gross, e.total), e.settled, OrElse(e.failed, e.atRisk), e.pendingAmount,
      StatedStatus(e), e.rootCause)
  }

  /** The dashboard keeps the first result of a batch; stale news never replaces it. */
  predicate Skipped(b: Board, e: SettlementEvent) {
    || (e.batchId in b.byBatch && Terminal(b.byBatch[e.batchId].status) && !Terminal(StatedStatus(e)))
    || (Terminal(StatedStatus(e)) && b.completed * e.ids != {})
  }

  function Shown(b: Board, m: Message): Board {
    if !m.Settled? || !("settlement_batch_" <= m.event.eventType) then b
    else
      var e := m.event;
      var b' := b.(taken := b.taken + e.ids);
      if Skipped(b, e) then b'
      else
        b'.(byBatch := b.byBatch[e.batchId := RowOf(e)],
            completed := if Terminal(StatedStatus(e)) then b.completed + e.ids else b.completed)
  }

  /** Each row is kept under the id it shows. */
  predicate Keyed(byBatch: map<string, Row>) {
    forall b :: b in byBatch ==> byBatch[b].batchId == b
  }

  function BoardOf(log: seq<Message>): (board: Board)
    ensures Keyed(board.byBatch)
  {
    if |log| == 0 then Board(map[], {}, {}) else Shown(BoardOf(log[..|log| - 1]), log[|log| - 1])
  }

  function Noted(w: Waiting, c: CaptureEvent): Waiting {
    Waiting(if c.transactionId in w.latest then w.order else w.order + [c.transactionId],
            w.latest[c.transactionId := c])
  }

  predicate Waits(m: Message, taken: set<string>) {
    m.Captured? && Final(m.capture) && m.capture.transactionId != "" && m.capture.transactionId !in taken
  }

  function WaitingIn(log: seq<Message>, taken: set<string>): (w: Waiting)
    ensures forall t :: t in w.order <==> t in w.latest
  {
    if |log| == 0 then Waiting([], map[])
    else
      var w := WaitingIn(log[..|log| - 1], taken);
      var m := log[|log| - 1];
      if Waits(m, taken) then Noted(w, m.capture) else w
  }

  function AmountAt(w: Waiting, t: string): real
    requires t in w.latest
  {
    OrElse(w.latest[t].capturedAmount, w.latest[t].amount)
  }

  function AmountOf(w: Waiting, ids: seq<string>): real
    requires forall t :: t in ids ==> t in w.latest
  {
    if |ids| == 0 then 0.0 else AmountOf(w, ids[..|ids| - 1]) + AmountAt(w, ids[|ids| - 1])
  }

  function ChunkOf(ids: seq<string>, k: nat): seq<string>
    requires CHUNK * k <= |ids|
  {
    ids[CHUNK * k..if CHUNK * (k + 1) <= |ids| then CHUNK * (k + 1) else |ids|]
  }

  /** The k-th row of captures that wait, if the last batch number in use is `last`. */
  function WaitingRowAt(w: Waiting, last: nat, k: nat): WaitingRow
    requires CHUNK * k <= |w.order|
    requires forall t :: t in w.order ==> t in w.latest
  {
    var ids := ChunkOf(w.order, k);
    WaitingRow(last + 1 + k, ids, AmountOf(w, ids), |ids| >= CHUNK)
  }

  method PendingSettlementCaptures(log: seq<Message>, taken: set<string>) returns (w: Waiting)
    ensures w == WaitingIn(log, taken)
  {
    var order: seq<string>, latest: map<string, CaptureEvent> := [], map[];
    for i := 0 to |log|
      invariant Waiting(order, latest) == WaitingIn(log[..i], taken)
    {
      assert log[..i + 1][..i] == log[..i];
      match log[i] {
        case Settled(_) =>
        case Captured(c) =>
          if Final(c) && c.transactionId != "" && c.transactionId !in taken {
            if c.transactionId !in latest {
              order := order + [c.transactionId];
            }
            latest := latest[c.transactionId := c];
          }
      }
    }
    assert log[..|log|] == log;
    w := Waiting(order, latest);
  }

  /** The greatest batch number among the ids; None where the dashboard raises an error. */
  ghost predicate IsLastNumber(ids: set<string>, last: Option<nat>) {
    match last
    case None => exists b :: b in ids && SplitIndex(b) == None
    case Some(n) =>
      && (forall b :: b in ids ==> SplitIndex(b).Some? && SplitIndex(b).value <= n)
      && (n == 0 || exists b :: b in ids && SplitIndex(b) == Some(n))
  }

  method LastNumber(ids: set<string>) returns (last: Option<nat>)
    ensures IsLastNumber(ids, last)
  {
    var todo, n := ids, 0;
    while todo != {}
      invariant todo <= ids
      invariant IsLastNumber(ids - todo, Some(n))
    {
      var b :| b in todo;
      match SplitIndex(b) {
        case None => return None;
        case Some(k) =>
          todo := todo - {b};
          if k > n {
            n := k;
            assert b in ids - todo && SplitIndex(b) == Some(n);
          }
      }
    }
    assert ids - todo == ids;
    last := Some(n);
  }

  // ---------- The rows ----------

  method BatchRows(log: seq<Message>) returns (board: Board)
    ensures board == BoardOf(log)
  {
    board := Board(map[], {}, {});
    for i := 0 to |log|
      invariant board == BoardOf(log[..i])
    {
      assert log[..i + 1][..i] == log[..i];
      if log[i].Settled? && "settlement_batch_" <= log[i].event.eventType {
        var e := log[i].event;
        var result := Terminal(StatedStatus(e));
        var skip := e.batchId in board.byBatch && Terminal(board.byBatch[e.batchId].status) && !result;
        if !skip && result {
          skip := board.completed * e.ids != {};
        }
        board := board.(taken := board.taken + e.ids);
        if !skip {
          board := board.(byBatch := board.byBatch[e.batchId := RowOf(e)]);
          if result {
            board := board.(completed := board.completed + e.ids);
          }
        }
      }
    }
    assert log[..|log|] == log;
  }

  /** The rows of the batches, each once, in the order of their ids as texts. */
  ghost predicate InRowOrder(byBatch: map<string, Row>, rows: seq<Row>) {
    && (forall i, j :: 0 <= i < j < |rows| ==> TextBefore(rows[i].batchId, rows[j].batchId))
    && (forall r :: r in rows <==> exists b :: b in byBatch && byBatch[b] == r)
  }

  method LeastId(ids: set<string>) returns (least: string)
    requires ids != {}
    ensures least in ids && forall b :: b in ids && b != least ==> TextBefore(least, b)
  {
    hide TextBefore;
    least :| least in ids;
    var todo := ids - {least};
    while todo != {}
      invariant todo <= ids && least in ids - todo
      invariant forall b :: b in ids - todo && b != least ==> TextBefore(least, b)
    {
      var b :| b in todo;
      todo := todo - {b};
      TextTotal(least, b);
      if TextBefore(b, least) {
        forall c | c in ids - todo && c != b
          ensures TextBefore(b, c)
        {
          if c != least {
            TextTransitive(b, least, c);
          }
        }
        least := b;
      }
    }
  }

  method SortedRows(byBatch: map<string, Row>) returns (rows: seq<Row>)
    requires Keyed(byBatch)
    ensures InRowOrder(byBatch, rows)
  {
    hide TextBefore;
    rows := [];
    var todo := byBatch.Keys;
    while todo != {}
      invariant todo <= byBatch.Keys
      invariant forall i, j :: 0 <= i < j < |rows| ==> TextBefore(rows[i].batchId, rows[j].batchId)
      invariant forall i, b :: 0 <= i < |rows| && b in todo ==> TextBefore(rows[i].batchId, b)
      invariant forall r :: r in rows <==> exists b :: b in byBatch.Keys - todo && byBatch[b] == r
    {
      var b := LeastId(todo);
      rows := rows + [byBatch[b]];
      todo := todo - {b};
    }
  }

  method WaitingRows(w: Waiting, last: nat) returns (waiting: seq<WaitingRow>)
    requires forall t :: t in w.order ==> t in w.latest
    ensures |waiting| == |w.order| / 100 + 1
    ensures forall k :: 0 <= k < |waiting| ==> waiting[k] == WaitingRowAt(w, last, k)
  {
    waiting := [];
    var start := 0;
    while start <= |w.order|
      invariant start == CHUNK * |waiting|
      invariant |waiting| <= |w.order| / CHUNK + 1
      invariant forall k :: 0 <= k < |waiting| ==> waiting[k] == WaitingRowAt(w, last, k)
    {
      var stop := if start + CHUNK <= |w.order| then start + CHUNK else |w.order|;
      var visible := w.order[start..stop];
      assert visible == ChunkOf(w.order, |waiting|);
      var number := last + 1 + start / CHUNK;
      waiting := waiting + [WaitingRow(number, visible, AmountOf(w, visible), |visible| >= CHUNK)];
      start := start + CHUNK;
    }
  }

  /** What the dashboard returns for a log, or that it raises an error over an id without a number. */
  ghost predicate ShowsRows(log: seq<Message>, rows: seq<Row>, waiting: seq<WaitingRow>, ok: bool) {
    var board := BoardOf(log);
    && InRowOrder(board.byBatch, rows)
    && (!ok ==> IsLastNumber(board.byBatch.Keys, None))
    && (ok ==>
          var w := WaitingIn(log, board.taken);
          && |waiting| == |w.order| / 100 + 1
          && exists last :: IsLastNumber(board.byBatch.Keys, Some(last)) &&
                            forall k :: 0 <= k < |waiting| ==> waiting[k] == WaitingRowAt(w, last, k))
  }

  method SettlementRows(log: seq<Message>) returns (rows: seq<Row>, waiting: seq<WaitingRow>, ok: bool)
    ensures ShowsRows(log, rows, waiting, ok)
  {
    hide BoardOf, WaitingIn, WaitingRowAt, InRowOrder, IsLastNumber;
    var board := BatchRows(log);
    rows := SortedRows(board.byBatch);
    waiting := [];
    var w := PendingSettlementCaptures(log, board.taken);
    var last := LastNumber(board.byBatch.Keys);
    ok := last.Some?;
    if ok {
      waiting := WaitingRows(w, last.value);
    }
  }

  // ---------- Totals of the overview ----------

  predicate HasRows(byBatch: map<string, Row>, order: seq<string>) {
    forall b :: b in order ==> b in byBatch
  }

  function AmountSettled(byBatch: map<string, Row>, order: seq<string>): real
    requires HasRows(byBatch, order)
  {
    if |order| == 0 then 0.0
    else
      var r := byBatch[order[|order| - 1]];
      AmountSettled(byBatch, order[..|order| - 1]) + (if r.status == Succeeded then r.settled else 0.0)
  }

  function SettlementAtRisk(byBatch: map<string, Row>, order: seq<string>): real
    requires HasRows(byBatch, order)
  {
    if |order| == 0 then 0.0
    else
      var r := byBatch[order[|order| - 1]];
      SettlementAtRisk(byBatch, order[..|order| - 1]) + (if r.status == Failed then r.failed else 0.0)
  }
}
