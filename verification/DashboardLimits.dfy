/** Where the dashboard and the settlement service part: the order of rows, and second results. */
module DashboardLimits {
  import opened Collections
  import opened BatchIds
  import opened Settlement
  import opened Replay
  import opened Dashboard

  // ---------- Rows are sorted by the text of their id ----------

  lemma {:induction false} TextBeforePrefix(p: string, s: string, t: string)
    ensures TextBefore(p + s, p + t) <==> TextBefore(s, t)
  {
    if |p| == 0 {
      assert p + s == s && p + t == t;
    } else {
      assert (p + s)[1..] == p[1..] + s && (p + t)[1..] == p[1..] + t;
      TextBeforePrefix(p[1..], s, t);
    }
  }

  lemma TimesTen(x: nat, p: nat)
    ensures x * (10 * p) == 10 * (x * p)
  {
  }

  lemma {:induction false} ValueSplit(a: string, b: string)
    requires AllDigits(a) && AllDigits(b)
    ensures AllDigits(a + b) && Value(a + b) == Value(a) * Power10(|b|) + Value(b)
  {
    if |b| == 0 {
      assert a + b == a;
    } else {
      var c := b[..|b| - 1];
      assert (a + b)[..|a + b| - 1] == a + c;
      ValueSplit(a, c);
      TimesTen(Value(a), Power10(|c|));
    }
  }

  lemma {:induction false} ValueBelow(a: string)
    requires AllDigits(a)
    ensures Value(a) < Power10(|a|)
  {
    if |a| == 0 {
    } else {
      ValueBelow(a[..|a| - 1]);
    }
  }

  /** Numerals of one length are ordered as texts exactly as they are as numbers. */
  lemma {:induction false} SameLengthOrder(a: string, b: string, s: string, t: string)
    requires AllDigits(a) && AllDigits(b) && |a| == |b|
    ensures Value(a) < Value(b) ==> TextBefore(a + s, b + t)
    ensures Value(a) > Value(b) ==> !TextBefore(a + s, b + t)
    ensures Value(a) == Value(b) ==> a == b
  {
    if |a| == 0 {
    } else {
      var a0, b0, a1, b1 := [a[0]], [b[0]], a[1..], b[1..];
      assert a == a0 + a1 && b == b0 + b1;
      assert (a + s)[1..] == a1 + s && (b + t)[1..] == b1 + t;
      SameLengthOrder(a1, b1, s, t);
      ValueSplit(a0, a1);
      ValueSplit(b0, b1);
      ValueBelow(a1);
      ValueBelow(b1);
      OneDigit(a[0]);
      OneDigit(b[0]);
      LeadingDigit(Value(a0), Value(b0), Power10(|a1|), Value(a1), Value(b1));
    }
  }

  lemma OneDigit(c: char)
    requires IsDigit(c)
    ensures AllDigits([c]) && Value([c]) == c as int - '0' as int
  {
    assert [c][..0] == "";
    assert Value([c]) == 10 * Value("") + (c as int - '0' as int);
  }

  lemma LeadingDigit(x: nat, y: nat, p: nat, u: nat, v: nat)
    requires u < p && v < p
    ensures x < y ==> x * p + u < y * p + v
    ensures x > y ==> x * p + u > y * p + v
  {
    if x < y {
      Spread(x, y - x, p);
    }
    if x > y {
      Spread(y, x - y, p);
    }
  }

  lemma Spread(x: nat, k: nat, p: nat)
    requires k >= 1
    ensures (x + k) * p >= x * p + p
  {
    assert (x + k) * p == x * p + k * p;
    assert k * p == p + (k - 1) * p;
  }

  lemma {:induction false} LongerDecimal(m: nat, n: nat)
    requires m <= n
    ensures |Decimal(m)| <= |Decimal(n)|
  {
    if m >= 10 {
      LongerDecimal(m / 10, n / 10);
    }
  }

  lemma {:induction false} ShortDecimal(n: nat)
    ensures n < 1000 <==> |Decimal(n)| <= 3
  {
    if n >= 10 {
      if n >= 100 {
        if n >= 1000 {
          LongerDecimal(1000, n);
          assert |Decimal(1)| == 1;
          assert |Decimal(10)| == 2;
          assert |Decimal(100)| == 3;
          assert |Decimal(1000)| == 4;
        } else {
          assert |Decimal(n / 10 / 10)| == 1;
          assert |Decimal(n / 10)| == 2;
        }
      } else {
        assert |Decimal(n / 10)| == 1;
      }
    }
  }

  lemma LongerPad(m: nat, n: nat)
    requires m <= n
    ensures |Pad3(m)| <= |Pad3(n)|
    ensures n < 1000 ==> |Pad3(m)| == |Pad3(n)| == 3
    ensures n >= 1000 ==> |Pad3(n)| > 3
  {
    hide Decimal;
    LongerDecimal(m, n);
    ShortDecimal(m);
    ShortDecimal(n);
  }

  lemma DivideByPower(x: nat, p: nat, r: nat)
    requires r < p
    ensures (x * p + r) / p == x
  {
    var n := x * p + r;
    var q := n / p;
    LeadingDigit(q, x, p, n % p, r);
    assert n == q * p + n % p;
  }

  /**
   The ids of two batches are in the order of their numbers exactly when the smaller number is
   less than the leading digits of the greater one, cut to its own length.
   */
  lemma RowOrderIff(m: nat, n: nat, s: string, t: string)
    requires m < n
    ensures |Pad3(m)| <= |Pad3(n)|
    ensures TextBefore(BatchId(m, s), BatchId(n, t)) <==> m < n / Power10(|Pad3(n)| - |Pad3(m)|)
  {
    hide Pad3, Decimal, Value, TextBefore, Power10;
    LongerPad(m, n);
    var a, b, u, v := Pad3(m), Pad3(n), "_" + s, "_" + t;
    var front, back := b[..|a|], b[|a|..];
    assert b == front + back && |back| == |b| - |a|;
    ValueSplit(front, back);
    ValueBelow(back);
    ValueOfPad3(m);
    ValueOfPad3(n);
    DivideByPower(Value(front), Power10(|back|), Value(back));
    assert BatchId(m, s) == PREFIX + (a + u);
    assert BatchId(n, t) == PREFIX + (front + (back + v)) by {
      assert b + v == front + (back + v);
    }
    TextBeforePrefix(PREFIX, a + u, front + (back + v));
    SameLengthOrder(a, front, u, back + v);
    assert |back| == 0 ==> front == b;
    if Value(a) == Value(front) {
      TextBeforePrefix(a, u, back + v);
      AfterDigits(u, back + v);
    }
  }

  lemma AfterDigits(u: string, w: string)
    requires |u| > 0 && u[0] == '_' && |w| > 0 && IsDigit(w[0])
    ensures !TextBefore(u, w)
  {
  }

  ghost predicate RowsInSequence(last: nat) {
    forall m: nat, n: nat, s, t :: 1 <= m < n <= last ==> TextBefore(BatchId(m, s), BatchId(n, t))
  }

  /** Sorting by id shows the batches in the order of their numbers just as long as there are fewer than 1000. */
  lemma RowsInSequenceIff(last: nat)
    ensures RowsInSequence(last) <==> last < 1000
  {
    hide Pad3, TextBefore, BatchId, Power10;
    if last < 1000 {
      forall m: nat, n: nat, s, t | 1 <= m < n <= last
        ensures TextBefore(BatchId(m, s), BatchId(n, t))
      {
        RowOrderIff(m, n, s, t);
        LongerPad(m, n);
        PowerOfZero(n);
      }
    } else {
      RowOrderIff(999, 1000, "", "");
      LongerPad(999, 1000);
      LongerPad(999, 999);
      PowerGrows(|Pad3(1000)| - |Pad3(999)|);
      Quotient(1000, Power10(|Pad3(1000)| - |Pad3(999)|));
      assert !TextBefore(BatchId(999, ""), BatchId(1000, ""));
    }
  }

  lemma PowerOfZero(n: nat)
    ensures n / Power10(0) == n
  {
  }

  lemma PowerGrows(k: nat)
    requires k > 0
    ensures Power10(k) >= 10
  {
  }

  lemma Quotient(n: nat, p: nat)
    requires p >= 10
    ensures n / p <= n / 10
  {
    assert p * (n / p) <= n;
    assert 10 * (n / p) <= p * (n / p);
  }

  // ---------- A batch with two results ----------

  predicate TellsResult(m: Message) {
    m.Settled? && Terminal(StatedStatus(m.event))
  }

  /** The event the dashboard shows for a batch: its first result, before that the latest news. */
  function FirstWinner(history: seq<Message>): (r: Option<SettlementEvent>)
    ensures r.Some? ==> Settled(r.value) in history
    ensures r.Some? && Terminal(StatedStatus(r.value)) <==> exists m :: m in history && TellsResult(m)
  {
    if |history| == 0 then None
    else
      var w, m := FirstWinner(history[..|history| - 1]), history[|history| - 1];
      assert history == history[..|history| - 1] + [m];
      if m.Captured? || (w.Some? && Terminal(StatedStatus(w.value))) then w else Some(m.event)
  }

  /** The result told last. */
  function LastResult(history: seq<Message>): Option<Status> {
    if |history| == 0 then None
    else if TellsResult(history[|history| - 1]) then Some(StatedStatus(history[|history| - 1].event))
    else LastResult(history[..|history| - 1])
  }

  function FirstResult(history: seq<Message>): Option<Status> {
    if |history| == 0 then None
    else if FirstResult(history[..|history| - 1]).Some? then FirstResult(history[..|history| - 1])
    else if TellsResult(history[|history| - 1]) then Some(StatedStatus(history[|history| - 1].event))
    else None
  }

  /** Settlement events as published: each batch has an id and transactions of its own, and a batch status. */
  ghost predicate Published(log: seq<Message>) {
    && (forall m :: m in log && m.Settled? ==>
          && Effective(m.event) && m.event.batchId != ""
          && StatedStatus(m.event) in {Ready, Processing, Succeeded, Failed})
    && (forall m, n :: m in log && n in log && m.Settled? && n.Settled? ==>
          if m.event.batchId == n.event.batchId then m.event.ids == n.event.ids else m.event.ids !! n.event.ids)
  }

  lemma PublishedPrefix(log: seq<Message>)
    requires Published(log) && |log| > 0
    ensures Published(log[..|log| - 1])
  {
    var p := log[..|log| - 1];
    assert forall m :: m in p ==> m in log;
  }

  lemma {:induction false} CompletedBy(log: seq<Message>, t: string)
    requires Published(log)
    ensures t in BoardOf(log).completed <==> exists m :: m in log && TellsResult(m) && t in m.event.ids
  {
    if |log| == 0 {
    } else {
      var p, last := log[..|log| - 1], log[|log| - 1];
      PublishedPrefix(log);
      CompletedBy(p, t);
      assert log == p + [last];
      if last.Settled? && Skipped(BoardOf(p), last.event) && TellsResult(last) {
        var x :| x in BoardOf(p).completed * last.event.ids;
        CompletedBy(p, x);
        var m :| m in p && TellsResult(m) && x in m.event.ids;
        assert m in log && last in log && !(m.event.ids !! last.event.ids);
      }
    }
  }

  lemma SkippedIff(p: seq<Message>, e: SettlementEvent)
    requires Published(p + [Settled(e)])
    requires var rows, w := BoardOf(p).byBatch, FirstWinner(ForKey(p, BatchKey(e.batchId)));
             (if e.batchId in rows then Some(rows[e.batchId]) else None) ==
             if w.Some? then Some(RowOf(w.value)) else None
    ensures Skipped(BoardOf(p), e) <==>
            exists m :: m in ForKey(p, BatchKey(e.batchId)) && TellsResult(m)
  {
    hide BoardOf, ForKey, FirstWinner;
    var log, own := p + [Settled(e)], ForKey(p, BatchKey(e.batchId));
    PublishedPrefix(log);
    assert log[..|p|] == p && Settled(e) == log[|p|];
    if m :| m in own && TellsResult(m) {
      assert m in p && m in log && m.event.ids == e.ids;
      var t :| t in e.ids;
      CompletedBy(p, t);
      assert t in BoardOf(p).completed * e.ids;
    }
    if t :| t in BoardOf(p).completed * e.ids {
      CompletedBy(p, t);
      var m :| m in p && TellsResult(m) && t in m.event.ids;
      assert m in log && !(m.event.ids !! e.ids);
      assert m in own;
    }
  }

  /** For any published log: a dashboard row is what the first result of its batch says. */
  lemma {:induction false} RowIsFirstWinner(log: seq<Message>, b: string)
    requires Published(log)
    ensures var rows, w := BoardOf(log).byBatch, FirstWinner(ForKey(log, BatchKey(b)));
            (if b in rows then Some(rows[b]) else None) == if w.Some? then Some(RowOf(w.value)) else None
  {
    hide RowOf, Skipped;
    if |log| == 0 {
    } else {
      var p, last := log[..|log| - 1], log[|log| - 1];
      assert log == p + [last];
      PublishedPrefix(log);
      RowIsFirstWinner(p, b);
      PrefixKeys(log, BatchKey(b));
      var own := ForKey(p, BatchKey(b));
      assert (own + [last])[..|own|] == own;
      if last.Settled? && last.event.batchId == b {
        SkippedIff(p, last.event);
      }
    }
  }

  lemma {:induction false} LastResultOf(history: seq<Message>)
    requires Published(history) && |history| > 0
    requires forall m :: m in history ==> m.Settled?
    ensures Winner(history).Some?
    ensures if LastResult(history).Some? then
              StatusOf(Winner(history).value) == LastResult(history).value && Terminal(LastResult(history).value)
            else Winner(history) == Some(history[|history| - 1].event) && !Terminal(StatusOf(Winner(history).value))
  {
    var last := history[|history| - 1];
    StatusAsStated(history, last);
    hide StatusOf, StatedStatus, Effective;
    if |history| > 1 {
      PublishedPrefix(history);
      hide Published;
      LastResultOf(history[..|history| - 1]);
    }
  }

  lemma StatusAsStated(history: seq<Message>, m: Message)
    requires Published(history) && m in history && m.Settled?
    ensures Effective(m.event) && StatusOf(m.event) == StatedStatus(m.event)
  {
  }

  lemma {:induction false} FirstResultOf(history: seq<Message>)
    requires |history| > 0 && forall m :: m in history ==> m.Settled?
    ensures FirstWinner(history).Some?
    ensures FirstResult(history).Some? <==> LastResult(history).Some?
    ensures if FirstResult(history).Some? then
              && StatedStatus(FirstWinner(history).value) == FirstResult(history).value
              && Terminal(FirstResult(history).value)
            else FirstWinner(history) == Some(history[|history| - 1].event)
  {
    hide StatedStatus;
    assert history[|history| - 1] in history;
    if |history| > 1 {
      FirstResultOf(history[..|history| - 1]);
    }
  }

  /**
   The dashboard and a restarted settlement service show the same status of a batch exactly
   when the first and the last result told about it are the same.
   */
  lemma SameStatusIff(log: seq<Message>, b: string)
    requires Published(log) && b != "" && b in Replayed(log).batches
    ensures b in BoardOf(log).byBatch
    ensures var own := ForKey(log, BatchKey(b));
            BoardOf(log).byBatch[b].status == Replayed(log).batches[b].status <==> FirstResult(own) == LastResult(own)
  {
    hide Replayed, BoardOf, Winner, FirstWinner, FirstResult, LastResult, ForKey;
    var own := ForKey(log, BatchKey(b));
    RowIsFirstWinner(log, b);
    ReplayedBatches(log, b);
    forall m | m in own
      ensures m in log && m.Settled?
    {
    }
    assert Published(own);
    LastResultOf(own);
    FirstResultOf(own);
    assert own[|own| - 1] in own;
    StatusAsStated(own, own[|own| - 1]);
  }

  /** They do differ: after a success a later failure of the same batch changes only the service's mind. */
  lemma SecondResult(e: SettlementEvent, f: SettlementEvent)
    requires Published([Settled(e), Settled(f)]) && e.batchId == f.batchId
    requires StatedStatus(e) == Succeeded && StatedStatus(f) == Failed
    ensures var log, b := [Settled(e), Settled(f)], e.batchId;
            && b in BoardOf(log).byBatch && BoardOf(log).byBatch[b].status == Succeeded
            && b in Replayed(log).batches && Replayed(log).batches[b].status == Failed
  {
    var log, b := [Settled(e), Settled(f)], e.batchId;
    assert Settled(e) == log[0] && Settled(f) == log[1];
    assert Settled(e) in log && Settled(f) in log && log[..1] == [Settled(e)] && [Settled(e)][..0] == [];
    assert Replayed([Settled(e)]) == Reconciled(EMPTY_QUEUE, e);
    assert Replayed(log) == Reconciled(Replayed([Settled(e)]), f);
    assert BoardOf([Settled(e)]) == Shown(Board(map[], {}, {}), Settled(e));
    assert BoardOf(log) == Shown(BoardOf([Settled(e)]), Settled(f));
  }
}
