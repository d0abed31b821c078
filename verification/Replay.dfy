/**
 Rebuilding the queue from the two topics. The broker keeps the order of messages with the
 same key (a transaction for captures, a batch for settlement events) and no other order,
 so everything here is said about the sequence of messages per key.
 */
module Replay {
  import opened Collections
  import opened BatchIds
  import opened Settlement

  datatype Key = TransactionKey(transactionId: string) | BatchKey(batchId: string)

  function KeyOf(m: Message): Key {
    match m
    case Captured(c) => TransactionKey(c.transactionId)
    case Settled(e) => BatchKey(e.batchId)
  }

  function ForKey(log: seq<Message>, k: Key): (r: seq<Message>)
    ensures forall m :: m in r <==> m in log && KeyOf(m) == k
  {
    if |log| == 0 then []
    else
      var r := ForKey(log[..|log| - 1], k);
      var m := log[|log| - 1];
      assert log == log[..|log| - 1] + [m];
      if KeyOf(m) == k then r + [m] else r
  }

  lemma ForKeySnoc(log: seq<Message>, m: Message, k: Key)
    ensures ForKey(log + [m], k) == if KeyOf(m) == k then ForKey(log, k) + [m] else ForKey(log, k)
  {
    assert (log + [m])[..|log|] == log;
  }

  /** Two logs that a consumer may see of the same topics. */
  ghost predicate SamePerKey(log1: seq<Message>, log2: seq<Message>) {
    forall k :: ForKey(log1, k) == ForKey(log2, k)
  }

  /** The queue after handling a whole log, starting from nothing. */
  function Replayed(log: seq<Message>): Queue {
    if |log| == 0 then EMPTY_QUEUE else Handled(Replayed(log[..|log| - 1]), log[|log| - 1])
  }

  // ---------- What a log means, key by key ----------

  predicate EffectiveMessage(m: Message) {
    m.Settled? && Effective(m.event)
  }

  /** The event that decides a batch: the last one, but results are only replaced by results. */
  function Winner(history: seq<Message>): (r: Option<SettlementEvent>)
    ensures r.Some? ==> Settled(r.value) in history && Effective(r.value)
    ensures r.None? <==> forall m :: m in history ==> !EffectiveMessage(m)
  {
    if |history| == 0 then None
    else
      var w := Winner(history[..|history| - 1]);
      var m := history[|history| - 1];
      assert history == history[..|history| - 1] + [m];
      if !EffectiveMessage(m) || (w.Some? && Terminal(StatusOf(w.value)) && !Terminal(StatusOf(m.event)))
      then w else Some(m.event)
  }

  function BatchIn(log: seq<Message>, b: string): Option<SettlementBatch> {
    var w := if b == "" then None else Winner(ForKey(log, BatchKey(b)));
    if w.Some? then Some(BatchFrom(w.value)) else None
  }

  /** Every transaction that some effective settlement event names. */
  function Assigned(log: seq<Message>): set<string> {
    if |log| == 0 then {}
    else
      var m := log[|log| - 1];
      Assigned(log[..|log| - 1]) + (if EffectiveMessage(m) then m.event.ids else {})
  }

  function MaxIndex(log: seq<Message>): nat {
    if |log| == 0 then 0
    else
      var m := log[|log| - 1];
      var n := MaxIndex(log[..|log| - 1]);
      if EffectiveMessage(m) then IndexOr(m.event.batchId, n) else n
  }

  /** The first final capture of every transaction, in the order the log shows them. */
  function FirstCaptures(log: seq<Message>): seq<CapturedPayment> {
    if |log| == 0 then []
    else
      var r := FirstCaptures(log[..|log| - 1]);
      var m := log[|log| - 1];
      if m.Captured? && Final(m.capture) && m.capture.transactionId !in IdsOf(r)
      then r + [PaymentOf(m.capture)] else r
  }

  /** The first final capture in the messages of one transaction. */
  function FirstFinal(history: seq<Message>): Option<CapturedPayment> {
    if |history| == 0 then None
    else
      var f := FirstFinal(history[..|history| - 1]);
      var m := history[|history| - 1];
      if f.Some? || !m.Captured? || !Final(m.capture) then f else Some(PaymentOf(m.capture))
  }

  function FirstOf(log: seq<Message>, t: string): Option<CapturedPayment> {
    FirstFinal(ForKey(log, TransactionKey(t)))
  }

  /** Some batch that holds this transaction is decided by its own events. */
  ghost predicate Settles(log: seq<Message>, t: string) {
    exists b :: BatchIn(log, b).Some? && t in BatchIn(log, b).value.ids
  }

  /** Every captured transaction that an event ever put in a batch is in a batch that its events decide. */
  ghost predicate Covered(log: seq<Message>) {
    forall t :: t in Assigned(log) && FirstOf(log, t).Some? ==> Settles(log, t)
  }

  // ---------- Helper lemmas ----------

  lemma PrefixKeys(log: seq<Message>, k: Key)
    requires |log| > 0
    ensures var p, m := log[..|log| - 1], log[|log| - 1];
            ForKey(log, k) == if KeyOf(m) == k then ForKey(p, k) + [m] else ForKey(p, k)
  {
  }

  lemma {:induction false} AssignedBy(log: seq<Message>, t: string)
    ensures t in Assigned(log) <==> exists m :: m in log && EffectiveMessage(m) && t in m.event.ids
  {
    if |log| == 0 {
    } else {
      var p, last := log[..|log| - 1], log[|log| - 1];
      AssignedBy(p, t);
      assert log == p + [last];
    }
  }

  lemma {:induction false} MaxIndexBounds(log: seq<Message>, m: Message)
    requires m in log && EffectiveMessage(m) && MatchIndex(m.event.batchId).Some?
    ensures MatchIndex(m.event.batchId).value <= MaxIndex(log)
  {
    var p, last := log[..|log| - 1], log[|log| - 1];
    assert log == p + [last];
    if m != last {
      MaxIndexBounds(p, m);
    }
  }

  lemma {:induction false} MaxIndexReached(log: seq<Message>)
    requires MaxIndex(log) > 0
    ensures exists m :: m in log && EffectiveMessage(m) && MatchIndex(m.event.batchId) == Some(MaxIndex(log))
  {
    var p, last := log[..|log| - 1], log[|log| - 1];
    assert log == p + [last];
    if MaxIndex(log) == MaxIndex(p) {
      MaxIndexReached(p);
      var m :| m in p && EffectiveMessage(m) && MatchIndex(m.event.batchId) == Some(MaxIndex(p));
      assert m in log;
    } else {
      assert last in log && EffectiveMessage(last) && MatchIndex(last.event.batchId) == Some(MaxIndex(log));
    }
  }

  lemma {:induction false} FirstFinalSnoc(history: seq<Message>, m: Message)
    ensures FirstFinal(history + [m]) ==
            if FirstFinal(history).Some? || !m.Captured? || !Final(m.capture) then FirstFinal(history)
            else Some(PaymentOf(m.capture))
  {
    assert (history + [m])[..|history|] == history;
  }

  lemma {:induction false} FirstFinalKeeps(history: seq<Message>, longer: seq<Message>)
    requires history <= longer && FirstFinal(history).Some?
    ensures FirstFinal(longer) == FirstFinal(history)
    decreases |longer|
  {
    if |history| < |longer| {
      assert history <= longer[..|longer| - 1];
      FirstFinalKeeps(history, longer[..|longer| - 1]);
    } else {
      assert history == longer;
    }
  }

  lemma {:induction false} FirstFinalId(history: seq<Message>, t: string)
    requires forall m :: m in history ==> KeyOf(m) == TransactionKey(t)
    ensures FirstFinal(history).Some? ==> FirstFinal(history).value.transactionId == t
  {
    if |history| == 0 {
    } else {
      assert history[|history| - 1] in history;
      FirstFinalId(history[..|history| - 1], t);
    }
  }

  ghost predicate DistinctIds(items: seq<CapturedPayment>) {
    forall i, j :: 0 <= i < j < |items| ==> items[i].transactionId != items[j].transactionId
  }

  /** `FirstCaptures` holds exactly the first final capture of each transaction, once. */
  lemma {:induction false} FirstCapturesExact(log: seq<Message>)
    ensures DistinctIds(FirstCaptures(log))
    ensures forall x :: x in FirstCaptures(log) <==> FirstOf(log, x.transactionId) == Some(x)
  {
    if |log| == 0 {
    } else {
      var p, m := log[..|log| - 1], log[|log| - 1];
      var r := FirstCaptures(p);
      FirstCapturesExact(p);
      forall x
        ensures x in FirstCaptures(log) <==> FirstOf(log, x.transactionId) == Some(x)
      {
        var k := TransactionKey(x.transactionId);
        PrefixKeys(log, k);
        FirstFinalSnoc(ForKey(p, k), m);
        FirstFinalId(ForKey(p, k), k.transactionId);
        assert k.transactionId in IdsOf(r) <==> FirstOf(p, k.transactionId).Some? by {
          if k.transactionId in IdsOf(r) {
            var y :| y in r && y.transactionId == k.transactionId;
            assert FirstOf(p, k.transactionId) == Some(y);
          }
          if FirstOf(p, k.transactionId).Some? {
            assert FirstOf(p, k.transactionId).value in r;
          }
        }
      }
      if m.Captured? && m.capture.transactionId !in IdsOf(r) {
        forall i | 0 <= i < |r|
          ensures r[i].transactionId != m.capture.transactionId
        {
          assert r[i] in r;
        }
      }
    }
  }

  lemma {:induction false} WithoutTwice(items: seq<CapturedPayment>, a: set<string>, b: set<string>)
    ensures Without(Without(items, a), b) == Without(items, a + b)
  {
    if |items| == 0 {
    } else {
      var p, x := items[..|items| - 1], items[|items| - 1];
      WithoutTwice(p, a, b);
      if x.transactionId !in a {
        assert (Without(p, a) + [x])[..|Without(p, a)|] == Without(p, a);
      }
    }
  }

  lemma WithoutSnoc(items: seq<CapturedPayment>, x: CapturedPayment, a: set<string>)
    ensures Without(items + [x], a) == if x.transactionId in a then Without(items, a) else Without(items, a) + [x]
  {
    assert (items + [x])[..|items|] == items;
  }

  lemma {:induction false} WithoutDistinct(items: seq<CapturedPayment>, a: set<string>)
    requires DistinctIds(items)
    ensures DistinctIds(Without(items, a))
  {
    if |items| == 0 {
    } else {
      var p, x := items[..|items| - 1], items[|items| - 1];
      WithoutDistinct(p, a);
      forall i | 0 <= i < |Without(p, a)|
        ensures Without(p, a)[i].transactionId != x.transactionId
      {
        assert Without(p, a)[i] in Without(p, a);
        var j :| 0 <= j < |p| && p[j] == Without(p, a)[i];
        assert items[j].transactionId != items[|items| - 1].transactionId;
      }
    }
  }

  // ---------- The three parts of a replayed queue ----------

  /** For any log whatever: the batch map holds, per batch id, what its own events decide. */
  lemma {:induction false} ReplayedBatches(log: seq<Message>, b: string)
    ensures var batches := Replayed(log).batches;
            (if b in batches then Some(batches[b]) else None) == BatchIn(log, b)
  {
    if |log| == 0 {
    } else {
      var p, m := log[..|log| - 1], log[|log| - 1];
      ReplayedBatches(p, b);
      PrefixKeys(log, BatchKey(b));
      var h := ForKey(p, BatchKey(b));
      assert (h + [m])[..|h|] == h;
    }
  }

  /** Being in a batch of the replayed queue is a matter of the events of that batch alone. */
  lemma SettlesIff(log: seq<Message>, t: string)
    ensures Settles(log, t) <==> InSomeBatch(Replayed(log).batches, t)
  {
    hide BatchIn;
    if b :| b in Replayed(log).batches && t in Replayed(log).batches[b].ids {
      ReplayedBatches(log, b);
    }
    if b :| BatchIn(log, b).Some? && t in BatchIn(log, b).value.ids {
      ReplayedBatches(log, b);
    }
  }

  lemma {:induction false} ReplayedSequence(log: seq<Message>)
    ensures Replayed(log).sequence == MaxIndex(log)
  {
    if |log| == 0 {
    } else {
      ReplayedSequence(log[..|log| - 1]);
    }
  }

  /** Nothing is pending and in a batch at the same time. */
  lemma {:induction false} PendingNotBatched(log: seq<Message>, t: string)
    requires InSomeBatch(Replayed(log).batches, t)
    ensures t !in IdsOf(Replayed(log).pending)
  {
    if |log| == 0 {
    } else {
      var p, m := log[..|log| - 1], log[|log| - 1];
      if InSomeBatch(Replayed(p).batches, t) {
        PendingNotBatched(p, t);
      }
    }
  }

  lemma EnqueuedPending(p: seq<Message>, c: CaptureEvent, a: set<string>)
    requires Assigned(p) <= a
    requires Without(Replayed(p).pending, a) == Without(FirstCaptures(p), a)
    ensures Without(Enqueued(Replayed(p), c).pending, a) == Without(FirstCaptures(p + [Captured(c)]), a)
  {
    var q, first, t := Replayed(p), FirstCaptures(p), c.transactionId;
    assert (p + [Captured(c)])[..|p|] == p;
    WithoutSnoc(q.pending, PaymentOf(c), a);
    WithoutSnoc(first, PaymentOf(c), a);
    if t !in a {
      BatchedIsAssigned(p, t);
      WithoutKeeps(q.pending, a, t);
      WithoutKeeps(first, a, t);
    }
  }

  lemma WithoutKeeps(items: seq<CapturedPayment>, a: set<string>, t: string)
    requires t !in a
    ensures t in IdsOf(items) <==> t in IdsOf(Without(items, a))
  {
    if t in IdsOf(items) {
      var y :| y in items && y.transactionId == t;
      assert y in Without(items, a);
    }
  }

  lemma BatchedIsAssigned(log: seq<Message>, t: string)
    ensures InSomeBatch(Replayed(log).batches, t) ==> t in Assigned(log)
  {
    var batches := Replayed(log).batches;
    if InSomeBatch(batches, t) {
      var b :| b in batches && t in batches[b].ids;
      ReplayedBatches(log, b);
      var w := Winner(ForKey(log, BatchKey(b)));
      assert Settled(w.value) in log;
      AssignedBy(log, t);
    }
  }

  lemma ReconciledPending(p: seq<Message>, e: SettlementEvent, a: set<string>)
    requires Effective(e) ==> e.ids <= a
    requires Without(Replayed(p).pending, a) == Without(FirstCaptures(p), a)
    ensures Without(Reconciled(Replayed(p), e).pending, a) == Without(FirstCaptures(p + [Settled(e)]), a)
  {
    hide Without, Recorded, IndexOr, Replayed;
    assert (p + [Settled(e)])[..|p|] == p;
    if Effective(e) {
      WithoutTwice(Replayed(p).pending, e.ids, a);
      assert e.ids + a == a;
    }
  }

  /** Apart from transactions that were put in a batch, the first captures are what is pending. */
  lemma {:induction false} ReplayedApart(log: seq<Message>, a: set<string>)
    requires Assigned(log) <= a
    ensures Without(Replayed(log).pending, a) == Without(FirstCaptures(log), a)
  {
    hide Without, Enqueued, Reconciled, FirstCaptures;
    if |log| == 0 {
      NothingReplayed();
    } else {
      var p, m := log[..|log| - 1], log[|log| - 1];
      ReplayedApart(p, a);
      assert log == p + [m];
      match m {
        case Settled(e) => ReconciledPending(p, e, a);
        case Captured(c) => EnqueuedPending(p, c, a);
      }
    }
  }

  lemma NothingReplayed()
    ensures Replayed([]).pending == FirstCaptures([]) == []
  {
  }

  lemma {:induction false} PendingIsCaptured(log: seq<Message>)
    ensures forall x :: x in Replayed(log).pending ==> FirstOf(log, x.transactionId).Some?
  {
    if |log| == 0 {
    } else {
      var p, m := log[..|log| - 1], log[|log| - 1];
      PendingIsCaptured(p);
      forall x | x in Replayed(log).pending
        ensures FirstOf(log, x.transactionId).Some?
      {
        var k := TransactionKey(x.transactionId);
        PrefixKeys(log, k);
        FirstFinalSnoc(ForKey(p, k), m);
        if x !in Replayed(p).pending {
          assert x == PaymentOf(m.capture) && Final(m.capture);
        }
      }
    }
  }

  lemma {:induction false} WithoutNothing(items: seq<CapturedPayment>, a: set<string>)
    requires forall x :: x in items ==> x.transactionId !in a
    ensures Without(items, a) == items
  {
    if |items| == 0 {
    } else {
      WithoutNothing(items[..|items| - 1], a);
    }
  }

  /**
   For any log: apart from what was ever put in a batch, the pending queue is the first captures,
   in order. For covered logs nothing else is pending.
   */
  lemma ReplayedPending(log: seq<Message>)
    ensures Without(Replayed(log).pending, Assigned(log)) == Without(FirstCaptures(log), Assigned(log))
    ensures Covered(log) ==> Replayed(log).pending == Without(FirstCaptures(log), Assigned(log))
  {
    ReplayedApart(log, Assigned(log));
    if Covered(log) {
      PendingIsCaptured(log);
      forall x | x in Replayed(log).pending
        ensures x.transactionId !in Assigned(log)
      {
        if x.transactionId in Assigned(log) {
          SettlesIff(log, x.transactionId);
          PendingNotBatched(log, x.transactionId);
        }
      }
      WithoutNothing(Replayed(log).pending, Assigned(log));
    }
  }

  // ---------- Confluence ----------

  lemma SamePerKeySymmetric(log1: seq<Message>, log2: seq<Message>)
    requires SamePerKey(log1, log2)
    ensures SamePerKey(log2, log1)
    ensures forall m :: m in log1 <==> m in log2
  {
    forall k
      ensures ForKey(log2, k) == ForKey(log1, k)
    {
      assert ForKey(log1, k) == ForKey(log2, k);
    }
    forall m
      ensures m in log1 <==> m in log2
    {
      assert m in ForKey(log1, KeyOf(m)) <==> m in log1;
      assert ForKey(log1, KeyOf(m)) == ForKey(log2, KeyOf(m));
    }
  }

  lemma MaxIndexLeq(log1: seq<Message>, log2: seq<Message>)
    requires forall m :: m in log1 ==> m in log2
    ensures MaxIndex(log1) <= MaxIndex(log2)
  {
    if MaxIndex(log1) > 0 {
      MaxIndexReached(log1);
      var m :| m in log1 && EffectiveMessage(m) && MatchIndex(m.event.batchId) == Some(MaxIndex(log1));
      MaxIndexBounds(log2, m);
    }
  }

  lemma AssignedSame(log1: seq<Message>, log2: seq<Message>)
    requires forall m :: m in log1 <==> m in log2
    ensures Assigned(log1) == Assigned(log2)
  {
    forall t
      ensures t in Assigned(log1) <==> t in Assigned(log2)
    {
      AssignedBy(log1, t);
      AssignedBy(log2, t);
    }
  }

  lemma BatchesConfluent(log1: seq<Message>, log2: seq<Message>)
    requires SamePerKey(log1, log2)
    ensures Replayed(log1).batches == Replayed(log2).batches
  {
    var b1, b2 := Replayed(log1).batches, Replayed(log2).batches;
    forall b
      ensures b in b1 <==> b in b2
      ensures b in b1 ==> b1[b] == b2[b]
    {
      ReplayedBatches(log1, b);
      ReplayedBatches(log2, b);
      assert ForKey(log1, BatchKey(b)) == ForKey(log2, BatchKey(b));
    }
  }

  lemma CoveredSame(log1: seq<Message>, log2: seq<Message>)
    requires SamePerKey(log1, log2) && Covered(log1)
    ensures Covered(log2)
  {
    BatchesConfluent(log1, log2);
    SamePerKeySymmetric(log1, log2);
    AssignedSame(log1, log2);
    forall t | t in Assigned(log2) && FirstOf(log2, t).Some?
      ensures Settles(log2, t)
    {
      assert ForKey(log1, TransactionKey(t)) == ForKey(log2, TransactionKey(t));
      assert FirstOf(log1, t).Some?;
      SettlesIff(log1, t);
      SettlesIff(log2, t);
    }
  }

  /**
   Replay does not depend on how the topics interleave: with the same messages per key, the
   batches and the sequence number come out the same for any log, and the same payments are
   pending, each once, when every captured transaction ends in the batch it was put in.
   */
  lemma ReplayConfluent(log1: seq<Message>, log2: seq<Message>)
    requires SamePerKey(log1, log2)
    ensures Replayed(log1).batches == Replayed(log2).batches
    ensures Replayed(log1).sequence == Replayed(log2).sequence
    ensures Covered(log1) ==>
              && multiset(Replayed(log1).pending) == multiset(Replayed(log2).pending)
              && DistinctIds(Replayed(log1).pending)
  {
    BatchesConfluent(log1, log2);
    SamePerKeySymmetric(log1, log2);
    MaxIndexLeq(log1, log2);
    MaxIndexLeq(log2, log1);
    ReplayedSequence(log1);
    ReplayedSequence(log2);
    if Covered(log1) {
      CoveredSame(log1, log2);
      ReplayedPendingExact(log1);
      ReplayedPendingExact(log2);
      AssignedSame(log1, log2);
      var p1, p2 := Replayed(log1).pending, Replayed(log2).pending;
      forall x
        ensures x in p1 <==> x in p2
      {
        assert ForKey(log1, TransactionKey(x.transactionId)) == ForKey(log2, TransactionKey(x.transactionId));
      }
      DistinctMultisets(p1, p2);
    }
  }

  lemma ReplayedPendingExact(log: seq<Message>)
    requires Covered(log)
    ensures DistinctIds(Replayed(log).pending)
    ensures forall x :: x in Replayed(log).pending <==>
                        FirstOf(log, x.transactionId) == Some(x) && x.transactionId !in Assigned(log)
  {
    ReplayedPending(log);
    FirstCapturesExact(log);
    WithoutDistinct(FirstCaptures(log), Assigned(log));
  }

  lemma {:induction false} DistinctCounts(items: seq<CapturedPayment>, x: CapturedPayment)
    requires DistinctIds(items)
    ensures multiset(items)[x] == if x in items then 1 else 0
  {
    if |items| == 0 {
    } else {
      var p, y := items[..|items| - 1], items[|items| - 1];
      assert items == p + [y];
      DistinctCounts(p, x);
      forall i | 0 <= i < |p|
        ensures p[i] != y
      {
        assert items[i].transactionId != items[|items| - 1].transactionId;
      }
    }
  }

  lemma DistinctMultisets(a: seq<CapturedPayment>, b: seq<CapturedPayment>)
    requires DistinctIds(a) && DistinctIds(b)
    requires forall x :: x in a <==> x in b
    ensures multiset(a) == multiset(b)
  {
    forall x
      ensures multiset(a)[x] == multiset(b)[x]
    {
      DistinctCounts(a, x);
      DistinctCounts(b, x);
    }
  }

  function CapturesOf(log: seq<Message>): seq<Message> {
    if |log| == 0 then []
    else
      var r := CapturesOf(log[..|log| - 1]);
      if log[|log| - 1].Captured? then r + [log[|log| - 1]] else r
  }

  lemma {:induction false} FirstCapturesOfCaptures(log: seq<Message>)
    ensures FirstCaptures(log) == FirstCaptures(CapturesOf(log))
  {
    if |log| == 0 {
    } else {
      var p, m := log[..|log| - 1], log[|log| - 1];
      FirstCapturesOfCaptures(p);
      var c := CapturesOf(p);
      assert (c + [m])[..|c|] == c;
    }
  }

  /**
   If the order of the captures is kept as well, the pending queues agree in order too, apart
   from what was ever put in a batch; for covered logs the whole queue comes out the same.
   */
  lemma ReplayConfluentInOrder(log1: seq<Message>, log2: seq<Message>)
    requires SamePerKey(log1, log2) && CapturesOf(log1) == CapturesOf(log2)
    ensures Without(Replayed(log1).pending, Assigned(log1)) == Without(Replayed(log2).pending, Assigned(log1))
    ensures Covered(log1) ==> Replayed(log1) == Replayed(log2)
  {
    hide Replayed, FirstCaptures, CapturesOf, Assigned, Covered, Without;
    ReplayConfluent(log1, log2);
    SamePerKeySymmetric(log1, log2);
    AssignedSame(log1, log2);
    FirstCapturesOfCaptures(log1);
    FirstCapturesOfCaptures(log2);
    ReplayedPending(log1);
    ReplayedPending(log2);
    if Covered(log1) {
      CoveredSame(log1, log2);
    }
  }

  // ---------- The condition is exact ----------

  function SettlementsOf(log: seq<Message>): seq<Message> {
    if |log| == 0 then []
    else
      var r := SettlementsOf(log[..|log| - 1]);
      if log[|log| - 1].Settled? then r + [log[|log| - 1]] else r
  }

  lemma {:induction false} ForKeyConcat(a: seq<Message>, b: seq<Message>, k: Key)
    ensures ForKey(a + b, k) == ForKey(a, k) + ForKey(b, k)
  {
    if |b| == 0 {
      assert a + b == a;
    } else {
      assert (a + b)[..|a + b| - 1] == a + b[..|b| - 1];
      ForKeyConcat(a, b[..|b| - 1], k);
    }
  }

  lemma {:induction false} ForKeySplit(log: seq<Message>, k: Key)
    ensures ForKey(CapturesOf(log), k) == if k.TransactionKey? then ForKey(log, k) else []
    ensures ForKey(SettlementsOf(log), k) == if k.BatchKey? then ForKey(log, k) else []
  {
    if |log| == 0 {
    } else {
      var p, m := log[..|log| - 1], log[|log| - 1];
      ForKeySplit(p, k);
      PrefixKeys(log, k);
      ForKeySnoc(CapturesOf(p), m, k);
      ForKeySnoc(SettlementsOf(p), m, k);
    }
  }

  /** Reading one topic after the other is a way to interleave them. */
  lemma TopicAfterTopic(log: seq<Message>)
    ensures SamePerKey(log, CapturesOf(log) + SettlementsOf(log))
    ensures SamePerKey(log, SettlementsOf(log) + CapturesOf(log))
  {
    forall k
      ensures ForKey(log, k) == ForKey(CapturesOf(log) + SettlementsOf(log), k)
      ensures ForKey(log, k) == ForKey(SettlementsOf(log) + CapturesOf(log), k)
    {
      ForKeySplit(log, k);
      ForKeyConcat(CapturesOf(log), SettlementsOf(log), k);
      ForKeyConcat(SettlementsOf(log), CapturesOf(log), k);
    }
  }

  lemma {:induction false} SettlementsLast(a: seq<Message>, b: seq<Message>, t: string)
    requires forall m :: m in b ==> m.Settled?
    requires t in Assigned(b)
    ensures t !in IdsOf(Replayed(a + b).pending)
  {
    var p, m := b[..|b| - 1], b[|b| - 1];
    assert (a + b)[..|a + b| - 1] == a + p && (a + b)[|a + b| - 1] == m;
    assert b == p + [m];
    if t in Assigned(p) {
      SettlementsLast(a, p, t);
    }
  }

  lemma {:induction false} CapturesLast(a: seq<Message>, b: seq<Message>, t: string)
    requires forall m :: m in b ==> m.Captured?
    requires !InSomeBatch(Replayed(a).batches, t)
    requires FirstOf(b, t).Some?
    ensures t in IdsOf(Replayed(a + b).pending)
  {
    var p, m := b[..|b| - 1], b[|b| - 1];
    var k := TransactionKey(t);
    assert b == p + [m];
    assert (a + b)[..|a + b| - 1] == a + p && (a + b)[|a + b| - 1] == m;
    PrefixKeys(b, k);
    FirstFinalSnoc(ForKey(p, k), m);
    CapturesKeepBatches(a, p);
    if FirstOf(p, t).Some? {
      CapturesLast(a, p, t);
      var x :| x in Replayed(a + p).pending && x.transactionId == t;
      assert x in Replayed(a + b).pending;
    } else {
      var q := Replayed(a + p);
      if Accepts(q, m.capture) {
        assert PaymentOf(m.capture) in Replayed(a + b).pending;
      }
    }
  }

  lemma {:induction false} CapturesKeepBatches(a: seq<Message>, b: seq<Message>)
    requires forall m :: m in b ==> m.Captured?
    ensures Replayed(a + b).batches == Replayed(a).batches
  {
    if |b| == 0 {
      assert a + b == a;
    } else {
      assert (a + b)[..|a + b| - 1] == a + b[..|b| - 1];
      CapturesKeepBatches(a, b[..|b| - 1]);
    }
  }

  ghost predicate SamePending(log1: seq<Message>, log2: seq<Message>) {
    multiset(Replayed(log1).pending) == multiset(Replayed(log2).pending)
  }

  /** Replay gives one pending queue for all interleavings exactly when the log is covered. */
  lemma ConfluenceIff(log: seq<Message>)
    ensures Covered(log) <==> forall log2 :: SamePerKey(log, log2) ==> SamePending(log, log2)
  {
    if Covered(log) {
      forall log2 | SamePerKey(log, log2)
        ensures SamePending(log, log2)
      {
        ReplayConfluent(log, log2);
      }
    }
    if forall log2 :: SamePerKey(log, log2) ==> SamePending(log, log2) {
      var c, s := CapturesOf(log), SettlementsOf(log);
      TopicAfterTopic(log);
      assert SamePending(log, c + s) && SamePending(log, s + c);
      forall t | t in Assigned(log) && FirstOf(log, t).Some?
        ensures Settles(log, t)
      {
        SettlesIff(log, t);
        if !InSomeBatch(Replayed(log).batches, t) {
          UncoveredDiffers(log, t);
        }
      }
    }
  }

  /** Even where the captures keep their order, only covered logs have one queue for all interleavings. */
  lemma ConfluenceInOrderIff(log: seq<Message>)
    ensures Covered(log) <==>
            forall log2 :: SamePerKey(log, log2) && CapturesOf(log2) == CapturesOf(log) ==>
                             Replayed(log2) == Replayed(log)
  {
    hide Replayed, CapturesOf, SettlementsOf, Assigned, FirstOf, Covered;
    if Covered(log) {
      forall log2 | SamePerKey(log, log2) && CapturesOf(log2) == CapturesOf(log)
        ensures Replayed(log2) == Replayed(log)
      {
        ReplayConfluentInOrder(log, log2);
      }
    }
    if forall log2 :: SamePerKey(log, log2) && CapturesOf(log2) == CapturesOf(log) ==> Replayed(log2) == Replayed(log) {
      var c, s := CapturesOf(log), SettlementsOf(log);
      TopicAfterTopic(log);
      CapturesOfTopics(log);
      assert Replayed(c + s) == Replayed(log) && Replayed(s + c) == Replayed(log);
      CoveredByWitness(log);
    }
  }

  lemma CoveredByWitness(log: seq<Message>)
    requires SamePending(CapturesOf(log) + SettlementsOf(log), SettlementsOf(log) + CapturesOf(log))
    ensures Covered(log)
  {
    hide Replayed, CapturesOf, SettlementsOf, Assigned, Settles;
    forall t | t in Assigned(log) && FirstOf(log, t).Some?
      ensures Settles(log, t)
    {
      SettlesIff(log, t);
      if !InSomeBatch(Replayed(log).batches, t) {
        UncoveredDiffers(log, t);
      }
    }
  }

  lemma {:induction false} CapturesOfConcat(a: seq<Message>, b: seq<Message>)
    ensures CapturesOf(a + b) == CapturesOf(a) + CapturesOf(b)
  {
    if |b| == 0 {
      assert a + b == a;
    } else {
      assert (a + b)[..|a + b| - 1] == a + b[..|b| - 1];
      CapturesOfConcat(a, b[..|b| - 1]);
    }
  }

  lemma {:induction false} CapturesOfParts(log: seq<Message>)
    ensures CapturesOf(CapturesOf(log)) == CapturesOf(log)
    ensures CapturesOf(SettlementsOf(log)) == []
  {
    if |log| == 0 {
    } else {
      var p, m := log[..|log| - 1], log[|log| - 1];
      CapturesOfParts(p);
      var c, s := CapturesOf(p), SettlementsOf(p);
      assert (c + [m])[..|c|] == c && (s + [m])[..|s|] == s;
    }
  }

  lemma CapturesOfTopics(log: seq<Message>)
    ensures CapturesOf(CapturesOf(log) + SettlementsOf(log)) == CapturesOf(log)
    ensures CapturesOf(SettlementsOf(log) + CapturesOf(log)) == CapturesOf(log)
  {
    CapturesOfConcat(CapturesOf(log), SettlementsOf(log));
    CapturesOfConcat(SettlementsOf(log), CapturesOf(log));
    CapturesOfParts(log);
  }

  lemma {:induction false} TopicsApart(log: seq<Message>)
    ensures forall m :: m in CapturesOf(log) ==> m.Captured?
    ensures forall m :: m in SettlementsOf(log) ==> m.Settled?
    ensures Assigned(SettlementsOf(log)) == Assigned(log)
  {
    if |log| == 0 {
    } else {
      var p, m := log[..|log| - 1], log[|log| - 1];
      TopicsApart(p);
      var s := SettlementsOf(p);
      assert (s + [m])[..|s|] == s;
    }
  }

  lemma UncoveredDiffers(log: seq<Message>, t: string)
    requires t in Assigned(log) && FirstOf(log, t).Some? && !InSomeBatch(Replayed(log).batches, t)
    ensures var c, s := CapturesOf(log), SettlementsOf(log); !SamePending(c + s, s + c)
  {
    var c, s := CapturesOf(log), SettlementsOf(log);
    TopicsApart(log);
    TopicAfterTopic(log);
    BatchesConfluent(log, s + c);
    CapturesKeepBatches(s, c);
    ForKeySplit(log, TransactionKey(t));
    SettlementsLast(c, s, t);
    CapturesLast(s, c, t);
    var x :| x in Replayed(s + c).pending && x.transactionId == t;
    assert x in multiset(Replayed(s + c).pending);
    assert x !in multiset(Replayed(c + s).pending);
  }

  // ---------- Telling covered logs apart ----------

  predicate SameBatch(m: Message, n: Message) {
    EffectiveMessage(m) && EffectiveMessage(n) && m.event.batchId == n.event.batchId
  }

  /** Every event that does anything has a batch id, and events of one batch name the same transactions. */
  ghost predicate FixedBatches(log: seq<Message>) {
    && (forall m :: m in log && EffectiveMessage(m) ==> m.event.batchId != "")
    && (forall m, n :: m in log && n in log && SameBatch(m, n) ==> m.event.ids == n.event.ids)
  }

  /** So the producer's side is enough to see that a log is covered, without replaying it. */
  lemma FixedBatchesCovered(log: seq<Message>)
    requires FixedBatches(log)
    ensures Covered(log)
  {
    hide Winner;
    forall t | t in Assigned(log) && FirstOf(log, t).Some?
      ensures Settles(log, t)
    {
      AssignedBy(log, t);
      var m :| m in log && EffectiveMessage(m) && t in m.event.ids;
      var b := m.event.batchId;
      var own := ForKey(log, BatchKey(b));
      assert m in own;
      var w := Winner(own).value;
      assert Settled(w) in own && Settled(w) in log && w.batchId == b;
      assert SameBatch(Settled(w), m) && w.ids == m.event.ids;
      assert BatchIn(log, b) == Some(BatchFrom(w)) && t in BatchFrom(w).ids;
    }
  }

  /**
   A log that is not covered: a captured transaction is put in a batch by one event, and the
   next event of that batch leaves it out.
   */
  lemma DroppedIsUncovered(c: CaptureEvent, e: SettlementEvent, f: SettlementEvent)
    requires Final(c) && Effective(e) && Effective(f) && e.batchId == f.batchId != ""
    requires c.transactionId in e.ids && c.transactionId !in f.ids && !Terminal(StatusOf(e))
    ensures var log := [Captured(c), Settled(e), Settled(f)];
            && !Covered(log) && Replayed(log).pending == []
            && Replayed([Settled(e), Settled(f), Captured(c)]).pending == [PaymentOf(c)]
            && SamePerKey(log, [Settled(e), Settled(f), Captured(c)])
  {
    hide StatusOf;
    var log, late := [Captured(c), Settled(e), Settled(f)], [Settled(e), Settled(f), Captured(c)];
    DroppedEarly(c, e, f);
    DroppedLate(c, e, f);
    assert log == [Captured(c)] + [Settled(e), Settled(f)] && late == [Settled(e), Settled(f)] + [Captured(c)];
    forall k
      ensures ForKey(log, k) == ForKey(late, k)
    {
      ForKeyConcat([Captured(c)], [Settled(e), Settled(f)], k);
      ForKeyConcat([Settled(e), Settled(f)], [Captured(c)], k);
      OtherTopic(c, e, f, k);
    }
    ConfluenceIff(log);
    assert PaymentOf(c) in multiset(Replayed(late).pending) && PaymentOf(c) !in multiset(Replayed(log).pending);
    assert SamePerKey(log, late) && !SamePending(log, late);
  }

  lemma OtherTopic(c: CaptureEvent, e: SettlementEvent, f: SettlementEvent, k: Key)
    ensures ForKey([Captured(c)], k) == [] || ForKey([Settled(e), Settled(f)], k) == []
  {
    assert [Captured(c)][..0] == [] && [Settled(e), Settled(f)][..1] == [Settled(e)] && [Settled(e)][..0] == [];
  }

  lemma DroppedEarly(c: CaptureEvent, e: SettlementEvent, f: SettlementEvent)
    requires Effective(e) && c.transactionId in e.ids
    ensures Replayed([Captured(c), Settled(e), Settled(f)]).pending == []
  {
    hide Effective, PaymentOf, Recorded, IndexOr;
    var log := [Captured(c), Settled(e), Settled(f)];
    assert log[..2] == [Captured(c), Settled(e)] && log[..2][..1] == [Captured(c)] && [Captured(c)][..0] == [];
    var one := Enqueued(EMPTY_QUEUE, c);
    assert Replayed([Captured(c)]) == one;
    EnqueuedOnly(c);
    NoneLeft(one.pending, e.ids);
    var two := Reconciled(one, e);
    assert Replayed([Captured(c), Settled(e)]) == two && two.pending == [];
    assert Replayed(log) == Reconciled(two, f);
    NoneLeft([], f.ids);
  }

  lemma EnqueuedOnly(c: CaptureEvent)
    ensures forall x :: x in Enqueued(EMPTY_QUEUE, c).pending ==> x.transactionId == c.transactionId
  {
  }

  lemma {:induction false} NoneLeft(items: seq<CapturedPayment>, ids: set<string>)
    requires forall x :: x in items ==> x.transactionId in ids
    ensures Without(items, ids) == []
  {
    if |items| == 0 {
    } else {
      NoneLeft(items[..|items| - 1], ids);
      assert items[|items| - 1] in items;
    }
  }

  lemma DroppedLate(c: CaptureEvent, e: SettlementEvent, f: SettlementEvent)
    requires Final(c) && Effective(e) && Effective(f) && e.batchId == f.batchId != ""
    requires c.transactionId !in f.ids && !Terminal(StatusOf(e))
    ensures Replayed([Settled(e), Settled(f), Captured(c)]).pending == [PaymentOf(c)]
  {
    hide StatusOf;
    var log := [Settled(e), Settled(f), Captured(c)];
    assert log[..2] == [Settled(e), Settled(f)] && log[..2][..1] == [Settled(e)] && [Settled(e)][..0] == [];
    var one := Reconciled(EMPTY_QUEUE, e);
    assert Replayed([Settled(e)]) == one;
    var two := Reconciled(one, f);
    assert Replayed([Settled(e), Settled(f)]) == two;
    assert BatchFrom(e).status == StatusOf(e) && BatchFrom(f).ids == f.ids;
    assert two.pending == [] && two.batches == map[f.batchId := BatchFrom(f)];
    assert Replayed(log) == Enqueued(two, c);
    assert [] + [PaymentOf(c)] == [PaymentOf(c)];
  }
}
