/** What the settlement service guarantees over whole runs, with any number of crashes. */
module SettlementTheorems {
  import opened Collections
  import opened BatchIds
  import opened Settlement
  import opened SettlementService
  import opened Replay
  import opened SettlementRuns
  import opened SettlementSafety

  // ---------- At most one batch, at most one result ----------

  /**
   Whatever was published up to any point of any run: two events that name the same
   transaction are about the same batch and carry the same manifest, and in it the
   transaction's own first capture.
   */
  lemma OneBatchPerTransaction(cfg: Config, states: seq<System>, steps: seq<Step>, n: nat,
                               e1: SettlementEvent, e2: SettlementEvent, t: string)
    requires cfg.size > 0 && Run(cfg, states, steps) && n < |states|
    requires Settled(e1) in states[n].log && Settled(e2) in states[n].log
    requires t in e1.ids && t in e2.ids
    ensures e1.batchId == e2.batchId && e1.manifest == e2.manifest && |e1.manifest| == cfg.size
    ensures exists x :: x in e1.manifest && x.transactionId == t && FirstOf(states[n].log, t) == Some(x)
  {
    hide HistoryOk, StatusOf, ForKey, FirstFinal, Run;
    var log := states[n].log;
    RunKeeps(cfg, states, steps, n);
    assert LogOk(cfg, log);
    SameManifest(cfg, log, Settled(e1));
    SameManifest(cfg, log, Settled(e2));
    assert t in IdsOf(ManifestIn(log, e1.batchId)) && t in IdsOf(ManifestIn(log, e2.batchId));
    var x :| x in e1.manifest && x.transactionId == t;
    assert FirstOf(log, t) == Some(x);
    ManifestSize(cfg, e1.batchId, e1);
  }

  lemma {:induction false} IdsOfAtMost(items: seq<CapturedPayment>)
    ensures |IdsOf(items)| <= |items|
  {
    hide IdsOf;
    if |items| == 0 {
      NoIds();
    } else {
      var p := items[..|items| - 1];
      IdsOfAtMost(p);
      IdsOfSnoc(p, items[|items| - 1]);
      assert items == p + [items[|items| - 1]];
    }
  }

  lemma ManifestSize(cfg: Config, b: string, e: SettlementEvent)
    requires EventOk(cfg, b, e)
    ensures |e.manifest| == cfg.size
  {
  }

  /** Two places of a log with the same key are two places of that key's messages. */
  lemma {:induction false} PlacesForKey(log: seq<Message>, p: nat, q: nat) returns (i: nat, j: nat)
    requires p < q < |log| && KeyOf(log[p]) == KeyOf(log[q])
    ensures var h := ForKey(log, KeyOf(log[p])); i < j < |h| && h[i] == log[p] && h[j] == log[q]
  {
    var k := KeyOf(log[p]);
    var init := log[..|log| - 1];
    PrefixKeys(log, k);
    if q == |log| - 1 {
      assert log[p] in ForKey(init, k) by {
        assert init[p] == log[p];
      }
      i :| 0 <= i < |ForKey(init, k)| && ForKey(init, k)[i] == log[p];
      j := |ForKey(init, k)|;
    } else {
      i, j := PlacesForKey(init, p, q);
    }
  }

  /** After the result of a batch nothing more is ever published about it, not even that result again. */
  lemma NothingAfterResult(cfg: Config, states: seq<System>, steps: seq<Step>, n: nat, p: nat, q: nat)
    requires cfg.size > 0 && Run(cfg, states, steps) && n < |states|
    requires p < q < |states[n].log| && states[n].log[p].Settled? && states[n].log[q].Settled?
    requires HasResult(states[n].log[p])
    ensures states[n].log[p].event.batchId != states[n].log[q].event.batchId
  {
    hide ForKey, StatusOf, BatchFrom, CoreOf, Run, EventOk;
    var log := states[n].log;
    RunKeeps(cfg, states, steps, n);
    var b := log[p].event.batchId;
    if b == log[q].event.batchId {
      var i, j := PlacesForKey(log, p, q);
      SameCore(cfg, b, History(log, b), i);
    }
  }

  /** The outcome pattern alone decides a result, so no batch is published both ways. */
  lemma ResultFollowsPattern(cfg: Config, states: seq<System>, steps: seq<Step>, n: nat, e: SettlementEvent)
    requires cfg.size > 0 && Run(cfg, states, steps) && n < |states|
    requires Settled(e) in states[n].log && HasResult(Settled(e))
    ensures StatusOf(e) == if OutcomeOf(cfg.outcomes, e.batchId) then Succeeded else Failed
    ensures e.settled == (if StatusOf(e) == Succeeded then TotalOf(e.manifest) else 0.0)
    ensures e.failed == TotalOf(e.manifest) - e.settled
  {
    hide ForKey, StatusOf, CoreOf, Run, TotalOf, OutcomeOf, MatchIndex;
    RunKeeps(cfg, states, steps, n);
    SameManifest(cfg, states[n].log, Settled(e));
  }

  // ---------- In-flight batches ----------

  /**
   A live service has every unfinished batch in flight once and nothing else, apart from the
   one it is just starting, and the size check of `process_batch` passes exactly for the batch size of the run.
   */
  lemma InFlightExact(cfg: Config, states: seq<System>, steps: seq<Step>, n: nat)
    requires cfg.size > 0 && Run(cfg, states, steps) && n < |states|
    ensures var s := states[n];
            && Distinct(s.inFlight) && (!s.live ==> s.inFlight == [])
            && (s.live ==>
                  forall b :: b in s.inFlight <==>
                              b in s.queue.batches && s.queue.batches[b].status in {Ready, Processing}
                              && s.starting != Some(b))
            && (forall b, size :: b in s.queue.batches ==>
                                    (Processable(s.queue.batches[b], size) <==> size == cfg.size))
  {
    hide ForKey, StatusOf, BatchFrom, CoreOf, Run, EventOk, Shows, HistoryOk;
    RunKeeps(cfg, states, steps, n);
    var s := states[n];
    forall b | b in s.queue.batches
      ensures forall size :: Processable(s.queue.batches[b], size) <==> size == cfg.size
      ensures s.queue.batches[b].status in {Ready, Processing} <==> !Terminal(s.queue.batches[b].status)
    {
      var i := BatchInMemory(cfg, s, b);
      assert s.queue.batches[b].status in {Ready, Processing, Succeeded, Failed};
    }
  }

  lemma {:induction false} LogGrows(cfg: Config, states: seq<System>, steps: seq<Step>, n: nat, m: nat)
    requires Run(cfg, states, steps) && n <= m < |states|
    ensures states[n].log <= states[m].log
  {
    hide After;
    if n < m {
      LogGrows(cfg, states, steps, n, m - 1);
      StepGrows(cfg, states[m - 1], steps[m - 1]);
    }
  }

  lemma StepGrows(cfg: Config, s: System, step: Step)
    requires Enabled(cfg, s, step)
    ensures s.log <= After(cfg, s, step).log
  {
    hide ForKey, Handled, FinishedOne, NextBatch, EventOf, Replayed;
  }

  /**
   A published result is final: in every later live state, also after crashes and while old
   ready and processing events are read back, the batch shows just that result.
   */
  lemma ResultsAreFinal(cfg: Config, states: seq<System>, steps: seq<Step>, n: nat, m: nat, e: SettlementEvent)
    requires cfg.size > 0 && Run(cfg, states, steps) && n <= m < |states|
    requires Settled(e) in states[n].log && HasResult(Settled(e)) && states[m].live
    ensures e.batchId in states[m].queue.batches
    ensures WithoutRca(states[m].queue.batches[e.batchId]) == BatchFrom(e)
  {
    hide ForKey, StatusOf, BatchFrom, CoreOf, Run, EventOk;
    RunKeeps(cfg, states, steps, m);
    LogGrows(cfg, states, steps, n, m);
    var s, b := states[m], e.batchId;
    assert Settled(e) in s.log;
    var h := History(s.log, b);
    assert Settled(e) in h;
    KnowsBatch(cfg, s, b);
    var i := BatchInMemory(cfg, s, b);
    var j :| 0 <= j < |h| && h[j] == Settled(e);
    SameCore(cfg, b, h, j);
  }

  // ---------- Conservation ----------

  /** The captures of some batches, one batch after the other. */
  function Manifests(batches: map<string, SettlementBatch>, order: seq<string>): seq<CapturedPayment>
    requires forall b :: b in order ==> b in batches
  {
    if |order| == 0 then []
    else Manifests(batches, order[..|order| - 1]) + batches[order[|order| - 1]].manifest
  }

  function SumTotals(batches: map<string, SettlementBatch>, order: seq<string>): real
    requires forall b :: b in order ==> b in batches
  {
    if |order| == 0 then 0.0
    else SumTotals(batches, order[..|order| - 1]) + batches[order[|order| - 1]].total
  }

  function SumSettled(batches: map<string, SettlementBatch>, order: seq<string>): real
    requires forall b :: b in order ==> b in batches
  {
    if |order| == 0 then 0.0
    else SumSettled(batches, order[..|order| - 1]) + batches[order[|order| - 1]].settled
  }

  function SumFailed(batches: map<string, SettlementBatch>, order: seq<string>): real
    requires forall b :: b in order ==> b in batches
  {
    if |order| == 0 then 0.0
    else SumFailed(batches, order[..|order| - 1]) + batches[order[|order| - 1]].failed
  }

  function SumOpen(batches: map<string, SettlementBatch>, order: seq<string>): real
    requires forall b :: b in order ==> b in batches
  {
    if |order| == 0 then 0.0
    else
      var x := batches[order[|order| - 1]];
      SumOpen(batches, order[..|order| - 1]) + (if Terminal(x.status) then 0.0 else x.total)
  }

  lemma {:induction false} ManifestsIn(batches: map<string, SettlementBatch>, order: seq<string>, x: CapturedPayment)
    requires forall b :: b in order ==> b in batches
    ensures x in Manifests(batches, order) <==> exists b :: b in order && x in batches[b].manifest
  {
    if |order| == 0 {
    } else {
      var p, last := order[..|order| - 1], order[|order| - 1];
      ManifestsIn(batches, p, x);
      assert order == p + [last];
      assert last in order;
    }
  }

  lemma {:induction false} ManifestsTotal(batches: map<string, SettlementBatch>, order: seq<string>)
    requires forall b :: b in order ==> b in batches && batches[b].total == TotalOf(batches[b].manifest)
    ensures TotalOf(Manifests(batches, order)) == SumTotals(batches, order)
  {
    if |order| == 0 {
    } else {
      var p, last := order[..|order| - 1], order[|order| - 1];
      ManifestsTotal(batches, p);
      assert last in order;
      SumByConcat(Amount, Manifests(batches, p), batches[last].manifest);
    }
  }

  lemma {:induction false} AmountsAddUp(cfg: Config, batches: map<string, SettlementBatch>, order: seq<string>)
    requires forall b :: b in order ==> b in batches && BatchOk(cfg, b, batches[b])
    ensures SumTotals(batches, order) ==
            SumSettled(batches, order) + SumFailed(batches, order) + SumOpen(batches, order)
  {
    hide OutcomeOf, TotalOf, MatchIndex;
    if |order| == 0 {
    } else {
      AmountsAddUp(cfg, batches, order[..|order| - 1]);
      assert order[|order| - 1] in order;
    }
  }

  lemma ConcatDistinct(a: seq<CapturedPayment>, b: seq<CapturedPayment>)
    requires DistinctIds(a) && DistinctIds(b)
    requires forall x, y :: x in a && y in b ==> x.transactionId != y.transactionId
    ensures DistinctIds(a + b)
  {
    forall i, j | 0 <= i < j < |a + b|
      ensures (a + b)[i].transactionId != (a + b)[j].transactionId
    {
      if i < |a| <= j {
        assert a[i] in a && b[j - |a|] in b;
      }
    }
  }

  lemma {:induction false} ManifestsDistinct(batches: map<string, SettlementBatch>, order: seq<string>)
    requires Distinct(order) && forall b :: b in order ==> b in batches && DistinctIds(batches[b].manifest)
    requires forall b, c :: b in order && c in order && b != c ==>
                              IdsOf(batches[b].manifest) !! IdsOf(batches[c].manifest)
    ensures DistinctIds(Manifests(batches, order))
  {
    if |order| == 0 {
    } else {
      var p, last := order[..|order| - 1], order[|order| - 1];
      ManifestsDistinct(batches, p);
      assert last in order;
      forall x, y | x in Manifests(batches, p) && y in batches[last].manifest
        ensures x.transactionId != y.transactionId
      {
        ManifestsIn(batches, p, x);
        var b :| b in p && x in batches[b].manifest;
        assert b in order;
        var i :| 0 <= i < |p| && p[i] == b;
        assert order[i] != order[|order| - 1];
        assert x.transactionId in IdsOf(batches[b].manifest) && y.transactionId in IdsOf(batches[last].manifest);
      }
      ConcatDistinct(Manifests(batches, p), batches[last].manifest);
    }
  }

  lemma {:induction false} FewIds(items: seq<CapturedPayment>)
    requires |IdsOf(items)| == |items|
    ensures DistinctIds(items)
  {
    if |items| == 0 {
    } else {
      var p, x := items[..|items| - 1], items[|items| - 1];
      assert items == p + [x];
      IdsOfSnoc(p, x);
      IdsOfAtMost(p);
      assert x.transactionId !in IdsOf(p);
      FewIds(p);
      forall i | 0 <= i < |p|
        ensures p[i].transactionId != x.transactionId
      {
        assert p[i] in p;
      }
    }
  }

  /** The batches in memory of a live service: their captures are distinct and are first captures. */
  lemma BatchManifest(cfg: Config, s: System, b: string)
    requires Inv(cfg, s) && s.live && b in s.queue.batches
    ensures var x := s.queue.batches[b];
            && BatchOk(cfg, b, x) && x.manifest == ManifestIn(s.log, b) && DistinctIds(x.manifest)
  {
    hide ForKey, StatusOf, BatchFrom, EventOk;
    var i := BatchInMemory(cfg, s, b);
    var x := s.queue.batches[b];
    var h := History(s.log, b);
    SameCore(cfg, b, h, 0);
    EventFacts(cfg, b, h[0].event);
    CoreFacts(x, BatchFrom(h[0].event));
    assert |IdsOf(x.manifest)| == cfg.size;
    ManifestSize(cfg, b, h[0].event);
    FewIds(x.manifest);
  }

  /**
   In every live state each accepted transaction is either pending or in exactly one batch,
   with the data of its first capture: the accepted captures are, as a collection, the
   pending ones and those of the batches.
   */
  lemma EachCaptureOnce(cfg: Config, states: seq<System>, steps: seq<Step>, n: nat, order: seq<string>)
    requires cfg.size > 0 && Run(cfg, states, steps) && n < |states| && states[n].live
    requires Distinct(order) && forall b :: b in order <==> b in states[n].queue.batches
    ensures var s := states[n];
            multiset(FirstCaptures(s.seen)) == multiset(s.queue.pending + Manifests(s.queue.batches, order))
  {
    hide Run;
    RunKeeps(cfg, states, steps, n);
    CapturesPartition(cfg, states[n], order);
  }

  lemma CapturesPartition(cfg: Config, s: System, order: seq<string>)
    requires Inv(cfg, s) && s.live
    requires Distinct(order) && forall b :: b in order <==> b in s.queue.batches
    ensures multiset(FirstCaptures(s.seen)) == multiset(s.queue.pending + Manifests(s.queue.batches, order))
  {
    hide ForKey, FirstFinal, Assigned, MaxIndex, HistoryOk, BatchOk, Manifests, FirstCaptures;
    hide BatchesOk, FlightsOk, ManifestIn;
    var q := s.queue;
    var first, batched := FirstCaptures(s.seen), Manifests(q.batches, order);
    FirstCapturesExact(s.seen);
    forall b | b in order
      ensures DistinctIds(q.batches[b].manifest) && q.batches[b].manifest == ManifestIn(s.log, b)
    {
      BatchManifest(cfg, s, b);
    }
    ManifestsDistinct(q.batches, order);
    forall x
      ensures x in batched <==> FirstOf(s.seen, x.transactionId) == Some(x) && x.transactionId in Assigned(s.log)
    {
      InBatchedIff(cfg, s, order, x);
    }
    ConcatDistinct(q.pending, batched);
    DistinctMultisets(first, q.pending + batched);
  }

  lemma InBatchedIff(cfg: Config, s: System, order: seq<string>, x: CapturedPayment)
    requires Inv(cfg, s) && s.live
    requires forall b :: b in order <==> b in s.queue.batches
    requires forall b :: b in order ==> s.queue.batches[b].manifest == ManifestIn(s.log, b)
    ensures x in Manifests(s.queue.batches, order) <==>
            FirstOf(s.seen, x.transactionId) == Some(x) && x.transactionId in Assigned(s.log)
  {
    hide ForKey, FirstFinal, Assigned, MaxIndex, HistoryOk, BatchOk, Manifests;
    hide BatchesOk, FlightsOk, PendingOk;
    var q, t := s.queue, x.transactionId;
    ManifestsIn(q.batches, order, x);
    AssignedByManifests(cfg, s.log, t);
    var k := TransactionKey(t);
    assert ForKey(s.seen, k) <= ForKey(s.log, k);
    if FirstOf(s.seen, t).Some? {
      FirstFinalKeeps(ForKey(s.seen, k), ForKey(s.log, k));
    }
    if x in Manifests(q.batches, order) {
      var b :| b in order && x in q.batches[b].manifest;
      assert x in ManifestIn(s.log, b);
      assert t in IdsOf(ManifestIn(s.log, b));
    }
    if FirstOf(s.seen, t) == Some(x) && t in Assigned(s.log) {
      var b :| t in IdsOf(ManifestIn(s.log, b));
      var y :| y in ManifestIn(s.log, b) && y.transactionId == t;
      assert FirstOf(s.log, t) == Some(y);
      KnowsBatch(cfg, s, b);
      assert x in q.batches[b].manifest;
    }
  }

  /**
   No money is lost or made: the accepted amounts are the pending amounts plus the totals of
   the batches, and these are what is settled, what failed and what is still on its way.
   */
  lemma MoneyConserved(cfg: Config, states: seq<System>, steps: seq<Step>, n: nat, order: seq<string>)
    requires cfg.size > 0 && Run(cfg, states, steps) && n < |states| && states[n].live
    requires Distinct(order) && forall b :: b in order <==> b in states[n].queue.batches
    ensures var s := states[n];
            TotalOf(FirstCaptures(s.seen)) ==
            TotalOf(s.queue.pending) + SumSettled(s.queue.batches, order)
            + SumFailed(s.queue.batches, order) + SumOpen(s.queue.batches, order)
  {
    hide Run;
    RunKeeps(cfg, states, steps, n);
    var s := states[n];
    MoneyPartition(cfg, s, order);
  }

  lemma MoneyPartition(cfg: Config, s: System, order: seq<string>)
    requires Inv(cfg, s) && s.live
    requires Distinct(order) && forall b :: b in order <==> b in s.queue.batches
    ensures TotalOf(FirstCaptures(s.seen)) ==
            TotalOf(s.queue.pending) + SumSettled(s.queue.batches, order)
            + SumFailed(s.queue.batches, order) + SumOpen(s.queue.batches, order)
  {
    hide Inv, SumSettled, SumFailed, SumOpen, SumTotals, Manifests, FirstCaptures, SumBy;
    var batches := s.queue.batches;
    CapturesPartition(cfg, s, order);
    var batched := Manifests(batches, order);
    SumByPermutation(Amount, FirstCaptures(s.seen), s.queue.pending + batched);
    SumByConcat(Amount, s.queue.pending, batched);
    forall b | b in order
      ensures BatchOk(cfg, b, batches[b])
    {
      BatchManifest(cfg, s, b);
    }
    ManifestsTotal(batches, order);
    AmountsAddUp(cfg, batches, order);
  }

  // ---------- Crashes leave no trace ----------

  lemma {:induction false} WinnerIsLast(cfg: Config, b: string, h: seq<Message>)
    requires HistoryOk(cfg, b, h) && |h| > 0
    ensures h[|h| - 1].Settled? && Winner(h) == Some(h[|h| - 1].event)
  {
    hide EventOk, BatchFrom, CoreOf, StatusOf;
    SameCore(cfg, b, h, |h| - 1);
    EventFacts(cfg, b, h[|h| - 1].event);
    if |h| > 1 {
      var p := h[..|h| - 1];
      HistoryBegins(cfg, b, h, p);
      WinnerIsLast(cfg, b, p);
      SameCore(cfg, b, h, |h| - 2);
      assert p[|p| - 1] == h[|h| - 2];
    }
  }

  /**
   A live service that has read everything holds what replaying its log from scratch gives:
   the same batches apart from root-cause fields, the same sequence number, and the same
   pending captures up to order.
   */
  lemma LiveIsReplayed(cfg: Config, s: System)
    requires Inv(cfg, s) && s.live && SamePerKey(s.seen, s.log)
    ensures Covered(s.log)
    ensures s.queue.batches.Keys == Replayed(s.log).batches.Keys
    ensures forall b :: b in s.queue.batches ==> WithoutRca(s.queue.batches[b]) == Replayed(s.log).batches[b]
    ensures s.queue.sequence == Replayed(s.log).sequence
    ensures multiset(s.queue.pending) == multiset(Replayed(s.log).pending)
  {
    hide ForKey, FirstFinal, Assigned, MaxIndex, Winner, HistoryOk, EventOk, BatchOk, Replayed;
    ReplayedSequence(s.log);
    forall b
      ensures b in s.queue.batches <==> b in Replayed(s.log).batches
      ensures b in s.queue.batches ==> WithoutRca(s.queue.batches[b]) == Replayed(s.log).batches[b]
    {
      LiveBatchIsReplayed(cfg, s, b);
    }
    forall t | t in Assigned(s.log) && FirstOf(s.log, t).Some?
      ensures Settles(s.log, t)
    {
      SettlesIff(s.log, t);
      BatchedIsKnown(cfg, s, t);
      var b :| b in s.queue.batches && t in s.queue.batches[b].ids;
      assert WithoutRca(s.queue.batches[b]).ids == s.queue.batches[b].ids;
    }
    ReplayedPendingExact(s.log);
    forall x
      ensures x in s.queue.pending <==> x in Replayed(s.log).pending
    {
      assert ForKey(s.seen, TransactionKey(x.transactionId)) == ForKey(s.log, TransactionKey(x.transactionId));
    }
    DistinctMultisets(s.queue.pending, Replayed(s.log).pending);
  }

  lemma LiveBatchIsReplayed(cfg: Config, s: System, b: string)
    requires Inv(cfg, s) && s.live && SamePerKey(s.seen, s.log)
    ensures b in s.queue.batches <==> b in Replayed(s.log).batches
    ensures b in s.queue.batches ==> WithoutRca(s.queue.batches[b]) == Replayed(s.log).batches[b]
  {
    hide ForKey, FirstFinal, Assigned, MaxIndex, Winner, EventOk, BatchOk, Replayed, BatchFrom, StatusOf, CoreOf;
    var h := History(s.log, b);
    assert ForKey(s.seen, BatchKey(b)) == ForKey(s.log, BatchKey(b));
    assert HistoryOk(cfg, b, h);
    ReplayedBatches(s.log, b);
    if |h| > 0 {
      WinnerIsLast(cfg, b, h);
      SameCore(cfg, b, h, 0);
      NamedBatch(cfg, b, h[0].event);
      assert Shows(s.queue.batches[b], h, |h| - 1);
    }
  }

  lemma NamedBatch(cfg: Config, b: string, e: SettlementEvent)
    requires EventOk(cfg, b, e)
    ensures b != ""
  {
  }

  /**
   A crash followed by a full replay leaves no trace: two services that are live and have read
   the same log, whatever happened to them, hold the same batches (root-cause fields apart),
   sequence number, pending captures, and the same batches in flight.
   */
  lemma CrashesLeaveNoTrace(cfg: Config, statesA: seq<System>, stepsA: seq<Step>, n: nat,
                            statesB: seq<System>, stepsB: seq<Step>, m: nat)
    requires cfg.size > 0 && Run(cfg, statesA, stepsA) && n < |statesA|
    requires Run(cfg, statesB, stepsB) && m < |statesB|
    requires var a, b := statesA[n], statesB[m];
             && a.live && SamePerKey(a.seen, a.log) && a.starting == None
             && b.live && SamePerKey(b.seen, b.log) && b.starting == None
             && SamePerKey(a.log, b.log)
    ensures var p, q := statesA[n].queue, statesB[m].queue;
            && p.batches.Keys == q.batches.Keys
            && (forall b :: b in p.batches ==> WithoutRca(p.batches[b]) == WithoutRca(q.batches[b]))
            && p.sequence == q.sequence && multiset(p.pending) == multiset(q.pending)
            && (forall b :: b in statesA[n].inFlight <==> b in statesB[m].inFlight)
  {
    hide Run, ForKey, Replayed, Covered, LogOk, BatchesOk, PendingOk, MaxIndex;
    var a, b := statesA[n], statesB[m];
    RunKeeps(cfg, statesA, stepsA, n);
    RunKeeps(cfg, statesB, stepsB, m);
    LiveIsReplayed(cfg, a);
    LiveIsReplayed(cfg, b);
    ReplayConfluent(a.log, b.log);
    forall c
      ensures c in a.inFlight <==> c in b.inFlight
    {
      if c in a.queue.batches {
        assert WithoutRca(a.queue.batches[c]).status == WithoutRca(b.queue.batches[c]).status;
      }
    }
  }

  // ---------- The loop body takes these steps ----------

  ghost predicate Leads(cfg: Config, s: System, steps: seq<Step>, s': System)
    decreases |steps|
  {
    if |steps| == 0 then s' == s
    else Enabled(cfg, s, steps[0]) && Leads(cfg, After(cfg, s, steps[0]), steps[1..], s')
  }

  lemma {:induction false} LeadsSnoc(cfg: Config, s: System, steps: seq<Step>, mid: System, step: Step)
    requires Leads(cfg, s, steps, mid) && Enabled(cfg, mid, step)
    ensures Leads(cfg, s, steps + [step], After(cfg, mid, step))
    decreases |steps|
  {
    hide Enabled, After;
    if |steps| == 0 {
      assert (steps + [step])[1..] == [];
    } else {
      assert (steps + [step])[1..] == steps[1..] + [step];
      LeadsSnoc(cfg, After(cfg, s, steps[0]), steps[1..], mid, step);
    }
  }

  lemma {:induction false} LeadsKeeps(cfg: Config, s: System, steps: seq<Step>, s': System)
    requires cfg.size > 0 && Inv(cfg, s) && Leads(cfg, s, steps, s')
    ensures Inv(cfg, s')
    decreases |steps|
  {
    hide Inv, Enabled, After;
    if |steps| == 0 {
    } else {
      StepKeeps(cfg, s, steps[0]);
      LeadsKeeps(cfg, After(cfg, s, steps[0]), steps[1..], s');
    }
  }

  function Messages(events: seq<SettlementEvent>): seq<Message> {
    seq(|events|, i requires 0 <= i < |events| => Settled(events[i]))
  }

  function Minus(ids: seq<string>, gone: set<string>): seq<string> {
    if |ids| == 0 then []
    else
      var r := Minus(ids[..|ids| - 1], gone);
      if ids[|ids| - 1] in gone then r else r + [ids[|ids| - 1]]
  }

  function BatchIdsOf(flights: seq<Flight>): seq<string> {
    seq(|flights|, i requires 0 <= i < |flights| => flights[i].batchId)
  }

  /** What `StartReadyBatch` does to a live service is the steps Start and MarkProcessing. */
  lemma StartReadyBatchSteps(cfg: Config, s: System, suffix: string, now: string)
    requires Enabled(cfg, s, Start(suffix, now))
    ensures var b := NextBatch(s.queue, cfg.size, suffix, now);
            var cut := Cut(s.queue, cfg.size, suffix, now);
            Leads(cfg, s, [Start(suffix, now), MarkProcessing(now)],
                  s.(log := s.log + Messages(StartedEvents(b, now)),
                     queue := cut.(batches := cut.batches[b.batchId := b.(status := Processing)]),
                     inFlight := s.inFlight + [b.batchId]))
  {
    hide EventOf, BatchId, TotalOf, DateOf;
    var b := NextBatch(s.queue, cfg.size, suffix, now);
    var s1 := After(cfg, s, Start(suffix, now));
    assert Enabled(cfg, s1, MarkProcessing(now));
    var s2 := After(cfg, s1, MarkProcessing(now));
    assert s2.log == s.log + Messages(StartedEvents(b, now));
    LeadsSnoc(cfg, s, [], s, Start(suffix, now));
    LeadsSnoc(cfg, s, [Start(suffix, now)], s1, MarkProcessing(now));
    assert [] + [Start(suffix, now)] == [Start(suffix, now)];
    assert [Start(suffix, now)] + [MarkProcessing(now)] == [Start(suffix, now), MarkProcessing(now)];
  }

  /** What `ResumeUnfinished` adds once all has been read is the step CatchUp. */
  lemma ResumeUnfinishedSteps(cfg: Config, s: System, added: seq<Flight>)
    requires !s.live && SamePerKey(s.seen, s.log)
    requires DistinctFlights(added) && FlightIds(added) == Unfinished(s.queue.batches)
    ensures Leads(cfg, s, [CatchUp(BatchIdsOf(added))],
                  s.(live := true, inFlight := s.inFlight + BatchIdsOf(added)))
  {
    hide SamePerKey, Unfinished;
    var order := BatchIdsOf(added);
    forall b
      ensures b in order <==> b in FlightIds(added)
    {
      if b in order {
        var i :| 0 <= i < |order| && order[i] == b;
        assert added[i] in added;
      }
      if b in FlightIds(added) {
        var f :| f in added && f.batchId == b;
        var i :| 0 <= i < |added| && added[i] == f;
        assert order[i] == b;
      }
    }
    LeadsSnoc(cfg, s, [], s, CatchUp(order));
    assert [] + [CatchUp(order)] == [CatchUp(order)];
  }

  function AfterDue(s: System, f: Finish, gone: set<string>): System {
    s.(log := s.log + Messages(f.events), queue := f.queue, inFlight := Minus(s.inFlight, gone))
  }

  lemma {:induction false} MinusNothing(ids: seq<string>)
    ensures Minus(ids, {}) == ids
  {
    if |ids| == 0 {
    } else {
      MinusNothing(ids[..|ids| - 1]);
    }
  }

  lemma MinusSnoc(ids: seq<string>, b: string, gone: set<string>)
    ensures Minus(ids + [b], gone) == if b in gone then Minus(ids, gone) else Minus(ids, gone) + [b]
  {
    assert (ids + [b])[..|ids|] == ids;
  }

  lemma {:induction false} MinusIds(ids: seq<string>, gone: set<string>)
    ensures forall b :: b in Minus(ids, gone) <==> b in ids && b !in gone
  {
    if |ids| == 0 {
    } else {
      MinusIds(ids[..|ids| - 1], gone);
      assert ids == ids[..|ids| - 1] + [ids[|ids| - 1]];
    }
  }

  lemma {:induction false} MinusAbsent(ids: seq<string>, gone: set<string>, b: string)
    requires b !in ids
    ensures Minus(ids, gone + {b}) == Minus(ids, gone)
  {
    if |ids| == 0 {
    } else {
      MinusAbsent(ids[..|ids| - 1], gone, b);
    }
  }

  /** Taking one more id away is removing the place where it stands. */
  lemma {:induction false} MinusOne(ids: seq<string>, gone: set<string>, b: string) returns (i: nat)
    requires Distinct(ids) && b in ids && b !in gone
    ensures var m := Minus(ids, gone);
            i < |m| && m[i] == b && Minus(ids, gone + {b}) == m[..i] + m[i + 1..]
  {
    var p, last := ids[..|ids| - 1], ids[|ids| - 1];
    if last == b {
      forall j | 0 <= j < |p|
        ensures p[j] != b
      {
        assert ids[j] != ids[|ids| - 1];
      }
      MinusAbsent(p, gone, b);
      i := |Minus(p, gone)|;
    } else {
      assert ids == p + [last];
      i := MinusOne(p, gone, b);
      var m := Minus(p, gone);
      assert (m + [last])[..i] + (m + [last])[i + 1..] == m[..i] + m[i + 1..] + [last];
    }
  }

  /** Finishing batches one after the other never fails, and is one Complete step each. */
  lemma {:induction false} DueSteps(cfg: Config, s: System, due: seq<Flight>, now: string) returns (steps: seq<Step>)
    requires cfg.size > 0 && Inv(cfg, s) && s.starting == None && now != ""
    requires DistinctFlights(due) && forall f :: f in due ==> f.batchId in s.inFlight
    ensures var f := FinishedAll(Finish(s.queue, [], true), cfg.size, cfg.outcomes, due, now);
            f.ok && Leads(cfg, s, steps, AfterDue(s, f, FlightIds(due)))
    decreases |due|
  {
    hide Inv, FinishedOne, Processable;
    if |due| == 0 {
      steps := [];
      MinusNothing(s.inFlight);
      assert Messages([]) == [];
      assert AfterDue(s, Finish(s.queue, [], true), {}) == s;
      assert FlightIds(due) == {};
    } else {
      var p, last := due[..|due| - 1], due[|due| - 1];
      assert due == p + [last];
      steps := DueSteps(cfg, s, p, now);
      var f := FinishedAll(Finish(s.queue, [], true), cfg.size, cfg.outcomes, p, now);
      var mid := AfterDue(s, f, FlightIds(p));
      FlightIdsSnoc(p, last);
      assert last.batchId !in FlightIds(p) by {
        forall g | g in p
          ensures g.batchId != last.batchId
        {
          var j :| 0 <= j < |p| && p[j] == g;
          assert due[j].batchId != due[|due| - 1].batchId;
        }
      }
      steps := DueStep(cfg, s, steps, f, FlightIds(p), last.batchId, now);
    }
  }

  lemma DueStep(cfg: Config, s: System, steps: seq<Step>, f: Finish, gone: set<string>, id: string, now: string)
    returns (more: seq<Step>)
    requires cfg.size > 0 && Inv(cfg, s) && s.starting == None && now != ""
    requires f.ok && Leads(cfg, s, steps, AfterDue(s, f, gone)) && id in s.inFlight && id !in gone
    ensures var g := FinishStep(f, cfg.size, cfg.outcomes, id, now);
            g.ok && Leads(cfg, s, more, AfterDue(s, g, gone + {id}))
  {
    hide LogOk, SeenOk, PendingOk, BatchesOk, TakenOk, MaxIndex, BatchOk, Leads, History, CoreOf, HistoryOk;
    hide FinishedOne;
    var mid := AfterDue(s, f, gone);
    LeadsKeeps(cfg, s, steps, mid);
    var i := MinusOne(s.inFlight, gone, id);
    assert mid.inFlight[i] == id;
    assert id in mid.inFlight;
    assert id in mid.queue.batches by {
      assert mid.live;
    }
    var j := BatchInMemory(cfg, mid, id);
    assert Processable(mid.queue.batches[id], cfg.size) by {
      SoundSize(cfg, id, mid.queue.batches[id]);
    }
    var step := Complete(i, now);
    LeadsSnoc(cfg, s, steps, mid, step);
    more := steps + [step];
    var g := FinishStep(f, cfg.size, cfg.outcomes, id, now);
    var (q, e) := FinishedOne(f.queue, cfg.outcomes, id, now);
    assert Messages(f.events + [e]) == Messages(f.events) + [Settled(e)];
    assert s.log + Messages(f.events + [e]) == s.log + Messages(f.events) + [Settled(e)];
    assert After(cfg, mid, step) == AfterDue(s, g, gone + {id});
  }

  lemma SoundSize(cfg: Config, b: string, x: SettlementBatch)
    requires BatchOk(cfg, b, x)
    ensures Processable(x, cfg.size)
  {
  }

  lemma {:induction false} DueMembers(flights: seq<Flight>, clock: real)
    ensures forall f :: f in DueBy(flights, clock) <==> f in flights && f.readyAt <= clock
  {
    if |flights| == 0 {
    } else {
      var p, f := flights[..|flights| - 1], flights[|flights| - 1];
      DueMembers(p, clock);
      assert flights == p + [f];
    }
  }

  lemma LastApart(flights: seq<Flight>, f: Flight)
    requires DistinctFlights(flights + [f])
    ensures DistinctFlights(flights)
    ensures forall g :: g in flights ==> g.batchId != f.batchId
  {
    var all := flights + [f];
    forall i, j | 0 <= i < j < |flights|
      ensures flights[i].batchId != flights[j].batchId
    {
      assert all[i].batchId != all[j].batchId;
    }
    forall g | g in flights
      ensures g.batchId != f.batchId
    {
      var j :| 0 <= j < |flights| && flights[j] == g;
      assert all[j].batchId != all[|flights|].batchId;
    }
  }

  lemma {:induction false} DueDistinct(flights: seq<Flight>, clock: real)
    requires DistinctFlights(flights)
    ensures DistinctFlights(DueBy(flights, clock))
  {
    if |flights| == 0 {
    } else {
      var p, f := flights[..|flights| - 1], flights[|flights| - 1];
      assert flights == p + [f];
      LastApart(p, f);
      DueDistinct(p, clock);
      DueMembers(p, clock);
      var due := DueBy(p, clock);
      forall i | 0 <= i < |due|
        ensures due[i].batchId != f.batchId
      {
        assert due[i] in due;
      }
    }
  }

  lemma IdsAbsent(flights: seq<Flight>, f: Flight)
    requires forall g :: g in flights ==> g.batchId != f.batchId
    ensures f.batchId !in FlightIds(flights) && f.batchId !in BatchIdsOf(flights)
  {
    forall i | 0 <= i < |BatchIdsOf(flights)|
      ensures BatchIdsOf(flights)[i] != f.batchId
    {
      assert flights[i] in flights;
    }
  }

  lemma {:induction false} DueOrNot(flights: seq<Flight>, clock: real)
    requires DistinctFlights(flights)
    ensures BatchIdsOf(NotDueBy(flights, clock)) == Minus(BatchIdsOf(flights), FlightIds(DueBy(flights, clock)))
  {
    hide DistinctFlights, FlightIds, Minus, BatchIdsOf;
    if |flights| == 0 {
      assert Minus([], FlightIds([])) == [] by { MinusOfNone(FlightIds([])); }
      assert BatchIdsOf([]) == [] by { NoBatchIds(); }
    } else {
      var p, f := flights[..|flights| - 1], flights[|flights| - 1];
      assert flights == p + [f];
      LastApart(p, f);
      DueOrNot(p, clock);
      DueMembers(p, clock);
      var due, rest := DueBy(p, clock), NotDueBy(p, clock);
      IdsAbsent(p, f);
      IdsAbsent(due, f);
      FlightIdsSnoc(due, f);
      BatchIdsSnoc(p, f);
      BatchIdsSnoc(rest, f);
      MinusSnoc(BatchIdsOf(p), f.batchId, FlightIds(DueBy(flights, clock)));
      if f.readyAt <= clock {
        assert DueBy(flights, clock) == due + [f] && NotDueBy(flights, clock) == rest;
        MinusAbsent(BatchIdsOf(p), FlightIds(due), f.batchId);
      } else {
        assert DueBy(flights, clock) == due && NotDueBy(flights, clock) == rest + [f];
      }
    }
  }

  lemma MinusOfNone(gone: set<string>)
    ensures Minus([], gone) == []
  {
  }

  lemma NoBatchIds()
    ensures BatchIdsOf([]) == []
  {
  }

  lemma BatchIdsSnoc(flights: seq<Flight>, f: Flight)
    ensures BatchIdsOf(flights + [f]) == BatchIdsOf(flights) + [f.batchId]
  {
  }

  /**
   What `CompleteDueBatches` does in a reachable state never ends in the error of
   `process_batch`, and is a sequence of Complete steps that leaves the flights not due.
   */
  lemma CompleteDueSteps(cfg: Config, s: System, flights: seq<Flight>, clock: real, now: string)
    returns (steps: seq<Step>)
    requires cfg.size > 0 && Inv(cfg, s) && s.starting == None && now != "" && BatchIdsOf(flights) == s.inFlight
    ensures var f := FinishedAll(Finish(s.queue, [], true), cfg.size, cfg.outcomes, DueBy(flights, clock), now);
            && f.ok
            && Leads(cfg, s, steps,
                     s.(log := s.log + Messages(f.events), queue := f.queue,
                        inFlight := BatchIdsOf(NotDueBy(flights, clock))))
  {
    hide LogOk, SeenOk, PendingOk, BatchesOk, TakenOk, MaxIndex, Leads;
    assert DistinctFlights(flights) by {
      forall i, j | 0 <= i < j < |flights|
        ensures flights[i].batchId != flights[j].batchId
      {
        assert BatchIdsOf(flights)[i] != BatchIdsOf(flights)[j];
      }
    }
    DueMembers(flights, clock);
    DueDistinct(flights, clock);
    DueOrNot(flights, clock);
    var due := DueBy(flights, clock);
    forall f | f in due
      ensures f.batchId in s.inFlight
    {
      var j :| 0 <= j < |flights| && flights[j] == f;
      assert BatchIdsOf(flights)[j] == f.batchId;
    }
    steps := DueSteps(cfg, s, due, now);
  }
}
