/** What each kind of event says about a customer's intent, and what the scores make of it. */
module IntentSignals {
  import opened Collections
  import opened CustomerIntent

  // ---------- Which evidence an event gives ----------

  predicate Declined(e: SourceEvent) {
    e.failureCode == "ISSUER_DECLINED" || e.failureCode == "INSUFFICIENT_FUNDS"
  }

  predicate EndsInFailed(e: SourceEvent) {
    |e.eventType| >= 7 && e.eventType[|e.eventType| - 7..] == "_failed"
  }

  /** The event types that say by themselves what they are evidence of. */
  const TELLING: set<string> :=
    {"checkout_started", "payment_created", "payment_succeeded", "checkout_failed", "checkout_abandoned"}

  /** Neither of these types nor a failure with a code of a decline or with a failed status. */
  predicate Untelling(e: SourceEvent) {
    e.eventType !in TELLING && !(EndsInFailed(e) && (Declined(e) || e.status == "failure"))
  }

  /** A piece of evidence has this signal, and its weight is the given one for the first of its signal. */
  predicate Weighs(v: Evidence, earlier: nat, s: Signal, w: real) {
    && v.signal == s
    && v.weight == if earlier == 0 then w else if earlier == 1 then w / 2.0 else if earlier == 2 then w / 3.0 else 0.0
  }

  predicate Flagged(e: SourceEvent) {
    e.customerReturned || e.paymentRetry || e.attemptNumber > 1
  }

  /** The whole table, for a piece of evidence that comes after `earlier` ones of its signal. */
  predicate FollowsTable(e: SourceEvent, v: Evidence, n: nat) {
    && (e.customerReturned ==> Weighs(v, n, CustomerReturned, 0.75))
    && (Flagged(e) && !e.customerReturned ==> Weighs(v, n, PaymentRetry, 0.90))
    && (!Flagged(e) ==>
          && (e.eventType == "checkout_started" ==> Weighs(v, n, CheckoutStarted, 0.60))
          && (e.eventType == "payment_created" ==> Weighs(v, n, PaymentAttempted, 0.70))
          && (e.eventType == "payment_succeeded" ==> Weighs(v, n, SuccessfulPayment, 1.00))
          && (e.eventType == "checkout_failed" ==> Weighs(v, n, CheckoutAbandoned, -0.80))
          && (e.eventType == "checkout_abandoned" ==> Weighs(v, n, CheckoutAbandoned, -0.80))
          && (EndsInFailed(e) && e.eventType != "checkout_failed" && Declined(e) ==> Weighs(v, n, HardDecline, -0.90))
          && (EndsInFailed(e) && e.eventType != "checkout_failed" && !Declined(e) && e.status == "failure" ==>
                Weighs(v, n, PaymentFailed, -0.45))
          && (Untelling(e) && e.status == "success" ==> Weighs(v, n, PreviousSuccess, 0.35))
          && (Untelling(e) && e.status != "success" ==> Weighs(v, n, LongInactivity, -0.50)))
  }

  function Earlier(i: Intent, s: Signal): nat {
    |Filter(OfSignal(s), i.evidence)|
  }

  lemma NamesDoNotFail()
    ensures forall e: SourceEvent ::
              e.eventType in {"checkout_started", "payment_created", "payment_succeeded", "checkout_abandoned"} ==>
                !EndsInFailed(e)
  {
    assert "checkout_started"[9..] == "started" && "payment_created"[8..] == "created";
    assert "payment_succeeded"[10..] == "cceeded" && "checkout_abandoned"[11..] == "andoned";
    assert "started"[0] == 's' && "created"[0] == 'c' && "cceeded"[0] == 'c' && "andoned"[0] == 'a';
    assert "_failed"[0] == '_';
  }

  lemma WeightSteps(v: Evidence, n: nat)
    requires v.weight == WeightAfter(v.signal, n)
    ensures Weighs(v, n, v.signal, Base(v.signal))
  {
    hide Base;
  }

  /** The event types that begin the table are all different. */
  lemma TypesDiffer(t: string)
    ensures t == "checkout_started" ==> t !in {"payment_created", "payment_succeeded", "checkout_failed"}
    ensures t == "payment_created" ==> t !in {"payment_succeeded", "checkout_failed", "checkout_abandoned"}
    ensures t == "payment_succeeded" ==> t !in {"checkout_failed", "checkout_abandoned"}
    ensures t == "checkout_abandoned" ==> t !in {"checkout_failed", "checkout_started"}
  {
    assert "checkout_started"[0] == 'c' && "payment_created"[0] == 'p' && "payment_succeeded"[0] == 'p';
    assert "checkout_failed"[0] == 'c' && "checkout_abandoned"[0] == 'c';
    assert "payment_created"[8] == 'c' && "payment_succeeded"[8] == 's';
    assert "checkout_started"[9] == 's' && "checkout_failed"[9] == 'f' && "checkout_abandoned"[9] == 'a';
  }

  lemma TableOf(e: SourceEvent, v: Evidence, n: nat)
    requires v.signal == SignalOf(e) && v.weight == WeightAfter(v.signal, n)
    ensures FollowsTable(e, v, n)
  {
    hide EndsInFailed, EndsWith, Weighs, WeightAfter;
    NamesDoNotFail();
    SuffixFailed(e);
    TypesDiffer(e.eventType);
    WeightSteps(v, n);
  }

  lemma SuffixFailed(e: SourceEvent)
    ensures EndsInFailed(e) == EndsWith(e.eventType, "_failed")
  {
  }

  /** After any history, a new event appends exactly one piece of evidence, and it follows the table. */
  lemma EvidenceFollowsTable(customerId: string, merchantId: string, log: seq<SourceEvent>, e: SourceEvent)
    requires e.eventId !in UpdatedAll(NewIntent(customerId, merchantId), log).seen
    ensures var i := UpdatedAll(NewIntent(customerId, merchantId), log);
            var j := Updated(i, e);
            && |j.evidence| == |i.evidence| + 1 && j.evidence[..|i.evidence|] == i.evidence
            && var v := j.evidence[|i.evidence|];
               v.eventId == e.eventId && v.at == e.at && FollowsTable(e, v, Earlier(i, v.signal))
  {
    hide UpdatedAll, SignalOf, WeightAfter, FollowsTable, Filter, Identified, Leans;
    var i := UpdatedAll(NewIntent(customerId, merchantId), log);
    HistoryConsistent(customerId, merchantId, log);
    TableOf(e, Updated(i, e).evidence[|i.evidence|], Earlier(i, SignalOf(e)));
  }

  // ---------- Scores ----------

  /** The short decay is the faster one, neither makes evidence grow, and scores lie between 0 and 1. */
  ghost predicate Sound(k: Curves) {
    && (forall age :: 0.0 <= k.short(age) <= k.long(age) <= 1.0)
    && (forall x :: 0.0 <= k.squash(x) <= 1.0)
  }

  lemma {:induction false} RecentWithinTotal(k: Curves, now: real, evidence: seq<Evidence>)
    requires Sound(k)
    ensures 0.0 <= SumBy(FadedSize(k.short, now), evidence) <= SumBy(FadedSize(k.long, now), evidence)
  {
    if |evidence| == 0 {
    } else {
      var v := evidence[|evidence| - 1];
      RecentWithinTotal(k, now, evidence[..|evidence| - 1]);
      SizeGrows(Abs(v.weight), k.short(Age(now, v)), k.long(Age(now, v)));
    }
  }

  lemma SizeGrows(w: real, x: real, y: real)
    requires w >= 0.0 && 0.0 <= x <= y
    ensures 0.0 <= w * x <= w * y
  {
    assert w * y - w * x == w * (y - x);
  }

  lemma Share(x: real, y: real)
    requires 0.0 <= x <= y && y > 0.0
    ensures 0.0 <= x / y <= 1.0
  {
    var q := x / y;
    assert q * y == x;
    if q > 1.0 {
      Larger(q, y);
    }
  }

  lemma Larger(q: real, y: real)
    requires q > 1.0 && y > 0.0
    ensures q * y > y
  {
    assert (q - 1.0) * y > 0.0;
  }

  /**
   For any evidence: scores and confidence lie between 0 and 1. An eighth of the confidence is
   earned by each of the first six pieces, and the last quarter is the share that is recent.
   */
  lemma ScoresBounded(k: Curves, evidence: seq<Evidence>, now: real)
    requires Sound(k)
    ensures var s := ScoresAt(k, evidence, |evidence|, now);
            var recent, total := SumBy(FadedSize(k.short, now), evidence), SumBy(FadedSize(k.long, now), evidence);
            && 0.0 <= s.score <= 1.0 && 0.0 <= s.confidence <= 1.0
            && (total == 0.0 ==> s.confidence == if |evidence| < 6 then |evidence| as real / 8.0 else 0.75)
            && (total >= 0.000001 ==>
                  s.confidence == (if |evidence| < 6 then |evidence| as real / 8.0 else 0.75) + recent / total / 4.0)
            && (7.0 * s.short + 3.0 * s.long == 10.0 * s.score)
  {
    hide Faded, FadedSize;
    RecentWithinTotal(k, now, evidence);
    var recent, total := SumBy(FadedSize(k.short, now), evidence), SumBy(FadedSize(k.long, now), evidence);
    ConfidenceOf(|evidence|, recent, total);
  }

  lemma ConfidenceOf(n: nat, recent: real, total: real)
    requires 0.0 <= recent <= total
    ensures 0.0 <= Confidence(n, recent, total) <= 1.0
    ensures total == 0.0 ==> Confidence(n, recent, total) == if n < 6 then n as real / 8.0 else 0.75
    ensures total >= 0.000001 ==>
              Confidence(n, recent, total) == (if n < 6 then n as real / 8.0 else 0.75) + recent / total / 4.0
  {
    if total >= 0.000001 {
      Share(recent, total);
    } else {
      Share(recent, 0.000001 + total);
    }
  }

  lemma Singleton(f: real -> real, now: real, v: Evidence)
    ensures SumBy(Faded(f, now), [v]) == v.weight * f(if now <= v.at then 0.0 else now - v.at)
  {
    hide Faded;
    assert [v][..0] == [];
    assert SumBy(Faded(f, now), [v]) == Faded(f, now)(v);
    FadedOne(f, now, v);
  }

  lemma FadedOne(f: real -> real, now: real, v: Evidence)
    ensures Faded(f, now)(v) == v.weight * f(if now <= v.at then 0.0 else now - v.at)
  {
    assert Age(now, v) == if now <= v.at then 0.0 else now - v.at;
  }

  /** One piece of evidence, seen at any time: its weight fades from its own time on, and never before. */
  lemma ScoresOfOne(k: Curves, v: Evidence, now: real)
    ensures var age := if now <= v.at then 0.0 else now - v.at;
            && ScoresAt(k, [v], 1, now).short == k.squash(v.weight * k.short(age))
            && ScoresAt(k, [v], 1, now).long == k.squash(v.weight * k.long(age))
  {
    hide Faded, SumBy;
    Singleton(k.short, now, v);
    Singleton(k.long, now, v);
    var age := if now <= v.at then 0.0 else now - v.at;
    assert ScoresAt(k, [v], 1, now).short == k.squash(SumBy(Faded(k.short, now), [v]));
    assert SumBy(Faded(k.short, now), [v]) == v.weight * k.short(age);
    assert k.squash(SumBy(Faded(k.short, now), [v])) == k.squash(v.weight * k.short(age));
  }
}
