/** Evidence of a customer's intent to buy, whose weight fades as the same signal repeats. */
module CustomerIntent {
  import opened Collections

  /**
   What detection reads of a source event; absent texts are empty. `at` is the parsed timestamp,
   and `parses` says whether there is one.
   */
  datatype SourceEvent = SourceEvent(
    eventId: string, transactionId: string, paymentId: string, orderId: string, merchantId: string,
    customerId: string, traceId: string, stage: string, eventType: string, status: string,
    failureCode: string, paymentMethod: string, provider: string, at: real, parses: bool,
    customerReturned: bool, paymentRetry: bool, attemptNumber: int)

  datatype Signal =
    | CheckoutStarted | PaymentMethodSelected | PaymentAttempted | PaymentRetry
    | CustomerReturned | SuccessfulPayment | PreviousSuccess
    | CheckoutAbandoned | PaymentFailed | HardDecline | RepeatedFailure | LongInactivity

  function Base(s: Signal): real {
    match s
    case CheckoutStarted => 0.60
    case PaymentMethodSelected => 0.45
    case PaymentAttempted => 0.70
    case PaymentRetry => 0.90
    case CustomerReturned => 0.75
    case SuccessfulPayment => 1.00
    case PreviousSuccess => 0.35
    case CheckoutAbandoned => -0.80
    case PaymentFailed => -0.45
    case HardDecline => -0.90
    case RepeatedFailure => -0.75
    case LongInactivity => -0.50
  }

  predicate EndsWith(s: string, suffix: string) {
    |suffix| <= |s| && s[|s| - |suffix|..] == suffix
  }

  function SignalOf(e: SourceEvent): Signal {
    if e.customerReturned then CustomerReturned
    else if e.paymentRetry || e.attemptNumber > 1 then PaymentRetry
    else if e.eventType == "checkout_started" then CheckoutStarted
    else if e.eventType == "payment_created" then PaymentAttempted
    else if e.eventType == "payment_succeeded" then SuccessfulPayment
    else if e.eventType == "checkout_failed" then CheckoutAbandoned
    else if EndsWith(e.eventType, "_failed") && e.failureCode in {"ISSUER_DECLINED", "INSUFFICIENT_FUNDS"} then
      HardDecline
    else if EndsWith(e.eventType, "_failed") && e.status == "failure" then PaymentFailed
    else if e.eventType == "checkout_abandoned" then CheckoutAbandoned
    else if e.status == "success" then PreviousSuccess
    else LongInactivity
  }

  const CAP: nat := 3

  /** The weight of one more signal after `count` of its kind. */
  function WeightAfter(s: Signal, count: nat): real {
    if count >= CAP then 0.0 else Base(s) * (1.0 / (1.0 + count as real))
  }

  datatype Evidence = Evidence(signal: Signal, eventId: string, eventType: string, at: real, weight: real)

  datatype Intent = Intent(
    customerId: string, merchantId: string, sessionId: string, counts: map<Signal, nat>,
    evidence: seq<Evidence>, evidenceCount: nat, seen: set<string>)

  function NewIntent(customerId: string, merchantId: string): Intent {
    Intent(customerId, merchantId, "", map[], [], 0, {})
  }

  function CountOf(counts: map<Signal, nat>, s: Signal): nat {
    if s in counts then counts[s] else 0
  }

  /** One event: nothing if its id is known, else one more piece of evidence. */
  function Updated(i: Intent, e: SourceEvent): Intent {
    if e.eventId in i.seen then i
    else
      var s := SignalOf(e);
      var count := CountOf(i.counts, s);
      Intent(e.customerId, e.merchantId, if e.traceId != "" then e.traceId else i.sessionId, i.counts[s := count + 1],
             i.evidence + [Evidence(s, e.eventId, e.eventType, e.at, WeightAfter(s, count))],
             i.evidenceCount + 1, i.seen + {e.eventId})
  }

  function UpdatedAll(i: Intent, log: seq<SourceEvent>): Intent {
    if |log| == 0 then i else Updated(UpdatedAll(i, log[..|log| - 1]), log[|log| - 1])
  }

  // ---------- Scores ----------

  /** How evidence fades with age in the short and the long run, and how a sum becomes a score. */
  datatype Curves = Curves(short: real -> real, long: real -> real, squash: real -> real)

  predicate Fades(f: real -> real, age: real) {
    0.0 <= f(age) <= 1.0
  }

  function Age(now: real, v: Evidence): real {
    if now - v.at > 0.0 then now - v.at else 0.0
  }

  function Faded(f: real -> real, now: real): Evidence -> real {
    (v: Evidence) => v.weight * f(Age(now, v))
  }

  function FadedSize(f: real -> real, now: real): Evidence -> real {
    (v: Evidence) => Abs(v.weight) * f(Age(now, v))
  }

  function Abs(x: real): real {
    if x < 0.0 then -x else x
  }

  function Clamp(low: real, x: real, high: real): real {
    if x < low then low else if x > high then high else x
  }

  datatype Scores = Scores(short: real, long: real, score: real, confidence: real)

  /** The scores of evidence at one time. */
  function ScoresAt(k: Curves, evidence: seq<Evidence>, evidenceCount: nat, now: real): Scores {
    var short, long := k.squash(SumBy(Faded(k.short, now), evidence)), k.squash(SumBy(Faded(k.long, now), evidence));
    Scores(short, long, 0.70 * short + 0.30 * long,
           Confidence(evidenceCount, SumBy(FadedSize(k.short, now), evidence), SumBy(FadedSize(k.long, now), evidence)))
  }

  function Confidence(evidenceCount: nat, recent: real, total: real): real {
    var amount := Clamp(0.0, evidenceCount as real / 6.0, 1.0);
    var recency := if total == 0.0 then 0.0
                   else
                     var ratio := recent / (if total < 0.000001 then 0.000001 else total);
                     if ratio < 1.0 then ratio else 1.0;
    Clamp(0.0, 0.75 * amount + 0.25 * recency, 1.0)
  }

  class CustomerIntentState {
    const curves: Curves
    var customerId: string
    var merchantId: string
    var sessionId: string
    var counts: map<Signal, nat>
    var evidence: seq<Evidence>
    var evidenceCount: nat
    var seen: set<string>
    var scores: Scores

    ghost function State(): Intent
      reads this
    {
      Intent(customerId, merchantId, sessionId, counts, evidence, evidenceCount, seen)
    }

    constructor (curves: Curves, customerId: string, merchantId: string)
      ensures State() == NewIntent(customerId, merchantId) && this.curves == curves
      ensures scores == Scores(0.5, 0.5, 0.5, 0.0)
    {
      this.curves := curves;
      this.customerId, this.merchantId, sessionId := customerId, merchantId, "";
      counts, evidence, evidenceCount, seen := map[], [], 0, {};
      scores := Scores(0.5, 0.5, 0.5, 0.0);
    }

    method Update(e: SourceEvent)
      modifies this
      ensures State() == Updated(old(State()), e)
      ensures scores == if evidence == [] then old(scores) else ScoresAt(curves, evidence, evidenceCount, e.at)
    {
      hide SignalOf, Base, ScoresAt;
      if e.eventId in seen {
        Snapshot(e.at);
        return;
      }
      seen := seen + {e.eventId};
      customerId, merchantId := e.customerId, e.merchantId;
      if e.traceId != "" {
        sessionId := e.traceId;
      }
      var signal := SignalOf(e);
      var count := if signal in counts then counts[signal] else 0;
      counts := counts[signal := count + 1];
      var multiplier := 1.0 / (1.0 + count as real);
      if count >= CAP {
        multiplier := 0.0;
      }
      assert Base(signal) * multiplier == WeightAfter(signal, count);
      evidence := evidence + [Evidence(signal, e.eventId, e.eventType, e.at, Base(signal) * multiplier)];
      evidenceCount := evidenceCount + 1;
      Snapshot(e.at);
    }

    method Snapshot(now: real)
      modifies this`scores
      ensures scores == if evidence == [] then old(scores) else ScoresAt(curves, evidence, evidenceCount, now)
    {
      if evidence == [] {
        return;
      }
      var shortLogit, longLogit, recent, total := 0.0, 0.0, 0.0, 0.0;
      for i := 0 to |evidence|
        invariant shortLogit == SumBy(Faded(curves.short, now), evidence[..i])
        invariant longLogit == SumBy(Faded(curves.long, now), evidence[..i])
        invariant recent == SumBy(FadedSize(curves.short, now), evidence[..i])
        invariant total == SumBy(FadedSize(curves.long, now), evidence[..i])
      {
        var v := evidence[i];
        var short, long := curves.short(Age(now, v)), curves.long(Age(now, v));
        assert evidence[..i + 1][..i] == evidence[..i];
        shortLogit := shortLogit + v.weight * short;
        longLogit := longLogit + v.weight * long;
        recent := recent + Abs(v.weight) * short;
        total := total + Abs(v.weight) * long;
      }
      assert evidence[..|evidence|] == evidence;
      var short, long := curves.squash(shortLogit), curves.squash(longLogit);
      scores := Scores(short, long, 0.70 * short + 0.30 * long, Confidence(evidenceCount, recent, total));
    }
  }

  // ---------- Consistency over every history ----------

  function OfSignal(s: Signal): Evidence -> bool {
    (v: Evidence) => v.signal == s
  }

  /** One piece of evidence for each seen id, and no other. */
  ghost predicate Identified(i: Intent) {
    && i.evidenceCount == |i.evidence| == |i.seen|
    && (forall x :: x in i.seen ==> exists k :: 0 <= k < |i.evidence| && i.evidence[k].eventId == x)
    && (forall k :: 0 <= k < |i.evidence| ==> i.evidence[k].eventId in i.seen)
    && (forall j, k :: 0 <= j < k < |i.evidence| ==> i.evidence[j].eventId != i.evidence[k].eventId)
  }

  ghost predicate Consistent(i: Intent) {
    && Identified(i)
    && (forall s :: CountOf(i.counts, s) == |Filter(OfSignal(s), i.evidence)|)
    && (forall v :: v in i.evidence ==> Leans(v))
  }

  /** Evidence never weighs against its signal, nor more than the signal's base weight. */
  predicate Leans(v: Evidence) {
    if Base(v.signal) > 0.0 then 0.0 <= v.weight <= Base(v.signal) else Base(v.signal) <= v.weight <= 0.0
  }

  lemma WeightLeans(s: Signal, count: nat)
    ensures var w := WeightAfter(s, count); if Base(s) > 0.0 then 0.0 <= w <= Base(s) else Base(s) <= w <= 0.0
  {
    if count < CAP {
      assert count == 0 || count == 1 || count == 2;
    }
  }

  lemma UpdateKeepsCounts(i: Intent, e: SourceEvent, s: Signal)
    requires CountOf(i.counts, s) == |Filter(OfSignal(s), i.evidence)|
    ensures CountOf(Updated(i, e).counts, s) == |Filter(OfSignal(s), Updated(i, e).evidence)|
  {
    hide SignalOf, WeightAfter;
    var after := Updated(i, e).evidence;
    assert e.eventId !in i.seen ==> after[..|after| - 1] == i.evidence;
  }

  lemma UpdateKeepsIds(i: Intent, e: SourceEvent)
    requires Identified(i)
    ensures Identified(Updated(i, e))
  {
    hide SignalOf, WeightAfter, CountOf;
    if e.eventId !in i.seen {
      var n, j := |i.evidence|, Updated(i, e);
      assert j.evidence[n].eventId == e.eventId;
      assert forall k :: 0 <= k < n ==> j.evidence[k] == i.evidence[k];
      forall x | x in j.seen
        ensures exists k :: 0 <= k < |j.evidence| && j.evidence[k].eventId == x
      {
        if x in i.seen {
          var k :| 0 <= k < n && i.evidence[k].eventId == x;
          assert j.evidence[k].eventId == x;
        }
      }
    }
  }

  lemma UpdateKeepsLeaning(i: Intent, e: SourceEvent)
    requires forall v :: v in i.evidence ==> Leans(v)
    ensures forall v :: v in Updated(i, e).evidence ==> Leans(v)
  {
    hide SignalOf, WeightAfter, CountOf, Base;
    WeightLeans(SignalOf(e), CountOf(i.counts, SignalOf(e)));
  }

  lemma UpdateConsistent(i: Intent, e: SourceEvent)
    requires Consistent(i)
    ensures Consistent(Updated(i, e))
  {
    hide Filter, CountOf, Updated, Identified, Leans;
    forall s
      ensures CountOf(Updated(i, e).counts, s) == |Filter(OfSignal(s), Updated(i, e).evidence)|
    {
      UpdateKeepsCounts(i, e, s);
    }
    UpdateKeepsIds(i, e);
    UpdateKeepsLeaning(i, e);
  }

  /** After every history, evidence, counts and seen ids tell the same story. */
  lemma {:induction false} HistoryConsistent(customerId: string, merchantId: string, log: seq<SourceEvent>)
    ensures Consistent(UpdatedAll(NewIntent(customerId, merchantId), log))
  {
    if |log| == 0 {
    } else {
      HistoryConsistent(customerId, merchantId, log[..|log| - 1]);
      UpdateConsistent(UpdatedAll(NewIntent(customerId, merchantId), log[..|log| - 1]), log[|log| - 1]);
    }
  }

  // ---------- The harmonic cap ----------

  /** What the first `count` weights of a signal come to, for base weight one. */
  function Harmonic(count: nat): real {
    if count == 0 then 0.0 else if count == 1 then 1.0 else if count == 2 then 3.0 / 2.0 else 11.0 / 6.0
  }

  function Total(f: Signal -> real): real {
    f(CheckoutStarted) + f(PaymentMethodSelected) + f(PaymentAttempted) + f(PaymentRetry)
    + f(CustomerReturned) + f(SuccessfulPayment) + f(PreviousSuccess)
    + f(CheckoutAbandoned) + f(PaymentFailed) + f(HardDecline) + f(RepeatedFailure) + f(LongInactivity)
  }

  /** The size of evidence, where its signal is selected. */
  function SizeWhere(chosen: Signal -> bool): Evidence -> real {
    (v: Evidence) => if chosen(v.signal) then Abs(v.weight) else 0.0
  }

  function CapWhere(chosen: Signal -> bool, counts: map<Signal, nat>): Signal -> real {
    (s: Signal) => if chosen(s) then Abs(Base(s)) * Harmonic(CountOf(counts, s)) else 0.0
  }

  lemma WeightIsHarmonicStep(s: Signal, count: nat)
    ensures Abs(WeightAfter(s, count)) == Abs(Base(s)) * Harmonic(count + 1) - Abs(Base(s)) * Harmonic(count)
  {
    if count < CAP {
      assert count == 0 || count == 1 || count == 2;
    }
  }

  lemma TotalStep(f: Signal -> real, g: Signal -> real, s: Signal)
    requires forall t :: t != s ==> f(t) == g(t)
    ensures Total(g) == Total(f) + g(s) - f(s)
  {
  }

  lemma {:induction false} SizesOf(chosen: Signal -> bool, i: Intent, log: seq<SourceEvent>)
    requires i.evidence == [] && i.counts == map[]
    ensures var j := UpdatedAll(i, log); SumBy(SizeWhere(chosen), j.evidence) == Total(CapWhere(chosen, j.counts))
  {
    if |log| == 0 {
    } else {
      SizesOf(chosen, i, log[..|log| - 1]);
      SizeStep(chosen, UpdatedAll(i, log[..|log| - 1]), log[|log| - 1]);
    }
  }

  lemma CapsElsewhere(chosen: Signal -> bool, counts: map<Signal, nat>, s: Signal)
    ensures var more := counts[s := CountOf(counts, s) + 1];
            forall t :: t != s ==> CapWhere(chosen, counts)(t) == CapWhere(chosen, more)(t)
  {
    hide Harmonic, Base;
    var more := counts[s := CountOf(counts, s) + 1];
    forall t | t != s
      ensures CapWhere(chosen, counts)(t) == CapWhere(chosen, more)(t)
    {
      assert CountOf(counts, t) == CountOf(more, t);
    }
  }

  lemma SizeStep(chosen: Signal -> bool, i: Intent, e: SourceEvent)
    requires SumBy(SizeWhere(chosen), i.evidence) == Total(CapWhere(chosen, i.counts))
    ensures var j := Updated(i, e); SumBy(SizeWhere(chosen), j.evidence) == Total(CapWhere(chosen, j.counts))
  {
    hide SignalOf, WeightAfter, Harmonic, Base, Total;
    if e.eventId !in i.seen {
      var s, j := SignalOf(e), Updated(i, e);
      WeightIsHarmonicStep(s, CountOf(i.counts, s));
      assert j.evidence[..|j.evidence| - 1] == i.evidence;
      CapsElsewhere(chosen, i.counts, s);
      TotalStep(CapWhere(chosen, i.counts), CapWhere(chosen, j.counts), s);
    }
  }

  /** Over every history the evidence of a signal weighs its base weight times 0, 1, 3/2 or at most 11/6. */
  lemma SignalWeight(customerId: string, merchantId: string, log: seq<SourceEvent>, s: Signal)
    ensures var j := UpdatedAll(NewIntent(customerId, merchantId), log);
            && SumBy(SizeWhere((t: Signal) => t == s), j.evidence) == Abs(Base(s)) * Harmonic(CountOf(j.counts, s))
            && SumBy(SizeWhere((t: Signal) => t == s), j.evidence) <= 11.0 / 6.0 * Abs(Base(s))
  {
    hide UpdatedAll, SumBy, Total, Base;
    SizesOf((t: Signal) => t == s, NewIntent(customerId, merchantId), log);
    TotalOfOne(s, UpdatedAll(NewIntent(customerId, merchantId), log).counts);
  }

  lemma TotalOfOne(s: Signal, counts: map<Signal, nat>)
    ensures Total(CapWhere((t: Signal) => t == s, counts)) == Abs(Base(s)) * Harmonic(CountOf(counts, s))
  {
    hide Base, Harmonic, CountOf;
  }

  // ---------- Bounds on the logits ----------

  function Supports(): Signal -> bool {
    (s: Signal) => Base(s) > 0.0
  }

  function Opposes(): Signal -> bool {
    (s: Signal) => Base(s) < 0.0
  }

  /** Two signals of the table come from no event. */
  lemma {:induction false} SignalsThatOccur(i: Intent, log: seq<SourceEvent>)
    requires i.counts == map[]
    ensures var counts := UpdatedAll(i, log).counts;
            CountOf(counts, PaymentMethodSelected) == CountOf(counts, RepeatedFailure) == 0
  {
    if |log| == 0 {
    } else {
      SignalsThatOccur(i, log[..|log| - 1]);
    }
  }

  lemma CapsOf(i: Intent, log: seq<SourceEvent>)
    requires i.evidence == [] && i.counts == map[]
    ensures var j := UpdatedAll(i, log);
            && Total(CapWhere(Supports(), j.counts)) <= 11.0 / 6.0 * 4.30
            && Total(CapWhere(Opposes(), j.counts)) <= 11.0 / 6.0 * 2.65
  {
    hide UpdatedAll;
    SignalsThatOccur(i, log);
  }

  /**
   For every history, every time and every decay into [0, 1]: a logit lies between -11/6 of the
   weights that can count against the customer and 11/6 of those that can count for them, so
   the clamp at -60 and 60 in the sigmoid is never reached.
   */
  lemma LogitBounded(customerId: string, merchantId: string, log: seq<SourceEvent>, f: real -> real, now: real)
    requires forall age :: Fades(f, age)
    ensures var logit := SumBy(Faded(f, now), UpdatedAll(NewIntent(customerId, merchantId), log).evidence);
            && -(11.0 / 6.0 * 2.65) <= logit <= 11.0 / 6.0 * 4.30
            && -60.0 < logit < 60.0
  {
    hide UpdatedAll, SumBy, Total;
    var i := NewIntent(customerId, merchantId);
    var evidence := UpdatedAll(i, log).evidence;
    HistoryConsistent(customerId, merchantId, log);
    CapsOf(i, log);
    SizesOf(Supports(), i, log);
    SizesOf(Opposes(), i, log);
    forall v | v in evidence
      ensures Faded(f, now)(v) <= SizeWhere(Supports())(v)
      ensures Against()(v) <= Faded(f, now)(v)
    {
      FadedBetween(f, now, v);
    }
    SumByMonotone(Faded(f, now), SizeWhere(Supports()), evidence);
    SumByMonotone(Against(), Faded(f, now), evidence);
    SumOfAgainst(evidence);
  }

  function Against(): Evidence -> real {
    (v: Evidence) => -SizeWhere(Opposes())(v)
  }

  lemma SidesOf(v: Evidence)
    requires Leans(v)
    ensures Against()(v) == if v.weight < 0.0 then v.weight else 0.0
    ensures SizeWhere(Supports())(v) == if v.weight > 0.0 then v.weight else 0.0
  {
    hide Base;
    assert Opposes()(v.signal) == (Base(v.signal) < 0.0) && Supports()(v.signal) == (Base(v.signal) > 0.0);
    assert Against()(v) == -SizeWhere(Opposes())(v);
  }

  lemma FadedBetween(f: real -> real, now: real, v: Evidence)
    requires Leans(v) && Fades(f, Age(now, v))
    ensures Against()(v) <= Faded(f, now)(v) <= SizeWhere(Supports())(v)
  {
    hide Base, Age, Leans, Against, SizeWhere, Supports, Opposes;
    SidesOf(v);
    Scaled(v.weight, f(Age(now, v)), Faded(f, now)(v));
  }

  lemma Scaled(w: real, d: real, x: real)
    requires 0.0 <= d <= 1.0 && x == w * d
    ensures (if w < 0.0 then w else 0.0) <= x <= if w > 0.0 then w else 0.0
  {
    if w >= 0.0 {
      assert w * d >= 0.0 && w * (1.0 - d) >= 0.0;
    } else {
      assert w * d <= 0.0 && w * (1.0 - d) <= 0.0;
    }
  }

  lemma {:induction false} SumOfAgainst(s: seq<Evidence>)
    ensures SumBy(Against(), s) == -SumBy(SizeWhere(Opposes()), s)
  {
    if |s| == 0 {
    } else {
      SumOfAgainst(s[..|s| - 1]);
    }
  }
}
