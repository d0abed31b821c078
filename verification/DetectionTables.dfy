/** What the detection consumer lets in, and what its state and detections say of the events let in. */
module DetectionTables {
  import opened Collections
  import opened CustomerIntent
  import opened IntentSignals
  import opened RootCauseAnalysis
  import opened RcaConfidence
  import opened Detection

  // ---------- Valid events ----------

  const TYPES: seq<string> :=
    ["checkout_started", "checkout_completed", "checkout_failed",
     "payment_created", "payment_link_clicked", "payment_succeeded", "payment_failed",
     "authorization_requested", "authorization_succeeded", "authorization_failed",
     "capture_requested", "capture_succeeded", "capture_failed",
     "settlement_batch_ready", "settlement_batch_processing", "settlement_batch_succeeded", "settlement_batch_failed"]

  /** The stage that each of these types belongs to. */
  const STAGES: seq<string> :=
    ["checkout", "checkout", "checkout", "payment", "payment", "payment", "payment",
     "authorization", "authorization", "authorization", "capture", "capture", "capture",
     "settlement", "settlement", "settlement", "settlement"]

  /** The positions of the types that a success may have, and a failure. */
  const SUCCEEDING: seq<nat> := [0, 1, 3, 5, 7, 8, 10, 11]
  const FAILING: seq<nat> := [2, 6, 9, 12]

  predicate StatusFits(e: SourceEvent, i: nat) {
    || (e.status == "unknown" && e.failureCode == "")
    || (e.status == "success" && e.failureCode == "" && i in SUCCEEDING)
    || (e.status == "failure" && i in FAILING
        && e.failureCode in {"TIMEOUT", "ISSUER_TIMEOUT", "GATEWAY_ERROR", "ISSUER_DECLINED",
                             "INSUFFICIENT_FUNDS", "SERVICE_ERROR", "UNKNOWN_ERROR"})
  }

  predicate InTable(e: SourceEvent, i: nat) {
    i < 17 && e.stage == STAGES[i] && e.eventType == TYPES[i] && StatusFits(e, i)
  }

  lemma TypesDiffer(i: nat, j: nat)
    requires i < 17 && j < 17 && TYPES[i] == TYPES[j]
    ensures i == j
  {
    assert |TYPES[0]| == 16 && |TYPES[1]| == 18 && |TYPES[2]| == 15 && |TYPES[3]| == 15 && |TYPES[4]| == 20;
    assert |TYPES[5]| == 17 && |TYPES[6]| == 14 && |TYPES[7]| == 23 && |TYPES[8]| == 23 && |TYPES[9]| == 20;
    assert |TYPES[10]| == 17 && |TYPES[11]| == 17 && |TYPES[12]| == 14 && |TYPES[13]| == 22;
    assert |TYPES[14]| == 27 && |TYPES[15]| == 26 && |TYPES[16]| == 23;
    assert TYPES[2][0] == TYPES[10][0] == TYPES[11][0] == TYPES[12][0] == 'c';
    assert TYPES[3][0] == TYPES[4][0] == TYPES[5][0] == TYPES[6][0] == 'p';
    assert TYPES[7][0] == TYPES[8][0] == TYPES[9][0] == 'a' && TYPES[16][0] == 's';
    assert TYPES[7][14] == 'r' && TYPES[8][14] == 's' && TYPES[10][8] == 'r' && TYPES[11][8] == 's';
  }

  lemma AtTypes(stage: string, t: string)
    ensures t in TypesOf(stage) <==> exists i: nat :: i < 17 && STAGES[i] == stage && TYPES[i] == t
  {
    assert STAGES[0] == STAGES[1] == STAGES[2] == "checkout";
    assert STAGES[3] == STAGES[4] == STAGES[5] == STAGES[6] == "payment";
    assert STAGES[7] == STAGES[8] == STAGES[9] == "authorization";
    assert STAGES[10] == STAGES[11] == STAGES[12] == "capture";
    assert STAGES[13] == STAGES[14] == STAGES[15] == STAGES[16] == "settlement";
    assert |"checkout"| == 8 && |"payment"| == 7 && |"authorization"| == 13 && |"capture"| == 7 && |"settlement"| == 10;
    assert "payment"[0] == 'p' && "capture"[0] == 'c';
  }

  lemma AtSuccess(i: nat)
    requires i < 17
    ensures TYPES[i] in SUCCESS_TYPES || TYPES[i] in STARTED_TYPES <==> i in SUCCEEDING
  {
    var t := TYPES[i];
    assert SUCCESS_TYPES + STARTED_TYPES ==
           {TYPES[0], TYPES[1], TYPES[3], TYPES[5], TYPES[7], TYPES[8], TYPES[10], TYPES[11]};
    if t in SUCCESS_TYPES + STARTED_TYPES {
      var j :| j in SUCCEEDING && TYPES[j] == t;
      TypesDiffer(i, j);
    }
    assert SUCCEEDING[0] == 0 && SUCCEEDING[1] == 1 && SUCCEEDING[2] == 3 && SUCCEEDING[3] == 5;
    assert SUCCEEDING[4] == 7 && SUCCEEDING[5] == 8 && SUCCEEDING[6] == 10 && SUCCEEDING[7] == 11;
  }

  lemma AtFailure(i: nat)
    requires i < 17
    ensures TYPES[i] in FAILURE_TYPES <==> i in FAILING
  {
    var t := TYPES[i];
    assert FAILURE_TYPES == {TYPES[2], TYPES[6], TYPES[9], TYPES[12]};
    if t in FAILURE_TYPES {
      var j :| j in FAILING && TYPES[j] == t;
      TypesDiffer(i, j);
    }
    assert FAILING[0] == 2 && FAILING[1] == 6 && FAILING[2] == 9 && FAILING[3] == 12;
  }

  /** An event is valid if and only if its five ids are there and the table has its stage, type, status and code. */
  lemma ValidIff(e: SourceEvent)
    ensures IsValid(e) <==>
            && |e.eventId| > 0 && |e.transactionId| > 0 && |e.paymentId| > 0 && |e.orderId| > 0 && |e.traceId| > 0
            && exists i: nat :: InTable(e, i)
  {
    hide TypesOf;
    AtTypes(e.stage, e.eventType);
    if e.eventType in TypesOf(e.stage) {
      var i: nat :| i < 17 && STAGES[i] == e.stage && TYPES[i] == e.eventType;
      AtSuccess(i);
      AtFailure(i);
      assert IsValid(e) && |e.eventId| > 0 ==> InTable(e, i);
    }
    if i: nat :| InTable(e, i) {
      AtSuccess(i);
      AtFailure(i);
    }
  }

  // ---------- Evidence ----------

  /** Whether evidence of the event, which carries no flag, counts against the customer. */
  predicate CountsAgainst(e: SourceEvent) {
    e.status != "success" && e.eventType !in {"checkout_started", "payment_created", "payment_succeeded"}
  }

  lemma SuccessIsNoFailure(t: string)
    requires t in SUCCESS_TYPES || t in STARTED_TYPES
    ensures t != "checkout_failed" && t != "checkout_abandoned"
  {
    assert |"checkout_failed"| == 15 && |"checkout_abandoned"| == 18;
    assert |"checkout_started"| == 16 && |"checkout_completed"| == 18 && |"payment_created"| == 15;
    assert |"payment_succeeded"| == 17 && |"authorization_requested"| == 23 && |"authorization_succeeded"| == 23;
    assert |"capture_requested"| == 17 && |"capture_succeeded"| == 17;
    assert "checkout_completed"[9] == 'c' && "checkout_abandoned"[9] == 'a';
    assert "payment_created"[0] == 'p' && "checkout_failed"[0] == 'c';
  }

  lemma ValidCases(e: SourceEvent)
    requires IsValid(e)
    ensures e.status == "failure" ==> EndsInFailed(e)
    ensures e.status != "failure" ==> e.failureCode == ""
    ensures e.status == "success" ==> e.eventType != "checkout_failed" && e.eventType != "checkout_abandoned"
  {
    hide TypesOf;
    ValidFailure(e);
    SuffixFailed(e);
    if e.status == "success" {
      SuccessIsNoFailure(e.eventType);
    }
  }

  /** A valid event without a flag speaks for its customer or against, if it is among the first three of its signal. */
  lemma SignOfEvidence(e: SourceEvent, v: Evidence, n: nat)
    requires IsValid(e) && !Flagged(e) && FollowsTable(e, v, n)
    ensures n < 3 && CountsAgainst(e) <==> v.weight < 0.0
    ensures n < 3 && !CountsAgainst(e) <==> v.weight > 0.0
    ensures e.status == "failure" ==> CountsAgainst(e)
  {
    hide IsValid, TypesOf, EndsInFailed;
    ValidCases(e);
    NamesDoNotFail();
    assert !Declined(e) || e.failureCode != "";
  }

  /** The pieces of evidence before the k-th that have its signal. */
  function EarlierAlike(evidence: seq<Evidence>, k: nat): nat
    requires k < |evidence|
  {
    |Filter(OfSignal(evidence[k].signal), evidence[..k])|
  }

  lemma {:induction false} EvidenceOfEach(own: seq<SourceEvent>)
    requires Distinct(own)
    ensures var evidence := UpdatedAll(NOBODY, own).evidence;
            && |evidence| == |own|
            && forall k :: 0 <= k < |own| ==> FollowsTable(own[k], evidence[k], EarlierAlike(evidence, k))
  {
    hide FollowsTable, SignalOf, WeightAfter, Filter;
    if |own| == 0 {
    } else {
      var before, e, n := own[..|own| - 1], own[|own| - 1], |own| - 1;
      EvidenceOfEach(before);
      EveryEventIsEvidence(own);
      EveryEventIsEvidence(before);
      NewAtEnd(own);
      EvidenceFollowsTable("", "", before, e);
      var was, now := UpdatedAll(NOBODY, before).evidence, UpdatedAll(NOBODY, own).evidence;
      assert now[..n] == was;
      forall k | 0 <= k < n
        ensures FollowsTable(own[k], now[k], EarlierAlike(now, k))
      {
        assert now[k] == was[k] && now[..k] == was[..k] && before[k] == own[k];
      }
    }
  }

  lemma NewAtEnd(own: seq<SourceEvent>)
    requires Distinct(own) && |own| > 0
    ensures !HasId(own[..|own| - 1], own[|own| - 1].eventId)
  {
  }

  /**
   After any log, a customer's k-th piece of evidence follows the table for the customer's k-th
   event; without a flag it counts against the customer just where that event failed or was
   neither a success nor one of the two that start something, unless three alike came before it.
   */
  lemma EvidenceOfLog(log: seq<SourceEvent>, key: string, k: nat)
    requires k < |Filter(WithIntentKey(key), FirstValid(log))|
    ensures var own := Filter(WithIntentKey(key), FirstValid(log));
            && key in ProcessedAll(log).intents
            && var evidence := ProcessedAll(log).intents[key].evidence;
               && |evidence| == |own| && evidence[k].eventId == own[k].eventId
               && FollowsTable(own[k], evidence[k], EarlierAlike(evidence, k))
               && (!Flagged(own[k]) ==>
                     (evidence[k].weight < 0.0 <==> CountsAgainst(own[k]) && EarlierAlike(evidence, k) < 3))
  {
    hide ProcessedAll, FirstValid, Filter, UpdatedAll, FollowsTable, IsValid;
    var own := Filter(WithIntentKey(key), FirstValid(log));
    AccumulatorsAreFolds(log, key);
    FirstValidDistinct(log);
    FilterDistinct(WithIntentKey(key), FirstValid(log));
    EvidenceOfEach(own);
    EveryEventIsEvidence(own);
    assert own[k] in own && own[k] in FirstValid(log);
    if !Flagged(own[k]) {
      SignOfEvidence(own[k], UpdatedAll(NOBODY, own).evidence[k], EarlierAlike(UpdatedAll(NOBODY, own).evidence, k));
    }
  }

  // ---------- Keys ----------

  lemma {:induction false} JoinedIff(a: string, b: string, x: string, y: string, c: char)
    requires c !in a && c !in x
    ensures a + [c] + b == x + [c] + y <==> a == x && b == y
  {
    var s, t := a + [c] + b, x + [c] + y;
    assert s[|a|] == c && t[|x|] == c;
    assert |a| < |x| ==> t[|a|] == x[|a|];
    assert |x| < |a| ==> s[|x|] == a[|x|];
    if s == t {
      assert s[..|a|] == a && t[..|x|] == x;
      assert s[|a| + 1..] == b && t[|x| + 1..] == y;
    }
  }

  /**
   As long as no separator is in the way, evidence is kept by merchant and customer and averages
   by stage, method and provider.
   */
  lemma KeysIff(e: SourceEvent, f: SourceEvent)
    ensures ':' !in e.merchantId && ':' !in f.merchantId ==>
              (IntentKey(e) == IntentKey(f) <==> e.merchantId == f.merchantId && e.customerId == f.customerId)
    ensures '|' !in e.stage + e.paymentMethod && '|' !in f.stage + f.paymentMethod ==>
              (DegradationKey(e) == DegradationKey(f) <==>
               e.stage == f.stage && e.paymentMethod == f.paymentMethod && e.provider == f.provider)
  {
    if ':' !in e.merchantId && ':' !in f.merchantId {
      JoinedIff(e.merchantId, e.customerId, f.merchantId, f.customerId, ':');
      assert ":" == [':'];
    }
    if '|' !in e.stage + e.paymentMethod && '|' !in f.stage + f.paymentMethod {
      var x, y := e.paymentMethod + "|" + e.provider, f.paymentMethod + "|" + f.provider;
      assert DegradationKey(e) == e.stage + ['|'] + x && DegradationKey(f) == f.stage + ['|'] + y;
      JoinedIff(e.stage, x, f.stage, y, '|');
      JoinedIff(e.paymentMethod, e.provider, f.paymentMethod, f.provider, '|');
      assert x == e.paymentMethod + ['|'] + e.provider && y == f.paymentMethod + ['|'] + f.provider;
    }
  }

  // ---------- Averages ----------

  /** The first event sets the average; each later one moves it three tenths of the way to 1 or to 0. */
  lemma AverageMoves(log: seq<SourceEvent>, e: SourceEvent)
    ensures AveragedAll(log + [e]).Some?
    ensures |log| == 0 ==> AveragedAll(log + [e]).value == if e.status == "success" then 1.0 else 0.0
    ensures |log| > 0 ==>
              && AveragedAll(log).Some?
              && 10.0 * AveragedAll(log + [e]).value ==
                 7.0 * AveragedAll(log).value + if e.status == "success" then 3.0 else 0.0
  {
    AveragedAppend(log, e);
    AverageBounded(log);
  }

  lemma {:induction false} AllSuccesses(log: seq<SourceEvent>)
    requires |log| > 0 && forall e :: e in log ==> e.status == "success"
    ensures AveragedAll(log) == Some(1.0)
  {
    var before := log[..|log| - 1];
    assert log == before + [log[|log| - 1]];
    if |before| == 0 {
    } else {
      AllSuccesses(before);
    }
  }

  /** After nothing but successes it takes exactly three events without one to fall below 0.45. */
  lemma ThreeFailures(log: seq<SourceEvent>, x: SourceEvent, y: SourceEvent, z: SourceEvent)
    requires |log| > 0 && forall e :: e in log ==> e.status == "success"
    requires x.status != "success" && y.status != "success" && z.status != "success"
    ensures AveragedAll(log + [x]) == Some(0.7) && AveragedAll(log + [x] + [y]) == Some(0.49)
    ensures AveragedAll(log + [x] + [y] + [z]) == Some(0.343)
  {
    AllSuccesses(log);
    AverageMoves(log, x);
    AverageMoves(log + [x], y);
    AverageMoves(log + [x] + [y], z);
  }

  // ---------- Detections and the state ----------

  /** What a detection says of the events before and with its source. */
  ghost predicate Tells(digest: string -> string, log: seq<SourceEvent>, d: Detection) {
    var e, kept := d.source, FirstValid(log);
    && d.detectionId == "det_" + digest(e.eventId)
    && AveragedAll(Filter(WithDegradationKey(DegradationKey(e)), kept)) == Some(d.average)
    && (d.anomaly <==> d.average < 0.45)
    && d.intent == UpdatedAll(NOBODY, Filter(WithIntentKey(IntentKey(e)), kept))
    && d.cause == CauseOf(ObservedAll(Map(ObservationOf(), kept)), ObservationOf()(e))
    && (if d.cause.UnknownCause? then 0.5 < d.cause.confidence <= 0.6 else 0.95 <= d.cause.confidence <= 0.99)
  }

  /**
   A detection, wherever it comes in a log, is told by the first valid events up to it: its
   average, its anomaly below 0.45, the evidence of its customer, the cause and the confidence in it.
   */
  lemma DetectionTells(digest: string -> string, before: seq<SourceEvent>, e: SourceEvent)
    requires Detected(digest, ProcessedAll(before), e).Some?
    ensures Tells(digest, before + [e], Detected(digest, ProcessedAll(before), e).value)
    ensures Detected(digest, ProcessedAll(before), e).value.source == e
  {
    hide IsValid, FirstValid, Filter, AveragedAll, UpdatedAll, ObservedAll, CauseOf, Observed, Updated, Averaged;
    hide IntentKey, DegradationKey;
    var log := before + [e];
    assert log[..|before|] == before;
    var s := ProcessedAll(before);
    assert ProcessedAll(log) == Absorbed(s, e);
    AccumulatorsAreFolds(log, DegradationKey(e));
    AccumulatorsAreFolds(log, IntentKey(e));
    assert ObservationOf()(e).failed;
    ConfidenceGap(s.counts, ObservationOf()(e));
  }

  /** What is kept of an id: the identity of the first valid event that came with it. */
  lemma {:induction false} SeenTells(log: seq<SourceEvent>, id: string)
    requires id in ProcessedAll(log).seen
    ensures exists e :: e in FirstValid(log) && e.eventId == id
                        && ProcessedAll(log).seen[id] ==
                           Identity(e.transactionId, e.paymentId, e.orderId, e.merchantId, e.traceId)
  {
    hide IsValid, Observed, Updated, Averaged;
    var before, e := log[..|log| - 1], log[|log| - 1];
    FreshIff(before, e);
    if Fresh(ProcessedAll(before), e) && e.eventId == id {
      assert e in FirstValid(log);
    } else {
      SeenTells(before, id);
      var f :| f in FirstValid(before) && f.eventId == id
               && ProcessedAll(before).seen[id] ==
                  Identity(f.transactionId, f.paymentId, f.orderId, f.merchantId, f.traceId);
      assert f in FirstValid(log);
    }
  }

  // ---------- Counts ----------

  function AtSameProvider(e: SourceEvent, provider: string): SourceEvent -> bool {
    (x: SourceEvent) => x.stage == e.stage && x.paymentMethod == e.paymentMethod && x.provider == provider
  }

  function FailedAtSame(e: SourceEvent, provider: string): SourceEvent -> bool {
    (x: SourceEvent) => AtSameProvider(e, provider)(x) && x.status == "failure"
  }

  /** The i-th thing that two events may have in common; events without a failure code share that. */
  function Shares(e: SourceEvent, i: nat): SourceEvent -> bool {
    (x: SourceEvent) =>
      if i == 0 then x.stage == e.stage && x.paymentMethod == e.paymentMethod
      else if i == 1 then x.paymentMethod == e.paymentMethod && x.provider == e.provider
      else x.provider == e.provider && x.failureCode == e.failureCode
  }

  lemma {:induction false} FilterMap<T(!new), U(!new)>(f: T -> U, p: U -> bool, q: T -> bool, s: seq<T>)
    requires forall x :: x in s ==> p(f(x)) == q(x)
    ensures |Filter(p, Map(f, s))| == |Filter(q, s)|
  {
    if |s| == 0 {
    } else {
      FilterMap(f, p, q, s[..|s| - 1]);
      assert Map(f, s)[..|s| - 1] == Map(f, s[..|s| - 1]);
    }
  }

  /** After any log the counts behind an explanation are numbers of first valid events. */
  lemma CountsTell(log: seq<SourceEvent>, e: SourceEvent, provider: string, i: nat)
    requires i < 3 && IsValid(e)
    ensures var c, o, kept := ProcessedAll(log).counts, ObservationOf()(e), FirstValid(log);
            && Seen(c, o, provider).total == |Filter(AtSameProvider(e, provider), kept)|
            && Seen(c, o, provider).failures == |Filter(FailedAtSame(e, provider), kept)|
            && WeightOf(c, EdgeAt(o, i)) == |Filter(Shares(e, i), kept)|
  {
    hide ProcessedAll, FirstValid, Filter, Map, ObservedAll, WeightOf, StatsOf, IsValid, EdgeAt;
    var o, kept := ObservationOf()(e), FirstValid(log);
    CountsOfFirst(log);
    FirstValidDistinct(log);
    CountsOfLog(Map(ObservationOf(), kept), o, provider, i);
    forall x | x in kept
      ensures AtProvider(o.stage, o.paymentMethod, provider)(ObservationOf()(x)) == AtSameProvider(e, provider)(x)
      ensures FailedAtProvider(o.stage, o.paymentMethod, provider)(ObservationOf()(x)) == FailedAtSame(e, provider)(x)
      ensures SharesStep(o, i)(ObservationOf()(x)) == Shares(e, i)(x)
    {
      CodesApart(e, x);
    }
    FilterMap(ObservationOf(), AtProvider(o.stage, o.paymentMethod, provider), AtSameProvider(e, provider), kept);
    FilterMap(ObservationOf(), FailedAtProvider(o.stage, o.paymentMethod, provider), FailedAtSame(e, provider), kept);
    FilterMap(ObservationOf(), SharesStep(o, i), Shares(e, i), kept);
  }

  /** No valid event has the text that stands for no failure code. */
  lemma CodesApart(e: SourceEvent, x: SourceEvent)
    requires IsValid(e) && IsValid(x)
    ensures ObservationOf()(e).failureCode == ObservationOf()(x).failureCode <==> e.failureCode == x.failureCode
  {
    hide TypesOf;
    assert |"NO_FAILURE"| == 10 && |"TIMEOUT"| == 7 && |"ISSUER_TIMEOUT"| == 14 && |"GATEWAY_ERROR"| == 13;
    assert |"ISSUER_DECLINED"| == 15 && |"INSUFFICIENT_FUNDS"| == 18 && |"SERVICE_ERROR"| == 13;
    assert |"UNKNOWN_ERROR"| == 13;
  }
}
