/** The detection consumer: validation, one effect per event id, and the three accumulators. */
module Detection {
  import opened Collections
  import opened CustomerIntent
  import opened RootCauseAnalysis

  // ---------- Validation ----------

  function TypesOf(stage: string): set<string> {
    if stage == "checkout" then {"checkout_started", "checkout_completed", "checkout_failed"}
    else if stage == "payment" then {"payment_created", "payment_link_clicked", "payment_succeeded", "payment_failed"}
    else if stage == "authorization" then {"authorization_requested", "authorization_succeeded", "authorization_failed"}
    else if stage == "capture" then {"capture_requested", "capture_succeeded", "capture_failed"}
    else if stage == "settlement" then
      {"settlement_batch_ready", "settlement_batch_processing", "settlement_batch_succeeded", "settlement_batch_failed"}
    else {}
  }

  const FAILURE_CODES: set<string> :=
    {"TIMEOUT", "ISSUER_TIMEOUT", "GATEWAY_ERROR", "ISSUER_DECLINED", "INSUFFICIENT_FUNDS", "SERVICE_ERROR",
     "UNKNOWN_ERROR"}
  const SUCCESS_TYPES: set<string> :=
    {"checkout_completed", "payment_succeeded", "authorization_succeeded", "capture_succeeded"}
  const FAILURE_TYPES: set<string> := {"checkout_failed", "payment_failed", "authorization_failed", "capture_failed"}
  const STARTED_TYPES: set<string> :=
    {"checkout_started", "payment_created", "authorization_requested", "capture_requested"}

  /** Whether an event with all required fields passes the checks of ingestion. */
  predicate IsValid(e: SourceEvent) {
    && e.eventId != "" && e.transactionId != "" && e.paymentId != "" && e.orderId != "" && e.traceId != ""
    && e.eventType in TypesOf(e.stage)
    && e.status in {"success", "failure", "unknown"}
    && (e.status == "success" ==> e.eventType in SUCCESS_TYPES || e.eventType in STARTED_TYPES)
    && (e.status == "failure" ==> e.eventType in FAILURE_TYPES && e.failureCode in FAILURE_CODES)
    && (e.status != "failure" ==> e.failureCode == "")
  }

  predicate IsFailure(e: SourceEvent) {
    e.status == "failure" && EndsWith(e.eventType, "_failed")
  }

  // ---------- Accumulators ----------

  datatype Identity = Identity(transactionId: string, paymentId: string, orderId: string, merchantId: string,
                               traceId: string)

  function IdentityOf(e: SourceEvent): Identity {
    Identity(e.transactionId, e.paymentId, e.orderId, e.merchantId, e.traceId)
  }

  function ObservationOf(): SourceEvent -> Observation {
    (e: SourceEvent) => Observation(e.stage, e.paymentMethod, e.provider,
                                    if e.failureCode == "" then "NO_FAILURE" else e.failureCode, e.status == "failure")
  }

  const ALPHA: real := 0.3
  const THRESHOLD: real := 0.45

  /** The moving average of success after one more event; None before the first. */
  function Averaged(value: Option<real>, success: bool): real {
    var metric := if success then 1.0 else 0.0;
    match value
    case None => metric
    case Some(v) => ALPHA * metric + (1.0 - ALPHA) * v
  }

  /** The keys are texts, so different fields may share a key where they hold the separator. */
  function IntentKey(e: SourceEvent): string {
    e.merchantId + ":" + e.customerId
  }

  function DegradationKey(e: SourceEvent): string {
    e.stage + "|" + e.paymentMethod + "|" + e.provider
  }

  datatype State = State(
    seen: map<string, Identity>, counts: Counts, averages: map<string, real>, intents: map<string, Intent>)

  const START: State := State(map[], Counts(map[], map[]), map[], map[])

  /** What a detection says, apart from fields copied from its source event. */
  datatype Detection = Detection(detectionId: string, source: SourceEvent, average: real, anomaly: bool,
                                 intent: Intent, cause: Cause)

  function AverageOf(s: State, key: string): Option<real> {
    if key in s.averages then Some(s.averages[key]) else None
  }

  function IntentOf(s: State, e: SourceEvent): Intent {
    if IntentKey(e) in s.intents then s.intents[IntentKey(e)] else NewIntent(e.customerId, e.merchantId)
  }

  /**
   The state after an event that is valid and new. One whose timestamp does not parse raises an
   error half way: its id is taken and its observation counted, and nothing else.
   */
  function Absorbed(s: State, e: SourceEvent): State {
    State(s.seen[e.eventId := IdentityOf(e)],
          Observed(s.counts, ObservationOf()(e)),
          if !e.parses then s.averages
          else s.averages[DegradationKey(e) := Averaged(AverageOf(s, DegradationKey(e)), e.status == "success")],
          if !e.parses then s.intents else s.intents[IntentKey(e) := Updated(IntentOf(s, e), e)])
  }

  predicate Fresh(s: State, e: SourceEvent) {
    IsValid(e) && e.eventId !in s.seen
  }

  function Processed(s: State, e: SourceEvent): State {
    if Fresh(s, e) then Absorbed(s, e) else s
  }

  /** The detection id is "det_" and a digest of the event id. */
  function DetectionId(digest: string -> string, eventId: string): string {
    "det_" + digest(eventId)
  }

  /** The detection of a new failure; none where its id would be that of its event. */
  ghost function Detected(digest: string -> string, s: State, e: SourceEvent): Option<Detection> {
    if !Fresh(s, e) || !e.parses || !IsFailure(e) || DetectionId(digest, e.eventId) == e.eventId then None
    else
      var after := Absorbed(s, e);
      var average := after.averages[DegradationKey(e)];
      Some(Detection(DetectionId(digest, e.eventId), e, average, average < THRESHOLD,
                     after.intents[IntentKey(e)], CauseOf(after.counts, ObservationOf()(e))))
  }

  class DetectionConsumer {
    var seen: map<string, Identity>
    const rca: RCAEngine
    var averages: map<string, real>
    var intents: map<string, Intent>

    ghost function Content(): State
      reads this, rca
    {
      State(seen, rca.State(), averages, intents)
    }

    constructor ()
      ensures Content() == START && fresh(rca)
    {
      seen, averages, intents := map[], map[], map[];
      rca := new RCAEngine();
    }

    /** `raised` is the error of a timestamp that does not parse. */
    method ProcessEvent(digest: string -> string, e: SourceEvent) returns (r: Option<Detection>, raised: bool)
      modifies this, rca
      ensures Content() == Processed(old(Content()), e)
      ensures r == Detected(digest, old(Content()), e)
      ensures raised <==> Fresh(old(Content()), e) && !e.parses
    {
      hide IsValid, Observed, Updated, CauseOf, Averaged;
      if !IsValid(e) {
        return None, false;
      }
      if e.eventId in seen {
        return None, false;
      }
      seen := seen[e.eventId := IdentityOf(e)];
      rca.Observe(ObservationOf()(e));
      if !e.parses {
        return None, true;
      }
      var key := DegradationKey(e);
      var average := Averaged(if key in averages then Some(averages[key]) else None, e.status == "success");
      averages := averages[key := average];
      var customer := IntentKey(e);
      var known := if customer in intents then intents[customer] else NewIntent(e.customerId, e.merchantId);
      var intent := Updated(known, e);
      intents := intents[customer := intent];
      if !IsFailure(e) {
        return None, false;
      }
      var cause := rca.Explain(ObservationOf()(e));
      var id := DetectionId(digest, e.eventId);
      if id == e.eventId {
        return None, false;
      }
      return Some(Detection(id, e, average, average < THRESHOLD, intent, cause)), false;
    }
  }

  // ---------- Whole logs ----------

  function ProcessedAll(log: seq<SourceEvent>): State {
    if |log| == 0 then START else Processed(ProcessedAll(log[..|log| - 1]), log[|log| - 1])
  }

  ghost function DetectedAll(digest: string -> string, log: seq<SourceEvent>): seq<Detection> {
    if |log| == 0 then []
    else
      var before := log[..|log| - 1];
      var d := Detected(digest, ProcessedAll(before), log[|log| - 1]);
      DetectedAll(digest, before) + if d.Some? then [d.value] else []
  }

  predicate HasId(log: seq<SourceEvent>, id: string) {
    exists e :: e in log && e.eventId == id
  }

  /** The valid events of a log whose id no earlier valid event has. */
  function FirstValid(log: seq<SourceEvent>): seq<SourceEvent> {
    if |log| == 0 then []
    else
      var before, e := FirstValid(log[..|log| - 1]), log[|log| - 1];
      if IsValid(e) && !HasId(before, e.eventId) then before + [e] else before
  }

  lemma {:induction false} SeenIds(log: seq<SourceEvent>, id: string)
    ensures id in ProcessedAll(log).seen <==> HasId(FirstValid(log), id)
  {
    hide IsValid, Observed, Updated, Averaged;
    if |log| == 0 {
    } else {
      var before, e := log[..|log| - 1], log[|log| - 1];
      SeenIds(before, id);
      SeenIds(before, e.eventId);
      HasIdAppend(FirstValid(before), e, id);
    }
  }

  lemma HasIdAppend(log: seq<SourceEvent>, e: SourceEvent, id: string)
    ensures HasId(log + [e], id) <==> HasId(log, id) || e.eventId == id
  {
    var more := log + [e];
    assert more[|log|] == e;
    if HasId(log, id) {
      var x :| x in log && x.eventId == id;
      assert x in more;
    }
  }

  lemma FreshIff(log: seq<SourceEvent>, e: SourceEvent)
    ensures Fresh(ProcessedAll(log), e) <==> IsValid(e) && !HasId(FirstValid(log), e.eventId)
  {
    SeenIds(log, e.eventId);
  }

  lemma {:induction false} FirstValidTwice(log: seq<SourceEvent>)
    ensures FirstValid(FirstValid(log)) == FirstValid(log)
  {
    hide IsValid;
    if |log| == 0 {
    } else {
      var before, e := log[..|log| - 1], log[|log| - 1];
      FirstValidTwice(before);
      var kept := FirstValid(before);
      if FirstValid(log) != kept {
        assert (kept + [e])[..|kept|] == kept;
      }
    }
  }

  /**
   Redelivered, colliding and invalid events leave no trace: after any log the state and all
   detections are those of the log with only the first valid event of each id.
   */
  lemma {:induction false} RedeliveryInvisible(digest: string -> string, log: seq<SourceEvent>)
    ensures ProcessedAll(log) == ProcessedAll(FirstValid(log))
    ensures DetectedAll(digest, log) == DetectedAll(digest, FirstValid(log))
  {
    hide IsValid, Absorbed, Detected;
    if |log| == 0 {
    } else {
      var before, e := log[..|log| - 1], log[|log| - 1];
      RedeliveryInvisible(digest, before);
      FreshIff(before, e);
      var kept := FirstValid(before);
      if Fresh(ProcessedAll(before), e) {
        assert FirstValid(log)[..|kept|] == kept;
      } else {
        NotFresh(digest, ProcessedAll(before), e);
      }
    }
  }

  lemma NotFresh(digest: string -> string, s: State, e: SourceEvent)
    requires !Fresh(s, e)
    ensures Processed(s, e) == s && Detected(digest, s, e) == None
  {
    hide Fresh, Absorbed;
  }

  // ---------- Each id has one effect ----------

  predicate Distinct(log: seq<SourceEvent>) {
    forall j, k :: 0 <= j < k < |log| ==> log[j].eventId != log[k].eventId
  }

  lemma DistinctAppend(log: seq<SourceEvent>, e: SourceEvent)
    requires Distinct(log) && !HasId(log, e.eventId)
    ensures Distinct(log + [e])
  {
    forall j | 0 <= j < |log|
      ensures log[j].eventId != e.eventId
    {
      assert log[j] in log;
    }
  }

  lemma {:induction false} FirstValidDistinct(log: seq<SourceEvent>)
    ensures var kept := FirstValid(log);
            && (forall e :: e in kept ==> IsValid(e) && e in log)
            && Distinct(kept)
  {
    hide IsValid;
    if |log| == 0 {
    } else {
      FirstValidDistinct(log[..|log| - 1]);
      var before, e := FirstValid(log[..|log| - 1]), log[|log| - 1];
      if !HasId(before, e.eventId) {
        DistinctAppend(before, e);
      }
    }
  }

  function SourceOf(): Detection -> SourceEvent {
    (d: Detection) => d.source
  }

  function Detectable(digest: string -> string): SourceEvent -> bool {
    (e: SourceEvent) => e.parses && e.status == "failure" && DetectionId(digest, e.eventId) != e.eventId
  }

  lemma ValidFailure(e: SourceEvent)
    requires IsValid(e)
    ensures IsFailure(e) <==> e.status == "failure"
  {
    if e.status == "failure" {
      var t := e.eventType;
      assert |"_failed"| == 7;
      assert "checkout_failed"[8..] == "_failed" && "payment_failed"[7..] == "_failed";
      assert "authorization_failed"[13..] == "_failed" && "capture_failed"[7..] == "_failed";
      assert t == "checkout_failed" || t == "payment_failed" || t == "authorization_failed" || t == "capture_failed";
    }
  }

  /**
   The detected events are, in order, the failures among the first valid events that have a
   timestamp: none twice, none missed.
   */
  lemma {:induction false} DetectionsAreFirstFailures(digest: string -> string, log: seq<SourceEvent>)
    ensures Map(SourceOf(), DetectedAll(digest, log)) == Filter(Detectable(digest), FirstValid(log))
  {
    hide IsValid, Absorbed, IsFailure, CauseOf;
    if |log| == 0 {
    } else {
      var before, e := log[..|log| - 1], log[|log| - 1];
      DetectionsAreFirstFailures(digest, before);
      FreshIff(before, e);
      var kept := FirstValid(before);
      if Fresh(ProcessedAll(before), e) {
        ValidFailure(e);
        assert FirstValid(log)[..|kept|] == kept;
      } else {
        NotFresh(digest, ProcessedAll(before), e);
      }
    }
  }

  // ---------- The accumulators are folds over the first valid events ----------

  function WithIntentKey(key: string): SourceEvent -> bool {
    (e: SourceEvent) => e.parses && IntentKey(e) == key
  }

  function WithDegradationKey(key: string): SourceEvent -> bool {
    (e: SourceEvent) => e.parses && DegradationKey(e) == key
  }

  function AveragedAll(log: seq<SourceEvent>): Option<real> {
    if |log| == 0 then None
    else Some(Averaged(AveragedAll(log[..|log| - 1]), log[|log| - 1].status == "success"))
  }

  lemma FilterAppend<T(!new)>(p: T -> bool, s: seq<T>, x: T)
    ensures Filter(p, s + [x]) == if p(x) then Filter(p, s) + [x] else Filter(p, s)
  {
    assert (s + [x])[..|s|] == s;
  }

  lemma {:induction false} CountsOfFirst(log: seq<SourceEvent>)
    ensures ProcessedAll(log).counts == ObservedAll(Map(ObservationOf(), FirstValid(log)))
  {
    hide IsValid, Observed, Updated, Averaged;
    if |log| == 0 {
    } else {
      var before, e := log[..|log| - 1], log[|log| - 1];
      CountsOfFirst(before);
      FreshIff(before, e);
      var kept := FirstValid(before);
      if Fresh(ProcessedAll(before), e) {
        var seen := Map(ObservationOf(), kept + [e]);
        assert (kept + [e])[..|kept|] == kept;
        assert seen[..|kept|] == Map(ObservationOf(), kept) && seen[|kept|] == ObservationOf()(e);
      }
    }
  }

  lemma {:induction false} AveragesOfFirst(log: seq<SourceEvent>, key: string)
    ensures AverageOf(ProcessedAll(log), key) == AveragedAll(Filter(WithDegradationKey(key), FirstValid(log)))
  {
    hide IsValid, Observed, Updated, Averaged, DegradationKey, Filter;
    if |log| == 0 {
      assert Filter(WithDegradationKey(key), []) == [] by { NoneFiltered(WithDegradationKey(key)); }
    } else {
      var before, e := log[..|log| - 1], log[|log| - 1];
      AveragesOfFirst(before, key);
      FreshIff(before, e);
      if Fresh(ProcessedAll(before), e) {
        FilterAppend(WithDegradationKey(key), FirstValid(before), e);
        AveragedAppend(Filter(WithDegradationKey(key), FirstValid(before)), e);
      }
    }
  }

  lemma NoneFiltered(p: SourceEvent -> bool)
    ensures Filter(p, []) == []
  {
  }

  lemma AveragedAppend(log: seq<SourceEvent>, e: SourceEvent)
    ensures AveragedAll(log + [e]) == Some(Averaged(AveragedAll(log), e.status == "success"))
  {
    assert (log + [e])[..|log|] == log;
  }

  /** Nothing is known of a customer before the first event. */
  const NOBODY: Intent := NewIntent("", "")

  lemma {:induction false} IntentsOfFirst(log: seq<SourceEvent>, key: string)
    ensures var own := Filter(WithIntentKey(key), FirstValid(log));
            && (key in ProcessedAll(log).intents <==> |own| > 0)
            && (|own| > 0 ==> ProcessedAll(log).intents[key] == UpdatedAll(NOBODY, own))
  {
    hide IsValid, Observed, Updated, Averaged, IntentKey, Filter;
    if |log| == 0 {
      NoneFiltered(WithIntentKey(key));
    } else {
      var before, e := log[..|log| - 1], log[|log| - 1];
      IntentsOfFirst(before, key);
      FreshIff(before, e);
      if Fresh(ProcessedAll(before), e) {
        var own := Filter(WithIntentKey(key), FirstValid(before));
        FilterAppend(WithIntentKey(key), FirstValid(before), e);
        assert (own + [e])[..|own|] == own;
        FirstUpdate(e);
      }
    }
  }

  lemma FirstUpdate(e: SourceEvent)
    ensures Updated(NewIntent(e.customerId, e.merchantId), e) == Updated(NOBODY, e)
  {
  }

  lemma {:induction false} EveryEventIsEvidence(own: seq<SourceEvent>)
    requires Distinct(own)
    ensures var i := UpdatedAll(NOBODY, own);
            && |i.evidence| == |own|
            && forall k :: 0 <= k < |own| ==> i.evidence[k].eventId == own[k].eventId
    ensures forall x :: x in UpdatedAll(NOBODY, own).seen <==> HasId(own, x)
  {
    hide SignalOf, WeightAfter;
    if |own| == 0 {
    } else {
      var before, e := own[..|own| - 1], own[|own| - 1];
      EveryEventIsEvidence(before);
      assert own == before + [e];
      forall x
        ensures HasId(own, x) <==> HasId(before, x) || x == e.eventId
      {
        HasIdAppend(before, e, x);
      }
      assert !HasId(before, e.eventId);
    }
  }

  lemma {:induction false} FilterDistinct(p: SourceEvent -> bool, log: seq<SourceEvent>)
    requires Distinct(log)
    ensures Distinct(Filter(p, log))
  {
    if |log| == 0 {
    } else {
      var before, e := log[..|log| - 1], log[|log| - 1];
      FilterDistinct(p, before);
      forall x | x in Filter(p, before)
        ensures x.eventId != e.eventId
      {
        var k :| 0 <= k < |before| && before[k] == x;
        assert log[k] == x;
      }
      DistinctAppend(Filter(p, before), e);
    }
  }

  /**
   After any log, each of the three accumulators is the plain fold over the first valid events
   of its key (those with a timestamp, but for the counts), and a customer has one piece of
   evidence for each: the dedupe inside the intent state never has anything left to drop.
   */
  lemma AccumulatorsAreFolds(log: seq<SourceEvent>, key: string)
    ensures ProcessedAll(log).counts == ObservedAll(Map(ObservationOf(), FirstValid(log)))
    ensures AverageOf(ProcessedAll(log), key) == AveragedAll(Filter(WithDegradationKey(key), FirstValid(log)))
    ensures var own := Filter(WithIntentKey(key), FirstValid(log));
            && (key in ProcessedAll(log).intents <==> |own| > 0)
            && (|own| > 0 ==> ProcessedAll(log).intents[key] == UpdatedAll(NOBODY, own)
                              && |ProcessedAll(log).intents[key].evidence| == |own|)
  {
    hide ProcessedAll, FirstValid, Filter, UpdatedAll, AveragedAll, ObservedAll;
    CountsOfFirst(log);
    AveragesOfFirst(log, key);
    IntentsOfFirst(log, key);
    FirstValidDistinct(log);
    FilterDistinct(WithIntentKey(key), FirstValid(log));
    EveryEventIsEvidence(Filter(WithIntentKey(key), FirstValid(log)));
  }

  // ---------- What does not depend on the order ----------

  /** Each id belongs to one event. */
  ghost predicate IdsIdentify(log: seq<SourceEvent>) {
    forall e, f :: e in log && f in log && e.eventId == f.eventId ==> e == f
  }

  lemma {:induction false} FirstValidComplete(log: seq<SourceEvent>, e: SourceEvent)
    requires IdsIdentify(log)
    ensures e in FirstValid(log) <==> e in log && IsValid(e)
  {
    hide IsValid;
    if |log| == 0 {
    } else {
      var before, last := log[..|log| - 1], log[|log| - 1];
      assert log == before + [last];
      FirstValidComplete(before, e);
      FirstValidDistinct(before);
    }
  }

  lemma {:induction false} FirstValidOnce(log: seq<SourceEvent>, e: SourceEvent)
    ensures multiset(FirstValid(log))[e] == if e in FirstValid(log) then 1 else 0
  {
    hide IsValid;
    if |log| == 0 {
    } else {
      FirstValidOnce(log[..|log| - 1], e);
    }
  }

  /**
   However often and in whatever order the same events are delivered, the observation counts
   come out the same, and with them every explanation.
   */
  lemma OrderOfDelivery(a: seq<SourceEvent>, b: seq<SourceEvent>)
    requires IdsIdentify(a) && forall e :: e in a <==> e in b
    ensures ProcessedAll(a).counts == ProcessedAll(b).counts
  {
    hide FirstValid, ProcessedAll, IsValid, Map, ObservedAll;
    forall e
      ensures multiset(FirstValid(a))[e] == multiset(FirstValid(b))[e]
    {
      FirstValidComplete(a, e);
      FirstValidComplete(b, e);
      FirstValidOnce(a, e);
      FirstValidOnce(b, e);
    }
    CountsOfFirst(a);
    CountsOfFirst(b);
    MapPermutation(ObservationOf(), FirstValid(a), FirstValid(b));
    CountsIgnoreOrder(Map(ObservationOf(), FirstValid(a)), Map(ObservationOf(), FirstValid(b)));
  }

  // ---------- The moving average ----------

  lemma {:induction false} AverageBounded(log: seq<SourceEvent>)
    ensures |log| > 0 ==> AveragedAll(log).Some? && 0.0 <= AveragedAll(log).value <= 1.0
  {
    if |log| == 0 {
    } else {
      AverageBounded(log[..|log| - 1]);
    }
  }

  /** Whatever came before, three events without success raise an anomaly and two successes end it. */
  lemma AnomalyFollowsTrend(log: seq<SourceEvent>, x: SourceEvent, y: SourceEvent, z: SourceEvent)
    ensures x.status != "success" && y.status != "success" && z.status != "success" ==>
              AveragedAll(log + [x, y, z]).Some? && AveragedAll(log + [x, y, z]).value < THRESHOLD
    ensures y.status == "success" && z.status == "success" ==>
              AveragedAll(log + [x, y, z]).Some? && AveragedAll(log + [x, y, z]).value >= THRESHOLD
  {
    AverageBounded(log);
    AveragedAppend(log, x);
    AveragedAppend(log + [x], y);
    AveragedAppend(log + [x] + [y], z);
    assert log + [x, y, z] == log + [x] + [y] + [z];
  }
}
