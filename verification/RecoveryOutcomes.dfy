/** How the built runs and the follow-ups of a recovery end: event by event, roll by roll. */
module RecoveryOutcomes {
  import opened Collections
  import opened BatchIds
  import opened Lifecycle
  import opened Followups

  // ---------- Follow-ups ----------

  /** The events that `RecoveryFollowupEvents` returns for an action that was executed successfully. */
  predicate FollowUp(action: ActionName, attempts: nat, ids: Ids, percent: string -> nat, events: seq<LifecycleEvent>) {
    events == EventsOf(ids, AttemptId(ids.paymentId, FollowupAttempt(attempts)), FollowupSteps(action, percent))
  }

  /** The number of the attempt that a recovery makes. */
  function NextAttempt(attempts: nat): nat {
    if attempts == 0 then 2 else attempts + 1
  }

  /** The guard has taken all events, the last of them a success of the capture, and stays open. */
  ghost predicate EndsCaptured(g: Guard, events: seq<LifecycleEvent>) {
    && AllAccepted(g, events) && |events| > 0 && !After(g, events).terminal
    && events[|events| - 1].eventType == CaptureSucceeded && events[|events| - 1].status == "success"
    && After(g, events).last == Some(CaptureSucceeded) && CaptureSucceeded in After(g, events).successes
  }

  /** The guard has taken all events, the last of them a failed payment, and is stopped again. */
  ghost predicate EndsFailed(g: Guard, events: seq<LifecycleEvent>) {
    && AllAccepted(g, events) && |events| > 0 && After(g, events).terminal
    && events[|events| - 1].eventType == PaymentFailed && events[|events| - 1].status == "failure"
    && After(g, events).last == Some(PaymentFailed)
  }

  /** One payment is started, by the first of the events, and all are events of one attempt. */
  predicate OnePayment(events: seq<LifecycleEvent>, ids: Ids, n: nat) {
    && |events| > 0 && events[0].eventType == PaymentCreated && events[0].status == "success"
    && (forall i :: 1 <= i < |events| ==> events[i].eventType != PaymentCreated)
    && (forall i :: 0 <= i < |events| ==> events[i].ids == ids && events[i].attemptId == AttemptId(ids.paymentId, n))
  }

  lemma PaymentEnds(g: Guard, ids: Ids, n: nat, attempts: nat, success: bool)
    requires Recoverable(g, ids, n) && NextAttempt(attempts) != n
    ensures var events := EventsOf(ids, AttemptId(ids.paymentId, FollowupAttempt(attempts)), PaymentSteps(success));
            && OnePayment(events, ids, NextAttempt(attempts))
            && (if success then EndsCaptured(g, events) else EndsFailed(g, events))
  {
    hide AttemptId, Accepts, Chained, AllAccepted, IdsFit, After;
    var k := FollowupAttempt(attempts);
    var attemptId := AttemptId(ids.paymentId, k);
    FollowupAcceptedIff(g, ids, n, attempts, success);
    FirstFollowup(g, ids, n, k);
    AttemptNotEmpty(ids.paymentId, k);
    PaymentChained(success);
    ChainAccepted(g, ids, attemptId, PaymentSteps(success));
    assert PaymentSteps(true)[5] == Ok(CaptureSucceeded);
  }

  /**
   A switch or a retry from a recoverable guard ends in an accepted capture if and only if the
   action's roll is low enough, and otherwise in a failed payment; any other action ends so.
   */
  lemma RecoveryEnds(g: Guard, ids: Ids, n: nat, action: ActionName, attempts: nat, percent: string -> nat,
                     events: seq<LifecycleEvent>)
    requires Recoverable(g, ids, n) && NextAttempt(attempts) != n && action != SendLink
    requires FollowUp(action, attempts, ids, percent, events)
    ensures OnePayment(events, ids, NextAttempt(attempts))
    ensures EndsCaptured(g, events) <==>
            || (action == Switch && percent("SWITCH_PROVIDER") < 85)
            || (action == RetryThePayment && percent("RETRY_PAYMENT") < 35)
            || (action == RetryTheCapture && percent("RETRY_CAPTURE") < 35)
    ensures EndsFailed(g, events) <==> !EndsCaptured(g, events)
  {
    hide Recoverable, OnePayment, PaymentSteps, AllAccepted, After, AttemptId, FollowupAttempt;
    assert FollowupSteps(action, percent) == PaymentSteps(Succeeds(action, percent));
    PaymentEnds(g, ids, n, attempts, Succeeds(action, percent));
  }

  /**
   A payment link leads to nothing where the customer does not open it. Where he does, a click
   that the guard does not take comes first, and then a payment that is captured if and only if
   the roll is below 8.
   */
  lemma LinkEnds(g: Guard, ids: Ids, n: nat, attempts: nat, percent: string -> nat, events: seq<LifecycleEvent>)
    requires Recoverable(g, ids, n) && NextAttempt(attempts) != n
    requires FollowUp(SendLink, attempts, ids, percent, events)
    ensures percent("open") >= 55 <==> |events| == 0
    ensures percent("open") < 55 ==>
              && events[0].eventType == PaymentLinkClicked && events[0].status == "success"
              && After(g, events[..1]) == g && OnePayment(events[1..], ids, NextAttempt(attempts))
              && (EndsCaptured(g, events[1..]) <==> percent("SEND_PAYMENT_LINK") < 8)
              && (EndsFailed(g, events[1..]) <==> percent("SEND_PAYMENT_LINK") >= 8)
  {
    hide OnePayment, PaymentSteps, AllAccepted, After, AttemptId, FollowupAttempt, IdsFit;
    if percent("open") < 55 {
      assert events[0].eventType == PaymentLinkClicked && events[0].status == "success";
      AfterTheClick(g, ids, n, attempts, percent);
      var attemptId := AttemptId(ids.paymentId, FollowupAttempt(attempts));
      assert events[1..] == EventsOf(ids, attemptId, PaymentSteps(Succeeds(SendLink, percent)));
      PaymentEnds(g, ids, n, attempts, Succeeds(SendLink, percent));
    }
  }

  /** The text of an attempt id. */
  lemma AttemptText()
    ensures AttemptId("pay_7", NextAttempt(0)) == "pay_7:attempt:2"
    ensures AttemptId("pay_7", NextAttempt(9)) == "pay_7:attempt:10"
  {
    assert Decimal(10) == Decimal(1) + "0";
  }

  // ---------- Scenarios ----------

  /** The stage at which the run of a scenario fails for good. */
  predicate Fails(s: Scenario, seed: nat, drawn: Stage, stage: Stage) {
    || (s == RandomFailure && drawn == stage)
    || (stage == CheckoutStage && (s == CheckoutFailure || (s == LiveMix && seed % 10 == 6)))
    || (stage == PaymentStage && (s == PaymentFailure || (s == LiveMix && seed % 10 == 7)))
    || (stage == AuthorizationStage && (s == AuthorizationFailure || (s == LiveMix && seed % 10 == 8)))
    || (stage == CaptureStage && (s == CaptureFailure || (s == LiveMix && seed % 10 == 9)))
  }

  /** The steps have these types in this order, and are failures at exactly these positions. */
  predicate Runs(steps: seq<LifecycleStep>, types: seq<EventType>, failing: set<nat>) {
    && |steps| == |types|
    && (forall i :: 0 <= i < |steps| ==> steps[i].eventType == types[i])
    && (forall i :: 0 <= i < |steps| ==> steps[i].status == if i in failing then "failure" else "success")
  }

  /** What is seen of a run that fails at a stage. */
  function TypesUpTo(stage: Stage): (types: seq<EventType>)
    ensures |types| > 0
  {
    match stage
    case CheckoutStage => [CheckoutStarted, CheckoutFailed]
    case PaymentStage => [CheckoutStarted, CheckoutCompleted, PaymentCreated, PaymentFailed]
    case AuthorizationStage =>
      [CheckoutStarted, CheckoutCompleted, PaymentCreated, PaymentSucceeded, AuthorizationRequested,
       AuthorizationFailed]
    case CaptureStage =>
      [CheckoutStarted, CheckoutCompleted, PaymentCreated, PaymentSucceeded, AuthorizationRequested,
       AuthorizationSucceeded, CaptureRequested, CaptureFailed]
  }

  const ALL_TYPES: seq<EventType> :=
    [CheckoutStarted, CheckoutCompleted, PaymentCreated, PaymentSucceeded, AuthorizationRequested,
     AuthorizationSucceeded, CaptureRequested, CaptureSucceeded]

  const RETRIED_TYPES: seq<EventType> :=
    [CheckoutStarted, CheckoutCompleted, PaymentCreated, PaymentSucceeded, AuthorizationRequested,
     AuthorizationFailed, AuthorizationRequested, AuthorizationSucceeded, CaptureRequested, CaptureSucceeded]

  lemma FailingRuns(stage: Stage)
    ensures Runs(FailingAt(stage), TypesUpTo(stage), {|TypesUpTo(stage)| - 1})
  {
  }

  lemma FullRun()
    ensures Runs(TO_CAPTURE + [Ok(CaptureSucceeded)], ALL_TYPES, {})
  {
  }

  lemma RetriedRun()
    ensures Runs(FailingAt(AuthorizationStage) + RETRY_STEPS, RETRIED_TYPES, {5})
  {
  }

  lemma StepsOfFailing(s: Scenario, seed: nat, drawn: Stage, stage: Stage)
    requires Fails(s, seed, drawn, stage)
    ensures ScenarioSteps(s, seed, drawn) == FailingAt(stage) && s != RecoveryRetry
  {
    hide FailingAt;
  }

  lemma StepsOfOthers(s: Scenario, seed: nat, drawn: Stage)
    requires forall stage :: !Fails(s, seed, drawn, stage)
    ensures ScenarioSteps(s, seed, drawn) ==
            if s == RecoveryRetry then FailingAt(AuthorizationStage) + RETRY_STEPS
            else TO_CAPTURE + [Ok(CaptureSucceeded)]
  {
    hide FailingAt;
    assert !Fails(s, seed, drawn, drawn) && !Fails(s, seed, drawn, CheckoutStage);
    assert !Fails(s, seed, drawn, PaymentStage) && !Fails(s, seed, drawn, AuthorizationStage);
    assert !Fails(s, seed, drawn, CaptureStage);
  }

  /**
   Event by event: a scenario runs through all eight steps unless it fails at a stage, where it
   ends; the retry scenario alone goes on after its failure.
   */
  lemma ScenarioRuns(s: Scenario, seed: nat, drawn: Stage)
    ensures var steps := ScenarioSteps(s, seed, drawn);
            && (forall stage :: Fails(s, seed, drawn, stage) ==>
                                  Runs(steps, TypesUpTo(stage), {|TypesUpTo(stage)| - 1}))
            && ((forall stage :: !Fails(s, seed, drawn, stage)) ==>
                  if s == RecoveryRetry then Runs(steps, RETRIED_TYPES, {5}) else Runs(steps, ALL_TYPES, {}))
  {
    hide Fails, FailingAt, Runs, ScenarioSteps, TypesUpTo;
    forall stage | Fails(s, seed, drawn, stage)
      ensures Runs(ScenarioSteps(s, seed, drawn), TypesUpTo(stage), {|TypesUpTo(stage)| - 1})
    {
      StepsOfFailing(s, seed, drawn, stage);
      FailingRuns(stage);
    }
    if forall stage :: !Fails(s, seed, drawn, stage) {
      StepsOfOthers(s, seed, drawn);
      RetriedRun();
      FullRun();
    }
  }

  lemma LastTaken(g: Guard, events: seq<LifecycleEvent>)
    requires AllAccepted(g, events) && |events| > 0
    ensures var g', e := After(g, events), events[|events| - 1];
            && g'.last == Some(e.eventType) && (g'.terminal <==> e.status in {"failure", "unknown"})
            && (e.status == "success" ==> e.eventType in g'.successes)
  {
    hide BoundIds, IdsFit;
    assert AcceptedAt(g, events, |events| - 1);
  }

  lemma LastOfRun(s: Scenario, seed: nat, drawn: Stage)
    ensures var steps := ScenarioSteps(s, seed, drawn);
            && |steps| > 0
            && (steps[|steps| - 1] == Ok(CaptureSucceeded) <==> forall stage :: !Fails(s, seed, drawn, stage))
  {
    hide ScenarioSteps, Fails;
    ScenarioRuns(s, seed, drawn);
    if stage :| Fails(s, seed, drawn, stage) {
      var types := TypesUpTo(stage);
      assert types[|types| - 1] != CaptureSucceeded;
    }
  }

  /**
   Exactly the scenarios that fail nowhere end in an accepted capture. All events are of one
   attempt, but for the retry scenario, whose second attempt begins with the seventh event.
   */
  lemma ScenarioEnds(s: Scenario, seed: nat, drawn: Stage, ids: Ids)
    requires Lifecycle.Complete(ids)
    ensures var events := ScenarioEvents(s, seed, drawn, ids);
            && (EndsCaptured(FreshGuard(ids.transactionId), events) <==> forall stage :: !Fails(s, seed, drawn, stage))
            && (forall i :: 0 <= i < |events| ==>
                  && events[i].ids == ids
                  && events[i].attemptId == AttemptId(ids.paymentId, if s == RecoveryRetry && i >= 6 then 2 else 1))
  {
    hide ScenarioSteps, ScenarioEvents, AttemptId, After, AllAccepted, Fails, Runs;
    ScenarioAccepted(s, seed, drawn, ids);
    ScenarioRuns(s, seed, drawn);
    StepsChained(s, seed, drawn);
    EventsMatchSteps(s, seed, drawn, ids);
    LastTaken(FreshGuard(ids.transactionId), ScenarioEvents(s, seed, drawn, ids));
    LastOfRun(s, seed, drawn);
  }
}
